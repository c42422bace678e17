/**
 * The configuration as a JSON document, where src/config/config.js handles it
 * before it is typed: the old-format migration in `loadConfig` and the
 * validation and merge in `importConfig`. Reading, parsing and writing the
 * file are outside the model; a document that does not parse is `None`.
 */
module ConfigDocument {
  import opened Wrappers
  import opened Js

  const Providers: seq<string> := ["openai", "gemini", "grok"]
  const RequiredFields: seq<string> := ["apiKeys", "models", "defaultProvider"]

  /** The migration test: `apiKeys` is a truthy object whose `openai` is not an array. */
  predicate NeedsMigration(config: Json) {
    var apiKeys := Field(config, "apiKeys");
    Truthy(apiKeys) && IsObjectType(apiKeys) && !Field(apiKeys, "openai").JArr?
  }

  /** `{name: 'Default', key, isDefault: true}`. */
  function DefaultEntry(key: Json): Json {
    JObj(map["name" := JStr("Default"), "key" := key, "isDefault" := JBool(true)])
  }

  /** One provider's list after migration, as written: a truthy value becomes a one-entry list. */
  function LegacyList(value: Json): (r: Json)
    ensures Truthy(value) ==> r == JArr([DefaultEntry(value)])
    ensures !Truthy(value) ==> r == JArr([])
  {
    if Truthy(value) then JArr([DefaultEntry(value)]) else JArr([])
  }

  /**
   * The migration in `loadConfig`, as written: when the test holds, every one
   * of the three providers' values is wrapped, whatever its shape; other
   * top-level fields are kept.
   */
  function Migrate(config: Json): (r: Json)
  {
    if NeedsMigration(config) then
      var stored := Field(config, "apiKeys");
      JObj(config.fields["apiKeys" := JObj(map["openai" := LegacyList(Field(stored, "openai")),
                                               "gemini" := LegacyList(Field(stored, "gemini")),
                                               "grok" := LegacyList(Field(stored, "grok"))])])
    else config
  }

  /**
   * A migrated document holds a list for each provider, one entry holding the
   * old value when that was truthy and none otherwise; its other fields are
   * unchanged. A document that does not need migration is returned as is.
   */
  lemma MigrateShape(config: Json)
    ensures var r := Migrate(config);
      && (r.JObj? <==> config.JObj?)
      && (!NeedsMigration(config) ==> r == config)
      && (NeedsMigration(config) ==>
            && (forall k :: k in config.fields && k != "apiKeys" ==> Field(r, k) == config.fields[k])
            && r.fields.Keys == config.fields.Keys + {"apiKeys"}
            && forall p :: p in Providers ==>
                 var v := Field(Field(config, "apiKeys"), p);
                 Field(Field(r, "apiKeys"), p) == (if Truthy(v) then JArr([DefaultEntry(v)]) else JArr([])))
  {
  }

  /** Migration is done once: a migrated document does not need it again. */
  lemma MigrateOnce(config: Json)
    ensures !NeedsMigration(Migrate(config))
    ensures Migrate(Migrate(config)) == Migrate(config)
  {
  }

  /** The configuration `loadConfig` falls back to. */
  const DefaultDocument: Json :=
    JObj(map["defaultProvider" := JStr("gemini"),
             "apiKeys" := JObj(map["openai" := JArr([]), "gemini" := JArr([]), "grok" := JArr([])]),
             "models" := JObj(map["openai" := JStr("gpt-3.5-turbo"),
                                  "gemini" := JStr("gemini-1.5-flash"),
                                  "grok" := JStr("grok-3")]),
             "firstRun" := JBool(true)])

  /**
   * `loadConfig` on what reading and parsing the file gave: `None` when the
   * file is missing or reading or parsing it threw. A parsed `null` makes the
   * migration test throw; every throw is caught and the default
   * configuration is returned. Anything else goes through the migration.
   */
  function LoadDocument(parsed: Option<Json>): (r: Json)
    ensures parsed.None? || parsed == Some(JNull) ==> r == DefaultDocument
    ensures parsed.Some? && parsed.value != JNull ==> r == Migrate(parsed.value)
    ensures parsed.Some? && parsed.value != JNull && !NeedsMigration(parsed.value) ==> r == parsed.value
    ensures r != JNull && !NeedsMigration(r)
  {
    if parsed.None? || parsed.value.JNull? then DefaultDocument
    else
      MigrateOnce(parsed.value);
      Migrate(parsed.value)
  }

  /**
   * A configuration already in the list format that simply has no `openai`
   * list is taken for the old format, and its `gemini` list is wrapped whole
   * as the `key` of a single entry.
   */
  lemma MigrationWrapsExistingList()
    ensures var entry := JObj(map["name" := JStr("work"), "key" := JStr("k1"), "isDefault" := JBool(true)]);
      var config := JObj(map["apiKeys" := JObj(map["gemini" := JArr([entry])])]);
      && NeedsMigration(config)
      && Field(Field(Migrate(config), "apiKeys"), "gemini") == JArr([DefaultEntry(JArr([entry]))])
      && Field(Field(Migrate(config), "apiKeys"), "gemini") != JArr([entry])
  {
    var entry := JObj(map["name" := JStr("work"), "key" := JStr("k1"), "isDefault" := JBool(true)]);
    var config := JObj(map["apiKeys" := JObj(map["gemini" := JArr([entry])])]);
    assert Field(Field(config, "apiKeys"), "openai") == JNull;
    assert Field(Field(config, "apiKeys"), "gemini") == JArr([entry]);
    assert DefaultEntry(JArr([entry])) != entry by {
      assert Field(DefaultEntry(JArr([entry])), "key") != Field(entry, "key");
    }
  }

  /** One provider's list after the corrected migration: a list is kept, anything else is converted. */
  function MigratedList(value: Json): (r: Json)
    ensures value.JArr? ==> r == value
    ensures !value.JArr? ==> r == LegacyList(value)
  {
    if value.JArr? then value else LegacyList(value)
  }

  /** The corrected migration: the same test, but lists already present are kept. */
  function MigrateKeepingLists(config: Json): (r: Json)
  {
    if NeedsMigration(config) then
      var stored := Field(config, "apiKeys");
      JObj(config.fields["apiKeys" := JObj(map["openai" := MigratedList(Field(stored, "openai")),
                                               "gemini" := MigratedList(Field(stored, "gemini")),
                                               "grok" := MigratedList(Field(stored, "grok"))])])
    else config
  }

  /**
   * The corrected migration never changes a provider list that is already a
   * list, gives every provider a list, and agrees with the original on every
   * document in the old format (no provider value a list).
   */
  lemma MigrateKeepingListsCorrect(config: Json)
    ensures forall p :: p in Providers && Field(Field(config, "apiKeys"), p).JArr? ==>
              Field(Field(MigrateKeepingLists(config), "apiKeys"), p) == Field(Field(config, "apiKeys"), p)
    ensures NeedsMigration(config) ==>
              forall p :: p in Providers ==> Field(Field(MigrateKeepingLists(config), "apiKeys"), p).JArr?
    ensures (forall p :: p in Providers ==> !Field(Field(config, "apiKeys"), p).JArr?) ==>
              MigrateKeepingLists(config) == Migrate(config)
    ensures !NeedsMigration(MigrateKeepingLists(config))
  {
    var stored := Field(config, "apiKeys");
    if (forall p :: p in Providers ==> !Field(stored, p).JArr?) {
      assert !Field(stored, "gemini").JArr? && !Field(stored, "grok").JArr?;
    }
  }

  /** Why `importConfig` returns false. */
  datatype ImportFailure =
    | Unparsable           // JSON.parse threw
    | NullDocument         // the document is `null`, so reading `.config` threw
    | Rejected(message: string)

  /** The first of `fields` whose value in `config` is falsy. */
  function FirstMissing(config: Json, fields: seq<string>): (r: Option<string>)
    ensures r.None? <==> forall i :: 0 <= i < |fields| ==> Truthy(Field(config, fields[i]))
    ensures r.Some? ==> exists i :: 0 <= i < |fields| && fields[i] == r.value && !Truthy(Field(config, fields[i]))
                                    && forall j :: 0 <= j < i ==> Truthy(Field(config, fields[j]))
  {
    if fields == [] then None
    else if !Truthy(Field(config, fields[0])) then Some(fields[0])
    else match FirstMissing(config, fields[1..])
      case None => None
      case Some(f) =>
        assert forall i :: 1 <= i < |fields| ==> fields[1..][i - 1] == fields[i];
        Some(f)
  }

  /** A provider key list the import refuses: present (truthy) but not an array. */
  predicate Malformed(apiKeys: Json, provider: string) {
    Truthy(Field(apiKeys, provider)) && !Field(apiKeys, provider).JArr?
  }

  /** The first of `providers` whose key list is malformed. */
  function FirstMalformed(apiKeys: Json, providers: seq<string>): (r: Option<string>)
    ensures r.None? <==> forall i :: 0 <= i < |providers| ==> !Malformed(apiKeys, providers[i])
    ensures r.Some? ==> r.value in providers && Malformed(apiKeys, r.value)
    ensures r.Some? ==> exists i :: 0 <= i < |providers| && providers[i] == r.value
                                    && forall j :: 0 <= j < i ==> !Malformed(apiKeys, providers[j])
  {
    if providers == [] then None
    else if Malformed(apiKeys, providers[0]) then Some(providers[0])
    else match FirstMalformed(apiKeys, providers[1..])
      case None => None
      case Some(p) =>
        assert forall i :: 1 <= i < |providers| ==> providers[1..][i - 1] == providers[i];
        Some(p)
  }

  /**
   * The validation and merge of `importConfig`: the imported `config` object's
   * fields override the current ones. The result is the new configuration
   * document, or why it was refused.
   */
  function ImportConfig(current: map<string, Json>, parsed: Option<Json>): (r: Result<map<string, Json>, ImportFailure>)
  {
    if parsed.None? then Failure(Unparsable)
    else if parsed.value.JNull? then Failure(NullDocument)
    else
      var config := Field(parsed.value, "config");
      if !Truthy(config) || !IsObjectType(config) then Failure(Rejected("Invalid configuration format"))
      else match FirstMissing(config, RequiredFields)
        case Some(f) => Failure(Rejected("Missing required field: " + f))
        case None =>
          match FirstMalformed(Field(config, "apiKeys"), Providers)
          case Some(p) => Failure(Rejected("Invalid API keys format for " + p))
          case None => Success(current + config.fields)
  }

  /** The documents `importConfig` accepts, stated field by field. */
  predicate Acceptable(parsed: Json) {
    var config := Field(parsed, "config");
    && config.JObj?
    && (forall f :: f in RequiredFields ==> f in config.fields && Truthy(config.fields[f]))
    && (forall p :: p in Providers ==> !Malformed(config.fields["apiKeys"], p))
  }

  /**
   * An import succeeds exactly on acceptable documents, and then every
   * imported field replaces the current one while the current fields it does
   * not mention are kept.
   */
  lemma ImportAcceptsIff(current: map<string, Json>, parsed: Option<Json>)
    ensures ImportConfig(current, parsed).Success? <==> parsed.Some? && Acceptable(parsed.value)
    ensures ImportConfig(current, parsed).Success? ==>
              var merged := ImportConfig(current, parsed).value;
              var imported := Field(parsed.value, "config").fields;
              && merged.Keys == current.Keys + imported.Keys
              && (forall k :: k in imported ==> merged[k] == imported[k])
              && (forall k :: k in current && k !in imported ==> merged[k] == current[k])
  {
    if parsed.Some? && !parsed.value.JNull? {
      var config := Field(parsed.value, "config");
      if config.JArr? {
        assert Field(config, "apiKeys") == JNull;
        assert FirstMissing(config, RequiredFields).Some?;
      }
      if config.JObj? {
        assert forall f :: f in RequiredFields <==> f == RequiredFields[0] || f == RequiredFields[1] || f == RequiredFields[2];
        assert forall p :: p in Providers <==> p == Providers[0] || p == Providers[1] || p == Providers[2];
      }
    }
  }

  /** Each refusal carries the message the source throws. */
  lemma ImportMessages(current: map<string, Json>, parsed: Json)
    requires !parsed.JNull?
    ensures var config := Field(parsed, "config");
      && (!config.JObj? && !config.JArr? ==>
            ImportConfig(current, Some(parsed)) == Failure(Rejected("Invalid configuration format")))
      && (config.JObj? && !Truthy(Field(config, "apiKeys")) ==>
            ImportConfig(current, Some(parsed)) == Failure(Rejected("Missing required field: apiKeys")))
      && (config.JObj? && Truthy(Field(config, "apiKeys")) && Truthy(Field(config, "models"))
            && Truthy(Field(config, "defaultProvider")) && Malformed(Field(config, "apiKeys"), "openai") ==>
            ImportConfig(current, Some(parsed)) == Failure(Rejected("Invalid API keys format for openai")))
  {
    var config := Field(parsed, "config");
    assert RequiredFields[0] == "apiKeys" && Providers[0] == "openai";
    if config.JObj? && Truthy(Field(config, "apiKeys")) && Truthy(Field(config, "models"))
       && Truthy(Field(config, "defaultProvider"))
    {
      assert forall i :: 0 <= i < |RequiredFields| ==> Truthy(Field(config, RequiredFields[i]));
      if Malformed(Field(config, "apiKeys"), "openai") {
        assert FirstMalformed(Field(config, "apiKeys"), Providers) == Some("openai");
        assert "Invalid API keys format for " + "openai" == "Invalid API keys format for openai";
      }
    }
    if config.JObj? && !Truthy(Field(config, "apiKeys")) {
      assert FirstMissing(config, RequiredFields) == Some("apiKeys");
      assert "Missing required field: " + "apiKeys" == "Missing required field: apiKeys";
    }
  }
}
