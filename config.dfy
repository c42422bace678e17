/**
 * The ConfigManager of src/config/config.js: per-provider API-key lists with
 * at most one default entry, environment-over-config key resolution, the
 * model table with its fallbacks, and the default-provider state.
 *
 * The configuration file is not read or written: the manager starts from the
 * default configuration, and every `saveConfig()` call is counted in `saves`.
 * Environment variables are a parameter `env` (variable name to value).
 */
module Config {
  import opened Wrappers
  import opened Chat

  /** One stored key: `{name, key, isDefault}`. */
  datatype ApiKeyEntry = ApiKeyEntry(name: string, key: string, isDefault: bool)

  /** The invariant the list updates keep: no two entries are both default. */
  predicate AtMostOneDefault(keys: seq<ApiKeyEntry>) {
    forall i, j :: 0 <= i < |keys| && 0 <= j < |keys| && keys[i].isDefault && keys[j].isDefault ==> i == j
  }

  predicate NoDefault(keys: seq<ApiKeyEntry>) {
    forall i :: 0 <= i < |keys| ==> !keys[i].isDefault
  }

  /** `keys.find(k => k.isDefault)`, as the index of the entry found. */
  function FirstDefault(keys: seq<ApiKeyEntry>): (r: Option<nat>)
    ensures r.None? <==> NoDefault(keys)
    ensures r.Some? ==> r.value < |keys| && keys[r.value].isDefault
    ensures r.Some? ==> forall j :: 0 <= j < r.value ==> !keys[j].isDefault
  {
    if keys == [] then None
    else if keys[0].isDefault then Some(0)
    else match FirstDefault(keys[1..])
      case None => None
      case Some(i) => Some(i + 1)
  }

  /** `keys.findIndex(k => k.name === name)`, with `None` for -1. */
  function FindByName(keys: seq<ApiKeyEntry>, name: string): (r: Option<nat>)
    ensures r.None? <==> forall i :: 0 <= i < |keys| ==> keys[i].name != name
    ensures r.Some? ==> r.value < |keys| && keys[r.value].name == name
    ensures r.Some? ==> forall j :: 0 <= j < r.value ==> keys[j].name != name
  {
    if keys == [] then None
    else if keys[0].name == name then Some(0)
    else match FindByName(keys[1..], name)
      case None => None
      case Some(i) => Some(i + 1)
  }

  /** The list after `forEach(k => k.isDefault = false)`. */
  function ClearDefaults(keys: seq<ApiKeyEntry>): seq<ApiKeyEntry> {
    seq(|keys|, i requires 0 <= i < |keys| => keys[i].(isDefault := false))
  }

  /** Clearing keeps every name and key, in place, and leaves no default. */
  lemma ClearKeepsEntries(keys: seq<ApiKeyEntry>)
    ensures |ClearDefaults(keys)| == |keys| && NoDefault(ClearDefaults(keys))
    ensures forall i :: 0 <= i < |keys| ==>
              ClearDefaults(keys)[i].name == keys[i].name && ClearDefaults(keys)[i].key == keys[i].key
  {
  }

  /**
   * The `forEach` that un-defaults every entry, written as the loop it is.
   */
  method UnsetDefaults(keys: seq<ApiKeyEntry>) returns (r: seq<ApiKeyEntry>)
    ensures r == ClearDefaults(keys)
  {
    r := keys;
    var i := 0;
    while i < |r|
      invariant 0 <= i <= |r| == |keys|
      invariant forall j :: 0 <= j < i ==> r[j] == keys[j].(isDefault := false)
      invariant forall j :: i <= j < |r| ==> r[j] == keys[j]
    {
      r := r[i := r[i].(isDefault := false)];
      i := i + 1;
    }
  }

  /** The list after `addApiKey(p, name, key, isDefault)`. */
  function WithAdded(keys: seq<ApiKeyEntry>, entry: ApiKeyEntry): seq<ApiKeyEntry> {
    (if entry.isDefault then ClearDefaults(keys) else keys) + [entry]
  }

  /**
   * Adding appends the entry at the end and keeps the others in order; a new
   * default is then the only default, and otherwise the defaults stay as
   * they were.
   */
  lemma {:induction false} AddAppends(keys: seq<ApiKeyEntry>, entry: ApiKeyEntry)
    ensures var r := WithAdded(keys, entry);
      && |r| == |keys| + 1
      && r[|keys|] == entry
      && (forall i :: 0 <= i < |keys| ==> r[i].name == keys[i].name && r[i].key == keys[i].key)
      && (entry.isDefault ==> forall i :: 0 <= i < |keys| ==> !r[i].isDefault)
      && (!entry.isDefault ==> r[..|keys|] == keys)
  {
    ClearKeepsEntries(keys);
    var r := WithAdded(keys, entry);
    if !entry.isDefault {
      assert r[..|keys|] == keys;
    }
  }

  /** Adding keeps at most one default. */
  lemma {:induction false} AddKeepsOneDefault(keys: seq<ApiKeyEntry>, entry: ApiKeyEntry)
    requires AtMostOneDefault(keys)
    ensures AtMostOneDefault(WithAdded(keys, entry))
  {
    AddAppends(keys, entry);
    var r := WithAdded(keys, entry);
    if !entry.isDefault {
      forall i, j | 0 <= i < |r| && 0 <= j < |r| && r[i].isDefault && r[j].isDefault
        ensures i == j
      {
        assert i < |keys| && j < |keys|;
        assert keys[i].isDefault && keys[j].isDefault;
      }
    }
  }

  /** After adding a default key it is the one `find(k => k.isDefault)` returns. */
  lemma {:induction false} AddedDefaultIsFound(keys: seq<ApiKeyEntry>, entry: ApiKeyEntry)
    requires entry.isDefault
    ensures FirstDefault(WithAdded(keys, entry)) == Some(|keys|)
  {
    AddAppends(keys, entry);
  }

  /**
   * The list after `splice(index, 1)` of a found entry, with index 0 made the
   * default when the removed entry was the default and entries remain.
   */
  function WithRemoved(keys: seq<ApiKeyEntry>, index: nat): seq<ApiKeyEntry>
    requires index < |keys|
  {
    var rest := keys[..index] + keys[index + 1..];
    if keys[index].isDefault && |rest| > 0 then rest[0 := rest[0].(isDefault := true)] else rest
  }

  /**
   * Removing drops exactly the entry at `index`; the others keep their order,
   * and their flags except that index 0 becomes default when the removed entry
   * was the default.
   */
  lemma RemoveDrops(keys: seq<ApiKeyEntry>, index: nat)
    requires index < |keys|
    ensures var r := WithRemoved(keys, index);
      && |r| == |keys| - 1
      && (forall i :: 0 <= i < |r| ==>
            var k := if i < index then keys[i] else keys[i + 1];
            r[i].name == k.name && r[i].key == k.key
            && r[i].isDefault == (k.isDefault || (i == 0 && keys[index].isDefault)))
  {
  }

  /** Removing keeps at most one default, and removing the default leaves one if any entry is left. */
  lemma {:induction false} RemoveKeepsOneDefault(keys: seq<ApiKeyEntry>, index: nat)
    requires index < |keys| && AtMostOneDefault(keys)
    ensures AtMostOneDefault(WithRemoved(keys, index))
    ensures keys[index].isDefault && |keys| > 1 ==> FirstDefault(WithRemoved(keys, index)) == Some(0)
  {
    RemoveDrops(keys, index);
    var r := WithRemoved(keys, index);
    if keys[index].isDefault {
      assert forall m :: 0 <= m < |keys| && m != index ==> !keys[m].isDefault;
      forall i | 0 < i < |r|
        ensures !r[i].isDefault
      {
        var ki := if i < index then i else i + 1;
        assert r[i].isDefault == keys[ki].isDefault;
      }
    } else {
      forall i, j | 0 <= i < |r| && 0 <= j < |r| && r[i].isDefault && r[j].isDefault
        ensures i == j
      {
        var ki := if i < index then i else i + 1;
        var kj := if j < index then j else j + 1;
        assert keys[ki].isDefault && keys[kj].isDefault;
      }
    }
  }

  /** The list after `setDefaultApiKey`: every default cleared, then the first entry named `name` made default. */
  function WithDefault(keys: seq<ApiKeyEntry>, name: string): seq<ApiKeyEntry> {
    var cleared := ClearDefaults(keys);
    match FindByName(cleared, name)
    case None => cleared
    case Some(i) => cleared[i := cleared[i].(isDefault := true)]
  }

  /**
   * Afterwards the first entry named `name` is the only default, or there is
   * no default when no entry has that name; names and keys are untouched.
   */
  lemma {:induction false} SetDefaultIsSole(keys: seq<ApiKeyEntry>, name: string)
    ensures var r := WithDefault(keys, name);
      && |r| == |keys|
      && AtMostOneDefault(r)
      && (forall i :: 0 <= i < |keys| ==> r[i].name == keys[i].name && r[i].key == keys[i].key)
      && (FindByName(keys, name).None? ==> NoDefault(r))
      && (FindByName(keys, name).Some? ==> FirstDefault(r) == FindByName(keys, name))
  {
    ClearKeepsEntries(keys);
    var cleared := ClearDefaults(keys);
    assert forall i :: 0 <= i < |keys| ==> cleared[i].name == keys[i].name;
    assert FindByName(cleared, name) == FindByName(keys, name) by {
      NamesDecideFind(cleared, keys, name);
    }
  }

  /** `findIndex` by name looks only at names. */
  lemma {:induction false} NamesDecideFind(a: seq<ApiKeyEntry>, b: seq<ApiKeyEntry>, name: string)
    requires |a| == |b| && forall i :: 0 <= i < |a| ==> a[i].name == b[i].name
    ensures FindByName(a, name) == FindByName(b, name)
  {
    if a != [] && a[0].name != name {
      NamesDecideFind(a[1..], b[1..], name);
    }
  }

  /** The display names of `getProviderNames`. */
  function DisplayName(p: ProviderKey): string {
    match p
    case OpenAI => "ChatGPT (OpenAI)"
    case Gemini => "Gemini (Google)"
    case Grok => "Grok AI (xAI)"
  }

  /** The environment variable read for each provider. */
  function EnvVar(p: ProviderKey): string {
    match p
    case OpenAI => "OPENAI_API_KEY"
    case Gemini => "GEMINI_API_KEY"
    case Grok => "GROK_API_KEY"
  }

  /** `getDefaultModel`: the fixed default table, else 'unknown'. */
  function GetDefaultModel(provider: string): (m: string)
    ensures m == "unknown" <==> provider !in {"openai", "gemini", "grok"}
    ensures provider == "gemini" ==> m == "gemini-1.5-flash"
  {
    if provider == "openai" then "gpt-3.5-turbo"
    else if provider == "gemini" then "gemini-1.5-flash"
    else if provider == "grok" then "grok-3"
    else "unknown"
  }

  /** Position in the fixed provider order openai, gemini, grok. */
  function Rank(provider: string): nat {
    if provider == "openai" then 0 else if provider == "gemini" then 1 else 2
  }

  /** A resolved key is truthy when present and not empty. */
  predicate TruthyKey(k: Option<string>) {
    k.Some? && k.value != ""
  }

  /** One row of `getConfigSummary().providers`. */
  datatype ProviderSummary = ProviderSummary(name: string, model: string, hasKey: bool, keyCount: nat)

  datatype Summary = Summary(defaultProvider: string, providers: map<string, ProviderSummary>)

  class ConfigManager {
    var apiKeys: map<string, seq<ApiKeyEntry>>
    var models: map<string, string>
    var defaultProvider: string
    var firstRun: bool
    /** How many times `saveConfig()` was called. */
    var saves: nat

    /** Every stored list keeps at most one default. */
    predicate Valid()
      reads this
    {
      forall p :: p in apiKeys ==> AtMostOneDefault(apiKeys[p])
    }

    /** The configuration `loadConfig` returns when there is no file. */
    constructor ()
      ensures defaultProvider == "gemini" && firstRun && saves == 0
      ensures apiKeys == map["openai" := [], "gemini" := [], "grok" := []]
      ensures models == map["openai" := "gpt-3.5-turbo", "gemini" := "gemini-1.5-flash", "grok" := "grok-3"]
      ensures Valid()
    {
      defaultProvider := "gemini";
      apiKeys := map["openai" := [], "gemini" := [], "grok" := []];
      models := map["openai" := "gpt-3.5-turbo", "gemini" := "gemini-1.5-flash", "grok" := "grok-3"];
      firstRun := true;
      saves := 0;
    }

    /** `getApiKeysForProvider`: the stored list, or [] when there is none. */
    function GetApiKeysForProvider(provider: string): (keys: seq<ApiKeyEntry>)
      reads this
      ensures provider in apiKeys ==> keys == apiKeys[provider]
      ensures provider !in apiKeys ==> keys == []
    {
      if provider in apiKeys then apiKeys[provider] else []
    }

    /** `getDefaultApiKey`: the key of the first default entry, or null. */
    function GetDefaultApiKey(provider: string): (k: Option<string>)
      reads this
      ensures k.None? <==> NoDefault(GetApiKeysForProvider(provider))
      ensures k.Some? ==> exists i :: 0 <= i < |GetApiKeysForProvider(provider)|
                            && GetApiKeysForProvider(provider)[i].isDefault
                            && GetApiKeysForProvider(provider)[i].key == k.value
                            && forall j :: 0 <= j < i ==> !GetApiKeysForProvider(provider)[j].isDefault
    {
      var keys := GetApiKeysForProvider(provider);
      match FirstDefault(keys)
      case None => None
      case Some(i) => Some(keys[i].key)
    }

    /** One entry of `getApiKeys()`: the environment value when truthy, else the config default key. */
    function ResolvedKey(env: map<string, string>, p: ProviderKey): (k: Option<string>)
      reads this
      ensures EnvVar(p) in env && env[EnvVar(p)] != "" ==> k == Some(env[EnvVar(p)])
      ensures !(EnvVar(p) in env && env[EnvVar(p)] != "") ==> k == GetDefaultApiKey(p.Name())
    {
      if EnvVar(p) in env && env[EnvVar(p)] != "" then Some(env[EnvVar(p)]) else GetDefaultApiKey(p.Name())
    }

    /** `getAvailableProviders`: the providers whose resolved key is truthy, in the order openai, gemini, grok. */
    function GetAvailableProviders(env: map<string, string>): (r: seq<string>)
      reads this
      ensures "openai" in r <==> TruthyKey(ResolvedKey(env, OpenAI))
      ensures "gemini" in r <==> TruthyKey(ResolvedKey(env, Gemini))
      ensures "grok" in r <==> TruthyKey(ResolvedKey(env, Grok))
    {
      (if TruthyKey(ResolvedKey(env, OpenAI)) then ["openai"] else [])
      + (if TruthyKey(ResolvedKey(env, Gemini)) then ["gemini"] else [])
      + (if TruthyKey(ResolvedKey(env, Grok)) then ["grok"] else [])
    }

    /** The available providers are listed in the fixed order, each at most once, and nothing else is listed. */
    lemma AvailableInOrder(env: map<string, string>)
      ensures var r := GetAvailableProviders(env);
        && |r| <= 3
        && (forall i :: 0 <= i < |r| ==> r[i] in {"openai", "gemini", "grok"})
        && (forall i, j :: 0 <= i < j < |r| ==> Rank(r[i]) < Rank(r[j]))
    {
    }

    /** `hasAnyApiKeys`, as the truthiness the callers test. */
    function HasAnyApiKeys(env: map<string, string>): (b: bool)
      reads this
      ensures b <==> |GetAvailableProviders(env)| > 0
    {
      TruthyKey(ResolvedKey(env, OpenAI)) || TruthyKey(ResolvedKey(env, Gemini)) || TruthyKey(ResolvedKey(env, Grok))
    }

    /** `getModel`: the stored model when truthy, else `getDefaultModel`. */
    function GetModel(provider: string): (m: string)
      reads this
      ensures provider in models && models[provider] != "" ==> m == models[provider]
      ensures !(provider in models && models[provider] != "") ==> m == GetDefaultModel(provider)
    {
      if provider in models && models[provider] != "" then models[provider] else GetDefaultModel(provider)
    }

    /** The summary row of one provider. */
    function SummaryRow(env: map<string, string>, p: ProviderKey): ProviderSummary
      reads this
    {
      ProviderSummary(DisplayName(p), GetModel(p.Name()), TruthyKey(ResolvedKey(env, p)),
                      |GetApiKeysForProvider(p.Name())|)
    }

    /**
     * `getConfigSummary`: a row for each of the three providers, whose key flag
     * agrees with `getAvailableProviders` and whose count is the stored list's length.
     */
    function GetConfigSummary(env: map<string, string>): (s: Summary)
      reads this
      ensures s.defaultProvider == defaultProvider
      ensures s.providers.Keys == {"openai", "gemini", "grok"}
      ensures forall p: ProviderKey :: p.Name() in s.providers &&
                var row := s.providers[p.Name()];
                && row.name == DisplayName(p)
                && row.model == GetModel(p.Name())
                && (row.hasKey <==> p.Name() in GetAvailableProviders(env))
                && row.keyCount == |GetApiKeysForProvider(p.Name())|
    {
      Summary(defaultProvider,
              map["openai" := SummaryRow(env, OpenAI), "gemini" := SummaryRow(env, Gemini),
                  "grok" := SummaryRow(env, Grok)])
    }

    /** `addApiKey(provider, name, key, isDefault)`. */
    method AddApiKey(provider: string, name: string, key: string, isDefault: bool)
      modifies this
      ensures apiKeys == old(apiKeys)[provider := WithAdded(old(GetApiKeysForProvider(provider)),
                                                            ApiKeyEntry(name, key, isDefault))]
      ensures models == old(models) && defaultProvider == old(defaultProvider) && firstRun == old(firstRun)
      ensures saves == old(saves) + 1
      ensures old(Valid()) ==> Valid()
    {
      var keys := GetApiKeysForProvider(provider);
      if isDefault {
        keys := UnsetDefaults(keys);
      }
      keys := keys + [ApiKeyEntry(name, key, isDefault)];
      ghost var before := GetApiKeysForProvider(provider);
      if old(Valid()) {
        AddKeepsOneDefault(before, ApiKeyEntry(name, key, isDefault));
      }
      apiKeys := apiKeys[provider := keys];
      saves := saves + 1;
    }

    /** `setApiKey`: add a key named 'Default' as the new default. */
    method SetApiKey(provider: string, key: string)
      modifies this
      ensures apiKeys == old(apiKeys)[provider := WithAdded(old(GetApiKeysForProvider(provider)),
                                                            ApiKeyEntry("Default", key, true))]
      ensures GetDefaultApiKey(provider) == Some(key)
      ensures models == old(models) && defaultProvider == old(defaultProvider) && firstRun == old(firstRun)
      ensures saves == old(saves) + 1
      ensures old(Valid()) ==> Valid()
    {
      AddApiKey(provider, "Default", key, true);
      AddedDefaultIsFound(old(GetApiKeysForProvider(provider)), ApiKeyEntry("Default", key, true));
    }

    /** `removeApiKey(provider, name)`: drops the first entry with that name. */
    method RemoveApiKey(provider: string, name: string) returns (removed: bool)
      modifies this
      ensures removed <==> provider in old(apiKeys) && FindByName(old(apiKeys)[provider], name).Some?
      ensures removed ==> apiKeys == old(apiKeys)[provider := WithRemoved(old(apiKeys)[provider],
                                                                          FindByName(old(apiKeys)[provider], name).value)]
      ensures removed ==> saves == old(saves) + 1
      ensures !removed ==> apiKeys == old(apiKeys) && saves == old(saves)
      ensures models == old(models) && defaultProvider == old(defaultProvider) && firstRun == old(firstRun)
      ensures old(Valid()) ==> Valid()
    {
      if provider !in apiKeys {
        return false;
      }
      var keys := apiKeys[provider];
      var index := FindByName(keys, name);
      if index.None? {
        return false;
      }
      if old(Valid()) {
        RemoveKeepsOneDefault(keys, index.value);
      }
      apiKeys := apiKeys[provider := WithRemoved(keys, index.value)];
      saves := saves + 1;
      removed := true;
    }

    /**
     * `setDefaultApiKey(provider, name)`. The defaults are cleared before the
     * name is looked up, so a missing name leaves the list without a default
     * and unsaved.
     */
    method SetDefaultApiKey(provider: string, name: string) returns (found: bool)
      modifies this
      ensures found <==> provider in old(apiKeys) && FindByName(old(apiKeys)[provider], name).Some?
      ensures provider in old(apiKeys) ==>
                apiKeys == old(apiKeys)[provider := WithDefault(old(apiKeys)[provider], name)]
      ensures provider !in old(apiKeys) ==> apiKeys == old(apiKeys)
      ensures saves == if found then old(saves) + 1 else old(saves)
      ensures models == old(models) && defaultProvider == old(defaultProvider) && firstRun == old(firstRun)
      ensures old(Valid()) ==> Valid()
    {
      if provider !in apiKeys {
        return false;
      }
      ghost var original := apiKeys[provider];
      SetDefaultIsSole(original, name);
      ClearKeepsEntries(original);
      NamesDecideFind(ClearDefaults(original), original, name);
      var keys := UnsetDefaults(apiKeys[provider]);
      apiKeys := apiKeys[provider := keys];
      var index := FindByName(keys, name);
      if index.None? {
        return false;
      }
      apiKeys := apiKeys[provider := keys[index.value := keys[index.value].(isDefault := true)]];
      saves := saves + 1;
      found := true;
    }

    /** `setModel(provider, model)`. A non-empty model is what `getModel` then returns. */
    method SetModel(provider: string, model: string)
      modifies this
      ensures models == old(models)[provider := model]
      ensures model != "" ==> GetModel(provider) == model
      ensures model == "" ==> GetModel(provider) == GetDefaultModel(provider)
      ensures apiKeys == old(apiKeys) && defaultProvider == old(defaultProvider) && firstRun == old(firstRun)
      ensures saves == old(saves) + 1
    {
      models := models[provider := model];
      saves := saves + 1;
    }

    /** `setDefaultProvider(provider)`: also ends the first run. */
    method SetDefaultProvider(provider: string)
      modifies this
      ensures defaultProvider == provider && !firstRun
      ensures apiKeys == old(apiKeys) && models == old(models)
      ensures saves == old(saves) + 1
    {
      defaultProvider := provider;
      firstRun := false;
      saves := saves + 1;
    }
  }
}
