/**
 * The Debugger of src/debugger.js: the enabled flag and level that gate the
 * logging methods, and the redaction helpers applied to what is logged.
 *
 * Console output is modelled as the sequence `lines` of what would be
 * printed, without the timestamp prefix; `JSON.stringify` is a parameter.
 */
module Debugging {
  import opened Wrappers
  import opened Text
  import opened Js

  const Hidden: string := "***HIDDEN***"

  /** The substrings that mark a field name as sensitive. */
  const SensitiveWords: seq<string> := ["key", "token", "password", "secret", "api_key"]

  /** `sensitiveKeys.some(s => key.toLowerCase().includes(s))`. */
  predicate Sensitive(key: string) {
    exists w :: w in SensitiveWords && Contains(ToLower(key), w)
  }

  /** Sensitivity ignores case: a name and its lower-cased form agree. */
  lemma SensitiveIgnoresCase(key: string)
    ensures Sensitive(key) <==> Sensitive(ToLower(key))
  {
    assert ToLower(ToLower(key)) == ToLower(key);
  }

  /**
   * A name is sensitive whenever one of the words occurs in its lower-cased
   * form, whatever surrounds it.
   */
  lemma SensitiveByOccurrence(key: string, w: string, i: int)
    requires w in SensitiveWords && OccursAt(ToLower(key), w, i)
    ensures Sensitive(key)
  {
    ContainsAt(ToLower(key), w, i);
  }

  /** The Kelvin sign U+212A lowers to 'k', so a name spelled with it in place of 'K' is still sensitive. */
  lemma KelvinSignIsSensitive()
    ensures Sensitive("\U{212A}ey") && Sensitive("X-API-\U{212A}EY")
  {
    assert OccursAt(ToLower("\U{212A}ey"), "key", 0);
    SensitiveByOccurrence("\U{212A}ey", "key", 0);
    assert OccursAt(ToLower("X-API-\U{212A}EY"), "key", 6);
    SensitiveByOccurrence("X-API-\U{212A}EY", "key", 6);
  }

  /** A field's value after redaction: strings are cut to ten characters plus '...', anything else hidden. */
  function Redacted(key: string, value: Json): (r: Json)
    ensures !Sensitive(key) ==> r == value
    ensures Sensitive(key) && value.JStr? ==> r == JStr(Mask(value.s)) && |r.s| <= 13
    ensures Sensitive(key) && !value.JStr? ==> r == JStr(Hidden)
  {
    if !Sensitive(key) then value
    else if value.JStr? then JStr(Mask(value.s))
    else JStr(Hidden)
  }

  /**
   * What `sanitizeObject` returns: non-objects and null unchanged, otherwise a
   * copy with the same field names in which the sensitive fields are redacted.
   */
  function Sanitized(obj: Json): (r: Json)
    ensures !obj.JObj? ==> r == obj
    ensures obj.JObj? ==> r.JObj? && r.fields.Keys == obj.fields.Keys
    ensures obj.JObj? ==> forall k :: k in obj.fields && !Sensitive(k) ==> r.fields[k] == obj.fields[k]
    ensures obj.JObj? ==> forall k :: k in obj.fields && Sensitive(k) ==>
              r.fields[k] == (if obj.fields[k].JStr? then JStr(Mask(obj.fields[k].s)) else JStr(Hidden))
  {
    if obj.JObj? then JObj(map k | k in obj.fields :: Redacted(k, obj.fields[k])) else obj
  }

  /** `sanitizeObject(obj)`: copy, then overwrite the sensitive fields of the copy one key at a time. */
  method SanitizeObject(obj: Json) returns (r: Json)
    ensures r == Sanitized(obj)
  {
    if !obj.JObj? {
      return obj;
    }
    var fields := obj.fields;
    var remaining := obj.fields.Keys;
    while remaining != {}
      invariant remaining <= obj.fields.Keys && fields.Keys == obj.fields.Keys
      invariant forall k :: k in obj.fields && k !in remaining ==> fields[k] == Redacted(k, obj.fields[k])
      invariant forall k :: k in remaining ==> fields[k] == obj.fields[k]
      decreases remaining
    {
      var k :| k in remaining;
      if Sensitive(k) {
        if fields[k].JStr? {
          fields := fields[k := JStr(Mask(fields[k].s))];
        } else {
          fields := fields[k := JStr(Hidden)];
        }
      }
      remaining := remaining - {k};
    }
    r := JObj(fields);
  }

  /**
   * `sanitizeHeaders(headers)`: `{}` for null; otherwise a copy in which a
   * truthy 'X-goog-api-key' is cut to ten characters plus '...' and a truthy
   * 'Authorization' is hidden, every other header unchanged.
   */
  function SanitizeHeaders(headers: Option<map<string, string>>): (r: map<string, string>)
    ensures headers.None? ==> r == map[]
    ensures headers.Some? ==> r.Keys == headers.value.Keys
    ensures headers.Some? ==> forall h :: h in headers.value && h != "X-goog-api-key" && h != "Authorization" ==>
              r[h] == headers.value[h]
    ensures headers.Some? && "Authorization" in headers.value ==>
              r["Authorization"] == (if headers.value["Authorization"] != "" then Hidden else "")
    ensures headers.Some? && "X-goog-api-key" in headers.value && headers.value["X-goog-api-key"] != "" ==>
              r["X-goog-api-key"] == Mask(headers.value["X-goog-api-key"])
              && |r["X-goog-api-key"]| <= 13
    ensures headers.Some? && "X-goog-api-key" in headers.value && headers.value["X-goog-api-key"] == "" ==>
              r["X-goog-api-key"] == ""
  {
    match headers
    case None => map[]
    case Some(h) =>
      var withKey := if "X-goog-api-key" in h && h["X-goog-api-key"] != "" then
                       h["X-goog-api-key" := Mask(h["X-goog-api-key"])] else h;
      if "Authorization" in withKey && withKey["Authorization"] != "" then withKey["Authorization" := Hidden]
      else withKey
  }

  /**
   * `getBodyPreview(body)`: null for a falsy body; otherwise the body's text
   * (a string as is, anything else through `stringify`), cut to 200
   * characters plus '...' when longer.
   */
  function GetBodyPreview(body: Json, stringify: Json -> string): (r: Option<string>)
    ensures r.None? <==> !Truthy(body)
    ensures r.Some? ==> |r.value| <= 203
    ensures r.Some? ==>
              var text := if body.JStr? then body.s else stringify(body);
              (|text| <= 200 ==> r.value == text) && (|text| > 200 ==> r.value == text[..200] + "...")
  {
    if !Truthy(body) then None
    else
      var text := if body.JStr? then body.s else stringify(body);
      Some(Abbreviate(text, 200))
  }

  /** The record `extractErrorInfo` builds. */
  datatype ErrorInfo = ErrorInfo(
    message: string,
    status: Option<int>,
    statusText: Option<string>,
    url: Option<string>,
    verb: Option<string>,
    responseData: Json)

  /**
   * `extractErrorInfo(error)`: null for no error; otherwise the message, the
   * response status and text, the request url and method, and the response
   * data, reduced to `{error: {code, message, status}}` when it has a truthy
   * `error` field.
   */
  function ExtractErrorInfo(error: Option<JsError>): (r: Option<ErrorInfo>)
    ensures r.None? <==> error.None?
    ensures r.Some? ==> r.value.message == error.value.message
    ensures r.Some? ==> (r.value.status.Some? <==> error.value.response.Some? && error.value.response.value.status.Some?)
    ensures r.Some? ==> r.value.status == (if error.value.response.Some? then error.value.response.value.status else None)
    ensures r.Some? ==>
              r.value.statusText == (if error.value.response.Some? then Some(error.value.response.value.statusText) else None)
    ensures r.Some? ==> r.value.url == (if error.value.config.Some? then Some(error.value.config.value.url) else None)
    ensures r.Some? ==> r.value.verb == (if error.value.config.Some? then Some(error.value.config.value.verb) else None)
    ensures r.Some? && error.value.response.Some? ==>
              var data := error.value.response.value.data;
              var e := Field(data, "error");
              (Truthy(data) && Truthy(e) ==>
                r.value.responseData == JObj(map["error" := JObj(map["code" := Field(e, "code"),
                                                                      "message" := Field(e, "message"),
                                                                      "status" := Field(e, "status")])]))
              && (!(Truthy(data) && Truthy(e)) ==> r.value.responseData == data)
    ensures r.Some? && error.value.response.None? ==> r.value.responseData == JNull
  {
    match error
    case None => None
    case Some(err) =>
      var data := if err.response.Some? then err.response.value.data else JNull;
      var cleaned :=
        if Truthy(data) && Truthy(Field(data, "error")) then
          var e := Field(data, "error");
          JObj(map["error" := JObj(map["code" := Field(e, "code"), "message" := Field(e, "message"),
                                       "status" := Field(e, "status")])])
        else data;
      Some(ErrorInfo(
        err.message,
        if err.response.Some? then err.response.value.status else None,
        if err.response.Some? then Some(err.response.value.statusText) else None,
        if err.config.Some? then Some(err.config.value.url) else None,
        if err.config.Some? then Some(err.config.value.verb) else None,
        cleaned))
  }

  /** One line the debugger would print. */
  datatype LogLine =
    | DebugLine(message: string, data: Option<Json>)         // log, verbose, enable
    | ErrorLine(message: string, info: Option<ErrorInfo>)    // error
    | SuccessLine(message: string, data: Option<Json>)       // success
    | Notice(text: string)                                   // disable

  const EnabledMessage: string := "\U{1F527} Debug mode enabled"
  const DisabledMessage: string := "\U{1F527} Debug mode disabled"

  class Debugger {
    var enabled: bool
    var debugLevel: string
    /** Everything printed so far. */
    var lines: seq<LogLine>

    constructor ()
      ensures !enabled && debugLevel == "info" && lines == []
    {
      enabled := false;
      debugLevel := "info";
      lines := [];
    }

    /** The line `log(message, data)` prints: the data sanitized when truthy. */
    static function DebugLineFor(message: string, data: Json): (l: LogLine)
      ensures l.DebugLine? && l.message == message
      ensures l.data.Some? <==> Truthy(data)
      ensures l.data.Some? ==> l.data.value == Sanitized(data)
    {
      DebugLine(message, if Truthy(data) then Some(Sanitized(data)) else None)
    }

    /** `log(message, data)`: prints only while enabled. */
    method Log(message: string, data: Json)
      modifies this
      ensures enabled == old(enabled) && debugLevel == old(debugLevel)
      ensures lines == if old(enabled) then old(lines) + [DebugLineFor(message, data)] else old(lines)
    {
      if !enabled {
        return;
      }
      var sanitized := SanitizeObject(data);
      lines := lines + [DebugLine(message, if Truthy(data) then Some(sanitized) else None)];
    }

    /** `enable(level)`: switches on, sets the level, and then logs that it did. */
    method Enable(level: string)
      modifies this
      ensures enabled && debugLevel == level
      ensures lines == old(lines) + [DebugLineFor(EnabledMessage, JObj(map["level" := JStr(level)]))]
    {
      enabled := true;
      debugLevel := level;
      Log(EnabledMessage, JObj(map["level" := JStr(level)]));
    }

    /** `disable()`: switches off, keeps the level, and always prints the notice. */
    method Disable()
      modifies this
      ensures !enabled && debugLevel == old(debugLevel)
      ensures lines == old(lines) + [Notice(DisabledMessage)]
    {
      enabled := false;
      lines := lines + [Notice(DisabledMessage)];
    }

    /** `verbose(message, data)`: prints only while enabled at level 'verbose'. */
    method Verbose(message: string, data: Json)
      modifies this
      ensures enabled == old(enabled) && debugLevel == old(debugLevel)
      ensures lines == if old(enabled) && old(debugLevel) == "verbose"
                       then old(lines) + [DebugLineFor("[VERBOSE] " + message, data)]
                       else old(lines)
    {
      if !enabled || debugLevel != "verbose" {
        return;
      }
      Log("[VERBOSE] " + message, data);
    }

    /** `error(message, error)`: prints only while enabled, with the extracted error information. */
    method Error(message: string, error: Option<JsError>)
      modifies this
      ensures enabled == old(enabled) && debugLevel == old(debugLevel)
      ensures lines == if old(enabled) then old(lines) + [ErrorLine(message, ExtractErrorInfo(error))] else old(lines)
    {
      if !enabled {
        return;
      }
      lines := lines + [ErrorLine(message, ExtractErrorInfo(error))];
    }

    /** `success(message, data)`: prints only while enabled. */
    method Success(message: string, data: Json)
      modifies this
      ensures enabled == old(enabled) && debugLevel == old(debugLevel)
      ensures lines == if old(enabled)
                       then old(lines) + [SuccessLine(message, if Truthy(data) then Some(Sanitized(data)) else None)]
                       else old(lines)
    {
      if !enabled {
        return;
      }
      var sanitized := SanitizeObject(data);
      lines := lines + [SuccessLine(message, if Truthy(data) then Some(sanitized) else None)];
    }
  }
}
