/** The JavaScript values the core inspects: parsed JSON, truthiness, and error objects. */
module Js {
  import opened Wrappers

  /** A parsed JSON value; `undefined` properties are read as `JNull`. */
  datatype Json =
    | JNull
    | JBool(b: bool)
    | JNum(n: int)
    | JStr(s: string)
    | JArr(items: seq<Json>)
    | JObj(fields: map<string, Json>)

  /** JavaScript truthiness of a JSON value. */
  predicate Truthy(j: Json) {
    match j
    case JNull => false
    case JBool(b) => b
    case JNum(n) => n != 0
    case JStr(s) => s != ""
    case JArr(_) => true
    case JObj(_) => true
  }

  /** Truthiness of a string that may be `null`/`undefined`. */
  predicate TruthyString(s: Option<string>) {
    s.Some? && s.value != ""
  }

  /** `typeof j === 'object'` (arrays and null included). */
  predicate IsObjectType(j: Json) {
    j.JNull? || j.JArr? || j.JObj?
  }

  /** `j?.[k]`: the own property `k` of an object, else undefined. */
  function Field(j: Json, k: string): Json {
    if j.JObj? && k in j.fields then j.fields[k] else JNull
  }

  /** An HTTP response attached to a failed request. */
  datatype HttpResponse = HttpResponse(status: Option<int>, statusText: string, data: Json)

  /** The request an error came from (`error.config`: its url and its method, here `verb`). */
  datatype RequestConfig = RequestConfig(url: string, verb: string)

  /** A thrown JavaScript error, as the retry governor and the adapters see it. */
  datatype JsError = JsError(message: string, response: Option<HttpResponse>, config: Option<RequestConfig>)

  /** How one network request settles: the reply text, or a thrown error. */
  datatype Reply = Answer(text: string) | Fail(error: JsError)

  /** `response.data.error.message` when it is a string, else undefined. */
  function ErrorMessageOf(r: HttpResponse): Option<string> {
    match Field(Field(r.data, "error"), "message")
    case JStr(s) => Some(s)
    case _ => None
  }
}
