/**
 * The xAI adapter of src/providers/grok.js. The axios client is recorded by
 * its base URL and Authorization header; the POST is the abstract `reply`.
 */
module Grok {
  import opened Wrappers
  import opened Js
  import opened Chat
  import opened Config

  const NotInitialized: string := "Grok AI provider is not initialized"
  const KeyRequired: string := "Grok AI API key is required"
  const BaseUrl: string := "https://api.x.ai/v1"

  /** An axios instance: its base URL and the bearer header it sends. */
  datatype HttpClient = HttpClient(baseUrl: string, authorization: string)

  /**
   * The message of the error a failed request is rethrown as: the API's own
   * error message (else the status text) when a response came back, the
   * transport message otherwise.
   */
  function RewrapError(e: JsError): (m: string)
    ensures e.response.Some? && TruthyString(ErrorMessageOf(e.response.value)) ==>
              m == "Grok AI API error: " + ErrorMessageOf(e.response.value).value
    ensures e.response.Some? && !TruthyString(ErrorMessageOf(e.response.value)) ==>
              m == "Grok AI API error: " + e.response.value.statusText
    ensures e.response.None? ==> m == "Grok AI request error: " + e.message
  {
    match e.response
    case Some(r) =>
      "Grok AI API error: " + (if TruthyString(ErrorMessageOf(r)) then ErrorMessageOf(r).value else r.statusText)
    case None => "Grok AI request error: " + e.message
  }

  class GrokProvider {
    const name: string
    const key: string
    const configManager: ConfigManager?
    var client: Option<HttpClient>
    var apiKey: Option<string>
    var model: string

    /** The model list `getAvailableModels` returns. */
    static function AvailableModels(): (ms: seq<string>)
      ensures DefaultModel() in ms
    {
      ["grok-4-0709", "grok-4", "grok-4-latest", "grok-4-heavy", "grok-3", "grok-3-mini", "grok-3-fast",
       "grok-3-mini-fast", "grok-2-vision-1212", "grok-2-image-1212"]
    }

    static function DefaultModel(): string {
      "grok-3"
    }

    constructor (configManager: ConfigManager?)
      ensures this.configManager == configManager
      ensures name == "Grok AI (xAI)" && key == "grok"
      ensures client.None? && apiKey.None?
      ensures model == if configManager != null then configManager.GetModel("grok") else DefaultModel()
    {
      name := "Grok AI (xAI)";
      key := "grok";
      client := None;
      apiKey := None;
      model := if configManager != null then configManager.GetModel("grok") else DefaultModel();
      this.configManager := configManager;
    }

    /** `isInitialized()`: a client exists. */
    predicate IsInitialized()
      reads this
    {
      client.Some?
    }

    /**
     * `initialize(apiKey)`: a falsy key is refused with nothing changed;
     * otherwise a client bearing the key is created and the model refreshed
     * from the configuration.
     */
    method Initialize(newKey: Option<string>) returns (error: Option<string>)
      modifies this
      ensures !TruthyString(newKey) ==> error == Some(KeyRequired) && client == old(client)
                                        && apiKey == old(apiKey) && model == old(model)
      ensures TruthyString(newKey) ==>
                && error.None? && apiKey == newKey && IsInitialized()
                && client == Some(HttpClient(BaseUrl, "Bearer " + newKey.value))
                && model == if configManager != null then configManager.GetModel("grok") else old(model)
    {
      if !TruthyString(newKey) {
        return Some(KeyRequired);
      }
      apiKey := newKey;
      client := Some(HttpClient(BaseUrl, "Bearer " + newKey.value));
      if configManager != null {
        model := configManager.GetModel("grok");
      }
      error := None;
    }

    /** `updateModel(model)`: sets the model and stores it in the configuration when there is one. */
    method UpdateModel(newModel: string)
      modifies this, configManager
      ensures model == newModel && client == old(client) && apiKey == old(apiKey)
      ensures configManager != null ==>
                configManager.models == old(configManager.models)["grok" := newModel]
                && configManager.apiKeys == old(configManager.apiKeys)
                && configManager.saves == old(configManager.saves) + 1
                && configManager.defaultProvider == old(configManager.defaultProvider)
                && configManager.firstRun == old(configManager.firstRun)
    {
      model := newModel;
      if configManager != null {
        configManager.SetModel("grok", newModel);
      }
    }

    /**
     * `sendMessage(message, history)`: fails without a client; otherwise posts
     * the history in wire form plus the new user turn, and returns the reply
     * text or the rewrapped error.
     */
    method SendMessage(message: string, history: seq<Turn>, reply: Reply)
      returns (result: Result<string, string>, request: Option<ChatRequest>)
      ensures !IsInitialized() ==> result == Failure(NotInitialized) && request.None?
      ensures IsInitialized() ==>
                && request == Some(ChatRequest(model, WireMessages(history, message), 1000, 0.7))
                && (reply.Answer? ==> result == Success(reply.text))
                && (reply.Fail? ==> result == Failure(RewrapError(reply.error)))
    {
      if client.None? {
        return Failure(NotInitialized), None;
      }
      request := Some(ChatRequest(model, WireMessages(history, message), 1000, 0.7));
      match reply
      case Answer(text) => result := Success(text);
      case Fail(e) => result := Failure(RewrapError(e));
    }
  }
}
