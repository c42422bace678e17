/**
 * The OpenAI adapter of src/providers/chatgpt.js. The SDK client is recorded
 * by the key it was created with; the completion call is the abstract
 * per-attempt outcome `op` run under the adapter's own retry governor.
 */
module ChatGPT {
  import opened Wrappers
  import opened Js
  import opened Chat
  import opened Retry
  import opened Config

  const NotInitialized: string := "ChatGPT provider is not initialized"
  const KeyRequired: string := "OpenAI API key is required"

  /** What `sendMessage` throws: its own guard error, or the governor's enhanced error. */
  datatype SendError = Uninitialized(message: string) | GaveUp(error: FinalError) {
    function Message(): string {
      match this
      case Uninitialized(m) => m
      case GaveUp(e) => e.message
    }
  }

  class ChatGPTProvider {
    const name: string
    const key: string
    const configManager: ConfigManager?
    const retryManager: RetryManager
    /** The SDK client, by the key it was created with; `None` is `null`. */
    var client: Option<string>
    var apiKey: Option<string>
    var model: string

    /** The adapter's governor has the default policy. */
    predicate Valid()
      reads {}
    {
      retryManager.maxRetries == 5 && retryManager.baseDelay == 1000 && retryManager.timeout == 30000
    }

    /** The model list `getAvailableModels` returns. */
    static function AvailableModels(): (ms: seq<string>)
      ensures DefaultModel() in ms
    {
      ["gpt-3.5-turbo", "gpt-3.5-turbo-16k", "gpt-4", "gpt-4-turbo", "gpt-4o", "gpt-4o-mini"]
    }

    static function DefaultModel(): string {
      "gpt-3.5-turbo"
    }

    constructor (configManager: ConfigManager?)
      ensures this.configManager == configManager
      ensures name == "ChatGPT (OpenAI)" && key == "openai"
      ensures client.None? && apiKey.None?
      ensures model == if configManager != null then configManager.GetModel("openai") else DefaultModel()
      ensures Valid()
    {
      name := "ChatGPT (OpenAI)";
      key := "openai";
      client := None;
      apiKey := None;
      model := if configManager != null then configManager.GetModel("openai") else DefaultModel();
      this.configManager := configManager;
      retryManager := new RetryManager.Default();
    }

    /** `isInitialized()`: a client exists. */
    predicate IsInitialized()
      reads this
    {
      client.Some?
    }

    /**
     * `initialize(apiKey)`: a falsy key is refused with nothing changed;
     * otherwise the client is created and the model refreshed from the
     * configuration.
     */
    method Initialize(newKey: Option<string>) returns (error: Option<string>)
      modifies this
      ensures !TruthyString(newKey) ==> error == Some(KeyRequired) && client == old(client)
                                        && apiKey == old(apiKey) && model == old(model)
      ensures TruthyString(newKey) ==> error.None? && client == newKey && apiKey == newKey && IsInitialized()
      ensures TruthyString(newKey) ==>
                model == if configManager != null then configManager.GetModel("openai") else old(model)
    {
      if !TruthyString(newKey) {
        return Some(KeyRequired);
      }
      client := newKey;
      apiKey := newKey;
      if configManager != null {
        model := configManager.GetModel("openai");
      }
      error := None;
    }

    /** `updateModel(model)`: sets the model and stores it in the configuration when there is one. */
    method UpdateModel(newModel: string)
      modifies this, configManager
      ensures model == newModel && client == old(client) && apiKey == old(apiKey)
      ensures configManager != null ==>
                configManager.models == old(configManager.models)["openai" := newModel]
                && configManager.apiKeys == old(configManager.apiKeys)
                && configManager.saves == old(configManager.saves) + 1
                && configManager.defaultProvider == old(configManager.defaultProvider)
                && configManager.firstRun == old(configManager.firstRun)
    {
      model := newModel;
      if configManager != null {
        configManager.SetModel("openai", newModel);
      }
    }

    /**
     * `sendMessage(message, history, onRetry)`. Uninitialised, it fails before
     * the governor runs; otherwise the request (history in wire form plus the
     * new user turn) is sent under the governor, whose result, invocation
     * count and `onRetry` calls are returned.
     */
    method SendMessage(message: string, history: seq<Turn>, onRetry: bool, op: nat -> Attempt)
      returns (result: Result<string, SendError>, request: Option<ChatRequest>, invocations: nat,
               callbacks: seq<RetryNotice>)
      requires Valid()
      ensures !IsInitialized() ==>
                result == Failure(Uninitialized(NotInitialized)) && request.None? && invocations == 0 && callbacks == []
      ensures IsInitialized() ==>
                && request == Some(ChatRequest(model, WireMessages(history, message), 1000, 0.7))
                && invocations == retryManager.Governed(op).invocations
                && invocations <= 5
                && (result.Success? <==> retryManager.Governed(op).result.Success?)
                && (result.Success? ==> result.value == retryManager.Governed(op).result.value)
                && (result.Failure? ==> result.error == GaveUp(retryManager.Governed(op).result.error))
                && callbacks == (if onRetry then retryManager.Governed(op).retries else [])
    {
      if client.None? {
        return Failure(Uninitialized(NotInitialized)), None, 0, [];
      }
      request := Some(ChatRequest(model, WireMessages(history, message), 1000, 0.7));
      var outcome, waits;
      outcome, invocations, waits, callbacks := retryManager.ExecuteWithRetry(op, onRetry);
      retryManager.InvocationCeiling(op);
      result := match outcome
        case Success(text) => Success(text)
        case Failure(e) => Failure(GaveUp(e));
    }
  }
}
