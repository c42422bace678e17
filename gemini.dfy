/**
 * The Google adapter of src/providers/gemini.js. It keeps only the key; the
 * POST to the generateContent endpoint is the abstract `reply`.
 */
module Gemini {
  import opened Wrappers
  import opened Js
  import opened Chat
  import opened Config

  const NotInitialized: string := "Gemini provider is not initialized"
  const KeyRequired: string := "Gemini API key is required"

  /** `{text}` inside `parts`. */
  datatype Part = Part(text: string)

  /** One entry of `contents`: `{parts: [...]}`, with no role. */
  datatype Content = Content(parts: seq<Part>)

  /** The POST the adapter makes: endpoint, body and the key header. */
  datatype GenerateRequest = GenerateRequest(url: string, contents: seq<Content>, apiKeyHeader: string)

  function Endpoint(model: string): string {
    "https://generativelanguage.googleapis.com/v1/models/" + model + ":generateContent"
  }

  /**
   * The `contents` of a request: one entry per history turn carrying its
   * content, in order, then one for the new message; no roles are sent.
   */
  function Contents(history: seq<Turn>, message: string): (r: seq<Content>)
    ensures |r| == |history| + 1
    ensures forall i :: 0 <= i < |history| ==> r[i] == Content([Part(history[i].content)])
    ensures r[|history|] == Content([Part(message)])
  {
    seq(|history|, i requires 0 <= i < |history| => Content([Part(history[i].content)])) + [Content([Part(message)])]
  }

  /** The `contents` loop of `sendMessage`, pushing one entry per turn. */
  method BuildContents(history: seq<Turn>, message: string) returns (contents: seq<Content>)
    ensures contents == Contents(history, message)
  {
    contents := [];
    var i := 0;
    while i < |history|
      invariant 0 <= i <= |history| && |contents| == i
      invariant forall j :: 0 <= j < i ==> contents[j] == Content([Part(history[j].content)])
    {
      contents := contents + [Content([Part(history[i].content)])];
      i := i + 1;
    }
    contents := contents + [Content([Part(message)])];
  }

  /** `getInfo()`. */
  datatype ProviderInfo = ProviderInfo(name: string, key: string, model: string, initialized: bool)

  class GeminiProvider {
    const name: string
    const key: string
    const configManager: ConfigManager?
    /** Never set by this adapter; the registry may reset it. */
    var client: Option<string>
    var apiKey: Option<string>
    var model: string

    /** The model list `getAvailableModels` returns. */
    static function AvailableModels(): (ms: seq<string>)
      ensures DefaultModel() in ms
    {
      ["gemini-1.5-flash", "gemini-1.5-pro", "gemini-1.0-pro", "gemini-2.0-flash", "gemini-2.0-pro",
       "gemini-2.5-flash", "gemini-2.5-pro"]
    }

    static function DefaultModel(): string {
      "gemini-2.0-flash"
    }

    constructor (configManager: ConfigManager?)
      ensures this.configManager == configManager
      ensures name == "Gemini (Google)" && key == "gemini"
      ensures client.None? && apiKey.None?
      ensures model == if configManager != null then configManager.GetModel("gemini") else DefaultModel()
    {
      name := "Gemini (Google)";
      key := "gemini";
      client := None;
      apiKey := None;
      model := if configManager != null then configManager.GetModel("gemini") else DefaultModel();
      this.configManager := configManager;
    }

    /** `isInitialized()`: a key is stored; the client plays no part. */
    predicate IsInitialized()
      reads this
    {
      apiKey.Some?
    }

    /** `getInfo()`: its `initialized` is `isInitialized()`. */
    function GetInfo(): (info: ProviderInfo)
      reads this
      ensures info.initialized <==> IsInitialized()
      ensures info.name == name && info.key == key && info.model == model
    {
      ProviderInfo(name, key, model, IsInitialized())
    }

    /**
     * `initialize(apiKey)`: a falsy key is refused with nothing changed;
     * otherwise the key is stored and the model refreshed from the
     * configuration.
     */
    method Initialize(newKey: Option<string>) returns (error: Option<string>)
      modifies this
      ensures !TruthyString(newKey) ==> error == Some(KeyRequired) && apiKey == old(apiKey) && model == old(model)
      ensures TruthyString(newKey) ==>
                && error.None? && apiKey == newKey && IsInitialized()
                && model == if configManager != null then configManager.GetModel("gemini") else old(model)
      ensures client == old(client)
    {
      if !TruthyString(newKey) {
        return Some(KeyRequired);
      }
      apiKey := newKey;
      if configManager != null {
        model := configManager.GetModel("gemini");
      }
      error := None;
    }

    /** `updateModel(model)`: sets the model and stores it in the configuration when there is one. */
    method UpdateModel(newModel: string)
      modifies this, configManager
      ensures model == newModel && client == old(client) && apiKey == old(apiKey)
      ensures configManager != null ==>
                configManager.models == old(configManager.models)["gemini" := newModel]
                && configManager.apiKeys == old(configManager.apiKeys)
                && configManager.saves == old(configManager.saves) + 1
                && configManager.defaultProvider == old(configManager.defaultProvider)
                && configManager.firstRun == old(configManager.firstRun)
    {
      model := newModel;
      if configManager != null {
        configManager.SetModel("gemini", newModel);
      }
    }

    /**
     * `sendMessage(message, history)`: fails without a key; otherwise posts
     * the contents to the model's endpoint with the key header, and returns
     * the reply text or a fresh error carrying only the failure's message.
     */
    method SendMessage(message: string, history: seq<Turn>, reply: Reply)
      returns (result: Result<string, string>, request: Option<GenerateRequest>)
      ensures !TruthyString(apiKey) ==> result == Failure(NotInitialized) && request.None?
      ensures TruthyString(apiKey) ==>
                && request == Some(GenerateRequest(Endpoint(model), Contents(history, message), apiKey.value))
                && (reply.Answer? ==> result == Success(reply.text))
                && (reply.Fail? ==> result == Failure("Gemini API Error: " + reply.error.message))
    {
      if !TruthyString(apiKey) {
        return Failure(NotInitialized), None;
      }
      var contents := BuildContents(history, message);
      request := Some(GenerateRequest(Endpoint(model), contents, apiKey.value));
      match reply
      case Answer(text) => result := Success(text);
      case Fail(e) => result := Failure("Gemini API Error: " + e.message);
    }
  }
}
