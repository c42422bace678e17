/**
 * The provider registry of src/providers/providers.js: the three adapters,
 * registered under 'openai', 'gemini' and 'grok' in the order the directory
 * listing gave them, and the mutable `currentProvider` that messages go to.
 */
module Providers {
  import opened Wrappers
  import opened Js
  import opened Chat
  import opened Retry
  import opened Config
  import OpenAIAdapter = ChatGPT
  import GeminiAdapter = Gemini
  import GrokAdapter = Grok

  /** What an adapter's state amounts to for the registry. */
  datatype AdapterState = AdapterState(hasClient: bool, apiKey: Option<string>, model: string) {
    /** `isInitialized()`: Gemini looks at its key, the other two at their client. */
    predicate Ready(k: ProviderKey) {
      if k == ProviderKey.Gemini then apiKey.Some? else hasClient
    }
  }

  /**
   * An adapter's state after `provider.initialize(key)` as the registry calls
   * it: a falsy key is never passed on, so nothing changes; otherwise the key
   * is stored, OpenAI and Grok get a client, and the model is refreshed from
   * the configuration when there is one.
   */
  function AfterInit(s: AdapterState, k: ProviderKey, key: Option<string>, refreshed: Option<string>): (t: AdapterState)
    ensures !TruthyString(key) ==> t == s
    ensures TruthyString(key) ==> t.Ready(k) && t.apiKey == key
    ensures TruthyString(key) ==> t.model == if refreshed.Some? then refreshed.value else s.model
  {
    if !TruthyString(key) then s
    else AdapterState(if k == ProviderKey.Gemini then s.hasClient else true, key,
                      if refreshed.Some? then refreshed.value else s.model)
  }

  /** The registry initializes an adapter with the same key twice to the same effect as once. */
  lemma AfterInitTwice(s: AdapterState, k: ProviderKey, key: Option<string>, refreshed: Option<string>)
    ensures AfterInit(AfterInit(s, k, key, refreshed), k, key, refreshed) == AfterInit(s, k, key, refreshed)
  {
  }

  /** `provider.client = null`. */
  function Cleared(s: AdapterState): AdapterState {
    s.(hasClient := false)
  }

  /**
   * Clearing the clients and initializing again leaves an adapter ready
   * exactly when it got a truthy key, except that Gemini, which does not look
   * at its client, also stays ready if it was.
   */
  lemma ReinitializedReady(s: AdapterState, k: ProviderKey, key: Option<string>, refreshed: Option<string>)
    ensures AfterInit(Cleared(s), k, key, refreshed).Ready(k) <==>
              TruthyString(key) || (k == ProviderKey.Gemini && s.Ready(k))
  {
  }

  /**
   * The text handed to the adapter: the agent instructions are put in front
   * of the message only for the first message of a conversation, and only
   * when there are instructions.
   */
  function PrepareMessage(message: string, history: seq<Turn>, instructions: string): string {
    if |history| == 0 && instructions != "" then instructions + "\n\nUser: " + message else message
  }

  /** Both directions: the message goes out unchanged exactly when the instructions are not prepended. */
  lemma PrepareMessageIff(message: string, history: seq<Turn>, instructions: string)
    ensures |history| == 0 && instructions != "" ==>
              PrepareMessage(message, history, instructions) == instructions + "\n\nUser: " + message
    ensures PrepareMessage(message, history, instructions) == message <==> !(|history| == 0 && instructions != "")
  {
    if |history| == 0 && instructions != "" {
      assert |PrepareMessage(message, history, instructions)| > |message|;
    }
  }

  /** The error `sendMessage` rethrows: the adapter's message under the provider key, nothing else kept. */
  function Rewrap(provider: string, message: string): string {
    "Error sending message to " + provider + ": " + message
  }

  /** An entry of `getAvailableProviders()`. */
  datatype ProviderView = ProviderView(key: string, name: string, model: string)

  /** An entry of `getAllProviders()`. */
  datatype ProviderListing = ProviderListing(
    key: string, name: string, model: string, initialized: bool,
    availableModels: seq<string>, defaultModel: string)

  /** The request an adapter made. */
  datatype Dispatch = ChatCall(request: ChatRequest) | GeminiCall(call: GeminiAdapter.GenerateRequest)

  /** `getAvailableModels()` of the adapter registered under `k`. */
  function ModelsOf(k: ProviderKey): seq<string> {
    match k
    case OpenAI => OpenAIAdapter.ChatGPTProvider.AvailableModels()
    case Gemini => GeminiAdapter.GeminiProvider.AvailableModels()
    case Grok => GrokAdapter.GrokProvider.AvailableModels()
  }

  /** `getDefaultModel()` of the adapter registered under `k`. */
  function DefaultModelOf(k: ProviderKey): (m: string)
    ensures m in ModelsOf(k)
  {
    match k
    case OpenAI => OpenAIAdapter.ChatGPTProvider.DefaultModel()
    case Gemini => GeminiAdapter.GeminiProvider.DefaultModel()
    case Grok => GrokAdapter.GrokProvider.DefaultModel()
  }

  /** `getAvailableModels(provider)`: the adapter's list, or [] for an unregistered key. */
  function GetAvailableModels(provider: string): (ms: seq<string>)
    ensures KeyOf(provider).None? ==> ms == []
    ensures KeyOf(provider).Some? ==> ms == ModelsOf(KeyOf(provider).value)
  {
    match KeyOf(provider)
    case None => []
    case Some(k) => ModelsOf(k)
  }

  /** `getDefaultModel(provider)`: null exactly for an unregistered key, otherwise one of its models. */
  function GetDefaultModel(provider: string): (m: Option<string>)
    ensures m.None? <==> KeyOf(provider).None?
    ensures m.Some? ==> m.value in GetAvailableModels(provider)
  {
    match KeyOf(provider)
    case None => None
    case Some(k) => Some(DefaultModelOf(k))
  }

  class AIProvider {
    var currentProvider: string
    const configManager: ConfigManager?
    const chatgpt: OpenAIAdapter.ChatGPTProvider
    const gemini: GeminiAdapter.GeminiProvider
    const grok: GrokAdapter.GrokProvider
    /** The order in which the directory listing registered the adapters. */
    const order: seq<ProviderKey>

    /** Every adapter shares the registry's configuration; the OpenAI one has the default retry policy. */
    predicate Valid()
      reads {}
    {
      && IsRegistryOrder(order)
      && chatgpt.Valid()
      && chatgpt.configManager == configManager
      && gemini.configManager == configManager
      && grok.configManager == configManager
    }

    constructor (configManager: ConfigManager?, order: seq<ProviderKey>)
      requires IsRegistryOrder(order)
      ensures Valid() && this.configManager == configManager && this.order == order
      ensures currentProvider == "openai"
      ensures forall k :: !Snap(k).Ready(k) && Snap(k).apiKey.None?
      ensures fresh(chatgpt) && fresh(gemini) && fresh(grok)
    {
      currentProvider := "openai";
      this.configManager := configManager;
      this.order := order;
      chatgpt := new OpenAIAdapter.ChatGPTProvider(configManager);
      gemini := new GeminiAdapter.GeminiProvider(configManager);
      grok := new GrokAdapter.GrokProvider(configManager);
    }

    /** The state of the adapter registered under `k`. */
    function Snap(k: ProviderKey): (s: AdapterState)
      reads this, chatgpt, gemini, grok
      ensures k == ProviderKey.OpenAI ==> (s.Ready(k) <==> chatgpt.IsInitialized())
      ensures k == ProviderKey.Gemini ==> (s.Ready(k) <==> gemini.IsInitialized())
      ensures k == ProviderKey.Grok ==> (s.Ready(k) <==> grok.IsInitialized())
    {
      match k
      case OpenAI => AdapterState(chatgpt.client.Some?, chatgpt.apiKey, chatgpt.model)
      case Gemini => AdapterState(gemini.client.Some?, gemini.apiKey, gemini.model)
      case Grok => AdapterState(grok.client.Some?, grok.apiKey, grok.model)
    }

    /** The adapter's `name`. */
    function NameOf(k: ProviderKey): string
      reads this
    {
      match k
      case OpenAI => chatgpt.name
      case Gemini => gemini.name
      case Grok => grok.name
    }

    /** The model an adapter takes from the configuration on `initialize`, if there is a configuration. */
    function Refreshed(k: ProviderKey): (m: Option<string>)
      reads this, configManager
    {
      if configManager != null then Some(configManager.GetModel(k.Name())) else None
    }

    /** The default key the configuration holds for `k`, `null` without a configuration. */
    function ConfiguredKey(k: ProviderKey): (key: Option<string>)
      reads this, configManager
    {
      if configManager != null then configManager.GetDefaultApiKey(k.Name()) else None
    }

    /** `isProviderAvailable(providerKey)`: registered and initialized. */
    predicate IsProviderAvailable(provider: string)
      reads this, chatgpt, gemini, grok
    {
      KeyOf(provider).Some? && Snap(KeyOf(provider).value).Ready(KeyOf(provider).value)
    }

    /** The `{key, name, model}` record of an adapter. */
    function View(k: ProviderKey): (v: ProviderView)
      reads this, chatgpt, gemini, grok
      ensures v.key == k.Name() && v.name == NameOf(k) && v.model == Snap(k).model
    {
      ProviderView(k.Name(), NameOf(k), Snap(k).model)
    }

    /** The record `getAllProviders` lists for an adapter. */
    function Listing(k: ProviderKey): (l: ProviderListing)
      reads this, chatgpt, gemini, grok
      ensures l.key == k.Name() && l.name == NameOf(k) && l.model == Snap(k).model
      ensures l.initialized <==> Snap(k).Ready(k)
      ensures l.defaultModel in l.availableModels && l.availableModels == ModelsOf(k)
    {
      ProviderListing(k.Name(), NameOf(k), Snap(k).model, Snap(k).Ready(k), ModelsOf(k), DefaultModelOf(k))
    }

    /** `getCurrentProvider()`: null exactly when the current key is not registered. */
    function GetCurrentProvider(): (r: Option<ProviderView>)
      reads this, chatgpt, gemini, grok
      ensures r.None? <==> KeyOf(currentProvider).None?
      ensures r.Some? ==> r.value.key == currentProvider && r.value == View(KeyOf(currentProvider).value)
    {
      match KeyOf(currentProvider)
      case None => None
      case Some(k) => Some(View(k))
    }

    /** The initialized adapters among `ks`, in the order of `ks`. */
    function Listed(ks: seq<ProviderKey>): seq<ProviderView>
      reads this, chatgpt, gemini, grok
    {
      if ks == [] then []
      else (if Snap(ks[0]).Ready(ks[0]) then [View(ks[0])] else []) + Listed(ks[1..])
    }

    /** The listing of a concatenation is the concatenation of the listings: the order is kept. */
    lemma {:induction false} ListedSplits(a: seq<ProviderKey>, b: seq<ProviderKey>)
      ensures Listed(a + b) == Listed(a) + Listed(b)
      decreases |a|
    {
      if a == [] {
        assert a + b == b;
      } else {
        assert (a + b)[0] == a[0] && (a + b)[1..] == a[1..] + b;
        ListedSplits(a[1..], b);
      }
    }

    /** Exactly the initialized adapters of `ks` are listed. */
    lemma {:induction false} ListedExactly(ks: seq<ProviderKey>)
      ensures forall k :: k in ks ==> (View(k) in Listed(ks) <==> Snap(k).Ready(k))
      ensures forall v :: v in Listed(ks) ==> exists k :: k in ks && Snap(k).Ready(k) && v == View(k)
      decreases |ks|
    {
      if ks != [] {
        ListedExactly(ks[1..]);
        forall k | k in ks
          ensures View(k) in Listed(ks) <==> Snap(k).Ready(k)
        {
          if k != ks[0] {
            assert k in ks[1..];
            assert View(k) != View(ks[0]) by {
              assert View(k).key != View(ks[0]).key by {
                NamesDiffer(k, ks[0]);
              }
            }
          }
        }
      }
    }

    /** `switchProvider(providerName)`: only an available provider becomes current. */
    method SwitchProvider(provider: string) returns (switched: bool)
      modifies this
      ensures switched <==> old(IsProviderAvailable(provider))
      ensures currentProvider == if switched then provider else old(currentProvider)
    {
      match KeyOf(provider)
      case None => switched := false;
      case Some(k) =>
        switched := Snap(k).Ready(k);
        if switched {
          currentProvider := provider;
        }
    }

    /** `getAvailableProviders()`: walks the registry and collects the initialized adapters. */
    method GetAvailableProviders() returns (available: seq<ProviderView>)
      ensures available == Listed(order)
    {
      available := [];
      var i := 0;
      while i < |order|
        invariant 0 <= i <= |order|
        invariant available == Listed(order[..i])
      {
        ListedSplits(order[..i], [order[i]]);
        assert order[..i + 1] == order[..i] + [order[i]];
        if Snap(order[i]).Ready(order[i]) {
          available := available + [View(order[i])];
        }
        i := i + 1;
      }
      assert order[..i] == order;
    }

    /** `getAllProviders()`: one record per registered adapter, in registry order. */
    method GetAllProviders() returns (all: seq<ProviderListing>)
      ensures |all| == |order|
      ensures forall i :: 0 <= i < |order| ==> all[i] == Listing(order[i])
    {
      all := [];
      var i := 0;
      while i < |order|
        invariant 0 <= i <= |order| && |all| == i
        invariant forall j :: 0 <= j < i ==> all[j] == Listing(order[j])
      {
        all := all + [Listing(order[i])];
        i := i + 1;
      }
    }

    /** `provider.initialize(key)` on the adapter registered under `k`; a refusal is swallowed. */
    method InitializeAdapter(k: ProviderKey, key: Option<string>)
      requires Valid()
      modifies chatgpt, gemini, grok
      ensures Snap(k) == AfterInit(old(Snap(k)), k, key, Refreshed(k))
      ensures forall k' :: k' != k ==> Snap(k') == old(Snap(k'))
    {
      if !TruthyString(key) {
        return;
      }
      match k
      case OpenAI => var _ := chatgpt.Initialize(key);
      case Gemini => var _ := gemini.Initialize(key);
      case Grok => var _ := grok.Initialize(key);
    }

    /**
     * `initialize()`: without a configuration nothing happens; otherwise each
     * adapter, in registry order, is initialized with its configured default
     * key when that is truthy.
     */
    method Initialize()
      requires Valid()
      modifies chatgpt, gemini, grok
      ensures forall k :: Snap(k) == AfterInit(old(Snap(k)), k, ConfiguredKey(k), Refreshed(k))
    {
      if configManager == null {
        return;
      }
      ghost var was0, was1, was2 := Snap(ProviderKey.OpenAI), Snap(ProviderKey.Gemini), Snap(ProviderKey.Grok);
      var i := 0;
      while i < |order|
        invariant 0 <= i <= |order|
        invariant Progress(ProviderKey.OpenAI, order[..i], was0)
        invariant Progress(ProviderKey.Gemini, order[..i], was1)
        invariant Progress(ProviderKey.Grok, order[..i], was2)
      {
        var k := order[i];
        InitializeAdapter(k, ConfiguredKey(k));
        if k in order[..i] {
          AfterInitTwice(old(Snap(k)), k, ConfiguredKey(k), Refreshed(k));
        }
        assert order[..i + 1] == order[..i] + [k];
        i := i + 1;
      }
      assert order[..i] == order;
    }

    /** The adapter under `k` has been initialized from the configuration once it is in `done`, and is untouched otherwise. */
    predicate Progress(k: ProviderKey, done: seq<ProviderKey>, before: AdapterState)
      reads this, chatgpt, gemini, grok, configManager
    {
      Snap(k) == if k in done then AfterInit(before, k, ConfiguredKey(k), Refreshed(k)) else before
    }

    /** `initializeWithKeys(openaiKey, geminiKey, grokKey)`: each truthy key initializes its adapter. */
    method InitializeWithKeys(openaiKey: Option<string>, geminiKey: Option<string>, grokKey: Option<string>)
      requires Valid()
      modifies chatgpt, gemini, grok
      ensures Snap(ProviderKey.OpenAI) == AfterInit(old(Snap(ProviderKey.OpenAI)), ProviderKey.OpenAI, openaiKey, Refreshed(ProviderKey.OpenAI))
      ensures Snap(ProviderKey.Gemini) == AfterInit(old(Snap(ProviderKey.Gemini)), ProviderKey.Gemini, geminiKey, Refreshed(ProviderKey.Gemini))
      ensures Snap(ProviderKey.Grok) == AfterInit(old(Snap(ProviderKey.Grok)), ProviderKey.Grok, grokKey, Refreshed(ProviderKey.Grok))
    {
      InitializeAdapter(ProviderKey.OpenAI, openaiKey);
      InitializeAdapter(ProviderKey.Gemini, geminiKey);
      InitializeAdapter(ProviderKey.Grok, grokKey);
    }

    /** `provider.client = null` on the adapter registered under `k`. */
    method ClearClient(k: ProviderKey)
      modifies chatgpt, gemini, grok
      ensures Snap(k) == Cleared(old(Snap(k)))
      ensures forall k' :: k' != k ==> Snap(k') == old(Snap(k'))
    {
      match k
      case OpenAI => chatgpt.client := None;
      case Gemini => gemini.client := None;
      case Grok => grok.client := None;
    }

    /** `reinitialize()`: every client is dropped, then `initialize()` runs again. */
    method Reinitialize()
      requires Valid()
      modifies chatgpt, gemini, grok
      ensures forall k :: Snap(k) == AfterInit(Cleared(old(Snap(k))), k, ConfiguredKey(k), Refreshed(k))
      ensures forall k :: Snap(k).Ready(k) <==>
                TruthyString(ConfiguredKey(k)) || (k == ProviderKey.Gemini && old(Snap(k)).Ready(k))
    {
      var i := 0;
      while i < |order|
        invariant 0 <= i <= |order|
        invariant forall k :: k in order[..i] ==> Snap(k) == Cleared(old(Snap(k)))
        invariant forall k :: k !in order[..i] ==> Snap(k) == old(Snap(k))
      {
        ClearClient(order[i]);
        assert order[..i + 1] == order[..i] + [order[i]];
        i := i + 1;
      }
      assert order[..i] == order;
      Initialize();
      forall k
        ensures Snap(k).Ready(k) <==> TruthyString(ConfiguredKey(k)) || (k == ProviderKey.Gemini && old(Snap(k)).Ready(k))
      {
        ReinitializedReady(old(Snap(k)), k, ConfiguredKey(k), Refreshed(k));
      }
    }

    /** `updateModel(provider, model)`: forwarded to a registered adapter, a no-op otherwise. */
    method UpdateModel(provider: string, model: string)
      requires Valid()
      modifies chatgpt, gemini, grok, configManager
      ensures forall k :: Snap(k) == if k.Name() == provider then old(Snap(k)).(model := model) else old(Snap(k))
      ensures configManager != null ==>
                && configManager.models == (if KeyOf(provider).Some? then old(configManager.models)[provider := model]
                                            else old(configManager.models))
                && configManager.apiKeys == old(configManager.apiKeys)
                && configManager.defaultProvider == old(configManager.defaultProvider)
                && configManager.firstRun == old(configManager.firstRun)
                && configManager.saves == old(configManager.saves) + (if KeyOf(provider).Some? then 1 else 0)
    {
      match KeyOf(provider)
      case None =>
      case Some(k) =>
        match k
        case OpenAI => chatgpt.UpdateModel(model);
        case Gemini => gemini.UpdateModel(model);
        case Grok => grok.UpdateModel(model);
    }

    /** What the adapter under `k` produces for `text`: its reply text, or the message of what it throws. */
    function AdapterOutcome(k: ProviderKey, text: string, history: seq<Turn>, op: nat -> Attempt, reply: Reply)
      : Result<string, string>
      reads this, chatgpt, gemini, grok
    {
      match k
      case OpenAI =>
        (match chatgpt.retryManager.Governed(op).result
         case Success(t) => Success(t)
         case Failure(e) => Failure(e.message))
      case Grok =>
        (match reply
         case Answer(t) => Success(t)
         case Fail(e) => Failure(GrokAdapter.RewrapError(e)))
      case Gemini =>
        if !TruthyString(gemini.apiKey) then Failure(GeminiAdapter.NotInitialized)
        else match reply
          case Answer(t) => Success(t)
          case Fail(e) => Failure("Gemini API Error: " + e.message)
    }

    /** The request the adapter under `k` makes for `text`, none when it refuses first. */
    function AdapterRequest(k: ProviderKey, text: string, history: seq<Turn>): Option<Dispatch>
      reads this, chatgpt, gemini, grok
    {
      match k
      case OpenAI => Some(ChatCall(ChatRequest(chatgpt.model, WireMessages(history, text), 1000, 0.7)))
      case Grok => Some(ChatCall(ChatRequest(grok.model, WireMessages(history, text), 1000, 0.7)))
      case Gemini =>
        if !TruthyString(gemini.apiKey) then None
        else Some(GeminiCall(GeminiAdapter.GenerateRequest(
          GeminiAdapter.Endpoint(gemini.model), GeminiAdapter.Contents(history, text), gemini.apiKey.value)))
    }

    /**
     * `sendMessage(message, history)`. `instructions` is what
     * `configManager.getCurrentAgentInstructions()` gave (a failure when it
     * threw); `op` and `reply` are how the adapter's network call ends.
     * An unavailable current provider fails before anything else; otherwise
     * the prepared text and the unchanged history go to the adapter, and any
     * failure comes back rewrapped under the provider key.
     */
    method SendMessage(message: string, history: seq<Turn>, instructions: Result<string, string>,
                       op: nat -> Attempt, reply: Reply)
      returns (result: Result<string, string>, dispatched: Option<Dispatch>)
      requires Valid()
      ensures !IsProviderAvailable(currentProvider) ==>
                result == Failure("Provider " + currentProvider + " is not initialized") && dispatched.None?
      ensures IsProviderAvailable(currentProvider) && configManager != null && instructions.Failure? ==>
                result == Failure(Rewrap(currentProvider, instructions.error)) && dispatched.None?
      ensures IsProviderAvailable(currentProvider) && (configManager == null || instructions.Success?) ==>
                var k := KeyOf(currentProvider).value;
                var text := PrepareMessage(message, history, if configManager == null then "" else instructions.value);
                && dispatched == AdapterRequest(k, text, history)
                && (AdapterOutcome(k, text, history, op, reply).Success? ==>
                      result == AdapterOutcome(k, text, history, op, reply))
                && (AdapterOutcome(k, text, history, op, reply).Failure? ==>
                      result == Failure(Rewrap(currentProvider, AdapterOutcome(k, text, history, op, reply).error)))
    {
      if !IsProviderAvailable(currentProvider) {
        return Failure("Provider " + currentProvider + " is not initialized"), None;
      }
      var k := KeyOf(currentProvider).value;
      var agentInstructions := "";
      if configManager != null {
        if instructions.Failure? {
          return Failure(Rewrap(currentProvider, instructions.error)), None;
        }
        agentInstructions := instructions.value;
      }
      var text := PrepareMessage(message, history, agentInstructions);
      var outcome: Result<string, string>;
      match k {
        case OpenAI =>
          var r, request, _, _ := chatgpt.SendMessage(text, history, false, op);
          outcome := if r.Success? then Success(r.value) else Failure(r.error.Message());
          dispatched := if request.Some? then Some(ChatCall(request.value)) else None;
        case Grok =>
          var r, request := grok.SendMessage(text, history, reply);
          outcome := r;
          dispatched := if request.Some? then Some(ChatCall(request.value)) else None;
        case Gemini =>
          var r, request := gemini.SendMessage(text, history, reply);
          outcome := r;
          dispatched := if request.Some? then Some(GeminiCall(request.value)) else None;
      }
      result := if outcome.Success? then outcome else Failure(Rewrap(currentProvider, outcome.error));
    }
  }

  /** Different providers register under different keys. */
  lemma NamesDiffer(a: ProviderKey, b: ProviderKey)
    requires a != b
    ensures a.Name() != b.Name()
  {
  }
}
