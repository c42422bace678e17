/** Provider keys and the conversation history shared by the registry and the adapters. */
module Chat {
  import opened Wrappers

  /** The three providers found in the providers directory; `chatgpt` registers as 'openai'. */
  datatype ProviderKey = OpenAI | Gemini | Grok {
    function Name(): string {
      match this
      case OpenAI => "openai"
      case Gemini => "gemini"
      case Grok => "grok"
    }
  }

  /** The registered adapter for a key, if any (`this.providers[name]`). */
  function KeyOf(name: string): (k: Option<ProviderKey>)
    ensures k.Some? <==> name in {"openai", "gemini", "grok"}
    ensures k.Some? ==> k.value.Name() == name
  {
    if name == "openai" then Some(OpenAI)
    else if name == "gemini" then Some(Gemini)
    else if name == "grok" then Some(Grok)
    else None
  }

  /** A directory listing of the three provider modules, in some order. */
  predicate IsRegistryOrder(order: seq<ProviderKey>) {
    |order| == 3 && OpenAI in order && Gemini in order && Grok in order
  }

  /** One turn of the conversation held by the caller. */
  datatype Turn = Turn(role: string, content: string, timestamp: string)

  /** One chat-completion message on the wire. */
  datatype WireMessage = WireMessage(role: string, content: string)

  /** The body of a chat-completion request (OpenAI and Grok share the shape). */
  datatype ChatRequest = ChatRequest(model: string, messages: seq<WireMessage>, maxTokens: int, temperature: real)

  /** The wire role of a history turn: the user's turns are 'You'. */
  function WireRole(role: string): string {
    if role == "You" then "user" else "assistant"
  }

  /** `[...history.map(toWire), {role: 'user', content: message}]`. */
  function WireMessages(history: seq<Turn>, message: string): (r: seq<WireMessage>)
    ensures |r| == |history| + 1
    ensures forall i :: 0 <= i < |history| ==>
              r[i] == WireMessage(WireRole(history[i].role), history[i].content)
    ensures r[|history|] == WireMessage("user", message)
    decreases |history|
  {
    if history == [] then [WireMessage("user", message)]
    else [WireMessage(WireRole(history[0].role), history[0].content)] + WireMessages(history[1..], message)
  }
}
