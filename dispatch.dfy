/**
  `get_llm_response(input_text, expert_key)`: validate the key, look up the persona's
  system prompt, send a two-message conversation to the chat model, return the reply's
  content. The chat model (construction of the client and the network call) is an
  oracle: for each request it either replies with a message or raises an exception.
  The requests the function sends are returned beside its result, so that how often
  the service is contacted, and with what, can be stated.
 */
module Dispatch {
  import opened Wrappers
  import opened Personas
  import opened PyText

  /** LangChain's `SystemMessage(content=...)` and `HumanMessage(content=...)`. */
  datatype Message = SystemMessage(content: string) | HumanMessage(content: string)

  /** The fixed client configuration: model name, and the sampling temperature 0.5
      written in tenths (it is passed through, never computed with). */
  const ModelName := "gpt-4o-mini"
  const TemperatureTenths := 5

  /** One call of the chat model: how the client was configured and what it was sent. */
  datatype ChatRequest = ChatRequest(model: string, temperatureTenths: nat, messages: seq<Message>)

  /** A Python exception: its class name and `str(e)`. */
  datatype PyException = PyException(className: string, message: string)

  /** What the chat model does with a request: an `AIMessage` whose `content` is the
      answer, or an exception (network, authentication, quota, a malformed reply ...). */
  datatype ChatReply = Replied(content: string) | Raised(exception: PyException)

  /** The hosted completion service, as seen by this program. */
  type ChatService = ChatRequest -> ChatReply

  /** One run of `get_llm_response`: the requests it sent, in order, and its return
      value or the exception it raised. */
  datatype Invocation = Invocation(sent: seq<ChatRequest>, result: Result<string, PyException>)

  const UnknownKeyMessage := "expert_key は 'A' か 'B' を指定してください。"

  /** The exception raised for a key that is not in `EXPERTS`. */
  const UnknownKeyError := PyException("ValueError", UnknownKeyMessage)

  /** `EXPERTS[expert_key]["system"]`, guarded by the membership test before it:
      a registered key yields its persona's (non-empty) prompt, any other string
      yields the `ValueError`. */
  function SystemPrompt(expertKey: string): (r: Result<string, PyException>)
    ensures r.Success? <==> expertKey in {"A", "B"}
    ensures r.Success? ==> r.value == Experts()[expertKey].system && r.value != []
    ensures r.Failure? ==> r.error == UnknownKeyError
  {
    if expertKey !in Experts() then Failure(UnknownKeyError)
    else Success(Experts()[expertKey].system)
  }

  /** The message list: the persona's prompt as the one system message, then the input
      text, exactly as given, as the one human message. */
  function Conversation(systemPrompt: string, inputText: string): seq<Message> {
    [SystemMessage(systemPrompt), HumanMessage(inputText)]
  }

  /** The inverse of `Conversation`: reads a message list back into the system prompt
      and user text it was built from, and yields `None` for any list `Conversation`
      cannot build. */
  function Decompose(ms: seq<Message>): (r: Option<(string, string)>)
    ensures forall p, t :: r == Some((p, t)) <==> ms == Conversation(p, t)
  {
    if |ms| == 2 && ms[0].SystemMessage? && ms[1].HumanMessage? then
      Some((ms[0].content, ms[1].content))
    else
      None
  }

  /** Composing a conversation loses nothing: prompt and text can be read back. */
  lemma DecomposeConversation(systemPrompt: string, inputText: string)
    ensures Decompose(Conversation(systemPrompt, inputText)) == Some((systemPrompt, inputText))
  {
  }

  /** The persona a conversation was built for can be told from the conversation,
      because no two personas share a system prompt. */
  lemma ConversationIdentifiesPersona(k1: string, k2: string, t1: string, t2: string)
    requires k1 in Experts() && k2 in Experts()
    requires Conversation(Experts()[k1].system, t1) == Conversation(Experts()[k2].system, t2)
    ensures k1 == k2 && t1 == t2
  {
  }

  /** The chat client as `get_llm_response` configures it, sent one conversation. */
  function Request(messages: seq<Message>): ChatRequest {
    ChatRequest(ModelName, TemperatureTenths, messages)
  }

  /** `get_llm_response(input_text, expert_key)` with the chat model `llm`.
      An unknown key raises `ValueError` before any request is made. A known key
      sends exactly one request: the fixed model and temperature, the persona's
      prompt, and the input text untouched; the reply's content is returned as it
      came, and an exception raised by the service propagates unchanged. */
  function GetLlmResponse(inputText: string, expertKey: string, llm: ChatService): (r: Invocation)
    ensures expertKey !in Experts() ==> r == Invocation([], Failure(UnknownKeyError))
    ensures expertKey in Experts() ==>
      && |r.sent| == 1
      && r.sent[0].model == ModelName
      && r.sent[0].temperatureTenths == TemperatureTenths
      && Decompose(r.sent[0].messages) == Some((Experts()[expertKey].system, inputText))
      && (r.result.Success? <==> llm(r.sent[0]).Replied?)
      && (r.result.Success? ==> r.result.value == llm(r.sent[0]).content)
      && (r.result.Failure? ==> r.result.error == llm(r.sent[0]).exception)
  {
    match SystemPrompt(expertKey)
    case Failure(e) => Invocation([], Failure(e))
    case Success(systemPrompt) =>
      var request := Request(Conversation(systemPrompt, inputText));
      match llm(request)
      case Replied(content) => Invocation([request], Success(content))
      case Raised(e) => Invocation([request], Failure(e))
  }

  /** `get_llm_response` itself does not look at the text: empty or whitespace-only
      input is sent to the service like any other. */
  lemma BlankInputStillSent(inputText: string, expertKey: string, llm: ChatService)
    requires AllSpace(inputText) && expertKey in Experts()
    ensures GetLlmResponse(inputText, expertKey, llm).sent
              == [Request(Conversation(Experts()[expertKey].system, inputText))]
  {
  }
}
