/**
 * The call-out to the chat-completion service: the request the plugin sends
 * and how it classifies what comes back. The HTTP exchange and the JSON
 * decoding are not modelled; a reply is given already decoded.
 */
module Upstream {
  import opened Wrappers
  import opened PhpStrings

  const Endpoint: string := "https://api.openai.com/v1/chat/completions"
  const MaxTokens: nat := 4000
  const Temperature: real := 0.3
  const TimeoutSeconds: nat := 60
  const UnexpectedReply: string := "Unexpected API response"

  datatype ChatMessage = ChatMessage(role: string, content: string)

  /** One POST to the service: bearer credential, model, the single user message and the limits. */
  datatype ChatRequest = ChatRequest(
    url: string,
    bearer: string,
    model: string,
    messages: seq<ChatMessage>,
    maxTokens: nat,
    temperature: real,
    timeoutSeconds: nat)

  /** The request sent for `prompt`. */
  function ChatRequestFor(apiKey: string, model: string, prompt: string): (q: ChatRequest)
    ensures q.messages == [ChatMessage("user", prompt)]
    ensures q.bearer == apiKey && q.model == model
    ensures q.timeoutSeconds == 60 && q.maxTokens == 4000
  {
    ChatRequest(Endpoint, apiKey, model, [ChatMessage("user", prompt)], MaxTokens, Temperature, TimeoutSeconds)
  }

  /** `choices[i]`: the text under `message.content`, None when that is unset or null. */
  datatype Choice = Choice(content: Option<string>)

  /**
   * The decoded reply object: `error` is Some(`error.message`) when an
   * `error` key is set (an unset message reads as ""), and `choices` the
   * `choices` array (empty when unset).
   */
  datatype Decoded = Decoded(error: Option<string>, choices: seq<Choice>)

  /** What the HTTP layer hands back: a transport error, or a body that may not decode to an object. */
  datatype ApiReply = TransportFailure(message: string) | Received(body: Option<Decoded>)

  datatype Outcome = Generated(content: string) | Failed(error: string)

  predicate CarriesError(reply: ApiReply) {
    reply.Received? && reply.body.Some? && reply.body.value.error.Some?
  }

  predicate CarriesContent(reply: ApiReply) {
    && reply.Received? && reply.body.Some?
    && |reply.body.value.choices| > 0 && reply.body.value.choices[0].content.Some?
  }

  function FirstContent(reply: ApiReply): string
    requires CarriesContent(reply)
  {
    reply.body.value.choices[0].content.value
  }

  /**
   * Classifies a reply in the source's order: a transport error, then an
   * `error` key, then the first choice's content (trimmed, then passed
   * through the paragraph formatter `autop`), then "Unexpected API response".
   */
  function ClassifyReply(reply: ApiReply, autop: string -> string): (r: Outcome)
    ensures reply.TransportFailure? ==> r == Failed(reply.message)
    ensures CarriesError(reply) ==> r == Failed(reply.body.value.error.value)
    ensures r.Generated? <==> CarriesContent(reply) && !CarriesError(reply)
    ensures r.Generated? ==> CarriesContent(reply) && r.content == autop(Trim(FirstContent(reply)))
    ensures reply.Received? && !CarriesError(reply) && !CarriesContent(reply) ==> r == Failed(UnexpectedReply)
  {
    match reply
    case TransportFailure(message) => Failed(message)
    case Received(body) =>
      if CarriesError(reply) then Failed(body.value.error.value)
      else if CarriesContent(reply) then Generated(autop(Trim(FirstContent(reply))))
      else Failed(UnexpectedReply)
  }

  /** An `error` key decides the outcome even when the reply also carries content. */
  lemma ErrorWinsOverChoices(message: string, choices: seq<Choice>, autop: string -> string)
    ensures ClassifyReply(Received(Some(Decoded(Some(message), choices))), autop) == Failed(message)
  {
  }

  /** Generated text is the formatted form of a text with no surrounding whitespace. */
  lemma GeneratedIsTrimmed(reply: ApiReply, autop: string -> string)
    requires ClassifyReply(reply, autop).Generated?
    ensures exists t :: Trim(t) == t && ClassifyReply(reply, autop).content == autop(t)
  {
    var t := Trim(FirstContent(reply));
    TrimIdempotent(FirstContent(reply));
    assert Trim(t) == t;
  }
}
