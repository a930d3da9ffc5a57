/** The proxy provider's API client as an oracle: each call is answered by `answer`, indexed by
    the number of calls made so far, with the data of an upstream proxy, a refusal, or a
    transport failure. */
module KiotProxy {
  import opened Wrappers

  /** The `data` object of a successful answer, limited to the keys the fleet manager reads;
      `location` and `expirationAt` are None when the key is absent. */
  datatype Upstream = Upstream(
    http: string,
    realIpAddress: string,
    location: Option<string>,
    expirationAt: Option<int>,
    ttl: int,
    ttc: int)

  /** GET /proxies/current?key=… or GET /proxies/new?key=…&region=…. */
  datatype Request = GetCurrent(key: string) | GetNew(key: string, region: string)

  /** The "message" key of a refusal: absent, present but null, or a string. */
  datatype Message = NoMessage | NullMessage | TextMessage(text: string)

  /** A body with success true, a body with success false, or an exception raised by the HTTP
      client, with its text. */
  datatype Reply = Granted(data: Upstream) | Refused(message: Message) | Broken(error: string)

  const ApiErrorPrefix := "KiotProxy API error: "

  /** How the refusal's message shows in the f-string: the default "Unknown error" when the key
      is absent, Python's "None" for a null, the string itself otherwise. */
  function MessageText(m: Message): string
  {
    match m
    case NoMessage => "Unknown error"
    case NullMessage => "None"
    case TextMessage(s) => s
  }

  /** What the client returns for a reply: the data, or the text of the exception it raises. */
  function Interpret(reply: Reply): Result<Upstream, string>
  {
    match reply
    case Granted(data) => Success(data)
    case Refused(message) => Failure(ApiErrorPrefix + MessageText(message))
    case Broken(error) => Failure(error)
  }

  /** The client returns the data exactly on a success body; a refusal raises the API error with
      "Unknown error" for a missing message, "None" for a null one and the message otherwise; a
      client failure raises its own text. */
  lemma {:induction false} InterpretOutcomes(reply: Reply)
    ensures var r := Interpret(reply);
      && (r.Success? <==> reply.Granted?)
      && (reply.Granted? ==> r.value == reply.data)
      && (reply == Refused(NoMessage) ==> r.error == "KiotProxy API error: Unknown error")
      && (reply == Refused(NullMessage) ==> r.error == "KiotProxy API error: None")
      && (reply.Refused? && reply.message.TextMessage? ==> r.error == ApiErrorPrefix + reply.message.text)
      && (reply.Broken? ==> r.error == reply.error)
  {
  }

  class Provider {
    const answer: (nat, Request) -> Reply
    var calls: nat

    constructor (answer: (nat, Request) -> Reply)
      ensures this.answer == answer && calls == 0
    {
      this.answer := answer;
      calls := 0;
    }

    /** get_new_proxy(key, region). */
    method GetNewProxy(key: string, region: string) returns (r: Result<Upstream, string>)
      modifies this
      ensures calls == old(calls) + 1
      ensures r == Interpret(answer(old(calls), GetNew(key, region)))
    {
      r := Interpret(answer(calls, GetNew(key, region)));
      calls := calls + 1;
    }

    /** get_current_proxy(key). */
    method GetCurrentProxy(key: string) returns (r: Result<Upstream, string>)
      modifies this
      ensures calls == old(calls) + 1
      ensures r == Interpret(answer(old(calls), GetCurrent(key)))
    {
      r := Interpret(answer(calls, GetCurrent(key)));
      calls := calls + 1;
    }
  }
}
