/** `sendMessage`: one POST to the Telegram Bot API's `sendMessage` method. The API is an
    oracle: whether a bot token is configured, and what Telegram answers to each request. */
module Messaging {
  import opened Wrappers

  /** The `options` object spread into a request (`parse_mode`, `disable_web_page_preview`). */
  datatype Options = Options(parseMode: Option<string>, disableWebPagePreview: Option<bool>)

  const NoOptions: Options := Options(None, None)
  const MarkdownOptions: Options := Options(Some("Markdown"), None)
  /** `{ parse_mode: "Markdown", disable_web_page_preview: false }`. */
  const MarkdownPreviewOptions: Options := Options(Some("Markdown"), Some(false))

  /** The request body: `chat_id`, `text` and the options. */
  datatype Message = Message(chatId: int, text: string, options: Options)

  /** What a request ends in: Telegram's `ok: true`, Telegram's `ok: false` with its
      `description`, or an exception on the way (network, a body that is not JSON). */
  datatype Answer = Accepted | Rejected(description: string) | Unreachable

  datatype Api = Api(tokenSet: bool, answer: Message -> Answer)

  const NoToken: string := "Bot token not configured"
  const NetworkError: string := "fetch failed"

  /** The error `sendMessage` throws for a message, or `None` when Telegram accepts it. */
  function SendError(api: Api, m: Message): (e: Option<string>)
    ensures e.None? <==> api.tokenSet && api.answer(m) == Accepted
    ensures !api.tokenSet ==> e == Some(NoToken)
  {
    if !api.tokenSet then Some(NoToken)
    else
      match api.answer(m)
      case Accepted => None
      case Rejected(d) => Some("Telegram API error: " + d)
      case Unreachable => Some(NetworkError)
  }

  predicate Delivers(api: Api, m: Message) {
    SendError(api, m).None?
  }

  /** The messages delivered when `ms` are sent one after another and the first failure
      throws out of the sequence. */
  function SendAll(api: Api, ms: seq<Message>): (r: seq<Message>)
    ensures r <= ms
    ensures |r| < |ms| ==> !Delivers(api, ms[|r|])
  {
    if ms == [] then []
    else if Delivers(api, ms[0]) then [ms[0]] + SendAll(api, ms[1..])
    else []
  }

  /** Every message `SendAll` reports was delivered, and it stops only at a failure: all of
      `ms` go through exactly when each of them is accepted. */
  lemma {:induction false} SendAllDelivers(api: Api, ms: seq<Message>)
    ensures forall k | 0 <= k < |SendAll(api, ms)| :: Delivers(api, ms[k])
    ensures SendAll(api, ms) == ms <==> forall k | 0 <= k < |ms| :: Delivers(api, ms[k])
  {
    if ms != [] && Delivers(api, ms[0]) {
      SendAllDelivers(api, ms[1..]);
      assert forall k | 1 <= k < |ms| :: ms[k] == ms[1..][k - 1];
    }
  }

  /** Sending one more message after a fully delivered prefix. */
  lemma {:induction false} SendAllStep(api: Api, ms: seq<Message>, i: nat)
    requires i < |ms| && SendAll(api, ms[..i]) == ms[..i]
    ensures SendAll(api, ms[..i + 1]) == if Delivers(api, ms[i]) then ms[..i + 1] else ms[..i]
    ensures !Delivers(api, ms[i]) ==> SendAll(api, ms) == ms[..i]
  {
    if i > 0 {
      assert ms[..i][1..] == ms[1..][..i - 1];
      assert ms[..i + 1][1..] == ms[1..][..i];
      SendAllStep(api, ms[1..], i - 1);
      assert ms[..i + 1] == [ms[0]] + ms[1..][..i];
    } else {
      assert ms[..1] == [ms[0]];
    }
  }

  /** Every message goes to chat `chatId`. */
  predicate AllTo(ms: seq<Message>, chatId: int) {
    forall k | 0 <= k < |ms| :: ms[k].chatId == chatId
  }

  lemma AllToConcat(a: seq<Message>, b: seq<Message>, chatId: int)
    ensures AllTo(a + b, chatId) <==> AllTo(a, chatId) && AllTo(b, chatId)
  {
    if AllTo(a, chatId) && AllTo(b, chatId) {
      forall k | 0 <= k < |a + b| ensures (a + b)[k].chatId == chatId {
        if k >= |a| { assert (a + b)[k] == b[k - |a|]; }
      }
    }
    if AllTo(a + b, chatId) {
      forall k | 0 <= k < |a| ensures a[k].chatId == chatId {
        assert (a + b)[k] == a[k];
      }
      forall k | 0 <= k < |b| ensures b[k].chatId == chatId {
        assert (a + b)[|a| + k] == b[k];
      }
    }
  }

  /** Telegram accepts each of `ms`. */
  predicate DeliversAll(api: Api, ms: seq<Message>) {
    forall k | 0 <= k < |ms| :: Delivers(api, ms[k])
  }

  /** The outcome of `try { send ms } catch { send apology }`: the messages delivered, and
      whether an exception leaves the handler (the apology itself failing). */
  datatype Outcome = Outcome(delivered: seq<Message>, raised: bool)

  function Guarded(api: Api, ms: seq<Message>, apology: Message): (o: Outcome)
    ensures DeliversAll(api, ms) ==> !o.raised && o.delivered == ms
    ensures !api.tokenSet && ms != [] ==> o == Outcome([], true)
    ensures o.raised <==> SendAll(api, ms) != ms && !Delivers(api, apology)
    ensures AllTo(ms, apology.chatId) ==> AllTo(o.delivered, apology.chatId)
  {
    SendAllDelivers(api, ms);
    var d := SendAll(api, ms);
    if d == ms then Outcome(ms, false)
    else if Delivers(api, apology) then Outcome(d + [apology], false)
    else Outcome(d, true)
  }

  /** One reply inside a `try` whose `catch` sends the apology: the reply when Telegram
      accepts it, otherwise the apology when Telegram accepts that. */
  function GuardedReply(api: Api, reply: Message, apology: Message): (o: Outcome)
    ensures o.delivered == if Delivers(api, reply) then [reply] else if Delivers(api, apology) then [apology] else []
    ensures o.raised <==> !Delivers(api, reply) && !Delivers(api, apology)
    ensures reply.chatId == apology.chatId ==> AllTo(o.delivered, reply.chatId)
  {
    assert [reply][1..] == [];
    Guarded(api, [reply], apology)
  }

  /** The outcome of a `catch` entered before anything was sent (a store call threw): the
      apology alone. */
  function Caught(api: Api, apology: Message): (o: Outcome)
    ensures o.delivered == (if Delivers(api, apology) then [apology] else [])
    ensures AllTo(o.delivered, apology.chatId)
    ensures o.raised <==> !Delivers(api, apology)
  {
    if Delivers(api, apology) then Outcome([apology], false) else Outcome([], true)
  }

  /** The outcome of an unguarded sequence of sends: a failure leaves the handler. */
  function Unguarded(api: Api, ms: seq<Message>): (o: Outcome)
    ensures o.delivered <= ms
    ensures forall c :: AllTo(ms, c) ==> AllTo(o.delivered, c)
    ensures o.raised <==> o.delivered != ms
    ensures !api.tokenSet && ms != [] ==> o == Outcome([], true)
  {
    var d := SendAll(api, ms);
    Outcome(d, d != ms)
  }

  /** One reply outside any `try`. */
  function UnguardedReply(api: Api, reply: Message): (o: Outcome)
    ensures o.delivered == if Delivers(api, reply) then [reply] else []
    ensures o.raised <==> !Delivers(api, reply)
    ensures AllTo(o.delivered, reply.chatId)
    ensures !api.tokenSet ==> o == Outcome([], true)
  {
    assert [reply][1..] == [];
    Unguarded(api, [reply])
  }

  /** The bot: its API and the messages Telegram accepted, in order. */
  class Bot {
    const api: Api
    var sent: seq<Message>

    constructor (api: Api)
      ensures this.api == api && sent == []
    {
      this.api := api;
      sent := [];
    }

    /** `sendMessage(chatId, text, options)`: `None` when Telegram accepts the message, which
        is then recorded; otherwise the error thrown. */
    method SendMessage(chatId: int, text: string, options: Options) returns (error: Option<string>)
      modifies this
      ensures error == SendError(api, Message(chatId, text, options))
      ensures sent == if error.None? then old(sent) + [Message(chatId, text, options)] else old(sent)
    {
      error := SendError(api, Message(chatId, text, options));
      if error.None? {
        sent := sent + [Message(chatId, text, options)];
      }
    }

    /** A `for` loop of `await sendMessage(...)`: sends `ms` in order until one fails. */
    method SendEach(ms: seq<Message>) returns (ok: bool)
      modifies this
      ensures sent == old(sent) + SendAll(api, ms)
      ensures ok <==> SendAll(api, ms) == ms
    {
      var i := 0;
      while i < |ms|
        invariant 0 <= i <= |ms|
        invariant SendAll(api, ms[..i]) == ms[..i]
        invariant sent == old(sent) + ms[..i]
      {
        SendAllStep(api, ms, i);
        var e := SendMessage(ms[i].chatId, ms[i].text, ms[i].options);
        if e.Some? {
          return false;
        }
        i := i + 1;
      }
      assert ms[..i] == ms;
      ok := true;
    }

    /** `try { send ms } catch { send apology }`; answers whether an exception escapes. */
    method SendGuarded(ms: seq<Message>, apology: Message) returns (raised: bool)
      modifies this
      ensures sent == old(sent) + Guarded(api, ms, apology).delivered
      ensures raised == Guarded(api, ms, apology).raised
    {
      var ok := SendEach(ms);
      raised := false;
      if !ok {
        var e := SendMessage(apology.chatId, apology.text, apology.options);
        raised := e.Some?;
      }
    }

    /** `try { send reply } catch { send apology }`. */
    method SendGuardedReply(reply: Message, apology: Message) returns (raised: bool)
      modifies this
      ensures sent == old(sent) + GuardedReply(api, reply, apology).delivered
      ensures raised == GuardedReply(api, reply, apology).raised
    {
      raised := SendGuarded([reply], apology);
    }

    /** One send outside any `try`. */
    method SendUnguardedReply(reply: Message) returns (raised: bool)
      modifies this
      ensures sent == old(sent) + UnguardedReply(api, reply).delivered
      ensures raised == UnguardedReply(api, reply).raised
    {
      raised := SendUnguarded([reply]);
    }

    /** Sends outside any `try`: the first failure escapes. */
    method SendUnguarded(ms: seq<Message>) returns (raised: bool)
      modifies this
      ensures sent == old(sent) + Unguarded(api, ms).delivered
      ensures raised == Unguarded(api, ms).raised
    {
      var ok := SendEach(ms);
      raised := !ok;
    }

    /** The `catch` of a handler whose store call threw: the apology. */
    method Apologize(apology: Message) returns (raised: bool)
      modifies this
      ensures sent == old(sent) + Caught(api, apology).delivered
      ensures raised == Caught(api, apology).raised
    {
      var e := SendMessage(apology.chatId, apology.text, apology.options);
      raised := e.Some?;
    }
  }
}
