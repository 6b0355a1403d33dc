/** The two Next.js webhook handlers, `app/api/webhook/route.ts` and
    `app/api/telegram/route.ts`. Each answers one Telegram update with at most one
    `sendMessage` request of its own, built by `fetch`, and an HTTP response. The Bot API is an
    oracle: whether `TELEGRAM_BOT_TOKEN` is set, and what Telegram answers to each request. */
module Routes {
  import opened Wrappers
  import opened Messaging

  /** The JSON body of a `sendMessage` request: `chat_id`, `text` and, for the first handler,
      `reply_to_message_id`. */
  datatype Post = Post(chatId: int, text: string, replyTo: Option<int>)

  datatype Endpoint = Endpoint(tokenSet: bool, answer: Post -> Answer)

  /** The JSON a handler returns: `{ ok: true }`, `{ success: true }`,
      `{ success: true, result }` or `{ error }`. */
  datatype Body = OkBody | SuccessBody | SuccessResult(result: Answer) | ErrorBody(error: string)

  datatype Response = Response(status: int, body: Body)

  /** What a handler did: the requests it made, in order, and its response. */
  datatype Handled = Handled(posts: seq<Post>, response: Response)

  /** `I received your message: "${text}"` followed by `suffix`. */
  function Echo(text: string, suffix: string): string {
    "I received your message: \"" + text + "\"" + suffix
  }

  const EchoOpening: string := "I received your message: \""

  /** The echo carries the text verbatim, right after its opening words. */
  lemma EchoCarriesText(text: string, suffix: string)
    ensures |Echo(text, suffix)| == |EchoOpening| + |text| + 1 + |suffix|
    ensures Echo(text, suffix)[..|EchoOpening|] == EchoOpening
    ensures Echo(text, suffix)[|EchoOpening|..|EchoOpening| + |text|] == text
  {
    var e := Echo(text, suffix);
    assert e == EchoOpening + text + "\"" + suffix;
    assert e[|EchoOpening|..|EchoOpening| + |text|] == text by {
      forall k | 0 <= k < |text|
        ensures e[|EchoOpening| + k] == text[k]
      {
        assert (EchoOpening + text)[|EchoOpening| + k] == text[k];
      }
    }
  }

  /** Different texts are echoed differently. */
  lemma EchoInjective(a: string, b: string, suffix: string)
    requires Echo(a, suffix) == Echo(b, suffix)
    ensures a == b
  {
    EchoCarriesText(a, suffix);
    EchoCarriesText(b, suffix);
  }

  /** A handler's fixed replies can be told apart from each other and from an echo by their
      first character. */
  predicate Distinguishable(replies: seq<string>) {
    && (forall i | 0 <= i < |replies| :: replies[i] != [] && replies[i][0] != 'I')
    && (forall i, j | 0 <= i < j < |replies| :: replies[i][0] != replies[j][0])
  }

  /** An echo begins with `I`. */
  lemma EchoStartsWithI(text: string, suffix: string)
    ensures Echo(text, suffix)[0] == 'I'
  {
    EchoCarriesText(text, suffix);
    assert Echo(text, suffix)[..|EchoOpening|][0] == 'I';
  }
}

/** `POST` in `app/api/webhook/route.ts`: a prefix match on the text picks the reply, which
    is sent as a reply to the incoming message. */
module WebhookRoute {
  import opened Wrappers
  import opened Messaging
  import opened Updates
  import opened Routes

  const NoBotToken: string := "No bot token"

  /** The fixed replies and the line the echo ends with. The handler takes them as a
      parameter, so what it sends is proved whatever the wording; `Wording` is the handler's
      own. */
  datatype Replies = Replies(start: string, help: string, news: string, weather: string, test: string, echoTail: string)

  const Wording: Replies := Replies(
    "🇪🇹 Hello! I'm EthioInfoBot " +
    "and I'm working! 🎉\n\nTry these " +
    "commands:\n/help - Show help\n" +
    "/news - Get news\n/weather - " +
    "Get weather",
    "📋 Available commands:\n\n/start " +
    "- Start the bot\n/help - Show " +
    "this help\n/news - Get " +
    "Ethiopian news\n/weather - Get " +
    "weather info\n/test - Test the " +
    "bot",
    "📰 Latest Ethiopian News:\n\n• " +
    "Ethiopia announces new " +
    "economic reforms\n• Ethiopian " +
    "Airlines expands to new " +
    "destinations\n• Coffee export " +
    "reaches record high\n\nMore " +
    "news coming soon!",
    "☀️ Weather in Addis Ababa:\n\n" +
    "🌡️ Temperature: 22°C\n🌤️ " +
    "Condition: Partly cloudy\n💧 " +
    "Humidity: 65%\n💨 Wind: 8 km/h",
    "✅ Test successful! The bot is " +
    "working perfectly! 🚀",
    "\n\nTry /help to see available " +
    "commands!")

  function Fixed(w: Replies): seq<string> {
    [w.start, w.help, w.news, w.weather, w.test]
  }

  /** The handler's own replies start with five different emoji. */
  lemma WordingDistinguishable()
    ensures Distinguishable(Fixed(Wording))
  {
    assert Wording.start[0] == '🇪' && Wording.help[0] == '📋' && Wording.news[0] == '📰';
    assert Wording.weather[0] == '☀' && Wording.test[0] == '✅';
  }

  /** The `startsWith` chain: the first of `/start`, `/help`, `/news`, `/weather`, `/test`
      that begins the text picks the reply; any other text is echoed. */
  function Reply(w: Replies, text: string): string {
    if "/start" <= text then w.start
    else if "/help" <= text then w.help
    else if "/news" <= text then w.news
    else if "/weather" <= text then w.weather
    else if "/test" <= text then w.test
    else Echo(text, w.echoTail)
  }

  /** Each reply is picked by exactly its rule: a fixed reply exactly when its prefix is the
      first one in the chain that the text begins with, the echo exactly when none does. */
  lemma ReplyChoice(w: Replies, text: string)
    requires Distinguishable(Fixed(w))
    ensures Reply(w, text) == w.start <==> "/start" <= text
    ensures Reply(w, text) == w.help <==> !("/start" <= text) && "/help" <= text
    ensures Reply(w, text) == w.news <==> !("/start" <= text) && !("/help" <= text) && "/news" <= text
    ensures Reply(w, text) == w.weather <==>
      !("/start" <= text) && !("/help" <= text) && !("/news" <= text) && "/weather" <= text
    ensures Reply(w, text) == w.test <==>
      !("/start" <= text) && !("/help" <= text) && !("/news" <= text) && !("/weather" <= text) && "/test" <= text
    ensures Reply(w, text) == Echo(text, w.echoTail) <==>
      !("/start" <= text) && !("/help" <= text) && !("/news" <= text) && !("/weather" <= text) && !("/test" <= text)
  {
    EchoStartsWithI(text, w.echoTail);
    var f := Fixed(w);
    assert f[0] == w.start && f[1] == w.help && f[2] == w.news && f[3] == w.weather && f[4] == w.test;
  }

  /** A prefix match: a command word with anything after it, `/startx` included, gets the
      command's reply. */
  lemma StartxGetsStartReply(w: Replies)
    ensures Reply(w, "/startx") == w.start
    ensures Reply(w, "/help me") == w.help
  {
    assert "/startx"[..6] == "/start";
    assert "/help me"[..5] == "/help";
    assert "/help me"[1] != "/start"[1];
  }

  /** The handler. An update without a message answers `{ ok: true }`; a missing token answers
      500 before any reply is chosen; otherwise the one reply goes to the incoming chat as a
      reply to the incoming message, and the handler answers `{ success: true, result }`
      whatever Telegram said, unless the request throws. */
  function Handle(w: Replies, update: Update, api: Endpoint): (h: Handled)
    ensures |h.posts| <= 1
    ensures update.message.None? ==> h == Handled([], Response(200, OkBody))
    ensures update.message.Some? && !api.tokenSet ==> h == Handled([], Response(500, ErrorBody(NoBotToken)))
    ensures update.message.Some? && api.tokenSet ==>
      var m := update.message.value;
      && h.posts == [Post(m.chatId, Reply(w, TextOf(m)), Some(m.messageId))]
      && (h.response.status == 200 <==> api.answer(h.posts[0]) != Unreachable)
      && (h.response.status == 200 ==> h.response.body == SuccessResult(api.answer(h.posts[0])))
  {
    match update.message
    case None => Handled([], Response(200, OkBody))
    case Some(m) =>
      if !api.tokenSet then Handled([], Response(500, ErrorBody(NoBotToken)))
      else
        var post := Post(m.chatId, Reply(w, TextOf(m)), Some(m.messageId));
        match api.answer(post)
        case Unreachable => Handled([post], Response(500, ErrorBody(NetworkError)))
        case result => Handled([post], Response(200, SuccessResult(result)))
  }

  /** Every request goes to the incoming chat, as a reply to the incoming message, and is sent
      only with a token. */
  lemma PostsAnswerTheMessage(w: Replies, update: Update, api: Endpoint)
    ensures forall p | p in Handle(w, update, api).posts ::
      && api.tokenSet && update.message.Some?
      && p.chatId == update.message.value.chatId
      && p.replyTo == Some(update.message.value.messageId)
  {
  }

  /** A Telegram rejection does not fail the request: the handler still answers 200. */
  lemma RejectionStillSucceeds(w: Replies, m: IncomingMessage, api: Endpoint, d: string)
    requires api.tokenSet && api.answer(Post(m.chatId, Reply(w, TextOf(m)), Some(m.messageId))) == Rejected(d)
    ensures Handle(w, Update(Some(m)), api).response == Response(200, SuccessResult(Rejected(d)))
  {
  }

  /** A message without text is echoed as the empty string. */
  lemma MissingTextEchoed(w: Replies, m: IncomingMessage, api: Endpoint)
    requires m.text.None? && api.tokenSet
    ensures Handle(w, Update(Some(m)), api).posts == [Post(m.chatId, Echo("", w.echoTail), Some(m.messageId))]
  {
  }
}

/** `POST` in `app/api/telegram/route.ts`: an exact match on the text picks the reply, and a
    Telegram rejection fails the request. */
module TelegramRoute {
  import opened Wrappers
  import opened Messaging
  import opened Updates
  import opened Routes

  const BotTokenMissing: string := "Bot token missing"
  /** The `TypeError` that reading `update.message.from.id` throws when `from` is absent. */
  const MissingSenderError: string := "Cannot read properties of undefined (reading 'id')"

  /** The fixed replies. The handler takes them as a parameter; `Wording` is its own. */
  datatype Replies = Replies(start: string, help: string, test: string)

  const Wording: Replies := Replies(
    "🇪🇹 Welcome to EthioPulseBot! " +
    "I'm working! Try /help for " +
    "commands.",
    "Available commands:\n/start - " +
    "Start the bot\n/help - Show " +
    "this help\n/test - Test " +
    "response",
    "✅ Test successful! The bot is " +
    "responding correctly.")

  function Fixed(w: Replies): seq<string> {
    [w.start, w.help, w.test]
  }

  lemma WordingDistinguishable()
    ensures Distinguishable(Fixed(Wording))
  {
    assert Wording.start[0] == '🇪' && Wording.help[0] == 'A' && Wording.test[0] == '✅';
  }

  /** The `===` chain: `/start`, `/help` and `/test` exactly; anything else is echoed, with
      nothing after the closing quote. */
  function Reply(w: Replies, text: string): string {
    if text == "/start" then w.start
    else if text == "/help" then w.help
    else if text == "/test" then w.test
    else Echo(text, "")
  }

  /** Each fixed reply answers exactly its command, and every other text gets its own echo. */
  lemma ReplyChoice(w: Replies, text: string)
    requires Distinguishable(Fixed(w))
    ensures Reply(w, text) == w.start <==> text == "/start"
    ensures Reply(w, text) == w.help <==> text == "/help"
    ensures Reply(w, text) == w.test <==> text == "/test"
    ensures Reply(w, text) == Echo(text, "") <==> text != "/start" && text != "/help" && text != "/test"
  {
    EchoStartsWithI(text, "");
    var f := Fixed(w);
    assert f[0] == w.start && f[1] == w.help && f[2] == w.test;
  }

  /** An exact match: a command word with anything after it is echoed. */
  lemma StartNowIsEchoed(w: Replies)
    ensures Reply(w, "/start now") == Echo("/start now", "")
  {
    assert |"/start now"| != |"/start"| && |"/start now"| != |"/help"| && |"/start now"| != |"/test"|;
  }

  /** Whether `update.message.text` is truthy: present and not empty. */
  predicate HasText(update: Update) {
    update.message.Some? && update.message.value.text.Some? && update.message.value.text.value != ""
  }

  /** The handler. No message or no text answers `{ success: true }`; a message without a
      sender throws the `TypeError`, caught as a 500; a missing token answers 500; otherwise
      the one reply goes to the incoming chat, and the handler answers `{ success: true }`
      exactly when Telegram accepts it, 500 with Telegram's description when it rejects it. */
  function Handle(w: Replies, update: Update, api: Endpoint): (h: Handled)
    ensures |h.posts| <= 1
    ensures !HasText(update) ==> h == Handled([], Response(200, SuccessBody))
    ensures HasText(update) && update.message.value.from.None? ==>
      h == Handled([], Response(500, ErrorBody(MissingSenderError)))
    ensures HasText(update) && update.message.value.from.Some? && !api.tokenSet ==>
      h == Handled([], Response(500, ErrorBody(BotTokenMissing)))
    ensures HasText(update) && update.message.value.from.Some? && api.tokenSet ==>
      var m := update.message.value;
      && h.posts == [Post(m.chatId, Reply(w, m.text.value), None)]
      && (h.response == Response(200, SuccessBody) <==> api.answer(h.posts[0]) == Accepted)
      && (forall d :: api.answer(h.posts[0]) == Rejected(d) ==> h.response == Response(500, ErrorBody(d)))
  {
    if !HasText(update) then Handled([], Response(200, SuccessBody))
    else
      var m := update.message.value;
      if m.from.None? then Handled([], Response(500, ErrorBody(MissingSenderError)))
      else if !api.tokenSet then Handled([], Response(500, ErrorBody(BotTokenMissing)))
      else
        var post := Post(m.chatId, Reply(w, m.text.value), None);
        match api.answer(post)
        case Accepted => Handled([post], Response(200, SuccessBody))
        case Rejected(d) => Handled([post], Response(500, ErrorBody(d)))
        case Unreachable => Handled([post], Response(500, ErrorBody(NetworkError)))
  }

  /** The handler answers 200 exactly when it had nothing to answer or Telegram accepted the
      reply. */
  lemma SucceedsExactly(w: Replies, update: Update, api: Endpoint)
    ensures Handle(w, update, api).response.status == 200 <==>
      !HasText(update) || (update.message.value.from.Some? && api.tokenSet &&
        api.answer(Post(update.message.value.chatId, Reply(w, update.message.value.text.value), None)) == Accepted)
  {
  }

  /** Every request goes to the incoming chat, not as a reply, and only for a message with
      text and a sender, with a token. */
  lemma PostsAnswerTheMessage(w: Replies, update: Update, api: Endpoint)
    ensures forall p | p in Handle(w, update, api).posts ::
      && HasText(update) && update.message.value.from.Some? && api.tokenSet
      && p.chatId == update.message.value.chatId && p.replyTo.None?
  {
  }
}
