/** The update handler of lib/telegram.ts: an update is routed to command handling when its
    text starts with "/" and to keyword routing otherwise; each handler reads the user's
    language, logs the interaction, changes the store or the scheduler registry, and sends its
    replies through `sendMessage`. The replies of a call are described by pure functions
    (`UpdateOutcome` and the outcome functions it dispatches to) that the handler methods are
    proved against. */
module Commands {
  import opened Wrappers
  import opened Text
  import opened Domain
  import opened Content
  import opened Ai
  import opened Store
  import opened Messaging
  import opened Digest
  import opened Cron
  import opened Scheduler
  import opened Updates

  /** How the store and node-cron answer the calls of one update: whether `saveUser` throws,
      which statement of `getUserPreference` fails (0: none), whether the first
      `logUserInteraction` of the update fails (the command word, or "natural_language") and
      whether the content handler's own one does, which statement of `saveUserSubscription`
      throws (0: none), whether `saveUserPreference` throws, and whether `cron.schedule`
      succeeds. */
  datatype Faults = Faults(saveUserFails: bool, preferenceFailAt: nat, entryLogFails: bool, handlerLogFails: bool,
                           subscriptionFailAt: nat, languageSaveFails: bool, cronOk: bool)

  // ---------------------------------------------------------------------------------------
  // Command and arguments

  /** `command.split(" ")[0].toLowerCase()`. */
  function CommandWord(text: string): string {
    ToLower(Split(text, ' ')[0])
  }

  /** `command.split(" ").slice(1).join(" ")`. */
  function Arguments(text: string): string {
    Join(Split(text, ' ')[1..], ' ')
  }

  /** The command word is the lower-cased text up to the first space, and the arguments are
      everything after that space; without a space the arguments are empty. */
  lemma CommandSplit(text: string)
    ensures var first := Split(text, ' ')[0];
      && ' ' !in first && CommandWord(text) == ToLower(first)
      && (' ' in text ==> text == first + " " + Arguments(text))
      && (' ' !in text ==> first == text && Arguments(text) == "")
  {
    var parts := Split(text, ' ');
    JoinSplit(text, ' ');
    SplitHasTwoPiecesIff(text, ' ');
    if ' ' in text {
      assert Join(parts, ' ') == parts[0] + [' '] + Join(parts[1..], ' ');
    } else {
      assert parts == [parts[0]];
      assert parts[1..] == [];
    }
  }

  /** The six content handlers. */
  datatype Topic = NewsTopic | MemesTopic | VideosTopic | WeatherTopic | SportsTopic | SocialTopic

  /** The category word of a topic, under which its handler logs the interaction. */
  function TopicCategory(t: Topic): (c: string)
    ensures c in Categories
  {
    match t
    case NewsTopic => "news"
    case MemesTopic => "memes"
    case VideosTopic => "videos"
    case WeatherTopic => "weather"
    case SportsTopic => "sports"
    case SocialTopic => "social"
  }

  /** The command a topic's handler logs: its category word after a slash. */
  function TopicCommand(t: Topic): (w: string)
    ensures |w| > 0 && w[0] == '/' && w[1..] == TopicCategory(t)
  {
    "/" + TopicCategory(t)
  }

  /** The cases of `switch (cmd)`. */
  datatype Command = StartCommand | FetchCommand(topic: Topic) | SubscribeCommand | LanguageCommand
                   | HelpCommand | Unrecognized

  function CommandName(c: Command): string {
    match c
    case StartCommand => "/start"
    case FetchCommand(t) => TopicCommand(t)
    case SubscribeCommand => "/subscribe"
    case LanguageCommand => "/language"
    case HelpCommand => "/help"
    case Unrecognized => ""
  }

  /** The case a command word selects; a word is recognised only when it is a command's name. */
  function ParseCommand(word: string): (c: Command)
    ensures !c.Unrecognized? ==> CommandName(c) == word
  {
    if word == "/start" then StartCommand
    else if word == "/news" then FetchCommand(NewsTopic)
    else if word == "/memes" then FetchCommand(MemesTopic)
    else if word == "/videos" then FetchCommand(VideosTopic)
    else if word == "/weather" then FetchCommand(WeatherTopic)
    else if word == "/sports" then FetchCommand(SportsTopic)
    else if word == "/social" then FetchCommand(SocialTopic)
    else if word == "/subscribe" then SubscribeCommand
    else if word == "/language" then LanguageCommand
    else if word == "/help" then HelpCommand
    else Unrecognized
  }

  /** Every command is selected by its own name. */
  lemma ParseCommandName(c: Command)
    requires !c.Unrecognized?
    ensures ParseCommand(CommandName(c)) == c
  {
    match c
    case FetchCommand(t) => assert TopicCommand(t) == "/" + TopicCategory(t);
    case _ =>
  }

  // ---------------------------------------------------------------------------------------
  // /subscribe

  /** The validation steps of `handleSubscription`, in their order. */
  datatype SubscriptionCheck = MissingArguments | UnknownCategory | UnknownFrequency
                             | Subscribable(category: string, frequency: Frequency)

  function CheckSubscription(args: string): (c: SubscriptionCheck)
    ensures c.Subscribable? ==> c.category in Categories && '_' !in c.category
  {
    var parts := Split(args, ' ');
    if |parts| < 2 then MissingArguments
    else
      var category := ToLower(parts[0]);
      var frequency := ToLower(parts[1]);
      if category !in Categories then UnknownCategory
      else
        match ParseFrequency(frequency)
        case None => UnknownFrequency
        case Some(f) => Subscribable(category, f)
  }

  /** The usage reply comes exactly when the arguments hold no space (the empty arguments
      included); otherwise the lower-cased first word is checked against the categories before
      the lower-cased second word is checked against the frequencies. */
  lemma CheckSubscriptionCases(args: string)
    ensures CheckSubscription(args).MissingArguments? <==> ' ' !in args
    ensures ' ' in args ==>
      var first := ToLower(Split(args, ' ')[0]);
      var second := ToLower(Split(args, ' ')[1]);
      && (CheckSubscription(args).UnknownCategory? <==> first !in Categories)
      && (CheckSubscription(args).UnknownFrequency? <==> first in Categories && second !in FrequencyNames)
      && (CheckSubscription(args).Subscribable? <==> first in Categories && second in FrequencyNames)
      && (CheckSubscription(args).Subscribable? ==>
            CheckSubscription(args).category == first && FrequencyName(CheckSubscription(args).frequency) == second)
  {
    SplitHasTwoPiecesIff(args, ' ');
  }

  /** Words after the second are ignored and case does not matter. */
  lemma SubscribeIgnoresCaseAndExtraWords()
    ensures CheckSubscription("NEWS Daily now") == Subscribable("news", Daily)
  {
    var parts := ["NEWS", "Daily", "now"];
    assert Join(parts[2..], ' ') == "now";
    assert Join(parts[1..], ' ') == "Daily now";
    assert Join(parts, ' ') == "NEWS Daily now";
    SplitJoin(parts, ' ');
    assert ToLower("NEWS") == "news";
    assert ToLower("Daily") == "daily";
  }

  /** Two spaces between the words leave an empty second word, which is no frequency. */
  lemma DoubleSpaceIsUnknownFrequency()
    ensures CheckSubscription("news  daily") == UnknownFrequency
  {
    var parts := ["news", "", "daily"];
    assert Join(parts[2..], ' ') == "daily";
    assert Join(parts[1..], ' ') == " daily";
    assert Join(parts, ' ') == "news  daily";
    SplitJoin(parts, ' ');
    assert ToLower("news") == "news";
  }

  /** The KELVIN SIGN lower-cases to the letter k, so "WEE\U{212A}LY" names the weekly frequency. */
  lemma KelvinSignSubscribesWeekly()
    ensures CheckSubscription("news WEE\U{212A}LY") == Subscribable("news", Weekly)
  {
    var parts := ["news", "WEE\U{212A}LY"];
    assert Join(parts[1..], ' ') == "WEE\U{212A}LY";
    assert Join(parts, ' ') == "news WEE\U{212A}LY";
    SplitJoin(parts, ' ');
    assert ToLower("news") == "news";
    assert ToLower("WEE\U{212A}LY") == "weekly";
  }

  /** The apology a `catch` sends: "Sorry, there was an error", what went wrong, and a plea
      to try again later. */
  function Sorry(what: string): string {
    "Sorry, there was an error " + what + ". Please try again later."
  }

  const SubscriptionApology: string := Sorry("processing your subscription")

  /** The word an Amharic confirmation uses for a frequency. */
  function AmharicFrequency(f: Frequency): string {
    if f == Daily then "ዕለታዊ" else "ሳምንታዊ"
  }

  /** The reply to a `/subscribe` that got to the given step. */
  function SubscriptionReply(gen: Model, lang: Language, check: SubscriptionCheck): string {
    match check
    case MissingArguments =>
      Pick(lang, "Please use the correct format: " +
                 "/subscribe [category] " +
                 "[daily|weekly]\n\n" +
                 "Example: /subscribe news daily",
                 "እባክዎ ትክክለኛ ቅርጸት ይጠቀሙ: " +
                 "/subscribe [category] " +
                 "[daily|weekly]\n\n" +
                 "ምሳሌ: /subscribe news daily")
    case UnknownCategory =>
      Pick(lang, "Invalid category. Please choose from: ", "ልክ ያልሆነ ምድብ። እባክዎ ከሚከተሉት ይምረጡ: ") +
      "news, memes, videos, weather, " +
      "sports, social"
    case UnknownFrequency =>
      Pick(lang, "Invalid frequency. Please choose from: ", "ልክ ያልሆነ ድግግሞሽ። እባክዎ ከሚከተሉት ይምረጡ: ") + "daily, weekly"
    case Subscribable(c, f) =>
      "✅ " + if lang == Am then "ለ" + TranslateText(gen, c, "en", "am") + " " + AmharicFrequency(f) + " ማሳወቂያዎች ተመዝግበዋል።"
              else "You've been subscribed to " + FrequencyName(f) + " " + c + " updates."
  }

  /** What `handleSubscription` sends: the one reply inside the `try`, or, when the save
      throws, only the apology of the `catch`. */
  function SubscriptionOutcome(api: Api, gen: Model, lang: Language, chatId: int, args: string, failAt: nat): (o: Outcome)
    ensures CheckSubscription(args).Subscribable? && 1 <= failAt <= 3 ==>
      o.delivered <= [Message(chatId, SubscriptionApology, NoOptions)]
    ensures !(CheckSubscription(args).Subscribable? && 1 <= failAt <= 3) &&
            Delivers(api, Message(chatId, SubscriptionReply(gen, lang, CheckSubscription(args)), NoOptions)) ==>
      o == Outcome([Message(chatId, SubscriptionReply(gen, lang, CheckSubscription(args)), NoOptions)], false)
    ensures AllTo(o.delivered, chatId)
    ensures !api.tokenSet ==> o.delivered == []
  {
    var check := CheckSubscription(args);
    var apology := Message(chatId, SubscriptionApology, NoOptions);
    if check.Subscribable? && 1 <= failAt <= 3 then Caught(api, apology)
    else GuardedReply(api, Message(chatId, SubscriptionReply(gen, lang, check), NoOptions), apology)
  }

  /** A valid request is confirmed exactly when the save goes through and Telegram accepts
      the confirmation; a failed save is answered with the apology alone. */
  lemma SubscriptionConfirmed(api: Api, gen: Model, lang: Language, chatId: int, args: string, failAt: nat)
    requires CheckSubscription(args).Subscribable?
    ensures var confirmation := Message(chatId, SubscriptionReply(gen, lang, CheckSubscription(args)), NoOptions);
      confirmation in SubscriptionOutcome(api, gen, lang, chatId, args, failAt).delivered <==>
      !(1 <= failAt <= 3) && Delivers(api, confirmation)
  {
    var reply := SubscriptionReply(gen, lang, CheckSubscription(args));
    assert reply[0] == '✅';
    assert SubscriptionApology[0] == 'S';
  }

  /** The store's subscription tables and the registry after `handleSubscription`: a valid
      request saves (as far as `saveUserSubscription` gets) and, only once the save is done,
      schedules; an invalid one changes neither. */
  predicate SubscriptionApplied(cats0: seq<CategoryRow>, subs0: seq<SubscriptionRow>, st0: RegistryState,
                                cats1: seq<CategoryRow>, subs1: seq<SubscriptionRow>, st1: RegistryState,
                                userId: int, args: string, faults: Faults)
    requires UniqueKeys(subs0)
  {
    match CheckSubscription(args)
    case Subscribable(c, f) =>
      var saved := !(1 <= faults.subscriptionFailAt <= 3);
      var id := IndexOfName(EnsureCategory(cats0, c), c);
      && cats1 == (if faults.subscriptionFailAt == 1 then cats0 else EnsureCategory(cats0, c))
      && subs1 == (if saved then Upsert(subs0, userId, id.value, f) else subs0)
      && st1 == (if saved then Scheduled(st0, userId, c, f, faults.cronOk) else st0)
    case _ => cats1 == cats0 && subs1 == subs0 && st1 == st0
  }

  /** A `/subscribe` whose arguments hold no space neither saves nor schedules. */
  lemma MissingArgumentsChangeNothing(cats0: seq<CategoryRow>, subs0: seq<SubscriptionRow>, st0: RegistryState,
                                      cats1: seq<CategoryRow>, subs1: seq<SubscriptionRow>, st1: RegistryState,
                                      userId: int, args: string, faults: Faults)
    requires UniqueKeys(subs0)
    requires SubscriptionApplied(cats0, subs0, st0, cats1, subs1, st1, userId, args, faults)
    requires ' ' !in args
    ensures cats1 == cats0 && subs1 == subs0 && st1 == st0
  {
    CheckSubscriptionCases(args);
  }

  /** After a `/subscribe` that is valid and saved, the store lists the user under that
      category and frequency and the registry has a running task under its key, or, when
      `cron.schedule` throws, no task under the key. */
  lemma SubscriptionListedAndArmed(prefs: map<int, Language>, cats0: seq<CategoryRow>, subs0: seq<SubscriptionRow>,
                                   st0: RegistryState, cats1: seq<CategoryRow>, subs1: seq<SubscriptionRow>,
                                   st1: RegistryState, userId: int, args: string, faults: Faults)
    requires UniqueNames(cats0) && UniqueKeys(subs0) && Consistent(st0)
    requires SubscriptionApplied(cats0, subs0, st0, cats1, subs1, st1, userId, args, faults)
    requires CheckSubscription(args).Subscribable? && !(1 <= faults.subscriptionFailAt <= 3)
    ensures var c := CheckSubscription(args).category;
      var f := CheckSubscription(args).frequency;
      var listed := Listing(subs1, cats1, prefs, c, f);
      && (exists k | 0 <= k < |listed| :: listed[k].userId == userId)
      && (faults.cronOk ==> Armed(st1, Key(userId, c, f)))
      && (!faults.cronOk ==> Key(userId, c, f) !in st1.schedulers)
  {
    var c := CheckSubscription(args).category;
    var f := CheckSubscription(args).frequency;
    var other := if f == Daily then Weekly else Daily;
    SavedSubscriptionIsListed(prefs, cats0, subs0, userId, c, f, other);
    if faults.cronOk {
      ScheduledRegisters(st0, userId, c, f);
    } else {
      ScheduleFailureUnregisters(st0, userId, c, f);
    }
  }

  // ---------------------------------------------------------------------------------------
  // /language

  /** `language.trim().toLowerCase()` accepted only as "en" or "am". */
  function ParseLanguage(arg: string): (r: Option<Language>)
    ensures r.Some? <==> ToLower(Trim(arg)) in ["en", "am"]
    ensures r.Some? ==> LanguageCode(r.value) == ToLower(Trim(arg))
  {
    var word := ToLower(Trim(arg));
    if word == "en" then Some(En) else if word == "am" then Some(Am) else None
  }

  /** White space around the code and the case of its letters do not matter. */
  lemma ParseLanguageTolerant(a: string, p: string, b: string, l: Language)
    requires AllSpace(a) && AllSpace(b) && ToLower(p) == LanguageCode(l)
    ensures ParseLanguage(a + p + b) == Some(l)
  {
    ToLowerAt(p);
    assert |p| == 2;
    assert LowerChar(p[0]) == LanguageCode(l)[0] && LowerChar(p[1]) == LanguageCode(l)[1];
    assert !IsSpace(p[0]) && !IsSpace(p[1]);
    TrimAround(a, p, b);
  }

  const LanguageUsage: string := "Please specify either \"en\" for " +
                                 "English or \"am\" for Amharic.\n\n" +
                                 "Example: /language am"
  const LanguageApology: string := Sorry("setting your language preference")

  /** The confirmation, in the language just chosen. */
  function LanguageConfirmation(l: Language): string {
    "✅ " + Pick(l, "Your language preference has " +
                   "been set to English.", "የቋንቋ ምርጫዎ ወደ አማርኛ ተቀይሯል።")
  }

  /** What `setLanguage` sends. */
  function LanguageOutcome(api: Api, chatId: int, args: string, saveFails: bool): (o: Outcome)
    ensures ParseLanguage(args).None? && Delivers(api, Message(chatId, LanguageUsage, NoOptions)) ==>
      o == Outcome([Message(chatId, LanguageUsage, NoOptions)], false)
    ensures ParseLanguage(args).Some? && saveFails ==> o.delivered <= [Message(chatId, LanguageApology, NoOptions)]
    ensures AllTo(o.delivered, chatId)
    ensures !api.tokenSet ==> o.delivered == []
  {
    var apology := Message(chatId, LanguageApology, NoOptions);
    match ParseLanguage(args)
    case None => GuardedReply(api, Message(chatId, LanguageUsage, NoOptions), apology)
    case Some(l) =>
      if saveFails then Caught(api, apology)
      else GuardedReply(api, Message(chatId, LanguageConfirmation(l), NoOptions), apology)
  }

  /** A code that is accepted is confirmed, in the language just chosen, exactly when the save
      goes through and Telegram accepts the confirmation. */
  lemma LanguageConfirmed(api: Api, chatId: int, args: string, saveFails: bool)
    requires ParseLanguage(args).Some?
    ensures var confirmation := Message(chatId, LanguageConfirmation(ParseLanguage(args).value), NoOptions);
      confirmation in LanguageOutcome(api, chatId, args, saveFails).delivered <==>
      !saveFails && Delivers(api, confirmation)
  {
    assert LanguageConfirmation(ParseLanguage(args).value)[0] == '✅';
    assert LanguageApology[0] == 'S';
  }

  /** The preference table after `setLanguage`: the normalised code is saved, anything else
      saves nothing. */
  function PreferencesAfter(prefs: map<int, Language>, userId: int, args: string, saveFails: bool): (r: map<int, Language>)
    ensures forall u | u in prefs && u != userId :: u in r && r[u] == prefs[u]
    ensures userId in r ==> (userId in prefs || ParseLanguage(args).Some?)
    ensures ParseLanguage(args).Some? && !saveFails ==> userId in r && r[userId] == ParseLanguage(args).value
    ensures ParseLanguage(args).None? || saveFails ==> r == prefs
  {
    match ParseLanguage(args)
    case Some(l) => if saveFails then prefs else prefs[userId := l]
    case None => prefs
  }

  // ---------------------------------------------------------------------------------------
  // Natural language

  /** The lower-cased text contains the English or the Amharic keyword. */
  predicate Mentions(text: string, english: string, amharic: string) {
    Contains(ToLower(text), english) || Contains(ToLower(text), amharic)
  }

  /** The content handler a free text goes to: news, then weather, then meme, then sport
      keywords are looked for, and the first that occurs wins. */
  function Route(text: string): (r: Option<Topic>)
    ensures Mentions(text, "news", "ዜና") <==> r == Some(NewsTopic)
    ensures r == Some(WeatherTopic) <==> !Mentions(text, "news", "ዜና") && Mentions(text, "weather", "አየር ንብረት")
    ensures r == Some(MemesTopic) <==>
      !Mentions(text, "news", "ዜና") && !Mentions(text, "weather", "አየር ንብረት") && Mentions(text, "meme", "ሚም")
    ensures r == Some(SportsTopic) <==>
      !Mentions(text, "news", "ዜና") && !Mentions(text, "weather", "አየር ንብረት") && !Mentions(text, "meme", "ሚም") &&
      Mentions(text, "sport", "ስፖርት")
    ensures r.None? <==>
      !Mentions(text, "news", "ዜና") && !Mentions(text, "weather", "አየር ንብረት") && !Mentions(text, "meme", "ሚም") &&
      !Mentions(text, "sport", "ስፖርት")
    ensures r != Some(VideosTopic) && r != Some(SocialTopic)
  {
    if Mentions(text, "news", "ዜና") then Some(NewsTopic)
    else if Mentions(text, "weather", "አየር ንብረት") then Some(WeatherTopic)
    else if Mentions(text, "meme", "ሚም") then Some(MemesTopic)
    else if Mentions(text, "sport", "ስፖርት") then Some(SportsTopic)
    else None
  }

  /** Routing ignores the case of the text. */
  lemma RouteIgnoresCase(text: string)
    ensures Route(ToLower(text)) == Route(text)
  {
    ToLowerIdempotent(text);
  }

  /** A text that talks about football news goes to the news handler, not the sports one. */
  lemma NewsOutranksSports(a: string, b: string)
    ensures Route(a + "news" + b) == Some(NewsTopic)
  {
    var s := a + "news" + b;
    ToLowerAt(s);
    assert ToLower(s)[|a|..|a| + 4] == "news" by {
      forall k | 0 <= k < 4 ensures ToLower(s)[|a| + k] == "news"[k] {
        assert s[|a| + k] == "news"[k];
      }
    }
    assert OccursAt(ToLower(s), "news", |a|);
  }

  // ---------------------------------------------------------------------------------------
  // Content replies

  /** The progress message sent before fetching (plain text). */
  function Fetching(t: Topic, lang: Language): string {
    match t
    case NewsTopic => Pick(lang, "Fetching news...", "ዜናዎችን በማምጣት ላይ...")
    case MemesTopic => Pick(lang, "Fetching memes...", "ሚሞችን በማምጣት ላይ...")
    case VideosTopic => Pick(lang, "Fetching videos...", "ቪዲዮዎችን በማምጣት ላይ...")
    case WeatherTopic => Pick(lang, "Fetching weather...", "የአየር ሁኔታን በማምጣት ላይ...")
    case SportsTopic => Pick(lang, "Fetching sports updates...", "የስፖርት ዜናዎችን በማምጣት ላይ...")
    case SocialTopic => Pick(lang, "Fetching social media trends...", "ማህበራዊ ሚዲያ ትረንዶችን በማምጣት ላይ...")
  }

  /** What the `catch` apology names as the thing that could not be fetched. */
  function TopicNoun(t: Topic): string {
    match t
    case NewsTopic => "news"
    case MemesTopic => "memes"
    case VideosTopic => "videos"
    case WeatherTopic => "weather"
    case SportsTopic => "sports updates"
    case SocialTopic => "social media trends"
  }

  /** The apology of a content handler's `catch`, always in English. */
  function Apology(t: Topic): string {
    Sorry("fetching " + TopicNoun(t))
  }

  function NewsHeading(lang: Language): string {
    Pick(lang, "📰 *Latest News*\n\n", "📰 *የቅርብ ጊዜ ዜናዎች*\n\n")
  }

  function NoNews(lang: Language): string {
    Pick(lang, "No news found", "ምንም ዜና አልተገኘም")
  }

  function VideosHeading(lang: Language): string {
    Pick(lang, "🎬 *Popular Videos*\n\n", "🎬 *ተወዳጅ ቪዲዮዎች*\n\n")
  }

  function SportsHeading(lang: Language): string {
    Pick(lang, "⚽ *Sports Updates*\n\n", "⚽ *የስፖርት ዜናዎች*\n\n")
  }

  function NoSports(lang: Language): string {
    Pick(lang, "No sports updates found", "ምንም የስፖርት ዜና አልተገኘም")
  }

  function SocialHeading(lang: Language): string {
    Pick(lang, "🔥 *Social Media Trends*\n\n", "🔥 *የማህበራዊ ሚዲያ ትረንዶች*\n\n")
  }

  /** The city the weather reply names: `city || "Addis Ababa"`. */
  function ShownCity(city: string): string {
    OrElse(city, "Addis Ababa")
  }

  /** The bold first line of the weather reply. */
  function WeatherTitle(place: string): string {
    "☀️ *" + place + "*\n\n"
  }

  /** The heading of the weather reply. */
  function WeatherHeading(gen: Model, lang: Language, city: string): string {
    if lang == Am then WeatherTitle(TranslateText(gen, ShownCity(city), "en", "am") + " የአየር ሁኔታ")
    else WeatherTitle("Weather in " + ShownCity(city))
  }

  /** The news digest: the first 5 articles of `fetchNews(category)`. */
  function NewsReply(gen: Model, src: Sources, lang: Language, chatId: int, category: string): Message {
    Message(chatId, OrElse(NewsHeading(lang) + Entries(Take(FetchNews(category, src), 5), a => NewsEntry(gen, lang, a)), NoNews(lang)),
            MarkdownPreviewOptions)
  }

  /** One message per meme, for the first 3 memes. */
  function MemeReplies(gen: Model, src: Sources, lang: Language, chatId: int): seq<Message> {
    Map(Take(FetchMemes(src), 3), (m: Meme) => Message(chatId, MemeText(gen, lang, m), MarkdownPreviewOptions))
  }

  /** The video digest: the first 3 videos of `fetchVideos(category)`. */
  function VideosReply(gen: Model, src: Sources, lang: Language, chatId: int, category: string): Message {
    Message(chatId, VideosHeading(lang) + Entries(Take(FetchVideos(category, src), 3), v => VideoEntry(gen, lang, v)),
            MarkdownOptions)
  }

  /** The weather of `fetchWeather(city)`. */
  function WeatherReply(gen: Model, src: Sources, lang: Language, chatId: int, city: string): Message {
    Message(chatId, WeatherHeading(gen, lang, city) + WeatherLines(gen, lang, FetchWeather(city, src)), MarkdownOptions)
  }

  /** The sports digest: the first 5 items. */
  function SportsReply(gen: Model, src: Sources, lang: Language, chatId: int, category: string): Message {
    Message(chatId, OrElse(SportsHeading(lang) + Entries(Take(FetchSports(category, src), 5), s => SportsEntry(gen, lang, s)),
                           NoSports(lang)),
            MarkdownOptions)
  }

  /** The trends digest: the first 10 trends. */
  function SocialReply(gen: Model, src: Sources, lang: Language, chatId: int): Message {
    Message(chatId, SocialHeading(lang) + Entries(Take(FetchSocialMedia(src), 10), t => TrendEntry(gen, lang, t)),
            MarkdownOptions)
  }

  /** What a content handler sends after the progress message: three memes, or one message
      for every other topic, all to the chat the request came from. */
  function ContentBody(t: Topic, gen: Model, src: Sources, lang: Language, chatId: int, arg: string): (ms: seq<Message>)
    ensures |ms| == if t == MemesTopic then |Take(FetchMemes(src), 3)| else 1
    ensures AllTo(ms, chatId)
  {
    match t
    case NewsTopic => [NewsReply(gen, src, lang, chatId, arg)]
    case MemesTopic => MemeReplies(gen, src, lang, chatId)
    case VideosTopic => [VideosReply(gen, src, lang, chatId, arg)]
    case WeatherTopic => [WeatherReply(gen, src, lang, chatId, arg)]
    case SportsTopic => [SportsReply(gen, src, lang, chatId, arg)]
    case SocialTopic => [SocialReply(gen, src, lang, chatId)]
  }

  /** The messages a content handler sends inside its `try`, in order: the progress message
      first, then the body. */
  function ContentReplies(t: Topic, gen: Model, src: Sources, lang: Language, chatId: int, arg: string): (ms: seq<Message>)
    ensures |ms| == if t == MemesTopic then 1 + |Take(FetchMemes(src), 3)| else 2
    ensures ms[0] == Message(chatId, Fetching(t, lang), NoOptions)
    ensures AllTo(ms, chatId)
  {
    [Message(chatId, Fetching(t, lang), NoOptions)] + ContentBody(t, gen, src, lang, chatId, arg)
  }

  /** What a content handler delivers: all its replies when Telegram accepts each, otherwise
      those before the failure and then the apology; all of it to the chat the request came
      from, and nothing at all without a bot token. */
  function ContentOutcome(api: Api, t: Topic, gen: Model, src: Sources, lang: Language, chatId: int, arg: string): (o: Outcome)
    ensures DeliversAll(api, ContentReplies(t, gen, src, lang, chatId, arg)) ==>
      o == Outcome(ContentReplies(t, gen, src, lang, chatId, arg), false)
    ensures AllTo(o.delivered, chatId)
    ensures !api.tokenSet ==> o == Outcome([], true)
  {
    Guarded(api, ContentReplies(t, gen, src, lang, chatId, arg), Message(chatId, Apology(t), NoOptions))
  }

  /** The first items of a capped digest all show. */
  lemma CappedDigestShows<T>(header: string, xs: seq<T>, cap: nat, entry: T -> string, k: nat)
    requires k < |xs| && k < cap
    ensures Contains(header + Entries(Take(xs, cap), entry), entry(xs[k]))
  {
    assert Take(xs, cap)[k] == xs[k];
    DigestContainsEach(Take(xs, cap), entry, k);
    ContainsWithin(Entries(Take(xs, cap), entry), entry(xs[k]), header, "");
    assert header + Entries(Take(xs, cap), entry) + "" == header + Entries(Take(xs, cap), entry);
  }

  /** The news and sports replies are their heading and digest; "No news found" and "No
      sports updates found" are never sent. */
  lemma FallbacksNeverUsed(gen: Model, src: Sources, lang: Language, chatId: int, arg: string)
    ensures NewsReply(gen, src, lang, chatId, arg).text ==
      NewsHeading(lang) + Entries(Take(FetchNews(arg, src), 5), a => NewsEntry(gen, lang, a))
    ensures SportsReply(gen, src, lang, chatId, arg).text ==
      SportsHeading(lang) + Entries(Take(FetchSports(arg, src), 5), s => SportsEntry(gen, lang, s))
  {
    HeaderedDigestNeverFallsBack(NewsHeading(lang), Take(FetchNews(arg, src), 5), a => NewsEntry(gen, lang, a), NoNews(lang));
    HeaderedDigestNeverFallsBack(SportsHeading(lang), Take(FetchSports(arg, src), 5), s => SportsEntry(gen, lang, s), NoSports(lang));
  }

  /** The news reply shows each of the first 5 articles. */
  lemma NewsReplyShows(gen: Model, src: Sources, lang: Language, chatId: int, arg: string, k: nat)
    requires k < |FetchNews(arg, src)| && k < 5
    ensures Contains(NewsReply(gen, src, lang, chatId, arg).text, NewsEntry(gen, lang, FetchNews(arg, src)[k]))
  {
    FallbacksNeverUsed(gen, src, lang, chatId, arg);
    CappedDigestShows(NewsHeading(lang), FetchNews(arg, src), 5, a => NewsEntry(gen, lang, a), k);
  }

  /** The video reply shows each of the first 3 videos. */
  lemma VideosReplyShows(gen: Model, src: Sources, lang: Language, chatId: int, arg: string, k: nat)
    requires k < |FetchVideos(arg, src)| && k < 3
    ensures Contains(VideosReply(gen, src, lang, chatId, arg).text, VideoEntry(gen, lang, FetchVideos(arg, src)[k]))
  {
    CappedDigestShows(VideosHeading(lang), FetchVideos(arg, src), 3, v => VideoEntry(gen, lang, v), k);
  }

  /** The sports reply shows each of the first 5 items. */
  lemma SportsReplyShows(gen: Model, src: Sources, lang: Language, chatId: int, arg: string, k: nat)
    requires k < |FetchSports(arg, src)| && k < 5
    ensures Contains(SportsReply(gen, src, lang, chatId, arg).text, SportsEntry(gen, lang, FetchSports(arg, src)[k]))
  {
    FallbacksNeverUsed(gen, src, lang, chatId, arg);
    CappedDigestShows(SportsHeading(lang), FetchSports(arg, src), 5, s => SportsEntry(gen, lang, s), k);
  }

  /** The trends reply shows each of the first 10 trends. */
  lemma SocialReplyShows(gen: Model, src: Sources, lang: Language, chatId: int, k: nat)
    requires k < |FetchSocialMedia(src)| && k < 10
    ensures Contains(SocialReply(gen, src, lang, chatId).text, TrendEntry(gen, lang, FetchSocialMedia(src)[k]))
  {
    CappedDigestShows(SocialHeading(lang), FetchSocialMedia(src), 10, t => TrendEntry(gen, lang, t), k);
  }

  /** What occurs in the tail of a string occurs in the string. */
  lemma ContainsAfter(h: string, s: string, x: string)
    requires Contains(s, x)
    ensures Contains(h + s, x)
  {
    ContainsWithin(s, x, h, "");
    assert h + s + "" == h + s;
  }

  /** A message that starts with a weather title names the place. */
  lemma TitleNamesPlace(place: string, rest: string)
    ensures Contains(WeatherTitle(place) + rest, place)
  {
    ContainsMiddle("☀️ *", place, "*\n\n" + rest);
    assert WeatherTitle(place) + rest == "☀️ *" + place + ("*\n\n" + rest);
  }

  /** The English weather reply names the city asked for, or Addis Ababa when none was. */
  lemma WeatherReplyNamesCity(gen: Model, src: Sources, chatId: int, city: string)
    ensures Contains(WeatherReply(gen, src, En, chatId, city).text, "Weather in " + (if city == "" then "Addis Ababa" else city))
  {
    TitleNamesPlace("Weather in " + ShownCity(city), WeatherLines(gen, En, FetchWeather(city, src)));
  }

  /** The English weather reply carries the four readings of `fetchWeather(city)`, as the
      numbers and condition of a report and as "undefined" for an inherited member. */
  lemma WeatherReplyReadings(gen: Model, src: Sources, chatId: int, city: string)
    ensures var text := WeatherReply(gen, src, En, chatId, city).text;
      var w := FetchWeather(city, src);
      && Contains(text, TemperatureText(w) + "°C") && Contains(text, ConditionText(gen, En, w))
      && Contains(text, HumidityText(w) + "%") && Contains(text, WindText(w) + " km/h")
  {
    var w := FetchWeather(city, src);
    var heading := WeatherHeading(gen, En, city);
    var lines := WeatherLines(gen, En, w);
    WeatherLinesEnglish(gen, w);
    ContainsAfter(heading, lines, TemperatureText(w) + "°C");
    ContainsAfter(heading, lines, ConditionText(gen, En, w));
    ContainsAfter(heading, lines, HumidityText(w) + "%");
    ContainsAfter(heading, lines, WindText(w) + " km/h");
  }

  /** Without a weather key, `/weather Constructor` (any city whose lower case is "constructor"
      or "__proto__") names the city and answers with undefined readings. */
  lemma InheritedCityIsUndefined(gen: Model, src: Sources, chatId: int, city: string)
    requires !src.weatherKey && ToLower(city) in ["constructor", "__proto__"]
    ensures Contains(WeatherReply(gen, src, En, chatId, city).text, "Weather in " + city)
    ensures Contains(WeatherReply(gen, src, En, chatId, city).text, "undefined°C")
    ensures Contains(WeatherReply(gen, src, En, chatId, city).text, "undefined%")
  {
    assert city != "";
    WeatherFallback(city, src);
    WeatherReplyReadings(gen, src, chatId, city);
    WeatherReplyNamesCity(gen, src, chatId, city);
    assert TemperatureText(Inherited) + "°C" == "undefined°C";
    assert HumidityText(Inherited) + "%" == "undefined%";
  }

  /** An English reader's replies make no model call: they are the same whatever the model
      answers. */
  lemma EnglishContentIgnoresModel(g1: Model, g2: Model, t: Topic, src: Sources, chatId: int, arg: string)
    ensures ContentReplies(t, g1, src, En, chatId, arg) == ContentReplies(t, g2, src, En, chatId, arg)
  {
    match t
    case NewsTopic =>
      EnglishDigestIgnoresModel(g1, g2, Take(FetchNews(arg, src), 5), [], [], []);
    case MemesTopic =>
      var memes := Take(FetchMemes(src), 3);
      assert forall k | 0 <= k < |memes| :: MemeText(g1, En, memes[k]) == MemeText(g2, En, memes[k]);
    case VideosTopic =>
      EnglishDigestIgnoresModel(g1, g2, [], Take(FetchVideos(arg, src), 3), [], []);
    case WeatherTopic =>
    case SportsTopic =>
      EnglishDigestIgnoresModel(g1, g2, [], [], Take(FetchSports(arg, src), 5), []);
    case SocialTopic =>
      EnglishDigestIgnoresModel(g1, g2, [], [], [], Take(FetchSocialMedia(src), 10));
  }

  // ---------------------------------------------------------------------------------------
  // The other replies

  /** The `/start` greeting, in English whatever the user's language. */
  function Welcome(): string {
    "\n" +
    "🇪🇹 *Welcome to EthioPulseBot!* " +
    "👋\n\n" +
    "I deliver trending Ethiopian " +
    "and global content including " +
    "news, memes, videos, weather " +
    "updates, sports, and social " +
    "media highlights.\n\n" +
    "*Available Commands:*\n" +
    "/news - Get latest news 📰\n" +
    "/memes - View trending memes 😂\n" +
    "/videos - Watch popular videos " +
    "🎬\n" +
    "/weather [city] - Check weather " +
    "☀️\n" +
    "/sports - Get sports updates ⚽\n" +
    "/social - See social media " +
    "trends 🔥\n" +
    "/subscribe [category] " +
    "[frequency] - Subscribe to " +
    "updates 🔔\n" +
    "/language [en|am] - Set your " +
    "language 🌐\n" +
    "/help - Show this help message " +
    "❓\n\n" +
    "You can also ask me in natural " +
    "language for any content you " +
    "want!\n\n" +
    "*Example:* \"Show me Ethiopian " +
    "news\" or \"What's the weather in " +
    "Addis Ababa?\"\n"
  }

  function Help(lang: Language): string {
    Pick(lang,
      "\n" +
      "🇪🇹 *EthioPulseBot Commands*\n\n" +
      "📰 /news - Get latest news\n" +
      "😂 /memes - View trending memes\n" +
      "🎬 /videos - Watch popular " +
      "videos\n" +
      "☀️ /weather [city] - Check " +
      "weather\n" +
      "⚽ /sports - Get sports updates\n" +
      "🔥 /social - See social media " +
      "trends\n" +
      "🔔 /subscribe [category] " +
      "[daily|weekly] - Subscribe to " +
      "updates\n" +
      "🌐 /language [en|am] - Set your " +
      "language\n" +
      "❓ /help - Show this help " +
      "message\n\n" +
      "*Examples:*\n" +
      "• \"Show me Ethiopian news\"\n" +
      "• \"What's the weather in Addis " +
      "Ababa?\"\n\n" +
      "You can also ask in natural " +
      "language for any content you " +
      "want!\n",
      "\n" +
      "🇪🇹 *የEthioPulseBot ትዕዛዞች*\n\n" +
      "📰 /news - የቅርብ ጊዜ ዜናዎችን ያግኙ\n" +
      "😂 /memes - ተወዳጅ ሚሞችን ይመልከቱ\n" +
      "🎬 /videos - ተወዳጅ ቪዲዮዎችን ይመልከቱ\n" +
      "☀️ /weather [ከተማ] - የአየር ሁኔታን " +
      "ይመልከቱ\n" +
      "⚽ /sports - የስፖርት ዜናዎችን ያግኙ\n" +
      "🔥 /social - የማህበራዊ ሚዲያ ትረንዶችን " +
      "ይመልከቱ\n" +
      "🔔 /subscribe [ምድብ] " +
      "[daily|weekly] - ለዝማኔዎች ይመዝገቡ\n" +
      "🌐 /language [en|am] - የቋንቋ " +
      "ምርጫዎን ያቀናብሩ\n" +
      "❓ /help - ይህን የእገዛ መልዕክት ያሳይ\n\n" +
      "*ምሳሌዎች:*\n" +
      "• \"የኢትዮጵያ ዜና አሳየኝ\"\n" +
      "• \"በአዲስ አበባ የአየር ሁኔታ ምንድን ነው?\"\n\n" +
      "ለማንኛውም ይዘት በተፈጥሮ ቋንቋ መጠየቅ ይችላሉ!\n")
  }

  function NotRecognized(lang: Language): string {
    Pick(lang, "Command not recognized. Type " +
               "/help for available commands.", "ትዕዛዝ አልተገነዘበም። /help ይጠቀሙ።")
  }

  /** The answer to a free text that names no content. */
  function AskForContent(lang: Language): string {
    Pick(lang, "Please ask for specific content " +
               "or use /help to see available " +
               "commands.", "እባክዎ የሚፈልጉትን ይጠይቁ ወይም /help ይጠቀሙ።")
  }

  /** The two long fixed replies: the `/start` greeting and the `/help` text in each language.
      The handlers take them as a parameter, so what they send is proved whatever the wording;
      `Wording` is the bot's own. */
  datatype Texts = Texts(welcome: string, help: Language -> string)

  const Wording: Texts := Texts(Welcome(), Help)

  /** A command answered by one fixed text and no store call: `/start`, `/help` or one the bot
      does not know. */
  predicate Plain(command: Command) {
    command.StartCommand? || command.HelpCommand? || command.Unrecognized?
  }

  /** The answer to a plain command: the welcome (the same in either language), the help, or
      "not recognized", to the chat the command came from. */
  function PlainReply(texts: Texts, lang: Language, chatId: int, command: Command): (m: Message)
    requires Plain(command)
    ensures m.chatId == chatId
    ensures command.StartCommand? ==> m == Message(chatId, texts.welcome, MarkdownOptions)
  {
    match command
    case StartCommand => Message(chatId, texts.welcome, MarkdownOptions)
    case HelpCommand => Message(chatId, texts.help(lang), MarkdownOptions)
    case _ => Message(chatId, NotRecognized(lang), NoOptions)
  }

  // ---------------------------------------------------------------------------------------
  // What an update sends

  /** What a case of `handleCommand` sends, in the user's language `lang`. The welcome, help
      and "not recognized" replies are sent outside any `try`. */
  function CommandOutcome(api: Api, texts: Texts, gen: Model, src: Sources, lang: Language, chatId: int, command: Command,
                          args: string, faults: Faults): (o: Outcome)
    ensures command.Unrecognized? ==> o.delivered <= [Message(chatId, NotRecognized(lang), NoOptions)]
    ensures AllTo(o.delivered, chatId)
    ensures !api.tokenSet ==> o.delivered == []
  {
    match command
    case FetchCommand(t) => ContentOutcome(api, t, gen, src, lang, chatId, args)
    case SubscribeCommand => SubscriptionOutcome(api, gen, lang, chatId, args, faults.subscriptionFailAt)
    case LanguageCommand => LanguageOutcome(api, chatId, args, faults.languageSaveFails)
    case _ => UnguardedReply(api, PlainReply(texts, lang, chatId, command))
  }

  /** What `handleNaturalLanguage` sends: the routed handler's replies, with the empty
      argument, or the prompt to ask for content. */
  function NaturalOutcome(api: Api, gen: Model, src: Sources, lang: Language, chatId: int, route: Option<Topic>): (o: Outcome)
    ensures route.None? ==> o.delivered <= [Message(chatId, AskForContent(lang), NoOptions)]
    ensures AllTo(o.delivered, chatId)
    ensures !api.tokenSet ==> o.delivered == []
  {
    match route
    case Some(t) => ContentOutcome(api, t, gen, src, lang, chatId, "")
    case None => UnguardedReply(api, Message(chatId, AskForContent(lang), NoOptions))
  }

  /** What `processUpdate` sends and whether it rejects. An update without a message is
      ignored; without a sender, reading `user.id` throws before anything is sent; a failing
      `saveUser` is rethrown. The user's language is read from the store as it was. Every
      reply goes to the chat the update came from, and without a bot token nothing is
      delivered. */
  function UpdateOutcome(api: Api, texts: Texts, gen: Model, src: Sources, prefs: map<int, Language>, cats: seq<CategoryRow>,
                         subs: seq<SubscriptionRow>, update: Update, faults: Faults): (o: Outcome)
    ensures update.message.None? ==> o == Outcome([], false)
    ensures update.message.Some? && (update.message.value.from.None? || faults.saveUserFails) ==> o == Outcome([], true)
    ensures update.message.Some? ==> AllTo(o.delivered, update.message.value.chatId)
    ensures !api.tokenSet ==> o.delivered == []
  {
    match update.message
    case None => Outcome([], false)
    case Some(m) =>
      if m.from.None? || faults.saveUserFails then Outcome([], true)
      else
        var lang := ReadPreference(prefs, cats, subs, m.from.value.id, faults.preferenceFailAt).language;
        var text := TextOf(m);
        if StartsWith(text, "/") then
          CommandOutcome(api, texts, gen, src, lang, m.chatId, ParseCommand(CommandWord(text)), Arguments(text), faults)
        else NaturalOutcome(api, gen, src, lang, m.chatId, Route(text))
  }

  // ---------------------------------------------------------------------------------------
  // What an update changes

  /** The interaction `logUserInteraction` appends, or nothing when it fails. */
  function Logged(userId: int, command: string, category: Option<string>, fails: bool): (r: seq<Interaction>)
    ensures |r| == if fails then 0 else 1
  {
    if fails then [] else [Interaction(userId, command, NullIfEmpty(category))]
  }

  /** What a case of `handleCommand` logs itself: a content handler's command and category. */
  function HandlerLog(userId: int, command: Command, fails: bool): seq<Interaction> {
    match command
    case FetchCommand(t) => Logged(userId, TopicCommand(t), Some(TopicCategory(t)), fails)
    case _ => []
  }

  /** The log of a command: the command word, and then the case's own entry; each insert
      fails on its own. */
  function CommandLog(userId: int, text: string, entryFails: bool, handlerFails: bool): seq<Interaction> {
    Logged(userId, CommandWord(text), None, entryFails) + HandlerLog(userId, ParseCommand(CommandWord(text)), handlerFails)
  }

  /** The log of a free text: "natural_language" under "general", and then the routed
      handler's own entry. */
  function NaturalLog(userId: int, text: string, entryFails: bool, handlerFails: bool): seq<Interaction> {
    Logged(userId, "natural_language", Some("general"), entryFails) + RouteLog(userId, Route(text), handlerFails)
  }

  /** Two inserts in a row leave their entries in the order they were made. */
  lemma LogsInOrder(log: seq<Interaction>, first: seq<Interaction>, second: seq<Interaction>)
    ensures log + first + second == log + (first + second)
  {
  }

  /** The entry the routed handler logs; the prompt logs nothing. */
  function RouteLog(userId: int, route: Option<Topic>, fails: bool): seq<Interaction> {
    match route
    case Some(t) => HandlerLog(userId, FetchCommand(t), fails)
    case None => []
  }

  /** A content command is logged twice, once by `handleCommand` under the bare command
      word and once by the handler under the same word with its category; every other command
      once. Either insert can fail while the other one goes through. */
  lemma CommandLogEntries(userId: int, text: string, entryFails: bool, handlerFails: bool)
    ensures var log := CommandLog(userId, text, entryFails, handlerFails);
      var fetch := ParseCommand(CommandWord(text)).FetchCommand?;
      && |log| == (if entryFails then 0 else 1) + (if fetch && !handlerFails then 1 else 0)
      && (!entryFails ==> log[0] == Interaction(userId, CommandWord(text), None))
      && (fetch && !handlerFails ==>
            log[|log| - 1] == Interaction(userId, CommandWord(text), Some(TopicCategory(ParseCommand(CommandWord(text)).topic))))
  {
    var command := ParseCommand(CommandWord(text));
    if command.FetchCommand? {
      assert TopicCommand(command.topic) == CommandWord(text);
      assert NullIfEmpty(Some(TopicCategory(command.topic))) == Some(TopicCategory(command.topic));
    }
  }

  /** The user table after `saveUser`, which only a message with a sender reaches. */
  function UsersAfter(users: map<int, UserRow>, update: Update, fails: bool): (r: map<int, UserRow>)
    ensures forall u | u in users :: u in r
    ensures forall u | u in r && u !in users :: update.message.Some? && update.message.value.from.Some? &&
                                               u == update.message.value.from.value.id
  {
    match update.message
    case None => users
    case Some(m) =>
      match m.from
      case None => users
      case Some(s) =>
        if fails then users else users[s.id := UserRow(NullIfEmpty(s.username), NullIfEmpty(s.firstName), NullIfEmpty(s.lastName))]
  }

  /** The interactions an update appends. */
  function UpdateLog(update: Update, faults: Faults): seq<Interaction> {
    match update.message
    case None => []
    case Some(m) =>
      if m.from.None? || faults.saveUserFails then []
      else if StartsWith(TextOf(m), "/") then CommandLog(m.from.value.id, TextOf(m), faults.entryLogFails, faults.handlerLogFails)
      else NaturalLog(m.from.value.id, TextOf(m), faults.entryLogFails, faults.handlerLogFails)
  }

  /** The preferences, the subscription tables and the registry after a case of
      `handleCommand`: only `/subscribe` and `/language` change them. */
  predicate CommandApplied(prefs0: map<int, Language>, cats0: seq<CategoryRow>, subs0: seq<SubscriptionRow>, st0: RegistryState,
                           prefs1: map<int, Language>, cats1: seq<CategoryRow>, subs1: seq<SubscriptionRow>, st1: RegistryState,
                           userId: int, command: Command, args: string, faults: Faults)
    requires UniqueKeys(subs0)
  {
    match command
    case SubscribeCommand =>
      prefs1 == prefs0 && SubscriptionApplied(cats0, subs0, st0, cats1, subs1, st1, userId, args, faults)
    case LanguageCommand =>
      prefs1 == PreferencesAfter(prefs0, userId, args, faults.languageSaveFails) &&
      cats1 == cats0 && subs1 == subs0 && st1 == st0
    case _ => prefs1 == prefs0 && cats1 == cats0 && subs1 == subs0 && st1 == st0
  }

  /** The same for a whole update: only a command from a saved sender changes anything. */
  predicate UpdateApplied(prefs0: map<int, Language>, cats0: seq<CategoryRow>, subs0: seq<SubscriptionRow>, st0: RegistryState,
                          prefs1: map<int, Language>, cats1: seq<CategoryRow>, subs1: seq<SubscriptionRow>, st1: RegistryState,
                          update: Update, faults: Faults)
    requires UniqueKeys(subs0)
  {
    if update.message.Some? && update.message.value.from.Some? && !faults.saveUserFails &&
       StartsWith(TextOf(update.message.value), "/")
    then
      var text := TextOf(update.message.value);
      CommandApplied(prefs0, cats0, subs0, st0, prefs1, cats1, subs1, st1, update.message.value.from.value.id,
                     ParseCommand(CommandWord(text)), Arguments(text), faults)
    else prefs1 == prefs0 && cats1 == cats0 && subs1 == subs0 && st1 == st0
  }

  // ---------------------------------------------------------------------------------------
  // The handlers

  /** The news message `sendNews` builds with its `+=` loop. */
  method NewsBody(gen: Model, src: Sources, lang: Language, chatId: int, category: string) returns (body: seq<Message>)
    ensures body == [NewsReply(gen, src, lang, chatId, category)]
  {
    var text := Compose(NewsHeading(lang), Take(FetchNews(category, src), 5), a => NewsEntry(gen, lang, a));
    body := [Message(chatId, OrElse(text, NoNews(lang)), MarkdownPreviewOptions)];
  }

  /** The video message `sendVideos` builds with its `+=` loop. */
  method VideosBody(gen: Model, src: Sources, lang: Language, chatId: int, category: string) returns (body: seq<Message>)
    ensures body == [VideosReply(gen, src, lang, chatId, category)]
  {
    var text := Compose(VideosHeading(lang), Take(FetchVideos(category, src), 3), v => VideoEntry(gen, lang, v));
    body := [Message(chatId, text, MarkdownOptions)];
  }

  /** The sports message `sendSports` builds with its `+=` loop. */
  method SportsBody(gen: Model, src: Sources, lang: Language, chatId: int, category: string) returns (body: seq<Message>)
    ensures body == [SportsReply(gen, src, lang, chatId, category)]
  {
    var text := Compose(SportsHeading(lang), Take(FetchSports(category, src), 5), s => SportsEntry(gen, lang, s));
    body := [Message(chatId, OrElse(text, NoSports(lang)), MarkdownOptions)];
  }

  /** The trends message `sendSocialMedia` builds with its `+=` loop. */
  method SocialBody(gen: Model, src: Sources, lang: Language, chatId: int) returns (body: seq<Message>)
    ensures body == [SocialReply(gen, src, lang, chatId)]
  {
    var text := Compose(SocialHeading(lang), Take(FetchSocialMedia(src), 10), tr => TrendEntry(gen, lang, tr));
    body := [Message(chatId, text, MarkdownOptions)];
  }

  /** The messages each `send...` handler builds after its progress message. */
  method TopicBody(t: Topic, gen: Model, src: Sources, lang: Language, chatId: int, arg: string) returns (body: seq<Message>)
    ensures body == ContentBody(t, gen, src, lang, chatId, arg)
  {
    match t {
      case NewsTopic => body := NewsBody(gen, src, lang, chatId, arg);
      case MemesTopic => body := MemeReplies(gen, src, lang, chatId);
      case VideosTopic => body := VideosBody(gen, src, lang, chatId, arg);
      case WeatherTopic =>
        body := [Message(chatId, WeatherHeading(gen, lang, arg) + WeatherLines(gen, lang, FetchWeather(arg, src)), MarkdownOptions)];
      case SportsTopic => body := SportsBody(gen, src, lang, chatId, arg);
      case SocialTopic => body := SocialBody(gen, src, lang, chatId);
    }
  }

  /** `sendNews`, `sendMemes`, `sendVideos`, `sendWeather`, `sendSports` and
      `sendSocialMedia`: read the language, log, send the progress message and then the body;
      a failing send is answered with the apology. */
  method SendContent(t: Topic, chatId: int, arg: string, userId: int, db: Database, bot: Bot, gen: Model,
                     src: Sources, faults: Faults) returns (raised: bool)
    modifies db, bot
    ensures var lang := ReadPreference(old(db.preferences), old(db.categories), old(db.subscriptions), userId,
                                       faults.preferenceFailAt).language;
      var o := ContentOutcome(bot.api, t, gen, src, lang, chatId, arg);
      bot.sent == old(bot.sent) + o.delivered && raised == o.raised
    ensures db.interactions == old(db.interactions) + HandlerLog(userId, FetchCommand(t), faults.handlerLogFails)
    ensures db.users == old(db.users) && db.preferences == old(db.preferences)
    ensures db.categories == old(db.categories) && db.subscriptions == old(db.subscriptions)
  {
    var pref := db.GetUserPreference(userId, faults.preferenceFailAt);
    var lang := pref.language;
    var logged := db.LogUserInteraction(userId, TopicCommand(t), Some(TopicCategory(t)), faults.handlerLogFails);
    var body := TopicBody(t, gen, src, lang, chatId, arg);
    raised := bot.SendGuarded([Message(chatId, Fetching(t, lang), NoOptions)] + body, Message(chatId, Apology(t), NoOptions));
  }

  /** `handleSubscription`: the checks in order, then `saveUserSubscription`; only once it
      is done `scheduleNotification`, then the confirmation. */
  method HandleSubscription(chatId: int, args: string, userId: int, db: Database, bot: Bot, registry: Registry,
                            gen: Model, faults: Faults) returns (raised: bool)
    requires db.Valid() && registry.Valid()
    modifies db, bot, registry
    ensures db.Valid() && registry.Valid()
    ensures var lang := ReadPreference(old(db.preferences), old(db.categories), old(db.subscriptions), userId,
                                       faults.preferenceFailAt).language;
      var o := SubscriptionOutcome(bot.api, gen, lang, chatId, args, faults.subscriptionFailAt);
      bot.sent == old(bot.sent) + o.delivered && raised == o.raised
    ensures SubscriptionApplied(old(db.categories), old(db.subscriptions), old(registry.State()),
                                db.categories, db.subscriptions, registry.State(), userId, args, faults)
    ensures db.users == old(db.users) && db.preferences == old(db.preferences) && db.interactions == old(db.interactions)
  {
    var pref := db.GetUserPreference(userId, faults.preferenceFailAt);
    var lang := pref.language;
    var check := CheckSubscription(args);
    var apology := Message(chatId, SubscriptionApology, NoOptions);
    if check.Subscribable? {
      var saved := db.SaveUserSubscription(userId, check.category, check.frequency, faults.subscriptionFailAt);
      if !saved {
        raised := bot.Apologize(apology);
        return;
      }
      var scheduled := registry.ScheduleNotification(userId, check.category, check.frequency, faults.cronOk);
    }
    raised := bot.SendGuardedReply(Message(chatId, SubscriptionReply(gen, lang, check), NoOptions), apology);
  }

  /** `setLanguage`: the argument is trimmed and lower-cased in place, checked, saved, and
      confirmed. */
  method SetLanguage(chatId: int, args: string, userId: int, db: Database, bot: Bot, faults: Faults) returns (raised: bool)
    modifies db, bot
    ensures var o := LanguageOutcome(bot.api, chatId, args, faults.languageSaveFails);
      bot.sent == old(bot.sent) + o.delivered && raised == o.raised
    ensures db.preferences == PreferencesAfter(old(db.preferences), userId, args, faults.languageSaveFails)
    ensures db.users == old(db.users) && db.categories == old(db.categories)
    ensures db.subscriptions == old(db.subscriptions) && db.interactions == old(db.interactions)
  {
    var language := ToLower(Trim(args));
    var apology := Message(chatId, LanguageApology, NoOptions);
    if language != "en" && language != "am" {
      raised := bot.SendGuardedReply(Message(chatId, LanguageUsage, NoOptions), apology);
      return;
    }
    var l := if language == "am" then Am else En;
    var saved := db.SaveUserPreference(userId, l, faults.languageSaveFails);
    if !saved {
      raised := bot.Apologize(apology);
      return;
    }
    raised := bot.SendGuardedReply(Message(chatId, LanguageConfirmation(l), NoOptions), apology);
  }

  /** `handleCommand`: the command word is logged, then its case runs. */
  method HandleCommand(chatId: int, text: string, userId: int, db: Database, bot: Bot, registry: Registry,
                       gen: Model, src: Sources, texts: Texts, faults: Faults) returns (raised: bool)
    requires db.Valid() && registry.Valid()
    modifies db, bot, registry
    ensures db.Valid() && registry.Valid()
    ensures var lang := ReadPreference(old(db.preferences), old(db.categories), old(db.subscriptions), userId,
                                       faults.preferenceFailAt).language;
      var o := CommandOutcome(bot.api, texts, gen, src, lang, chatId, ParseCommand(CommandWord(text)), Arguments(text), faults);
      bot.sent == old(bot.sent) + o.delivered && raised == o.raised
    ensures db.interactions == old(db.interactions) + CommandLog(userId, text, faults.entryLogFails, faults.handlerLogFails)
    ensures CommandApplied(old(db.preferences), old(db.categories), old(db.subscriptions), old(registry.State()),
                           db.preferences, db.categories, db.subscriptions, registry.State(), userId,
                           ParseCommand(CommandWord(text)), Arguments(text), faults)
    ensures db.users == old(db.users)
  {
    var word := CommandWord(text);
    var logged := db.LogUserInteraction(userId, word, None, faults.entryLogFails);
    raised := RunCommand(ParseCommand(word), chatId, Arguments(text), userId, db, bot, registry, gen, src, texts, faults);
    LogsInOrder(old(db.interactions), Logged(userId, word, None, faults.entryLogFails),
                HandlerLog(userId, ParseCommand(word), faults.handlerLogFails));
  }

  /** `switch (cmd)`. */
  method RunCommand(command: Command, chatId: int, args: string, userId: int, db: Database, bot: Bot,
                    registry: Registry, gen: Model, src: Sources, texts: Texts, faults: Faults) returns (raised: bool)
    requires db.Valid() && registry.Valid()
    modifies db, bot, registry
    ensures db.Valid() && registry.Valid()
    ensures var lang := ReadPreference(old(db.preferences), old(db.categories), old(db.subscriptions), userId,
                                       faults.preferenceFailAt).language;
      var o := CommandOutcome(bot.api, texts, gen, src, lang, chatId, command, args, faults);
      bot.sent == old(bot.sent) + o.delivered && raised == o.raised
    ensures db.interactions == old(db.interactions) + HandlerLog(userId, command, faults.handlerLogFails)
    ensures CommandApplied(old(db.preferences), old(db.categories), old(db.subscriptions), old(registry.State()),
                           db.preferences, db.categories, db.subscriptions, registry.State(), userId, command, args, faults)
    ensures db.users == old(db.users)
  {
    match command {
      case FetchCommand(t) =>
        raised := SendContent(t, chatId, args, userId, db, bot, gen, src, faults);
      case SubscribeCommand =>
        raised := HandleSubscription(chatId, args, userId, db, bot, registry, gen, faults);
      case LanguageCommand =>
        raised := SetLanguage(chatId, args, userId, db, bot, faults);
      case StartCommand =>
        raised := bot.SendUnguardedReply(Message(chatId, texts.welcome, MarkdownOptions));
      case HelpCommand =>
        var pref := db.GetUserPreference(userId, faults.preferenceFailAt);
        raised := bot.SendUnguardedReply(Message(chatId, texts.help(pref.language), MarkdownOptions));
      case Unrecognized =>
        var pref := db.GetUserPreference(userId, faults.preferenceFailAt);
        raised := bot.SendUnguardedReply(Message(chatId, NotRecognized(pref.language), NoOptions));
    }
  }

  /** `handleNaturalLanguage`: read the language, log, then route by keyword. */
  method HandleNaturalLanguage(chatId: int, text: string, userId: int, db: Database, bot: Bot, gen: Model,
                               src: Sources, faults: Faults) returns (raised: bool)
    modifies db, bot
    ensures var lang := ReadPreference(old(db.preferences), old(db.categories), old(db.subscriptions), userId,
                                       faults.preferenceFailAt).language;
      var o := NaturalOutcome(bot.api, gen, src, lang, chatId, Route(text));
      bot.sent == old(bot.sent) + o.delivered && raised == o.raised
    ensures db.interactions == old(db.interactions) + NaturalLog(userId, text, faults.entryLogFails, faults.handlerLogFails)
    ensures db.users == old(db.users) && db.preferences == old(db.preferences)
    ensures db.categories == old(db.categories) && db.subscriptions == old(db.subscriptions)
  {
    var pref := db.GetUserPreference(userId, faults.preferenceFailAt);
    var logged := db.LogUserInteraction(userId, "natural_language", Some("general"), faults.entryLogFails);
    assert bot.sent == old(bot.sent);
    assert db.preferences == old(db.preferences) && db.categories == old(db.categories) && db.subscriptions == old(db.subscriptions);
    raised := AnswerRoute(Route(text), pref.language, chatId, userId, db, bot, gen, src, faults);
    LogsInOrder(old(db.interactions), Logged(userId, "natural_language", Some("general"), faults.entryLogFails),
                RouteLog(userId, Route(text), faults.handlerLogFails));
  }

  /** The branches of `handleNaturalLanguage` once the keywords are looked for: the routed
      content handler, or the prompt in the reader's language `lang`. */
  method AnswerRoute(route: Option<Topic>, lang: Language, chatId: int, userId: int, db: Database, bot: Bot,
                     gen: Model, src: Sources, faults: Faults) returns (raised: bool)
    requires lang == ReadPreference(db.preferences, db.categories, db.subscriptions, userId, faults.preferenceFailAt).language
    modifies db, bot
    ensures var o := NaturalOutcome(bot.api, gen, src, lang, chatId, route);
      bot.sent == old(bot.sent) + o.delivered && raised == o.raised
    ensures db.interactions == old(db.interactions) + RouteLog(userId, route, faults.handlerLogFails)
    ensures db.users == old(db.users) && db.preferences == old(db.preferences)
    ensures db.categories == old(db.categories) && db.subscriptions == old(db.subscriptions)
  {
    match route
    case Some(t) =>
      raised := SendContent(t, chatId, "", userId, db, bot, gen, src, faults);
    case None =>
      raised := bot.SendUnguardedReply(Message(chatId, AskForContent(lang), NoOptions));
  }

  /** `processUpdate`. */
  method ProcessUpdate(update: Update, db: Database, bot: Bot, registry: Registry, gen: Model, src: Sources,
                       texts: Texts, faults: Faults) returns (raised: bool)
    requires db.Valid() && registry.Valid()
    modifies db, bot, registry
    ensures db.Valid() && registry.Valid()
    ensures var o := UpdateOutcome(bot.api, texts, gen, src, old(db.preferences), old(db.categories), old(db.subscriptions),
                                   update, faults);
      bot.sent == old(bot.sent) + o.delivered && raised == o.raised
    ensures db.users == UsersAfter(old(db.users), update, faults.saveUserFails)
    ensures db.interactions == old(db.interactions) + UpdateLog(update, faults)
    ensures UpdateApplied(old(db.preferences), old(db.categories), old(db.subscriptions), old(registry.State()),
                          db.preferences, db.categories, db.subscriptions, registry.State(), update, faults)
  {
    if update.message.None? {
      return false;
    }
    var m := update.message.value;
    var text := TextOf(m);
    if m.from.None? {
      return true;
    }
    var user := m.from.value;
    var saved := db.SaveUser(user.id, user.username, user.firstName, user.lastName, faults.saveUserFails);
    if !saved {
      return true;
    }
    if StartsWith(text, "/") {
      raised := HandleCommand(m.chatId, text, user.id, db, bot, registry, gen, src, texts, faults);
    } else {
      raised := HandleNaturalLanguage(m.chatId, text, user.id, db, bot, gen, src, faults);
    }
  }
}
