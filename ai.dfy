/** The text work the bot does around its language model: translation, summarising, reading a
    numbered list of recommendations and classifying a message. The model is a parameter that
    answers each request with a text, or with `None` when the call throws. */
module Ai {
  import opened Wrappers
  import opened Text
  import opened Domain

  /** One call of the language model, named by the function that makes it and the values it
      puts into its prompt; `System` and `Prompt` give the exact texts sent. */
  datatype Request =
    | Translate(text: string, fromLang: string, toLang: string)
    | Summarize(content: string, maxLength: int)
    | Recommend(preferencesJson: string)
    | Detect(message: string)

  /** The language model: its answer to a request, or `None` when the call fails. */
  type Model = Request -> Option<string>

  /** The system instruction of a request. */
  function System(req: Request): string {
    match req
    case Translate(_, _, _) => TranslatorSystem
    case Summarize(_, _) => SummarizerSystem
    case Recommend(_) => RecommenderSystem
    case Detect(_) => ClassifierSystem
  }

  /** The prompt of a request. The source language is English exactly when its code is "en",
      the target Amharic exactly when its code is "am". */
  function Prompt(req: Request): string {
    match req
    case Translate(text, fromLang, toLang) =>
      "Translate the following text from " + (if fromLang == "en" then "English" else "Amharic") +
      " to " + (if toLang == "am" then "Amharic" else "English") +
      ". Only return the translation, " +
      "no explanations:\n\n" + text
    case Summarize(content, maxLength) =>
      "Summarize the following content in " + IntToString(maxLength) +
      " characters or less. Keep the " +
      "key information and make it " +
      "engaging:\n\n" + content
    case Recommend(preferencesJson) =>
      "Based on these user preferences: " + preferencesJson +
      "\n\n" +
      "Generate 5 personalized " +
      "Ethiopian content " +
      "recommendations. Focus on " +
      "trending topics, cultural " +
      "events, news, and entertainment " +
      "that would interest this user. " +
      "Return as a numbered list."
    case Detect(message) =>
      "Analyze this user message and " +
      "determine what type of content " +
      "they're asking for. Return only " +
      "one word from: news, memes, " +
      "videos, weather, sports, " +
      "social, general\n\n" +
      "Message: \"" +
      message + "\""
  }

  // ---------------------------------------------------------------- translateText

  const TranslatorSystem: string :=
    "You are a professional " +
    "translator specializing in " +
    "English and Amharic. Provide " +
    "accurate, natural translations " +
    "that preserve the original " +
    "meaning and tone."

  /** `translateText(text, fromLang, toLang)`. */
  function TranslateText(gen: Model, text: string, fromLang: string, toLang: string): (r: string)
    ensures |text| < 3 ==> r == text
    ensures |text| >= 3 && gen(Translate(text, fromLang, toLang)).None? ==> r == text
    ensures |text| >= 3 && gen(Translate(text, fromLang, toLang)).Some? ==>
      r == Trim(gen(Translate(text, fromLang, toLang)).value)
  {
    if |text| < 3 then text
    else match gen(Translate(text, fromLang, toLang))
      case Some(t) => Trim(t)
      case None => text
  }

  /** A text shorter than three characters, the empty one included, never reaches the model:
      whatever the model would answer, it comes back unchanged. */
  lemma TranslateShortIgnoresModel(g1: Model, g2: Model, text: string, fromLang: string, toLang: string)
    requires |text| < 3
    ensures TranslateText(g1, text, fromLang, toLang) == TranslateText(g2, text, fromLang, toLang) == text
  {
  }

  /** A translation is either the original text (the model failed or was skipped) or a model
      answer with no white space at either end. */
  lemma TranslateResult(gen: Model, text: string, fromLang: string, toLang: string)
    ensures var r := TranslateText(gen, text, fromLang, toLang);
      r == text || (|r| > 0 ==> !IsSpace(r[0]) && !IsSpace(r[|r| - 1]))
    ensures var r := TranslateText(gen, text, fromLang, toLang);
      |text| >= 3 && gen(Translate(text, fromLang, toLang)).Some? ==> Trim(r) == r
  {
    if |text| >= 3 && gen(Translate(text, fromLang, toLang)).Some? {
      TrimIdempotent(gen(Translate(text, fromLang, toLang)).value);
    }
  }

  // ---------------------------------------------------------------- summarizeContent

  const SummarizerSystem: string :=
    "You are a professional content " +
    "summarizer. Create concise, " +
    "informative summaries that " +
    "capture the essence of the " +
    "original content."

  const DefaultSummaryLength: int := 200

  /** `content.substring(0, end)`: JavaScript clamps a negative end to 0 and one past the length
      to the length. */
  function Substring(content: string, end: int): (r: string)
    ensures |r| == if end < 0 then 0 else if end > |content| then |content| else end
    ensures r == content[..|r|]
  {
    if end < 0 then [] else if end > |content| then content else content[..end]
  }

  /** The summary used when the model fails: the first `maxLength - 3` characters and "...". */
  function FallbackSummary(content: string, maxLength: int): string {
    if |content| <= maxLength then content else Substring(content, maxLength - 3) + "..."
  }

  /** `summarizeContent(content, maxLength)`; the repository's default length is
      `DefaultSummaryLength`. */
  function SummarizeContent(gen: Model, content: string, maxLength: int): (r: string)
    ensures content == "" || |content| <= maxLength ==> r == content
    ensures content != "" && |content| > maxLength && gen(Summarize(content, maxLength)).Some? ==>
      r == Trim(gen(Summarize(content, maxLength)).value)
  {
    if content == "" || |content| <= maxLength then content
    else match gen(Summarize(content, maxLength))
      case Some(summary) => Trim(summary)
      case None => FallbackSummary(content, maxLength)
  }

  /** When the model fails on a content longer than `maxLength`, the summary is a prefix of the
      content followed by "...", exactly `maxLength` long when `maxLength` is at least 3 and
      just "..." otherwise. */
  lemma SummaryFallbackLength(gen: Model, content: string, maxLength: int)
    requires content != "" && |content| > maxLength && gen(Summarize(content, maxLength)).None?
    ensures var r := SummarizeContent(gen, content, maxLength);
      |r| >= 3 && r[|r| - 3..] == "..." && StartsWith(content, r[..|r| - 3])
    ensures maxLength >= 3 ==> |SummarizeContent(gen, content, maxLength)| == maxLength
    ensures maxLength < 3 ==> SummarizeContent(gen, content, maxLength) == "..."
  {
    var r := SummarizeContent(gen, content, maxLength);
    var head := Substring(content, maxLength - 3);
    assert r == head + "...";
    assert r[..|r| - 3] == head;
  }

  // ---------------------------------------------------------------- generateRecommendations

  const RecommenderSystem: string :=
    "You are a content " +
    "recommendation system " +
    "specializing in Ethiopian " +
    "culture, news, and " +
    "entertainment. Provide " +
    "relevant, engaging, and " +
    "culturally appropriate " +
    "recommendations."

  /** The number of leading decimal digits of `s`. */
  function LeadingDigits(s: string): (n: nat)
    ensures n <= |s|
    ensures n < |s| ==> !IsDigit(s[n])
  {
    if s != [] && IsDigit(s[0]) then 1 + LeadingDigits(s[1..]) else 0
  }

  /** `line.replace(re, "")` for the regular expression `^\d+\.\s*`: one or more leading digits, a full stop and the white
      space after it are removed; a line without such a prefix is kept as it is. */
  function StripNumber(line: string): (r: string)
    ensures |r| <= |line| && r == line[|line| - |r|..]
  {
    var n := LeadingDigits(line);
    if n >= 1 && n < |line| && line[n] == '.' then TrimStart(line[n + 1..]) else line
  }

  predicate NonBlank(line: string) {
    |Trim(line)| > 0
  }

  function Clean(line: string): string {
    Trim(StripNumber(line))
  }

  predicate NonEmpty(s: string) {
    |s| > 0
  }

  /** The list read from a model answer: its lines that are not blank, each without its number
      and trimmed, the empty ones dropped, and at most five of them. */
  function ParseRecommendations(answer: string): seq<string> {
    Take(Filter(Map(Filter(Split(answer, '\n'), NonBlank), Clean), NonEmpty), 5)
  }

  const FallbackRecommendations: seq<string> := [
    "Latest news from Addis Ababa",
    "Ethiopian Premier League updates",
    "Traditional Ethiopian recipes",
    "Ethiopian music playlist",
    "Travel destinations in Ethiopia"
  ]

  /** `generateRecommendations(userId, preferences)`, with the preferences already serialised;
      the user id takes no part. */
  function GenerateRecommendations(gen: Model, userId: int, preferencesJson: string): (r: seq<string>)
    ensures gen(Recommend(preferencesJson)).None? ==> r == FallbackRecommendations
  {
    match gen(Recommend(preferencesJson))
    case Some(answer) => ParseRecommendations(answer)
    case None => FallbackRecommendations
  }

  /** Every parsed recommendation is non-empty, has no white space at either end and lies on
      one line of the answer, and there are at most five. */
  lemma ParsedRecommendationsWellFormed(answer: string)
    ensures var r := ParseRecommendations(answer);
      |r| <= 5 && forall k | 0 <= k < |r| :: |r[k]| > 0 && Trim(r[k]) == r[k] && '\n' !in r[k]
  {
    var lines := Split(answer, '\n');
    KeptLinesOneLine(lines);
    CleanedLinesWellFormed(Filter(lines, NonBlank));
    KeptItemsWellFormed(Map(Filter(lines, NonBlank), Clean));
  }

  lemma KeptLinesOneLine(lines: seq<string>)
    requires forall k | 0 <= k < |lines| :: '\n' !in lines[k]
    ensures forall x | x in Filter(lines, NonBlank) :: '\n' !in x
  {
  }

  lemma CleanedLinesWellFormed(kept: seq<string>)
    requires forall x | x in kept :: '\n' !in x
    ensures forall x | x in Map(kept, Clean) :: Trim(x) == x && '\n' !in x
  {
    var cleaned := Map(kept, Clean);
    forall x | x in cleaned ensures Trim(x) == x && '\n' !in x {
      var j :| 0 <= j < |kept| && cleaned[j] == x;
      CleanWellFormed(kept[j]);
    }
  }

  lemma KeptItemsWellFormed(cleaned: seq<string>)
    requires forall x | x in cleaned :: Trim(x) == x && '\n' !in x
    ensures var r := Take(Filter(cleaned, NonEmpty), 5);
      |r| <= 5 && forall k | 0 <= k < |r| :: |r[k]| > 0 && Trim(r[k]) == r[k] && '\n' !in r[k]
  {
    var r := Take(Filter(cleaned, NonEmpty), 5);
    assert forall k | 0 <= k < |r| :: r[k] in Filter(cleaned, NonEmpty);
  }

  /** A cleaned line is trimmed and, when the line has no line feed, has none either. */
  lemma CleanWellFormed(line: string)
    requires '\n' !in line
    ensures Trim(Clean(line)) == Clean(line) && '\n' !in Clean(line)
  {
    CleanStaysOnLine(line);
    TrimIdempotent(StripNumber(line));
  }

  /** Cleaning a line that holds no line feed gives a text that holds none either. */
  lemma CleanStaysOnLine(line: string)
    requires '\n' !in line
    ensures '\n' !in Clean(line)
  {
    var t := StripNumber(line);
    TrimKeepsChars(t);
    assert forall c | c in t :: c in line;
  }

  /** On a model error the five fixed recommendations are returned; on an answer, at most five
      well-formed ones. */
  lemma RecommendationsBounded(gen: Model, userId: int, preferencesJson: string)
    ensures var r := GenerateRecommendations(gen, userId, preferencesJson);
      |r| <= 5 && forall k | 0 <= k < |r| :: |r[k]| > 0 && Trim(r[k]) == r[k]
  {
    match gen(Recommend(preferencesJson))
    case Some(answer) => ParsedRecommendationsWellFormed(answer);
    case None =>
      var r := FallbackRecommendations;
      forall k | 0 <= k < |r| ensures |r[k]| > 0 && Trim(r[k]) == r[k] {
        TrimOfTrimmed(r[k]);
      }
  }

  /** The leading digits of a run of digits followed by a non-digit are that run. */
  lemma {:induction false} LeadingDigitsOf(digits: string, rest: string)
    requires AllDigits(digits) && (rest == [] || !IsDigit(rest[0]))
    ensures LeadingDigits(digits + rest) == |digits|
  {
    if digits != [] {
      assert (digits + rest)[1..] == digits[1..] + rest;
      LeadingDigitsOf(digits[1..], rest);
    } else {
      assert digits + rest == rest;
    }
  }

  /** Stripping the number removes exactly the digits, the full stop and the white space that
      follows them. */
  lemma StripNumberOf(digits: string, spaces: string, rest: string)
    requires |digits| > 0 && AllDigits(digits) && AllSpace(spaces)
    requires rest == [] || !IsSpace(rest[0])
    ensures StripNumber(digits + "." + spaces + rest) == rest
  {
    var tail := spaces + rest;
    var line := digits + ("." + tail);
    assert digits + "." + spaces + rest == line;
    LeadingDigitsOf(digits, "." + tail);
    assert line[|digits|] == '.';
    assert line[|digits| + 1..] == tail;
    TrimStartDropsSpaces(spaces, rest);
  }

  /** A numbered item loses its number, the full stop and the white space after it, and what
      remains is trimmed. */
  lemma CleanNumbered(digits: string, spaces: string, item: string, trailing: string)
    requires |digits| > 0 && AllDigits(digits) && AllSpace(spaces) && AllSpace(trailing)
    requires |item| > 0 && !IsSpace(item[0]) && !IsSpace(item[|item| - 1])
    ensures Clean(digits + "." + spaces + (item + trailing)) == item
  {
    assert (item + trailing)[0] == item[0];
    StripNumberOf(digits, spaces, item + trailing);
    CleanOfStripped(digits + "." + spaces + (item + trailing), item, trailing);
  }

  lemma CleanOfStripped(line: string, item: string, trailing: string)
    requires AllSpace(trailing)
    requires |item| > 0 && !IsSpace(item[0]) && !IsSpace(item[|item| - 1])
    requires StripNumber(line) == item + trailing
    ensures Clean(line) == item
  {
    assert "" + item + trailing == item + trailing;
    TrimAround("", item, trailing);
  }

  /** A line that does not begin with a digit is only trimmed. */
  lemma CleanUnnumbered(line: string)
    requires line == [] || !IsDigit(line[0])
    ensures Clean(line) == Trim(line)
  {
  }

  // ---------------------------------------------------------------- detectContentCategory

  const ClassifierSystem: string :=
    "You are a content " +
    "categorization system. Analyze " +
    "user messages and return the " +
    "most appropriate content " +
    "category."

  /** `detectContentCategory(message)`. Only ASCII letters are lower-cased; no other character
      lower-cases to a letter of a category name, so the whitelist test is the same. */
  function DetectContentCategory(gen: Model, message: string): (r: string)
    ensures r in Categories || r == "general"
    ensures gen(Detect(message)).None? ==> r == "general"
    ensures gen(Detect(message)).Some? ==>
      var word := ToLower(Trim(gen(Detect(message)).value));
      (word in Categories ==> r == word) && (word !in Categories ==> r == "general")
  {
    match gen(Detect(message))
    case Some(answer) =>
      var word := ToLower(Trim(answer));
      if word in Categories then word else "general"
    case None => "general"
  }

  /** An answer that names a category in any mix of case and with surrounding white space
      is recognised. */
  lemma DetectRecognisesCategory(gen: Model, message: string)
    requires gen(Detect(message)) == Some(" Weather\n")
    ensures DetectContentCategory(gen, message) == "weather"
  {
    var answer := gen(Detect(message)).value;
    TrimAround(" ", "Weather", "\n");
    assert answer == " " + "Weather" + "\n";
    assert Trim(answer) == "Weather";
    LowerWeather();
  }

  lemma LowerWeather()
    ensures ToLower("Weather") == "weather"
  {
    ToLowerAt("Weather");
    assert forall k | 0 <= k < 7 :: ToLower("Weather")[k] == "weather"[k];
  }
}
