/** The pieces the on-demand replies (lib/telegram.ts) and the scheduled notifications
    (lib/scheduler.ts) build their digests from: one entry per news article, video, sports
    item, trend or meme, translated to Amharic only when the user's language is Amharic, and
    the `text += entry` loop that strings the entries after a header. */
module Digest {
  import opened Wrappers
  import opened Text
  import opened Domain
  import opened Content
  import opened Ai

  /** A piece of English text as the user reads it: `translateText(s, "en", "am")` for an
      Amharic reader, the text itself otherwise. */
  function Localize(gen: Model, lang: Language, s: string): string {
    if lang == Am then TranslateText(gen, s, "en", "am") else s
  }

  /** A fixed text in the user's language. */
  function Pick(lang: Language, english: string, amharic: string): string {
    if lang == Am then amharic else english
  }

  function ReadMore(lang: Language): string {
    Pick(lang, "Read more", "ተጨማሪ ያንብቡ")
  }

  function WatchVideo(lang: Language): string {
    Pick(lang, "Watch Video", "ቪዲዮ ይመልከቱ")
  }

  /** `*title*\ndescription\n[Read more](url)\n\n`. */
  function NewsEntry(gen: Model, lang: Language, a: Article): string {
    "*" + Localize(gen, lang, a.title) + "*\n" + Localize(gen, lang, a.description) + "\n[" + ReadMore(lang) + "](" + a.url + ")\n\n"
  }

  /** `*title*\n[Watch Video](videoUrl)\n\n`. */
  function VideoEntry(gen: Model, lang: Language, v: Video): string {
    "*" + Localize(gen, lang, v.title) + "*\n[" + WatchVideo(lang) + "](" + v.videoUrl + ")\n\n"
  }

  /** `*title*\ndescription\n\n`. */
  function SportsEntry(gen: Model, lang: Language, s: SportsItem): string {
    "*" + Localize(gen, lang, s.title) + "*\n" + Localize(gen, lang, s.description) + "\n\n"
  }

  /** `• topic (count)\n`. */
  function TrendEntry(gen: Model, lang: Language, t: Trend): string {
    "• " + Localize(gen, lang, t.topic) + " (" + NatToString(t.count) + ")\n"
  }

  /** The text of the message that carries one meme. */
  function MemeText(gen: Model, lang: Language, m: Meme): string {
    "😂 " + Localize(gen, lang, m.caption) + "\n\n[View Meme](" + m.imageUrl + ")"
  }

  /** One labelled line of a weather message. */
  function Field(heading: string, value: string): string {
    heading + value
  }

  /** `${weather.temperature}`: the reading, or "undefined" for an inherited member. */
  function TemperatureText(w: Weather): string {
    if w.Weather? then IntToString(w.temperature) else "undefined"
  }

  /** `${weather.condition}`, translated for an Amharic reader; `translateText` returns a
      missing condition as it is, so it renders "undefined" in both languages. */
  function ConditionText(gen: Model, lang: Language, w: Weather): string {
    if w.Inherited? then "undefined"
    else if lang == Am then TranslateText(gen, w.condition, "en", "am")
    else w.condition
  }

  /** `${weather.humidity}`. */
  function HumidityText(w: Weather): string {
    if w.Weather? then IntToString(w.humidity) else "undefined"
  }

  /** `${weather.windSpeed}`. */
  function WindText(w: Weather): string {
    if w.Weather? then IntToString(w.windSpeed) else "undefined"
  }

  /** The four weather lines both weather messages end with. */
  function WeatherLines(gen: Model, lang: Language, w: Weather): string {
    if lang == Am then
      Field("🌡️ ሙቀት: ", TemperatureText(w) + "°C") +
      Field("\n🌤️ ሁኔታ: ", ConditionText(gen, lang, w)) +
      Field("\n💧 እርጥበት: ", HumidityText(w) + "%") +
      Field("\n💨 የነፋስ ፍጥነት: ", WindText(w) + " km/h")
    else
      Field("🌡️ Temperature: ", TemperatureText(w) + "°C") +
      Field("\n🌤️ Condition: ", ConditionText(gen, lang, w)) +
      Field("\n💧 Humidity: ", HumidityText(w) + "%") +
      Field("\n💨 Wind Speed: ", WindText(w) + " km/h")
  }

  lemma FieldShowsValue(heading: string, value: string)
    ensures Contains(Field(heading, value), value)
  {
    ContainsMiddle(heading, value, "");
    assert heading + value + "" == Field(heading, value);
  }

  /** In English the weather lines carry the temperature in °C, the condition as the API gave
      it, the humidity in % and the wind speed in km/h; each reading an inherited member lacks
      shows as "undefined". */
  lemma WeatherLinesEnglish(gen: Model, w: Weather)
    ensures Contains(WeatherLines(gen, En, w), TemperatureText(w) + "°C")
    ensures Contains(WeatherLines(gen, En, w), ConditionText(gen, En, w))
    ensures Contains(WeatherLines(gen, En, w), HumidityText(w) + "%")
    ensures Contains(WeatherLines(gen, En, w), WindText(w) + " km/h")
    ensures w.Weather? ==> TemperatureText(w) == IntToString(w.temperature) && ConditionText(gen, En, w) == w.condition
    ensures w.Weather? ==> HumidityText(w) == IntToString(w.humidity) && WindText(w) == IntToString(w.windSpeed)
    ensures w.Inherited? ==> Contains(WeatherLines(gen, En, w), "undefined°C")
  {
    var t := Field("🌡️ Temperature: ", TemperatureText(w) + "°C");
    var c := Field("\n🌤️ Condition: ", ConditionText(gen, En, w));
    var h := Field("\n💧 Humidity: ", HumidityText(w) + "%");
    var s := Field("\n💨 Wind Speed: ", WindText(w) + " km/h");
    ContainsEachOfFour(t, c, h, s);
    FieldShowsValue("🌡️ Temperature: ", TemperatureText(w) + "°C");
    FieldShowsValue("\n🌤️ Condition: ", ConditionText(gen, En, w));
    FieldShowsValue("\n💧 Humidity: ", HumidityText(w) + "%");
    FieldShowsValue("\n💨 Wind Speed: ", WindText(w) + " km/h");
    ContainsTransitive(t + c + h + s, t, TemperatureText(w) + "°C");
    ContainsTransitive(t + c + h + s, c, ConditionText(gen, En, w));
    ContainsTransitive(t + c + h + s, h, HumidityText(w) + "%");
    ContainsTransitive(t + c + h + s, s, WindText(w) + " km/h");
    if w.Inherited? {
      assert TemperatureText(w) + "°C" == "undefined°C";
    }
  }

  /** The entries of `items` strung together in order. */
  function Entries<T>(items: seq<T>, entry: T -> string): string {
    if items == [] then "" else Entries(items[..|items| - 1], entry) + entry(items[|items| - 1])
  }

  /** `let text = header; for (const item of items) text += entry(item)`. */
  method Compose<T>(header: string, items: seq<T>, entry: T -> string) returns (text: string)
    ensures text == header + Entries(items, entry)
  {
    text := header;
    var i := 0;
    while i < |items|
      invariant 0 <= i <= |items|
      invariant text == header + Entries(items[..i], entry)
    {
      assert items[..i + 1][..i] == items[..i];
      text := text + entry(items[i]);
      i := i + 1;
    }
    assert items[..|items|] == items;
  }

  /** The digest read from the front: the first entry, then the rest. */
  lemma {:induction false} DigestFront<T>(items: seq<T>, entry: T -> string)
    requires items != []
    ensures Entries(items, entry) == entry(items[0]) + Entries(items[1..], entry)
  {
    if |items| > 1 {
      var init := items[..|items| - 1];
      DigestFront(init, entry);
      assert init[1..] == items[1..][..|items[1..]| - 1];
      assert items[1..][|items[1..]| - 1] == items[|items| - 1];
    }
  }

  /** Every item's entry appears in the digest. */
  lemma {:induction false} DigestContainsEach<T>(items: seq<T>, entry: T -> string, k: nat)
    requires k < |items|
    ensures Contains(Entries(items, entry), entry(items[k]))
  {
    var init := items[..|items| - 1];
    if k == |items| - 1 {
      assert Entries(items, entry) == Entries(init, entry) + entry(items[k]) + "";
      ContainsMiddle(Entries(init, entry), entry(items[k]), "");
    } else {
      assert init[k] == items[k];
      DigestContainsEach(init, entry, k);
      ContainsWithin(Entries(init, entry), entry(items[k]), "", entry(items[|items| - 1]));
      assert "" + Entries(init, entry) + entry(items[|items| - 1]) == Entries(items, entry);
    }
  }

  /** Two entry functions that agree on every item give the same digest. */
  lemma {:induction false} DigestAgrees<T>(items: seq<T>, e1: T -> string, e2: T -> string)
    requires forall k | 0 <= k < |items| :: e1(items[k]) == e2(items[k])
    ensures Entries(items, e1) == Entries(items, e2)
  {
    if items != [] {
      var init := items[..|items| - 1];
      assert forall k | 0 <= k < |init| :: init[k] == items[k];
      DigestAgrees(init, e1, e2);
    }
  }

  /** An English digest makes no model call: it is the same whatever the model answers. */
  lemma EnglishDigestIgnoresModel(g1: Model, g2: Model, news: seq<Article>, videos: seq<Video>,
                                  sports: seq<SportsItem>, trends: seq<Trend>)
    ensures Entries(news, a => NewsEntry(g1, En, a)) == Entries(news, a => NewsEntry(g2, En, a))
    ensures Entries(videos, v => VideoEntry(g1, En, v)) == Entries(videos, v => VideoEntry(g2, En, v))
    ensures Entries(sports, s => SportsEntry(g1, En, s)) == Entries(sports, s => SportsEntry(g2, En, s))
    ensures Entries(trends, t => TrendEntry(g1, En, t)) == Entries(trends, t => TrendEntry(g2, En, t))
  {
    DigestAgrees(news, a => NewsEntry(g1, En, a), a => NewsEntry(g2, En, a));
    DigestAgrees(videos, v => VideoEntry(g1, En, v), v => VideoEntry(g2, En, v));
    DigestAgrees(sports, s => SportsEntry(g1, En, s), s => SportsEntry(g2, En, s));
    DigestAgrees(trends, t => TrendEntry(g1, En, t), t => TrendEntry(g2, En, t));
  }

  /** `text || fallback`: JavaScript's `||` on strings picks the fallback only for "". */
  function OrElse(text: string, fallback: string): (r: string)
    ensures text != "" ==> r == text
    ensures text == "" ==> r == fallback
  {
    if text != "" then text else fallback
  }

  /** A digest after a non-empty header is never empty, so its `||` fallback is never used. */
  lemma HeaderedDigestNeverFallsBack<T>(header: string, items: seq<T>, entry: T -> string, fallback: string)
    requires header != ""
    ensures OrElse(header + Entries(items, entry), fallback) == header + Entries(items, entry)
  {
    assert |header + Entries(items, entry)| >= |header| > 0;
  }
}
