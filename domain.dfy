/** The enumerations the whole bot shares: content categories, delivery frequencies and the
    two interface languages. */
module Domain {
  import opened Wrappers

  datatype Frequency = Daily | Weekly

  datatype Language = En | Am

  /** The word a frequency is written as, in commands, in the store and in scheduler keys. */
  function FrequencyName(f: Frequency): string {
    match f
    case Daily => "daily"
    case Weekly => "weekly"
  }

  /** The frequency a (lower-cased) word names, if any. */
  function ParseFrequency(s: string): (r: Option<Frequency>)
    ensures r.Some? ==> FrequencyName(r.value) == s
    ensures r.None? ==> s !in FrequencyNames
  {
    if s == "daily" then Some(Daily) else if s == "weekly" then Some(Weekly) else None
  }

  lemma ParseFrequencyName(f: Frequency)
    ensures ParseFrequency(FrequencyName(f)) == Some(f)
  {
  }

  /** The language code stored for a language. */
  function LanguageCode(l: Language): string {
    match l
    case En => "en"
    case Am => "am"
  }

  /** The six content categories, in the order the bot lists them. */
  const Categories: seq<string> := ["news", "memes", "videos", "weather", "sports", "social"]

  /** The two frequencies, in the order the bot lists them. */
  const Frequencies: seq<Frequency> := [Daily, Weekly]

  const FrequencyNames: seq<string> := ["daily", "weekly"]

  /** No category word and no frequency word contains an underscore, the scheduler's key
      separator. */
  lemma WordsHaveNoUnderscore()
    ensures forall k | 0 <= k < |Categories| :: '_' !in Categories[k]
    ensures forall f: Frequency :: '_' !in FrequencyName(f)
  {
    assert '_' !in Categories[0] && '_' !in Categories[1] && '_' !in Categories[2];
    assert '_' !in Categories[3] && '_' !in Categories[4] && '_' !in Categories[5];
    assert '_' !in FrequencyName(Daily) && '_' !in FrequencyName(Weekly);
  }
}
