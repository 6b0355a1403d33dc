/** What `scheduleNotification` hands to node-cron: the registry key of a subscription, the
    cron expression of its frequency and the time zone, and when such an expression fires. */
module Cron {
  import opened Wrappers
  import opened Text
  import opened Domain

  const Timezone: string := "Africa/Addis_Ababa"

  /** Daily at 09:00; weekly on Mondays at 09:00. */
  function Expression(f: Frequency): string {
    match f
    case Daily => "0 9 * * *"
    case Weekly => "0 9 * * 1"
  }

  /** `${userId}_${category}_${frequency}`. */
  function Key(userId: int, category: string, frequency: Frequency): string {
    IntToString(userId) + "_" + category + "_" + FrequencyName(frequency)
  }

  /** A key is its three words joined by underscores. */
  lemma KeyIsJoin(userId: int, category: string, frequency: Frequency)
    ensures Key(userId, category, frequency) == Join([IntToString(userId), category, FrequencyName(frequency)], '_')
  {
    var parts := [IntToString(userId), category, FrequencyName(frequency)];
    assert parts[1..][1..] == [FrequencyName(frequency)];
    assert Join(parts[1..], '_') == category + "_" + FrequencyName(frequency);
  }

  /** Splitting a key on `_` gives back the user id, the category and the frequency when the
      category has no underscore. */
  lemma SplitKey(userId: int, category: string, frequency: Frequency)
    requires '_' !in category
    ensures Split(Key(userId, category, frequency), '_') == [IntToString(userId), category, FrequencyName(frequency)]
  {
    var parts := [IntToString(userId), category, FrequencyName(frequency)];
    KeyIsJoin(userId, category, frequency);
    assert '_' !in FrequencyName(frequency) by {
      WordsHaveNoUnderscore();
    }
    assert '_' !in IntToString(userId);
    SplitJoin(parts, '_');
  }

  /** Different subscriptions get different keys, as long as category words have no
      underscore (the six category words have none). */
  lemma KeyInjective(u1: int, c1: string, f1: Frequency, u2: int, c2: string, f2: Frequency)
    requires '_' !in c1 && '_' !in c2
    requires Key(u1, c1, f1) == Key(u2, c2, f2)
    ensures u1 == u2 && c1 == c2 && f1 == f2
  {
    SplitKey(u1, c1, f1);
    SplitKey(u2, c2, f2);
    IntToStringInjective(u1, u2);
    ParseFrequencyName(f1);
    ParseFrequencyName(f2);
  }

  /** A local time in Africa/Addis_Ababa, as node-cron matches against it; `weekday` counts
      from Sunday = 0. */
  datatype Moment = Moment(minute: nat, hour: nat, dayOfMonth: nat, month: nat, weekday: nat)

  /** A cron field that is a wildcard or a single number. */
  predicate FieldMatches(field: string, value: nat) {
    field == "*" || ParseNat(field) == Some(value)
  }

  /** A five-field expression (minute, hour, day of month, month, day of week) fires at the
      moments each field matches. */
  predicate FiresAt(expression: string, t: Moment) {
    var fields := Split(expression, ' ');
    |fields| == 5 && FieldMatches(fields[0], t.minute) && FieldMatches(fields[1], t.hour) &&
    FieldMatches(fields[2], t.dayOfMonth) && FieldMatches(fields[3], t.month) && FieldMatches(fields[4], t.weekday)
  }

  lemma SplitExpression(f: Frequency)
    ensures Split(Expression(f), ' ') == ["0", "9", "*", "*", if f == Daily then "*" else "1"]
  {
    var parts := ["0", "9", "*", "*", if f == Daily then "*" else "1"];
    assert Join(parts[4..], ' ') == parts[4];
    assert Join(parts[3..], ' ') == "* " + parts[4];
    assert Join(parts[2..], ' ') == "* * " + parts[4];
    assert Join(parts[1..], ' ') == "9 * * " + parts[4];
    assert Join(parts, ' ') == Expression(f);
    SplitJoin(parts, ' ');
  }

  /** A daily task fires every day at 09:00 Addis Ababa time and at no other moment. */
  lemma DailyFiresAtNine(t: Moment)
    ensures FiresAt(Expression(Daily), t) <==> t.minute == 0 && t.hour == 9
  {
    SplitExpression(Daily);
    ParseNatOfNatToString(0);
    ParseNatOfNatToString(9);
    assert NatToString(0) == "0" && NatToString(9) == "9";
  }

  /** A weekly task fires on Mondays at 09:00 Addis Ababa time and at no other moment. */
  lemma WeeklyFiresMondayAtNine(t: Moment)
    ensures FiresAt(Expression(Weekly), t) <==> t.minute == 0 && t.hour == 9 && t.weekday == 1
  {
    SplitExpression(Weekly);
    ParseNatOfNatToString(0);
    ParseNatOfNatToString(9);
    ParseNatOfNatToString(1);
    assert NatToString(0) == "0" && NatToString(9) == "9" && NatToString(1) == "1";
  }
}
