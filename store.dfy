/** The bot's relational store (users, preferences, content categories, subscriptions,
    interactions) as in-memory tables. A subscription or category table is a sequence of rows,
    so that row order, which the SQL queries return unsorted, is visible to callers; the
    uniqueness constraints the SQL schema declares are the invariant `Database.Valid`.

    Every SQL statement may throw (connection loss, a constraint, a timeout). Calls take the
    failure as a parameter: `fails` for a one-statement operation, `failAt` (the number of the
    statement that throws, 0 for none) for a multi-statement one. */
module Store {
  import opened Wrappers
  import opened Text
  import opened Domain

  /** A `users` row; `telegram_id` is the key of the table map. */
  datatype UserRow = UserRow(username: Option<string>, firstName: Option<string>, lastName: Option<string>)

  /** A `content_categories` row; its id is its position in the table. */
  datatype CategoryRow = CategoryRow(name: string, description: string)

  /** A `subscriptions` row. */
  datatype SubscriptionRow = SubscriptionRow(userId: int, categoryId: nat, frequency: Frequency, lastSentAt: Option<int>)

  /** A `user_interactions` row. */
  datatype Interaction = Interaction(userId: int, command: string, contentCategory: Option<string>)

  /** One row of the join of a user's subscriptions with the category names. */
  datatype NamedFrequency = NamedFrequency(name: string, frequency: Frequency)

  /** What `getUserPreference` returns: the language and the map from category name to
      frequency. */
  datatype UserPreference = UserPreference(language: Language, subscriptions: map<string, Frequency>)

  /** One row of `getUsersWithSubscription`. */
  datatype Subscriber = Subscriber(userId: int, language: Language)

  const DefaultPreference: UserPreference := UserPreference(En, map[])

  /** JavaScript's `x || null` on an optional string: a missing or empty string is stored as
      NULL. */
  function NullIfEmpty(x: Option<string>): (r: Option<string>)
    ensures r.Some? <==> x.Some? && x.value != ""
    ensures r.Some? ==> r == x
  {
    if x.None? || x.value == "" then None else x
  }

  // ---------------------------------------------------------------------------------------
  // Categories

  predicate UniqueNames(cats: seq<CategoryRow>) {
    forall i, j | 0 <= i < j < |cats| :: cats[i].name != cats[j].name
  }

  /** `SELECT id FROM content_categories WHERE name = ...`. */
  function IndexOfName(cats: seq<CategoryRow>, name: string): (r: Option<nat>)
    ensures r.Some? ==> r.value < |cats| && cats[r.value].name == name
    ensures r.None? ==> forall k | 0 <= k < |cats| :: cats[k].name != name
  {
    if cats == [] then None
    else if cats[0].name == name then Some(0)
    else
      match IndexOfName(cats[1..], name)
      case Some(k) => Some(k + 1)
      case None => None
  }

  /** The description a category row inserted by `saveUserSubscription` gets. */
  function Describe(name: string): string {
    name + " content category"
  }

  /** `INSERT INTO content_categories ... ON CONFLICT (name) DO NOTHING`: the table gets the
      category when it lacks it, and existing rows keep their ids. */
  function EnsureCategory(cats: seq<CategoryRow>, name: string): (r: seq<CategoryRow>)
    ensures cats <= r && |r| <= |cats| + 1
    ensures IndexOfName(r, name).Some?
    ensures |r| == |cats| + 1 <==> IndexOfName(cats, name).None?
    ensures |r| == |cats| + 1 ==> r[|cats|] == CategoryRow(name, Describe(name))
    ensures UniqueNames(cats) ==> UniqueNames(r)
  {
    if IndexOfName(cats, name).Some? then cats
    else
      var r := cats + [CategoryRow(name, Describe(name))];
      assert r[|cats|].name == name;
      r
  }

  /** The name a subscription row's category id stands for in the join. */
  function NameOf(cats: seq<CategoryRow>, id: nat): string {
    if id < |cats| then cats[id].name else ""
  }

  /** With unique names, a name determines the category id. */
  lemma NameDeterminesId(cats: seq<CategoryRow>, i: nat, j: nat)
    requires UniqueNames(cats) && i < |cats| && j < |cats|
    requires cats[i].name == cats[j].name
    ensures i == j
  {
  }

  // ---------------------------------------------------------------------------------------
  // Subscriptions

  predicate Matches(row: SubscriptionRow, userId: int, categoryId: nat) {
    row.userId == userId && row.categoryId == categoryId
  }

  /** The `(user_id, category_id)` constraint of the table. */
  predicate UniqueKeys(subs: seq<SubscriptionRow>) {
    forall i, j | 0 <= i < j < |subs| :: !Matches(subs[j], subs[i].userId, subs[i].categoryId)
  }

  /** Every subscription row refers to a category row. */
  predicate KnownCategories(subs: seq<SubscriptionRow>, cats: seq<CategoryRow>) {
    forall k | 0 <= k < |subs| :: subs[k].categoryId < |cats|
  }

  /** The position of the row with this key, if any. */
  function FindRow(subs: seq<SubscriptionRow>, userId: int, categoryId: nat): (r: Option<nat>)
    ensures r.Some? ==> r.value < |subs| && Matches(subs[r.value], userId, categoryId)
    ensures r.None? ==> forall k | 0 <= k < |subs| :: !Matches(subs[k], userId, categoryId)
  {
    if subs == [] then None
    else if Matches(subs[0], userId, categoryId) then Some(0)
    else
      match FindRow(subs[1..], userId, categoryId)
      case Some(k) => Some(k + 1)
      case None => None
  }

  /** `INSERT INTO subscriptions ... ON CONFLICT (user_id, category_id) DO UPDATE SET
      frequency = ...`: afterwards the table holds exactly one row for the key, carrying the
      new frequency (and, when it was there before, its old `last_sent_at`); every other row
      is unchanged and in its place. */
  function Upsert(subs: seq<SubscriptionRow>, userId: int, categoryId: nat, frequency: Frequency): (r: seq<SubscriptionRow>)
    requires UniqueKeys(subs)
    ensures UniqueKeys(r)
    ensures |r| == |subs| || |r| == |subs| + 1
    ensures exists k | 0 <= k < |r| :: Matches(r[k], userId, categoryId)
    ensures forall k | 0 <= k < |r| && Matches(r[k], userId, categoryId) ::
      r[k].frequency == frequency &&
      (k < |subs| ==> r[k] == subs[k].(frequency := frequency)) &&
      (k == |subs| ==> r[k] == SubscriptionRow(userId, categoryId, frequency, None))
    ensures forall k | 0 <= k < |subs| && !Matches(subs[k], userId, categoryId) :: r[k] == subs[k]
    ensures forall k | 0 <= k < |r| && !Matches(r[k], userId, categoryId) :: k < |subs| && r[k] == subs[k]
  {
    match FindRow(subs, userId, categoryId)
    case Some(i) =>
      var r := subs[i := subs[i].(frequency := frequency)];
      assert Matches(r[i], userId, categoryId);
      r
    case None =>
      var r := subs + [SubscriptionRow(userId, categoryId, frequency, None)];
      assert Matches(r[|subs|], userId, categoryId);
      r
  }

  /** The rows `getUserPreference` joins for one user: the user's subscriptions with their
      category names, in table order. */
  predicate JoinsUser(row: SubscriptionRow, cats: seq<CategoryRow>, userId: int) {
    row.userId == userId && row.categoryId < |cats|
  }

  function JoinedRows(subs: seq<SubscriptionRow>, cats: seq<CategoryRow>, userId: int): seq<SubscriptionRow> {
    Filter(subs, row => JoinsUser(row, cats, userId))
  }

  function Joined(subs: seq<SubscriptionRow>, cats: seq<CategoryRow>, userId: int): seq<NamedFrequency> {
    Map(JoinedRows(subs, cats, userId),
        (row: SubscriptionRow) => NamedFrequency(NameOf(cats, row.categoryId), row.frequency))
  }

  /** The map `subscriptions.forEach(sub => map[sub.name] = sub.frequency)` builds. */
  function RowsToMap(rows: seq<NamedFrequency>): map<string, Frequency> {
    if rows == [] then map[]
    else
      var last := rows[|rows| - 1];
      RowsToMap(rows[..|rows| - 1])[last.name := last.frequency]
  }

  /** The keys of that map are the names that occur. */
  lemma {:induction false} RowsToMapKeys(rows: seq<NamedFrequency>, name: string)
    ensures name in RowsToMap(rows) <==> exists k | 0 <= k < |rows| :: rows[k].name == name
  {
    if rows != [] {
      var init := rows[..|rows| - 1];
      RowsToMapKeys(init, name);
      if name in RowsToMap(rows) && rows[|rows| - 1].name != name {
        var k :| 0 <= k < |init| && init[k].name == name;
        assert rows[k].name == name;
      }
      if exists k | 0 <= k < |rows| :: rows[k].name == name {
        var k :| 0 <= k < |rows| && rows[k].name == name;
        if k < |init| {
          assert init[k].name == name;
        }
      }
    }
  }

  /** A later row for the same name overwrites an earlier one: the map holds the frequency of
      the last row with that name. */
  lemma {:induction false} RowsToMapLastWins(rows: seq<NamedFrequency>, k: nat)
    requires k < |rows|
    requires forall j | k < j < |rows| :: rows[j].name != rows[k].name
    ensures rows[k].name in RowsToMap(rows)
    ensures RowsToMap(rows)[rows[k].name] == rows[k].frequency
  {
    if k < |rows| - 1 {
      var init := rows[..|rows| - 1];
      assert rows[|rows| - 1].name != rows[k].name;
      assert forall j | k < j < |init| :: init[j] == rows[j];
      RowsToMapLastWins(init, k);
    }
  }

  /** When every row with a name carries the same frequency, the map holds that frequency. */
  lemma {:induction false} RowsToMapUniform(rows: seq<NamedFrequency>, name: string, frequency: Frequency)
    requires exists k | 0 <= k < |rows| :: rows[k].name == name
    requires forall j | 0 <= j < |rows| && rows[j].name == name :: rows[j].frequency == frequency
    ensures name in RowsToMap(rows) && RowsToMap(rows)[name] == frequency
  {
    if rows[|rows| - 1].name != name {
      var init := rows[..|rows| - 1];
      var k :| 0 <= k < |rows| && rows[k].name == name;
      assert init[k].name == name;
      forall j | 0 <= j < |init| && init[j].name == name
        ensures init[j].frequency == frequency
      {
        assert init[j] == rows[j];
      }
      RowsToMapUniform(init, name, frequency);
    }
  }

  // ---------------------------------------------------------------------------------------
  // Preferences and listings

  /** `COALESCE(up.language, 'en')`. */
  function LanguageOf(prefs: map<int, Language>, userId: int): Language {
    if userId in prefs then prefs[userId] else En
  }

  /** What `getUserPreference` answers when `failAt` names the query that throws (1 or 2),
      or none. */
  function ReadPreference(prefs: map<int, Language>, cats: seq<CategoryRow>, subs: seq<SubscriptionRow>,
                          userId: int, failAt: nat): UserPreference {
    if failAt == 1 || userId !in prefs || failAt == 2 then DefaultPreference
    else UserPreference(prefs[userId], RowsToMap(Joined(subs, cats, userId)))
  }

  /** The rows `getUsersWithSubscription` selects. */
  predicate Lists(row: SubscriptionRow, cats: seq<CategoryRow>, category: string, frequency: Frequency) {
    row.categoryId < |cats| && cats[row.categoryId].name == category && row.frequency == frequency
  }

  function Listed(subs: seq<SubscriptionRow>, cats: seq<CategoryRow>, category: string, frequency: Frequency): seq<SubscriptionRow> {
    Filter(subs, row => Lists(row, cats, category, frequency))
  }

  function Listing(subs: seq<SubscriptionRow>, cats: seq<CategoryRow>, prefs: map<int, Language>,
                   category: string, frequency: Frequency): seq<Subscriber> {
    Map(Listed(subs, cats, category, frequency),
        (row: SubscriptionRow) => Subscriber(row.userId, LanguageOf(prefs, row.userId)))
  }

  /** `updateLastNotified`: the rows of the user whose category has that name. */
  predicate Notified(row: SubscriptionRow, cats: seq<CategoryRow>, userId: int, category: string) {
    row.userId == userId && row.categoryId < |cats| && cats[row.categoryId].name == category
  }

  /** `UPDATE subscriptions SET last_sent_at = now ...`: only `last_sent_at` of the matching
      rows changes. */
  function Touched(subs: seq<SubscriptionRow>, cats: seq<CategoryRow>, userId: int, category: string, now: int): (r: seq<SubscriptionRow>)
    ensures |r| == |subs|
    ensures forall k | 0 <= k < |subs| :: r[k].(lastSentAt := subs[k].lastSentAt) == subs[k]
    ensures forall k | 0 <= k < |subs| ::
      r[k].lastSentAt == if Notified(subs[k], cats, userId, category) then Some(now) else subs[k].lastSentAt
  {
    Map(subs, (row: SubscriptionRow) => if Notified(row, cats, userId, category) then row.(lastSentAt := Some(now)) else row)
  }

  /** `getUsersWithSubscription` lists exactly the users that have a subscription row with
      that category name and frequency, each with the language `COALESCE` gives. */
  lemma ListingExactly(subs: seq<SubscriptionRow>, cats: seq<CategoryRow>, prefs: map<int, Language>,
                       category: string, frequency: Frequency, userId: int)
    ensures var l := Listing(subs, cats, prefs, category, frequency);
      (exists k | 0 <= k < |l| :: l[k].userId == userId) <==>
      (exists row | row in subs :: row.userId == userId && Lists(row, cats, category, frequency))
    ensures var l := Listing(subs, cats, prefs, category, frequency);
      forall k | 0 <= k < |l| :: l[k].language == LanguageOf(prefs, l[k].userId)
  {
    var sel := Listed(subs, cats, category, frequency);
    var l := Listing(subs, cats, prefs, category, frequency);
    if exists k | 0 <= k < |l| :: l[k].userId == userId {
      var k :| 0 <= k < |l| && l[k].userId == userId;
      assert sel[k] in sel;
    }
    if exists row | row in subs :: row.userId == userId && Lists(row, cats, category, frequency) {
      var row :| row in subs && row.userId == userId && Lists(row, cats, category, frequency);
      assert row in sel;
      var k :| 0 <= k < |sel| && sel[k] == row;
      assert l[k].userId == userId;
    }
  }

  /** The subscription rows after `saveUserSubscription(u, c, f)`: `u` has a row for the
      category named `c`, and every such row carries `f`. */
  lemma SavedRows(cats: seq<CategoryRow>, subs: seq<SubscriptionRow>, userId: int, category: string,
                  frequency: Frequency)
    requires UniqueNames(cats) && UniqueKeys(subs)
    ensures var cats' := EnsureCategory(cats, category);
      var subs' := Upsert(subs, userId, IndexOfName(cats', category).value, frequency);
      (exists row | row in subs' :: row.userId == userId && Lists(row, cats', category, frequency)) &&
      (forall row | row in subs' && Notified(row, cats', userId, category) :: row.frequency == frequency)
  {
    var cats' := EnsureCategory(cats, category);
    var id := IndexOfName(cats', category).value;
    var subs' := Upsert(subs, userId, id, frequency);
    var k :| 0 <= k < |subs'| && Matches(subs'[k], userId, id);
    assert subs'[k] in subs' && Lists(subs'[k], cats', category, frequency);
    forall row | row in subs' && Notified(row, cats', userId, category)
      ensures row.frequency == frequency
    {
      NameDeterminesId(cats', row.categoryId, id);
      var m :| 0 <= m < |subs'| && subs'[m] == row;
      assert Matches(subs'[m], userId, id);
    }
  }

  /** After `saveUserSubscription(u, c, f)` the store holds this subscription and no other
      frequency for it: `u` is listed under `(c, f)` and under no other frequency of `c`. */
  lemma SavedSubscriptionIsListed(prefs: map<int, Language>, cats: seq<CategoryRow>, subs: seq<SubscriptionRow>,
                                  userId: int, category: string, frequency: Frequency, other: Frequency)
    requires UniqueNames(cats) && UniqueKeys(subs)
    requires other != frequency
    ensures var cats' := EnsureCategory(cats, category);
      var subs' := Upsert(subs, userId, IndexOfName(cats', category).value, frequency);
      var listed := Listing(subs', cats', prefs, category, frequency);
      var elsewhere := Listing(subs', cats', prefs, category, other);
      (exists k | 0 <= k < |listed| :: listed[k].userId == userId) &&
      !(exists k | 0 <= k < |elsewhere| :: elsewhere[k].userId == userId)
  {
    var cats' := EnsureCategory(cats, category);
    var subs' := Upsert(subs, userId, IndexOfName(cats', category).value, frequency);
    SavedRows(cats, subs, userId, category, frequency);
    ListingExactly(subs', cats', prefs, category, frequency, userId);
    ListingExactly(subs', cats', prefs, category, other, userId);
  }

  /** After `saveUserSubscription(u, c, f)`, `getUserPreference(u)` of a user with a
      preference row maps `c` to `f`. */
  lemma SavedSubscriptionIsRead(prefs: map<int, Language>, cats: seq<CategoryRow>, subs: seq<SubscriptionRow>,
                                userId: int, category: string, frequency: Frequency)
    requires UniqueNames(cats) && UniqueKeys(subs)
    requires userId in prefs
    ensures var cats' := EnsureCategory(cats, category);
      var subs' := Upsert(subs, userId, IndexOfName(cats', category).value, frequency);
      var p := ReadPreference(prefs, cats', subs', userId, 0);
      category in p.subscriptions && p.subscriptions[category] == frequency
  {
    var cats' := EnsureCategory(cats, category);
    var subs' := Upsert(subs, userId, IndexOfName(cats', category).value, frequency);
    var kept := JoinedRows(subs', cats', userId);
    var rows := Joined(subs', cats', userId);
    SavedRows(cats, subs, userId, category, frequency);
    var row :| row in subs' && row.userId == userId && Lists(row, cats', category, frequency);
    assert row in kept;
    var i :| 0 <= i < |kept| && kept[i] == row;
    assert rows[i].name == category;
    forall j | 0 <= j < |rows| && rows[j].name == category
      ensures rows[j].frequency == frequency
    {
      assert kept[j] in kept;
    }
    RowsToMapUniform(rows, category, frequency);
  }

  /** `getUserPreference` answers the default (English, no subscriptions) exactly when the
      user has no preference row or a query throws. */
  lemma PreferenceDefault(prefs: map<int, Language>, cats: seq<CategoryRow>, subs: seq<SubscriptionRow>,
                          userId: int, failAt: nat)
    ensures (failAt == 1 || failAt == 2 || userId !in prefs) ==>
      ReadPreference(prefs, cats, subs, userId, failAt) == DefaultPreference
    ensures !(failAt == 1 || failAt == 2 || userId !in prefs) ==>
      ReadPreference(prefs, cats, subs, userId, failAt).language == prefs[userId]
  {
  }

  // ---------------------------------------------------------------------------------------
  // The store

  class Database {
    var users: map<int, UserRow>
    var preferences: map<int, Language>
    var categories: seq<CategoryRow>
    var subscriptions: seq<SubscriptionRow>
    var interactions: seq<Interaction>

    /** The constraints of the schema: unique category names, one subscription per user and
        category, and subscriptions referring to existing categories. */
    predicate Valid()
      reads this
    {
      UniqueNames(categories) && UniqueKeys(subscriptions) && KnownCategories(subscriptions, categories)
    }

    /** An empty store. */
    constructor ()
      ensures Valid()
      ensures users == map[] && preferences == map[] && categories == [] && subscriptions == [] && interactions == []
    {
      users := map[];
      preferences := map[];
      categories := [];
      subscriptions := [];
      interactions := [];
    }

    /** `saveUser`: the user row is inserted or overwritten, with missing or empty names
        stored as NULL; a failure is rethrown (`done` false) and changes nothing. */
    method SaveUser(telegramId: int, username: Option<string>, firstName: Option<string>, lastName: Option<string>,
                    fails: bool) returns (done: bool)
      modifies this
      ensures done == !fails
      ensures users == if fails then old(users)
                       else old(users)[telegramId := UserRow(NullIfEmpty(username), NullIfEmpty(firstName), NullIfEmpty(lastName))]
      ensures preferences == old(preferences) && categories == old(categories)
      ensures subscriptions == old(subscriptions) && interactions == old(interactions)
    {
      if fails {
        return false;
      }
      users := users[telegramId := UserRow(NullIfEmpty(username), NullIfEmpty(firstName), NullIfEmpty(lastName))];
      done := true;
    }

    /** `saveUserPreference`: one language per user, the one saved last. */
    method SaveUserPreference(userId: int, language: Language, fails: bool) returns (done: bool)
      modifies this
      ensures done == !fails
      ensures preferences == if fails then old(preferences) else old(preferences)[userId := language]
      ensures users == old(users) && categories == old(categories)
      ensures subscriptions == old(subscriptions) && interactions == old(interactions)
    {
      if fails {
        return false;
      }
      preferences := preferences[userId := language];
      done := true;
    }

    /** `getUserPreference`: never throws; the subscription map is filled row by row. */
    method GetUserPreference(userId: int, failAt: nat) returns (p: UserPreference)
      ensures p == ReadPreference(preferences, categories, subscriptions, userId, failAt)
    {
      if failAt == 1 || userId !in preferences {
        return DefaultPreference;
      }
      if failAt == 2 {
        return DefaultPreference;
      }
      var rows := Joined(subscriptions, categories, userId);
      var m: map<string, Frequency> := map[];
      var i := 0;
      while i < |rows|
        invariant 0 <= i <= |rows|
        invariant m == RowsToMap(rows[..i])
      {
        assert rows[..i + 1][..i] == rows[..i];
        m := m[rows[i].name := rows[i].frequency];
        i := i + 1;
      }
      assert rows[..|rows|] == rows;
      p := UserPreference(preferences[userId], m);
    }

    /** `saveUserSubscription`: statement 1 inserts the category if absent, statement 2 reads
        its id, statement 3 upserts the subscription. A throwing statement ends the call
        (`done` false) with the earlier statements' effects kept. */
    method SaveUserSubscription(userId: int, category: string, frequency: Frequency, failAt: nat) returns (done: bool)
      requires Valid()
      modifies this
      ensures Valid()
      ensures done <==> !(1 <= failAt <= 3)
      ensures categories == if failAt == 1 then old(categories) else EnsureCategory(old(categories), category)
      ensures subscriptions == if 1 <= failAt <= 3 then old(subscriptions)
                               else Upsert(old(subscriptions), userId, IndexOfName(categories, category).value, frequency)
      ensures users == old(users) && preferences == old(preferences) && interactions == old(interactions)
    {
      if failAt == 1 {
        return false;
      }
      categories := EnsureCategory(categories, category);
      if failAt == 2 {
        return false;
      }
      var id := IndexOfName(categories, category).value;
      if failAt == 3 {
        return false;
      }
      subscriptions := Upsert(subscriptions, userId, id, frequency);
      done := true;
    }

    /** `getUsersWithSubscription`: the listing, or `None` when the query throws (the error
        is rethrown). */
    method UsersWithSubscription(category: string, frequency: Frequency, fails: bool) returns (r: Option<seq<Subscriber>>)
      ensures r == if fails then None else Some(Listing(subscriptions, categories, preferences, category, frequency))
    {
      if fails {
        return None;
      }
      r := Some(Listing(subscriptions, categories, preferences, category, frequency));
    }

    /** `updateLastNotified`: stamps `last_sent_at` of the user's rows for that category name. */
    method UpdateLastNotified(userId: int, category: string, now: int, fails: bool) returns (done: bool)
      requires Valid()
      modifies this
      ensures Valid()
      ensures done == !fails
      ensures subscriptions == if fails then old(subscriptions) else Touched(old(subscriptions), categories, userId, category, now)
      ensures users == old(users) && preferences == old(preferences)
      ensures categories == old(categories) && interactions == old(interactions)
    {
      if fails {
        return false;
      }
      subscriptions := Touched(subscriptions, categories, userId, category, now);
      done := true;
    }

    /** `logUserInteraction`: appends a row; never throws, answering false on failure. */
    method LogUserInteraction(userId: int, command: string, contentCategory: Option<string>, fails: bool) returns (logged: bool)
      modifies this
      ensures logged == !fails
      ensures interactions == if fails then old(interactions)
                              else old(interactions) + [Interaction(userId, command, NullIfEmpty(contentCategory))]
      ensures users == old(users) && preferences == old(preferences)
      ensures categories == old(categories) && subscriptions == old(subscriptions)
    {
      if fails {
        return false;
      }
      interactions := interactions + [Interaction(userId, command, NullIfEmpty(contentCategory))];
      logged := true;
    }
  }
}
