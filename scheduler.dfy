/** lib/scheduler.ts: the `schedulers` dictionary of cron tasks, one per subscription key,
    and what a task does when it fires.

    The registry's state is a value, `RegistryState`, stepped by pure functions (`Scheduled`,
    `Initialized`, `Stopped`); the class `Registry` holds the same state in fields, and each of
    its methods is proved to perform the step. node-cron keeps every task it created, stopped
    ones included: `tasks` is that table, by task id; `schedulers` maps keys to task ids, and
    `order` is the key order `Object.keys` reports (insertion order, a deleted and re-added
    key moving to the end). */
module Scheduler {
  import opened Wrappers
  import opened Text
  import opened Domain
  import opened Content
  import opened Ai
  import opened Store
  import opened Messaging
  import opened Digest
  import opened Cron

  /** A node-cron task: its schedule and the subscription its callback delivers. */
  datatype Task = Task(expression: string, timezone: string, userId: int, category: string, running: bool)

  datatype RegistryState = RegistryState(tasks: map<nat, Task>, schedulers: map<string, nat>, order: seq<string>, nextId: nat)

  predicate Distinct(xs: seq<string>) {
    forall i, j | 0 <= i < j < |xs| :: xs[i] != xs[j]
  }

  /** Every key names a task of its own, ids are below `nextId`, and `order` lists each key
      once. */
  predicate Consistent(st: RegistryState) {
    && (forall k | k in st.schedulers :: st.schedulers[k] in st.tasks)
    && (forall id | id in st.tasks :: id < st.nextId)
    && (forall k1, k2 | k1 in st.schedulers && k2 in st.schedulers && k1 != k2 :: st.schedulers[k1] != st.schedulers[k2])
    && Distinct(st.order)
    && (forall k | k in st.schedulers :: k in st.order)
    && (forall i | 0 <= i < |st.order| :: st.order[i] in st.schedulers)
  }

  const Empty: RegistryState := RegistryState(map[], map[], [], 0)

  /** The key order after `delete schedulers[key]`. */
  function Remove(xs: seq<string>, x: string): (r: seq<string>)
    ensures forall y :: y in r <==> y in xs && y != x
    ensures Distinct(xs) ==> Distinct(r)
    ensures x !in xs ==> r == xs
  {
    if xs == [] then []
    else if xs[0] == x then Remove(xs[1..], x)
    else
      var rest := Remove(xs[1..], x);
      assert Distinct(xs) ==> xs[0] !in xs[1..];
      [xs[0]] + rest
  }

  lemma {:induction false} RemoveAppend(xs: seq<string>, x: string)
    ensures Remove(xs + [x], x) == Remove(xs, x)
  {
    if xs == [] {
      assert [x][1..] == [];
    } else {
      assert (xs + [x])[1..] == xs[1..] + [x];
      RemoveAppend(xs[1..], x);
    }
  }

  // ---------------------------------------------------------------------------------------
  // scheduleNotification

  /** `scheduleNotification(userId, category, frequency)`: a task already under the key is
      stopped and deleted; then a new running task is registered, unless `cron.schedule`
      throws (`cronOk` false), which leaves the key without a task. */
  function Scheduled(st: RegistryState, userId: int, category: string, frequency: Frequency, cronOk: bool): RegistryState {
    var key := Key(userId, category, frequency);
    var cleared :=
      if key in st.schedulers && st.schedulers[key] in st.tasks then
        var id := st.schedulers[key];
        RegistryState(st.tasks[id := st.tasks[id].(running := false)], st.schedulers - {key}, Remove(st.order, key), st.nextId)
      else if key in st.schedulers then
        RegistryState(st.tasks, st.schedulers - {key}, Remove(st.order, key), st.nextId)
      else st;
    if !cronOk then cleared
    else
      RegistryState(cleared.tasks[cleared.nextId := Task(Expression(frequency), Timezone, userId, category, true)],
                    cleared.schedulers[key := cleared.nextId], cleared.order + [key], cleared.nextId + 1)
  }

  lemma ScheduledConsistent(st: RegistryState, userId: int, category: string, frequency: Frequency, cronOk: bool)
    requires Consistent(st)
    ensures Consistent(Scheduled(st, userId, category, frequency, cronOk))
  {
    ScheduledKeepsIds(st, userId, category, frequency, cronOk);
    ScheduledKeepsOrder(st, userId, category, frequency, cronOk);
  }

  /** The id half of `Consistent`: every key has a task of its own below `nextId`. */
  lemma ScheduledKeepsIds(st: RegistryState, userId: int, category: string, frequency: Frequency, cronOk: bool)
    requires Consistent(st)
    ensures var r := Scheduled(st, userId, category, frequency, cronOk);
      && (forall k | k in r.schedulers :: r.schedulers[k] in r.tasks)
      && (forall id | id in r.tasks :: id < r.nextId)
      && (forall k1, k2 | k1 in r.schedulers && k2 in r.schedulers && k1 != k2 :: r.schedulers[k1] != r.schedulers[k2])
  {
  }

  /** The order half of `Consistent`: `order` lists exactly the registered keys, once each. */
  lemma ScheduledKeepsOrder(st: RegistryState, userId: int, category: string, frequency: Frequency, cronOk: bool)
    requires Consistent(st)
    ensures var r := Scheduled(st, userId, category, frequency, cronOk);
      && Distinct(r.order)
      && (forall k | k in r.schedulers :: k in r.order)
      && (forall i | 0 <= i < |r.order| :: r.order[i] in r.schedulers)
  {
    var key := Key(userId, category, frequency);
    var r := Scheduled(st, userId, category, frequency, cronOk);
    var rest := Remove(st.order, key);
    assert key !in rest;
    assert r.order == if cronOk then rest + [key] else if key in st.schedulers then rest else st.order;
    forall i | 0 <= i < |r.order|
      ensures r.order[i] in r.schedulers
    {
      if i < |rest| && (cronOk || key in st.schedulers) {
        assert rest[i] in rest;
      }
    }
  }

  /** On success exactly one running task sits under the key: a fresh one with the
      frequency's cron expression and the Addis Ababa time zone, registered last; the task that
      was there before is stopped. */
  lemma ScheduledRegisters(st: RegistryState, userId: int, category: string, frequency: Frequency)
    requires Consistent(st)
    ensures var key := Key(userId, category, frequency);
      var r := Scheduled(st, userId, category, frequency, true);
      && key in r.schedulers && r.schedulers[key] == st.nextId && st.nextId !in st.tasks
      && r.tasks[st.nextId] == Task(Expression(frequency), Timezone, userId, category, true)
      && r.order == Remove(st.order, key) + [key]
      && (key in st.schedulers ==> r.tasks[st.schedulers[key]] == st.tasks[st.schedulers[key]].(running := false))
  {
  }

  /** When `cron.schedule` throws, the old task has still been stopped and deleted: the key is
      left without a task. */
  lemma ScheduleFailureUnregisters(st: RegistryState, userId: int, category: string, frequency: Frequency)
    requires Consistent(st)
    ensures var key := Key(userId, category, frequency);
      var r := Scheduled(st, userId, category, frequency, false);
      && key !in r.schedulers && r.nextId == st.nextId
      && (key in st.schedulers ==> r.tasks[st.schedulers[key]] == st.tasks[st.schedulers[key]].(running := false))
  {
  }

  /** Every other key keeps its task, and that task is unchanged. */
  lemma ScheduledLeavesOthers(st: RegistryState, userId: int, category: string, frequency: Frequency, cronOk: bool, k: string)
    requires Consistent(st) && k != Key(userId, category, frequency)
    ensures var r := Scheduled(st, userId, category, frequency, cronOk);
      && (k in r.schedulers <==> k in st.schedulers)
      && (k in st.schedulers ==> r.schedulers[k] == st.schedulers[k] && r.tasks[r.schedulers[k]] == st.tasks[st.schedulers[k]])
  {
  }

  /** The key set after a call: the key is added on success and dropped on failure. */
  lemma ScheduledKeys(st: RegistryState, userId: int, category: string, frequency: Frequency, cronOk: bool)
    ensures Scheduled(st, userId, category, frequency, cronOk).schedulers.Keys ==
      if cronOk then st.schedulers.Keys + {Key(userId, category, frequency)}
      else st.schedulers.Keys - {Key(userId, category, frequency)}
  {
  }

  /** Scheduling the same subscription twice leaves the same keys, in the same order, as
      scheduling it once. */
  lemma ScheduleTwice(st: RegistryState, userId: int, category: string, frequency: Frequency)
    requires Consistent(st)
    ensures var once := Scheduled(st, userId, category, frequency, true);
      var twice := Scheduled(once, userId, category, frequency, true);
      twice.schedulers.Keys == once.schedulers.Keys && twice.order == once.order
  {
    var key := Key(userId, category, frequency);
    var once := Scheduled(st, userId, category, frequency, true);
    ScheduledConsistent(st, userId, category, frequency, true);
    RemoveAppend(Remove(st.order, key), key);
    assert key !in Remove(st.order, key);
  }

  /** Frequency is part of the key: a daily and a weekly subscription to the same category
      are two live entries. */
  lemma BothFrequenciesLive(st: RegistryState, userId: int, category: string)
    requires Consistent(st) && '_' !in category
    ensures var r := Scheduled(Scheduled(st, userId, category, Daily, true), userId, category, Weekly, true);
      && Key(userId, category, Daily) in r.schedulers && Key(userId, category, Weekly) in r.schedulers
      && r.tasks[r.schedulers[Key(userId, category, Daily)]].running
      && r.tasks[r.schedulers[Key(userId, category, Weekly)]].running
  {
    var daily := Key(userId, category, Daily);
    var weekly := Key(userId, category, Weekly);
    if daily == weekly {
      KeyInjective(userId, category, Daily, userId, category, Weekly);
    }
    var first := Scheduled(st, userId, category, Daily, true);
    ScheduledRegisters(st, userId, category, Daily);
    ScheduledConsistent(st, userId, category, Daily, true);
    ScheduledRegisters(first, userId, category, Weekly);
    ScheduledLeavesOthers(first, userId, category, Weekly, true, daily);
  }

  // ---------------------------------------------------------------------------------------
  // getSchedulerStatus and stopAllSchedulers

  datatype Status = Status(active: nat, schedulers: seq<string>)

  /** `getSchedulerStatus()`: the number of keys and the keys. */
  function GetStatus(st: RegistryState): Status {
    Status(|st.order|, st.order)
  }

  lemma {:induction false} DistinctCount(xs: seq<string>)
    requires Distinct(xs)
    ensures |set x | x in xs| == |xs|
  {
    if xs != [] {
      DistinctCount(xs[1..]);
      assert (set x | x in xs) == {xs[0]} + (set x | x in xs[1..]);
      assert xs[0] !in xs[1..];
    }
  }

  /** `active` is the number of registered keys and the list holds exactly those keys. */
  lemma StatusCountsKeys(st: RegistryState)
    requires Consistent(st)
    ensures GetStatus(st).active == |st.schedulers.Keys|
    ensures forall k :: k in GetStatus(st).schedulers <==> k in st.schedulers
  {
    DistinctCount(st.order);
    assert (set x | x in st.order) == st.schedulers.Keys;
  }

  /** `stopAllSchedulers()`: every registered task is stopped; no key is deleted. */
  function Stopped(st: RegistryState): (r: RegistryState)
    ensures r.schedulers == st.schedulers && r.order == st.order && r.nextId == st.nextId
    ensures r.tasks.Keys == st.tasks.Keys
    ensures forall id | id in st.tasks :: r.tasks[id] == if id in st.schedulers.Values then st.tasks[id].(running := false) else st.tasks[id]
  {
    RegistryState(map id | id in st.tasks :: if id in st.schedulers.Values then st.tasks[id].(running := false) else st.tasks[id],
                  st.schedulers, st.order, st.nextId)
  }

  /** Stopping keeps the registry consistent and leaves the status as it was; afterwards no
      registered task runs. */
  lemma StopKeepsStatus(st: RegistryState)
    requires Consistent(st)
    ensures Consistent(Stopped(st)) && GetStatus(Stopped(st)) == GetStatus(st)
    ensures forall k | k in st.schedulers :: !Stopped(st).tasks[st.schedulers[k]].running
  {
  }

  // ---------------------------------------------------------------------------------------
  // initializeSchedulers

  /** What `getUsersWithSubscription(category, frequency)` answers for each bucket during a
      start-up: the listing, or `None` for a bucket whose query throws. */
  type Buckets = (string, Frequency) -> Option<seq<Subscriber>>

  /** The store's answers: its listing of every bucket except those whose query throws. */
  function StoreBuckets(prefs: map<int, Language>, cats: seq<CategoryRow>, subs: seq<SubscriptionRow>,
                        fails: (string, Frequency) -> bool): Buckets
  {
    (category, frequency) => if fails(category, frequency) then None else Some(Listing(subs, cats, prefs, category, frequency))
  }

  /** `for (const { userId } of users) await scheduleNotification(userId, category, frequency)`. */
  function ArmUsers(st: RegistryState, users: seq<Subscriber>, category: string, frequency: Frequency,
                    cronOk: (int, string, Frequency) -> bool): RegistryState
  {
    if users == [] then st
    else
      var last := users[|users| - 1];
      Scheduled(ArmUsers(st, users[..|users| - 1], category, frequency, cronOk), last.userId, category, frequency,
                cronOk(last.userId, category, frequency))
  }

  /** One bucket: a throwing listing is caught and the bucket skipped. */
  function ArmBucket(st: RegistryState, l: Buckets, category: string, frequency: Frequency,
                     cronOk: (int, string, Frequency) -> bool): RegistryState
  {
    match l(category, frequency)
    case None => st
    case Some(users) => ArmUsers(st, users, category, frequency, cronOk)
  }

  function ArmFrequencies(st: RegistryState, l: Buckets, category: string, fs: seq<Frequency>,
                          cronOk: (int, string, Frequency) -> bool): RegistryState
  {
    if fs == [] then st
    else ArmBucket(ArmFrequencies(st, l, category, fs[..|fs| - 1], cronOk), l, category, fs[|fs| - 1], cronOk)
  }

  function ArmCategories(st: RegistryState, l: Buckets, cs: seq<string>,
                         cronOk: (int, string, Frequency) -> bool): RegistryState
  {
    if cs == [] then st
    else ArmFrequencies(ArmCategories(st, l, cs[..|cs| - 1], cronOk), l, cs[|cs| - 1], Frequencies, cronOk)
  }

  /** `initializeSchedulers()`: every bucket of the 6 categories × 2 frequencies in turn. */
  function Initialized(st: RegistryState, l: Buckets, cronOk: (int, string, Frequency) -> bool): RegistryState {
    ArmCategories(st, l, Categories, cronOk)
  }

  /** One `scheduleNotification(userId, category, frequency)` call of a start-up. */
  datatype Call = Call(userId: int, category: string, frequency: Frequency)

  /** The key a call registers. */
  function KeyOf(c: Call): string {
    Key(c.userId, c.category, c.frequency)
  }

  function Keys(calls: set<Call>): set<string> {
    set c | c in calls :: KeyOf(c)
  }

  lemma KeysUnion(a: set<Call>, b: set<Call>)
    ensures Keys(a + b) == Keys(a) + Keys(b)
  {
  }

  /** The calls the loops make, user by user, bucket by bucket. */
  function UsersCalls(users: seq<Subscriber>, category: string, frequency: Frequency): set<Call> {
    if users == [] then {}
    else UsersCalls(users[..|users| - 1], category, frequency) + {Call(users[|users| - 1].userId, category, frequency)}
  }

  function BucketCalls(l: Buckets, category: string, frequency: Frequency): set<Call> {
    match l(category, frequency)
    case None => {}
    case Some(users) => UsersCalls(users, category, frequency)
  }

  function FrequencyCalls(l: Buckets, category: string, fs: seq<Frequency>): set<Call> {
    if fs == [] then {}
    else FrequencyCalls(l, category, fs[..|fs| - 1]) + BucketCalls(l, category, fs[|fs| - 1])
  }

  function CategoryCalls(l: Buckets, cs: seq<string>): set<Call> {
    if cs == [] then {}
    else CategoryCalls(l, cs[..|cs| - 1]) + FrequencyCalls(l, cs[|cs| - 1], Frequencies)
  }

  /** The calls a start-up should make: one per listed subscriber of every bucket whose
      listing succeeds. */
  ghost function ArmedCalls(l: Buckets): set<Call> {
    set c, f, u | c in Categories && f in Frequencies && l(c, f).Some? && u in l(c, f).value :: Call(u.userId, c, f)
  }

  /** The keys a start-up should arm. */
  ghost function ArmedKeys(l: Buckets): set<string> {
    Keys(ArmedCalls(l))
  }

  lemma {:induction false} UsersCallsMembers(users: seq<Subscriber>, category: string, frequency: Frequency, x: Call)
    ensures x in UsersCalls(users, category, frequency) <==> exists u :: u in users && x == Call(u.userId, category, frequency)
  {
    if users != [] {
      var init := users[..|users| - 1];
      var last := users[|users| - 1];
      UsersCallsMembers(init, category, frequency, x);
      assert users == init + [last];
      if x == Call(last.userId, category, frequency) {
        assert last in users;
      }
    }
  }

  /** A call of bucket `(category, f)`: one for a listed subscriber. */
  ghost predicate InBucket(l: Buckets, category: string, f: Frequency, x: Call) {
    l(category, f).Some? && exists u :: u in l(category, f).value && x == Call(u.userId, category, f)
  }

  lemma BucketCallsMembers(l: Buckets, category: string, f: Frequency, x: Call)
    ensures x in BucketCalls(l, category, f) <==> InBucket(l, category, f, x)
  {
    match l(category, f)
    case None =>
    case Some(users) =>
      UsersCallsMembers(users, category, f, x);
  }

  lemma {:induction false} FrequencyCallsMembers(l: Buckets, category: string, fs: seq<Frequency>, x: Call)
    ensures x in FrequencyCalls(l, category, fs) <==> exists f :: f in fs && InBucket(l, category, f, x)
  {
    if fs != [] {
      var init := fs[..|fs| - 1];
      var last := fs[|fs| - 1];
      FrequencyCallsMembers(l, category, init, x);
      BucketCallsMembers(l, category, last, x);
      assert fs == init + [last];
      if x in FrequencyCalls(l, category, fs) && x !in FrequencyCalls(l, category, init) {
        assert last in fs && InBucket(l, category, last, x);
      }
      if exists f :: f in fs && InBucket(l, category, f, x) {
        var f :| f in fs && InBucket(l, category, f, x);
        if f != last {
          assert f in init;
        }
      }
    }
  }

  lemma {:induction false} CategoryCallsMembers(l: Buckets, cs: seq<string>, x: Call)
    ensures x in CategoryCalls(l, cs) <==> exists c, f :: c in cs && f in Frequencies && InBucket(l, c, f, x)
  {
    if cs != [] {
      var init := cs[..|cs| - 1];
      var last := cs[|cs| - 1];
      CategoryCallsMembers(l, init, x);
      FrequencyCallsMembers(l, last, Frequencies, x);
      assert cs == init + [last];
      if x in CategoryCalls(l, cs) && x !in CategoryCalls(l, init) {
        var f :| f in Frequencies && InBucket(l, last, f, x);
        assert last in cs;
      }
      if exists c, f :: c in cs && f in Frequencies && InBucket(l, c, f, x) {
        var c, f :| c in cs && f in Frequencies && InBucket(l, c, f, x);
        if c != last {
          assert c in init;
        }
      }
    }
  }

  /** The loops make exactly the reference set of calls. */
  lemma CategoryCallsAreArmedCalls(l: Buckets)
    ensures CategoryCalls(l, Categories) == ArmedCalls(l)
  {
    forall x ensures x in CategoryCalls(l, Categories) <==> x in ArmedCalls(l) {
      CategoryCallsMembers(l, Categories, x);
      if x in ArmedCalls(l) {
        var c, f, u :| c in Categories && f in Frequencies && l(c, f).Some? && u in l(c, f).value && x == Call(u.userId, c, f);
        assert InBucket(l, c, f, x);
      }
    }
  }

  ghost predicate AlwaysOk(cronOk: (int, string, Frequency) -> bool) {
    forall u: int, c: string, f: Frequency :: cronOk(u, c, f)
  }

  /** Key `k` has a running task. */
  predicate Armed(st: RegistryState, k: string) {
    k in st.schedulers && st.schedulers[k] in st.tasks && st.tasks[st.schedulers[k]].running
  }

  predicate Running(st: RegistryState, keys: set<string>) {
    forall k | k in keys :: Armed(st, k)
  }

  /** One successful call arms its key and keeps every other running key running. */
  lemma ScheduledRuns(st: RegistryState, userId: int, category: string, frequency: Frequency, keys: set<string>)
    requires Consistent(st) && Running(st, keys)
    ensures Running(Scheduled(st, userId, category, frequency, true), keys + {Key(userId, category, frequency)})
  {
    ScheduledRegisters(st, userId, category, frequency);
    var r := Scheduled(st, userId, category, frequency, true);
    forall k | k in keys && k != Key(userId, category, frequency)
      ensures Armed(r, k)
    {
      ScheduledLeavesOthers(st, userId, category, frequency, true, k);
    }
  }

  /** The last user of a bucket adds its own key. */
  lemma UsersKeysLast(users: seq<Subscriber>, category: string, frequency: Frequency)
    requires users != []
    ensures Keys(UsersCalls(users, category, frequency)) ==
      Keys(UsersCalls(users[..|users| - 1], category, frequency)) + {Key(users[|users| - 1].userId, category, frequency)}
  {
    var x := Call(users[|users| - 1].userId, category, frequency);
    KeysUnion(UsersCalls(users[..|users| - 1], category, frequency), {x});
    assert Keys({x}) == {KeyOf(x)};
  }

  // Each loop of `initializeSchedulers` keeps the registry consistent, adds the keys of its
  // calls, and leaves every key it adds, and every key running before, with a running task.

  lemma {:induction false} ArmUsersConsistent(st: RegistryState, users: seq<Subscriber>, category: string, frequency: Frequency,
                                              cronOk: (int, string, Frequency) -> bool)
    requires Consistent(st)
    ensures Consistent(ArmUsers(st, users, category, frequency, cronOk))
  {
    if users != [] {
      var init := users[..|users| - 1];
      var last := users[|users| - 1];
      ArmUsersConsistent(st, init, category, frequency, cronOk);
      ScheduledConsistent(ArmUsers(st, init, category, frequency, cronOk), last.userId, category, frequency,
                          cronOk(last.userId, category, frequency));
    }
  }

  lemma {:induction false} ArmUsersKeys(st: RegistryState, users: seq<Subscriber>, category: string, frequency: Frequency,
                                        cronOk: (int, string, Frequency) -> bool)
    requires AlwaysOk(cronOk)
    ensures ArmUsers(st, users, category, frequency, cronOk).schedulers.Keys ==
      st.schedulers.Keys + Keys(UsersCalls(users, category, frequency))
  {
    if users != [] {
      var init := users[..|users| - 1];
      var last := users[|users| - 1];
      ArmUsersKeys(st, init, category, frequency, cronOk);
      assert cronOk(last.userId, category, frequency);
      ScheduledKeys(ArmUsers(st, init, category, frequency, cronOk), last.userId, category, frequency, true);
      UsersKeysLast(users, category, frequency);
    }
  }

  lemma {:induction false} ArmUsersRunning(st: RegistryState, users: seq<Subscriber>, category: string, frequency: Frequency,
                                           cronOk: (int, string, Frequency) -> bool, keys: set<string>)
    requires Consistent(st) && Running(st, keys) && AlwaysOk(cronOk)
    ensures Running(ArmUsers(st, users, category, frequency, cronOk), keys + Keys(UsersCalls(users, category, frequency)))
  {
    if users != [] {
      var init := users[..|users| - 1];
      var last := users[|users| - 1];
      ArmUsersRunning(st, init, category, frequency, cronOk, keys);
      ArmUsersConsistent(st, init, category, frequency, cronOk);
      var mid := ArmUsers(st, init, category, frequency, cronOk);
      assert cronOk(last.userId, category, frequency);
      ScheduledRuns(mid, last.userId, category, frequency, keys + Keys(UsersCalls(init, category, frequency)));
      UsersKeysLast(users, category, frequency);
    }
  }

  lemma {:induction false} ArmFrequenciesConsistent(st: RegistryState, l: Buckets, category: string, fs: seq<Frequency>,
                                                    cronOk: (int, string, Frequency) -> bool)
    requires Consistent(st)
    ensures Consistent(ArmFrequencies(st, l, category, fs, cronOk))
  {
    if fs != [] {
      var init := fs[..|fs| - 1];
      ArmFrequenciesConsistent(st, l, category, init, cronOk);
      match l(category, fs[|fs| - 1])
      case None =>
      case Some(users) =>
        ArmUsersConsistent(ArmFrequencies(st, l, category, init, cronOk), users, category, fs[|fs| - 1], cronOk);
    }
  }

  lemma {:induction false} ArmFrequenciesKeys(st: RegistryState, l: Buckets, category: string, fs: seq<Frequency>,
                                              cronOk: (int, string, Frequency) -> bool)
    requires AlwaysOk(cronOk)
    ensures ArmFrequencies(st, l, category, fs, cronOk).schedulers.Keys ==
      st.schedulers.Keys + Keys(FrequencyCalls(l, category, fs))
  {
    if fs != [] {
      var init := fs[..|fs| - 1];
      var f := fs[|fs| - 1];
      ArmFrequenciesKeys(st, l, category, init, cronOk);
      KeysUnion(FrequencyCalls(l, category, init), BucketCalls(l, category, f));
      match l(category, f)
      case None =>
      case Some(users) =>
        ArmUsersKeys(ArmFrequencies(st, l, category, init, cronOk), users, category, f, cronOk);
    }
  }

  lemma {:induction false} ArmFrequenciesRunning(st: RegistryState, l: Buckets, category: string, fs: seq<Frequency>,
                                                 cronOk: (int, string, Frequency) -> bool, keys: set<string>)
    requires Consistent(st) && Running(st, keys) && AlwaysOk(cronOk)
    ensures Running(ArmFrequencies(st, l, category, fs, cronOk), keys + Keys(FrequencyCalls(l, category, fs)))
  {
    if fs != [] {
      var init := fs[..|fs| - 1];
      var f := fs[|fs| - 1];
      ArmFrequenciesRunning(st, l, category, init, cronOk, keys);
      ArmFrequenciesConsistent(st, l, category, init, cronOk);
      KeysUnion(FrequencyCalls(l, category, init), BucketCalls(l, category, f));
      match l(category, f)
      case None =>
      case Some(users) =>
        ArmUsersRunning(ArmFrequencies(st, l, category, init, cronOk), users, category, f, cronOk,
                        keys + Keys(FrequencyCalls(l, category, init)));
    }
  }

  lemma {:induction false} ArmCategoriesConsistent(st: RegistryState, l: Buckets, cs: seq<string>,
                                                   cronOk: (int, string, Frequency) -> bool)
    requires Consistent(st)
    ensures Consistent(ArmCategories(st, l, cs, cronOk))
  {
    if cs != [] {
      var init := cs[..|cs| - 1];
      ArmCategoriesConsistent(st, l, init, cronOk);
      ArmFrequenciesConsistent(ArmCategories(st, l, init, cronOk), l, cs[|cs| - 1], Frequencies, cronOk);
    }
  }

  lemma {:induction false} ArmCategoriesKeys(st: RegistryState, l: Buckets, cs: seq<string>,
                                             cronOk: (int, string, Frequency) -> bool)
    requires AlwaysOk(cronOk)
    ensures ArmCategories(st, l, cs, cronOk).schedulers.Keys == st.schedulers.Keys + Keys(CategoryCalls(l, cs))
  {
    if cs != [] {
      var init := cs[..|cs| - 1];
      var c := cs[|cs| - 1];
      ArmCategoriesKeys(st, l, init, cronOk);
      KeysUnion(CategoryCalls(l, init), FrequencyCalls(l, c, Frequencies));
      ArmFrequenciesKeys(ArmCategories(st, l, init, cronOk), l, c, Frequencies, cronOk);
    }
  }

  lemma {:induction false} ArmCategoriesRunning(st: RegistryState, l: Buckets, cs: seq<string>,
                                                cronOk: (int, string, Frequency) -> bool, keys: set<string>)
    requires Consistent(st) && Running(st, keys) && AlwaysOk(cronOk)
    ensures Running(ArmCategories(st, l, cs, cronOk), keys + Keys(CategoryCalls(l, cs)))
  {
    if cs != [] {
      var init := cs[..|cs| - 1];
      var c := cs[|cs| - 1];
      ArmCategoriesRunning(st, l, init, cronOk, keys);
      ArmCategoriesConsistent(st, l, init, cronOk);
      KeysUnion(CategoryCalls(l, init), FrequencyCalls(l, c, Frequencies));
      ArmFrequenciesRunning(ArmCategories(st, l, init, cronOk), l, c, Frequencies, cronOk, keys + Keys(CategoryCalls(l, init)));
    }
  }

  /** What a start-up arms is exactly what the listings return: the keys afterwards are the
      keys before plus one per listed subscriber of each bucket that could be listed, and each
      of those has a running task. No key is removed. */
  lemma InitializedArmsListings(st: RegistryState, l: Buckets, cronOk: (int, string, Frequency) -> bool)
    requires Consistent(st) && AlwaysOk(cronOk)
    ensures var r := Initialized(st, l, cronOk);
      Consistent(r) && r.schedulers.Keys == st.schedulers.Keys + ArmedKeys(l) && Running(r, ArmedKeys(l))
  {
    ArmCategoriesConsistent(st, l, Categories, cronOk);
    ArmCategoriesKeys(st, l, Categories, cronOk);
    ArmCategoriesRunning(st, l, Categories, cronOk, {});
    CategoryCallsAreArmedCalls(l);
  }

  /** A second start-up against an unchanged store gives the same key set. */
  lemma InitializeTwiceSameKeys(st: RegistryState, l: Buckets, cronOk: (int, string, Frequency) -> bool)
    requires Consistent(st) && AlwaysOk(cronOk)
    ensures Initialized(Initialized(st, l, cronOk), l, cronOk).schedulers.Keys == Initialized(st, l, cronOk).schedulers.Keys
  {
    InitializedArmsListings(st, l, cronOk);
    InitializedArmsListings(Initialized(st, l, cronOk), l, cronOk);
  }

  /** A subscriber listed under a bucket gets that subscription's key, with a running task. */
  lemma ListedSubscriberArmed(st: RegistryState, l: Buckets, cronOk: (int, string, Frequency) -> bool,
                              category: string, frequency: Frequency, u: Subscriber)
    requires Consistent(st) && AlwaysOk(cronOk)
    requires category in Categories && l(category, frequency).Some? && u in l(category, frequency).value
    ensures Armed(Initialized(st, l, cronOk), Key(u.userId, category, frequency))
  {
    InitializedArmsListings(st, l, cronOk);
    assert frequency in Frequencies;
    assert Call(u.userId, category, frequency) in ArmedCalls(l);
    assert KeyOf(Call(u.userId, category, frequency)) in ArmedKeys(l);
  }

  // ---------------------------------------------------------------------------------------
  // sendScheduledContent

  const Bell: string := "🔔"

  /** `categoryEmojis[category] || "📱"`. */
  function CategoryEmoji(category: string): string {
    if category == "news" then "📰"
    else if category == "memes" then "😂"
    else if category == "videos" then "🎬"
    else if category == "weather" then "☀️"
    else if category == "sports" then "⚽"
    else if category == "social" then "🔥"
    else "📱"
  }

  /** The title of a category's notification. */
  function Title(lang: Language, category: string): string {
    if category == "news" then Pick(lang, "Daily News Update", "ዕለታዊ የዜና ዝማኔ")
    else if category == "memes" then Pick(lang, "Daily Memes Update", "ዕለታዊ ሚም ዝማኔ")
    else if category == "videos" then Pick(lang, "Daily Videos Update", "ዕለታዊ ቪዲዮ ዝማኔ")
    else if category == "weather" then Pick(lang, "Daily Weather Update", "ዕለታዊ የአየር ሁኔታ ዝማኔ")
    else if category == "sports" then Pick(lang, "Daily Sports Update", "ዕለታዊ የስፖርት ዝማኔ")
    else Pick(lang, "Daily Social Media Trends Update", "ዕለታዊ የማህበራዊ ሚዲያ ትረንድ ዝማኔ")
  }

  /** `${notificationEmoji} *title* ${categoryEmoji}`. */
  function Banner(lang: Language, category: string): string {
    Bell + " *" + Title(lang, category) + "* " + CategoryEmoji(category)
  }

  function NotAvailable(lang: Language, category: string): string {
    if lang == Am then Bell + " ዕለታዊ ዝማኔ ለ " + category + " ይዘት አይገኝም።"
    else Bell + " Daily update for " + category + " content is not available."
  }

  /** The news notification: the first 3 articles of `fetchNews()`. */
  function NewsNotification(gen: Model, src: Sources, lang: Language, userId: int): Message {
    Message(userId, Banner(lang, "news") + "\n\n" + Entries(Take(FetchNews("", src), 3), a => NewsEntry(gen, lang, a)),
            MarkdownPreviewOptions)
  }

  /** One message per meme, for the first 2 memes. */
  function MemeMessages(gen: Model, src: Sources, lang: Language, userId: int): (ms: seq<Message>)
    ensures |ms| == |Take(FetchMemes(src), 2)|
    ensures AllTo(ms, userId)
  {
    Map(Take(FetchMemes(src), 2), (m: Meme) => Message(userId, MemeText(gen, lang, m), MarkdownPreviewOptions))
  }

  function VideosNotification(gen: Model, src: Sources, lang: Language, userId: int): Message {
    Message(userId, Banner(lang, "videos") + "\n\n" + Entries(Take(FetchVideos("", src), 3), v => VideoEntry(gen, lang, v)),
            MarkdownOptions)
  }

  /** The weather of Addis Ababa. */
  function WeatherNotification(gen: Model, src: Sources, lang: Language, userId: int): Message {
    Message(userId, Banner(lang, "weather") + "\n\n" + WeatherLines(gen, lang, FetchWeather("Addis Ababa", src)), MarkdownOptions)
  }

  function SportsNotification(gen: Model, src: Sources, lang: Language, userId: int): Message {
    Message(userId, Banner(lang, "sports") + "\n\n" + Entries(Take(FetchSports("", src), 3), s => SportsEntry(gen, lang, s)),
            MarkdownOptions)
  }

  /** The first 5 trends. */
  function SocialNotification(gen: Model, src: Sources, lang: Language, userId: int): Message {
    Message(userId, Banner(lang, "social") + "\n\n" + Entries(Take(FetchSocialMedia(src), 5), t => TrendEntry(gen, lang, t)),
            MarkdownOptions)
  }

  /** The messages a notification for `category` consists of, in the order they are sent, all
      to the user's own chat (`userId` is the chat id): memes are a header and at most two meme
      messages, every other category one message, and a category outside the six gets the
      "not available" text. */
  function ScheduledMessages(gen: Model, src: Sources, lang: Language, userId: int, category: string): (ms: seq<Message>)
    ensures AllTo(ms, userId)
    ensures |ms| == if category == "memes" then 1 + |Take(FetchMemes(src), 2)| else 1
    ensures category !in Categories ==> ms == [Message(userId, NotAvailable(lang, category), NoOptions)]
  {
    AllToConcat([Message(userId, Banner(lang, "memes"), MarkdownOptions)], MemeMessages(gen, src, lang, userId), userId);
    if category == "news" then [NewsNotification(gen, src, lang, userId)]
    else if category == "memes" then [Message(userId, Banner(lang, "memes"), MarkdownOptions)] + MemeMessages(gen, src, lang, userId)
    else if category == "videos" then [VideosNotification(gen, src, lang, userId)]
    else if category == "weather" then [WeatherNotification(gen, src, lang, userId)]
    else if category == "sports" then [SportsNotification(gen, src, lang, userId)]
    else if category == "social" then [SocialNotification(gen, src, lang, userId)]
    else [Message(userId, NotAvailable(lang, category), NoOptions)]
  }

  /** With the bot's own memes a meme notification is the header and two memes. */
  lemma MemesNotificationSize(gen: Model, src: Sources, lang: Language, userId: int)
    requires src.demo == Demonstration
    ensures |ScheduledMessages(gen, src, lang, userId, "memes")| == 3
  {
    DemonstrationSizes();
  }

  /** A scheduled news digest carries the entries of the first 3 fetched articles and no
      others: every one of those entries appears in it. */
  lemma NewsNotificationCap(gen: Model, src: Sources, lang: Language, userId: int)
    ensures var news := Take(FetchNews("", src), 3);
      |news| <= 3 && news == FetchNews("", src)[..|news|] &&
      NewsNotification(gen, src, lang, userId).text == Banner(lang, "news") + "\n\n" + Entries(news, a => NewsEntry(gen, lang, a))
    ensures forall k | 0 <= k < |FetchNews("", src)| && k < 3 ::
      Contains(NewsNotification(gen, src, lang, userId).text, NewsEntry(gen, lang, FetchNews("", src)[k]))
  {
    var news := Take(FetchNews("", src), 3);
    var banner := Banner(lang, "news") + "\n\n";
    var body := Entries(news, a => NewsEntry(gen, lang, a));
    assert NewsNotification(gen, src, lang, userId).text == banner + body + "";
    forall k | 0 <= k < |FetchNews("", src)| && k < 3
      ensures Contains(NewsNotification(gen, src, lang, userId).text, NewsEntry(gen, lang, FetchNews("", src)[k]))
    {
      assert news[k] == FetchNews("", src)[k];
      DigestContainsEach(news, a => NewsEntry(gen, lang, a), k);
      ContainsWithin(body, NewsEntry(gen, lang, news[k]), banner, "");
    }
  }

  /** A scheduled video digest carries the entries of the first 3 fetched videos and no
      others: every one of those entries appears in it. */
  lemma VideosNotificationCap(gen: Model, src: Sources, lang: Language, userId: int)
    ensures var videos := Take(FetchVideos("", src), 3);
      |videos| <= 3 && videos == FetchVideos("", src)[..|videos|] &&
      VideosNotification(gen, src, lang, userId).text == Banner(lang, "videos") + "\n\n" + Entries(videos, v => VideoEntry(gen, lang, v))
    ensures forall k | 0 <= k < |FetchVideos("", src)| && k < 3 ::
      Contains(VideosNotification(gen, src, lang, userId).text, VideoEntry(gen, lang, FetchVideos("", src)[k]))
  {
    var videos := Take(FetchVideos("", src), 3);
    var banner := Banner(lang, "videos") + "\n\n";
    var body := Entries(videos, v => VideoEntry(gen, lang, v));
    assert VideosNotification(gen, src, lang, userId).text == banner + body + "";
    forall k | 0 <= k < |FetchVideos("", src)| && k < 3
      ensures Contains(VideosNotification(gen, src, lang, userId).text, VideoEntry(gen, lang, FetchVideos("", src)[k]))
    {
      assert videos[k] == FetchVideos("", src)[k];
      DigestContainsEach(videos, v => VideoEntry(gen, lang, v), k);
      ContainsWithin(body, VideoEntry(gen, lang, videos[k]), banner, "");
    }
  }

  /** A scheduled sports digest carries the entries of the first 3 fetched results and no
      others: every one of those entries appears in it. */
  lemma SportsNotificationCap(gen: Model, src: Sources, lang: Language, userId: int)
    ensures var games := Take(FetchSports("", src), 3);
      |games| <= 3 && games == FetchSports("", src)[..|games|] &&
      SportsNotification(gen, src, lang, userId).text == Banner(lang, "sports") + "\n\n" + Entries(games, s => SportsEntry(gen, lang, s))
    ensures forall k | 0 <= k < |FetchSports("", src)| && k < 3 ::
      Contains(SportsNotification(gen, src, lang, userId).text, SportsEntry(gen, lang, FetchSports("", src)[k]))
  {
    var games := Take(FetchSports("", src), 3);
    var banner := Banner(lang, "sports") + "\n\n";
    var body := Entries(games, s => SportsEntry(gen, lang, s));
    assert SportsNotification(gen, src, lang, userId).text == banner + body + "";
    forall k | 0 <= k < |FetchSports("", src)| && k < 3
      ensures Contains(SportsNotification(gen, src, lang, userId).text, SportsEntry(gen, lang, FetchSports("", src)[k]))
    {
      assert games[k] == FetchSports("", src)[k];
      DigestContainsEach(games, s => SportsEntry(gen, lang, s), k);
      ContainsWithin(body, SportsEntry(gen, lang, games[k]), banner, "");
    }
  }

  /** A scheduled trends digest lists the first 5 trends, each with its count. */
  lemma SocialNotificationCap(gen: Model, src: Sources, lang: Language, userId: int)
    ensures var trends := Take(FetchSocialMedia(src), 5);
      |trends| <= 5 && trends == FetchSocialMedia(src)[..|trends|]
    ensures forall k | 0 <= k < |FetchSocialMedia(src)| && k < 5 ::
      Contains(SocialNotification(gen, src, lang, userId).text, TrendEntry(gen, lang, FetchSocialMedia(src)[k]))
  {
    var trends := Take(FetchSocialMedia(src), 5);
    var banner := Banner(lang, "social") + "\n\n";
    var body := Entries(trends, t => TrendEntry(gen, lang, t));
    assert SocialNotification(gen, src, lang, userId).text == banner + body + "";
    forall k | 0 <= k < |FetchSocialMedia(src)| && k < 5
      ensures Contains(SocialNotification(gen, src, lang, userId).text, TrendEntry(gen, lang, FetchSocialMedia(src)[k]))
    {
      assert trends[k] == FetchSocialMedia(src)[k];
      DigestContainsEach(trends, t => TrendEntry(gen, lang, t), k);
      ContainsWithin(body, TrendEntry(gen, lang, trends[k]), banner, "");
    }
  }

  /** The English weather notification shows temperature, condition, humidity and wind of
      Addis Ababa. */
  lemma WeatherNotificationEnglish(gen: Model, src: Sources, userId: int)
    ensures var w := FetchWeather("Addis Ababa", src);
      var text := WeatherNotification(gen, src, En, userId).text;
      Contains(text, TemperatureText(w) + "°C") && Contains(text, ConditionText(gen, En, w)) &&
      Contains(text, HumidityText(w) + "%") && Contains(text, WindText(w) + " km/h")
  {
    var w := FetchWeather("Addis Ababa", src);
    var head := Banner(En, "weather") + "\n\n";
    var lines := WeatherLines(gen, En, w);
    WeatherLinesEnglish(gen, w);
    assert WeatherNotification(gen, src, En, userId).text == head + lines + "";
    ContainsWithin(lines, TemperatureText(w) + "°C", head, "");
    ContainsWithin(lines, ConditionText(gen, En, w), head, "");
    ContainsWithin(lines, HumidityText(w) + "%", head, "");
    ContainsWithin(lines, WindText(w) + " km/h", head, "");
  }

  lemma EnglishMemesIgnoreModel(g1: Model, g2: Model, src: Sources, userId: int)
    ensures MemeMessages(g1, src, En, userId) == MemeMessages(g2, src, En, userId)
  {
    var m1 := MemeMessages(g1, src, En, userId);
    var m2 := MemeMessages(g2, src, En, userId);
    forall k | 0 <= k < |m1|
      ensures m1[k] == m2[k]
    {
      var m := Take(FetchMemes(src), 2)[k];
      assert MemeText(g1, En, m) == MemeText(g2, En, m);
    }
  }

  /** An English notification makes no model call. */
  lemma EnglishNotificationIgnoresModel(g1: Model, g2: Model, src: Sources, userId: int, category: string)
    ensures ScheduledMessages(g1, src, En, userId, category) == ScheduledMessages(g2, src, En, userId, category)
  {
    EnglishDigestIgnoresModel(g1, g2, Take(FetchNews("", src), 3), Take(FetchVideos("", src), 3),
                              Take(FetchSports("", src), 3), Take(FetchSocialMedia(src), 5));
    if category == "news" {
      assert NewsNotification(g1, src, En, userId) == NewsNotification(g2, src, En, userId);
    } else if category == "memes" {
      EnglishMemesIgnoreModel(g1, g2, src, userId);
    } else if category == "videos" {
      assert VideosNotification(g1, src, En, userId) == VideosNotification(g2, src, En, userId);
    } else if category == "weather" {
      assert WeatherLines(g1, En, FetchWeather("Addis Ababa", src)) == WeatherLines(g2, En, FetchWeather("Addis Ababa", src));
    } else if category == "sports" {
      assert SportsNotification(g1, src, En, userId) == SportsNotification(g2, src, En, userId);
    } else if category == "social" {
      assert SocialNotification(g1, src, En, userId) == SocialNotification(g2, src, En, userId);
    }
  }

  // ---------------------------------------------------------------------------------------
  // The registry

  class Registry {
    var tasks: map<nat, Task>
    var schedulers: map<string, nat>
    var order: seq<string>
    var nextId: nat

    function State(): RegistryState
      reads this
    {
      RegistryState(tasks, schedulers, order, nextId)
    }

    predicate Valid()
      reads this
    {
      Consistent(State())
    }

    /** The module-level `const schedulers = {}`. */
    constructor ()
      ensures State() == Empty && Valid()
    {
      tasks := map[];
      schedulers := map[];
      order := [];
      nextId := 0;
    }

    /** `scheduleNotification(userId, category, frequency)`: answers true, or false when
        `cron.schedule` throws. */
    method ScheduleNotification(userId: int, category: string, frequency: Frequency, cronOk: bool) returns (ok: bool)
      requires Valid()
      modifies this
      ensures Valid()
      ensures State() == Scheduled(old(State()), userId, category, frequency, cronOk)
      ensures ok == cronOk
    {
      ScheduledConsistent(State(), userId, category, frequency, cronOk);
      var key := Key(userId, category, frequency);
      if key in schedulers {
        var id := schedulers[key];
        tasks := tasks[id := tasks[id].(running := false)];
        schedulers := schedulers - {key};
        order := Remove(order, key);
      }
      if !cronOk {
        return false;
      }
      tasks := tasks[nextId := Task(Expression(frequency), Timezone, userId, category, true)];
      schedulers := schedulers[key := nextId];
      order := order + [key];
      nextId := nextId + 1;
      ok := true;
    }

    /** `getSchedulerStatus()`. */
    function GetSchedulerStatus(): (s: Status)
      reads this
      requires Valid()
      ensures s.active == |schedulers.Keys|
      ensures forall k :: k in s.schedulers <==> k in schedulers
    {
      StatusCountsKeys(State());
      GetStatus(State())
    }

    /** `Object.values(schedulers).forEach(s => s.stop())`. */
    method StopAllSchedulers()
      requires Valid()
      modifies this
      ensures Valid()
      ensures State() == Stopped(old(State()))
    {
      var i := 0;
      ghost var done: set<nat> := {};
      while i < |order|
        invariant 0 <= i <= |order| && schedulers == old(schedulers) && order == old(order) && nextId == old(nextId)
        invariant tasks.Keys == old(tasks).Keys
        invariant forall id | id in done :: id in schedulers.Values
        invariant forall j | 0 <= j < i :: schedulers[order[j]] in done
        invariant forall id | id in tasks :: tasks[id] == if id in done then old(tasks)[id].(running := false) else old(tasks)[id]
      {
        var id := schedulers[order[i]];
        tasks := tasks[id := tasks[id].(running := false)];
        done := done + {id};
        i := i + 1;
      }
      forall id | id in schedulers.Values
        ensures id in done
      {
        var k :| k in schedulers && schedulers[k] == id;
        var j :| 0 <= j < |order| && order[j] == k;
      }
      assert tasks == Stopped(old(State())).tasks;
    }

    /** The innermost loop of `initializeSchedulers`: one `scheduleNotification` per listed
        user. */
    method ScheduleUsers(users: seq<Subscriber>, category: string, frequency: Frequency, cronOk: (int, string, Frequency) -> bool)
      requires Valid()
      modifies this
      ensures Valid()
      ensures State() == ArmUsers(old(State()), users, category, frequency, cronOk)
    {
      var ui := 0;
      while ui < |users|
        invariant 0 <= ui <= |users| && Valid()
        invariant State() == ArmUsers(old(State()), users[..ui], category, frequency, cronOk)
      {
        assert users[..ui + 1][..ui] == users[..ui];
        var ok := ScheduleNotification(users[ui].userId, category, frequency, cronOk(users[ui].userId, category, frequency));
        ui := ui + 1;
      }
      assert users[..|users|] == users;
    }

    /** The frequencies loop of `initializeSchedulers` for one category; a throwing listing
        is caught and its bucket skipped. */
    method ScheduleCategory(db: Database, category: string, listingFails: (string, Frequency) -> bool,
                            cronOk: (int, string, Frequency) -> bool)
      requires Valid()
      modifies this
      ensures Valid()
      ensures State() == ArmFrequencies(old(State()), StoreBuckets(db.preferences, db.categories, db.subscriptions, listingFails),
                                        category, Frequencies, cronOk)
    {
      var l := StoreBuckets(db.preferences, db.categories, db.subscriptions, listingFails);
      var fi := 0;
      while fi < |Frequencies|
        invariant 0 <= fi <= |Frequencies| && Valid()
        invariant State() == ArmFrequencies(old(State()), l, category, Frequencies[..fi], cronOk)
      {
        var frequency := Frequencies[fi];
        var listed := db.UsersWithSubscription(category, frequency, listingFails(category, frequency));
        assert listed == l(category, frequency);
        if listed.Some? {
          ScheduleUsers(listed.value, category, frequency, cronOk);
        }
        assert Frequencies[..fi + 1][..fi] == Frequencies[..fi];
        fi := fi + 1;
      }
      assert Frequencies[..|Frequencies|] == Frequencies;
    }

    /** `initializeSchedulers()`: every category and frequency in turn. */
    method InitializeSchedulers(db: Database, listingFails: (string, Frequency) -> bool, cronOk: (int, string, Frequency) -> bool)
      requires Valid()
      modifies this
      ensures Valid()
      ensures State() == Initialized(old(State()), StoreBuckets(db.preferences, db.categories, db.subscriptions, listingFails), cronOk)
    {
      var l := StoreBuckets(db.preferences, db.categories, db.subscriptions, listingFails);
      var ci := 0;
      while ci < |Categories|
        invariant 0 <= ci <= |Categories| && Valid()
        invariant State() == ArmCategories(old(State()), l, Categories[..ci], cronOk)
      {
        ScheduleCategory(db, Categories[ci], listingFails, cronOk);
        assert Categories[..ci + 1][..ci] == Categories[..ci];
        ci := ci + 1;
      }
      assert Categories[..|Categories|] == Categories;
    }
  }

  /** `sendScheduledContent(userId, category)`: the user's language is read when the task
      fires; the messages are sent in order, and a failing send ends the notification, its
      error swallowed. */
  method SendScheduledContent(userId: int, category: string, db: Database, bot: Bot, gen: Model, src: Sources, prefFailAt: nat)
    modifies bot
    ensures bot.sent == old(bot.sent) + SendAll(bot.api, ScheduledMessages(gen, src,
      ReadPreference(db.preferences, db.categories, db.subscriptions, userId, prefFailAt).language, userId, category))
  {
    var pref := db.GetUserPreference(userId, prefFailAt);
    SendNotification(pref.language, userId, category, bot, gen, src);
  }

  /** The body of `sendScheduledContent` past the language lookup: the category's messages,
      each digest built by its `text +=` loop, sent in order (for memes the header, then each
      meme). */
  method SendNotification(lang: Language, userId: int, category: string, bot: Bot, gen: Model, src: Sources)
    modifies bot
    ensures bot.sent == old(bot.sent) + SendAll(bot.api, ScheduledMessages(gen, src, lang, userId, category))
  {
    var ms: seq<Message>;
    if category == "news" {
      var text := Compose(Banner(lang, "news") + "\n\n", Take(FetchNews("", src), 3), a => NewsEntry(gen, lang, a));
      ms := [Message(userId, text, MarkdownPreviewOptions)];
    } else if category == "memes" {
      ms := [Message(userId, Banner(lang, "memes"), MarkdownOptions)] + MemeMessages(gen, src, lang, userId);
    } else if category == "videos" {
      var text := Compose(Banner(lang, "videos") + "\n\n", Take(FetchVideos("", src), 3), v => VideoEntry(gen, lang, v));
      ms := [Message(userId, text, MarkdownOptions)];
    } else if category == "weather" {
      var text := Banner(lang, "weather") + "\n\n" + WeatherLines(gen, lang, FetchWeather("Addis Ababa", src));
      ms := [Message(userId, text, MarkdownOptions)];
    } else if category == "sports" {
      var text := Compose(Banner(lang, "sports") + "\n\n", Take(FetchSports("", src), 3), s => SportsEntry(gen, lang, s));
      ms := [Message(userId, text, MarkdownOptions)];
    } else if category == "social" {
      var text := Compose(Banner(lang, "social") + "\n\n", Take(FetchSocialMedia(src), 5), t => TrendEntry(gen, lang, t));
      ms := [Message(userId, text, MarkdownOptions)];
    } else {
      ms := [Message(userId, NotAvailable(lang, category), NoOptions)];
    }
    assert ms == ScheduledMessages(gen, src, lang, userId, category);
    var ok := bot.SendEach(ms);
  }

  /** A fire of task `id`: node-cron runs only a running task. Its callback sends the
      notification and then stamps `last_sent_at`, whatever became of the sending, because
      `sendScheduledContent` swallows its errors; an error of the stamp is logged and the
      task stays registered. */
  method Fire(registry: Registry, id: nat, db: Database, bot: Bot, gen: Model, src: Sources,
              prefFailAt: nat, now: int, stampFails: bool)
    requires db.Valid()
    modifies db, bot
    ensures db.Valid()
    ensures db.users == old(db.users) && db.preferences == old(db.preferences)
    ensures db.categories == old(db.categories) && db.interactions == old(db.interactions)
    ensures id in registry.tasks && registry.tasks[id].running ==>
      var t := registry.tasks[id];
      var lang := ReadPreference(old(db.preferences), old(db.categories), old(db.subscriptions), t.userId, prefFailAt).language;
      && bot.sent == old(bot.sent) + SendAll(bot.api, ScheduledMessages(gen, src, lang, t.userId, t.category))
      && db.subscriptions == if stampFails then old(db.subscriptions)
                             else Touched(old(db.subscriptions), db.categories, t.userId, t.category, now)
    ensures !(id in registry.tasks && registry.tasks[id].running) ==>
      bot.sent == old(bot.sent) && db.subscriptions == old(db.subscriptions)
  {
    if id in registry.tasks && registry.tasks[id].running {
      var t := registry.tasks[id];
      SendScheduledContent(t.userId, t.category, db, bot, gen, src, prefFailAt);
      var stamped := db.UpdateLastNotified(t.userId, t.category, now, stampFails);
    }
  }
}
