/** The allocation and outcome engine: sticky per-session assignment of a test's option
    (`measure!`, `spin!`), the spin protocol, win/loss recording, and read-side
    introspection over the counter store.

    Every operation that changes the store or the session is a method whose new state is a
    pure function of the old one (`SpinSpec`, `MeasureSpec`, `WinSpec`, ...); the properties
    the engine promises are lemmas about those functions. */
module Whiplash {
  import opened Keys
  import opened Bandit
  import opened Redis
  import opened Sessions

  datatype Option<T> = None | Some(value: T)

  /** What an assignment call returns and the state it leaves behind. */
  datatype Assignment = Assignment(
    choice: string,
    counters: map<string, int>,
    sets: map<string, set<string>>,
    session: map<string, string>)

  /** What `all_tests` reports per test: its goal and the options that have a spins
      counter. */
  datatype TestInfo = TestInfo(goal: string, options: seq<string>)

  // ---------------------------------------------------------------------------------------
  // Reading the option table

  /** The keys of a hash filled from `s`: every element of `s`, each once. */
  function Dedup(s: seq<string>): (d: seq<string>)
    ensures forall x :: x in d <==> x in s
    ensures forall i, j :: 0 <= i < j < |d| ==> d[i] != d[j]
  {
    if s == [] then []
    else
      var n := |s| - 1;
      var d := Dedup(s[..n]);
      assert s == s[..n] + [s[n]];
      if s[n] in d then d else d + [s[n]]
  }

  function ArmFor(counters: map<string, int>, test: string, option: string): Arm {
    Arm(option, Stats(Read(counters, SpinsKey(test, option)), Read(counters, WinsKey(test, option))))
  }

  /** The table `data_for_options` builds: its options are exactly the given ones, each
      once, and each carries the spins and wins counters of that option, absent counters
      reading as 0. */
  function TableFor(counters: map<string, int>, test: string, options: seq<string>): (table: seq<Arm>)
    ensures |options| > 0 ==> |table| > 0
    ensures forall o :: o in options <==> exists i :: 0 <= i < |table| && table[i].option == o
    ensures forall i, j :: 0 <= i < j < |table| ==> table[i].option != table[j].option
    ensures forall i :: 0 <= i < |table| ==>
      table[i].stats == Stats(Read(counters, SpinsKey(test, table[i].option)), Read(counters, WinsKey(test, table[i].option)))
  {
    var keys := Dedup(options);
    var table := seq(|keys|, i requires 0 <= i < |keys| => ArmFor(counters, test, keys[i]));
    assert forall o :: o in options ==> exists i :: 0 <= i < |table| && table[i].option == o by {
      forall o | o in options ensures exists i :: 0 <= i < |table| && table[i].option == o {
        var i :| 0 <= i < |keys| && keys[i] == o;
        assert table[i].option == o;
      }
    }
    table
  }

  /** `data_for_options`: reads `[spins, wins]` for each option into a hash. */
  method DataForOptions(store: Store, test: string, options: seq<string>) returns (table: seq<Arm>)
    ensures table == TableFor(store.counters, test, options)
  {
    table := [];
    for i := 0 to |options|
      invariant table == TableFor(store.counters, test, options[..i])
    {
      var o := options[i];
      var arm := Arm(o, Stats(store.Get(SpinsKey(test, o)), store.Get(WinsKey(test, o))));
      assert options[..i + 1] == options[..i] + [o];
      assert options[..i + 1][..i] == options[..i];
      if j :| 0 <= j < |table| && table[j].option == o {
        // the key is already in the hash: its value is overwritten with an equal one
        table := table[j := arm];
      } else {
        table := table + [arm];
      }
    }
    assert options[..|options|] == options;
  }

  // ---------------------------------------------------------------------------------------
  // The spin protocol and the two assignment entry points

  /** `spin_for_choice`: one more spin on the chosen option, and the choice recorded in the
      session. */
  function SpinForChoiceSpec(
    counters: map<string, int>, sets: map<string, set<string>>, session: map<string, string>,
    test: string, choice: string): Assignment
  {
    Assignment(choice, Incremented(counters, SpinsKey(test, choice)), sets, session[test := choice])
  }

  /** `measure!` keeps a stored assignment that is still one of the options. */
  predicate MeasureSticky(session: map<string, string>, test: string, options: seq<string>) {
    test in session && session[test] in options
  }

  /** `measure!`, with `options.sample` given as the oracle `pick`. */
  function MeasureSpec(
    counters: map<string, int>, sets: map<string, set<string>>, session: map<string, string>,
    test: string, options: seq<string>, pick: nat): Assignment
    requires |options| > 0
  {
    if MeasureSticky(session, test, options) then
      Assignment(session[test], counters, sets, session)
    else
      SpinForChoiceSpec(counters, sets, session, test, options[pick % |options|])
  }

  /** `spin!` keeps a stored assignment that is still one of the options, or any stored
      assignment when the session is in manual mode. */
  predicate SpinSticky(session: map<string, string>, test: string, options: seq<string>) {
    test in session && (session[test] in options || ManualMode in session)
  }

  /** `spin!`, with the Beta samples and the tie-breaking pick given as oracles. */
  function SpinSpec(
    counters: map<string, int>, sets: map<string, set<string>>, session: map<string, string>,
    test: string, goal: string, options: seq<string>, draw: Draw, pick: nat): Assignment
    requires |options| > 0
  {
    if SpinSticky(session, test, options) then
      Assignment(session[test], counters, sets, session)
    else if |options| == 1 then
      Assignment(options[0], counters, sets, session)
    else
      var registered := AddMember(sets, GoalKey(goal), test);
      var choice := BestChoice(TableFor(counters, test, options), draw, pick);
      SpinForChoiceSpec(counters, registered, session, test, choice)
  }

  method SpinForChoice(store: Store, session: Session, test: string, choice: string) returns (r: string)
    modifies store, session
    ensures var after := SpinForChoiceSpec(old(store.counters), old(store.sets), old(session.entries), test, choice);
      r == after.choice && store.counters == after.counters && store.sets == after.sets &&
      session.entries == after.session
  {
    var spins := store.Incr(SpinsKey(test, choice));
    session.entries := session.entries[test := choice];
    r := choice;
  }

  method Measure(store: Store, session: Session, test: string, options: seq<string>, pick: nat)
    returns (choice: string)
    requires |options| > 0
    modifies store, session
    ensures var after := MeasureSpec(old(store.counters), old(store.sets), old(session.entries), test, options, pick);
      choice == after.choice && store.counters == after.counters && store.sets == after.sets &&
      session.entries == after.session
  {
    if test in session.entries && session.entries[test] in options {
      return session.entries[test];
    }
    choice := options[pick % |options|];
    choice := SpinForChoice(store, session, test, choice);
  }

  method Spin(store: Store, session: Session, test: string, goal: string, options: seq<string>, draw: Draw, pick: nat)
    returns (choice: string)
    requires |options| > 0
    modifies store, session
    ensures var after := SpinSpec(old(store.counters), old(store.sets), old(session.entries), test, goal, options, draw, pick);
      choice == after.choice && store.counters == after.counters && store.sets == after.sets &&
      session.entries == after.session
  {
    if test in session.entries && (session.entries[test] in options || ManualMode in session.entries) {
      return session.entries[test];
    }
    if |options| == 1 {
      return options[0];
    }
    store.SAdd(GoalKey(goal), test);
    var table := DataForOptions(store, test, options);
    choice := BestGuess(table, draw, pick);
    choice := SpinForChoice(store, session, test, choice);
  }

  // ---------------------------------------------------------------------------------------
  // Outcome recording

  function Lookup(session: map<string, string>, key: string): Option<string> {
    if key in session then Some(session[key]) else None
  }

  /** `win_on_option!`: nothing for a nil choice, otherwise one more win. */
  function WinOnOptionSpec(counters: map<string, int>, test: string, choice: Option<string>): map<string, int> {
    match choice
    case None => counters
    case Some(c) => Incremented(counters, WinsKey(test, c))
  }

  /** `lose_on_option!`: nothing for a nil choice, otherwise one win fewer. */
  function LoseOnOptionSpec(counters: map<string, int>, test: string, choice: Option<string>): map<string, int> {
    match choice
    case None => counters
    case Some(c) => Decremented(counters, WinsKey(test, c))
  }

  /** The tests among `tests` whose recorded choice counts its wins on `key`. */
  function Credited(tests: set<string>, session: map<string, string>, key: string): set<string> {
    set t | t in tests && t in session && WinsKey(t, session[t]) == key
  }

  function CreditedKeys(tests: set<string>, session: map<string, string>): set<string> {
    set t | t in tests && t in session :: WinsKey(t, session[t])
  }

  /** The counters after `win_on_option!` for every test of `tests`, in any order: each
      wins counter goes up by the number of those tests whose recorded choice counts on it. */
  function CreditAll(counters: map<string, int>, tests: set<string>, session: map<string, string>): (after: map<string, int>)
    ensures forall k :: Read(after, k) == Read(counters, k) + |Credited(tests, session, k)|
  {
    forall k, t | t in Credited(tests, session, k) ensures k in CreditedKeys(tests, session) {
      assert WinsKey(t, session[t]) == k;
    }
    map k | k in counters.Keys + CreditedKeys(tests, session) :: Read(counters, k) + |Credited(tests, session, k)|
  }

  /** `win!`: every test registered under the goal is credited with the session's choice. */
  function WinSpec(counters: map<string, int>, sets: map<string, set<string>>, session: map<string, string>, goal: string): map<string, int> {
    CreditAll(counters, Members(sets, GoalKey(goal)), session)
  }

  method WinOnOption(store: Store, test: string, choice: Option<string>)
    modifies store
    ensures store.counters == WinOnOptionSpec(old(store.counters), test, choice)
    ensures store.sets == old(store.sets)
  {
    if choice.None? {
      return;
    }
    var wins := store.Incr(WinsKey(test, choice.value));
  }

  method LoseOnOption(store: Store, test: string, choice: Option<string>)
    modifies store
    ensures store.counters == LoseOnOptionSpec(old(store.counters), test, choice)
    ensures store.sets == old(store.sets)
  {
    if choice.None? {
      return;
    }
    var wins := store.Decr(WinsKey(test, choice.value));
  }

  /** Two counter maps with the same keys that read alike are equal. */
  lemma ReadExtensional(a: map<string, int>, b: map<string, int>)
    requires a.Keys == b.Keys
    requires forall k :: Read(a, k) == Read(b, k)
    ensures a == b
  {
    forall k | k in a.Keys ensures a[k] == b[k] {
      assert Read(a, k) == Read(b, k);
    }
  }

  lemma CreditedStep(done: set<string>, t: string, session: map<string, string>, k: string)
    requires t !in done
    ensures |Credited(done + {t}, session, k)| ==
      |Credited(done, session, k)| + (if t in session && WinsKey(t, session[t]) == k then 1 else 0)
  {
    if t in session && WinsKey(t, session[t]) == k {
      assert Credited(done + {t}, session, k) == Credited(done, session, k) + {t};
    } else {
      assert Credited(done + {t}, session, k) == Credited(done, session, k);
    }
  }

  lemma CreditedKeysStep(done: set<string>, t: string, session: map<string, string>)
    ensures CreditedKeys(done + {t}, session) ==
      CreditedKeys(done, session) + (if t in session then {WinsKey(t, session[t])} else {})
  {
  }

  /** Crediting one more test is one more `win_on_option!`. */
  lemma CreditStep(counters: map<string, int>, done: set<string>, t: string, session: map<string, string>)
    requires t !in done
    ensures CreditAll(counters, done + {t}, session) == WinOnOptionSpec(CreditAll(counters, done, session), t, Lookup(session, t))
  {
    var before := CreditAll(counters, done, session);
    var after := CreditAll(counters, done + {t}, session);
    var step := WinOnOptionSpec(before, t, Lookup(session, t));
    forall k ensures Read(after, k) == Read(step, k) {
      CreditedStep(done, t, session, k);
    }
    CreditedKeysStep(done, t, session);
    ReadExtensional(after, step);
  }

  method Win(store: Store, session: Session, goal: string)
    modifies store
    ensures store.counters == WinSpec(old(store.counters), old(store.sets), session.entries, goal)
    ensures store.sets == old(store.sets)
  {
    ghost var start := store.counters;
    ghost var entries := session.entries;
    var members := store.SMembers(GoalKey(goal));
    var todo := members;
    ghost var done: set<string> := {};
    ReadExtensional(CreditAll(start, done, entries), start);
    while todo != {}
      invariant todo <= members && done == members - todo
      invariant store.sets == old(store.sets) && session.entries == entries
      invariant store.counters == CreditAll(start, done, entries)
      decreases todo
    {
      var t :| t in todo;
      CreditStep(start, done, t, entries);
      WinOnOption(store, t, Lookup(session.entries, t));
      todo := todo - {t};
      done := done + {t};
    }
    assert done == Members(old(store.sets), GoalKey(goal));
  }

  // ---------------------------------------------------------------------------------------
  // Introspection

  /** `spins_for`: the spins counter of an option, 0 when absent. */
  function SpinsFor(store: Store, test: string, option: string): (n: int)
    reads store
    ensures SpinsKey(test, option) !in store.counters ==> n == 0
    ensures SpinsKey(test, option) in store.counters ==> n == store.counters[SpinsKey(test, option)]
  {
    store.Get(SpinsKey(test, option))
  }

  /** `wins_for`: the wins counter of an option, 0 when absent, negative when losses
      outweigh wins. */
  function WinsFor(store: Store, test: string, option: string): (n: int)
    reads store
    ensures WinsKey(test, option) !in store.counters ==> n == 0
    ensures WinsKey(test, option) in store.counters ==> n == store.counters[WinsKey(test, option)]
  {
    store.Get(WinsKey(test, option))
  }

  /** Goal keys as `KEYS` lists them for the goals prefix. */
  function GoalKeys(sets: map<string, set<string>>): set<string> {
    set g | g in sets && Matches(g, GoalsPrefix, "")
  }

  /** The tests in the sets stored under the given keys. */
  function TestsUnder(sets: map<string, set<string>>, keys: set<string>): set<string> {
    set g, t | g in keys && g in sets && t in sets[g] :: t
  }

  lemma TestsUnderStep(sets: map<string, set<string>>, keys: set<string>, g: string)
    ensures TestsUnder(sets, keys + {g}) == TestsUnder(sets, keys) + Members(sets, g)
  {
  }

  /** Every test registered under some goal. */
  function RegisteredTests(sets: map<string, set<string>>): set<string> {
    TestsUnder(sets, GoalKeys(sets))
  }

  /** One goal of `all_tests`' first loop: each member of the goal's set is entered
      with that goal and no options yet, replacing an earlier entry. */
  method RecordGoal(store: Store, g: string, tests: map<string, TestInfo>) returns (after: map<string, TestInfo>)
    requires Matches(g, GoalsPrefix, "")
    ensures after.Keys == tests.Keys + Members(store.sets, g)
    ensures forall t :: t in Members(store.sets, g) ==> after[t] == TestInfo(GoalOf(g), [])
    ensures forall t :: t in tests && t !in Members(store.sets, g) ==> after[t] == tests[t]
  {
    after := tests;
    var members := store.SMembers(g);
    while members != {}
      invariant members <= Members(store.sets, g)
      invariant after.Keys == tests.Keys + (Members(store.sets, g) - members)
      invariant forall t :: t in Members(store.sets, g) - members ==> after[t] == TestInfo(GoalOf(g), [])
      invariant forall t :: t in tests && t !in Members(store.sets, g) - members ==> after[t] == tests[t]
      decreases members
    {
      var t :| t in members;
      after := after[t := TestInfo(GoalOf(g), [])];
      members := members - {t};
    }
  }

  /** The options listed for a test are exactly those with a spins counter, each once. */
  ghost predicate ListsSpunOptions(counters: map<string, int>, t: string, options: seq<string>) {
    && (forall o :: o in options <==> SpinsKey(t, o) in counters)
    && (forall i, j :: 0 <= i < j < |options| ==> options[i] != options[j])
  }

  /** The options of one test in `all_tests`' second loop: the option part of every spins
      key under the test's prefix, each once. */
  method ListOptions(store: Store, t: string) returns (options: seq<string>)
    ensures ListsSpunOptions(store.counters, t, options)
  {
    options := [];
    var prefix := TestPrefix(t);
    var listed := set k | k in store.counters && Matches(k, prefix, SpinsSuffix);
    ghost var done: set<string> := {};
    while listed != {}
      invariant listed + done == set k | k in store.counters && Matches(k, prefix, SpinsSuffix)
      invariant listed !! done
      invariant forall o :: o in options <==> SpinsKey(t, o) in done
      invariant forall i, j :: 0 <= i < j < |options| ==> options[i] != options[j]
      decreases listed
    {
      var k :| k in listed;
      options := options + [OptionOf(t, k)];
      listed := listed - {k};
      done := done + {k};
    }
    forall o ensures SpinsKey(t, o) in done <==> SpinsKey(t, o) in store.counters {
      SpinsKeyRoundTrip(t, o);
    }
  }

  /** The first loop of `all_tests`: every registered test, entered with (one of) its
      goal(s) and no options yet. */
  method CollectTests(store: Store) returns (tests: map<string, TestInfo>)
    ensures tests.Keys == RegisteredTests(store.sets)
    ensures forall t :: t in tests ==> tests[t].options == [] && t in Members(store.sets, GoalKey(tests[t].goal))
  {
    tests := map[];
    var goalKeys := GoalKeys(store.sets);
    ghost var done: set<string> := {};
    while goalKeys != {}
      invariant goalKeys + done == GoalKeys(store.sets)
      invariant tests.Keys == TestsUnder(store.sets, done)
      invariant forall t :: t in tests ==> tests[t].options == [] && t in Members(store.sets, GoalKey(tests[t].goal))
      decreases goalKeys
    {
      var g :| g in goalKeys;
      TestsUnderStep(store.sets, done, g);
      tests := RecordGoal(store, g, tests);
      goalKeys := goalKeys - {g};
      done := done + {g};
    }
  }

  /** `all_tests`: every registered test with (one of) its goal(s) and the options that
      have a spins counter, each listed once. */
  method AllTests(store: Store) returns (tests: map<string, TestInfo>)
    ensures tests.Keys == RegisteredTests(store.sets)
    ensures forall t :: t in tests ==> t in Members(store.sets, GoalKey(tests[t].goal))
    ensures forall t :: t in tests ==> ListsSpunOptions(store.counters, t, tests[t].options)
  {
    tests := CollectTests(store);
    var pending := tests.Keys;
    while pending != {}
      invariant pending <= tests.Keys == RegisteredTests(store.sets)
      invariant forall t :: t in tests ==> t in Members(store.sets, GoalKey(tests[t].goal))
      invariant forall t :: t in tests && t !in pending ==> ListsSpunOptions(store.counters, t, tests[t].options)
      invariant forall t :: t in pending ==> tests[t].options == []
      decreases pending
    {
      var t :| t in pending;
      var options := ListOptions(store, t);
      tests := tests[t := tests[t].(options := tests[t].options + options)];
      assert tests[t].options == options;
      pending := pending - {t};
    }
  }
}
