/** What the engine promises, stated over the pure functions that give each operation's
    result and new state. */
module WhiplashProperties {
  import opened Keys
  import opened Bandit
  import opened Redis
  import opened Sessions
  import opened Whiplash

  /** Only the named counter moved, and by exactly `delta`. */
  ghost predicate OnlyMoved(before: map<string, int>, after: map<string, int>, key: string, delta: int) {
    forall k :: Read(after, k) == Read(before, k) + (if k == key then delta else 0)
  }

  // ---------------------------------------------------------------------------------------
  // measure!

  /** `measure!`: a stored assignment that is still an option is returned with no change;
      otherwise one of the options is chosen, its spins counter (and no other counter)
      goes up by one, and the choice is recorded in the session. */
  lemma MeasureOutcome(
    counters: map<string, int>, sets: map<string, set<string>>, session: map<string, string>,
    test: string, options: seq<string>, pick: nat)
    requires |options| > 0
    ensures var a := MeasureSpec(counters, sets, session, test, options, pick);
      if MeasureSticky(session, test, options) then
        a == Assignment(session[test], counters, sets, session)
      else
        && a.choice in options
        && OnlyMoved(counters, a.counters, SpinsKey(test, a.choice), 1)
        && a.sets == sets
        && a.session == session[test := a.choice]
  {
  }

  /** A second `measure!` with any oracle returns the first one's choice and changes
      nothing, so the pair counts at most one spin. */
  lemma MeasureIsSticky(
    counters: map<string, int>, sets: map<string, set<string>>, session: map<string, string>,
    test: string, options: seq<string>, pick: nat, pick2: nat)
    requires |options| > 0
    ensures var a := MeasureSpec(counters, sets, session, test, options, pick);
      MeasureSpec(a.counters, a.sets, a.session, test, options, pick2) == a
  {
  }

  // ---------------------------------------------------------------------------------------
  // spin!

  /** A sticky `spin!` returns the stored assignment (in manual mode even one that is no
      longer an option) and changes no counter, no goal set and no session entry. */
  lemma SpinKeepsAssignment(
    counters: map<string, int>, sets: map<string, set<string>>, session: map<string, string>,
    test: string, goal: string, options: seq<string>, draw: Draw, pick: nat)
    requires |options| > 0 && SpinSticky(session, test, options)
    ensures SpinSpec(counters, sets, session, test, goal, options, draw, pick) ==
      Assignment(session[test], counters, sets, session)
    ensures ManualMode !in session ==> session[test] in options
  {
  }

  /** With exactly one option and nothing sticky, `spin!` returns that option without
      registering the test, counting a spin or writing the session. */
  lemma SpinSingleOption(
    counters: map<string, int>, sets: map<string, set<string>>, session: map<string, string>,
    test: string, goal: string, options: seq<string>, draw: Draw, pick: nat)
    requires |options| == 1 && !SpinSticky(session, test, options)
    ensures SpinSpec(counters, sets, session, test, goal, options, draw, pick) ==
      Assignment(options[0], counters, sets, session)
  {
  }

  /** The general path of `spin!`: the test joins the goal's set, the choice is an option
      whose sample is the maximum over the option table, exactly its spins counter goes up
      by one (no wins counter moves), and the session records it. */
  lemma SpinFreshAssignment(
    counters: map<string, int>, sets: map<string, set<string>>, session: map<string, string>,
    test: string, goal: string, options: seq<string>, draw: Draw, pick: nat)
    requires |options| > 1 && !SpinSticky(session, test, options)
    ensures var a := SpinSpec(counters, sets, session, test, goal, options, draw, pick);
      && a.choice in options
      && IsBest(TableFor(counters, test, options), draw, a.choice)
      && Members(a.sets, GoalKey(goal)) == Members(sets, GoalKey(goal)) + {test}
      && (forall k :: k != GoalKey(goal) ==> Members(a.sets, k) == Members(sets, k))
      && OnlyMoved(counters, a.counters, SpinsKey(test, a.choice), 1)
      && (forall t, o :: Read(a.counters, WinsKey(t, o)) == Read(counters, WinsKey(t, o)))
      && a.session == session[test := a.choice]
  {
    var table := TableFor(counters, test, options);
    var a := SpinSpec(counters, sets, session, test, goal, options, draw, pick);
    BestChoiceIsBest(table, draw, pick);
    forall t, o ensures Read(a.counters, WinsKey(t, o)) == Read(counters, WinsKey(t, o)) {
      SpinsKeyIsNotWinsKey(test, a.choice, t, o);
    }
  }

  /** Registering the test again under the same goal has no further effect. */
  lemma SpinRegistersOnce(
    counters: map<string, int>, sets: map<string, set<string>>, session: map<string, string>,
    test: string, goal: string, options: seq<string>, draw: Draw, pick: nat)
    requires |options| > 1 && !SpinSticky(session, test, options)
    requires test in Members(sets, GoalKey(goal))
    ensures SpinSpec(counters, sets, session, test, goal, options, draw, pick).sets == sets
  {
    var key := GoalKey(goal);
    assert key in sets && sets[key] + {test} == sets[key];
    assert AddMember(sets, key, test) == sets;
  }

  /** After any `spin!`, a second one with any oracles returns the same choice and changes
      nothing: stickiness, and at most one spin counted for the pair of calls. */
  lemma {:induction false} SpinIsSticky(
    counters: map<string, int>, sets: map<string, set<string>>, session: map<string, string>,
    test: string, goal: string, options: seq<string>, draw: Draw, pick: nat, draw2: Draw, pick2: nat)
    requires |options| > 0
    ensures var a := SpinSpec(counters, sets, session, test, goal, options, draw, pick);
      SpinSpec(a.counters, a.sets, a.session, test, goal, options, draw2, pick2) == a
  {
    var a := SpinSpec(counters, sets, session, test, goal, options, draw, pick);
    if SpinSticky(session, test, options) {
      SpinKeepsAssignment(counters, sets, session, test, goal, options, draw, pick);
    } else if |options| == 1 {
      SpinSingleOption(counters, sets, session, test, goal, options, draw, pick);
      SpinSingleOption(a.counters, a.sets, a.session, test, goal, options, draw2, pick2);
    } else {
      SpinFreshAssignment(counters, sets, session, test, goal, options, draw, pick);
      assert SpinSticky(a.session, test, options);
    }
  }

  /** After a `spin!` that took the general path, the test is registered under a goal and
      its chosen option has a spins counter, so introspection lists both. */
  lemma SpinMakesTestVisible(
    counters: map<string, int>, sets: map<string, set<string>>, session: map<string, string>,
    test: string, goal: string, options: seq<string>, draw: Draw, pick: nat)
    requires |options| > 1 && !SpinSticky(session, test, options)
    ensures var a := SpinSpec(counters, sets, session, test, goal, options, draw, pick);
      test in RegisteredTests(a.sets) && SpinsKey(test, a.choice) in a.counters
  {
  }

  // ---------------------------------------------------------------------------------------
  // win_on_option!, lose_on_option!, win!

  /** `win_on_option!` does nothing for a nil choice; otherwise exactly the option's wins
      counter goes up by one, and no spins counter moves. */
  lemma WinOnOptionOutcome(counters: map<string, int>, test: string, choice: Option<string>)
    ensures choice.None? ==> WinOnOptionSpec(counters, test, choice) == counters
    ensures choice.Some? ==> OnlyMoved(counters, WinOnOptionSpec(counters, test, choice), WinsKey(test, choice.value), 1)
    ensures forall t, o :: Read(WinOnOptionSpec(counters, test, choice), SpinsKey(t, o)) == Read(counters, SpinsKey(t, o))
  {
    forall t, o ensures Read(WinOnOptionSpec(counters, test, choice), SpinsKey(t, o)) == Read(counters, SpinsKey(t, o)) {
      if choice.Some? {
        SpinsKeyIsNotWinsKey(t, o, test, choice.value);
      }
    }
  }

  /** `lose_on_option!` does nothing for a nil choice; otherwise exactly the option's wins
      counter goes down by one with no floor (from 0 it reaches -1), and no spins counter
      moves. */
  lemma LoseOnOptionOutcome(counters: map<string, int>, test: string, choice: Option<string>)
    ensures choice.None? ==> LoseOnOptionSpec(counters, test, choice) == counters
    ensures choice.Some? ==> OnlyMoved(counters, LoseOnOptionSpec(counters, test, choice), WinsKey(test, choice.value), -1)
    ensures choice.Some? && Read(counters, WinsKey(test, choice.value)) <= 0 ==>
      Read(LoseOnOptionSpec(counters, test, choice), WinsKey(test, choice.value)) < 0
    ensures forall t, o :: Read(LoseOnOptionSpec(counters, test, choice), SpinsKey(t, o)) == Read(counters, SpinsKey(t, o))
  {
    forall t, o ensures Read(LoseOnOptionSpec(counters, test, choice), SpinsKey(t, o)) == Read(counters, SpinsKey(t, o)) {
      if choice.Some? {
        SpinsKeyIsNotWinsKey(t, o, test, choice.value);
      }
    }
  }

  /** A loss recorded after a win on the same choice gives every counter its old reading. */
  lemma LoseUndoesWin(counters: map<string, int>, test: string, choice: Option<string>, k: string)
    ensures Read(LoseOnOptionSpec(WinOnOptionSpec(counters, test, choice), test, choice), k) == Read(counters, k)
  {
  }

  /** `win!` credits each test registered under the goal whose session has a choice: with
      slash-free test names, that choice's wins counter goes up by exactly one. */
  lemma {:induction false} WinCreditsAssignedTest(
    counters: map<string, int>, sets: map<string, set<string>>, session: map<string, string>,
    goal: string, test: string)
    requires test in Members(sets, GoalKey(goal)) && test in session
    requires forall t :: t in Members(sets, GoalKey(goal)) ==> NoSlash(t)
    ensures Read(WinSpec(counters, sets, session, goal), WinsKey(test, session[test])) ==
      Read(counters, WinsKey(test, session[test])) + 1
  {
    var members := Members(sets, GoalKey(goal));
    var key := WinsKey(test, session[test]);
    forall t | t in Credited(members, session, key) ensures t == test {
      WinsKeyInjective(t, session[t], test, session[test]);
    }
    assert Credited(members, session, key) == {test};
  }

  /** `win!` leaves alone every counter that no registered, assigned test counts its wins
      on: tests without a session entry are skipped, and no spins counter moves. */
  lemma WinSkipsOthers(
    counters: map<string, int>, sets: map<string, set<string>>, session: map<string, string>,
    goal: string, k: string)
    requires forall t :: t in Members(sets, GoalKey(goal)) && t in session ==> WinsKey(t, session[t]) != k
    ensures Read(WinSpec(counters, sets, session, goal), k) == Read(counters, k)
  {
  }

  /** No spins counter moves under `win!`. */
  lemma WinLeavesSpins(
    counters: map<string, int>, sets: map<string, set<string>>, session: map<string, string>,
    goal: string, test: string, option: string)
    ensures Read(WinSpec(counters, sets, session, goal), SpinsKey(test, option)) == Read(counters, SpinsKey(test, option))
  {
    forall t | t in Members(sets, GoalKey(goal)) && t in session
      ensures WinsKey(t, session[t]) != SpinsKey(test, option)
    {
      SpinsKeyIsNotWinsKey(test, option, t, session[t]);
    }
    WinSkipsOthers(counters, sets, session, goal, SpinsKey(test, option));
  }

  /** `win!` is not deduplicated: a second call for the same goal and session credits every
      counter again. */
  lemma WinCountsEveryCall(
    counters: map<string, int>, sets: map<string, set<string>>, session: map<string, string>,
    goal: string, k: string)
    ensures Read(WinSpec(WinSpec(counters, sets, session, goal), sets, session, goal), k) ==
      Read(counters, k) + 2 * (Read(WinSpec(counters, sets, session, goal), k) - Read(counters, k))
  {
  }

  /** A `spin!` that assigns option X of a test under a goal, followed by `win!` for that
      goal and session, adds exactly one win to X (slash-free test names under the goal). */
  lemma SpinThenWin(
    counters: map<string, int>, sets: map<string, set<string>>, session: map<string, string>,
    test: string, goal: string, options: seq<string>, draw: Draw, pick: nat)
    requires |options| > 1 && !SpinSticky(session, test, options)
    requires NoSlash(test) && forall t :: t in Members(sets, GoalKey(goal)) ==> NoSlash(t)
    ensures var a := SpinSpec(counters, sets, session, test, goal, options, draw, pick);
      Read(WinSpec(a.counters, a.sets, a.session, goal), WinsKey(test, a.choice)) ==
        Read(counters, WinsKey(test, a.choice)) + 1
  {
    var a := SpinSpec(counters, sets, session, test, goal, options, draw, pick);
    SpinFreshAssignment(counters, sets, session, test, goal, options, draw, pick);
    WinCreditsAssignedTest(a.counters, a.sets, a.session, goal, test);
  }

  // ---------------------------------------------------------------------------------------
  // Calling the engine twice on one store and session

  /** Two `spin!` calls for the same session and test return the same choice, and the
      store and session end as after the first call alone: one spin counted in total. */
  method SpinTwice(
    store: Store, session: Session, test: string, goal: string, options: seq<string>,
    draw: Draw, pick: nat, draw2: Draw, pick2: nat)
    returns (first: string, second: string)
    requires |options| > 0
    modifies store, session
    ensures var a := SpinSpec(old(store.counters), old(store.sets), old(session.entries), test, goal, options, draw, pick);
      first == a.choice && second == a.choice &&
      store.counters == a.counters && store.sets == a.sets && session.entries == a.session
  {
    ghost var counters, sets, entries := store.counters, store.sets, session.entries;
    first := Spin(store, session, test, goal, options, draw, pick);
    second := Spin(store, session, test, goal, options, draw2, pick2);
    SpinIsSticky(counters, sets, entries, test, goal, options, draw, pick, draw2, pick2);
  }

  /** A loss recorded on an option that has no wins yet leaves its wins counter at -1, and
      `wins_for` reads that value back. */
  method LoseBelowZero(store: Store, test: string, option: string) returns (wins: int)
    requires WinsKey(test, option) !in store.counters
    modifies store
    ensures wins == -1
  {
    LoseOnOption(store, test, Some(option));
    wins := WinsFor(store, test, option);
  }
}
