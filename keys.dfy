/** The key scheme the engine uses in the counter store.

    Per option of a test there are two integer counters, `whiplash/<test>/<option>/spins`
    and `whiplash/<test>/<option>/wins`; per goal there is one set of test names,
    `whiplash/goals/<goal>`. The introspection code takes keys apart again by slicing,
    which is modelled here by `GoalOf` and `OptionOf`. */
module Keys {

  const Root: string := "whiplash/"
  const GoalsPrefix: string := "whiplash/goals/"
  const SpinsSuffix: string := "/spins"
  const WinsSuffix: string := "/wins"

  /** `"whiplash/#{test}/"`, the prefix shared by every counter of a test. */
  function TestPrefix(test: string): string {
    Root + test + "/"
  }

  function SpinsKey(test: string, option: string): string {
    TestPrefix(test) + option + SpinsSuffix
  }

  function WinsKey(test: string, option: string): string {
    TestPrefix(test) + option + WinsSuffix
  }

  function GoalKey(goal: string): string {
    GoalsPrefix + goal
  }

  /** A key matches the glob `prefix*suffix` (the patterns handed to Redis KEYS):
      it starts with `prefix`, ends with `suffix`, and the two do not overlap. */
  predicate Matches(key: string, prefix: string, suffix: string) {
    && |prefix| + |suffix| <= |key|
    && key[..|prefix|] == prefix
    && key[|key| - |suffix|..] == suffix
  }

  predicate NoSlash(name: string) {
    '/' !in name
  }

  /** `g[15..-1]`: the goal name of a key listed by `KEYS` on the goals prefix. */
  function GoalOf(key: string): (goal: string)
    requires Matches(key, GoalsPrefix, "")
    ensures GoalKey(goal) == key
    ensures |goal| == |key| - |GoalsPrefix|
  {
    assert key == key[..15] + key[15..];
    key[15..]
  }

  /** `o[prefix.length..-suffix.length-1]`: the option name of a key listed by
      `KEYS` on the test prefix and the spins suffix. */
  function OptionOf(test: string, key: string): (option: string)
    requires Matches(key, TestPrefix(test), SpinsSuffix)
    ensures SpinsKey(test, option) == key
  {
    var p := |TestPrefix(test)|;
    var e := |key| - |SpinsSuffix|;
    assert key == key[..p] + key[p..e] + key[e..];
    key[p..e]
  }

  /** Every goal key is listed by `KEYS` on the goals prefix, and slicing gives the goal back. */
  lemma GoalKeyRoundTrip(goal: string)
    ensures Matches(GoalKey(goal), GoalsPrefix, "")
    ensures GoalOf(GoalKey(goal)) == goal
  {
  }

  /** Every spins key of a test is listed by `KEYS` on the test prefix and the spins suffix, and slicing
      gives the option back. */
  lemma SpinsKeyRoundTrip(test: string, option: string)
    ensures Matches(SpinsKey(test, option), TestPrefix(test), SpinsSuffix)
    ensures OptionOf(test, SpinsKey(test, option)) == option
  {
  }

  /** Two test prefixes followed by arbitrary text agree only for the same test, as long
      as test names hold no slash. */
  lemma {:induction false} TestPrefixInjective(t1: string, r1: string, t2: string, r2: string)
    requires NoSlash(t1) && NoSlash(t2)
    requires TestPrefix(t1) + r1 == TestPrefix(t2) + r2
    ensures t1 == t2 && r1 == r2
  {
    var k := TestPrefix(t1) + r1;
    var n := |Root|;
    assert forall i :: 0 <= i < |t1| ==> k[n + i] == t1[i];
    assert forall i :: 0 <= i < |t2| ==> k[n + i] == t2[i];
    assert k[n + |t1|] == '/';
    assert k[n + |t2|] == '/';
    if |t1| < |t2| {
      assert false;
    } else if |t2| < |t1| {
      assert false;
    }
    assert t1 == k[n..n + |t1|] == t2;
    assert r1 == k[|TestPrefix(t1)|..] == r2;
  }

  /** Distinct (test, option) pairs never share a spins counter, for slash-free test names. */
  lemma SpinsKeyInjective(t1: string, o1: string, t2: string, o2: string)
    requires NoSlash(t1) && NoSlash(t2)
    requires SpinsKey(t1, o1) == SpinsKey(t2, o2)
    ensures t1 == t2 && o1 == o2
  {
    assert SpinsKey(t1, o1) == TestPrefix(t1) + (o1 + SpinsSuffix);
    assert SpinsKey(t2, o2) == TestPrefix(t2) + (o2 + SpinsSuffix);
    TestPrefixInjective(t1, o1 + SpinsSuffix, t2, o2 + SpinsSuffix);
    assert o1 == (o1 + SpinsSuffix)[..|o1|] == (o2 + SpinsSuffix)[..|o2|] == o2;
  }

  /** Distinct (test, option) pairs never share a wins counter, for slash-free test names. */
  lemma WinsKeyInjective(t1: string, o1: string, t2: string, o2: string)
    requires NoSlash(t1) && NoSlash(t2)
    requires WinsKey(t1, o1) == WinsKey(t2, o2)
    ensures t1 == t2 && o1 == o2
  {
    assert WinsKey(t1, o1) == TestPrefix(t1) + (o1 + WinsSuffix);
    assert WinsKey(t2, o2) == TestPrefix(t2) + (o2 + WinsSuffix);
    TestPrefixInjective(t1, o1 + WinsSuffix, t2, o2 + WinsSuffix);
    assert o1 == (o1 + WinsSuffix)[..|o1|] == (o2 + WinsSuffix)[..|o2|] == o2;
  }

  /** A spins counter and a wins counter never share a key, whatever the names. */
  lemma SpinsKeyIsNotWinsKey(t1: string, o1: string, t2: string, o2: string)
    ensures SpinsKey(t1, o1) != WinsKey(t2, o2)
  {
    var s := SpinsKey(t1, o1);
    var w := WinsKey(t2, o2);
    assert s[|s| - 5] == 's';
    assert w[|w| - 5] == '/';
  }

  /** With a slash in a name the scheme is ambiguous: option "b/x" of test "a" and option
      "x" of test "a/b" count on the same key. */
  lemma SlashedNamesShareKeys()
    ensures SpinsKey("a", "b/x") == SpinsKey("a/b", "x")
    ensures WinsKey("a", "b/x") == WinsKey("a/b", "x")
  {
  }
}
