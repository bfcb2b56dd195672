/** Thompson sampling over a Beta posterior per option.

    The Beta draw itself (a floating-point library call with a fresh seed per call) is an
    oracle: `draw(i, shape)` is the sample drawn for the i-th option of the table with the
    shape parameters `ArmGuess` computes. The uniform pick among tied options is an oracle
    too: a number `pick`, reduced modulo the number of tied options. */
module Bandit {

  /** The smoothing prior added to both shape parameters. */
  const FC7: int := 2

  datatype Shape = Shape(alpha: int, beta: int)

  /** The `[spins, wins]` pair read for one option. */
  datatype Stats = Stats(spins: int, wins: int)

  /** One entry of the option table: an option and its counters. */
  datatype Arm = Arm(option: string, stats: Stats)

  type Draw = (nat, Shape) -> real

  function Max(a: int, b: int): int {
    if a >= b then a else b
  }

  /** The Beta shape parameters for an option with `observations` spins and `victories`
      net wins. Both are at least the prior FC7 whatever the counters hold (a negative win
      count is clamped); for counters in range they share out exactly the observations. */
  function ArmGuess(observations: int, victories: int): (s: Shape)
    ensures s.alpha >= FC7 && s.beta >= FC7
    ensures victories <= 0 ==> s.alpha == FC7
    ensures victories >= observations ==> s.beta == FC7
    ensures 0 <= victories <= observations ==> s.alpha + s.beta == observations + 2 * FC7
  {
    Shape(Max(victories, 0) + FC7, Max(observations - victories, 0) + FC7)
  }

  /** More net wins at the same number of spins never lowers alpha nor raises beta. */
  lemma ArmGuessMonotone(observations: int, v1: int, v2: int)
    requires v1 <= v2
    ensures ArmGuess(observations, v1).alpha <= ArmGuess(observations, v2).alpha
    ensures ArmGuess(observations, v1).beta >= ArmGuess(observations, v2).beta
  {
  }

  /** The sample drawn for the i-th option of the table. */
  function GuessOf(arms: seq<Arm>, draw: Draw, i: nat): real
    requires i < |arms|
  {
    draw(i, ArmGuess(arms[i].stats.spins, arms[i].stats.wins))
  }

  /** `guesses.values`: one sample per option, in table order. */
  function Guesses(arms: seq<Arm>, draw: Draw): seq<real> {
    seq(|arms|, i requires 0 <= i < |arms| => GuessOf(arms, draw, i))
  }

  /** `values.max`: the largest of a nonempty sequence of samples, one that occurs in it. */
  function MaxOf(s: seq<real>): (m: real)
    requires |s| > 0
    ensures m in s
    ensures forall i :: 0 <= i < |s| ==> s[i] <= m
  {
    if |s| == 1 then s[0]
    else
      var m0 := MaxOf(s[..|s| - 1]);
      assert forall i :: 0 <= i < |s| - 1 ==> s[..|s| - 1][i] == s[i];
      if m0 >= s[|s| - 1] then m0 else s[|s| - 1]
  }

  /** `options.keys.select { |o| guesses[o] == gmax }`: the options, in table order, whose
      sample equals `gmax`. */
  function Ties(arms: seq<Arm>, g: seq<real>, gmax: real): (best: seq<string>)
    requires |g| == |arms|
    ensures forall o :: o in best <==> exists i :: 0 <= i < |arms| && arms[i].option == o && g[i] == gmax
  {
    if arms == [] then []
    else
      var n := |arms| - 1;
      var front := Ties(arms[..n], g[..n], gmax);
      assert forall i :: 0 <= i < n ==> arms[..n][i] == arms[i] && g[..n][i] == g[i];
      front + (if g[n] == gmax then [arms[n].option] else [])
  }

  /** An option is a best guess when its sample is at least every other option's. */
  ghost predicate IsBest(arms: seq<Arm>, draw: Draw, choice: string) {
    exists i :: 0 <= i < |arms| && arms[i].option == choice &&
      forall j :: 0 <= j < |arms| ==> GuessOf(arms, draw, j) <= GuessOf(arms, draw, i)
  }

  /** The tied options for a nonempty table: never empty. */
  function TiedOptions(arms: seq<Arm>, draw: Draw): (best: seq<string>)
    requires |arms| > 0
    ensures |best| > 0
    ensures forall o :: o in best <==> IsBest(arms, draw, o)
  {
    var g := Guesses(arms, draw);
    var gmax := MaxOf(g);
    var best := Ties(arms, g, gmax);
    assert forall o :: o in best ==> IsBest(arms, draw, o) by {
      forall o | o in best ensures IsBest(arms, draw, o) {
        var i :| 0 <= i < |arms| && arms[i].option == o && g[i] == gmax;
        assert forall j :: 0 <= j < |arms| ==> GuessOf(arms, draw, j) == g[j];
      }
    }
    assert forall o :: IsBest(arms, draw, o) ==> o in best by {
      forall o | IsBest(arms, draw, o) ensures o in best {
        var i :| 0 <= i < |arms| && arms[i].option == o &&
          forall j :: 0 <= j < |arms| ==> GuessOf(arms, draw, j) <= GuessOf(arms, draw, i);
        var k :| 0 <= k < |g| && g[k] == gmax;
        assert g[i] >= g[k];
      }
    }
    assert |best| > 0 by {
      var k :| 0 <= k < |g| && g[k] == gmax;
      assert arms[k].option in best;
    }
    best
  }

  /** What `best_guess` returns for given oracle outcomes. */
  function BestChoice(arms: seq<Arm>, draw: Draw, pick: nat): string
    requires |arms| > 0
  {
    var best := TiedOptions(arms, draw);
    best[pick % |best|]
  }

  /** The choice is an option of the table whose sample equals the maximum. */
  lemma BestChoiceIsBest(arms: seq<Arm>, draw: Draw, pick: nat)
    requires |arms| > 0
    ensures IsBest(arms, draw, BestChoice(arms, draw, pick))
    ensures exists i :: 0 <= i < |arms| && arms[i].option == BestChoice(arms, draw, pick)
  {
  }

  /** With a single option, that option is chosen whatever the oracles say. */
  lemma BestChoiceSingle(arms: seq<Arm>, draw: Draw, pick: nat)
    requires |arms| == 1
    ensures BestChoice(arms, draw, pick) == arms[0].option
  {
    BestChoiceIsBest(arms, draw, pick);
  }

  /** Every best option comes out for some pick: its index in the tied set. */
  lemma BestChoiceReaches(arms: seq<Arm>, draw: Draw, o: string) returns (pick: nat)
    requires |arms| > 0 && IsBest(arms, draw, o)
    ensures BestChoice(arms, draw, pick) == o
  {
    var best := TiedOptions(arms, draw);
    assert o in best;
    pick :| pick < |best| && best[pick] == o;
    assert pick % |best| == pick;
  }

  /** The choice is drawn from exactly the tied set: an option can come out for some pick
      if and only if its sample equals the maximum. */
  lemma BestChoiceRange(arms: seq<Arm>, draw: Draw, o: string)
    requires |arms| > 0
    ensures (exists pick: nat :: BestChoice(arms, draw, pick) == o) <==> IsBest(arms, draw, o)
  {
    if IsBest(arms, draw, o) {
      var pick := BestChoiceReaches(arms, draw, o);
    } else {
      forall pick: nat ensures BestChoice(arms, draw, pick) != o {
        BestChoiceIsBest(arms, draw, pick);
      }
    }
  }

  /** `best_guess`: one sample per option, then a uniform pick among those equal to the
      maximum. */
  method BestGuess(arms: seq<Arm>, draw: Draw, pick: nat) returns (choice: string)
    requires |arms| > 0
    ensures choice == BestChoice(arms, draw, pick)
    ensures IsBest(arms, draw, choice)
  {
    var guesses: seq<real> := [];
    for i := 0 to |arms|
      invariant |guesses| == i
      invariant forall j :: 0 <= j < i ==> guesses[j] == GuessOf(arms, draw, j)
    {
      var s := ArmGuess(arms[i].stats.spins, arms[i].stats.wins);
      guesses := guesses + [draw(i, s)];
    }
    assert guesses == Guesses(arms, draw);
    var gmax := MaxOf(guesses);
    var best := Ties(arms, guesses, gmax);
    assert best == TiedOptions(arms, draw);
    choice := best[pick % |best|];
    BestChoiceIsBest(arms, draw, pick);
  }
}
