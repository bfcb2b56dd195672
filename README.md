# Whiplash allocation engine in Dafny

Whiplash is a multi-armed-bandit allocator for A/B/n tests. A named test offers several
options. Each session is given one option per test and keeps it on later visits (sticky
assignment). Choices are made by Thompson sampling over a Beta posterior built from each
option's spins and wins counters in Redis. Reaching a goal credits a win to the option the
session was given in every test registered under that goal.

This project models the engine in `lib/whiplash.rb`:

- `keys.dfy` (module `Keys`): the key scheme `whiplash/<test>/<option>/spins`,
  `whiplash/<test>/<option>/wins` and `whiplash/goals/<goal>`. It also models the slicing
  that `all_tests` uses to take keys apart, with round-trip and injectivity lemmas.
- `store.dfy` (modules `Redis` and `Sessions`): the Redis store as a class with two fields.
  `counters` maps a key to an integer. `sets` maps a key to a set of test names. `GET`,
  `INCR`, `DECR`, `SADD` and `SMEMBERS` are sequential updates and reads of those fields.
  The caller's session is a class holding a string-to-string map.
- `bandit.dfy` (module `Bandit`): `arm_guess`'s Beta shape parameters and `best_guess`.
  The Beta draws are an oracle `draw(i, shape)`. The uniform pick among tied options is an
  oracle number `pick`, taken modulo the number of tied options.
- `whiplash.dfy` (module `Whiplash`): `data_for_options`, `spin_for_choice`, `measure!`,
  `spin!`, `win_on_option!`, `lose_on_option!`, `win!`, `all_tests`, `spins_for` and
  `wins_for`. Each one that changes the store or the session is a method. Its `ensures`
  equates the new state with a pure function of the old state (`SpinSpec`, `MeasureSpec`,
  `WinOnOptionSpec`, `LoseOnOptionSpec`, `WinSpec`). The loops over hashes, sets and
  `KEYS` replies are `while`/`for` loops with invariants.
- `properties.dfy` (module `WhiplashProperties`): what the engine promises, as lemmas
  about those functions. It also has two client methods: two `spin!` calls in a row, and a loss followed by a `wins_for` read.

Two behaviours of the code are worth stating up front:

- `spin!` with one option and no sticky assignment returns `options.first` without
  writing the session, registering the test or counting a spin (lib/whiplash.rb:108). A
  stored value that is not an option stays in the session, and a later `spin!` whose
  options include it returns it.
- `measure!`, and `spin!` on its general path (more than one option), keep a stored
  assignment only while it is still among `options` (or, for `spin!`, while the session is
  in manual mode); otherwise they assign afresh and overwrite it (lib/whiplash.rb:94-97,
  104-112).

## Model

| member | source | states |
|---|---|---|
| `Keys.GoalOf` | lib/whiplash.rb:142 | slicing `g[15..-1]` off a key listed for the goals glob gives a goal whose goal key is that key |
| `Keys.OptionOf` | lib/whiplash.rb:147-150 | slicing a key listed for `whiplash/<t>/*/spins` gives an option whose spins key is that key |
| `Keys.GoalKeyRoundTrip` | lib/whiplash.rb:140-142 | every goal key matches the goals glob, and slicing it returns the goal |
| `Keys.SpinsKeyRoundTrip` | lib/whiplash.rb:147-150 | every spins key of a test matches that test's glob, and slicing it returns the option |
| `Keys.SpinsKeyInjective` | lib/whiplash.rb:86 | for slash-free test names, two (test, option) pairs share a spins key only if they are equal |
| `Keys.WinsKeyInjective` | lib/whiplash.rb:120 | for slash-free test names, two (test, option) pairs share a wins key only if they are equal |
| `Keys.SpinsKeyIsNotWinsKey` | lib/whiplash.rb:69-70 | a spins key never equals a wins key, whatever the names |
| `Keys.SlashedNamesShareKeys` | lib/whiplash.rb:86 | with a slash in a name the scheme is ambiguous: (a, b/x) and (a/b, x) use the same counters |
| `Redis.Incremented` | lib/whiplash.rb:86 | `INCR` adds exactly 1 to its key (an absent key counts from 0) and leaves every other counter alone |
| `Redis.Decremented` | lib/whiplash.rb:128 | `DECR` subtracts exactly 1 with no floor at zero and leaves every other counter alone |
| `Redis.AddMember` | lib/whiplash.rb:110 | `SADD` adds the member to that set only |
| `Redis.AddMemberIdempotent` | lib/whiplash.rb:110 | a second `SADD` of the same member changes nothing |
| `Redis.DecrementUndoesIncrement` | lib/whiplash.rb:120-128 | `DECR` after `INCR` on one key gives every counter its old reading back |
| `Redis.Store.Incr` | lib/whiplash.rb:86 | the store's counters become `Incremented` of the old ones; the sets stay the same |
| `Redis.Store.Decr` | lib/whiplash.rb:128 | the store's counters become `Decremented` of the old ones; the sets stay the same |
| `Redis.Store.SAdd` | lib/whiplash.rb:110 | the store's sets become `AddMember` of the old ones; the counters stay the same |
| `Bandit.ArmGuess` | lib/whiplash.rb:52-55 | both shape parameters are at least FC7 = 2 for any integers, including negative win counts. A non-positive win count gives alpha = FC7. For 0 <= wins <= spins, alpha + beta = spins + 2·FC7 |
| `Bandit.ArmGuessMonotone` | lib/whiplash.rb:52-54 | more wins at the same spins never lowers alpha and never raises beta |
| `Bandit.MaxOf` | lib/whiplash.rb:61 | `values.max` is one of the samples and at least every sample |
| `Bandit.Ties` | lib/whiplash.rb:62 | the `select` keeps exactly the options whose sample equals the given maximum |
| `Bandit.TiedOptions` | lib/whiplash.rb:61-62 | for a nonempty table the tied set is nonempty and is exactly the set of best options |
| `Bandit.BestChoiceIsBest` | lib/whiplash.rb:58-64 | the choice is an option of the table whose sample is at least every other sample |
| `Bandit.BestChoiceSingle` | lib/whiplash.rb:58-64 | with one option, that option is returned whatever the oracles give |
| `Bandit.BestChoiceReaches` | lib/whiplash.rb:62-63 | every option whose sample equals the maximum is returned for some pick of the uniform sample |
| `Bandit.BestChoiceRange` | lib/whiplash.rb:62-63 | an option is returned for some pick if and only if its sample equals the maximum |
| `Bandit.BestGuess` | lib/whiplash.rb:58-64 | the loop's samples give exactly `BestChoice`, and the result is a best option |
| `Whiplash.Dedup` | lib/whiplash.rb:67-68 | the hash keys: the same elements as the options, each once |
| `Whiplash.TableFor` | lib/whiplash.rb:66-73 | the table's options are exactly the given options, each once. Each carries its spins and wins counters, and an absent counter reads as 0 |
| `Whiplash.DataForOptions` | lib/whiplash.rb:66-73 | the loop builds exactly `TableFor` of the current counters |
| `Whiplash.SpinForChoice` | lib/whiplash.rb:83-89 | returns the choice, adds 1 to its spins counter, and sets `session[test] = choice` |
| `Whiplash.Measure` | lib/whiplash.rb:91-99 | the result and the new store and session are `MeasureSpec` of the old ones |
| `Whiplash.Spin` | lib/whiplash.rb:101-113 | the result and the new store and session are `SpinSpec` of the old ones |
| `Whiplash.WinOnOption` | lib/whiplash.rb:115-121 | the new counters are `WinOnOptionSpec` of the old ones; the sets are unchanged |
| `Whiplash.LoseOnOption` | lib/whiplash.rb:123-129 | the new counters are `LoseOnOptionSpec` of the old ones; the sets are unchanged |
| `Whiplash.CreditAll` | lib/whiplash.rb:133-135 | after crediting a set of tests in any order, each counter has gained the number of those tests whose session choice counts its wins there |
| `Whiplash.CreditStep` | lib/whiplash.rb:133-135 | crediting one more test is exactly one more `win_on_option!` with the session's entry, or nil |
| `Whiplash.Win` | lib/whiplash.rb:131-136 | the loop over the goal's members leaves the counters at `WinSpec` and changes no set |
| `Whiplash.SpinsFor` | lib/whiplash.rb:156-158 | reads the spins counter: 0 when absent, the stored value otherwise |
| `Whiplash.WinsFor` | lib/whiplash.rb:160-162 | reads the wins counter: 0 when absent, the stored value (possibly negative) otherwise |
| `Whiplash.RecordGoal` | lib/whiplash.rb:141-143 | each member of one goal's set is entered with that goal and no options. Other entries are kept |
| `Whiplash.CollectTests` | lib/whiplash.rb:139-144 | the entries are exactly the tests registered under some goal. Each is entered under a goal whose set holds it, with no options yet |
| `Whiplash.ListOptions` | lib/whiplash.rb:147-151 | the listed options are exactly those with a spins counter for the test, each once |
| `Whiplash.AllTests` | lib/whiplash.rb:138-154 | every registered test is listed with a goal whose set holds it. Its options are exactly those with a spins counter, without repeats |
| `WhiplashProperties.MeasureOutcome` | lib/whiplash.rb:91-99 | a stored choice that is still an option is returned with nothing changed. Otherwise the result is an option, only its spins counter rises (by 1), the sets stay the same, and the session records it |
| `WhiplashProperties.MeasureIsSticky` | lib/whiplash.rb:93-95 | a second `measure!` with any oracle returns the same choice and changes nothing |
| `WhiplashProperties.SpinKeepsAssignment` | lib/whiplash.rb:104-106 | when sticky, `spin!` returns the stored value with no change. Without manual mode that value is one of the options |
| `WhiplashProperties.SpinSingleOption` | lib/whiplash.rb:108 | with one option and nothing sticky, `spin!` returns it with no change to counters, goal sets or session |
| `WhiplashProperties.SpinFreshAssignment` | lib/whiplash.rb:110-112 | general path: the test joins the goal's set and no other set changes. The choice is an option with a maximal sample over the table. Only its spins counter rises (by 1), no wins counter moves, and the session records the choice |
| `WhiplashProperties.SpinRegistersOnce` | lib/whiplash.rb:110 | when the test is already in the goal's set, the general path leaves the sets unchanged |
| `WhiplashProperties.SpinIsSticky` | lib/whiplash.rb:101-112 | after any `spin!`, a second one with any oracles returns the same choice and changes nothing, so at most one spin is counted |
| `WhiplashProperties.SpinMakesTestVisible` | lib/whiplash.rb:110-112 | after the general path, the test is registered under a goal and its choice has a spins counter, so `all_tests` lists both |
| `WhiplashProperties.WinOnOptionOutcome` | lib/whiplash.rb:115-121 | nil choice: no change. Otherwise only the option's wins counter rises (by 1). No spins counter moves |
| `WhiplashProperties.LoseOnOptionOutcome` | lib/whiplash.rb:123-129 | nil choice: no change. Otherwise only the option's wins counter falls (by 1), going below zero from 0 or less. No spins counter moves |
| `WhiplashProperties.LoseUndoesWin` | lib/whiplash.rb:115-129 | a loss after a win on the same choice gives every counter its old reading |
| `WhiplashProperties.WinCreditsAssignedTest` | lib/whiplash.rb:131-136 | a registered test with a session entry gains exactly one win on its chosen option (slash-free test names) |
| `WhiplashProperties.WinSkipsOthers` | lib/whiplash.rb:133-135 | a counter that no registered, assigned test counts wins on is unchanged, so tests without a session entry are skipped |
| `WhiplashProperties.WinLeavesSpins` | lib/whiplash.rb:131-136 | `win!` never moves a spins counter |
| `WhiplashProperties.WinCountsEveryCall` | lib/whiplash.rb:131-136 | `win!` is not deduplicated: a second call adds the same amounts again |
| `WhiplashProperties.SpinThenWin` | lib/whiplash.rb:101-136 | for slash-free test names under the goal, after `spin!` assigns option X, `win!` on that goal adds exactly one win to X |
| `WhiplashProperties.SpinTwice` | lib/whiplash.rb:101-113 | two `spin!` calls on one store and session return the same choice, and the state is as after the first call |
| `WhiplashProperties.LoseBelowZero` | lib/whiplash.rb:123-129 | a loss on an option with no wins counter leaves `wins_for` at -1 |

## Left out

- `Whiplash.redis=` and `Whiplash.redis` (lines 19-50): these build the Redis connection. The model starts from a `Store` object.
- The Beta draw (`SimpleRandom#beta` with a fresh seed per call) is an oracle. So are `options.sample` and `best.sample`. No property of the sampled distribution is modelled.
- `redis_nonce`: it depends on a random number and the host's request. Its net effect on the session is a set-then-delete of `:tmp`, which also removes any `:tmp` entry the session held before; that deletion is not modelled.
- Event building, `Whiplash.log` and `used_storage`: these are logging and a floating-point ratio over Redis `INFO`.
- `mysession ||= session`: the session is always passed explicitly.
- Atomicity and concurrent callers: each store command is one sequential update.
- Option values are strings. The source accepts any object (the default `[true, false]`) and interpolates it into keys. A nil choice in `win_on_option!`/`lose_on_option!` is `None`.
- `KEYS` patterns are prefix/suffix filters. Glob metacharacters inside test names are not interpreted.
- The goals pattern is matched against set keys only. In Redis a test named `goals` would put its spins counters under the goals prefix, and `SMEMBERS` on such a key fails. The model keeps counters and sets in separate maps.
- Whiplash.AllTests: when a test is in several goal sets, the source keeps the goal whose key `KEYS` lists last. The model only promises one of those goals, because the reply order is unspecified. The order of the options list is unspecified in the same way.
- Whiplash.Win: the order in which `SMEMBERS` lists the tests is not modelled. Increments commute, so the final counters do not depend on it.
- Empty `options` for `spin!`/`measure!` is a precondition, so that case is not modelled. The source has no guard for it. `measure!` samples nil from the empty list (line 97). `spin!` first does its `SADD` (line 110), and then `best.sample` on the empty tied set gives nil (lines 61-63, 111). Both then call `spin_for_choice` with nil. It `INCR`s `whiplash/<test>//spins`, since nil interpolates to the empty string, stores nil in the session and returns nil (lines 86-88). A sticky `spin!` in manual mode still returns the stored value (line 104).
- Counters are unbounded integers. Redis's 64-bit overflow error on `INCR`/`DECR` is not modelled.
- Store commands never fail in the model. In Redis a command can raise (lost connection, `WRONGTYPE`, a non-integer value under `INCR`/`DECR`), the error leaves the engine call, and the commands that call already ran stay applied: `spin!`'s `SADD` (line 110) before its `INCR` and session write (lines 86-87), or the increments `win!` made for earlier tests. Such partial effects are not modelled.
- The store's namespace prefix is not part of the model. Keys are as the engine writes them.
