/**
 Runs of any transition system: what holds of them whatever the states and steps are.
 */
module Runs {
  predicate Valid<S, T>(enabled: (S, T) -> bool, next: (S, T) -> S, s: S, steps: seq<T>)
    decreases |steps|
  {
    steps == [] || (enabled(s, steps[0]) && Valid(enabled, next, next(s, steps[0]), steps[1..]))
  }

  function Run<S, T>(next: (S, T) -> S, s: S, steps: seq<T>): S
    decreases |steps|
  {
    if steps == [] then s else Run(next, next(s, steps[0]), steps[1..])
  }

  lemma {:induction false} Concat<S, T>(enabled: (S, T) -> bool, next: (S, T) -> S, s: S, first: seq<T>, second: seq<T>)
    ensures Run(next, s, first + second) == Run(next, Run(next, s, first), second)
    ensures Valid(enabled, next, s, first + second)
            <==> Valid(enabled, next, s, first) && Valid(enabled, next, Run(next, s, first), second)
    decreases |first|
  {
    if first == [] {
      assert first + second == second;
    } else {
      assert (first + second)[0] == first[0] && (first + second)[1..] == first[1..] + second;
      Concat(enabled, next, next(s, first[0]), first[1..], second);
    }
  }
}
