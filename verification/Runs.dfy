/** Finite runs of a step relation. */
module Runs {

  /** `steps` lead from `first` to `last`. */
  ghost predicate Leads<S(!new), T>(next: (S, T, S) -> bool, first: S, steps: seq<T>, last: S)
    decreases |steps|
  {
    if steps == [] then first == last
    else exists mid :: next(first, steps[0], mid) && Leads(next, mid, steps[1..], last)
  }

  lemma {:induction false} LeadsOn<S(!new), T>(next: (S, T, S) -> bool, first: S, steps: seq<T>, mid: S, step: T, last: S)
    requires Leads(next, first, steps, mid) && next(mid, step, last)
    ensures Leads(next, first, steps + [step], last)
    decreases |steps|
  {
    var all := steps + [step];
    if steps == [] {
      assert all[1..] == [] && Leads(next, last, all[1..], last);
    } else {
      var second :| next(first, steps[0], second) && Leads(next, second, steps[1..], mid);
      LeadsOn(next, second, steps[1..], mid, step, last);
      assert all[1..] == steps[1..] + [step];
    }
  }
}
