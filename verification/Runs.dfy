/** Running a list of steps. */
module Runs {
  /** A run that takes its steps from the front may take the last one last. */
  lemma {:induction false} Snoc<S(!new), T(!new)>(run: (S, seq<T>) -> S, next: (S, T) -> S,
                                                  s: S, steps: seq<T>, step: T)
    requires forall r :: run(r, []) == r
    requires forall r, ts :: ts != [] ==> run(r, ts) == run(next(r, ts[0]), ts[1..])
    ensures run(s, steps + [step]) == next(run(s, steps), step)
    decreases |steps|
  {
    var all := steps + [step];
    assert all != [];
    assert run(s, all) == run(next(s, all[0]), all[1..]);
    if steps == [] {
      assert all[0] == step && all[1..] == [];
    } else {
      assert all[0] == steps[0] && all[1..] == steps[1..] + [step];
      Snoc(run, next, next(s, steps[0]), steps[1..], step);
    }
  }
}
