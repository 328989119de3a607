/** Runs of a state machine: whatever the machine, running two sequences one after the other is running both at once. */
module Runs {

  lemma {:induction false} Concat<S(!new), E(!new)>(run: (S, seq<E>) -> S, step: (S, E) -> S, s: S, es: seq<E>,
                                                    more: seq<E>)
    requires forall t :: run(t, []) == t
    requires forall t, gs, e :: run(t, gs + [e]) == step(run(t, gs), e)
    ensures run(s, es + more) == run(run(s, es), more)
  {
    if more == [] {
      assert es + more == es;
    } else {
      var prior, e := more[..|more| - 1], more[|more| - 1];
      assert more == prior + [e] && es + more == (es + prior) + [e];
      Concat(run, step, s, es, prior);
    }
  }
}
