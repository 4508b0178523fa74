/** Runs of a machine given by its steps. */
module Runs {
  import opened Wrappers

  /** The state after a run of events; none if one of them cannot happen where it should. */
  function After<S, E>(step: (S, E) -> Option<S>, s: S, es: seq<E>): Option<S> {
    if es == [] then Some(s)
    else
      var before := After(step, s, es[..|es| - 1]);
      if before.Some? then step(before.value, es[|es| - 1]) else None
  }

  lemma LastStep<S, E>(step: (S, E) -> Option<S>, s: S, es: seq<E>, t: S) returns (before: S, e: E)
    requires es != [] && After(step, s, es) == Some(t)
    ensures e == es[|es| - 1] && After(step, s, es[..|es| - 1]) == Some(before) && step(before, e) == Some(t)
  {
    before, e := After(step, s, es[..|es| - 1]).value, es[|es| - 1];
  }

  lemma OneMore<S, E>(step: (S, E) -> Option<S>, s: S, es: seq<E>, e: E)
    ensures var before := After(step, s, es);
      After(step, s, es + [e]) == if before.Some? then step(before.value, e) else None
  {
    assert (es + [e])[..|es + [e]| - 1] == es;
  }

  /** A run taken one event further. */
  lemma Extend<S, E>(step: (S, E) -> Option<S>, s0: S, es: seq<E>, s: S, e: E) returns (es': seq<E>, s': S)
    requires After(step, s0, es) == Some(s) && step(s, e).Some?
    ensures es' == es + [e] && step(s, e) == Some(s') && After(step, s0, es') == Some(s')
  {
    OneMore(step, s0, es, e);
    es', s' := es + [e], step(s, e).value;
  }

  /** A run of given events, one event at a time. */
  lemma Advance<S, E>(step: (S, E) -> Option<S>, s0: S, es: seq<E>, n: nat, s: S)
    requires n < |es| && After(step, s0, es[..n]) == Some(s) && step(s, es[n]).Some?
    ensures After(step, s0, es[..n + 1]) == step(s, es[n])
  {
    assert es[..n + 1] == es[..n] + [es[n]];
    OneMore(step, s0, es[..n], es[n]);
  }
}
