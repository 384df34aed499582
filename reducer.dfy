/** What React's `useReducer` does with a reducer: fold it over the dispatched actions. */
module Reducer {
  import opened Js

  /** The state after dispatching `acts` in order, starting from `s`; `None` as soon as the
      reducer returns `undefined`. The JavaScript reducer would accept `undefined` as its next
      state and spread it into a new object, so `None` staying `None` stands for the page's
      crash: the next render reads a field of the `undefined` state. */
  function Run<S, A>(step: (S, A) -> Option<S>, s: S, acts: seq<A>): Option<S>
    decreases |acts|
  {
    if acts == [] then Some(s)
    else match step(s, acts[0])
      case None => None
      case Some(t) => Run(step, t, acts[1..])
  }

  /** Dispatching `xs` and then `ys` is running `ys` from wherever `xs` left off. */
  lemma {:induction false} RunAppend<S, A>(step: (S, A) -> Option<S>, s: S, xs: seq<A>, ys: seq<A>)
    ensures Run(step, s, xs + ys) ==
      match Run(step, s, xs)
      case None => None
      case Some(t) => Run(step, t, ys)
  {
    if xs == [] {
      assert xs + ys == ys;
    } else {
      assert (xs + ys)[0] == xs[0];
      assert (xs + ys)[1..] == xs[1..] + ys;
      match step(s, xs[0])
      case None =>
      case Some(t) => RunAppend(step, t, xs[1..], ys);
    }
  }

  /** Running a one-action sequence is one step. */
  lemma RunSingle<S, A>(step: (S, A) -> Option<S>, s: S, a: A)
    ensures Run(step, s, [a]) == step(s, a)
  {
    assert [a][1..] == [];
    match step(s, a)
    case None =>
    case Some(t) => assert Run(step, t, []) == Some(t);
  }

  /** Running a two-action sequence is two steps. */
  lemma RunPair<S, A>(step: (S, A) -> Option<S>, s: S, a: A, b: A)
    ensures Run(step, s, [a, b]) ==
      match step(s, a)
      case None => None
      case Some(t) => step(t, b)
  {
    assert [a, b][1..] == [b];
    match step(s, a)
    case None =>
    case Some(t) =>
      assert Run(step, t, [b]) == match step(t, b) case None => None case Some(u) => Run(step, u, []);
  }

  /** A reducer that returns `undefined` exactly for the actions that `known` rejects leaves a
      run undefined exactly when one of the actions is unknown. */
  lemma {:induction false} RunUndefinedIff<S, A>(step: (S, A) -> Option<S>, known: A -> bool, s: S, acts: seq<A>)
    requires forall t, a :: step(t, a).None? <==> !known(a)
    ensures Run(step, s, acts).None? <==> exists i :: 0 <= i < |acts| && !known(acts[i])
  {
    if acts != [] {
      if !known(acts[0]) {
        assert step(s, acts[0]).None?;
      } else {
        var t := step(s, acts[0]).value;
        RunUndefinedIff(step, known, t, acts[1..]);
        if exists i :: 0 <= i < |acts[1..]| && !known(acts[1..][i]) {
          var i :| 0 <= i < |acts[1..]| && !known(acts[1..][i]);
          assert !known(acts[i + 1]);
        }
        if exists i :: 0 <= i < |acts| && !known(acts[i]) {
          var i :| 0 <= i < |acts| && !known(acts[i]);
          assert i != 0;
          assert !known(acts[1..][i - 1]);
        }
      }
    }
  }
}
