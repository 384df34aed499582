/** The observable side effects of the pages' handlers, recorded in order. */
module Effects {

  /** What an awaited HTTP call produced: the response data, or the message that the
      error helper extracts from the thrown error. */
  datatype Response<T> = Ok(data: T) | Failed(message: string)

  /** The two snackbar variants the pages use. */
  datatype Variant = Success | Error

  /** One side effect. `A` is the action type of the reducer the page dispatches to. */
  datatype Effect<A> =
    | Dispatched(action: A)
    | Navigated(path: string)
    | Notified(message: string, variant: Variant)
    | SnackbarsClosed
    | Alerted(message: string)
    | CookieSet(name: string, value: string)
    | CookieRemoved(name: string)

  /** The actions dispatched in a log, in order, with every other effect dropped. */
  function ActionsOf<A>(log: seq<Effect<A>>): (acts: seq<A>)
    ensures |acts| <= |log|
  {
    if log == [] then []
    else (if log[0].Dispatched? then [log[0].action] else []) + ActionsOf(log[1..])
  }

  /** The effects of dispatching each of `acts` in order. */
  function DispatchAll<A>(acts: seq<A>): (log: seq<Effect<A>>)
    ensures |log| == |acts|
    ensures forall i :: 0 <= i < |acts| ==> log[i] == Dispatched(acts[i])
  {
    if acts == [] then [] else [Dispatched(acts[0])] + DispatchAll(acts[1..])
  }

  /** Dispatching one action, or two. */
  lemma DispatchAllShort<A>(a: A, b: A)
    ensures DispatchAll([a]) == [Dispatched(a)]
    ensures DispatchAll([a, b]) == [Dispatched(a), Dispatched(b)]
  {
    assert [a, b][1..] == [b];
  }

  /** Filtering the dispatched actions out of a log distributes over appending logs. */
  lemma {:induction false} ActionsOfAppend<A>(xs: seq<Effect<A>>, ys: seq<Effect<A>>)
    ensures ActionsOf(xs + ys) == ActionsOf(xs) + ActionsOf(ys)
  {
    if xs == [] {
      assert xs + ys == ys;
    } else {
      var head := if xs[0].Dispatched? then [xs[0].action] else [];
      assert (xs + ys)[0] == xs[0];
      assert (xs + ys)[1..] == xs[1..] + ys;
      ActionsOfAppend(xs[1..], ys);
      calc {
        ActionsOf(xs + ys);
        head + ActionsOf(xs[1..] + ys);
        head + (ActionsOf(xs[1..]) + ActionsOf(ys));
        (head + ActionsOf(xs[1..])) + ActionsOf(ys);
        ActionsOf(xs) + ActionsOf(ys);
      }
    }
  }

  /** A log that grew by `xs` after `ys` grew by `ys + xs`. */
  lemma LogAfter<A>(log: seq<Effect<A>>, ys: seq<Effect<A>>, xs: seq<Effect<A>>)
    ensures log + ys + xs == log + (ys + xs)
  {
  }

  /** A log that grew by two dispatches, and then perhaps by other effects, grew by the
      dispatches of the pair followed by those effects. */
  lemma LogAfterPair<A>(log: seq<Effect<A>>, a: A, b: A, rest: seq<Effect<A>>)
    ensures log + [Dispatched(a)] + [Dispatched(b)] == log + DispatchAll([a, b])
    ensures log + [Dispatched(a)] + [Dispatched(b)] + rest == log + (DispatchAll([a, b]) + rest)
  {
    DispatchAllShort(a, b);
  }

  /** A log without dispatches contributes no actions. */
  lemma {:induction false} ActionsOfQuiet<A>(log: seq<Effect<A>>)
    requires forall i :: 0 <= i < |log| ==> !log[i].Dispatched?
    ensures ActionsOf(log) == []
  {
    if log != [] {
      ActionsOfQuiet(log[1..]);
    }
  }

  /** Dispatches followed by other effects: the actions are exactly the dispatched ones. */
  lemma ActionsOfDispatchThen<A>(acts: seq<A>, rest: seq<Effect<A>>)
    requires forall i :: 0 <= i < |rest| ==> !rest[i].Dispatched?
    ensures ActionsOf(DispatchAll(acts) + rest) == acts
  {
    ActionsOfAppend(DispatchAll(acts), rest);
    ActionsOfDispatchAll(acts);
    ActionsOfQuiet(rest);
  }

  /** Dispatching a list of actions and reading the actions back out gives the list again. */
  lemma {:induction false} ActionsOfDispatchAll<A>(acts: seq<A>)
    ensures ActionsOf(DispatchAll(acts)) == acts
  {
    if acts != [] {
      ActionsOfDispatchAll(acts[1..]);
      assert DispatchAll(acts)[1..] == DispatchAll(acts[1..]);
    }
  }
}
