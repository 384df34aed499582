/** The admin dashboard: its reducer, its load effect and the priority of its panel. */
module AdminDashboard {
  import opened Js
  import opened Effects
  import opened AdminView
  import Reducer

  /** One point of the sales series. */
  datatype SalesPoint = SalesPoint(id: string, totalSales: int)

  /** The summary the dashboard shows. Before a successful fetch only the empty sales series
      is present; the four figures are absent. */
  datatype Summary = Summary(
    ordersPrice: Option<int>,
    ordersCount: Option<int>,
    productsCount: Option<int>,
    usersCount: Option<int>,
    salesData: seq<SalesPoint>)

  /** The page's reducer state. */
  datatype State = State(loading: bool, summary: Summary, error: string)

  /** The action tags the reducer handles, and any other tag. */
  datatype Action =
    | FetchRequest
    | FetchSuccess(summary: Summary)
    | FetchFail(message: string)
    | Unrecognised(tag: string)

  /** The state the page starts from: loading, no error, an empty sales series and no figures. */
  function Init(): (s: State)
    ensures s.loading && s.error == "" && s.summary.salesData == []
    ensures s.summary.ordersPrice.None? && s.summary.ordersCount.None?
    ensures s.summary.productsCount.None? && s.summary.usersCount.None?
  {
    State(true, Summary(None, None, None, None, []), "")
  }

  /** The reducer, stated field by field; an unrecognised tag returns nothing. */
  function Step(s: State, a: Action): (r: Option<State>)
    ensures r.None? <==> a.Unrecognised?
    ensures r.Some? ==> r.value.loading == a.FetchRequest?
    ensures r.Some? ==> r.value.summary == (if a.FetchSuccess? then a.summary else s.summary)
    ensures r.Some? ==> r.value.error == (if a.FetchFail? then a.message else "")
  {
    match a
    case FetchRequest => Some(s.(loading := true, error := ""))
    case FetchSuccess(m) => Some(s.(loading := false, summary := m, error := ""))
    case FetchFail(m) => Some(s.(loading := false, error := m))
    case Unrecognised(_) => None
  }

  /** The actions of one fetch: a request, then exactly one outcome. */
  function FetchActions(response: Response<Summary>): seq<Action> {
    [FetchRequest, match response case Ok(m) => FetchSuccess(m) case Failed(e) => FetchFail(e)]
  }

  /** The effects of the mount effect: the login redirect when signed out (which does not
      return), then the fetch. */
  function LoadEffects(signedIn: bool, response: Response<Summary>): seq<Effect<Action>> {
    (if signedIn then [] else [Navigated("/login")]) + DispatchAll(FetchActions(response))
  }

  /** The panel: spinner while loading, then the error text, then the summary cards. */
  function View(s: State): (r: Screen<Summary>)
    ensures r.Spinner? <==> s.loading
    ensures r.ErrorText? <==> !s.loading && s.error != ""
    ensures r.ErrorText? ==> r.message == s.error
    ensures r.Content? ==> r.data == s.summary
  {
    SelectView(s.loading, s.error, s.summary)
  }

  /** A fetch stops loading; it replaces the summary and clears the error on success, and
      keeps the summary and records the message on failure. */
  lemma FetchSettles(s: State, response: Response<Summary>)
    ensures Reducer.Run(Step, s, FetchActions(response)).Some?
    ensures var t := Reducer.Run(Step, s, FetchActions(response)).value;
      && !t.loading
      && t.summary == (if response.Ok? then response.data else s.summary)
      && t.error == (if response.Ok? then "" else response.message)
  {
    Reducer.RunPair(Step, s, FetchActions(response)[0], FetchActions(response)[1]);
  }

  /** What the first load leaves on screen: the fetched summary, or the error text; a failure
      with an empty message shows the cards of the initial summary, whose figures are absent. */
  lemma FirstLoadView(response: Response<Summary>)
    ensures Reducer.Run(Step, Init(), FetchActions(response)).Some?
    ensures var t := Reducer.Run(Step, Init(), FetchActions(response)).value;
      match response
      case Ok(m) => View(t) == Content(m)
      case Failed(e) =>
        (e != "" ==> View(t) == ErrorText(e)) &&
        (e == "" ==> View(t) == Content(Init().summary))
  {
    FetchSettles(Init(), response);
  }

  /** A run of the reducer ends undefined exactly when some dispatched tag is unrecognised. */
  lemma UndefinedOnlyFromUnknownTags(s: State, acts: seq<Action>)
    ensures Reducer.Run(Step, s, acts).None? <==> exists i :: 0 <= i < |acts| && acts[i].Unrecognised?
  {
    Reducer.RunUndefinedIff(Step, (a: Action) => !a.Unrecognised?, s, acts);
  }

  /** The mount effect dispatches exactly the fetch: a request, then one outcome. */
  lemma LoadDispatchesFetch(signedIn: bool, response: Response<Summary>)
    ensures ActionsOf(LoadEffects(signedIn, response)) == FetchActions(response)
  {
    var nav: seq<Effect<Action>> := if signedIn then [] else [Navigated("/login")];
    ActionsOfQuiet(nav);
    ActionsOfAppend(nav, DispatchAll(FetchActions(response)));
    ActionsOfDispatchAll(FetchActions(response));
  }

  /** The mounted page: its reducer state and every effect it has produced so far. */
  class Page {
    var state: State
    var log: seq<Effect<Action>>

    /** The reducer state is always the fold of every action the page has dispatched. */
    ghost predicate Valid()
      reads this
    {
      Reducer.Run(Step, Init(), ActionsOf(log)) == Some(state)
    }

    constructor ()
      ensures Valid() && state == Init() && log == []
    {
      state := Init();
      log := [];
    }

    /** React's dispatch, for the tags this page uses. */
    method Dispatch(a: Action)
      requires Valid() && !a.Unrecognised?
      modifies this
      ensures Valid()
      ensures state == Step(old(state), a).value && log == old(log) + [Dispatched(a)]
    {
      ActionsOfDispatchThen([a], []);
      ActionsOfAppend(log, [Dispatched(a)]);
      Reducer.RunAppend(Step, Init(), ActionsOf(log), [a]);
      state := Step(state, a).value;
      log := log + [Dispatched(a)];
    }

    /** Other effects, in order: navigations and snackbars. */
    method Record(es: seq<Effect<Action>>)
      requires Valid() && forall i :: 0 <= i < |es| ==> !es[i].Dispatched?
      modifies this
      ensures Valid() && state == old(state) && log == old(log) + es
    {
      ghost var acts := ActionsOf(log);
      ActionsOfAppend(log, es);
      ActionsOfQuiet(es);
      assert ActionsOf(log + es) == acts + [] == acts;
      log := log + es;
      assert ActionsOf(log) == acts;
    }

    /** The effect's inner fetch: a request, then the outcome of the awaited call. */
    method FetchData(response: Response<Summary>)
      requires Valid()
      modifies this
      ensures Valid()
      ensures log == old(log) + DispatchAll(FetchActions(response))
      ensures Reducer.Run(Step, old(state), FetchActions(response)) == Some(state)
    {
      ghost var s0, log0 := state, log;
      Dispatch(FetchRequest);
      match response {
        case Ok(m) => Dispatch(FetchSuccess(m));
        case Failed(e) => Dispatch(FetchFail(e));
      }
      Reducer.RunPair(Step, s0, FetchActions(response)[0], FetchActions(response)[1]);
      LogAfterPair(log0, FetchActions(response)[0], FetchActions(response)[1], []);
    }

    /** The mount effect. A signed-out visitor is sent to the login page, but the effect goes
        on: reading the missing token throws inside the request's `try`, so the fetch fails. */
    method Load(signedIn: bool, response: Response<Summary>)
      requires Valid()
      requires !signedIn ==> response.Failed?
      modifies this
      ensures Valid()
      ensures log == old(log) + LoadEffects(signedIn, response)
      ensures Reducer.Run(Step, old(state), FetchActions(response)) == Some(state)
    {
      ghost var log0 := log;
      var nav: seq<Effect<Action>> := [];
      if !signedIn {
        Record([Navigated("/login")]);
        nav := [Navigated("/login")];
      }
      assert log == log0 + nav;
      FetchData(response);
      LogAfter(log0, nav, DispatchAll(FetchActions(response)));
    }
  }
}
