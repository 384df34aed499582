/** The admin order list: its reducer, its load effect and the labels of its table. */
module AdminOrders {
  import opened Js
  import opened Effects
  import opened AdminView
  import Reducer

  /** The customer attached to an order; absent once the user has been deleted. */
  datatype Customer = Customer(name: string)

  /** An order record as the admin API returns it. `paidAt` and `deliveredAt` are absent
      until the order is paid or delivered. */
  datatype Order = Order(
    id: string,
    user: Option<Customer>,
    createdAt: string,
    totalPrice: int,
    isPaid: bool,
    paidAt: Option<string>,
    isDelivered: bool,
    deliveredAt: Option<string>)

  /** The page's reducer state. */
  datatype State = State(loading: bool, orders: seq<Order>, error: string)

  /** The action tags the reducer handles, and any other tag. */
  datatype Action =
    | FetchRequest
    | FetchSuccess(orders: seq<Order>)
    | FetchFail(message: string)
    | Unrecognised(tag: string)

  /** The state the page starts from: loading, no orders, no error. */
  function Init(): (s: State)
    ensures s.loading && s.orders == [] && s.error == ""
  {
    State(true, [], "")
  }

  /** The reducer, stated field by field; an unrecognised tag returns nothing. */
  function Step(s: State, a: Action): (r: Option<State>)
    ensures r.None? <==> a.Unrecognised?
    ensures r.Some? ==> r.value.loading == a.FetchRequest?
    ensures r.Some? ==> r.value.orders == (if a.FetchSuccess? then a.orders else s.orders)
    ensures r.Some? ==> r.value.error == (if a.FetchFail? then a.message else "")
  {
    match a
    case FetchRequest => Some(s.(loading := true, error := ""))
    case FetchSuccess(o) => Some(s.(loading := false, orders := o, error := ""))
    case FetchFail(m) => Some(s.(loading := false, error := m))
    case Unrecognised(_) => None
  }

  /** The actions of one fetch: a request, then exactly one outcome. */
  function FetchActions(response: Response<seq<Order>>): seq<Action> {
    [FetchRequest, match response case Ok(o) => FetchSuccess(o) case Failed(m) => FetchFail(m)]
  }

  /** The effects of the mount effect: the login redirect when signed out (which does not
      return), then the fetch. */
  function LoadEffects(signedIn: bool, response: Response<seq<Order>>): seq<Effect<Action>> {
    (if signedIn then [] else [Navigated("/login")]) + DispatchAll(FetchActions(response))
  }

  /** The USER column. */
  function UserCell(user: Option<Customer>): (r: string)
    ensures user.Some? ==> r == user.value.name
    ensures user.None? ==> r == "Deleted User"
  {
    if user.Some? then user.value.name else "Deleted User"
  }

  /** The PAID column: it starts with "paid at " exactly when the order is paid. */
  function PaidCell(isPaid: bool, paidAt: Option<string>): (r: string)
    ensures StartsWith(r, "paid at ") <==> isPaid
    ensures isPaid ==> r[8..] == Interpolate(paidAt)
    ensures !isPaid ==> r == "not paid"
  {
    if isPaid then "paid at " + Interpolate(paidAt)
    else assert "not paid"[0] != "paid at "[0]; "not paid"
  }

  /** The DELIVERED column: it starts with "delivered at " exactly when the order is delivered. */
  function DeliveredCell(isDelivered: bool, deliveredAt: Option<string>): (r: string)
    ensures StartsWith(r, "delivered at ") <==> isDelivered
    ensures isDelivered ==> r[13..] == Interpolate(deliveredAt)
    ensures !isDelivered ==> r == "not delivered"
  {
    if isDelivered then "delivered at " + Interpolate(deliveredAt)
    else assert "not delivered"[0] != "delivered at "[0]; "not delivered"
  }

  /** One row of the order table. */
  datatype Row = Row(
    idCell: string, userCell: string, createdAt: string, totalPrice: int,
    paidCell: string, deliveredCell: string, detailsPath: string)

  /** An order's row: its id's last four characters, the customer's name or "Deleted User",
      the payment and delivery cells, and the details link that ends with the full id. */
  function RowOf(o: Order): (r: Row)
    ensures |r.idCell| <= 4 && (24 <= |o.id| ==> r.idCell == o.id[20..24])
    ensures r.userCell == (if o.user.Some? then o.user.value.name else "Deleted User")
    ensures r.createdAt == o.createdAt && r.totalPrice == o.totalPrice
    ensures StartsWith(r.paidCell, "paid at ") <==> o.isPaid
    ensures StartsWith(r.deliveredCell, "delivered at ") <==> o.isDelivered
    ensures StartsWith(r.detailsPath, "/order/") && r.detailsPath[7..] == o.id
  {
    Row(IdCell(o.id), UserCell(o.user), o.createdAt, o.totalPrice,
        PaidCell(o.isPaid, o.paidAt), DeliveredCell(o.isDelivered, o.deliveredAt), "/order/" + o.id)
  }

  /** The main panel: spinner, error text, or one row per order in order. */
  function View(s: State): (r: Screen<seq<Row>>)
    ensures r.Spinner? <==> s.loading
    ensures r.ErrorText? <==> !s.loading && s.error != ""
    ensures r.ErrorText? ==> r.message == s.error
    ensures r.Content? ==> |r.data| == |s.orders|
    ensures r.Content? ==> forall i :: 0 <= i < |s.orders| ==>
      && r.data[i] == RowOf(s.orders[i])
      && r.data[i].idCell == IdCell(s.orders[i].id)
      && r.data[i].userCell == UserCell(s.orders[i].user)
      && r.data[i].createdAt == s.orders[i].createdAt
      && r.data[i].totalPrice == s.orders[i].totalPrice
      && r.data[i].paidCell == PaidCell(s.orders[i].isPaid, s.orders[i].paidAt)
      && r.data[i].deliveredCell == DeliveredCell(s.orders[i].isDelivered, s.orders[i].deliveredAt)
  {
    SelectView(s.loading, s.error, seq(|s.orders|, i requires 0 <= i < |s.orders| => RowOf(s.orders[i])))
  }

  /** A fetch stops loading; it takes the payload and clears the error on success, and keeps
      the old orders and records the message on failure. */
  lemma FetchSettles(s: State, response: Response<seq<Order>>)
    ensures Reducer.Run(Step, s, FetchActions(response)).Some?
    ensures var t := Reducer.Run(Step, s, FetchActions(response)).value;
      && !t.loading
      && t.orders == (if response.Ok? then response.data else s.orders)
      && t.error == (if response.Ok? then "" else response.message)
  {
    Reducer.RunPair(Step, s, FetchActions(response)[0], FetchActions(response)[1]);
  }

  /** What the first load leaves on screen: the fetched orders, or the error text; a failure
      with an empty message shows an empty table. */
  lemma FirstLoadView(response: Response<seq<Order>>)
    ensures Reducer.Run(Step, Init(), FetchActions(response)).Some?
    ensures var t := Reducer.Run(Step, Init(), FetchActions(response)).value;
      match response
      case Ok(o) =>
        View(t).Content? && |View(t).data| == |o| &&
        forall i :: 0 <= i < |o| ==> View(t).data[i] == RowOf(o[i])
      case Failed(m) => (m != "" ==> View(t) == ErrorText(m)) && (m == "" ==> View(t) == Content([]))
  {
    FetchSettles(Init(), response);
  }

  /** A run of the reducer ends undefined exactly when some dispatched tag is unrecognised. */
  lemma UndefinedOnlyFromUnknownTags(s: State, acts: seq<Action>)
    ensures Reducer.Run(Step, s, acts).None? <==> exists i :: 0 <= i < |acts| && acts[i].Unrecognised?
  {
    Reducer.RunUndefinedIff(Step, (a: Action) => !a.Unrecognised?, s, acts);
  }

  /** The mount effect dispatches exactly the fetch: a request, then one outcome. */
  lemma LoadDispatchesFetch(signedIn: bool, response: Response<seq<Order>>)
    ensures ActionsOf(LoadEffects(signedIn, response)) == FetchActions(response)
  {
    var nav: seq<Effect<Action>> := if signedIn then [] else [Navigated("/login")];
    ActionsOfQuiet(nav);
    ActionsOfAppend(nav, DispatchAll(FetchActions(response)));
    ActionsOfDispatchAll(FetchActions(response));
  }

  /** The mounted page: its reducer state and every effect it has produced so far. */
  class Page {
    var state: State
    var log: seq<Effect<Action>>

    /** The reducer state is always the fold of every action the page has dispatched. */
    ghost predicate Valid()
      reads this
    {
      Reducer.Run(Step, Init(), ActionsOf(log)) == Some(state)
    }

    constructor ()
      ensures Valid() && state == Init() && log == []
    {
      state := Init();
      log := [];
    }

    /** React's dispatch, for the tags this page uses. */
    method Dispatch(a: Action)
      requires Valid() && !a.Unrecognised?
      modifies this
      ensures Valid()
      ensures state == Step(old(state), a).value && log == old(log) + [Dispatched(a)]
    {
      ActionsOfDispatchThen([a], []);
      ActionsOfAppend(log, [Dispatched(a)]);
      Reducer.RunAppend(Step, Init(), ActionsOf(log), [a]);
      state := Step(state, a).value;
      log := log + [Dispatched(a)];
    }

    /** Other effects, in order: navigations and snackbars. */
    method Record(es: seq<Effect<Action>>)
      requires Valid() && forall i :: 0 <= i < |es| ==> !es[i].Dispatched?
      modifies this
      ensures Valid() && state == old(state) && log == old(log) + es
    {
      ghost var acts := ActionsOf(log);
      ActionsOfAppend(log, es);
      ActionsOfQuiet(es);
      assert ActionsOf(log + es) == acts + [] == acts;
      log := log + es;
      assert ActionsOf(log) == acts;
    }

    /** The effect's inner fetch: a request, then the outcome of the awaited call. */
    method FetchData(response: Response<seq<Order>>)
      requires Valid()
      modifies this
      ensures Valid()
      ensures log == old(log) + DispatchAll(FetchActions(response))
      ensures Reducer.Run(Step, old(state), FetchActions(response)) == Some(state)
    {
      ghost var s0, log0 := state, log;
      Dispatch(FetchRequest);
      match response {
        case Ok(o) => Dispatch(FetchSuccess(o));
        case Failed(m) => Dispatch(FetchFail(m));
      }
      Reducer.RunPair(Step, s0, FetchActions(response)[0], FetchActions(response)[1]);
      LogAfterPair(log0, FetchActions(response)[0], FetchActions(response)[1], []);
    }

    /** The mount effect. A signed-out visitor is sent to the login page, but the effect goes
        on: reading the missing token throws inside the request's `try`, so the fetch fails. */
    method Load(signedIn: bool, response: Response<seq<Order>>)
      requires Valid()
      requires !signedIn ==> response.Failed?
      modifies this
      ensures Valid()
      ensures log == old(log) + LoadEffects(signedIn, response)
      ensures Reducer.Run(Step, old(state), FetchActions(response)) == Some(state)
    {
      ghost var log0 := log;
      var nav: seq<Effect<Action>> := [];
      if !signedIn {
        Record([Navigated("/login")]);
        nav := [Navigated("/login")];
      }
      assert log == log0 + nav;
      FetchData(response);
      LogAfter(log0, nav, DispatchAll(FetchActions(response)));
    }
  }
}
