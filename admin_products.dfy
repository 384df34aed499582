/** The admin product list: its reducer, its load effect, its create and delete handlers
    and its table. */
module AdminProducts {
  import opened Js
  import opened Effects
  import opened AdminView
  import Reducer

  /** A product record as the admin API returns it. */
  datatype Product = Product(id: string, name: string, price: int, category: string, countInStock: int, rating: real)

  /** The page's reducer state. The last four fields are absent (`None`) in the initial
      state; `loadingCrate` is the misspelt field that the create outcomes write. */
  datatype State = State(
    loading: bool,
    products: seq<Product>,
    error: string,
    loadingCreate: Option<bool>,
    loadingCrate: Option<bool>,
    loadingDelete: Option<bool>,
    successDelete: Option<bool>)

  /** The action tags the reducer handles, and any other tag. */
  datatype Action =
    | FetchRequest
    | FetchSuccess(products: seq<Product>)
    | FetchFail(message: string)
    | CreateRequest
    | CreateSuccess
    | CreateFail
    | DeleteRequest
    | DeleteSuccess
    | DeleteFail
    | DeleteReset
    | Unrecognised(tag: string)

  /** The state the page starts from. */
  function Init(): (s: State)
    ensures s.loading && s.products == [] && s.error == ""
    ensures s.loadingCreate.None? && s.loadingCrate.None? && s.loadingDelete.None? && s.successDelete.None?
  {
    State(true, [], "", None, None, None, None)
  }

  /** The reducer. Each branch copies the state and overwrites a few fields; an unrecognised
      tag falls into the default branch, which returns nothing. Stated field by field: which
      actions write each field, and to what. */
  function Step(s: State, a: Action): (r: Option<State>)
    ensures r.None? <==> a.Unrecognised?
    ensures r.Some? ==> r.value.loading == (if a.FetchRequest? then true else if a.FetchSuccess? || a.FetchFail? then false else s.loading)
    ensures r.Some? ==> r.value.products == (if a.FetchSuccess? then a.products else s.products)
    ensures r.Some? ==> r.value.error == (if a.FetchRequest? || a.FetchSuccess? then "" else if a.FetchFail? then a.message else s.error)
    ensures r.Some? ==> r.value.loadingCreate == (if a.CreateRequest? then Some(true) else s.loadingCreate)
    ensures r.Some? ==> r.value.loadingCrate == (if a.CreateSuccess? || a.CreateFail? then Some(false) else s.loadingCrate)
    ensures r.Some? ==>
              r.value.loadingDelete == (if a.DeleteRequest? then Some(true)
                                        else if a.DeleteSuccess? || a.DeleteFail? || a.DeleteReset? then Some(false)
                                        else s.loadingDelete)
    ensures r.Some? ==> r.value.successDelete == (if a.DeleteSuccess? then Some(true) else if a.DeleteReset? then Some(false) else s.successDelete)
  {
    match a
    case FetchRequest => Some(s.(loading := true, error := ""))
    case FetchSuccess(p) => Some(s.(loading := false, products := p, error := ""))
    case FetchFail(m) => Some(s.(loading := false, error := m))
    case CreateRequest => Some(s.(loadingCreate := Some(true)))
    case CreateSuccess => Some(s.(loadingCrate := Some(false)))
    case CreateFail => Some(s.(loadingCrate := Some(false)))
    case DeleteRequest => Some(s.(loadingDelete := Some(true)))
    case DeleteSuccess => Some(s.(loadingDelete := Some(false), successDelete := Some(true)))
    case DeleteFail => Some(s.(loadingDelete := Some(false)))
    case DeleteReset => Some(s.(loadingDelete := Some(false), successDelete := Some(false)))
    case Unrecognised(_) => None
  }

  /** The actions of one fetch: a request, then exactly one outcome. */
  function FetchActions(response: Response<seq<Product>>): seq<Action> {
    [FetchRequest, match response case Ok(p) => FetchSuccess(p) case Failed(m) => FetchFail(m)]
  }

  /** The actions the load effect dispatches: a reset after a successful delete, a fetch otherwise. */
  function LoadActions(s: State, response: Response<seq<Product>>): seq<Action> {
    if Truthy(s.successDelete) then [DeleteReset] else FetchActions(response)
  }

  /** The effects of the load effect: the login redirect when signed out (which does not stop
      the effect), then its actions. */
  function LoadEffects(signedIn: bool, s: State, response: Response<seq<Product>>): seq<Effect<Action>> {
    (if signedIn then [] else [Navigated("/login")]) + DispatchAll(LoadActions(s, response))
  }

  /** The actions of a confirmed create: a request, then exactly one outcome. */
  function CreateActions(response: Response<string>): seq<Action> {
    [CreateRequest, if response.Ok? then CreateSuccess else CreateFail]
  }

  /** The effects of a confirmed create; a successful response carries the new product's id. */
  function CreateEffects(response: Response<string>): seq<Effect<Action>> {
    DispatchAll(CreateActions(response)) +
    match response
    case Ok(id) => [Notified("Product created succesfully", Success), Navigated("/admin/product/" + id)]
    case Failed(m) => [Notified(m, Error)]
  }

  /** The actions of a confirmed delete: a request, then exactly one outcome. */
  function DeleteActions(response: Response<()>): seq<Action> {
    [DeleteRequest, if response.Ok? then DeleteSuccess else DeleteFail]
  }

  /** The effects of a confirmed delete. */
  function DeleteEffects(response: Response<()>): seq<Effect<Action>> {
    DispatchAll(DeleteActions(response)) +
    match response
    case Ok(_) => [Notified("Product deleted succesfully", Success)]
    case Failed(m) => [Notified(m, Error)]
  }

  /** One row of the product table. */
  datatype Row = Row(idCell: string, product: Product, editPath: string)

  /** A product's row: its id's last four characters, the product itself, and the edit link
      that ends with the full id. */
  function RowOf(p: Product): (r: Row)
    ensures r.product == p
    ensures |r.idCell| <= 4 && (24 <= |p.id| ==> r.idCell == p.id[20..24])
    ensures StartsWith(r.editPath, "/admin/product/") && r.editPath[15..] == p.id
  {
    Row(IdCell(p.id), p, "/admin/product/" + p.id)
  }

  /** The main panel: spinner, error text, or one row per product in order. */
  function View(s: State): (r: Screen<seq<Row>>)
    ensures r.Spinner? <==> s.loading
    ensures r.ErrorText? <==> !s.loading && s.error != ""
    ensures r.ErrorText? ==> r.message == s.error
    ensures r.Content? ==> |r.data| == |s.products|
    ensures r.Content? ==> forall i :: 0 <= i < |s.products| ==>
      r.data[i] == RowOf(s.products[i]) && r.data[i].product == s.products[i] && r.data[i].idCell == IdCell(s.products[i].id)
  {
    SelectView(s.loading, s.error, seq(|s.products|, i requires 0 <= i < |s.products| => RowOf(s.products[i])))
  }

  /** The spinner beside the heading: shown only while the delete flag is present and true,
      so not in the initial state, where the flag is absent. */
  function DeleteSpinner(s: State): (shown: bool)
    ensures shown <==> s.loadingDelete == Some(true)
    ensures s.loadingDelete.None? ==> !shown
  {
    Truthy(s.loadingDelete)
  }

  /** The spinner beside the create button: shown only while the create flag is present and
      true; the `loadingCrate` flag that the create outcomes write plays no part. */
  function CreateSpinner(s: State): (shown: bool)
    ensures shown <==> s.loadingCreate == Some(true)
    ensures s.loadingCreate.None? ==> !shown
  {
    Truthy(s.loadingCreate)
  }

  /** Every reducer run from a state whose create flag is set keeps it set: no action writes
      `loadingCreate` back, because the create outcomes write `loadingCrate` instead. */
  lemma {:induction false} CreateFlagSticky(s: State, acts: seq<Action>)
    requires Truthy(s.loadingCreate)
    decreases |acts|
    ensures Reducer.Run(Step, s, acts).Some? ==> Truthy(Reducer.Run(Step, s, acts).value.loadingCreate)
  {
    if acts != [] {
      match Step(s, acts[0])
      case None =>
      case Some(t) => CreateFlagSticky(t, acts[1..]);
    }
  }

  /** After a confirmed create, whatever its outcome, the state has the create spinner on, and
      no later run of the reducer turns it off. Only a page that stays mounted shows this: a
      successful create navigates away, a failed one leaves the spinner on screen. */
  lemma CreateSpinnerNeverClears(s: State, response: Response<string>, later: seq<Action>)
    ensures Reducer.Run(Step, s, CreateActions(response)).Some?
    ensures var t := Reducer.Run(Step, s, CreateActions(response)).value;
      CreateSpinner(t) && t.loadingCrate == Some(false) &&
      (Reducer.Run(Step, t, later).Some? ==> CreateSpinner(Reducer.Run(Step, t, later).value))
  {
    Reducer.RunPair(Step, s, CreateActions(response)[0], CreateActions(response)[1]);
    var t := Reducer.Run(Step, s, CreateActions(response)).value;
    CreateFlagSticky(t, later);
  }

  /** A fetch settles the page: it stops loading, takes the payload and clears the error on
      success, keeps the old products and records the message on failure, and touches no
      create or delete flag. */
  lemma FetchSettles(s: State, response: Response<seq<Product>>)
    ensures Reducer.Run(Step, s, FetchActions(response)).Some?
    ensures var t := Reducer.Run(Step, s, FetchActions(response)).value;
      && !t.loading
      && t.products == (if response.Ok? then response.data else s.products)
      && t.error == (if response.Ok? then "" else response.message)
      && t.loadingCreate == s.loadingCreate && t.loadingCrate == s.loadingCrate
      && t.loadingDelete == s.loadingDelete && t.successDelete == s.successDelete
  {
    Reducer.RunPair(Step, s, FetchActions(response)[0], FetchActions(response)[1]);
  }

  /** What a fetch leaves on screen: the fetched products, or the error text; a failure with
      an empty message shows the previous products again. */
  lemma FetchView(s: State, response: Response<seq<Product>>)
    ensures Reducer.Run(Step, s, FetchActions(response)).Some?
    ensures var t := Reducer.Run(Step, s, FetchActions(response)).value;
      match response
      case Ok(p) =>
        View(t).Content? && |View(t).data| == |p| &&
        forall i :: 0 <= i < |p| ==> View(t).data[i] == RowOf(p[i])
      case Failed(m) =>
        (m != "" ==> View(t) == ErrorText(m)) &&
        (m == "" ==>
           View(t).Content? && |View(t).data| == |s.products| &&
           forall i :: 0 <= i < |s.products| ==> View(t).data[i] == RowOf(s.products[i]))
  {
    FetchSettles(s, response);
  }

  /** A confirmed delete ends with the delete spinner off; on success the delete flag is set,
      so the load effect that reacts to it dispatches a reset, and after the reset the next
      run of the load effect fetches again. */
  lemma DeleteThenReload(s: State, response: Response<()>, next: Response<seq<Product>>)
    ensures Reducer.Run(Step, s, DeleteActions(response)).Some?
    ensures var t := Reducer.Run(Step, s, DeleteActions(response)).value;
      && !DeleteSpinner(t) && t.loadingDelete == Some(false)
      && t.successDelete == (if response.Ok? then Some(true) else s.successDelete)
      && (response.Ok? ==> LoadActions(t, next) == [DeleteReset])
      && (response.Ok? ==> LoadActions(Step(t, DeleteReset).value, next) == FetchActions(next))
  {
    Reducer.RunPair(Step, s, DeleteActions(response)[0], DeleteActions(response)[1]);
  }

  /** A run of the reducer ends undefined exactly when some dispatched tag is unrecognised. */
  lemma UndefinedOnlyFromUnknownTags(s: State, acts: seq<Action>)
    ensures Reducer.Run(Step, s, acts).None? <==> exists i :: 0 <= i < |acts| && acts[i].Unrecognised?
  {
    Reducer.RunUndefinedIff(Step, (a: Action) => !a.Unrecognised?, s, acts);
  }

  /** Each handler's log dispatches exactly its action list, so the reducer sees a request
      followed by one outcome (or, for the load effect after a delete, a reset alone). */
  lemma HandlersDispatch(signedIn: bool, s: State, load: Response<seq<Product>>, create: Response<string>, delete: Response<()>)
    ensures ActionsOf(LoadEffects(signedIn, s, load)) == LoadActions(s, load)
    ensures ActionsOf(CreateEffects(create)) == CreateActions(create)
    ensures ActionsOf(DeleteEffects(delete)) == DeleteActions(delete)
  {
    var nav: seq<Effect<Action>> := if signedIn then [] else [Navigated("/login")];
    ActionsOfQuiet(nav);
    ActionsOfAppend(nav, DispatchAll(LoadActions(s, load)));
    ActionsOfDispatchAll(LoadActions(s, load));
    ActionsOfDispatchThen(CreateActions(create), CreateEffects(create)[2..]);
    assert CreateEffects(create) == DispatchAll(CreateActions(create)) + CreateEffects(create)[2..];
    ActionsOfDispatchThen(DeleteActions(delete), DeleteEffects(delete)[2..]);
    assert DeleteEffects(delete) == DispatchAll(DeleteActions(delete)) + DeleteEffects(delete)[2..];
  }

  /** The mounted page: its reducer state and every effect it has produced so far. */
  class Page {
    var state: State
    var log: seq<Effect<Action>>

    /** The reducer state is always the fold of every action the page has dispatched. */
    ghost predicate Valid()
      reads this
    {
      Reducer.Run(Step, Init(), ActionsOf(log)) == Some(state)
    }

    constructor ()
      ensures Valid() && state == Init() && log == []
    {
      state := Init();
      log := [];
    }

    /** React's dispatch, for the tags this page's handlers use. */
    method Dispatch(a: Action)
      requires Valid() && !a.Unrecognised?
      modifies this
      ensures Valid()
      ensures state == Step(old(state), a).value && log == old(log) + [Dispatched(a)]
    {
      ActionsOfDispatchThen([a], []);
      ActionsOfAppend(log, [Dispatched(a)]);
      Reducer.RunAppend(Step, Init(), ActionsOf(log), [a]);
      state := Step(state, a).value;
      log := log + [Dispatched(a)];
    }

    /** Other effects, in order: navigations and snackbars. */
    method Record(es: seq<Effect<Action>>)
      requires Valid() && forall i :: 0 <= i < |es| ==> !es[i].Dispatched?
      modifies this
      ensures Valid() && state == old(state) && log == old(log) + es
    {
      ghost var acts := ActionsOf(log);
      ActionsOfAppend(log, es);
      ActionsOfQuiet(es);
      assert ActionsOf(log + es) == acts + [] == acts;
      log := log + es;
      assert ActionsOf(log) == acts;
    }

    /** The effect's inner fetch: a request, then the outcome of the awaited call. */
    method FetchData(response: Response<seq<Product>>)
      requires Valid()
      modifies this
      ensures Valid()
      ensures log == old(log) + DispatchAll(FetchActions(response))
      ensures Reducer.Run(Step, old(state), FetchActions(response)) == Some(state)
    {
      ghost var s0, log0 := state, log;
      Dispatch(FetchRequest);
      match response {
        case Ok(p) => Dispatch(FetchSuccess(p));
        case Failed(m) => Dispatch(FetchFail(m));
      }
      Reducer.RunPair(Step, s0, FetchActions(response)[0], FetchActions(response)[1]);
      LogAfterPair(log0, FetchActions(response)[0], FetchActions(response)[1], []);
    }

    /** The load effect, run on mount and whenever `successDelete` changes. A signed-out
        visitor is sent to the login page, but the effect goes on: reading the missing token
        throws inside the request's `try`, so the fetch can only fail. */
    method Load(signedIn: bool, response: Response<seq<Product>>)
      requires Valid()
      requires !signedIn ==> response.Failed?
      modifies this
      ensures Valid()
      ensures log == old(log) + LoadEffects(signedIn, old(state), response)
      ensures Reducer.Run(Step, old(state), LoadActions(old(state), response)) == Some(state)
    {
      ghost var s0, log0 := state, log;
      var nav: seq<Effect<Action>> := [];
      if !signedIn {
        Record([Navigated("/login")]);
        nav := [Navigated("/login")];
      }
      assert log == log0 + nav && state == s0;
      if Truthy(state.successDelete) {
        assert LoadActions(s0, response) == [DeleteReset];
        Dispatch(DeleteReset);
        DispatchAllShort(DeleteReset, DeleteReset);
        Reducer.RunSingle(Step, s0, DeleteReset);
      } else {
        assert LoadActions(s0, response) == FetchActions(response);
        FetchData(response);
      }
      LogAfter(log0, nav, DispatchAll(LoadActions(s0, response)));
    }

    /** The add-product button: nothing unless confirmed; otherwise a request, then either a
        success (snackbar and navigation to the new product's editor) or a failure snackbar. */
    method CreateHandler(confirmed: bool, response: Response<string>)
      requires Valid()
      modifies this
      ensures Valid()
      ensures !confirmed ==> state == old(state) && log == old(log)
      ensures confirmed ==> log == old(log) + CreateEffects(response)
      ensures confirmed ==> Reducer.Run(Step, old(state), CreateActions(response)) == Some(state)
    {
      if !confirmed {
        return;
      }
      ghost var s0, log0 := state, log;
      Dispatch(CreateRequest);
      match response {
        case Ok(id) =>
          Dispatch(CreateSuccess);
          Record([Notified("Product created succesfully", Success), Navigated("/admin/product/" + id)]);
          LogAfterPair(log0, CreateRequest, CreateSuccess, CreateEffects(response)[2..]);
        case Failed(m) =>
          Dispatch(CreateFail);
          Record([Notified(m, Error)]);
          LogAfterPair(log0, CreateRequest, CreateFail, CreateEffects(response)[2..]);
      }
      Reducer.RunPair(Step, s0, CreateActions(response)[0], CreateActions(response)[1]);
    }

    /** A row's delete button: nothing unless confirmed; otherwise a request, then either a
        success or a failure, each with its snackbar. The product id only forms the URL. */
    method DeleteHandler(productId: string, confirmed: bool, response: Response<()>)
      requires Valid()
      modifies this
      ensures Valid()
      ensures !confirmed ==> state == old(state) && log == old(log)
      ensures confirmed ==> log == old(log) + DeleteEffects(response)
      ensures confirmed ==> Reducer.Run(Step, old(state), DeleteActions(response)) == Some(state)
    {
      if !confirmed {
        return;
      }
      ghost var s0, log0 := state, log;
      Dispatch(DeleteRequest);
      match response {
        case Ok(_) =>
          Dispatch(DeleteSuccess);
          Record([Notified("Product deleted succesfully", Success)]);
          LogAfterPair(log0, DeleteRequest, DeleteSuccess, DeleteEffects(response)[2..]);
        case Failed(m) =>
          Dispatch(DeleteFail);
          Record([Notified(m, Error)]);
          LogAfterPair(log0, DeleteRequest, DeleteFail, DeleteEffects(response)[2..]);
      }
      Reducer.RunPair(Step, s0, DeleteActions(response)[0], DeleteActions(response)[1]);
    }
  }
}
