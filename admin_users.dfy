/** The admin user list: its reducer, its load effect, its delete handler and its table. */
module AdminUsers {
  import opened Js
  import opened Effects
  import opened AdminView
  import Reducer

  /** A user record as the admin API returns it. */
  datatype User = User(id: string, name: string, email: string, isAdmin: bool)

  /** The page's reducer state; the two delete flags are absent (`None`) at first. */
  datatype State = State(
    loading: bool,
    users: seq<User>,
    error: string,
    loadingDelete: Option<bool>,
    successDelete: Option<bool>)

  /** The action tags the reducer handles, and any other tag. */
  datatype Action =
    | FetchRequest
    | FetchSuccess(users: seq<User>)
    | FetchFail(message: string)
    | DeleteRequest
    | DeleteSuccess
    | DeleteFail
    | DeleteReset
    | Unrecognised(tag: string)

  /** The state the page starts from. */
  function Init(): (s: State)
    ensures s.loading && s.users == [] && s.error == ""
    ensures s.loadingDelete.None? && s.successDelete.None?
  {
    State(true, [], "", None, None)
  }

  /** The reducer, stated field by field: which actions write each field, and to what. An
      unrecognised tag falls into the default branch, which returns nothing. */
  function Step(s: State, a: Action): (r: Option<State>)
    ensures r.None? <==> a.Unrecognised?
    ensures r.Some? ==> r.value.loading == (if a.FetchRequest? then true else if a.FetchSuccess? || a.FetchFail? then false else s.loading)
    ensures r.Some? ==> r.value.users == (if a.FetchSuccess? then a.users else s.users)
    ensures r.Some? ==> r.value.error == (if a.FetchRequest? || a.FetchSuccess? then "" else if a.FetchFail? then a.message else s.error)
    ensures r.Some? ==>
              r.value.loadingDelete == (if a.DeleteRequest? then Some(true)
                                        else if a.DeleteSuccess? || a.DeleteFail? || a.DeleteReset? then Some(false)
                                        else s.loadingDelete)
    ensures r.Some? ==> r.value.successDelete == (if a.DeleteSuccess? then Some(true) else if a.DeleteReset? then Some(false) else s.successDelete)
  {
    match a
    case FetchRequest => Some(s.(loading := true, error := ""))
    case FetchSuccess(u) => Some(s.(loading := false, users := u, error := ""))
    case FetchFail(m) => Some(s.(loading := false, error := m))
    case DeleteRequest => Some(s.(loadingDelete := Some(true)))
    case DeleteSuccess => Some(s.(loadingDelete := Some(false), successDelete := Some(true)))
    case DeleteFail => Some(s.(loadingDelete := Some(false)))
    case DeleteReset => Some(s.(loadingDelete := Some(false), successDelete := Some(false)))
    case Unrecognised(_) => None
  }

  /** The actions of one fetch: a request, then exactly one outcome. */
  function FetchActions(response: Response<seq<User>>): seq<Action> {
    [FetchRequest, match response case Ok(u) => FetchSuccess(u) case Failed(m) => FetchFail(m)]
  }

  /** The actions the load effect dispatches: a reset after a successful delete, a fetch otherwise. */
  function LoadActions(s: State, response: Response<seq<User>>): seq<Action> {
    if Truthy(s.successDelete) then [DeleteReset] else FetchActions(response)
  }

  /** The effects of the load effect: the login redirect when signed out, then its actions. */
  function LoadEffects(signedIn: bool, s: State, response: Response<seq<User>>): seq<Effect<Action>> {
    (if signedIn then [] else [Navigated("/login")]) + DispatchAll(LoadActions(s, response))
  }

  /** The actions of a confirmed delete: a request, then exactly one outcome. */
  function DeleteActions(response: Response<()>): seq<Action> {
    [DeleteRequest, if response.Ok? then DeleteSuccess else DeleteFail]
  }

  /** The effects of a confirmed delete. */
  function DeleteEffects(response: Response<()>): seq<Effect<Action>> {
    DispatchAll(DeleteActions(response)) +
    match response
    case Ok(_) => [Notified("User deleted succesfully", Success)]
    case Failed(m) => [Notified(m, Error)]
  }

  /** The IS ADMIN column. */
  function AdminCell(isAdmin: bool): (r: string)
    ensures r == "YES" <==> isAdmin
    ensures r == "NO" <==> !isAdmin
  {
    if isAdmin then "YES" else "NO"
  }

  /** One row of the user table. */
  datatype Row = Row(idCell: string, user: User, adminCell: string, editPath: string)

  /** A user's row: its id's last four characters, the user itself, "YES" exactly for an
      administrator, and the edit link that ends with the full id. */
  function RowOf(u: User): (r: Row)
    ensures r.user == u
    ensures |r.idCell| <= 4 && (24 <= |u.id| ==> r.idCell == u.id[20..24])
    ensures r.adminCell == "YES" <==> u.isAdmin
    ensures StartsWith(r.editPath, "/admin/user/") && r.editPath[12..] == u.id
  {
    Row(IdCell(u.id), u, AdminCell(u.isAdmin), "/admin/user/" + u.id)
  }

  /** The main panel: spinner, error text, or one row per user in order. */
  function View(s: State): (r: Screen<seq<Row>>)
    ensures r.Spinner? <==> s.loading
    ensures r.ErrorText? <==> !s.loading && s.error != ""
    ensures r.ErrorText? ==> r.message == s.error
    ensures r.Content? ==> |r.data| == |s.users|
    ensures r.Content? ==> forall i :: 0 <= i < |s.users| ==>
      && r.data[i] == RowOf(s.users[i])
      && r.data[i].user == s.users[i]
      && r.data[i].idCell == IdCell(s.users[i].id)
      && (r.data[i].adminCell == "YES" <==> s.users[i].isAdmin)
  {
    SelectView(s.loading, s.error, seq(|s.users|, i requires 0 <= i < |s.users| => RowOf(s.users[i])))
  }

  /** The spinner beside the heading: shown only while the delete flag is present and true,
      so not in the initial state, where the flag is absent. */
  function DeleteSpinner(s: State): (shown: bool)
    ensures shown <==> s.loadingDelete == Some(true)
    ensures s.loadingDelete.None? ==> !shown
  {
    Truthy(s.loadingDelete)
  }

  /** A fetch stops loading, takes the payload and clears the error on success, keeps the old
      users and records the message on failure, and touches neither delete flag. */
  lemma FetchSettles(s: State, response: Response<seq<User>>)
    ensures Reducer.Run(Step, s, FetchActions(response)).Some?
    ensures var t := Reducer.Run(Step, s, FetchActions(response)).value;
      && !t.loading
      && t.users == (if response.Ok? then response.data else s.users)
      && t.error == (if response.Ok? then "" else response.message)
      && t.loadingDelete == s.loadingDelete && t.successDelete == s.successDelete
  {
    Reducer.RunPair(Step, s, FetchActions(response)[0], FetchActions(response)[1]);
  }

  /** A confirmed delete ends with the spinner off; the delete flag is set on success and
      left as it was on failure; on success the load effect that reacts to the flag dispatches
      a reset, which clears both flags, and its next run fetches again. */
  lemma DeleteThenReload(s: State, response: Response<()>, next: Response<seq<User>>)
    ensures Reducer.Run(Step, s, DeleteActions(response)).Some?
    ensures var t := Reducer.Run(Step, s, DeleteActions(response)).value;
      && !DeleteSpinner(t) && t.loadingDelete == Some(false)
      && t.users == s.users && t.loading == s.loading && t.error == s.error
      && t.successDelete == (if response.Ok? then Some(true) else s.successDelete)
      && (response.Ok? ==> LoadActions(t, next) == [DeleteReset])
      && (response.Ok? ==> var u := Step(t, DeleteReset).value;
            u.loadingDelete == Some(false) && u.successDelete == Some(false) && LoadActions(u, next) == FetchActions(next))
  {
    Reducer.RunPair(Step, s, DeleteActions(response)[0], DeleteActions(response)[1]);
  }

  /** A run of the reducer ends undefined exactly when some dispatched tag is unrecognised. */
  lemma UndefinedOnlyFromUnknownTags(s: State, acts: seq<Action>)
    ensures Reducer.Run(Step, s, acts).None? <==> exists i :: 0 <= i < |acts| && acts[i].Unrecognised?
  {
    Reducer.RunUndefinedIff(Step, (a: Action) => !a.Unrecognised?, s, acts);
  }

  /** Each handler's log dispatches exactly its action list. */
  lemma HandlersDispatch(signedIn: bool, s: State, load: Response<seq<User>>, delete: Response<()>)
    ensures ActionsOf(LoadEffects(signedIn, s, load)) == LoadActions(s, load)
    ensures ActionsOf(DeleteEffects(delete)) == DeleteActions(delete)
  {
    var nav: seq<Effect<Action>> := if signedIn then [] else [Navigated("/login")];
    ActionsOfQuiet(nav);
    ActionsOfAppend(nav, DispatchAll(LoadActions(s, load)));
    ActionsOfDispatchAll(LoadActions(s, load));
    ActionsOfDispatchThen(DeleteActions(delete), DeleteEffects(delete)[2..]);
    assert DeleteEffects(delete) == DispatchAll(DeleteActions(delete)) + DeleteEffects(delete)[2..];
  }

  /** The mounted page: its reducer state and every effect it has produced so far. */
  class Page {
    var state: State
    var log: seq<Effect<Action>>

    /** The reducer state is always the fold of every action the page has dispatched. */
    ghost predicate Valid()
      reads this
    {
      Reducer.Run(Step, Init(), ActionsOf(log)) == Some(state)
    }

    constructor ()
      ensures Valid() && state == Init() && log == []
    {
      state := Init();
      log := [];
    }

    /** React's dispatch, for the tags this page's handlers use. */
    method Dispatch(a: Action)
      requires Valid() && !a.Unrecognised?
      modifies this
      ensures Valid()
      ensures state == Step(old(state), a).value && log == old(log) + [Dispatched(a)]
    {
      ActionsOfDispatchThen([a], []);
      ActionsOfAppend(log, [Dispatched(a)]);
      Reducer.RunAppend(Step, Init(), ActionsOf(log), [a]);
      state := Step(state, a).value;
      log := log + [Dispatched(a)];
    }

    /** Other effects, in order: navigations and snackbars. */
    method Record(es: seq<Effect<Action>>)
      requires Valid() && forall i :: 0 <= i < |es| ==> !es[i].Dispatched?
      modifies this
      ensures Valid() && state == old(state) && log == old(log) + es
    {
      ghost var acts := ActionsOf(log);
      ActionsOfAppend(log, es);
      ActionsOfQuiet(es);
      assert ActionsOf(log + es) == acts + [] == acts;
      log := log + es;
      assert ActionsOf(log) == acts;
    }

    /** The effect's inner fetch: a request, then the outcome of the awaited call. */
    method FetchData(response: Response<seq<User>>)
      requires Valid()
      modifies this
      ensures Valid()
      ensures log == old(log) + DispatchAll(FetchActions(response))
      ensures Reducer.Run(Step, old(state), FetchActions(response)) == Some(state)
    {
      ghost var s0, log0 := state, log;
      Dispatch(FetchRequest);
      match response {
        case Ok(u) => Dispatch(FetchSuccess(u));
        case Failed(m) => Dispatch(FetchFail(m));
      }
      Reducer.RunPair(Step, s0, FetchActions(response)[0], FetchActions(response)[1]);
      LogAfterPair(log0, FetchActions(response)[0], FetchActions(response)[1], []);
    }

    /** The load effect, run on mount and whenever `successDelete` changes. A signed-out
        visitor is sent to the login page, but the effect goes on: reading the missing token
        throws inside the request's `try`, so the fetch can only fail. */
    method Load(signedIn: bool, response: Response<seq<User>>)
      requires Valid()
      requires !signedIn ==> response.Failed?
      modifies this
      ensures Valid()
      ensures log == old(log) + LoadEffects(signedIn, old(state), response)
      ensures Reducer.Run(Step, old(state), LoadActions(old(state), response)) == Some(state)
    {
      ghost var s0, log0 := state, log;
      var nav: seq<Effect<Action>> := [];
      if !signedIn {
        Record([Navigated("/login")]);
        nav := [Navigated("/login")];
      }
      assert log == log0 + nav && state == s0;
      if Truthy(state.successDelete) {
        assert LoadActions(s0, response) == [DeleteReset];
        Dispatch(DeleteReset);
        DispatchAllShort(DeleteReset, DeleteReset);
        Reducer.RunSingle(Step, s0, DeleteReset);
      } else {
        assert LoadActions(s0, response) == FetchActions(response);
        FetchData(response);
      }
      LogAfter(log0, nav, DispatchAll(LoadActions(s0, response)));
    }

    /** A row's delete button: nothing unless confirmed; otherwise a request, then either a
        success or a failure, each with its snackbar. The user id only forms the URL. */
    method DeleteHandler(userId: string, confirmed: bool, response: Response<()>)
      requires Valid()
      modifies this
      ensures Valid()
      ensures !confirmed ==> state == old(state) && log == old(log)
      ensures confirmed ==> log == old(log) + DeleteEffects(response)
      ensures confirmed ==> Reducer.Run(Step, old(state), DeleteActions(response)) == Some(state)
    {
      if !confirmed {
        return;
      }
      ghost var s0, log0 := state, log;
      Dispatch(DeleteRequest);
      match response {
        case Ok(_) =>
          Dispatch(DeleteSuccess);
          Record([Notified("User deleted succesfully", Success)]);
          LogAfterPair(log0, DeleteRequest, DeleteSuccess, DeleteEffects(response)[2..]);
        case Failed(m) =>
          Dispatch(DeleteFail);
          Record([Notified(m, Error)]);
          LogAfterPair(log0, DeleteRequest, DeleteFail, DeleteEffects(response)[2..]);
      }
      Reducer.RunPair(Step, s0, DeleteActions(response)[0], DeleteActions(response)[1]);
    }
  }
}
