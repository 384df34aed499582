/** The storefront header: the dark-mode switch, the cart badge and the account menu. */
module Layout {
  import opened Js
  import opened Effects
  import opened Store

  /** A DOM element the account menu can be anchored to. */
  type Element = nat

  /** The store action the dark-mode switch dispatches: it turns the current mode off or on. */
  function ToggleAction(darkMode: bool): (a: StoreAction)
    ensures a == DarkModeOff <==> darkMode
    ensures a == DarkModeOn <==> !darkMode
  {
    if darkMode then DarkModeOff else DarkModeOn
  }

  /** The cookie value recording a mode. */
  function ModeCookie(dark: bool): (v: string)
    ensures v == "ON" <==> dark
    ensures v == "OFF" <==> !dark
  {
    if dark then "ON" else "OFF"
  }

  /** The cookie the switch writes always agrees with the action it dispatches. */
  lemma CookieAgreesWithAction(darkMode: bool)
    ensures ModeCookie(!darkMode) == "ON" <==> ToggleAction(darkMode) == DarkModeOn
    ensures ModeCookie(!darkMode) == "OFF" <==> ToggleAction(darkMode) == DarkModeOff
  {
  }

  /** The cart link's badge: shown exactly when the cart has lines, with their number. */
  function CartBadge(cartItems: seq<CartItem>): (r: Option<nat>)
    ensures r.Some? <==> |cartItems| > 0
    ensures r.Some? ==> r.value == |cartItems|
  {
    if |cartItems| > 0 then Some(|cartItems|) else None
  }

  /** The entries of the account menu. */
  datatype MenuEntry = UpdateProfile | OrderHistory | AdminDashboard | Logout

  /** Where an entry's click sends the visitor through the close handler; logout has its own. */
  function EntryTarget(e: MenuEntry): Option<string> {
    match e
    case UpdateProfile => Some("/profile")
    case OrderHistory => Some("/order-history")
    case AdminDashboard => Some("/admin/dashboard")
    case Logout => None
  }

  /** The account menu: none for a visitor who is not signed in (who sees a login link);
      otherwise profile and order history, the admin dashboard for administrators only, and
      logout last. */
  function Menu(userInfo: Option<UserInfo>): (entries: seq<MenuEntry>)
    ensures userInfo.None? ==> entries == []
    ensures userInfo.Some? ==> |entries| >= 3 && entries[0] == UpdateProfile && entries[1] == OrderHistory
    ensures userInfo.Some? ==> entries[|entries| - 1] == Logout
    ensures userInfo.Some? ==> |entries| == if userInfo.value.isAdmin then 4 else 3
    ensures AdminDashboard in entries <==> userInfo.Some? && userInfo.value.isAdmin
  {
    match userInfo
    case None => []
    case Some(u) => [UpdateProfile, OrderHistory] + (if u.isAdmin then [AdminDashboard] else []) + [Logout]
  }

  /** The header's own state: the menu anchor, the browser's cookies and the effects so far. */
  class Header {
    var anchorEl: Option<Element>
    var cookies: map<string, string>
    var log: seq<Effect<StoreAction>>

    constructor (jar: map<string, string>)
      ensures anchorEl.None? && cookies == jar && log == []
    {
      anchorEl := None;
      cookies := jar;
      log := [];
    }

    /** The dark-mode switch: dispatch the opposite of the current mode, then remember the
        new mode in the cookie. */
    method DarkModeChange(darkMode: bool)
      modifies this
      ensures anchorEl == old(anchorEl)
      ensures cookies == old(cookies)["darkMode" := ModeCookie(!darkMode)]
      ensures log == old(log) + [Dispatched(ToggleAction(darkMode)), CookieSet("darkMode", ModeCookie(!darkMode))]
    {
      log := log + [Dispatched(if darkMode then DarkModeOff else DarkModeOn)];
      var newDarkMode := !darkMode;
      var value := if newDarkMode then "ON" else "OFF";
      cookies := cookies["darkMode" := value];
      log := log + [CookieSet("darkMode", value)];
    }

    /** Clicking the user's name opens the menu at that button. */
    method LoginClick(target: Element)
      modifies this
      ensures anchorEl == Some(target) && cookies == old(cookies) && log == old(log)
    {
      anchorEl := Some(target);
    }

    /** Closing the menu clears the anchor, and navigates only when given a non-empty redirect. */
    method LoginMenuClose(redirect: Option<string>)
      modifies this
      ensures anchorEl.None? && cookies == old(cookies)
      ensures Present(redirect) ==> log == old(log) + [Navigated(redirect.value)]
      ensures !Present(redirect) ==> log == old(log)
    {
      anchorEl := None;
      if Present(redirect) {
        log := log + [Navigated(redirect.value)];
      }
    }

    /** Clicking a menu entry other than logout closes the menu and goes to its page. */
    method ChooseEntry(e: MenuEntry)
      requires !e.Logout?
      modifies this
      ensures anchorEl.None? && cookies == old(cookies)
      ensures log == old(log) + [Navigated(EntryTarget(e).value)]
    {
      LoginMenuClose(EntryTarget(e));
    }

    /** Logout: close the menu, sign out in the store, drop the user and cart cookies, go home. */
    method LogoutClick()
      modifies this
      ensures anchorEl.None?
      ensures cookies == old(cookies) - {"userInfo", "cartItems"}
      ensures log == old(log) + [Dispatched(UserLogout), CookieRemoved("userInfo"), CookieRemoved("cartItems"), Navigated("/")]
    {
      anchorEl := None;
      log := log + [Dispatched(UserLogout)];
      cookies := cookies - {"userInfo"};
      log := log + [CookieRemoved("userInfo")];
      cookies := cookies - {"cartItems"};
      log := log + [CookieRemoved("cartItems")];
      log := log + [Navigated("/")];
    }
  }

  /** Two flips of the switch, the second made after the store has applied the first, dispatch
      opposite actions and leave the cookie recording the starting mode. */
  method ToggleTwice(jar: map<string, string>, darkMode: bool) returns (cookie: string, actions: seq<StoreAction>)
    ensures cookie == ModeCookie(darkMode)
    ensures actions == [ToggleAction(darkMode), ToggleAction(!darkMode)]
    ensures actions[0] != actions[1]
  {
    var h := new Header(jar);
    h.DarkModeChange(darkMode);
    h.DarkModeChange(!darkMode);
    cookie := h.cookies["darkMode"];
    actions := [h.log[0].action, h.log[2].action];
  }
}
