/** The payment-method step of the checkout. */
module Payment {
  import opened Js
  import opened Effects
  import opened Store

  const MethodCookie := "paymentMethod"
  const Required := "Payment method is required"

  /** The method remembered in the cookie jar; an absent cookie reads as the empty string. */
  function SavedMethod(cookies: map<string, string>): (m: string)
    ensures MethodCookie in cookies ==> m == cookies[MethodCookie]
    ensures MethodCookie !in cookies ==> m == ""
  {
    if MethodCookie in cookies then cookies[MethodCookie] else ""
  }

  /** Saving a method in the cookie and reading it back gives the same method. */
  lemma SavedMethodRoundTrip(cookies: map<string, string>, m: string)
    ensures SavedMethod(cookies[MethodCookie := m]) == m
  {
  }

  /** The mounted page: the chosen method, the browser's cookies and the effects so far. */
  class Page {
    var paymentMethod: string
    var cookies: map<string, string>
    var log: seq<Effect<StoreAction>>

    constructor (jar: map<string, string>)
      ensures paymentMethod == "" && cookies == jar && log == []
    {
      paymentMethod := "";
      cookies := jar;
      log := [];
    }

    /** The mount effect: without a shipping address, go back to the shipping step;
        otherwise preselect the method remembered in the cookie. */
    method Mount(address: Option<string>)
      modifies this
      ensures cookies == old(cookies)
      ensures !Present(address) ==> paymentMethod == old(paymentMethod) && log == old(log) + [Navigated("/shipping")]
      ensures Present(address) ==> paymentMethod == SavedMethod(cookies) && log == old(log)
    {
      if !Present(address) {
        log := log + [Navigated("/shipping")];
      } else {
        paymentMethod := if MethodCookie in cookies && cookies[MethodCookie] != "" then cookies[MethodCookie] else "";
      }
    }

    /** Picking a radio button. */
    method Choose(value: string)
      modifies this
      ensures paymentMethod == value && cookies == old(cookies) && log == old(log)
    {
      paymentMethod := value;
    }

    /** The continue button: close open snackbars; with no method chosen, report it and stop;
        otherwise save the method in the store and in the cookie, then go to the order summary. */
    method Submit()
      modifies this
      ensures paymentMethod == old(paymentMethod)
      ensures old(paymentMethod) == "" ==>
        cookies == old(cookies) && log == old(log) + [SnackbarsClosed, Notified(Required, Error)]
      ensures old(paymentMethod) != "" ==>
        && cookies == old(cookies)[MethodCookie := old(paymentMethod)]
        && log == old(log) + [SnackbarsClosed, Dispatched(SavePaymentMethod(old(paymentMethod))),
                              CookieSet(MethodCookie, old(paymentMethod)), Navigated("/placeorder")]
    {
      log := log + [SnackbarsClosed];
      if paymentMethod == "" {
        log := log + [Notified(Required, Error)];
      } else {
        log := log + [Dispatched(SavePaymentMethod(paymentMethod))];
        cookies := cookies[MethodCookie := paymentMethod];
        log := log + [CookieSet(MethodCookie, paymentMethod)];
        log := log + [Navigated("/placeorder")];
      }
    }
  }

  /** A method saved by a successful submit is the one preselected on the next visit. */
  method SubmitThenRevisit(jar: map<string, string>, address: string, choice: string)
    returns (restored: string)
    requires address != "" && choice != ""
    ensures restored == choice
  {
    var first := new Page(jar);
    first.Mount(Some(address));
    first.Choose(choice);
    first.Submit();
    var second := new Page(first.cookies);
    second.Mount(Some(address));
    SavedMethodRoundTrip(jar, choice);
    restored := second.paymentMethod;
  }
}
