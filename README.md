# Lapak Kaos storefront and admin pages: a Dafny model

This project models the decision logic of a Next.js storefront with an admin back office.

**Admin pages.** Each admin page (products, users, orders, dashboard) keeps its request state in a local reducer. The model gives each page:
- a `State` record and an `Action` datatype;
- the reducer as `Step(s, a): Option<State>`, where `None` is the `undefined` that the `default:` branch returns (the branch has no `return`);
- the action lists that its effect and handlers dispatch;
- a `Page` class whose `state` is always the fold (`Reducer.Run`) of every action in its effect `log`, starting from the initial state;
- the rules that pick what the main panel shows (spinner, error text, or table) and the labels in each table row.

JavaScript fields that the initial state leaves out are `Option<bool>`, with `None` standing for `undefined`.

**Storefront.** The model covers:
- the add-to-cart quantity and stock check;
- the payment-method step (mount redirect, cookie preselection, submit);
- the header's dark-mode switch, account menu, logout, cart badge and admin entry.

**Behaviour the source has and the model keeps as written:**
- The product reducer's create outcomes write a misspelt field, `loadingCrate`. So no action of the reducer ever clears `loadingCreate` once a create has set it (`CreateFlagSticky`, `CreateSpinnerNeverClears`). A successful create navigates to the new product's edit page (pages/admin/products.js:112), so the spinner left on screen is seen on the failure path: after a failed create the page stays mounted with its create spinner showing until the page is left.
- A signed-out visitor on an admin page is sent to `/login`, but the effect does not return. Its fetch still runs, and reading the missing token throws inside the `try`, so the fetch dispatches `FETCH_FAIL`.
- A `FETCH_FAIL` whose message is empty leaves the page showing the previous table (`FetchView`, `FirstLoadView`).

Every HTTP call is an input of type `Effects.Response`: either the data or a failure message. `window.confirm` is a boolean input. Navigation, snackbars, alerts and cookie writes are recorded in order in an effect log.

## Model

| member | source | states |
|---|---|---|
| Js.Substring | pages/admin/products.js:217 | `substring` clamps both indices into the string and swaps them when reversed: the slice between the clamped indices in every case (counting characters, see Left out), including an index below zero (from the start) or past the end (to the end) |
| Js.Interpolate | pages/admin/orders.js:146 | a template literal prints a missing value as "undefined" |
| AdminView.SelectView | pages/admin/products.js:195-199 | spinner exactly when loading; error text exactly when not loading and the error is non-empty; otherwise the content |
| AdminView.IdCell | pages/admin/products.js:217 | the id column is characters 20-24 of the id: the last four of a 24-character id, empty for ids of 20 characters or fewer |
| AdminProducts.Init | pages/admin/products.js:69-73 | loading, no products, no error, and the create/delete flags absent |
| AdminProducts.Step | pages/admin/products.js:35-60 | field by field: FETCH_* set loading, products and error; CREATE_REQUEST alone writes loadingCreate; CREATE_SUCCESS/FAIL write only loadingCrate; DELETE_* set loadingDelete and successDelete as listed; an unrecognised tag gives undefined |
| AdminProducts.View | pages/admin/products.js:195-217 | spinner whenever loading, whatever the error; error text when not loading and the error is non-empty; else one row per product, in order: the whole row of that product (`RowOf`), so its product, id cell and edit link |
| AdminProducts.RowOf | pages/admin/products.js:214-244 | a product's row holds the product itself, an id cell of at most four characters (the id's characters 20-24 for a full id), and an edit link `/admin/product/` followed by the whole id |
| AdminProducts.DeleteSpinner | pages/admin/products.js:180 | the heading spinner shows exactly when `loadingDelete` is present and true, so not while the flag is absent |
| AdminProducts.CreateSpinner | pages/admin/products.js:190 | the create-button spinner shows exactly when `loadingCreate` is present and true, so not while the flag is absent |
| AdminProducts.CreateFlagSticky | pages/admin/products.js:43-48 | once loadingCreate is true, every later reducer run keeps it true |
| AdminProducts.CreateSpinnerNeverClears | pages/admin/products.js:43-48 | after a confirmed create, whatever its outcome, the reducer state has the create spinner on, and no later run of the reducer turns it off while the page stays mounted; only loadingCrate becomes false |
| AdminProducts.FetchSettles | pages/admin/products.js:37-42 | a fetch stops loading; success replaces the products and clears the error; failure keeps the products and sets the error; the create/delete flags are untouched |
| AdminProducts.FetchView | pages/admin/products.js:195-199 | after a fetch the panel shows one row per fetched product, in order, or the error text; a failure with an empty message shows one row per old product |
| AdminProducts.DeleteThenReload | pages/admin/products.js:91-95 | a delete ends with loadingDelete false; success sets successDelete; the effect then dispatches DELETE_RESET instead of fetching, and its next run fetches |
| AdminProducts.UndefinedOnlyFromUnknownTags | pages/admin/products.js:57-58 | a reducer run ends undefined exactly when some action tag is unrecognised |
| AdminProducts.HandlersDispatch | pages/admin/products.js:99-135 | the load effect, createHandler and deleteHandler dispatch exactly their action lists: REQUEST then one of SUCCESS or FAIL |
| AdminProducts.Page.constructor | pages/admin/products.js:66-73 | the page starts in the initial state with an empty log |
| AdminProducts.Page.FetchData | pages/admin/products.js:80-90 | dispatches FETCH_REQUEST, then FETCH_SUCCESS with the data or FETCH_FAIL with the message; the new state is the reducer run over those two |
| AdminProducts.Page.Load | pages/admin/products.js:75-96 | pushes /login when signed out without returning; then DELETE_RESET if successDelete is set, else the fetch |
| AdminProducts.Page.CreateHandler | pages/admin/products.js:99-117 | declined confirm: nothing changes; otherwise CREATE_REQUEST, then CREATE_SUCCESS with a snackbar and navigation to the new product, or CREATE_FAIL with an error snackbar |
| AdminProducts.Page.DeleteHandler | pages/admin/products.js:119-135 | declined confirm: nothing changes; otherwise DELETE_REQUEST, then DELETE_SUCCESS or DELETE_FAIL, each with its snackbar |
| AdminUsers.Init | pages/admin/users.js:60-65 | loading, no users, no error, the delete flags absent |
| AdminUsers.Step | pages/admin/users.js:34-54 | field by field: FETCH_* as on the products page (FETCH_FAIL keeps users); DELETE_REQUEST only sets loadingDelete; DELETE_SUCCESS sets successDelete; DELETE_FAIL leaves it; DELETE_RESET clears both; unknown tags give undefined |
| AdminUsers.AdminCell | pages/admin/users.js:175 | "YES" exactly when isAdmin, "NO" exactly when not |
| AdminUsers.View | pages/admin/users.js:153-175 | spinner / error text / one row per user, in order: the whole row of that user (`RowOf`), with its id cell, YES exactly for administrators, and its edit link |
| AdminUsers.RowOf | pages/admin/users.js:170-196 | a user's row holds the user itself, an id cell of at most four characters, YES exactly for an administrator, and an edit link `/admin/user/` followed by the whole id |
| AdminUsers.DeleteSpinner | pages/admin/users.js:150 | the heading spinner shows exactly when `loadingDelete` is present and true, so not while the flag is absent |
| AdminUsers.FetchSettles | pages/admin/users.js:36-41 | a fetch stops loading; success replaces users and clears the error; failure keeps users and sets the error |
| AdminUsers.DeleteThenReload | pages/admin/users.js:83-87 | after a delete the spinner is off (loadingDelete false); successDelete is set on success and kept on failure; the effect's reset clears both flags and the run after it fetches |
| AdminUsers.UndefinedOnlyFromUnknownTags | pages/admin/users.js:51-52 | a reducer run ends undefined exactly when some action tag is unrecognised |
| AdminUsers.HandlersDispatch | pages/admin/users.js:92-107 | the load effect and deleteHandler dispatch exactly their action lists |
| AdminUsers.Page.constructor | pages/admin/users.js:60-65 | the page starts in the initial state with an empty log |
| AdminUsers.Page.FetchData | pages/admin/users.js:72-82 | FETCH_REQUEST then FETCH_SUCCESS or FETCH_FAIL; the state is the reducer run over them |
| AdminUsers.Page.Load | pages/admin/users.js:67-88 | /login when signed out without returning; DELETE_RESET if successDelete is set, else the fetch |
| AdminUsers.Page.DeleteHandler | pages/admin/users.js:92-107 | declined confirm: nothing; otherwise DELETE_REQUEST then DELETE_SUCCESS or DELETE_FAIL with a snackbar |
| AdminOrders.Init | pages/admin/orders.js:48-52 | loading, no orders, no error |
| AdminOrders.Step | pages/admin/orders.js:31-42 | loading exactly after FETCH_REQUEST; orders replaced only by FETCH_SUCCESS; error is the FETCH_FAIL message, else empty; unknown tags give undefined |
| AdminOrders.UserCell | pages/admin/orders.js:140 | the customer's name when present, "Deleted User" otherwise |
| AdminOrders.PaidCell | pages/admin/orders.js:145-147 | starts with "paid at " exactly when paid (followed by the date); "not paid" otherwise |
| AdminOrders.DeliveredCell | pages/admin/orders.js:150-152 | starts with "delivered at " exactly when delivered; "not delivered" otherwise |
| AdminOrders.View | pages/admin/orders.js:117-152 | spinner / error text / one row per order, in order, the whole row of that order (`RowOf`), whose id, user, date, total, paid and delivered cells are those of that order |
| AdminOrders.RowOf | pages/admin/orders.js:136-160 | an order's row: an id cell of at most four characters, the customer's name or "Deleted User", the date and total, a paid cell starting "paid at " exactly when paid, a delivered cell starting "delivered at " exactly when delivered, and a details link `/order/` followed by the whole id |
| AdminOrders.FetchSettles | pages/admin/orders.js:35-38 | success replaces orders and clears the error; failure keeps orders and sets the error |
| AdminOrders.FirstLoadView | pages/admin/orders.js:117-121 | after the first load: the row of each fetched order, in order, or the error text, or an empty table for an empty message |
| AdminOrders.UndefinedOnlyFromUnknownTags | pages/admin/orders.js:39-40 | a reducer run ends undefined exactly when some action tag is unrecognised |
| AdminOrders.LoadDispatchesFetch | pages/admin/orders.js:54-72 | the effect dispatches FETCH_REQUEST then exactly one of FETCH_SUCCESS or FETCH_FAIL, signed in or not |
| AdminOrders.Page.constructor | pages/admin/orders.js:48-52 | the page starts in the initial state with an empty log |
| AdminOrders.Page.FetchData | pages/admin/orders.js:59-69 | FETCH_REQUEST then FETCH_SUCCESS or FETCH_FAIL; the state is the reducer run over them |
| AdminOrders.Page.Load | pages/admin/orders.js:54-72 | pushes /login when signed out and still fetches |
| AdminDashboard.Init | pages/admin/dashboard.js:42-46 | loading, no error, an empty sales series, no figures |
| AdminDashboard.Step | pages/admin/dashboard.js:25-36 | FETCH_REQUEST sets loading and clears the error, keeping the summary; FETCH_SUCCESS replaces it; FETCH_FAIL keeps it and sets the error; unknown tags give undefined |
| AdminDashboard.View | pages/admin/dashboard.js:106-110 | loading wins, then the error, then the summary cards |
| AdminDashboard.FetchSettles | pages/admin/dashboard.js:27-32 | success replaces the summary and clears the error; failure keeps the summary and sets the error |
| AdminDashboard.FirstLoadView | pages/admin/dashboard.js:106-110 | after the first load: the fetched summary, or the error, or exactly the initial summary (absent figures, no sales) for an empty message |
| AdminDashboard.UndefinedOnlyFromUnknownTags | pages/admin/dashboard.js:33-34 | a reducer run ends undefined exactly when some action tag is unrecognised |
| AdminDashboard.LoadDispatchesFetch | pages/admin/dashboard.js:48-66 | the effect dispatches FETCH_REQUEST then exactly one outcome |
| AdminDashboard.Page.constructor | pages/admin/dashboard.js:42-46 | the page starts in the initial state with an empty log |
| AdminDashboard.Page.FetchData | pages/admin/dashboard.js:53-63 | FETCH_REQUEST then FETCH_SUCCESS or FETCH_FAIL; the state is the reducer run over them |
| AdminDashboard.Page.Load | pages/admin/dashboard.js:48-66 | pushes /login when signed out and still fetches |
| Home.FindItem | pages/index.js:25 | items are matched by product id; the result is the first match, or none when no item has that id |
| Home.Quantity | pages/index.js:25-26 | 1 for a product not in the cart; otherwise the first matching line's quantity plus 1 |
| Home.InStock | pages/index.js:28 | the stock check passes exactly when the requested quantity is at most the stock |
| Home.AddToCartHandler | pages/index.js:24-34 | a failed stock request: nothing; stock below the quantity: the alert only; otherwise CART_ADD_ITEM with the product and quantity, then /cart |
| Home.AddTwice | pages/index.js:25-28 | a new product asks for 1 unit, then 2 once its line is in the cart; stock equal to the quantity is accepted |
| Payment.SavedMethod | pages/payment.js:34 | the cookie's value, or "" when the cookie is absent |
| Payment.SavedMethodRoundTrip | pages/payment.js:45 | the method written to the cookie is the method read back from it |
| Payment.Page.constructor | pages/payment.js:23 | the chosen method starts empty |
| Payment.Page.Mount | pages/payment.js:30-36 | no shipping address: go to /shipping; otherwise preselect the saved method |
| Payment.Page.Choose | pages/payment.js:69 | choosing a radio button sets the method |
| Payment.Page.Submit | pages/payment.js:38-48 | empty method: the "Payment method is required" error, no dispatch, cookie or navigation; otherwise SAVE_PAYMENT_METHOD with that method, the cookie set to it, then /placeorder |
| Payment.SubmitThenRevisit | pages/payment.js:30-46 | a method saved by a successful submit is preselected on the next visit |
| Layout.ToggleAction | components/Layout.js:65 | DARK_MODE_OFF exactly when dark mode is on, DARK_MODE_ON exactly when off |
| Layout.ModeCookie | components/Layout.js:67 | "ON" exactly for dark, "OFF" exactly for light |
| Layout.CookieAgreesWithAction | components/Layout.js:64-68 | the cookie the switch writes is "ON" exactly when it dispatches DARK_MODE_ON |
| Layout.CartBadge | components/Layout.js:117-120 | a badge exactly when the cart has lines, showing their number |
| Layout.Menu | components/Layout.js:129-172 | no menu when signed out; profile and order history first, logout last; the admin dashboard entry exactly for administrators, so four entries for them and three otherwise |
| Layout.Header.constructor | components/Layout.js:70 | the menu starts closed |
| Layout.Header.DarkModeChange | components/Layout.js:64-68 | dispatches the toggle action, then sets the darkMode cookie to the new mode |
| Layout.Header.LoginClick | components/Layout.js:71-73 | opens the menu at the clicked element |
| Layout.Header.LoginMenuClose | components/Layout.js:75-80 | clears the anchor; navigates only when given a non-empty redirect |
| Layout.Header.ChooseEntry | components/Layout.js:148-165 | a menu entry closes the menu and goes to its page |
| Layout.Header.LogoutClick | components/Layout.js:82-88 | clears the anchor, dispatches USER_LOGOUT, removes the userInfo and cartItems cookies, goes to "/" |
| Layout.ToggleTwice | components/Layout.js:64-68 | assuming the store applies each DARK_MODE_ON/OFF before the next flip, two flips dispatch opposite actions and leave the cookie recording the starting mode |

## Left out

- Js.Substring and AdminView.IdCell index Unicode characters, not UTF-16 code units as JavaScript does. They agree with JavaScript on strings without characters outside the Basic Multilingual Plane, such as the hexadecimal database ids. On other strings they can differ: JavaScript may split a surrogate pair where the model keeps the whole character.
- HTTP calls through axios are abstract `Response` inputs. The endpoints and their data live outside the repository.
- The error helper in utils/error is not part of this model. Its message is the text carried by `Response.Failed`.
- The global store reducer in utils/Store is not part of this model. The pages only record which store action they dispatch.
- `getServerSideProps` (pages/index.js:74-83) is left out: it reads the database through modules that are not part of this model.
- React scheduling is left out: effect re-runs on dependency changes, batching, and interleaving of overlapping async requests. Each effect and handler runs to completion on its own, and its awaits are its inputs.
- Page.Dispatch (each admin page) accepts only the tags the page's own handlers dispatch. After the reducer returns `undefined`, the page can no longer read its state, and that crash is not modelled.
- AdminProducts.Page.CreateHandler: when a successful response has no `product`, the navigation throws inside the `try` and CREATE_FAIL follows CREATE_SUCCESS. This is not modelled: a successful response always carries the new id.
- Layout.Header.LoginMenuClose takes any redirect. The menu library's own `onClose` arguments are library behaviour and are not part of this model.
- Snackbar options other than the variant, `preventDefault`, and the theme built from the dark-mode flag (components/Layout.js:40-62) are left out.
- All JSX/MUI markup, icons and CSS are left out. So are pages/_app.js (provider wiring), components/CheckoutWizard.js (a fixed label list) and pages/products/[slug].js.
- Prices, stock counts and quantities are unbounded integers and ratings are reals. JavaScript floating point is not modelled.
