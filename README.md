# Cart store of the storefront application context

This project models the client-side store of a retail storefront, the React context in
`src/context/AppContext.jsx`. The store holds four things: the signed-in user (or none),
the seller flag, the product catalog, and the cart. The cart maps a product id to a
quantity. The model covers:

- the three cart edits. `addToCart`, `updateCartItem` and `removeFromCart` each copy the
  cart, change the copy and replace the cart with it;
- the two cart queries. `getCartCount` is the sum of the quantities. `getCartAmount` is
  offer price × quantity over the entries with a positive quantity;
- the sync reaction. Every time the cart is replaced it is pushed to the backend, but only
  while a user is signed in;
- how the store reacts to the replies of the user-auth, seller-auth and product-list
  requests.

Layout:

- `wrappers.dfy` (`Wrappers`): the `Option` type.
- `cart.dfy` (`CartOps`): the cart as a value and the three edits as functions, with
  their round-trip lemmas. The store's truth test `if (cart[id])` is false both for a
  missing key and for a stored 0. It is the predicate `Present`.
- `totals.dfy` (`CartTotals`): `Sum` over a map (independent of key order), the catalog
  lookup `FindProduct` (first match), the amount outcome `CartAmount`, and the lemmas
  about count and amount.
- `store.dfy` (`AppStore`): the whole store as a value (`StoreState`), one cart edit
  (`Step`) and a sequence of edits (`Run`), the reactions to backend replies, the trace
  lemmas, and the class `CartStore`. Its fields are the store's state. Its methods do
  what the source functions do, step by step, and are proved against `Step` and the
  reply functions. The queries are loops over the cart, proved against `Sum` and
  `CartAmount`.

Backend replies are parameters:

- `UserReply`: success with a user, success flag false, or an error thrown.
- `SellerReply`: the same three cases.
- `ProductsReply`: success, rejection or error, each error with its message.

The carts that the sync reaction would send are kept in the ghost log `pushed`. Prices are
whole cents.

Three behaviours of the code that the model keeps as they are:

- A user-auth reply whose success flag is false changes nothing
  (`src/context/AppContext.jsx:53-56` has no `else`). Only a thrown error signs the user
  out (`:58`). It leaves the cart alone, so nothing is pushed.
- `updateCartItem` stores 0 or a negative quantity exactly as given (`:93`). So cart
  quantities are not always positive. `addToCart` and `removeFromCart` keep an
  all-positive cart all-positive (`AllPositive` in the ensures of `AddedCart`,
  `RemovedCart` and `UpdatedCart`, and `PositiveRun`).
- `getCartAmount` does not check the result of its product lookup. For a positive entry
  whose product is missing, reading `offerPrice` at `:132` throws. The model returns
  `MissingProduct(id)` instead, and `CartAmount` is `None` exactly in that case.

## Model

| member | source | states |
|---|---|---|
| `CartOps.AddedCart` | src/context/AppContext.jsx:77-85 | the new quantity of the id is the old one (0 if missing) plus 1, also for a stored 0; the keys gain only the id; every other entry is unchanged; an all-positive cart stays all-positive |
| `CartOps.UpdatedCart` | src/context/AppContext.jsx:91-94 | stores exactly the given quantity, even 0 or negative, and never deletes the key; other entries unchanged; an all-positive cart stays all-positive exactly when the quantity is positive |
| `CartOps.RemovedCart` | src/context/AppContext.jsx:100-108 | a missing or zero entry leaves the cart equal to the old one; quantity 1 deletes the key; any other nonzero quantity goes down by one and the key stays (a negative one keeps falling); other entries unchanged; keeps all-positive |
| `CartOps.RemoveUndoesAdd` | src/context/AppContext.jsx:77-108 | remove after add restores the cart if and only if the entry was missing or neither 0 nor -1 |
| `CartOps.AddUndoesRemove` | src/context/AppContext.jsx:77-108 | add after remove restores the cart if and only if the entry was present with a nonzero quantity |
| `CartOps.UpdateLastWins` | src/context/AppContext.jsx:91-94 | of two quantity updates of one id, the later one decides the cart |
| `CartTotals.SumRemove` | src/context/AppContext.jsx:117-123 | the sum of the quantities can take out any key first, so it does not depend on the order the loop visits the keys |
| `CartTotals.FindProduct` | src/context/AppContext.jsx:129 | finds nothing exactly when no catalog product has the id; otherwise returns the product with that id at the first index where the id occurs |
| `CartTotals.CountAfterAdd` | src/context/AppContext.jsx:117-123 | after an add, the item count is exactly one more than before |
| `CartTotals.CountAfterRemove` | src/context/AppContext.jsx:117-123 | after a remove, the count is one less when the entry was present and nonzero, and unchanged otherwise |
| `CartTotals.CountAfterUpdate` | src/context/AppContext.jsx:117-123 | after a quantity update, the count loses the old quantity and gains the new one |
| `CartTotals.AmountAfterAdd` | src/context/AppContext.jsx:126-135 | adding a listed product whose quantity was not negative raises the amount by its offer price, and the amount stays defined |
| `CartTotals.AmountIgnoresNonPositive` | src/context/AppContext.jsx:131-133 | an entry with quantity 0 or less adds nothing to the amount and cannot make the query fail |
| `CartTotals.CountExample` | src/context/AppContext.jsx:117-123 | the count of {a: 2, b: 3} is 5 |
| `CartTotals.AmountExample` | src/context/AppContext.jsx:126-135 | two of a product offered at 1000 cents (list price 1200) cost 2000: the offer price is used |
| `AppStore.Step` | src/context/AppContext.jsx:146-161 | an edit replaces the cart with the edited copy and leaves user, seller flag and catalog alone; signed in, it pushes exactly the new cart; signed out, it pushes nothing |
| `AppStore.AfterUserReply` | src/context/AppContext.jsx:50-60 | success sets the user and replaces the cart with the user's saved cart, which is pushed once; a rejected reply changes nothing; a thrown error clears the user and pushes nothing |
| `AppStore.AfterSellerReply` | src/context/AppContext.jsx:34-45 | the seller flag is true exactly on a success reply; nothing else changes |
| `AppStore.AfterProductsReply` | src/context/AppContext.jsx:63-74 | only a success reply replaces the catalog; nothing else changes |
| `AppStore.ProductsNotice` | src/context/AppContext.jsx:63-74 | an error notice is raised exactly when the reply is not a success, and it carries the reply's or the error's message |
| `AppStore.RunKeepsSession` | src/context/AppContext.jsx:77-113 | any sequence of cart edits leaves user, seller flag and catalog unchanged |
| `AppStore.AnonymousRunPushesNothing` | src/context/AppContext.jsx:157-160 | while no user is signed in, no sequence of edits pushes anything |
| `AppStore.SignedInRunPushesEachCart` | src/context/AppContext.jsx:146-161 | while signed in, a sequence of edits pushes exactly the cart each edit produced, one per edit, in order |
| `AppStore.LastPushIsCurrentCart` | src/context/AppContext.jsx:146-161 | signed in, the push log grows by the number of edits, and its last entry is the cart the store holds |
| `AppStore.RepeatedAdds` | src/context/AppContext.jsx:77-85 | after n adds of one id, its quantity is n more than before; from a missing entry it is n |
| `AppStore.AddsRaiseCount` | src/context/AppContext.jsx:117-123 | a run made only of adds raises the item count by the number of adds |
| `AppStore.PositiveRun` | src/context/AppContext.jsx:77-113 | edits that never set a quantity below 1 keep every quantity of an all-positive cart positive |
| `AppStore.NoOpRemoveStillPushes` | src/context/AppContext.jsx:100-113 | a remove of a missing or zero entry keeps the cart's value, but a signed-in store still pushes it, because the cart was replaced |
| `AppStore.SignInExample` | src/context/AppContext.jsx:50-56 | signing in with the saved cart {a: 1} gives an item count of 1 and exactly one push |
| `AppStore.CartStore.constructor` | src/context/AppContext.jsx:24-29 | the store starts with no user, no seller flag, an empty catalog, an empty cart and nothing pushed |
| `AppStore.CartStore.SetCartItems` | src/context/AppContext.jsx:146-161 | given a new cart object, the cart becomes that object's contents, and it is appended to the push log exactly when a user is signed in |
| `AppStore.CartStore.AddToCart` | src/context/AppContext.jsx:77-87 | the new cart is `AddedCart` of the old one, and the whole new state is `Step` with `Add` |
| `AppStore.CartStore.UpdateCartItem` | src/context/AppContext.jsx:91-96 | the new cart is `UpdatedCart` of the old one, and the whole new state is `Step` with `Update` |
| `AppStore.CartStore.RemoveFromCart` | src/context/AppContext.jsx:100-113 | the new cart is `RemovedCart` of the old one, and the whole new state is `Step` with `Remove`, so a push happens even when nothing was removed |
| `AppStore.CartStore.GetCartCount` | src/context/AppContext.jsx:117-123 | the loop over the cart returns the sum of all stored quantities |
| `AppStore.CartStore.GetCartAmount` | src/context/AppContext.jsx:126-135 | fails exactly when a positive entry has no catalog product, and names such an entry; otherwise returns the sum of offer price × quantity over the positive entries |
| `AppStore.CartStore.FetchUser` | src/context/AppContext.jsx:50-60 | the new state is `AfterUserReply` of the old state and the reply |
| `AppStore.CartStore.FetchSeller` | src/context/AppContext.jsx:34-45 | the new state is `AfterSellerReply` of the old state and the reply |
| `AppStore.CartStore.FetchProducts` | src/context/AppContext.jsx:63-74 | the new state is `AfterProductsReply` of the old state and the reply, and the notice returned is `ProductsNotice` of the reply |

## Left out

- HTTP requests, the base URL and cookie settings: not modelled. Each reply is a parameter, and the push is an entry in the ghost log `pushed`.
- The reply to the cart push (`src/context/AppContext.jsx:149-155`): not modelled. It only shows an error notice and never changes the store.
- Success notices of the cart edits, and navigation: not modelled. They are UI side effects. `removeFromCart` shows its notice even when nothing was removed.
- Concurrency: not modelled. Requests in flight at the same time, pushes resolving out of order, and the order in which the three startup requests return are all left out. Each operation runs on the latest state.
- React batching of several edits in one event handler: not modelled. In such a handler every edit reads the same stale cart, so later edits overwrite earlier ones. The model runs each edit on the current cart.
- AppStore.CartStore.SetCartItems: does not model object identity. In the code, passing the raw setter the object the store already holds changes nothing: React sees the same object, the effect does not run, and nothing is pushed. A value model cannot tell that object from a new one with equal contents, so `SetCartItems` pushes on every call while a user is signed in.
- The effect's reaction to the object identity of the cart: not modelled as such. Every edit and every successful sign-in installs a new object, so the model treats every cart replacement as a change.
- The effect's first run at mount: only implicit. The cart is empty and no user is signed in, so it pushes nothing, and the constructor's empty log already says so.
- `Math.floor(totalAmount * 100) / 100` and floating-point prices: not modelled. Prices are whole cents, where that rounding is the identity.
- JavaScript number precision: not modelled. Quantities and amounts are unbounded integers, while the source's numbers are IEEE doubles, exact only up to 2^53.
- Product ids that name a property of `Object.prototype` (`constructor`, `toString`, `valueOf`, `hasOwnProperty`, `__proto__` and the like): not modelled. The source's cart is a plain JavaScript object. On such an id, `cartData[itemId]` reads the inherited property, and an assignment to `__proto__` is ignored. So the edits at `src/context/AppContext.jsx:80-107` store something other than a number, or nothing at all. The model treats every id as an own key of a map. Cart ids are the catalog's database `_id` strings, the ones matched at `:129`, and those never take these names.
- Type errors from the backend reply shapes: not modelled. A user without `cartItems`, or quantities that are not numbers, cannot be expressed in the model.
- `searchQuery`, `showUserLogin`, `currency` and the raw setters `setUser` and `setIsSeller`: not modelled. They are plain state or configuration with no logic. The cart's raw setter is `SetCartItems`.
- The commented-out copy of the module (`src/context/AppContext.jsx:181-356`): not modelled.
