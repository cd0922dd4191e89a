# Storefront cart and session core, in Dafny

A model of the client-side state of a small storefront web application: the
cart reducer (a mapping from product id to quantity, its derived
`totalItems`, and the `cartItems` record that mirrors it in the browser's
`localStorage`), the session held in the user context (login, logout,
hydration at startup), the route table that decides which page a path renders
for a logged-in or logged-out user, the products fetch-status slice, and the
small pure helpers of the catalog, cart-history and home pages.

Modules follow the source files:

| module | source |
|---|---|
| `CartSlice` | src/features/cart/cartSlice.tsx |
| `SemanticAppLayout` | src/SemanticAppLayout.tsx |
| `Login` | src/components/User/Login.tsx |
| `Logout` | src/components/User/Logout.tsx |
| `ProductsSlice` | src/features/products/productsSlice.tsx |
| `ProductCatalog` | src/components/Product/ProductCatalog.tsx |
| `CartHistory` | src/components/User/CartHistory.tsx |
| `Homepage` | src/components/Homepage.tsx |
| `UserContext` | src/context/UserContext.tsx (the user record) |
| `Storage` | `localStorage`, as a `Store` object whose `data` is a `map<string, Value>` of decoded records |
| `Text`, `Sequences`, `Wrappers` | the JavaScript built-ins used (`toLowerCase`, `includes`, `trim`, `toString`, `Number`, `filter`) and Option/Result |

State that the source changes in place is a class: `Cart` (items, totalItems,
and the shared `Store`), `Layout` (the user state and the i18n language),
`LoginForm`, `ProductsState`, `CatalogView`, `CartHistoryView`. The store is
one object shared by the cart and the layout, as `localStorage` is shared by
the whole page. Network replies are inputs (`AuthResponse`,
`ProductsResponse`, an optional list of fetched product details);
`navigate(...)` is the method's returned target.

Behaviour of the code that the model keeps as written:

- The conditional group at src/SemanticAppLayout.tsx:123-139 gates `/logout`
  (:129, :137), but the unconditional route at :120 comes first. With
  first-declared-wins ordering `/logout` renders Logout even when logged out.
  `AccessOf` gives each path the access class that conditional group gives it,
  and `Guarded` is the page that class allows. `ResolveIsGuarded` proves that
  the table agrees with it on every other path. `LogoutIsNotGuarded` shows the
  one place where they differ.
- `initialState` reads `items` from storage but sets `totalItems` to 0
  (src/features/cart/cartSlice.tsx:12-15). So `Cart.Consistent()`
  (`totalItems` equals the sum) holds only after `setCart`, `initializeCart`
  or another reducer has run. The home page and the shopping cart run one on
  mount.
- `removeItem` recomputes the total and writes storage only when it finds the
  id with a non-zero quantity. Otherwise it changes nothing.
- Quantities are integers, possibly 0 or negative.
  `addItem` followed by `removeItem` restores the mapping unless the prior
  quantity was 0 or -1 (`AddThenRemove`, `AddThenRemoveExceptions`). With
  positive quantities, an invariant that `addItem` and `removeItem` preserve,
  neither case can occur.
- The code has no recovery for malformed stored JSON.
- The cart-history search keeps the carts whose own `id` equals the typed
  number, not the carts of that user (src/components/User/CartHistory.tsx:19).
- Logout puts `{name: '', isLoggedIn: false, token: ''}` into the context,
  which has no `username`. That is not the startup default, whose `username`
  is `''`.

## Model

| member | source | states |
|---|---|---|
| `CartSlice.CalculateTotalItems` | src/features/cart/cartSlice.tsx:17-19 | the reduce over the quantities returns their sum, whatever order the keys are visited in |
| `CartSlice.SumRemove` | src/features/cart/cartSlice.tsx:17-19 | the sum of the quantities equals any one quantity plus the sum of the rest |
| `CartSlice.SumUpdate` | src/features/cart/cartSlice.tsx:17-19 | setting one quantity changes the sum by the difference between the new and the old quantity |
| `CartSlice.AddedItems` | src/features/cart/cartSlice.tsx:30-36 | addItem sets an absent or 0 quantity to 1 and adds exactly 1 to any other; the id becomes a key; no other key or quantity changes; positive quantities stay positive |
| `CartSlice.RemovedItems` | src/features/cart/cartSlice.tsx:40-50 | removeItem leaves an absent or 0 id alone, deletes an id whose quantity was 1, otherwise subtracts 1; it never leaves the id at 0; no other key changes; positive quantities stay positive |
| `CartSlice.AddedItemsSum` | src/features/cart/cartSlice.tsx:30-37 | each addItem raises the sum of quantities by exactly 1 |
| `CartSlice.RemovedItemsSum` | src/features/cart/cartSlice.tsx:40-47 | a removeItem that finds the id lowers the sum by exactly 1 |
| `CartSlice.AddThenRemove` | src/features/cart/cartSlice.tsx:30-50 | removeItem(id) after addItem(id) restores the prior mapping when id is absent or its quantity is neither 0 nor -1 |
| `CartSlice.AddThenRemoveExceptions` | src/features/cart/cartSlice.tsx:30-50 | with a prior quantity of 0 the entry is deleted, and with -1 a 0 entry remains, so both exceptions are real |
| `CartSlice.AddThenRemovePositive` | src/features/cart/cartSlice.tsx:30-50 | on a cart whose quantities are all positive, removeItem always undoes addItem |
| `CartSlice.Cart.constructor` | src/features/cart/cartSlice.tsx:12-15 | initial state: items are the stored mapping (empty if none is stored), totalItems is 0, storage mirrors items |
| `CartSlice.Cart.SetCart` | src/features/cart/cartSlice.tsx:25-29 | items are replaced and totalItems is the new sum; storage is untouched |
| `CartSlice.Cart.AddItem` | src/features/cart/cartSlice.tsx:30-39 | items become AddedItems, totalItems is their sum (one more than before when it was consistent), and storage["cartItems"] is the new mapping |
| `CartSlice.Cart.RemoveItem` | src/features/cart/cartSlice.tsx:40-50 | items become RemovedItems; with the id found, totalItems is the new sum and storage holds the new mapping; otherwise total and storage are unchanged; the mirror is preserved |
| `CartSlice.Cart.ClearCart` | src/features/cart/cartSlice.tsx:51-55 | items empty, totalItems 0, "cartItems" removed from storage, whatever the prior state |
| `CartSlice.Cart.Checkout` | src/features/cart/cartSlice.tsx:56-60 | the same reset as clearCart; nothing else in storage changes |
| `CartSlice.Cart.InitializeCart` | src/features/cart/cartSlice.tsx:65-68 | items are what storage holds and totalItems is their sum; after any persisting reducer this reproduces the same mapping |
| `Storage.Store.SetItem` | src/features/cart/cartSlice.tsx:38 | `localStorage.setItem(key, value)` binds key to value and leaves the other keys alone |
| `Storage.Store.RemoveItem` | src/components/User/Logout.tsx:17-18 | `localStorage.removeItem(key)` drops key and nothing else; an absent key changes nothing |
| `Storage.StoredCartItems` | src/features/cart/cartSlice.tsx:13 | an absent cartItems record reads as the empty mapping |
| `Storage.StoredCartItemsRoundTrip` | src/features/cart/cartSlice.tsx:65-68 | reading back what setItem('cartItems', m) wrote gives m |
| `Storage.StoredSession` | src/SemanticAppLayout.tsx:51-53 | no session is read when the userSession key is absent |
| `Storage.StoredSessionRoundTrip` | src/components/User/Login.tsx:61 | reading back the session that setItem('userSession', …) wrote gives that session |
| `Storage.StoredLanguage` | src/SemanticAppLayout.tsx:61 | no language is read when the language key is absent |
| `SemanticAppLayout.Routes` | src/SemanticAppLayout.tsx:117-141 | the table has eleven routes in declaration order, the last being the catch-all NotFound |
| `SemanticAppLayout.FirstMatchFrom` | src/SemanticAppLayout.tsx:117-141 | the result is the view of the earliest matching route at or after i, and none exactly when no route there matches |
| `SemanticAppLayout.Resolve` | src/SemanticAppLayout.tsx:117-141 | the page shown for a path is the view of the earliest route in the table whose pattern matches it; the catch-all makes one always match |
| `SemanticAppLayout.FirstMatchIs` | src/SemanticAppLayout.tsx:117-141 | the first matching route decides, whatever later routes say |
| `SemanticAppLayout.ResolveIsGuarded` | src/SemanticAppLayout.tsx:118-140 | on every path except /logout the table equals the access the conditional group gives: public paths render, guarded paths render iff logged in, others are NotFound |
| `SemanticAppLayout.LogoutIsNotGuarded` | src/SemanticAppLayout.tsx:120-137 | /logout renders Logout in both session states, where the guard would deny it when logged out |
| `SemanticAppLayout.PublicRoutesRender` | src/SemanticAppLayout.tsx:118-122 | /, /home, /login and /create-user render their view whatever the session |
| `SemanticAppLayout.GuardedRoutesNeedLogin` | src/SemanticAppLayout.tsx:123-139 | /update-user, /delete-user, /cart-history and /cart render their view iff logged in, else AccessDenied |
| `SemanticAppLayout.UnknownRoutesNotFound` | src/SemanticAppLayout.tsx:140 | any path not in the table is NotFound |
| `SemanticAppLayout.MenuLinks` | src/SemanticAppLayout.tsx:77-85 | the create-user link is always shown; each gated link is shown iff logged in; no other link appears |
| `SemanticAppLayout.Account` | src/SemanticAppLayout.tsx:91-110 | the signed-in name and logout link are shown iff logged in, the login button otherwise |
| `SemanticAppLayout.NavLinksRender` | src/SemanticAppLayout.tsx:73-141 | every link the bar shows (the brand link to /, the menu, the account control) renders a real page, never AccessDenied or NotFound |
| `SemanticAppLayout.StartupLanguage` | src/SemanticAppLayout.tsx:60-67 | the startup language is the stored one when it is present and non-empty, and 'en' in every other case (absent or the falsy empty string); it is never empty |
| `SemanticAppLayout.Layout.constructor` | src/SemanticAppLayout.tsx:36-41 | the user starts as {name '', username '', token '', isLoggedIn false} |
| `SemanticAppLayout.Layout.SetUser` | src/SemanticAppLayout.tsx:71 | setUser replaces the user |
| `SemanticAppLayout.Layout.ChangeLanguage` | src/SemanticAppLayout.tsx:44-47 | the language becomes l, storage["language"] is l, and a later start picks l (or 'en' for ''); the session invariants are kept |
| `SemanticAppLayout.Layout.HydrateSession` | src/SemanticAppLayout.tsx:50-58 | a stored session is adopted iff it says isLoggedIn, else the user is unchanged; the token invariant is kept and, from a logged-out start, memory and storage agree |
| `SemanticAppLayout.Layout.HydrateLanguage` | src/SemanticAppLayout.tsx:60-67 | the language becomes the stored one, or 'en' |
| `Login.LoginOutcome` | src/components/User/Login.tsx:40-58 | success iff the reply is ok with a truthy token, building {name u, username u, password p, token, isLoggedIn true}; not ok gives "Invalid username or password", no token gives "Invalid credentials" |
| `Login.ShownError` | src/components/User/Login.tsx:70 | the shown message is the error's, or "Failed to login" when that is empty |
| `Login.LoginForm.constructor` | src/components/User/Login.tsx:9-11 | username, password and error message start empty |
| `Login.LoginForm.SetUsername` | src/components/User/Login.tsx:88 | typing sets the username |
| `Login.LoginForm.SetUserPassword` | src/components/User/Login.tsx:98 | typing sets the password |
| `Login.LoginForm.CheckExistingSession` | src/components/User/Login.tsx:16-26 | a stored logged-in session is put into the context and the page goes to /home; otherwise nothing happens |
| `Login.LoginForm.HandleLogin` | src/components/User/Login.tsx:28-72 | on success the session is stored and put into the context and the page goes to /home; on any failure storage and user are unchanged and only the message is set |
| `Logout.Logout` | src/components/User/Logout.tsx:15-28 | userSession and cartItems are removed, the user becomes {name '', token '', isLoggedIn false}, the cart is empty with total 0, and the target is /login |
| `Logout.LogoutTwice` | src/components/User/Logout.tsx:15-28 | a second logout leaves the state of one logout |
| `ProductsSlice.FetchOutcome` | src/features/products/productsSlice.tsx:22-32 | the thunk yields the products iff the reply is ok, "Failed to fetch products" for a non-ok reply, and the network error's message otherwise |
| `ProductsSlice.RejectionError` | src/features/products/productsSlice.tsx:53 | the error is the message when there is a non-empty one, null otherwise |
| `ProductsSlice.ProductsState.constructor` | src/features/products/productsSlice.tsx:35-41 | items [], status idle, error null |
| `ProductsSlice.ProductsState.Pending` | src/features/products/productsSlice.tsx:44-46 | status loading, nothing else changes |
| `ProductsSlice.ProductsState.Fulfilled` | src/features/products/productsSlice.tsx:47-50 | status succeeded, items the payload, error unchanged |
| `ProductsSlice.ProductsState.Rejected` | src/features/products/productsSlice.tsx:51-54 | status failed, error the message or null, items unchanged |
| `ProductsSlice.ProductsState.FetchProducts` | src/features/products/productsSlice.tsx:22-54 | a dispatch ends succeeded (iff the reply is ok, with its products) or failed (items kept, error set) |
| `ProductCatalog.Endpoint` | src/components/Product/ProductCatalog.tsx:18-21 | the URL starts with the products URL and ends with ?sort=order; it is exactly those two joined iff the category is empty; for a category c it starts with the products URL and /category/c, and its length leaves no room for anything else |
| `ProductCatalog.Pow2` | src/components/Product/ProductCatalog.tsx:46 | `2 ** n` is at least 1 |
| `ProductCatalog.Pow2Monotone` | src/components/Product/ProductCatalog.tsx:46 | 2^i is non-decreasing in i |
| `ProductCatalog.RetryDelay` | src/components/Product/ProductCatalog.tsx:46 | the delay never exceeds 30000 ms |
| `ProductCatalog.RetryDelayMonotone` | src/components/Product/ProductCatalog.tsx:46 | the delay is non-decreasing in the attempt index |
| `ProductCatalog.RetryDelaySchedule` | src/components/Product/ProductCatalog.tsx:46 | the delay is 100·2^i for i up to 8 and exactly 30000 from 9 on |
| `ProductCatalog.FilteredProducts` | src/components/Product/ProductCatalog.tsx:50-56 | the order-preserving subsequence holding exactly the matching products, each as often as in the input: titles contain the search text ignoring case, prices within the limit |
| `ProductCatalog.BlankFilterKeepsAll` | src/components/Product/ProductCatalog.tsx:52-53 | with empty search and blank price every product is kept, in order |
| `ProductCatalog.CatalogView.constructor` | src/components/Product/ProductCatalog.tsx:34-37 | no category, ascending sort, empty search and price; the first request is products?sort=asc |
| `ProductCatalog.CatalogView.HandleCategoryClick` | src/components/Product/ProductCatalog.tsx:62-64 | the category becomes the clicked one |
| `ProductCatalog.CatalogView.HandleSortChange` | src/components/Product/ProductCatalog.tsx:66-68 | the sort order becomes the chosen one |
| `ProductCatalog.CatalogView.HandleSearchChange` | src/components/Product/ProductCatalog.tsx:70-72 | the search text becomes the typed one |
| `ProductCatalog.CatalogView.HandlePriceChange` | src/components/Product/ProductCatalog.tsx:74-76 | the price query becomes the typed one |
| `ProductCatalog.HandleAddToCart` | src/components/Product/ProductCatalog.tsx:58-60 | addItem on the decimal text of the numeric id; storage["cartItems"] becomes the new mapping and no other key changes |
| `ProductCatalog.CartKeyIdentifiesProduct` | src/components/Product/ProductCatalog.tsx:58-60 | two ids share a cart key iff they are equal, and the key reads back as the id |
| `CartHistory.FetchCarts` | src/components/User/CartHistory.tsx:16-20 | exactly the carts whose id equals the number, in their original order and multiplicity; none for NaN |
| `CartHistory.ReduceQuantities` | src/components/User/CartHistory.tsx:119 | the reduce from an accumulator adds the sum of the quantities to it |
| `CartHistory.TotalItems` | src/components/User/CartHistory.tsx:119 | a cart's shown total is the sum of its lines' quantities |
| `CartHistory.DecimalIdAccepted` | src/components/User/CartHistory.tsx:45-52 | every integer written in decimal passes the check and selects that id |
| `CartHistory.BlankIdRejected` | src/components/User/CartHistory.tsx:45-52 | blank input is rejected although Number reads it as 0 |
| `CartHistory.NonNumericIdRejected` | src/components/User/CartHistory.tsx:45-52 | input whose trimmed text holds a character other than a digit or a sign is NaN and is rejected |
| `CartHistory.CartHistoryView.constructor` | src/components/User/CartHistory.tsx:31-34 | empty input, no error, no selected order, no details |
| `CartHistory.CartHistoryView.SetUserId` | src/components/User/CartHistory.tsx:94 | typing sets the id input |
| `CartHistory.CartHistoryView.Carts` | src/components/User/CartHistory.tsx:37-43 | the query runs iff the input is non-empty and then shows exactly the carts whose id is Number(input) |
| `CartHistory.CartHistoryView.HandleSearch` | src/components/User/CartHistory.tsx:45-52 | the input error is set iff the input is blank or not a number, and cleared otherwise |
| `CartHistory.CartHistoryView.HandleOrderClick` | src/components/User/CartHistory.tsx:54-66 | the order is selected; details are replaced only when every product request succeeded |
| `CartHistory.CartHistoryView.HandleHideDetails` | src/components/User/CartHistory.tsx:68-71 | no selected order and no product details |
| `Homepage.Mount` | src/components/Homepage.tsx:18-20 | the cart becomes the stored mapping (or empty) with the total recomputed; storage is untouched |
| `Homepage.CartLabel` | src/components/Homepage.tsx:36 | "empty" iff the count is 0; "1 item" for 1; for any other count its decimal text followed by " items" |
| `Homepage.CartLabelInjective` | src/components/Homepage.tsx:36 | different counts give different labels |
| `Homepage.Render` | src/components/Homepage.tsx:22-42 | the cart button appears iff logged in, the login prompt iff not, the catalog always |
| `Text.ParseNatToString` | src/components/Product/ProductCatalog.tsx:59 | reading the decimal digits of n gives n |
| `Text.ParseIntToString` | src/components/Product/ProductCatalog.tsx:59 | reading an integer's toString gives the integer |
| `Text.IntToStringInjective` | src/components/Product/ProductCatalog.tsx:59 | distinct integers have distinct decimal strings |
| `Text.NumberOfIntToString` | src/components/User/CartHistory.tsx:39 | Number reads back what toString writes |
| `Text.NumberOf` | src/components/User/CartHistory.tsx:39 | Number of a blank string is 0 |
| `Text.Lower` | src/components/Product/ProductCatalog.tsx:52 | the result has the input's length, holds no upper-case letter, and keeps every character that is not an upper-case letter where it was |
| `Text.LowerKeepsContains` | src/components/Product/ProductCatalog.tsx:52 | a title that includes the search text as typed still includes it after both are lower-cased, so the title test passes it |
| `Text.IntToString` | src/components/Product/ProductCatalog.tsx:59 | `toString` of an integer is non-empty, ends in a digit, starts with '-' iff the integer is negative, and is otherwise digits |
| `Text.Contains` | src/components/Product/ProductCatalog.tsx:52 | `includes`: a string contains only texts no longer than itself, and contains each of its prefixes |
| `Text.ContainsEmpty` | src/components/Product/ProductCatalog.tsx:52 | every string includes the empty string |
| `Text.Trim` | src/components/User/CartHistory.tsx:47 | the trimmed text neither starts nor ends with white space |
| `Text.TrimIsSlice` | src/components/User/CartHistory.tsx:47 | the trimmed text is a contiguous slice of the input with only white space before and after it |
| `Text.TrimUnpadded` | src/components/User/CartHistory.tsx:47 | a string without white space at either end is its own trim |
| `Sequences.Filter` | src/components/Product/ProductCatalog.tsx:51-55 | filter keeps exactly the elements passing the test, each as often as in the input, in their original order |
| `Sequences.FilterKeepsAll` | src/components/Product/ProductCatalog.tsx:51-55 | filtering with a test every element passes returns the input |

## Left out

- The remote API: every `fetch` is replaced by its settled reply. Request bodies, headers and HTTP status codes beyond ok or not ok are left out. The user forms in src/components/User/CreateUser.tsx, UpdateUser.tsx and DeleteUser.tsx are not part of this model.
- JSON text: storage holds decoded records. Stored text that is not valid JSON is not modelled; the code has no recovery for it. A record of the wrong kind under a key reads as absent; the application never writes one.
- Asynchrony: each network callback runs as one step after its request. The interleaving of several pending requests, and last-write-wins between browser tabs, are not modelled.
- React, Redux and React Query machinery: rendering, hooks, Immer drafts and the store setup in src/store.tsx and src/main.tsx. Query caching, refetching, `staleTime` and the execution of the three retries are left out. Only the delay formula is kept.
- React Router matching: a path matches a route only when it is exactly equal to it. Case-insensitive matching and a tolerated trailing slash are not modelled.
- Translation: `t(key)` stands for `key`. The NotFound and AccessDenied pages and all markup are left out.
- `console.log` and `console.error` calls.
- Floating point: prices are whole numbers, product `rating` is dropped, and the shopping cart's price totals in src/components/Product/ShoppingCart.tsx are not part of this model.
- ProductCatalog.FilteredProducts: the maximum-price input is either blank or a whole-number limit, so `parseFloat` on other text, and the NaN limit that then hides every product, are not modelled.
- CartSlice.CartItems: a fractional, null or non-numeric stored quantity, which the application never writes, is not modelled.
- CartSlice.AddedItems, CartSlice.RemovedItems: only decimal product ids are modelled. In the source `state.items` is a plain object, so an id that names an `Object.prototype` member (`toString`, `__proto__`) would find an inherited value; no call site passes such an id (src/components/Product/ProductCatalog.tsx:59 passes `id.toString()`, the shopping cart passes existing keys).
- Text.Lower: only ASCII letters are lower-cased; Unicode case mapping is not modelled.
- Text.Trim: only ASCII white space is removed; the other Unicode spaces `trim` removes are not.
- Text.NumberOf: only a sign followed by decimal digits is a number. Decimals, exponents, hexadecimal and `Infinity` read as NaN, so `HandleSearch` rejects inputs such as "1.5" that the page accepts.
- Text.IntToString: integers of 10^21 or more, which JavaScript writes in exponent notation, are written in plain digits.
- The "no orders found" message and the rendering of fetched product details on the cart-history page are presentation and are left out.
