# QKart storefront client: cart, search and registration logic in Dafny

This project models the client-side logic of the QKart storefront front end.
That logic lives in three React components:

- **Cart** (`common.dfy`, `cart.dfy`). The server keeps a thin cart of `{productId, qty}` entries. The join (`generateCartItemsFrom`) turns it into display-ready cart items by looking each entry up in the product catalog. It writes the entry's quantity onto the catalog object it finds. It throws when an entry names a product the catalog does not hold. The two totals (`getTotalCartValue`, `getTotalItems`) are accumulated over the items.
- **Products page** (`products.dfy`). This is the component state: `products`, `loading`, `searchValid`, the armed debounce timer, `cartItems` and the derived cart. On top of it sit:
  - the duplicate guard `isItemInCart`;
  - the add-to-cart decision and its `POST /cart`;
  - the cart fetch and its no-token early return;
  - the effect that re-runs the join whenever `cartItems` changes;
  - the debounced search, with its URL and its three outcomes;
  - the choice between spinner, product grid and "No Products Found".
- **Register page** (`register.dfy`). This covers the single-field form update, the ordered input validation with one message per failing check, and the guard that sends `POST /auth/register` only for valid input.

Catalog products are JavaScript objects shared by reference, and the join writes `qty` onto them. So `Cart.Product` is a class: every catalog field is a constant, and `qty` is its one mutable field. The join's contract states the whole catalog state afterwards:

- only the first object with a given identifier is written;
- the last cart entry naming that identifier wins;
- when the join throws, the entries before the failing one have already written their quantities.

HTTP requests and timers are events. A handler that would send a request returns the request instead. The request's completion is a separate method that takes a `Response` (success with a body, or failure with an optional status and the server's message). A keystroke arms the debounce timer. `SearchTimerFired` is the timer's expiry. The page has no request sequence numbers and no out-of-order guard. Every completion is applied when it arrives, in whatever order the caller delivers it.

Behaviour of the code that the model reproduces:

- The join throws on a missing product. It does not drop the entry. It also looks products up with a linear filter per entry, not with an index.
- The debounced search keeps no sequence numbers. A late response overwrites a newer one.
- The duplicate guard runs for both the product card and the cart stepper, and it does not look at quantities. The stepper passes derived cart items. Those are catalog objects with `_id` but no `productId`, so the guard never stops the stepper (`Products.ProductsPage.StepQuantity`).
- A search that returns 404 empties the product list and marks the search invalid, so the page shows "No Products Found" once loading is over. It is not treated as a valid empty result.
- A failed `POST /cart` is only logged, and no message reaches the user.
- A failed initial product load marks the search invalid but leaves `loading` set, so the spinner stays.
- If the cart arrives before the catalog, or a search has narrowed `products` before the cart changes, the join runs against a list without the cart's products and throws (`Products.CartBeforeCatalogCrashes`).

## Model

| member | source | states |
|---|---|---|
| `Cart.Product.constructor` | src/components/Cart.js:14-23 | A product carries the catalog fields it was created with, and no join has written its quantity yet. |
| `Cart.FirstMatch` | src/components/Cart.js:53-56 | The object found for an identifier is a catalog object carrying that identifier. |
| `Cart.FirstMatchNone` | src/components/Cart.js:53-56 | The filter finds nothing exactly when no catalog object carries the identifier (`temp` is undefined). |
| `Cart.FirstMatchIsFirst` | src/components/Cart.js:53-56 | The object found is the first one in catalog order with that identifier. |
| `Cart.LastQtyIsLast` | src/components/Cart.js:56-58 | The quantity an object ends up with is that of the last cart entry naming it. |
| `Cart.LastQtyNone` | src/components/Cart.js:56-58 | No quantity is found for an identifier exactly when no cart entry names it. |
| `Cart.UnnamedProductKeepsQty` | src/components/Cart.js:53-57 | A catalog object whose identifier no applied entry names keeps the quantity it had before the join. |
| `Cart.JoinedCart` | src/components/Cart.js:51-61 | A successful join yields one item per cart entry, in cart order, each being the first catalog object found for that entry. |
| `Cart.JoinedCartSlots` | src/components/Cart.js:56-58 | Every item is a catalog object carrying its entry's identifier. Entries naming the same product share one object. |
| `Cart.QtyAfterJoinStep` | src/components/Cart.js:57 | Writing one entry changes the quantity of the object found for it and of no other catalog object. |
| `Cart.JoinStep` | src/components/Cart.js:53-57 | One loop step returns the filter's first object and, when there is one, writes the entry's quantity onto it. |
| `Cart.GenerateCartItemsFrom` | src/components/Cart.js:50-62 | The join succeeds exactly when every entry names a catalog product. It then returns the items in cart order, each holding the last quantity given for its product. Otherwise it throws at the first entry without a product. In both cases, the quantities written before that point stay on the catalog objects and nothing else changes. |
| `Cart.DistinctEntriesKeepQty` | src/components/Cart.js:56-58 | In a cart without repeated products, each item keeps its own entry's quantity. |
| `Cart.QtyAfterJoinIdempotent` | src/components/Cart.js:50-62 | Running the join twice on the same inputs leaves the catalog as one run does. |
| `Cart.GetTotalCartValue` | src/components/Cart.js:74-81 | The loop's total is the sum of cost times quantity over the items. It is 0 for an empty or omitted list. |
| `Cart.GetTotalItems` | src/components/Cart.js:83-89 | The loop's count is the sum of the quantities. It is 0 for an empty or omitted list. |
| `Cart.TotalValueAppend` | src/components/Cart.js:76-80 | The order total of two concatenated item lists is the sum of their totals. |
| `Cart.TotalItemsAppend` | src/components/Cart.js:85-88 | The item count of two concatenated item lists is the sum of their counts. |
| `Cart.JoinedCartValue` | src/components/Cart.js:74-81 | When each item carries its entry's quantity, the order total equals the value of the server's cart: each entry's quantity times its product's cost. |
| `Cart.SingleItemOrder` | src/components/Cart.js:50-81 | Product "A" at cost 10 with 3 in the cart gives one item with quantity 3 and a total of 30. |
| `Cart.MissingProductThrows` | src/components/Cart.js:56-57 | A cart entry for a product missing from the catalog makes the join throw at that entry. |
| `Cart.UnnamedProductUntouched` | src/components/Cart.js:50-62 | Joining a cart that names only "A" gives "A" its entry's quantity 2 and leaves product "B" with the quantity 7 it already had. |
| `Products.WithProductId` | src/components/Products.js:272 | The filter keeps only items whose `productId` equals the identifier. It is non-empty exactly when some item has it. |
| `Products.IsItemInCart` | src/components/Products.js:271-276 | True exactly when some item's `productId` equals the identifier. Quantities are not inspected. |
| `Products.AddToCart` | src/components/Products.js:314-362 | Without a token, only the login warning. With a token and the product already in the items, only the duplicate warning. Otherwise exactly one POST with body `{productId, qty}`, the same whichever `options` is given. |
| `Products.SearchUrl` | src/components/Products.js:118-122 | Every search URL extends the product-list URL. |
| `Products.SearchUrlRoundTrip` | src/components/Products.js:119-122 | The text can be read back from the URL: `/products` for empty text, `/products/search?value=<text>` otherwise. |
| `Products.SearchUrlInjective` | src/components/Products.js:119-122 | Different search texts request different URLs. |
| `Products.DebouncedBounds` | src/components/Products.js:149-156 | A search starts only on a timer expiry, and each one consumes one arming. So there are no more searches than expiries, nor than keystrokes. |
| `Products.DebouncedKeystrokes` | src/components/Products.js:149-156 | Keystrokes with no expiry between them start no search, and only the last keystroke's text stays armed. |
| `Products.DebouncedBurst` | src/components/Products.js:149-156 | A burst of keystrokes followed by one expiry searches exactly once, for the last keystroke's text. |
| `Products.RenderChoice` | src/components/Products.js:413-420 | The spinner shows exactly while loading. After that, the grid shows exactly when the search is valid, and "No Products Found" otherwise. |
| `Products.ProductsPage.constructor` | src/components/Products.js:42-48 | Initial state: no products, loading, search valid, no search armed, empty cart. |
| `Products.ProductsPage.CurrentView` | src/components/Products.js:413-420 | The grid is shown only once loading is over and the search is valid. |
| `Products.ProductsPage.ProductsLoaded` | src/components/Products.js:93-103 | A successful load stores the products and ends loading. A failed load only marks the search invalid. |
| `Products.ProductsPage.SearchInput` | src/components/Products.js:149-156 | A keystroke replaces whatever search was armed with one for its own text. |
| `Products.ProductsPage.SearchTimerFired` | src/components/Products.js:152-154 | An expiry requests the URL for the armed text, if any, and leaves nothing armed. |
| `Products.ProductsPage.RunSearchEvents` | src/components/Products.js:149-156 | Fed a sequence of keystrokes and expiries, the page requests exactly the URLs of the texts the debounce specification searches. |
| `Products.ProductsPage.SearchSettled` | src/components/Products.js:123-134 | Success shows the results and marks the search valid. A 404 empties the products. Any other failure keeps them. Every failure marks the search invalid. |
| `Products.ProductsPage.CartItemsChanged` | src/components/Products.js:172-177 | Whenever the cart changes it is joined against the current products. A successful join replaces the derived cart. A join that throws crashes the page. |
| `Products.ProductsPage.FetchCart` | src/components/Products.js:228-229 | `GET /cart` is requested exactly when the token is truthy. |
| `Products.ProductsPage.CartFetched` | src/components/Products.js:230-251 | Success replaces the cart and re-runs the join: the derived cart and the quantities written onto the catalog objects are those of the join over the new cart. A failure keeps the cart and reports the server's message for a 400, or the fixed message otherwise. |
| `Products.ProductsPage.AddFromCard` | src/components/Products.js:186 | The card adds quantity 1. It is blocked without a token or when the server's cart already holds the product. |
| `Products.ProductsPage.StepQuantity` | src/components/Cart.js:106-113 | With a token, the stepper always posts `value+1` on plus and `value-1` on minus. The duplicate guard never stops it. |
| `Products.ProductsPage.CartPosted` | src/components/Products.js:338-359 | A successful POST replaces the cart wholesale with the response and re-runs the join: the derived cart and the quantities written onto the catalog objects are those of the join over the response. A failed one changes nothing. |
| `Products.TypingBurstSearchesOnce` | src/components/Products.js:149-156 | Typing "p", "ph", "pho" and one expiry request a single search, for "pho". |
| `Products.CartBeforeCatalogCrashes` | src/components/Products.js:164-177 | A non-empty cart that arrives before the catalog is joined against no products, and the page crashes. |
| `Products.StepDownToZero` | src/components/Cart.js:110-113 | Stepping a quantity of 1 down posts quantity 0. |
| `Register.HandleChange` | src/components/Register.js:122-127 | The named field takes the new value and every other field keeps its own. |
| `Register.HandleChangeCommutes` | src/components/Register.js:122-127 | Changes to different fields can be applied in either order. |
| `Register.HandleChangeLastWins` | src/components/Register.js:122-127 | A later change to a field overrides an earlier one. |
| `Register.ValidateInput` | src/components/Register.js:95-121 | The input is valid exactly when username and password have at least 6 characters and the confirmation matches. The checks run in this order: username empty, username short, password empty, password short, mismatch. Each failing case yields exactly its own message. |
| `Register.RegisterPage.constructor` | src/components/Register.js:16-17 | The form starts empty and not loading. |
| `Register.RegisterPage.Change` | src/components/Register.js:122-127 | A keystroke updates the form through the single-field update. |
| `Register.RegisterPage.Register` | src/components/Register.js:43-52 | The request is sent, with username and password only, exactly when validation passes, and only then does loading start. Otherwise the validation message is returned. |
| `Register.RegisterPage.RegisterSettled` | src/components/Register.js:53-73 | Completion always ends loading. A successful registration is announced and leads to the login page. A rejection shows the server's message. |

## Left out

- Rendering (JSX, layout, the snackbar's variants), `Header.js`, `ProductCard.js` and the route table in `App.js`: presentation only.
- axios and the `Authorization: Bearer` header (section 2.1 of RFC 6750): requests are returned as values and completions are events.
- `config.endpoint` is built from `ipConfig.json`, which is not part of this model. The endpoint is a parameter.
- localStorage: the token is an `Option<string>` argument read with JavaScript truthiness. The mount effect's check that a username is stored before calling `fetchCart` is left to the caller.
- Real-time timers and React's effect scheduling. The debounce is an armed text that keystrokes replace and an expiry consumes. The cart effect runs right after `cartItems` changes, with no other event in between. The dummy timer created in the `useState` initializer is not modelled.
- `console.log` calls, and the promise returned by async handlers.
- Costs and quantities are integers. The source uses JavaScript numbers, with floating point and NaN.
- `Cart.Product.constructor`: a product no join has touched has no `qty` property in the source. The model gives it 0. The totals over such an item would be NaN in the source.
- `Cart.GetTotalCartValue`, `Cart.GetTotalItems`: these accept any product objects. In the source the items are always the join's output.
- `Products.ProductsPage.CartItemsChanged`: after a crash the source's component tree is gone. The model only records `crashed` and keeps accepting events.
- `Products.SearchUrl`: the text is appended without URL encoding, as in the source. The round trip is stated on the URL string, not on what a server would decode.
- `Register.ValidateInput`: lengths count characters. JavaScript counts UTF-16 code units, so text outside the Basic Multilingual Plane is measured differently.
- `Register.RegisterPage.RegisterSettled`: the branch on `error.message === "Network Error!"` only classifies transport errors and is not modelled. Neither is a failure without a response, where reading `error.response.data` throws inside the handler.
