# Storefront cart model

A Dafny model of the client-side rules of a small storefront built with React:
its shopping cart, the cart sheet's total and badge, the checkout button that
turns the cart into an order, and two validators that decide what fetched JSON
the home page and the service page display.

- `common.dfy` (module `Common`): `Option`, and `Toast`, with one constructor
  for each toast the modelled handlers raise. Toasts are kept as a log, so contracts can
  say which toast a step raises.
- `json.dfy` (module `Json`): JSON values. It models the three JavaScript
  operations the validators use: optional-chaining property access, `Array.isArray`
  and truthiness.
- `index.dfy` (module `Index`, from `src/pages/Index.tsx`): `Product` and
  `CartLine`, and the three cart handlers. Each handler is a pure function on
  the line list (`AddedToCart`, `RemovedFromCart`, `QuantityUpdated`), with
  lemmas for merge-on-add, the stock check, removal and update. Class
  `IndexPage` holds the `cartItems` state that `setCartItems` replaces. Its
  methods are proved against those functions, and they keep the invariant that
  ids are unique.
- `cart_sheet.dfy` (module `CartSheet`, from `src/components/Cart.tsx`): the
  total as a left fold, a right-nested reference sum, the badge, and the sheet
  body with each row's Remove action.
- `checkout.dfy` (module `Checkout`, from `src/components/CartCheckout.tsx`):
  the `orderItems` projection, and class `CartCheckout`. The class splits
  `handleCheckout` at its `await`: `HandleCheckout` runs up to the insert and
  `InsertSettled` is the continuation. `Valid()` states that `isProcessing`
  is true exactly while an insert is in flight. `CheckoutOnce` follows one
  click from start to end.
- `home.dfy` (module `Home`, from `src/pages/Home.tsx` and `src/types/home.ts`):
  `isHomeContent`, `defaultContent`, and the replace-or-keep decision.
  Class `HomePage` keeps the invariant that the displayed content passes the
  guard.
- `service_page.dfy` (module `ServicePage`, from `src/pages/ServicePage.tsx`):
  the `processedData` normalisation of `features` and `benefits`, and the page
  state that a fetch sets.

Numbers: prices and totals are exact `real`s. Ids, quantities and stock are
`int`s. There is no floating point and no `toFixed`.

The model follows the code as written:
- A product that is not yet in the cart is appended with the requested
  quantity and no stock check (`AppendIgnoresStock`). It is not clamped to
  the stock.
- A merge that would exceed the stock leaves the cart exactly as it was
  (`AddOverStockUnchanged`). The quantity is not clamped.
- `updateCartItemQuantity` sets any quantity, including zero or a negative
  number (`QuantityUpdated`).
- The badge shows the number of lines, not the number of units
  (`BadgeIgnoresQuantities`).
- A merge keeps the price the line already holds; the product's current
  price is not used (`MergeTotal`).

## Model

| member | source | states |
|---|---|---|
| `Index.NewLine` | src/pages/Index.tsx:70 | Definition: the line `{ ...product, quantity }` that the other lemmas are about. It has no contract of its own; `AddNewIdAppends` states what it contributes. |
| `Index.StockLimitHit` | src/pages/Index.tsx:52-61 | Definition of the refused merge: a line with the id exists and its quantity plus the requested quantity exceeds the stock. It has no contract of its own; `AddOverStockUnchanged`, `AddMergeWithinStock` and `IndexPage.AddToCart` are stated with it. |
| `Index.AddedToCart` | src/pages/Index.tsx:51-70 | Definition of the value the updater returns. It has no contract of its own; the `Add…` lemmas below state its three cases and that it keeps ids unique. |
| `Index.FindLine` | src/pages/Index.tsx:52 | `find` returns no line iff no line has the id. Otherwise it returns the first line with the id: no earlier line has it. |
| `Index.FindLineUnique` | src/pages/Index.tsx:52 | When ids are unique, `find` returns the one line that has the id. |
| `Index.QuantityUpdated` | src/pages/Index.tsx:78-85 | Same length. Each line with the id has `quantity` set to exactly `q`, with every other field kept. Every other line is unchanged. No bound is applied to `q`. |
| `Index.QuantityUpdatedAbsent` | src/pages/Index.tsx:78-85 | Updating an id that no line has leaves the cart unchanged. |
| `Index.QuantityUpdatedOneLine` | src/pages/Index.tsx:78-85 | When ids are unique, the update replaces the one matching line in place: the cart becomes `prefix + [line with quantity q] + suffix`. |
| `Index.QuantityUpdatedIdempotent` | src/pages/Index.tsx:78-85 | Setting the same quantity twice gives the same cart as setting it once. |
| `Index.QuantityUpdatedKeepsIds` | src/pages/Index.tsx:78-85 | The update keeps ids unique. |
| `Index.RemovedFromCart` | src/pages/Index.tsx:74-76 | A line is in the result iff it was in the cart and its id differs from the removed id. The result is no longer than the cart. |
| `Index.RemovedAppend` | src/pages/Index.tsx:74-76 | Removal distributes over concatenation, so the kept lines stay in their original order. |
| `Index.RemovedAbsent` | src/pages/Index.tsx:74-76 | Removing an id that no line has leaves the cart unchanged. |
| `Index.RemovedIdempotent` | src/pages/Index.tsx:74-76 | After a removal no line has the id, and removing it a second time changes nothing. |
| `Index.RemovedAt` | src/pages/Index.tsx:74-76 | When ids are unique, removing line `i`'s id gives exactly `items[..i] + items[i+1..]`. |
| `Index.RemovedKeepsUniqueIds` | src/pages/Index.tsx:74-76 | Removal keeps ids unique. |
| `Index.AddNewIdAppends` | src/pages/Index.tsx:70 | Adding an id the cart does not hold appends exactly one line at the end. That line is the product spread with the requested quantity. The earlier lines are unchanged, and no stock toast is raised. |
| `Index.AddMergeWithinStock` | src/pages/Index.tsx:53-60 | When `existing.quantity + quantity <= stock`, the length is unchanged and the found line's quantity becomes the sum. Every line with another id is unchanged, and no toast is raised. |
| `Index.AddMergeReplacesOneLine` | src/pages/Index.tsx:53-60 | When ids are unique, a merge within stock replaces that one line in place with the summed quantity. |
| `Index.AddOverStockUnchanged` | src/pages/Index.tsx:61-67 | When the sum exceeds stock, the cart is returned exactly as it was: there is no partial clamp. |
| `Index.MergeRespectsStock` | src/pages/Index.tsx:55-60 | On the merge path, a line with the product's id is either within stock or exactly as it was before. |
| `Index.AppendIgnoresStock` | src/pages/Index.tsx:70 | The append path has no stock check. Adding a product the cart does not hold, with a quantity above its stock, appends a line holding exactly that quantity. |
| `Index.AddPreservesUniqueIds` | src/pages/Index.tsx:50-71 | Adding to a cart with unique ids leaves the ids unique. |
| `Index.IndexPage.constructor` | src/pages/Index.tsx:24 | The cart starts empty, with no toasts. |
| `Index.IndexPage.AddToCart` | src/pages/Index.tsx:50-72 | The new cart is `AddedToCart(old cart, product, quantity)`. A "Stock limit reached" toast carrying the stock is logged exactly when the merge is refused. Unique ids are preserved. |
| `Index.IndexPage.RemoveFromCart` | src/pages/Index.tsx:74-76 | The new cart is `RemovedFromCart(old cart, id)`. There is no toast, and unique ids are preserved. |
| `Index.IndexPage.UpdateCartItemQuantity` | src/pages/Index.tsx:78-86 | The new cart is `QuantityUpdated(old cart, id, q)`. There is no toast, and unique ids are preserved. |
| `CartSheet.Total` | src/components/Cart.tsx:24 | Definition: the `reduce` as a fold from the left, starting at 0. It has no contract of its own; the `Total…` lemmas below are about it. |
| `CartSheet.TotalEmpty` | src/components/Cart.tsx:24 | The total of an empty cart is 0. |
| `CartSheet.TotalAppend` | src/components/Cart.tsx:24 | The total of a concatenation is the sum of the two totals. |
| `CartSheet.TotalIsSumOfAmounts` | src/components/Cart.tsx:24 | The left-fold `reduce` equals the sum of `price * quantity` over all lines. |
| `CartSheet.TotalAfterRemove` | src/components/Cart.tsx:24 | When ids are unique, removing line `i` lowers the total by exactly `price * quantity` of that line. |
| `CartSheet.TotalAfterAppend` | src/components/Cart.tsx:24 | Adding a new id raises the total by `product.price * quantity`. |
| `CartSheet.TotalAfterRefusedMerge` | src/components/Cart.tsx:24 | A refused merge leaves the total unchanged. |
| `CartSheet.MergeTotal` | src/components/Cart.tsx:24 | A merge within stock changes the total by the merged line's amount minus the old line's amount. |
| `CartSheet.MergedLineAmount` | src/components/Cart.tsx:24 | Merging `quantity` more units raises a line's amount by `quantity` times the price the line holds. |
| `CartSheet.Badge` | src/components/Cart.tsx:31-35 | The badge is shown iff the sheet lists lines rather than the empty notice, and then it displays the number of rows the sheet lists. |
| `CartSheet.BadgeIgnoresQuantities` | src/components/Cart.tsx:31-35 | Quantity updates and merges never change the badge, so it counts lines and not units. |
| `CartSheet.BadgeAfterNewLine` | src/components/Cart.tsx:31-35 | Adding a product the cart does not hold raises the badge to the old line count plus one, whatever the quantity. |
| `CartSheet.BadgeAfterRemove` | src/components/Cart.tsx:31-35 | With unique ids, removing a line lowers the badge by one, and removing the only line hides the badge. |
| `CartSheet.RowOf` | src/components/Cart.tsx:49-62 | Definition of one rendered row: name, price, quantity and the id its Remove button passes. It has no contract of its own; `Rows` and `Body` are stated with it. |
| `CartSheet.Rows` | src/components/Cart.tsx:48-64 | There is one row per line, in order, showing that line's name, price and quantity and bound to its id. |
| `CartSheet.Body` | src/components/Cart.tsx:43-73 | "Your cart is empty" is shown iff the cart has no lines. Otherwise there is one row per line, with each row's Remove id equal to the line's id, and the total equals the sum of the line amounts. |
| `CartSheet.RemoveButtonRemovesItsLine` | src/components/Cart.tsx:59 | When ids are unique, the Remove button of row `i` passed to `removeFromCart` drops line `i` and only that line. |
| `Checkout.OrderItems` | src/components/CartCheckout.tsx:36-41 | Same length and order as the cart. Each entry copies `id`, `name`, `price` and `quantity` unchanged. |
| `Checkout.OrderItemsAppend` | src/components/CartCheckout.tsx:36-41 | The projection distributes over concatenation. |
| `Checkout.OrderItemsIgnoreProductFields` | src/components/CartCheckout.tsx:36-41 | Only the four copied fields reach the order. Fields added by spreading the product do not. |
| `Checkout.CartCheckout.constructor` | src/components/CartCheckout.tsx:20-21 | A checkout starts not processing, with nothing inserted, no `onSuccess` calls and no toasts. |
| `Checkout.CartCheckout.HandleCheckout` | src/components/CartCheckout.tsx:24-46 | An empty cart raises a toast and nothing else: no insert, `isProcessing` stays false and `onSuccess` is not called. Otherwise `isProcessing` becomes true and exactly one order is sent. That order is `{total_amount: total, items: OrderItems(items)}`, and it is the insert in flight. |
| `Checkout.SettledToasts` | src/components/CartCheckout.tsx:48-62 | The success toast is raised iff the insert succeeded, and then it comes first. The last toast is the failure toast iff the insert failed or the `onSuccess` call inside the `try` threw. Two toasts are raised exactly when the insert succeeded and the callback threw; otherwise one is raised. |
| `Checkout.CartCheckout.InsertSettled` | src/components/CartCheckout.tsx:48-65 | `onSuccess` is called once iff the insert succeeded. The toasts are extended with `SettledToasts`, so a throwing callback adds the failure toast after the success toast. `isProcessing` ends false. |
| `Checkout.CheckoutOnce` | src/components/CartCheckout.tsx:24-66 | One click, followed to its end. An empty cart sends no order and never calls `onSuccess`. Otherwise one order carrying the given total and the projected lines is sent, `onSuccess` is called once iff the insert succeeded. The toasts are the success toast alone, the failure toast alone when the insert failed, or the success toast followed by the failure toast when `onSuccess` threw. `isProcessing` always ends false. |
| `Json.IsArray` | src/pages/Home.tsx:43 | Definition of `Array.isArray` on an optional value: present and an array. It has no contract of its own; `IsHomeContent` and `ProcessedData` are stated with it. |
| `Json.Truthy` | src/pages/Home.tsx:36 | Definition of JavaScript truthiness: `null`, `false`, `0` and `""` are falsy, and every array and object is truthy. It has no contract of its own; `GuardImpliesTruthy` is about it. |
| `Home.IsHomeContent` | src/pages/Home.tsx:38-45 | The guard holds iff all four conditions hold: `hero.title` is present, `hero.subtitle` is present, `whyChooseUs.title` is present, and `whyChooseUs.items` is an array. Each step of the path must be an object. |
| `Home.DefaultContent` | src/types/home.ts:23-45 | `defaultContent` passes `isHomeContent`. |
| `Home.ContentAfterFetch` | src/pages/Home.tsx:27-54 | Fetched content replaces the current content iff it is present and passes the guard. Otherwise, including on a query error, the current content is kept. Valid content stays valid. |
| `Home.ToastsAfterFetch` | src/pages/Home.tsx:27-54 | A query error raises exactly the error toast. On an answered query, the format warning is raised iff the content is present, truthy and fails the guard, so it is raised only for content that is then rejected. Accepted content raises no toast, and an answered query raises no toast other than the warning, so absent or falsy content raises none. At most one toast is raised. |
| `Home.ShowsLoading` | src/pages/Home.tsx:79 | Definition of the `!content` loading branch. It has no contract of its own; `GuardImpliesTruthy` is about it. |
| `Home.GuardImpliesTruthy` | src/pages/Home.tsx:36-47 | Content that passes the guard is truthy. So the `data?.content` test never decides a replacement, and such content never shows the loading branch (line 79). |
| `Home.HomePage.constructor` | src/pages/Home.tsx:12 | The content starts as `defaultContent`. |
| `Home.HomePage.OnContentFetched` | src/pages/Home.tsx:27-55 | The new content is `ContentAfterFetch(old content, response)`, and the toasts are extended with `ToastsAfterFetch`. The displayed content keeps passing the guard. |
| `ServicePage.ProcessedData` | src/pages/ServicePage.tsx:42-46 | `features` and `benefits` are always present and always arrays. Each is kept when it was already an array and becomes `[]` otherwise. Every other field is copied unchanged, and no other key is added. |
| `ServicePage.ProcessedDataIdempotent` | src/pages/ServicePage.tsx:42-46 | Normalising an already normalised record changes nothing. |
| `ServicePage.ProcessedDataKeepsWellFormed` | src/pages/ServicePage.tsx:42-46 | A record whose two list fields are already arrays comes through exactly as fetched. |
| `ServicePage.ServicePageState.constructor` | src/pages/ServicePage.tsx:21 | The service starts unset (null). |
| `ServicePage.ServicePageState.OnServiceFetched` | src/pages/ServicePage.tsx:32-48 | On a query error the service stays as it was, which is null on first load, and an error toast is raised. Otherwise the service becomes `ProcessedData(row)`. |

## Left out

- Backend calls: the `products`, `services`, `page_content` and `orders` queries are replaced by their results. Each result is a parameter. The product fetch (`src/pages/Index.tsx:32-48`) and the services fetch (`src/pages/Home.tsx:58-73`) are not modelled: each stores the rows the backend returns, or raises an error toast ("Failed to fetch products", "Failed to fetch services") when the query fails. `Toast` has no constructor for these two toasts.
- Rendering: toasts are values in a log, not rendered notifications. Only the branch structure of the cart sheet is modelled, not its markup.
- Floating point: `toFixed(2)` formatting and IEEE rounding are not modelled. Prices and totals are exact reals.
- JavaScript numbers: quantities and stock are modelled as integers. A fractional JavaScript quantity is not modelled.
- Spread fields: a cart line carries the fields of the `Product` interface. Any further column the backend returns, such as `created_at`, is not modelled.
- Wiring: `ProductCard` passes `onAddToCart` straight to the button's `onClick` (`src/components/ProductCard.tsx:17`), so it is called with the click event as `quantity`. `AddToCart` therefore takes an explicit quantity, and the arithmetic on an event object is not modelled.
- Wiring: `Cart` ignores the `onUpdateQuantity` prop it is given. Its own Checkout button (`src/components/Cart.tsx:71`) has no handler.
- Wiring: none of these files mounts `CartCheckout`. `onSuccess` is an opaque callback, modelled by counting its calls. Clearing the cart is up to whoever passes it.
- Concurrency: `HandleCheckout` requires that no insert is in flight, because the button is disabled while `isProcessing` (`src/components/CartCheckout.tsx:77`). React's batching of state updates is not modelled.
- Routing: `parseInt(id \|\| "0")` on the route parameter is not modelled. Neither are the pages' "Loading..." markup and the effect dependencies.
- CartSheet.MergeTotal: states the change of the total as the merged line's amount minus the old line's amount. `MergedLineAmount` turns that difference into `quantity` times the line's price.
