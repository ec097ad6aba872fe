# Store data layer, in Dafny

This project models the data-access layer of a small e-commerce backend: the
`Database` object of `db.js`. It holds one document with three parts:

- the product catalog, a list of products;
- the placed orders, a list;
- the shopping carts, a dictionary from user id to cart.

Every operation reads or changes that document in memory. The modules are:

- `Documents` (documents.dfy): the records of the document.
  - Products, request bodies as patches with the shallow merge `{ ...p, ...u }`.
  - Cart lines and carts, order lines and orders.
  - The five error messages the store throws, as an `Error` datatype inside a `Result`.
- `Sequences` (sequences.dfy): the two array operations the store uses, `filter` and `splice(i, 1)`.
- `Catalog` (catalog.dfy): the product-listing filter and the lookup of the first product carrying an id (`find` / `findIndex`).
- `Carts` (carts.dfy):
  - the lookup of a cart line;
  - the cart total, a left fold of `price * quantity`;
  - how adding to a cart changes its lines and its total.
- `Checkout` (checkout.dfy): the meaning of `createOrder` as a function, `Process`.
  - The items are handled in order, and each accepted item lowers the stock of the first product with its id.
  - The first failing item stops the run. The stock already taken stays taken.
  - The lemmas relate this to a check of every item against the starting stock (`Admissible`), and give the exact stock accounting.
- `Store` (database.dfy): the class `Database`.
  - Its fields `products`, `orders` and `carts` are reassigned in place by its methods.
  - The four reads are functions.
  - The six writes are methods whose postconditions give the whole new state. `CreateOrder` keeps the source's loop, proved against `Checkout.Process`.

Product ids are not fixed after creation: the shallow merge at db.js:87
copies an `id` key from the update body, so `updateProduct` can rename a
product. `UpdateProduct` keeps this behaviour (`Merge` takes the patch's id
when it has one).

Prices, subtotals and totals are whole numbers (cents), so every sum is exact.
The generated ids (`Date.now()`) and the creation time of an order are
parameters of the operations.

## Model

| member | source | states |
|---|---|---|
| `Catalog.Matches` | db.js:32-34 | Definition without its own contract: the category and `inStock` tests of the listing filter. Stated by `Store.Database.GetProducts` and `Sequences.Filter`. |
| `Documents.Merge` | db.js:87 | Definition without its own contract: the shallow merge `{ ...p, ...u }`, also used for `{ id, ...product }` at db.js:45. Stated by `Documents.MergeNoChanges`, `Documents.MergeThen`, `Store.Database.AddProduct` and `Store.Database.UpdateProduct`. |
| `Carts.CartTotal` | db.js:77 | Definition without its own contract: the `reduce` of price times quantity, also at db.js:149. Stated by `Carts.CartTotalConcat`, `Carts.CartTotalAppend`, `Carts.CartTotalIncrement`, `Carts.CartTotalRemove` and `Carts.AddItemTotal`. |
| `Carts.LinePrice` | db.js:67-73 | Definition without its own contract: the price an added quantity is charged at, the captured price of an existing line or the product's current price. Stated by `Carts.AddItemTotal`. |
| `Checkout.Step` | db.js:114-126 | Definition without its own contract: one pass of the checkout loop. Stated by `Checkout.ProcessMissing`, `Checkout.ProcessShort`, `Checkout.AbortedAfterPrefix` and `Checkout.AbortedCheckoutKeepsDecrement`. |
| `Checkout.Process` | db.js:113-127 | Definition without its own contract: the whole checkout loop, including the stock already taken when a later item fails. Stated by `Checkout.PlacedLines`, `Checkout.StockAccounting`, `Checkout.ProcessChangesOnlyStock`, `Checkout.ProcessKeepsUnnamed`, `Checkout.ProcessStockFloor`, `Checkout.AbortedAfterPrefix`, `Checkout.PlacedImpliesAdmissible`/`Checkout.AdmissibleImpliesPlaced`, and by `Store.Database.CreateOrder`, whose loop is proved equal to it. |
| `Checkout.SubtotalSum` | db.js:129 | Definition without its own contract: the `reduce` of the subtotals into the order total. Stated by `Store.Database.CreateOrder` (the stored order's total) and the order invariant `OrdersWellFormed` it preserves. |
| `Store.Database.Load` | db.js:11-23 | Loading gives the stored document's products, orders and carts. When the document cannot be read or parsed, it gives an empty catalog, no orders and no carts. |
| `Store.Database.GetProducts` | db.js:30-37 | Every product returned passes the filter. Each product the filter accepts is returned exactly as many times as it is stored, and nothing else is returned. |
| `Sequences.Filter` | db.js:31-36 | The filtered list is no longer than the input. All its elements satisfy the predicate. Each element occurs as often as in the input when accepted, otherwise not at all. |
| `Sequences.FilterConcat` | db.js:31-36 | Filtering keeps relative order: filtering `a + b` is filtering `a` followed by filtering `b`. |
| `Store.Database.GetProductById` | db.js:39-41 | There is no result exactly when no product carries the id. Otherwise the result is a stored product with that id, and no earlier product has it (first match). |
| `Catalog.ProductIndex` | db.js:84 | The index found holds the id and no earlier index does. No index means no product has the id (`findIndex` returning -1). |
| `Store.Database.AddProduct` | db.js:43-49 | The new product is appended and nothing else changes. Its fields are the request's fields. Its id is the generated one, unless the request carries an id, which then wins. The stock of every product stays non-negative when the new stock is. |
| `Store.Database.GetCart` | db.js:52-54 | Gives the user's stored cart, or an empty cart with total 0 when there is none. A stored cart is consistent whenever all carts are. |
| `Store.Database.AddToCart` | db.js:56-80 | Products and orders are unchanged, and carts of other users are unchanged. The user's cart exists afterwards, even when the product is not found; in that case the error is "Product not found" and the cart is as it was. Otherwise the cart's lines are `AddItem` of the old lines, at the product's current price, and its total is recomputed from them. All carts stay consistent. |
| `Carts.ItemIndex` | db.js:65 | The line found is the first line for the product. No line found means no line is for the product. |
| `Carts.AddItem` | db.js:65-75 | When a line for the product exists, the line count is kept. That line's quantity grows by the amount and the line keeps the price it captured. Otherwise one line is appended, carrying the product id, the amount and the current price. Every other line is unchanged. |
| `Carts.AddItemFinds` | db.js:65-75 | After adding, the first line for the product is the one that grew, or the new last line. |
| `Carts.AddItemTotal` | db.js:67-77 | Adding grows the total by the amount times the captured price of the existing line, or times the current price for a new line. |
| `Carts.CartTotalConcat` | db.js:77 | The total of two concatenated lists of lines is the sum of their totals. |
| `Carts.CartTotalAppend` | db.js:70-77 | Appending a line adds its price times quantity to the total. |
| `Carts.CartTotalIncrement` | db.js:67-77 | Adding `q` to the quantity of one line adds that line's price times `q` to the total. |
| `Carts.CartTotalRemove` | db.js:148-149 | Removing a line takes its price times quantity off the total. |
| `Store.Database.UpdateProduct` | db.js:83-90 | An unknown id gives "Product not found" and no change. Otherwise the first product with the id is replaced by its shallow merge with the updates, and that product is returned. Orders and carts are unchanged. Stock stays non-negative when the update's stock is. |
| `Documents.MergeNoChanges` | db.js:87 | Merging an empty update leaves a product unchanged. |
| `Documents.MergeThen` | db.js:87 | Two successive updates act as one update in which the later fields win. |
| `Store.Database.DeleteProduct` | db.js:92-99 | An unknown id gives "Product not found" and no change. Otherwise exactly the first product with the id is removed, as a multiset and with the others in order, and the success message is returned. |
| `Sequences.RemoveAt` | db.js:96 | `splice(i, 1)` leaves one element fewer: the prefix is unchanged, the suffix shifts down by one, and the multiset loses exactly the removed element. |
| `Store.Database.CreateOrder` | db.js:102-133 | The new catalog is `Process` of the old one over the items, whether the checkout succeeds or not. On success, the returned order has the lines of `Process`, a total equal to the sum of the subtotals, status pending and one line per item. That order is appended to the orders. On failure, the error of the first failing item is returned and no order is stored. Carts are unchanged. Well-formed orders and non-negative stock are preserved. |
| `Checkout.ProcessMissing` | db.js:114-115 | An item naming no product stops the checkout with "Product <id> not found", with the catalog as it stands. |
| `Checkout.ProcessShort` | db.js:116 | An item asking for more than the stock left stops the checkout with "Insufficient stock for product <id>", with the catalog as it stands. |
| `Checkout.PlacedLines` | db.js:118-123 | A successful checkout has one line per item, in order. Each line has the item's product id and quantity, the price of the product's first record, and a subtotal of price times quantity. |
| `Checkout.ProcessChangesOnlyStock` | db.js:126 | A checkout changes no field except stock, and keeps the number of products. |
| `Checkout.ProcessKeepsUnnamed` | db.js:113-127 | A product whose id no item names is unchanged, whether the checkout succeeds or fails. |
| `Checkout.StockAccounting` | db.js:113-127 | After a successful checkout, the first record of each id has lost exactly the total quantity ordered of that id, and every other record keeps its stock. |
| `Checkout.ProcessStockFloor` | db.js:116-126 | Every record ends either untouched or with stock at least zero. |
| `Checkout.PlacedStockNonNegative` | db.js:116-126 | After a successful checkout, every product the order names exists and has stock at least zero. |
| `Checkout.PlacedImpliesAdmissible` | db.js:113-127 | A successful checkout was admissible: every product named exists, and its starting stock covers all the quantity ordered of it across items. |
| `Checkout.AdmissibleImpliesPlaced` | db.js:113-127 | Conversely, when every quantity is at least 1, an admissible checkout succeeds. |
| `Checkout.AbortedAfterPrefix` | db.js:113-127 | A failed checkout stopped at some item k. The items before k were accepted, and the catalog left is exactly the one they produced, so their stock stays taken. Item k fails with the returned error against that catalog. |
| `Checkout.AbortedCheckoutKeepsDecrement` | db.js:113-127 | Concrete case: ordering 2 of a product with stock 5, then a missing product, fails with "Product missing not found", and the first product's stock is left lowered to 3. |
| `Store.Database.GetOrders` | db.js:135-137 | Every order returned belongs to the user. Each of the user's orders is returned exactly as often as it is stored, and nothing else is returned. |
| `Store.Database.RemoveFromCart` | db.js:140-153 | A user without a cart gets "Cart not found" and no change. A cart without a line for the product gives "Product not found in cart" and no change. Otherwise the first such line is removed and the total is recomputed, so a consistent cart's total drops by that line's price times quantity. All carts stay consistent. |

## Left out

- Writing the document back to disk (`save`) after every change is file I/O and is not modelled. Reading it in `load` is reduced to its outcome: a parsed document, or none.
- `load` also saves the fresh empty document when reading fails; that write is left out with `save`.
- Store.Database.Load: makes no promise about a stored document beyond its contents. A document edited by hand may hold inconsistent carts, ill-formed orders or negative stock, and nothing checks this on load.
- The ids from `Date.now().toString()` and the timestamp from `new Date().toISOString()` are parameters. The model does not capture whether they are unique or correctly formatted.
- Operations run one at a time. The interleaving of concurrent asynchronous requests between `await` points is not modelled.
- Prices are JavaScript floating-point numbers in the source. Here they are whole numbers of cents, so the float rounding of `price * quantity` and of the sums is not modelled.
- JavaScript's dynamic typing is not modelled. This covers string quantities concatenated by `+=`, missing fields, and ids that are not strings.
- JavaScript truthiness is modelled only where the source relies on it: an empty category string does not filter. An `inStock` that is neither `true` nor `false`, such as the string from a query string, is modelled as absent, as the strict comparisons in the source make it.
- Store.Database.AddProduct: requires the name, price, stock and category fields to be present. The request validators in validators.js:5-8 guarantee this before the store is called, and the store does not check it itself.
- Checkout.AdmissibleImpliesPlaced: requires every quantity to be at least 1, as the order validator in validators.js:37 demands. Negative quantities break this direction. For example, ordering 3 and then -5 of a product with stock 0 passes the starting-stock check, but the one-at-a-time loop rejects the first item.
- The HTTP routes, request validation, the front-end page and the service registry are outside this layer and are not modelled.
- The store's carts are a plain JavaScript object, and here they are a map. Two consequences are not modelled:
  - A user id that names an inherited `Object.prototype` member, such as "constructor", "toString" or "__proto__", finds a value the store never stored.
  - For such an id, `getCart` returns that inherited value instead of the empty cart (db.js:53). `addToCart` creates no cart and fails with a TypeError at db.js:65 when the product exists. `removeFromCart` fails with a TypeError at db.js:144 instead of "Cart not found".
  - Here such an id behaves like any user without a cart.
- The spreads `{ id, ...product }` (db.js:45) and `{ ...product, ...updates }` (db.js:87) copy every key of the request body. Keys outside the six product fields, and keys set to `null`, end up in the stored record. The fixed `Product` and `Patch` records hold only the six fields, each present or absent, so such extra keys and null values are not modelled.
- Shared references are not modelled. In the source, `getCart` hands back the stored cart object itself, so a caller that mutates it would mutate the store. Here every read returns a value.
