/** The records held in the store's one document: products, carts and orders.
    Money (prices, subtotals, totals) is a whole number of cents, so that every
    sum the store computes is exact. */
module Documents {

  datatype Option<+T> = None | Some(value: T)

  /** A catalog record. The description is optional when a product is created. */
  datatype Product = Product(
    id: string,
    name: string,
    description: Option<string>,
    price: int,
    stock: int,
    category: string)

  /** A request body for creating or updating a product: each field is either
      supplied (Some) or left out of the request (None). */
  datatype Patch = Patch(
    id: Option<string>,
    name: Option<string>,
    description: Option<string>,
    price: Option<int>,
    stock: Option<int>,
    category: Option<string>)

  const NoChanges := Patch(None, None, None, None, None, None)

  function Pick<T>(update: Option<T>, current: T): T {
    if update.Some? then update.value else current
  }

  /** The shallow merge `{ ...p, ...u }`: every field the patch supplies
      replaces the record's own, every other field is kept. */
  function Merge(p: Product, u: Patch): Product {
    Product(
      Pick(u.id, p.id),
      Pick(u.name, p.name),
      if u.description.Some? then u.description else p.description,
      Pick(u.price, p.price),
      Pick(u.stock, p.stock),
      Pick(u.category, p.category))
  }

  /** The patch equivalent to applying `first` and then `second`. */
  function Then(first: Patch, second: Patch): Patch {
    Patch(
      if second.id.Some? then second.id else first.id,
      if second.name.Some? then second.name else first.name,
      if second.description.Some? then second.description else first.description,
      if second.price.Some? then second.price else first.price,
      if second.stock.Some? then second.stock else first.stock,
      if second.category.Some? then second.category else first.category)
  }

  lemma MergeNoChanges(p: Product)
    ensures Merge(p, NoChanges) == p
  {
  }

  /** Two successive updates are one update with the later fields winning. */
  lemma MergeThen(p: Product, first: Patch, second: Patch)
    ensures Merge(Merge(p, first), second) == Merge(p, Then(first, second))
  {
  }

  /** One line of a cart: the price is captured when the line is created. */
  datatype CartItem = CartItem(productId: string, quantity: int, price: int)

  datatype Cart = Cart(items: seq<CartItem>, total: int)

  const EmptyCart := Cart([], 0)

  /** One requested line of a checkout. */
  datatype OrderItem = OrderItem(productId: string, quantity: int)

  /** One line of a placed order, with the price snapshot taken at checkout. */
  datatype OrderLine = OrderLine(productId: string, quantity: int, price: int, subtotal: int)

  /** The only status an order reaches. */
  datatype Status = Pending

  datatype Order = Order(
    id: string,
    userId: string,
    items: seq<OrderLine>,
    total: int,
    status: Status,
    createdAt: string)

  /** The whole persisted document. */
  datatype Document = Document(products: seq<Product>, orders: seq<Order>, carts: map<string, Cart>)

  /** The failures the store raises, one per message it throws. */
  datatype Error =
    | ProductNotFound               // "Product not found"
    | MissingProduct(id: string)    // "Product <id> not found"
    | InsufficientStock(id: string) // "Insufficient stock for product <id>"
    | CartNotFound                  // "Cart not found"
    | ProductNotInCart              // "Product not found in cart"

  datatype Result<+T> = Ok(value: T) | Err(error: Error)
}
