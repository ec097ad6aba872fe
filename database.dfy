/** The store: one document of products, orders and per-user carts, held in
    memory and changed in place by each operation. */
module Store {
  import opened Documents
  import opened Sequences
  import opened Catalog
  import opened Carts
  import opened Checkout

  const DeletedMessage := "Product deleted successfully"

  /** An order as checkout builds it: a subtotal of price * quantity on every
      line, a total that sums them, and the status "pending". */
  predicate WellFormedOrder(o: Order) {
    && o.total == SubtotalSum(o.items)
    && o.status == Pending
    && forall k :: 0 <= k < |o.items| ==> o.items[k].subtotal == o.items[k].price * o.items[k].quantity
  }

  /** Where the checkout loop stands after `i` accepted items: the whole run
      is the run of the remaining items after the lines so far, and every
      record ends either untouched or with a stock of at least zero. */
  lemma Stopped(initial: seq<Product>, items: seq<OrderItem>, i: nat,
                states: seq<seq<Product>>, lines: seq<OrderLine>)
    requires i <= |items| && Accepts(initial, items[..i], states, lines)
    ensures Process(initial, items) == Prepend(lines, Process(states[i], items[i..]))
    ensures |Process(initial, items).products| == |initial|
    ensures forall j :: 0 <= j < |initial| ==>
      Process(initial, items).products[j] == initial[j] || Process(initial, items).products[j].stock >= 0
  {
    AcceptsThen(initial, items[..i], states, lines, items[i..]);
    assert items[..i] + items[i..] == items;
    ProcessStockFloor(initial, items);
  }

  class Database {
    var products: seq<Product>
    var orders: seq<Order>
    var carts: map<string, Cart>

    /** Every stored cart's total agrees with its lines. */
    ghost predicate CartsConsistent()
      reads this
    {
      forall u :: u in carts ==> Consistent(carts[u])
    }

    /** Every stored order is as checkout builds it. */
    ghost predicate OrdersWellFormed()
      reads this
    {
      forall k :: 0 <= k < |orders| ==> WellFormedOrder(orders[k])
    }

    /** No product has a negative stock. */
    ghost predicate StockNonNegative()
      reads this
    {
      forall k :: 0 <= k < |products| ==> products[k].stock >= 0
    }

    /** Opening the store: the stored document when it could be read and
        parsed (Some), otherwise an empty document. */
    constructor Load(stored: Option<Document>)
      ensures stored.Some? ==>
        products == stored.value.products && orders == stored.value.orders && carts == stored.value.carts
      ensures stored.None? ==> products == [] && orders == [] && carts == map[]
      ensures stored.None? ==> CartsConsistent() && OrdersWellFormed() && StockNonNegative()
    {
      if stored.Some? {
        products, orders, carts := stored.value.products, stored.value.orders, stored.value.carts;
      } else {
        products, orders, carts := [], [], map[];
      }
    }

    /** The products the filter accepts, each as often as it is stored, in
        catalog order. */
    function GetProducts(f: ProductFilter): (r: seq<Product>)
      reads this
      ensures forall k :: 0 <= k < |r| ==> Matches(f, r[k])
      ensures forall p :: multiset(r)[p] == if Matches(f, p) then multiset(products)[p] else 0
    {
      Filter(products, (p: Product) => Matches(f, p))
    }

    /** The first product carrying `id`, or nothing when none does. */
    function GetProductById(id: string): (r: Option<Product>)
      reads this
      ensures r.None? <==> forall k :: 0 <= k < |products| ==> products[k].id != id
      ensures r.Some? ==> exists i :: (
        && 0 <= i < |products| && products[i] == r.value
        && r.value.id == id && forall k :: 0 <= k < i ==> products[k].id != id)
    {
      match ProductIndex(products, id)
      case None => None
      case Some(i) => Some(products[i])
    }

    /** The user's cart, or an empty cart (not stored) when there is none. */
    function GetCart(userId: string): (r: Cart)
      reads this
      ensures userId in carts ==> r == carts[userId]
      ensures userId !in carts ==> r.items == [] && r.total == 0
      ensures CartsConsistent() ==> Consistent(r)
    {
      if userId in carts then carts[userId] else EmptyCart
    }

    /** The user's orders, each as often as it is stored, in storage order. */
    function GetOrders(userId: string): (r: seq<Order>)
      reads this
      ensures forall k :: 0 <= k < |r| ==> r[k].userId == userId
      ensures forall o :: multiset(r)[o] == if o.userId == userId then multiset(orders)[o] else 0
    {
      Filter(orders, (o: Order) => o.userId == userId)
    }

    /** Appends one product built from the request fields. The fresh id is
        used unless the request carries an id of its own, which then wins. */
    method AddProduct(id: string, fields: Patch) returns (r: Product)
      requires fields.name.Some? && fields.price.Some? && fields.stock.Some? && fields.category.Some?
      modifies this
      ensures r.id == (if fields.id.Some? then fields.id.value else id)
      ensures r.name == fields.name.value && r.description == fields.description
      ensures r.price == fields.price.value && r.stock == fields.stock.value
      ensures r.category == fields.category.value
      ensures products == old(products) + [r]
      ensures orders == old(orders) && carts == old(carts)
      ensures old(StockNonNegative()) && fields.stock.value >= 0 ==> StockNonNegative()
    {
      r := Product(Pick(fields.id, id), fields.name.value, fields.description,
                   fields.price.value, fields.stock.value, fields.category.value);
      products := products + [r];
    }

    /** Adds `quantity` of a product to the user's cart, creating the cart
        first when the user has none. An existing line for the product grows
        and keeps the price it captured; otherwise a line with the product's
        current price is appended. The total is then recomputed. The cart is
        created even when the product turns out not to exist. */
    method AddToCart(userId: string, productId: string, quantity: int) returns (r: Result<Cart>)
      modifies this
      ensures products == old(products) && orders == old(orders)
      ensures userId in carts
      ensures carts - {userId} == old(carts) - {userId}
      ensures var before := if userId in old(carts) then old(carts)[userId] else EmptyCart;
        match ProductIndex(products, productId)
        case None =>
          r == Err(ProductNotFound) && carts[userId] == before
        case Some(i) =>
          var items := AddItem(before.items, productId, quantity, products[i].price);
          carts[userId] == Cart(items, CartTotal(items)) && r == Ok(carts[userId])
      ensures old(CartsConsistent()) ==> CartsConsistent()
    {
      if userId !in carts {
        carts := carts[userId := EmptyCart];
      }
      var found := ProductIndex(products, productId);
      if found.None? {
        return Err(ProductNotFound);
      }
      var items := AddItem(carts[userId].items, productId, quantity, products[found.value].price);
      var cart := Cart(items, CartTotal(items));
      carts := carts[userId := cart];
      r := Ok(cart);
    }

    /** Replaces the first product carrying `id` by its shallow merge with
        `updates`; fails when no product carries `id`. */
    method UpdateProduct(id: string, updates: Patch) returns (r: Result<Product>)
      modifies this
      ensures orders == old(orders) && carts == old(carts)
      ensures match ProductIndex(old(products), id)
        case None =>
          r == Err(ProductNotFound) && products == old(products)
        case Some(i) =>
          && products == old(products)[i := Merge(old(products)[i], updates)]
          && r == Ok(products[i])
      ensures old(StockNonNegative()) && (updates.stock.Some? ==> updates.stock.value >= 0) ==>
        StockNonNegative()
    {
      var found := ProductIndex(products, id);
      if found.None? {
        return Err(ProductNotFound);
      }
      var i := found.value;
      products := products[i := Merge(products[i], updates)];
      r := Ok(products[i]);
    }

    /** Removes the first product carrying `id`, keeping the others in order;
        fails when no product carries `id`. */
    method DeleteProduct(id: string) returns (r: Result<string>)
      modifies this
      ensures orders == old(orders) && carts == old(carts)
      ensures match ProductIndex(old(products), id)
        case None =>
          r == Err(ProductNotFound) && products == old(products)
        case Some(i) =>
          && products == RemoveAt(old(products), i)
          // Follows from RemoveAt's contract; restated here for the reader.
          && multiset(products) == multiset(old(products)) - multiset{old(products)[i]}
          && r == Ok(DeletedMessage)
      ensures old(StockNonNegative()) ==> StockNonNegative()
    {
      var found := ProductIndex(products, id);
      if found.None? {
        return Err(ProductNotFound);
      }
      products := RemoveAt(products, found.value);
      r := Ok(DeletedMessage);
    }

    /** Checkout: handles the items in order, each one found by id, checked
        against the stock left, priced into a line and taken out of stock.
        On success the order is appended with status "pending"; on the first
        failure the stock already taken stays taken and no order is stored. */
    method CreateOrder(orderId: string, userId: string, items: seq<OrderItem>, createdAt: string)
      returns (r: Result<Order>)
      modifies this
      ensures carts == old(carts)
      ensures products == Process(old(products), items).products
      ensures Process(old(products), items).Placed? ==>
        && r == Ok(Order(orderId, userId, Process(old(products), items).lines,
                         SubtotalSum(Process(old(products), items).lines), Pending, createdAt))
        && orders == old(orders) + [r.value]
      ensures Process(old(products), items).Aborted? ==>
        r == Err(Process(old(products), items).error) && orders == old(orders)
      ensures r.Ok? ==> WellFormedOrder(r.value) && |r.value.items| == |items|
      ensures old(OrdersWellFormed()) ==> OrdersWellFormed()
      ensures old(StockNonNegative()) ==> StockNonNegative()
    {
      ghost var initial := products;
      ghost var states := [products];
      var lines: seq<OrderLine> := [];
      var i := 0;
      while i < |items|
        invariant 0 <= i <= |items|
        invariant orders == old(orders) && carts == old(carts)
        invariant Accepts(initial, items[..i], states, lines) && products == states[i]
      {
        var item := items[i];
        var found := ProductIndex(products, item.productId);
        if found.None? {
          Stopped(initial, items, i, states, lines);
          ProcessMissing(products, items[i..]);
          return Err(MissingProduct(item.productId));
        }
        var product := products[found.value];
        if product.stock < item.quantity {
          Stopped(initial, items, i, states, lines);
          ProcessShort(products, items[i..], found.value);
          return Err(InsufficientStock(product.id));
        }
        var line := OrderLine(product.id, item.quantity, product.price, product.price * item.quantity);
        products := products[found.value := product.(stock := product.stock - item.quantity)];
        assert Step(states[i], item) == Accepted(products, line);
        assert items[..i + 1] == items[..i] + [item];
        states, lines := states + [products], lines + [line];
        i := i + 1;
      }
      Stopped(initial, items, i, states, lines);
      assert items[i..] == [] && lines + [] == lines;
      PlacedLines(initial, items);
      var order := Order(orderId, userId, lines, SubtotalSum(lines), Pending, createdAt);
      assert WellFormedOrder(order);
      orders := orders + [order];
      r := Ok(order);
    }

    /** Removes the user's first line for `productId` and recomputes the
        total; fails when the user has no cart or the cart has no such line. */
    method RemoveFromCart(userId: string, productId: string) returns (r: Result<Cart>)
      modifies this
      ensures products == old(products) && orders == old(orders)
      ensures userId !in old(carts) ==> r == Err(CartNotFound) && carts == old(carts)
      ensures userId in old(carts) ==>
        var before := old(carts)[userId];
        match ItemIndex(before.items, productId)
        case None =>
          r == Err(ProductNotInCart) && carts == old(carts)
        case Some(j) =>
          var items := RemoveAt(before.items, j);
          && carts == old(carts)[userId := Cart(items, CartTotal(items))]
          && r == Ok(carts[userId])
          && (Consistent(before) ==>
                carts[userId].total == before.total - before.items[j].price * before.items[j].quantity)
      ensures old(CartsConsistent()) ==> CartsConsistent()
    {
      if userId !in carts {
        return Err(CartNotFound);
      }
      var cart := carts[userId];
      var found := ItemIndex(cart.items, productId);
      if found.None? {
        return Err(ProductNotInCart);
      }
      CartTotalRemove(cart.items, found.value);
      var items := RemoveAt(cart.items, found.value);
      cart := Cart(items, CartTotal(items));
      carts := carts[userId := cart];
      r := Ok(cart);
    }
  }
}
