/** The meaning of a checkout: the requested items are handled one after the
    other against the catalog, each one found by id, checked against the stock
    left at that moment, priced, and taken out of stock. The first item that
    fails stops the checkout, and the items before it stay taken out of stock. */
module Checkout {
  import opened Documents
  import opened Catalog

  /** What handling one item does: the catalog afterwards and the order line,
      or the failure. */
  datatype StepResult =
    | Accepted(products: seq<Product>, line: OrderLine)
    | Rejected(error: Error)

  /** What handling a list of items does: the catalog afterwards and either
      the order lines of all items, or the failure that stopped the run. */
  datatype Outcome =
    | Placed(products: seq<Product>, lines: seq<OrderLine>)
    | Aborted(products: seq<Product>, error: Error)

  function Step(ps: seq<Product>, item: OrderItem): StepResult {
    match ProductIndex(ps, item.productId)
    case None => Rejected(MissingProduct(item.productId))
    case Some(i) =>
      var p := ps[i];
      if p.stock < item.quantity then Rejected(InsufficientStock(p.id))
      else Accepted(ps[i := p.(stock := p.stock - item.quantity)],
                    OrderLine(p.id, item.quantity, p.price, p.price * item.quantity))
  }

  /** `o` with `lines` put before its own lines. */
  function Prepend(lines: seq<OrderLine>, o: Outcome): Outcome {
    if o.Placed? then Placed(o.products, lines + o.lines) else o
  }

  lemma PrependTwice(a: seq<OrderLine>, b: seq<OrderLine>, o: Outcome)
    ensures Prepend(a, Prepend(b, o)) == Prepend(a + b, o)
  {
    if o.Placed? {
      assert a + (b + o.lines) == (a + b) + o.lines;
    }
  }

  function Process(ps: seq<Product>, items: seq<OrderItem>): Outcome
    decreases |items|
  {
    if items == [] then Placed(ps, [])
    else match Step(ps, items[0])
      case Rejected(e) => Aborted(ps, e)
      case Accepted(next, line) => Prepend([line], Process(next, items[1..]))
  }

  /** `items` were accepted one after the other: `states[k]` is the catalog
      the k-th item met and `lines[k]` the line it produced. */
  ghost predicate Accepts(ps: seq<Product>, items: seq<OrderItem>, states: seq<seq<Product>>, lines: seq<OrderLine>) {
    && |states| == |items| + 1
    && |lines| == |items|
    && states[0] == ps
    && forall k :: 0 <= k < |items| ==> Step(states[k], items[k]) == Accepted(states[k + 1], lines[k])
  }

  /** After its first item, an accepted run is an accepted run of the rest. */
  lemma AcceptsTail(ps: seq<Product>, items: seq<OrderItem>, states: seq<seq<Product>>, lines: seq<OrderLine>)
    requires items != [] && Accepts(ps, items, states, lines)
    ensures Step(ps, items[0]) == Accepted(states[1], lines[0])
    ensures Accepts(states[1], items[1..], states[1..], lines[1..])
  {
    forall k | 0 <= k < |items[1..]|
      ensures Step(states[1..][k], items[1..][k]) == Accepted(states[1..][k + 1], lines[1..][k])
    {
      assert Step(states[k + 1], items[k + 1]) == Accepted(states[k + 2], lines[k + 1]);
    }
  }

  /** Running a list of items that were all accepted, followed by more items,
      is running the rest on the catalog they left, after their lines. */
  lemma {:induction false} AcceptsThen(ps: seq<Product>, items: seq<OrderItem>, states: seq<seq<Product>>,
                                       lines: seq<OrderLine>, rest: seq<OrderItem>)
    requires Accepts(ps, items, states, lines)
    ensures Process(ps, items + rest) == Prepend(lines, Process(states[|items|], rest))
    decreases |items|
  {
    if items == [] {
      assert items + rest == rest;
      assert lines == [];
      assert Prepend([], Process(ps, rest)) == Process(ps, rest);
    } else {
      AcceptsTail(ps, items, states, lines);
      assert (items + rest)[0] == items[0];
      assert (items + rest)[1..] == items[1..] + rest;
      AcceptsThen(states[1], items[1..], states[1..], lines[1..], rest);
      PrependTwice([lines[0]], lines[1..], Process(states[|items|], rest));
      assert [lines[0]] + lines[1..] == lines;
    }
  }

  /** A first item naming no product stops the checkout, catalog as it is. */
  lemma ProcessMissing(ps: seq<Product>, items: seq<OrderItem>)
    requires items != [] && ProductIndex(ps, items[0].productId) == None
    ensures Process(ps, items) == Aborted(ps, MissingProduct(items[0].productId))
  {
  }

  /** A first item asking for more than the stock left stops the checkout,
      catalog as it is. */
  lemma ProcessShort(ps: seq<Product>, items: seq<OrderItem>, i: nat)
    requires items != [] && ProductIndex(ps, items[0].productId) == Some(i)
    requires ps[i].stock < items[0].quantity
    ensures Process(ps, items) == Aborted(ps, InsufficientStock(ps[i].id))
  {
  }

  /** The order total: the subtotals summed from the first line to the last. */
  function SubtotalSum(lines: seq<OrderLine>): int {
    if lines == [] then 0
    else SubtotalSum(lines[..|lines| - 1]) + lines[|lines| - 1].subtotal
  }

  /** The total quantity the items request of the product `id`. */
  function Ordered(items: seq<OrderItem>, id: string): int {
    if items == [] then 0
    else (if items[0].productId == id then items[0].quantity else 0) + Ordered(items[1..], id)
  }

  /** The product `id` exists and its first record holds at least the total
      quantity the items request of it. */
  predicate Covered(ps: seq<Product>, items: seq<OrderItem>, id: string) {
    match ProductIndex(ps, id)
    case None => false
    case Some(i) => Ordered(items, id) <= ps[i].stock
  }

  /** The check-then-commit rule: every requested product exists, and its
      stock covers everything the whole order asks of it. */
  predicate Admissible(ps: seq<Product>, items: seq<OrderItem>) {
    forall k :: 0 <= k < |items| ==> Covered(ps, items, items[k].productId)
  }

  /** Each step only lowers the stock of one record: every other field, and
      every other record, stays as it was. */
  lemma {:induction false} ProcessChangesOnlyStock(ps: seq<Product>, items: seq<OrderItem>)
    ensures |Process(ps, items).products| == |ps|
    ensures forall j :: 0 <= j < |ps| ==>
      Process(ps, items).products[j] == ps[j].(stock := Process(ps, items).products[j].stock)
    decreases |items|
  {
    if items != [] {
      match Step(ps, items[0])
      case Rejected(_) =>
      case Accepted(next, _) =>
        ProcessChangesOnlyStock(next, items[1..]);
    }
  }

  /** A record whose id no item names comes out of the checkout unchanged,
      whether the checkout is placed or aborted. */
  lemma {:induction false} ProcessKeepsUnnamed(ps: seq<Product>, items: seq<OrderItem>, j: nat)
    requires j < |ps|
    requires forall k :: 0 <= k < |items| ==> items[k].productId != ps[j].id
    ensures j < |Process(ps, items).products| && Process(ps, items).products[j] == ps[j]
    decreases |items|
  {
    ProcessChangesOnlyStock(ps, items);
    if items != [] {
      match Step(ps, items[0])
      case Rejected(_) =>
      case Accepted(next, _) =>
        ProcessKeepsUnnamed(next, items[1..], j);
    }
  }

  /** Every record ends either untouched or with a stock of at least zero,
      because each decrement follows the check `stock >= quantity`. */
  lemma {:induction false} ProcessStockFloor(ps: seq<Product>, items: seq<OrderItem>)
    ensures |Process(ps, items).products| == |ps|
    ensures forall j :: 0 <= j < |ps| ==>
      Process(ps, items).products[j] == ps[j] || Process(ps, items).products[j].stock >= 0
    decreases |items|
  {
    ProcessChangesOnlyStock(ps, items);
    if items != [] {
      match Step(ps, items[0])
      case Rejected(_) =>
      case Accepted(next, _) =>
        ProcessStockFloor(next, items[1..]);
    }
  }

  /** A placed checkout has one line per item, in order, with the item's
      product and quantity, the price its product has in the catalog, and
      subtotal = price * quantity. */
  lemma {:induction false} PlacedLines(ps: seq<Product>, items: seq<OrderItem>)
    requires Process(ps, items).Placed?
    ensures |Process(ps, items).lines| == |items|
    ensures forall k :: 0 <= k < |items| ==>
      var line := Process(ps, items).lines[k];
      && line.productId == items[k].productId
      && line.quantity == items[k].quantity
      && line.subtotal == line.price * line.quantity
      && ProductIndex(ps, items[k].productId).Some?
      && line.price == ps[ProductIndex(ps, items[k].productId).value].price
    decreases |items|
  {
    if items != [] {
      match Step(ps, items[0])
      case Rejected(_) =>
      case Accepted(next, line) =>
        var i := ProductIndex(ps, items[0].productId).value;
        assert next == ps[i := ps[i].(stock := ps[i].stock - items[0].quantity)];
        PlacedLines(next, items[1..]);
        var lines := Process(ps, items).lines;
        assert lines == [line] + Process(next, items[1..]).lines;
        forall k | 1 <= k < |items|
          ensures ProductIndex(ps, items[k].productId) == ProductIndex(next, items[k].productId)
        {
          ProductIndexSameIds(ps, next, items[k].productId);
        }
    }
  }

  /** Stock accounting: after a placed checkout, the first record of each id
      has lost exactly the total quantity ordered of that id; every other
      record keeps its stock. */
  lemma {:induction false} StockAccounting(ps: seq<Product>, items: seq<OrderItem>)
    requires Process(ps, items).Placed?
    ensures |Process(ps, items).products| == |ps|
    ensures forall j :: 0 <= j < |ps| ==>
      Process(ps, items).products[j].stock ==
        ps[j].stock - (if ProductIndex(ps, ps[j].id) == Some(j) then Ordered(items, ps[j].id) else 0)
    decreases |items|
  {
    ProcessChangesOnlyStock(ps, items);
    if items != [] {
      match Step(ps, items[0])
      case Rejected(_) =>
      case Accepted(next, _) =>
        StockAccounting(next, items[1..]);
        forall j | 0 <= j < |ps|
          ensures ProductIndex(next, next[j].id) == ProductIndex(ps, ps[j].id)
        {
          ProductIndexSameIds(ps, next, ps[j].id);
        }
    }
  }

  lemma {:induction false} OrderedUnnamed(items: seq<OrderItem>, id: string)
    requires forall k :: 0 <= k < |items| ==> items[k].productId != id
    ensures Ordered(items, id) == 0
  {
    if items != [] {
      OrderedUnnamed(items[1..], id);
    }
  }

  lemma {:induction false} OrderedNonNegative(items: seq<OrderItem>, id: string)
    requires forall k :: 0 <= k < |items| ==> items[k].quantity >= 0
    ensures Ordered(items, id) >= 0
  {
    if items != [] {
      OrderedNonNegative(items[1..], id);
    }
  }

  /** After the first item is accepted, the rest of the items are covered by
      the remaining catalog exactly when all items were covered by the
      catalog before it. */
  lemma CoveredAfterStep(ps: seq<Product>, items: seq<OrderItem>, id: string)
    requires items != [] && Step(ps, items[0]).Accepted?
    ensures Covered(Step(ps, items[0]).products, items[1..], id) <==> Covered(ps, items, id)
  {
    var next := Step(ps, items[0]).products;
    ProductIndexSameIds(ps, next, id);
  }

  /** A checkout that goes through was admissible: every product it names
      exists and its starting stock covers all the quantity ordered of it. */
  lemma {:induction false} PlacedImpliesAdmissible(ps: seq<Product>, items: seq<OrderItem>)
    requires Process(ps, items).Placed?
    ensures Admissible(ps, items)
    decreases |items|
  {
    if items != [] {
      match Step(ps, items[0])
      case Rejected(_) =>
      case Accepted(next, _) =>
        var rest := items[1..];
        PlacedImpliesAdmissible(next, rest);
        var id := items[0].productId;
        forall k | 0 <= k < |items|
          ensures Covered(ps, items, items[k].productId)
        {
          CoveredAfterStep(ps, items, items[k].productId);
          if k == 0 {
            if forall m :: 0 <= m < |rest| ==> rest[m].productId != id {
              OrderedUnnamed(rest, id);
            } else {
              var m :| 0 <= m < |rest| && rest[m].productId == id;
              assert Covered(next, rest, rest[m].productId);
            }
          } else {
            assert items[k] == rest[k - 1];
          }
        }
    }
  }

  /** Conversely, with every quantity at least 1, an admissible checkout goes
      through: the one-item-at-a-time loop accepts exactly the orders that a
      check of every item against the starting stock accepts. */
  lemma {:induction false} AdmissibleImpliesPlaced(ps: seq<Product>, items: seq<OrderItem>)
    requires forall k :: 0 <= k < |items| ==> items[k].quantity >= 1
    requires Admissible(ps, items)
    ensures Process(ps, items).Placed?
    decreases |items|
  {
    if items != [] {
      var rest := items[1..];
      assert Covered(ps, items, items[0].productId);
      OrderedNonNegative(rest, items[0].productId);
      assert Step(ps, items[0]).Accepted?;
      var next := Step(ps, items[0]).products;
      forall k | 0 <= k < |rest|
        ensures Covered(next, rest, rest[k].productId)
      {
        CoveredAfterStep(ps, items, rest[k].productId);
        assert rest[k] == items[k + 1];
      }
      AdmissibleImpliesPlaced(next, rest);
    }
  }

  /** Every product a placed checkout names ends with a stock of at least zero. */
  lemma PlacedStockNonNegative(ps: seq<Product>, items: seq<OrderItem>)
    requires Process(ps, items).Placed?
    ensures |Process(ps, items).products| == |ps|
    ensures forall k :: 0 <= k < |items| ==>
      && ProductIndex(ps, items[k].productId).Some?
      && Process(ps, items).products[ProductIndex(ps, items[k].productId).value].stock >= 0
  {
    PlacedImpliesAdmissible(ps, items);
    StockAccounting(ps, items);
    forall k | 0 <= k < |items|
      ensures ProductIndex(ps, items[k].productId).Some?
    {
      assert Covered(ps, items, items[k].productId);
    }
  }

  /** An aborted checkout stopped at some item k: the items before it were all
      accepted and their stock stays taken, the item k itself was rejected
      with the returned error, and no item after it was looked at. */
  lemma {:induction false} AbortedAfterPrefix(ps: seq<Product>, items: seq<OrderItem>)
    requires Process(ps, items).Aborted?
    ensures exists k :: (
      && 0 <= k < |items|
      && Process(ps, items[..k]).Placed?
      && Process(ps, items[..k]).products == Process(ps, items).products
      && Step(Process(ps, items).products, items[k]) == Rejected(Process(ps, items).error))
    decreases |items|
  {
    var o := Process(ps, items);
    match Step(ps, items[0])
    case Rejected(e) =>
      assert items[..0] == [];
      assert Process(ps, items[..0]) == Placed(ps, []);
    case Accepted(next, line) =>
      var rest := items[1..];
      AbortedAfterPrefix(next, rest);
      var k :| && 0 <= k < |rest|
               && Process(next, rest[..k]).Placed?
               && Process(next, rest[..k]).products == o.products
               && Step(o.products, rest[k]) == Rejected(o.error);
      assert items[..k + 1][0] == items[0];
      assert items[..k + 1][1..] == rest[..k];
      assert items[k + 1] == rest[k];
      assert Process(ps, items[..k + 1]).products == o.products;
  }

  /** The partial decrement, on a concrete catalog: the first item is taken
      out of stock, the second names no product, and the checkout fails with
      the first product's stock already lowered from 5 to 3. */
  lemma AbortedCheckoutKeepsDecrement()
    ensures var widget := Product("p1", "Widget", None, 999, 5, "tools");
      Process([widget], [OrderItem("p1", 2), OrderItem("missing", 1)])
        == Aborted([widget.(stock := 3)], MissingProduct("missing"))
  {
    var widget := Product("p1", "Widget", None, 999, 5, "tools");
    var items := [OrderItem("p1", 2), OrderItem("missing", 1)];
    assert Step([widget], items[0]) == Accepted([widget.(stock := 3)], OrderLine("p1", 2, 999, 1998));
    assert items[1..] == [OrderItem("missing", 1)];
    assert Step([widget.(stock := 3)], items[1]) == Rejected(MissingProduct("missing"));
  }
}
