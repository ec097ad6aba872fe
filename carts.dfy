/** Cart lines and the cart total. */
module Carts {
  import opened Documents
  import opened Sequences

  /** The index of the first line for `productId`, if any. */
  function ItemIndex(items: seq<CartItem>, productId: string): (r: Option<nat>)
    ensures r.Some? ==> r.value < |items| && items[r.value].productId == productId
    ensures r.Some? ==> forall k :: 0 <= k < r.value ==> items[k].productId != productId
    ensures r.None? ==> forall k :: 0 <= k < |items| ==> items[k].productId != productId
  {
    if items == [] then None
    else if items[0].productId == productId then Some(0)
    else match ItemIndex(items[1..], productId)
      case None => None
      case Some(i) => Some(i + 1)
  }

  function LineTotal(item: CartItem): int {
    item.price * item.quantity
  }

  /** The sum of price times quantity over the lines, accumulated from the
      first line to the last. */
  function CartTotal(items: seq<CartItem>): int {
    if items == [] then 0
    else CartTotal(items[..|items| - 1]) + LineTotal(items[|items| - 1])
  }

  /** A cart whose stored total agrees with its lines. */
  predicate Consistent(c: Cart) {
    c.total == CartTotal(c.items)
  }

  lemma {:induction false} CartTotalConcat(a: seq<CartItem>, b: seq<CartItem>)
    ensures CartTotal(a + b) == CartTotal(a) + CartTotal(b)
  {
    if b == [] {
      assert a + b == a;
    } else {
      var n := |b| - 1;
      assert (a + b)[..|a + b| - 1] == a + b[..n];
      assert (a + b)[|a + b| - 1] == b[n];
      CartTotalConcat(a, b[..n]);
    }
  }

  /** Appending a line adds its price times quantity to the total. */
  lemma CartTotalAppend(items: seq<CartItem>, item: CartItem)
    ensures CartTotal(items + [item]) == CartTotal(items) + item.price * item.quantity
  {
    assert (items + [item])[..|items|] == items;
  }

  /** The total splits around any one line. */
  lemma CartTotalSplit(items: seq<CartItem>, i: nat)
    requires i < |items|
    ensures CartTotal(items) == CartTotal(items[..i]) + LineTotal(items[i]) + CartTotal(items[i + 1..])
  {
    var before, after := items[..i], items[i + 1..];
    assert items == (before + [items[i]]) + after;
    CartTotalConcat(before + [items[i]], after);
    CartTotalAppend(before, items[i]);
  }

  /** Adding `q` to a line's quantity adds its price times `q` to its total. */
  lemma LineTotalGrow(line: CartItem, q: int)
    ensures LineTotal(line.(quantity := line.quantity + q)) == LineTotal(line) + line.price * q
  {
    assert line.price * (line.quantity + q) == line.price * line.quantity + line.price * q;
  }

  /** Adding `q` to the quantity of line `i` adds that line's price times `q`. */
  lemma CartTotalIncrement(items: seq<CartItem>, i: nat, q: int)
    requires i < |items|
    ensures CartTotal(items[i := items[i].(quantity := items[i].quantity + q)])
         == CartTotal(items) + items[i].price * q
  {
    var line := items[i];
    var bumped := items[i := line.(quantity := line.quantity + q)];
    CartTotalSplit(items, i);
    CartTotalSplit(bumped, i);
    assert bumped[..i] == items[..i] && bumped[i + 1..] == items[i + 1..];
    LineTotalGrow(line, q);
  }

  /** Removing line `i` takes its price times quantity off the total. */
  lemma CartTotalRemove(items: seq<CartItem>, i: nat)
    requires i < |items|
    ensures CartTotal(RemoveAt(items, i)) == CartTotal(items) - items[i].price * items[i].quantity
  {
    CartTotalSplit(items, i);
    CartTotalConcat(items[..i], items[i + 1..]);
  }

  /** The lines after adding `quantity` of `productId` whose current price is
      `price`: the first line for the product grows and keeps the price it
      captured; without such a line, a new line at `price` is appended. */
  function AddItem(items: seq<CartItem>, productId: string, quantity: int, price: int): (r: seq<CartItem>)
    ensures match ItemIndex(items, productId)
      case Some(j) =>
        && |r| == |items| && r[j].productId == productId
        && r[j].quantity == items[j].quantity + quantity && r[j].price == items[j].price
      case None =>
        && |r| == |items| + 1 && r[|items|] == CartItem(productId, quantity, price)
    ensures forall k :: 0 <= k < |items| && ItemIndex(items, productId) != Some(k) ==> r[k] == items[k]
  {
    match ItemIndex(items, productId)
    case Some(j) => items[j := items[j].(quantity := items[j].quantity + quantity)]
    case None => items + [CartItem(productId, quantity, price)]
  }

  /** The price a product's quantity is added at: the price its first line
      captured, or the current `price` when the cart has no line for it. */
  function LinePrice(items: seq<CartItem>, productId: string, price: int): int {
    match ItemIndex(items, productId)
    case Some(j) => items[j].price
    case None => price
  }

  /** Adding to a cart adds the quantity times the price of the line it lands
      on. */
  lemma AddItemTotal(items: seq<CartItem>, productId: string, quantity: int, price: int)
    ensures CartTotal(AddItem(items, productId, quantity, price))
         == CartTotal(items) + LinePrice(items, productId, price) * quantity
  {
    match ItemIndex(items, productId)
    case Some(j) =>
      CartTotalIncrement(items, j, quantity);
    case None =>
      CartTotalAppend(items, CartItem(productId, quantity, price));
  }

  /** After adding, the cart has exactly one more line or the same lines, and
      the product's first line is where the quantity went. */
  lemma AddItemFinds(items: seq<CartItem>, productId: string, quantity: int, price: int)
    ensures var r := AddItem(items, productId, quantity, price);
      ItemIndex(r, productId) == Some(match ItemIndex(items, productId) case Some(j) => j case None => |items|)
  {
  }
}
