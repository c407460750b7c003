/** The cart sheet (src/components/Cart.tsx): the total, the badge on the
    cart button, and the body of the sheet, each derived from the lines. */
module CartSheet {
  import opened Common
  import opened Index

  function LineAmount(l: CartLine): real {
    l.price * (l.quantity as real)
  }

  /** `items.reduce((sum, item) => sum + item.price * item.quantity, 0)`:
      a fold from the left, starting at zero. */
  function Total(items: seq<CartLine>): real {
    if |items| == 0 then 0.0
    else Total(items[..|items| - 1]) + LineAmount(items[|items| - 1])
  }

  /** Reference definition: the same sum, nested from the right. */
  function SumOfAmounts(items: seq<CartLine>): real {
    if |items| == 0 then 0.0 else LineAmount(items[0]) + SumOfAmounts(items[1..])
  }

  lemma TotalEmpty()
    ensures Total([]) == 0.0
  {
  }

  /** The total of a concatenation is the sum of the two totals. */
  lemma {:induction false} TotalAppend(a: seq<CartLine>, b: seq<CartLine>)
    ensures Total(a + b) == Total(a) + Total(b)
  {
    if |b| > 0 {
      var b' := b[..|b| - 1];
      assert (a + b)[..|a + b| - 1] == a + b';
      assert (a + b)[|a + b| - 1] == b[|b| - 1];
      TotalAppend(a, b');
    } else {
      assert a + b == a;
    }
  }

  /** The total is the sum of price times quantity over all lines. */
  lemma {:induction false} TotalIsSumOfAmounts(items: seq<CartLine>)
    ensures Total(items) == SumOfAmounts(items)
  {
    if |items| > 0 {
      assert items == [items[0]] + items[1..];
      TotalAppend([items[0]], items[1..]);
      assert Total([items[0]]) == LineAmount(items[0]) by {
        assert [items[0]][..0] == [];
      }
      TotalIsSumOfAmounts(items[1..]);
    }
  }

  lemma TotalOfLine(l: CartLine)
    ensures Total([l]) == LineAmount(l)
  {
    assert [l][..0] == [];
  }

  /** The total around one position: what is before it, the line itself,
      and what follows. */
  lemma TotalAround(pre: seq<CartLine>, l: CartLine, post: seq<CartLine>)
    ensures Total(pre + [l] + post) == Total(pre) + LineAmount(l) + Total(post)
  {
    TotalAppend(pre + [l], post);
    TotalAppend(pre, [l]);
    TotalOfLine(l);
  }

  /** With unique ids, removing line `i` lowers the total by exactly that
      line's price times quantity. */
  lemma TotalAfterRemove(items: seq<CartLine>, i: nat)
    requires UniqueIds(items)
    requires i < |items|
    ensures Total(RemovedFromCart(items, items[i].id)) == Total(items) - LineAmount(items[i])
  {
    RemovedAt(items, i);
    TotalWithoutAt(items, i);
  }

  /** Dropping line `i` lowers the total by that line's amount. */
  lemma TotalWithoutAt(items: seq<CartLine>, i: nat)
    requires i < |items|
    ensures Total(items[..i] + items[i + 1..]) == Total(items) - LineAmount(items[i])
  {
    SplitAt(items, i);
    TotalWithout(items[..i], items[i], items[i + 1..]);
  }

  lemma SplitAt(items: seq<CartLine>, i: nat)
    requires i < |items|
    ensures items == items[..i] + [items[i]] + items[i + 1..]
  {
  }

  lemma TotalWithout(pre: seq<CartLine>, l: CartLine, post: seq<CartLine>)
    ensures Total(pre + post) == Total(pre + [l] + post) - LineAmount(l)
  {
    TotalAround(pre, l, post);
    TotalAppend(pre, post);
  }

  /** Merging `quantity` more units into a line raises the line's amount by
      `quantity` at the line's own price. */
  lemma MergedLineAmount(l: CartLine, quantity: int)
    ensures LineAmount(l.(quantity := l.quantity + quantity)) - LineAmount(l) == l.price * (quantity as real)
  {
  }

  /** Adding an id the cart does not hold raises the total by the new
      line's price times the requested quantity. */
  lemma TotalAfterAppend(prev: seq<CartLine>, product: Product, quantity: int)
    requires !HasId(prev, product.id)
    ensures Total(AddedToCart(prev, product, quantity)) == Total(prev) + product.price * (quantity as real)
  {
    var line := NewLine(product, quantity);
    AddNewIdAppends(prev, product, quantity);
    TotalAppend(prev, [line]);
    TotalOfLine(line);
  }

  /** A refused merge leaves the total as it was. */
  lemma TotalAfterRefusedMerge(prev: seq<CartLine>, product: Product, quantity: int)
    requires StockLimitHit(prev, product, quantity)
    ensures Total(AddedToCart(prev, product, quantity)) == Total(prev)
  {
    AddOverStockUnchanged(prev, product, quantity);
  }

  /** A merge within stock replaces the line's amount by that of the merged
      line: by MergedLineAmount, the requested quantity at the price the
      line already holds, not the product's current price. */
  lemma MergeTotal(prev: seq<CartLine>, product: Product, quantity: int, k: nat)
    requires UniqueIds(prev)
    requires k < |prev| && prev[k].id == product.id
    requires prev[k].quantity + quantity <= product.stock
    ensures Total(AddedToCart(prev, product, quantity))
         == Total(prev) - LineAmount(prev[k]) + LineAmount(prev[k].(quantity := prev[k].quantity + quantity))
  {
    AddMergeReplacesOneLine(prev, product, quantity, k);
    ReplacedAtTotal(prev, k, prev[k].(quantity := prev[k].quantity + quantity));
  }

  lemma ReplacedAtTotal(prev: seq<CartLine>, k: nat, line: CartLine)
    requires k < |prev|
    ensures Total(prev[..k] + [line] + prev[k + 1..]) == Total(prev) - LineAmount(prev[k]) + LineAmount(line)
  {
    var pre, was, post := prev[..k], prev[k], prev[k + 1..];
    assert prev == pre + [was] + post;
    ReplacedLineTotal(pre, was, line, post);
  }

  /** Replacing one line changes the total by the difference of the two
      lines' amounts. */
  lemma ReplacedLineTotal(pre: seq<CartLine>, was: CartLine, line: CartLine, post: seq<CartLine>)
    ensures Total(pre + [line] + post) == Total(pre + [was] + post) - LineAmount(was) + LineAmount(line)
  {
    TotalAround(pre, was, post);
    TotalAround(pre, line, post);
  }

  // ---------------------------------------------------------------------
  // Badge

  /** The badge on the cart button: shown exactly when the sheet lists
      lines rather than the empty notice, and then it displays the number
      of rows the sheet lists. */
  function Badge(items: seq<CartLine>): (b: Option<nat>)
    ensures b.Some? <==> Body(items).Lines?
    ensures b.Some? ==> b.value == |Body(items).rows|
  {
    if |items| > 0 then Some(|items|) else None
  }

  /** The badge counts lines, not units: changing quantities, by an update
      or by merging into an existing line, never changes it. */
  lemma BadgeIgnoresQuantities(items: seq<CartLine>, product: Product, id: int, q: int)
    ensures Badge(QuantityUpdated(items, id, q)) == Badge(items)
    ensures HasId(items, product.id) ==> Badge(AddedToCart(items, product, q)) == Badge(items)
  {
  }

  /** Adding a product the cart does not hold raises the badge by one,
      whatever the quantity. */
  lemma BadgeAfterNewLine(prev: seq<CartLine>, product: Product, quantity: int)
    requires !HasId(prev, product.id)
    ensures Badge(AddedToCart(prev, product, quantity)) == Some(|prev| + 1)
  {
    AddNewIdAppends(prev, product, quantity);
  }

  /** With unique ids, removing a line lowers the badge by one, and removing
      the last line hides it. */
  lemma BadgeAfterRemove(items: seq<CartLine>, i: nat)
    requires UniqueIds(items)
    requires i < |items|
    ensures Badge(RemovedFromCart(items, items[i].id)) == if |items| == 1 then None else Some(|items| - 1)
  {
    RemovedAt(items, i);
  }

  // ---------------------------------------------------------------------
  // Sheet body

  /** One rendered line: name, price, quantity and the id its Remove button
      passes to `onRemoveItem`. */
  datatype Row = Row(name: string, price: real, quantity: int, removeId: int)

  /** "Your cart is empty", or the rows followed by the total. */
  datatype SheetBody = EmptyNotice | Lines(rows: seq<Row>, total: real)

  function RowOf(l: CartLine): Row {
    Row(l.name, l.price, l.quantity, l.id)
  }

  function Rows(items: seq<CartLine>): (rows: seq<Row>)
    ensures |rows| == |items|
    ensures forall i :: 0 <= i < |items| ==> rows[i] == RowOf(items[i])
  {
    if |items| == 0 then [] else [RowOf(items[0])] + Rows(items[1..])
  }

  function Body(items: seq<CartLine>): (b: SheetBody)
    ensures b.EmptyNotice? <==> |items| == 0
    ensures b.Lines? ==> |b.rows| == |items| && b.total == SumOfAmounts(items)
    ensures b.Lines? ==> forall i :: 0 <= i < |items| ==>
      b.rows[i].removeId == items[i].id && b.rows[i].name == items[i].name &&
      b.rows[i].price == items[i].price && b.rows[i].quantity == items[i].quantity
  {
    TotalIsSumOfAmounts(items);
    if |items| == 0 then EmptyNotice else Lines(Rows(items), Total(items))
  }

  /** Wiring of the Remove buttons to `removeFromCart`: with unique ids, the
      button of row `i` removes line `i` and only it. */
  lemma RemoveButtonRemovesItsLine(items: seq<CartLine>, i: nat)
    requires UniqueIds(items)
    requires i < |items|
    ensures Body(items).Lines?
    ensures RemovedFromCart(items, Body(items).rows[i].removeId) == items[..i] + items[i + 1..]
  {
    RemovedAt(items, i);
  }
}
