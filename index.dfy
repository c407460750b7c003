/** The product page's shopping cart (src/pages/Index.tsx): the cart is an
    ordered list of lines, replaced as a whole by each of three handlers.
    Each handler's list expression is a function here; the page state that
    `setCartItems` replaces is the field of class IndexPage. */
module Index {
  import opened Common

  /** A catalog product as the page fetches it. */
  datatype Product = Product(id: int, name: string, price: real, image: string,
                             description: Option<string>, stock: int)

  /** A cart line. The declared shape is {id, name, price, quantity}; a line
      is built by spreading the product (`{ ...product, quantity }`), so at
      run time it also carries the product's image, description and stock. */
  datatype CartLine = CartLine(id: int, name: string, price: real, quantity: int,
                               image: string, description: Option<string>, stock: int)

  function NewLine(product: Product, quantity: int): CartLine {
    CartLine(product.id, product.name, product.price, quantity,
             product.image, product.description, product.stock)
  }

  predicate HasId(items: seq<CartLine>, id: int) {
    exists i :: 0 <= i < |items| && items[i].id == id
  }

  /** No two lines share an id: the invariant the three handlers keep. */
  predicate UniqueIds(items: seq<CartLine>) {
    forall i, j :: 0 <= i < j < |items| ==> items[i].id != items[j].id
  }

  /** `prev.find(item => item.id === id)`, as the position of the first match. */
  function FindLine(items: seq<CartLine>, id: int): (r: Option<nat>)
    ensures r.None? <==> !HasId(items, id)
    ensures r.Some? ==> r.value < |items| && items[r.value].id == id
    ensures r.Some? ==> forall j :: 0 <= j < r.value ==> items[j].id != id
  {
    if |items| == 0 then None
    else if items[0].id == id then Some(0)
    else match FindLine(items[1..], id)
      case None => None
      case Some(k) => Some(k + 1)
  }

  /** `prev.map(item => item.id === id ? { ...item, quantity: q } : item)`. */
  function QuantityUpdated(items: seq<CartLine>, id: int, q: int): (r: seq<CartLine>)
    ensures |r| == |items|
    ensures forall i {:trigger r[i]} :: 0 <= i < |items| ==>
      r[i] == if items[i].id == id then items[i].(quantity := q) else items[i]
  {
    if |items| == 0 then []
    else [if items[0].id == id then items[0].(quantity := q) else items[0]]
         + QuantityUpdated(items[1..], id, q)
  }

  /** `prev.filter(item => item.id !== id)`. */
  function RemovedFromCart(items: seq<CartLine>, id: int): (r: seq<CartLine>)
    ensures |r| <= |items|
    ensures forall l :: l in r <==> l in items && l.id != id
  {
    if |items| == 0 then []
    else (if items[0].id == id then [] else [items[0]]) + RemovedFromCart(items[1..], id)
  }

  /** The merge is refused: the line exists and the summed quantity would
      exceed the product's stock. This is when the page raises its toast. */
  predicate StockLimitHit(prev: seq<CartLine>, product: Product, quantity: int) {
    match FindLine(prev, product.id)
    case None => false
    case Some(k) => prev[k].quantity + quantity > product.stock
  }

  /** The value `addToCart`'s updater returns (Index.tsx:51-70). */
  function AddedToCart(prev: seq<CartLine>, product: Product, quantity: int): seq<CartLine> {
    match FindLine(prev, product.id)
    case None => prev + [NewLine(product, quantity)]
    case Some(k) =>
      var newQuantity := prev[k].quantity + quantity;
      if newQuantity <= product.stock then QuantityUpdated(prev, product.id, newQuantity)
      else prev
  }

  // ---------------------------------------------------------------------
  // addToCart

  /** An id not yet in the cart is appended as one new line at the end, with
      exactly the requested quantity; the earlier lines are untouched. */
  lemma AddNewIdAppends(prev: seq<CartLine>, product: Product, quantity: int)
    requires !HasId(prev, product.id)
    ensures AddedToCart(prev, product, quantity) == prev + [NewLine(product, quantity)]
    ensures !StockLimitHit(prev, product, quantity)
  {
  }

  /** Merging within stock sets the first matching line's quantity to the sum,
      applied to every line with that id; length, order and every other line
      are unchanged. */
  lemma AddMergeWithinStock(prev: seq<CartLine>, product: Product, quantity: int, k: nat)
    requires FindLine(prev, product.id) == Some(k)
    requires prev[k].quantity + quantity <= product.stock
    ensures var r := AddedToCart(prev, product, quantity);
      |r| == |prev| && r[k] == prev[k].(quantity := prev[k].quantity + quantity) &&
      forall i :: 0 <= i < |prev| && prev[i].id != product.id ==> r[i] == prev[i]
    ensures !StockLimitHit(prev, product, quantity)
  {
  }

  /** With unique ids the merged cart is the old one with a single line
      replaced in place. */
  lemma AddMergeReplacesOneLine(prev: seq<CartLine>, product: Product, quantity: int, k: nat)
    requires UniqueIds(prev)
    requires k < |prev| && prev[k].id == product.id
    requires prev[k].quantity + quantity <= product.stock
    ensures AddedToCart(prev, product, quantity)
         == prev[..k] + [prev[k].(quantity := prev[k].quantity + quantity)] + prev[k + 1..]
  {
    FindLineUnique(prev, k);
    QuantityUpdatedOneLine(prev, product.id, prev[k].quantity + quantity, k);
  }

  /** With unique ids, `find` returns the one line that has the id. */
  lemma FindLineUnique(items: seq<CartLine>, k: nat)
    requires UniqueIds(items)
    requires k < |items|
    ensures FindLine(items, items[k].id) == Some(k)
  {
    assert HasId(items, items[k].id);
  }

  /** Over stock, the cart comes back exactly as it was: no partial clamp. */
  lemma AddOverStockUnchanged(prev: seq<CartLine>, product: Product, quantity: int)
    requires StockLimitHit(prev, product, quantity)
    ensures AddedToCart(prev, product, quantity) == prev
  {
  }

  /** The merge path never leaves a line of this id above the product's
      stock unless it left that line as it was. */
  lemma MergeRespectsStock(prev: seq<CartLine>, product: Product, quantity: int)
    requires HasId(prev, product.id)
    ensures var r := AddedToCart(prev, product, quantity);
      |r| == |prev| &&
      forall i :: 0 <= i < |r| && r[i].id == product.id ==>
        r[i].quantity <= product.stock || r[i] == prev[i]
  {
  }

  /** The append path has no stock check: a fresh line keeps the requested
      quantity even when it exceeds the stock. */
  lemma AppendIgnoresStock(prev: seq<CartLine>, product: Product, quantity: int)
    requires !HasId(prev, product.id)
    requires quantity > product.stock
    ensures var r := AddedToCart(prev, product, quantity);
      |r| == |prev| + 1 && r[|prev|].quantity == quantity > product.stock
  {
    AddNewIdAppends(prev, product, quantity);
  }

  lemma {:induction false} AddPreservesUniqueIds(prev: seq<CartLine>, product: Product, quantity: int)
    requires UniqueIds(prev)
    ensures UniqueIds(AddedToCart(prev, product, quantity))
  {
    match FindLine(prev, product.id)
    case None =>
      var r := prev + [NewLine(product, quantity)];
      forall i, j | 0 <= i < j < |r| ensures r[i].id != r[j].id {
        if j == |prev| {
          assert r[i] == prev[i];
        }
      }
    case Some(k) =>
      var newQuantity := prev[k].quantity + quantity;
      if newQuantity <= product.stock {
        QuantityUpdatedKeepsIds(prev, product.id, newQuantity);
      }
  }

  // ---------------------------------------------------------------------
  // updateCartItemQuantity

  lemma QuantityUpdatedKeepsIds(items: seq<CartLine>, id: int, q: int)
    requires UniqueIds(items)
    ensures UniqueIds(QuantityUpdated(items, id, q))
  {
    var r := QuantityUpdated(items, id, q);
    forall i, j | 0 <= i < j < |r| ensures r[i].id != r[j].id {
      assert r[i].id == items[i].id && r[j].id == items[j].id;
    }
  }

  /** An id that is not in the cart leaves it as it was. */
  lemma {:induction false} QuantityUpdatedAbsent(items: seq<CartLine>, id: int, q: int)
    requires !HasId(items, id)
    ensures QuantityUpdated(items, id, q) == items
  {
    if |items| > 0 {
      assert items[0].id != id;
      TailHasNoId(items, id);
      QuantityUpdatedAbsent(items[1..], id, q);
      assert items == [items[0]] + items[1..];
    }
  }

  /** With unique ids, the update replaces exactly one line in place and
      sets its quantity to `q`, whatever `q` is. */
  lemma QuantityUpdatedOneLine(items: seq<CartLine>, id: int, q: int, k: nat)
    requires UniqueIds(items)
    requires k < |items| && items[k].id == id
    ensures QuantityUpdated(items, id, q) == items[..k] + [items[k].(quantity := q)] + items[k + 1..]
  {
    var r := QuantityUpdated(items, id, q);
    var s := items[..k] + [items[k].(quantity := q)] + items[k + 1..];
    assert |r| == |s|;
    forall i | 0 <= i < |r| ensures r[i] == s[i] {
      if i < k {
        assert s[i] == items[i];
      } else if i > k {
        assert s[i] == items[i];
      }
    }
  }

  /** Setting the same quantity twice is the same as setting it once. */
  lemma QuantityUpdatedIdempotent(items: seq<CartLine>, id: int, q: int)
    ensures QuantityUpdated(QuantityUpdated(items, id, q), id, q) == QuantityUpdated(items, id, q)
  {
    var r := QuantityUpdated(items, id, q);
    var rr := QuantityUpdated(r, id, q);
    assert |rr| == |r|;
    forall i | 0 <= i < |r| ensures rr[i] == r[i] {
    }
  }

  // ---------------------------------------------------------------------
  // removeFromCart

  /** Removal is order preserving: it distributes over concatenation. */
  lemma {:induction false} RemovedAppend(a: seq<CartLine>, b: seq<CartLine>, id: int)
    ensures RemovedFromCart(a + b, id) == RemovedFromCart(a, id) + RemovedFromCart(b, id)
  {
    if |a| == 0 {
      assert a + b == b;
    } else {
      assert (a + b)[1..] == a[1..] + b;
      assert (a + b)[0] == a[0];
      RemovedAppend(a[1..], b, id);
    }
  }

  /** An absent id leaves the cart unchanged. */
  lemma {:induction false} RemovedAbsent(items: seq<CartLine>, id: int)
    requires !HasId(items, id)
    ensures RemovedFromCart(items, id) == items
  {
    if |items| > 0 {
      assert items[0].id != id;
      TailHasNoId(items, id);
      RemovedAbsent(items[1..], id);
      assert items == [items[0]] + items[1..];
    }
  }

  /** Removing twice is removing once, and nothing with that id is left. */
  lemma RemovedIdempotent(items: seq<CartLine>, id: int)
    ensures !HasId(RemovedFromCart(items, id), id)
    ensures RemovedFromCart(RemovedFromCart(items, id), id) == RemovedFromCart(items, id)
  {
    var r := RemovedFromCart(items, id);
    assert !HasId(r, id) by {
      forall i | 0 <= i < |r| ensures r[i].id != id {
        assert r[i] in r;
      }
    }
    RemovedAbsent(r, id);
  }

  lemma TailHasNoId(items: seq<CartLine>, id: int)
    requires !HasId(items, id) && |items| > 0
    ensures !HasId(items[1..], id)
  {
    forall i | 0 <= i < |items[1..]| ensures items[1..][i].id != id {
      assert items[1..][i] == items[1 + i];
    }
  }

  lemma TailUniqueIds(items: seq<CartLine>)
    requires UniqueIds(items) && |items| > 0
    ensures UniqueIds(items[1..])
    ensures !HasId(items[1..], items[0].id)
  {
    var tail := items[1..];
    forall a, b | 0 <= a < b < |tail| ensures tail[a].id != tail[b].id {
      assert tail[a] == items[a + 1] && tail[b] == items[b + 1];
    }
    forall a | 0 <= a < |tail| ensures tail[a].id != items[0].id {
      assert tail[a] == items[a + 1];
    }
  }

  /** With unique ids, removing the id of line `i` drops exactly that line
      and keeps the others in their original order. */
  lemma {:induction false} RemovedAt(items: seq<CartLine>, i: nat)
    requires UniqueIds(items)
    requires i < |items|
    ensures RemovedFromCart(items, items[i].id) == items[..i] + items[i + 1..]
  {
    var tail, id := items[1..], items[i].id;
    TailUniqueIds(items);
    if i == 0 {
      RemovedAbsent(tail, id);
    } else {
      assert items[0].id != id;
      assert RemovedFromCart(items, id) == [items[0]] + RemovedFromCart(tail, id);
      assert tail[i - 1] == items[i];
      RemovedAt(tail, i - 1);
      DropAtTail(items, i);
    }
  }

  /** Dropping position `i > 0` keeps the head and drops position `i - 1`
      of the tail. */
  lemma DropAtTail(items: seq<CartLine>, i: nat)
    requires 0 < i < |items|
    ensures items[..i] + items[i + 1..] == [items[0]] + (items[1..][..i - 1] + items[1..][i..])
  {
    assert items[..i] == [items[0]] + items[1..][..i - 1];
    assert items[i + 1..] == items[1..][i..];
  }

  lemma {:induction false} RemovedKeepsUniqueIds(items: seq<CartLine>, id: int)
    requires UniqueIds(items)
    ensures UniqueIds(RemovedFromCart(items, id))
  {
    if |items| > 0 {
      var tail := items[1..];
      TailUniqueIds(items);
      RemovedKeepsUniqueIds(tail, id);
      var rest := RemovedFromCart(tail, id);
      if items[0].id != id {
        var r := [items[0]] + rest;
        forall a, b | 0 <= a < b < |r| ensures r[a].id != r[b].id {
          if a == 0 {
            assert r[b] == rest[b - 1];
            assert rest[b - 1] in tail;
            var t :| 0 <= t < |tail| && tail[t] == rest[b - 1];
            assert tail[t] == items[t + 1];
          } else {
            assert r[a] == rest[a - 1] && r[b] == rest[b - 1];
          }
        }
      }
    }
  }

  // ---------------------------------------------------------------------
  // The page state

  class IndexPage {
    var cartItems: seq<CartLine>
    var toasts: seq<Toast>

    ghost predicate Valid()
      reads this
    {
      UniqueIds(cartItems)
    }

    /** `useState<CartItem[]>([])`. */
    constructor ()
      ensures Valid() && cartItems == [] && toasts == []
    {
      cartItems := [];
      toasts := [];
    }

    method AddToCart(product: Product, quantity: int)
      modifies this
      ensures cartItems == AddedToCart(old(cartItems), product, quantity)
      ensures toasts == old(toasts) +
        if StockLimitHit(old(cartItems), product, quantity) then [StockLimitReached(product.stock)] else []
      ensures old(Valid()) ==> Valid()
    {
      var prev := cartItems;
      if UniqueIds(prev) {
        AddPreservesUniqueIds(prev, product, quantity);
      }
      var existing := FindLine(prev, product.id);
      match existing
      case None =>
        cartItems := prev + [NewLine(product, quantity)];
        assert !StockLimitHit(prev, product, quantity);
      case Some(k) =>
        var newQuantity := prev[k].quantity + quantity;
        if newQuantity <= product.stock {
          cartItems := QuantityUpdated(prev, product.id, newQuantity);
          assert !StockLimitHit(prev, product, quantity);
        } else {
          toasts := toasts + [StockLimitReached(product.stock)];
          assert StockLimitHit(prev, product, quantity);
        }
    }

    method RemoveFromCart(productId: int)
      modifies this
      ensures cartItems == RemovedFromCart(old(cartItems), productId)
      ensures toasts == old(toasts)
      ensures old(Valid()) ==> Valid()
    {
      if Valid() {
        RemovedKeepsUniqueIds(cartItems, productId);
      }
      cartItems := RemovedFromCart(cartItems, productId);
    }

    method UpdateCartItemQuantity(productId: int, quantity: int)
      modifies this
      ensures cartItems == QuantityUpdated(old(cartItems), productId, quantity)
      ensures toasts == old(toasts)
      ensures old(Valid()) ==> Valid()
    {
      if Valid() {
        QuantityUpdatedKeepsIds(cartItems, productId, quantity);
      }
      cartItems := QuantityUpdated(cartItems, productId, quantity);
    }
  }
}
