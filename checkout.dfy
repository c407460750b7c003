/** The checkout button (src/components/CartCheckout.tsx): it turns the
    lines it is given into an order and hands it to the backend's `orders`
    insert. The insert is an external asynchronous call; the handler is
    modelled as the part that runs up to the `await` (HandleCheckout) and
    the continuation that runs when the insert settles (InsertSettled). */
module Checkout {
  import opened Common
  import opened Index

  /** One entry of the order's `items` JSON. */
  datatype OrderItem = OrderItem(id: int, name: string, price: real, quantity: int)

  /** The row inserted into `orders`. */
  datatype OrderInsert = OrderInsert(totalAmount: real, items: seq<OrderItem>)

  /** How the awaited insert settles: no error, or an error (whether the
      client reports it in `error` or the call rejects). */
  datatype InsertOutcome = InsertOk | InsertFailed

  /** `items.map(item => ({ id, name, price, quantity }))`: the payload keeps
      the order of the lines and copies exactly these four fields. */
  function OrderItems(items: seq<CartLine>): (r: seq<OrderItem>)
    ensures |r| == |items|
    ensures forall i :: 0 <= i < |items| ==>
      r[i].id == items[i].id && r[i].name == items[i].name &&
      r[i].price == items[i].price && r[i].quantity == items[i].quantity
  {
    if |items| == 0 then []
    else [OrderItem(items[0].id, items[0].name, items[0].price, items[0].quantity)]
         + OrderItems(items[1..])
  }

  /** The projection is order preserving: it distributes over concatenation. */
  lemma {:induction false} OrderItemsAppend(a: seq<CartLine>, b: seq<CartLine>)
    ensures OrderItems(a + b) == OrderItems(a) + OrderItems(b)
  {
    if |a| > 0 {
      assert (a + b)[1..] == a[1..] + b;
      assert (a + b)[0] == a[0];
      OrderItemsAppend(a[1..], b);
    } else {
      assert a + b == b;
    }
  }

  /** Only the four copied fields reach the order: lines that differ in the
      fields a spread product adds (image, description, stock) give the same
      payload. */
  lemma OrderItemsIgnoreProductFields(a: seq<CartLine>, b: seq<CartLine>)
    requires |a| == |b|
    requires forall i :: 0 <= i < |a| ==>
      a[i].id == b[i].id && a[i].name == b[i].name &&
      a[i].price == b[i].price && a[i].quantity == b[i].quantity
    ensures OrderItems(a) == OrderItems(b)
  {
    var ra, rb := OrderItems(a), OrderItems(b);
    assert |ra| == |rb|;
    forall i | 0 <= i < |ra| ensures ra[i] == rb[i] {
    }
  }

  /** The toasts raised once the insert settles: the success toast when the
      insert succeeded, and the failure toast when the insert failed or the
      `onSuccess` callback called after the success toast threw. */
  function SettledToasts(total: real, outcome: InsertOutcome, onSuccessThrows: bool): (ts: seq<Toast>)
    ensures |ts| == if outcome == InsertOk && onSuccessThrows then 2 else 1
    ensures OrderPlaced(total) in ts <==> outcome == InsertOk
    ensures ts[|ts| - 1] == CheckoutFailed <==> (outcome == InsertFailed || onSuccessThrows)
    ensures outcome == InsertOk ==> ts[0] == OrderPlaced(total)
  {
    match outcome
    case InsertOk => [OrderPlaced(total)] + (if onSuccessThrows then [CheckoutFailed] else [])
    case InsertFailed => [CheckoutFailed]
  }

  class CartCheckout {
    const items: seq<CartLine>
    const total: real
    var isProcessing: bool
    /** The insert the handler is awaiting, if any. */
    var pending: Option<OrderInsert>
    /** Every insert sent to `orders`, in order. */
    var inserted: seq<OrderInsert>
    /** How many times `onSuccess` has run. */
    var successCalls: nat
    var toasts: seq<Toast>

    /** `isProcessing` is true exactly while an insert is in flight, and the
        one in flight is the last one sent. */
    ghost predicate Valid()
      reads this
    {
      && (isProcessing <==> pending.Some?)
      && (pending.Some? ==> |inserted| > 0 && inserted[|inserted| - 1] == pending.value)
    }

    /** The component mounted with its props; `useState(false)`. */
    constructor (items: seq<CartLine>, total: real)
      ensures Valid()
      ensures this.items == items && this.total == total
      ensures !isProcessing && inserted == [] && successCalls == 0 && toasts == []
    {
      this.items := items;
      this.total := total;
      isProcessing := false;
      pending := None;
      inserted := [];
      successCalls := 0;
      toasts := [];
    }

    /** The handler up to the awaited insert (CartCheckout.tsx:24-46). The
        button is disabled while `isProcessing` (line 77), so it is only
        started when no insert is in flight. */
    method HandleCheckout()
      requires Valid() && !isProcessing
      modifies this
      ensures Valid()
      ensures successCalls == old(successCalls)
      ensures |items| == 0 ==>
        !isProcessing && inserted == old(inserted) && toasts == old(toasts) + [CartIsEmpty]
      ensures |items| > 0 ==>
        && isProcessing
        && pending == Some(OrderInsert(total, OrderItems(items)))
        && inserted == old(inserted) + [OrderInsert(total, OrderItems(items))]
        && toasts == old(toasts)
    {
      if |items| == 0 {
        toasts := toasts + [CartIsEmpty];
        return;
      }
      isProcessing := true;
      var order := OrderInsert(total, OrderItems(items));
      inserted := inserted + [order];
      pending := Some(order);
    }

    /** The continuation once the insert settles (CartCheckout.tsx:48-65).
        On success the success toast is raised and `onSuccess` is called,
        both inside the `try`, so a callback that throws also reaches the
        `catch` and adds the failure toast after the success toast. On
        failure only the failure toast is raised. In every case `finally`
        clears `isProcessing`. */
    method InsertSettled(outcome: InsertOutcome, onSuccessThrows: bool)
      requires Valid() && isProcessing
      modifies this
      ensures Valid()
      ensures !isProcessing && inserted == old(inserted)
      ensures successCalls == old(successCalls) + (if outcome == InsertOk then 1 else 0)
      ensures toasts == old(toasts) + SettledToasts(total, outcome, onSuccessThrows)
    {
      if outcome == InsertOk {
        toasts := toasts + [OrderPlaced(total)];
        successCalls := successCalls + 1;
        if onSuccessThrows {
          toasts := toasts + [CheckoutFailed];
        }
      } else {
        toasts := toasts + [CheckoutFailed];
      }
      isProcessing := false;
      pending := None;
    }
  }

  /** One click on a freshly mounted checkout, followed to its end. An empty
      cart sends nothing and never succeeds; otherwise exactly one order is
      sent, carrying the given total and the projected lines, and
      `onSuccess` runs once if and only if the insert succeeded. Either way
      `isProcessing` ends false. `onSuccessThrows` says whether the
      callback, when called, throws. */
  method CheckoutOnce(items: seq<CartLine>, total: real, outcome: InsertOutcome, onSuccessThrows: bool)
    returns (orders: seq<OrderInsert>, successCalls: nat, processing: bool, toasts: seq<Toast>)
    ensures !processing
    ensures orders == if |items| == 0 then [] else [OrderInsert(total, OrderItems(items))]
    ensures successCalls == if |items| > 0 && outcome == InsertOk then 1 else 0
    ensures toasts ==
      if |items| == 0 then [CartIsEmpty]
      else if outcome == InsertFailed then [CheckoutFailed]
      else if onSuccessThrows then [OrderPlaced(total), CheckoutFailed]
      else [OrderPlaced(total)]
  {
    var c := new CartCheckout(items, total);
    c.HandleCheckout();
    if c.isProcessing {
      c.InsertSettled(outcome, onSuccessThrows);
    }
    orders, successCalls, processing, toasts := c.inserted, c.successCalls, c.isProcessing, c.toasts;
  }
}
