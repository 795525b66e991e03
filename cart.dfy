/**
 * The cart page's order summary and controls. The cart store itself is not
 * part of this model: the page reads its `items` and issues calls to it, so
 * `items` is an input sequence and the calls are values. Only `clearCart`'s
 * effect, an empty list, is used.
 */
module Cart {
  import opened Wrappers

  datatype LineItem = LineItem(
    id: string,
    name: string,
    price: real,
    image: string,
    category: string,
    color: string,
    quantity: int)

  /** What one line contributes: `item.price * item.quantity`. */
  function LineTotal(item: LineItem): real
  {
    item.price * item.quantity as real
  }

  /** Reference definition of the subtotal: Σ price × quantity over the items. */
  function Sum(items: seq<LineItem>): real
  {
    if items == [] then 0.0 else LineTotal(items[0]) + Sum(items[1..])
  }

  /** `items.reduce((total, item) => total + item.price * item.quantity, acc)`, left to right. */
  function Reduce(acc: real, items: seq<LineItem>): real
    decreases |items|
  {
    if items == [] then acc else Reduce(acc + LineTotal(items[0]), items[1..])
  }

  lemma {:induction false} ReduceIsShiftedSum(acc: real, items: seq<LineItem>)
    ensures Reduce(acc, items) == acc + Sum(items)
    decreases |items|
  {
    if items != [] {
      ReduceIsShiftedSum(acc + LineTotal(items[0]), items[1..]);
    }
  }

  /** `subtotal`: the fold starting from 0 is the sum of the line totals; an empty cart gives 0. */
  function Subtotal(items: seq<LineItem>): (r: real)
    ensures r == Sum(items)
    ensures items == [] ==> r == 0.0
  {
    ReduceIsShiftedSum(0.0, items);
    Reduce(0.0, items)
  }

  lemma {:induction false} SumAppend(items: seq<LineItem>, x: LineItem)
    ensures Sum(items + [x]) == Sum(items) + LineTotal(x)
  {
    if items == [] {
      assert [] + [x] == [x];
    } else {
      assert (items + [x])[1..] == items[1..] + [x];
      SumAppend(items[1..], x);
    }
  }

  /** Adding a line to the end of the cart adds exactly its line total to the subtotal. */
  lemma SubtotalAppend(items: seq<LineItem>, x: LineItem)
    ensures Subtotal(items + [x]) == Subtotal(items) + LineTotal(x)
  {
    SumAppend(items, x);
  }

  const FlatShipping: real := 10.0

  /** `shipping`: the flat fee when the subtotal is positive, nothing otherwise. */
  function Shipping(subtotal: real): (r: real)
    ensures r == FlatShipping <==> subtotal > 0.0
    ensures r == 0.0 <==> subtotal <= 0.0
  {
    if subtotal > 0.0 then FlatShipping else 0.0
  }

  /** `total`. */
  function Total(subtotal: real): (r: real)
    ensures subtotal > 0.0 ==> r == subtotal + FlatShipping
    ensures subtotal <= 0.0 ==> r == subtotal
  {
    subtotal + Shipping(subtotal)
  }

  /** Prices and quantities as the catalog and the quantity controls produce them. */
  predicate NonNegative(items: seq<LineItem>)
  {
    forall i :: 0 <= i < |items| ==> items[i].price >= 0.0 && items[i].quantity >= 0
  }

  lemma {:induction false} SumNonNegative(items: seq<LineItem>)
    requires NonNegative(items)
    ensures Sum(items) >= 0.0
  {
    if items != [] {
      assert NonNegative(items[1..]) by {
        forall i | 0 <= i < |items[1..]| ensures items[1..][i].price >= 0.0 && items[1..][i].quantity >= 0 {
          assert items[1..][i] == items[i + 1];
        }
      }
      SumNonNegative(items[1..]);
    }
  }

  /** With non-negative prices and quantities the total never falls below the subtotal, and is 0 only for a 0 subtotal. */
  lemma TotalBounds(items: seq<LineItem>)
    requires NonNegative(items)
    ensures Subtotal(items) >= 0.0
    ensures Total(Subtotal(items)) >= Subtotal(items)
    ensures Total(Subtotal(items)) == 0.0 <==> Subtotal(items) == 0.0
  {
    SumNonNegative(items);
  }

  /** A line item as the store keeps it: a positive price and a quantity of at least 1. */
  predicate WellFormed(items: seq<LineItem>)
  {
    forall i :: 0 <= i < |items| ==> items[i].price > 0.0 && items[i].quantity >= 1
  }

  /** For well-formed items, shipping is charged exactly when the cart is not empty. */
  lemma {:induction false} ShippingIffNonEmpty(items: seq<LineItem>)
    requires WellFormed(items)
    ensures Subtotal(items) > 0.0 <==> items != []
    ensures Shipping(Subtotal(items)) == (if items == [] then 0.0 else FlatShipping)
  {
    if items != [] {
      assert NonNegative(items[1..]) by {
        forall i | 0 <= i < |items[1..]| ensures items[1..][i].price >= 0.0 && items[1..][i].quantity >= 0 {
          assert items[1..][i] == items[i + 1];
        }
      }
      SumNonNegative(items[1..]);
      assert LineTotal(items[0]) > 0.0 by {
        assert items[0].price > 0.0 && items[0].quantity as real >= 1.0;
      }
    }
  }

  datatype Summary = Summary(subtotal: real, shipping: real, total: real)

  /** The page: an empty-cart notice, or the line items with the order summary. */
  datatype CartView = EmptyCart | Filled(items: seq<LineItem>, summary: Summary)

  /** The order summary block: subtotal, shipping and total, the last being the sum of the first two. */
  function OrderSummary(items: seq<LineItem>): (s: Summary)
    ensures s.subtotal == Sum(items)
    ensures s.total == s.subtotal + s.shipping
    ensures s.shipping == (if s.subtotal > 0.0 then FlatShipping else 0.0)
  {
    var subtotal := Subtotal(items);
    Summary(subtotal, Shipping(subtotal), Total(subtotal))
  }

  /** What the page renders: the empty-cart view exactly when there are no items. */
  function Render(items: seq<LineItem>): (v: CartView)
    ensures v.EmptyCart? <==> |items| == 0
    ensures v.Filled? ==> v.items == items && v.summary.subtotal == Sum(items)
    ensures v.Filled? ==> v.summary == OrderSummary(items)
  {
    if |items| > 0 then Filled(items, OrderSummary(items)) else EmptyCart
  }

  /** A call the page makes on the cart store. */
  datatype StoreCall = UpdateQuantity(id: string, quantity: int) | RemoveFromCart(id: string) | ClearCart

  /** A step of a handler: a store call or a navigation. */
  datatype Step = Call(call: StoreCall) | Navigate(path: string)

  /**
   * The minus button: disabled (no call) when the quantity is at most 1;
   * otherwise it asks for one less of the same item, which is still at least 1.
   */
  function DecrementClick(item: LineItem): (r: Option<StoreCall>)
    ensures r.Some? <==> item.quantity > 1
    ensures r.Some? ==> r.value.UpdateQuantity? && r.value.id == item.id
                        && r.value.quantity >= 1 && r.value.quantity + 1 == item.quantity
  {
    if item.quantity <= 1 then None else Some(UpdateQuantity(item.id, item.quantity - 1))
  }

  /** The plus button: one more of the same item, and only that item. */
  function IncrementClick(item: LineItem): (r: StoreCall)
    ensures r.UpdateQuantity? && r.id == item.id && r.quantity == item.quantity + 1
  {
    UpdateQuantity(item.id, item.quantity + 1)
  }

  /** The remove button. */
  function RemoveClick(item: LineItem): (r: StoreCall)
    ensures r.RemoveFromCart? && r.id == item.id
  {
    RemoveFromCart(item.id)
  }

  const SuccessPath := "/checkout/success"

  /** `handleCheckout`: the cart is cleared before the browser moves to the success page. */
  function HandleCheckout(): (steps: seq<Step>)
    ensures |steps| == 2 && steps[0] == Call(ClearCart) && steps[1] == Navigate(SuccessPath)
  {
    [Call(ClearCart), Navigate(SuccessPath)]
  }

  /** The items the page sees after the store has run a call, when this model knows its effect. */
  function AfterCall(call: StoreCall): (r: Option<seq<LineItem>>)
    ensures call.ClearCart? ==> r == Some([])
  {
    if call.ClearCart? then Some([]) else None
  }

  /** After checkout, the cart page would show the empty-cart view and an all-zero summary. */
  lemma CheckoutZeroesSummary()
    ensures AfterCall(HandleCheckout()[0].call) == Some([])
    ensures OrderSummary([]) == Summary(0.0, 0.0, 0.0)
    ensures Render([]) == EmptyCart
  {
  }
}
