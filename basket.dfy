/**
 * The basket page (components/Cart.tsx): subtotal, delivery charge, total,
 * the free-delivery progress bar and the "add more" message.
 */
module Basket {
  import opened Catalog

  /** Free delivery from this subtotal on (£100.00). */
  const FreeDeliveryThreshold: int := 10000

  /** Standard delivery charge below the threshold (£4.99). */
  const DeliveryCharge: int := 499

  /** The amount shown on a basket line. */
  function LineTotal(item: CartItem): int
  {
    item.product.price * item.quantity
  }

  /** `items.reduce((sum, item) => sum + item.price * item.quantity, 0)`. */
  function Subtotal(items: seq<CartItem>): int
  {
    if items == [] then 0 else LineTotal(items[0]) + Subtotal(items[1..])
  }

  lemma {:induction false} SubtotalAppend(a: seq<CartItem>, b: seq<CartItem>)
    ensures Subtotal(a + b) == Subtotal(a) + Subtotal(b)
  {
    if a == [] {
      assert a + b == b;
    } else {
      assert (a + b)[1..] == a[1..] + b;
      SubtotalAppend(a[1..], b);
    }
  }

  /** The subtotal is the sum of the displayed line totals, and is never negative
      when no price or quantity is. */
  lemma {:induction false} SubtotalIsSumOfLines(items: seq<CartItem>)
    ensures items == [] ==> Subtotal(items) == 0
    ensures items != [] ==> Subtotal(items) == Subtotal(items[..|items| - 1]) + LineTotal(items[|items| - 1])
    ensures (forall i :: 0 <= i < |items| ==> items[i].product.price >= 0 && items[i].quantity >= 0) ==> Subtotal(items) >= 0
  {
    if items != [] {
      var n := |items|;
      assert items == items[..n - 1] + [items[n - 1]];
      SubtotalAppend(items[..n - 1], [items[n - 1]]);
      assert Subtotal([items[n - 1]]) == LineTotal(items[n - 1]);
      SubtotalIsSumOfLines(items[1..]);
      assert forall i :: 0 <= i < |items| ==> items[i].product.price >= 0 && items[i].quantity >= 0 ==> LineTotal(items[i]) >= 0;
    }
  }

  /** The basket's delivery charge: free once the subtotal reaches the threshold. */
  function CartDelivery(subtotal: int): (d: int)
    ensures d == 0 <==> subtotal >= FreeDeliveryThreshold
    ensures d != 0 ==> d == DeliveryCharge
  {
    if subtotal >= FreeDeliveryThreshold then 0 else DeliveryCharge
  }

  function CartTotal(subtotal: int): (t: int)
    ensures t == subtotal + CartDelivery(subtotal)
    ensures subtotal <= t <= subtotal + DeliveryCharge
  {
    subtotal + CartDelivery(subtotal)
  }

  /** Width of the progress bar in percent: `min(subtotal / 100 * 100, 100)`. */
  function Progress(subtotal: int): (p: real)
    ensures p <= 100.0
    ensures p == 100.0 <==> subtotal >= FreeDeliveryThreshold
    ensures subtotal >= 0 ==> p >= 0.0
    ensures subtotal < FreeDeliveryThreshold ==> p * (FreeDeliveryThreshold as real) == (subtotal as real) * 100.0
  {
    var ratio := (subtotal as real) / (FreeDeliveryThreshold as real) * 100.0;
    if ratio <= 100.0 then ratio else 100.0
  }

  /** The free-delivery banner. */
  datatype DeliveryMessage = FreeDeliveryEarned | AddMore(amount: int)

  function Message(subtotal: int): (m: DeliveryMessage)
    ensures m.FreeDeliveryEarned? <==> subtotal >= FreeDeliveryThreshold
    ensures m.AddMore? ==> m.amount > 0 && subtotal + m.amount == FreeDeliveryThreshold
  {
    if subtotal >= FreeDeliveryThreshold then FreeDeliveryEarned
    else AddMore(FreeDeliveryThreshold - subtotal)
  }

  /** What the basket page renders: the empty-basket branch, or the summary. */
  datatype BasketView =
    | EmptyBasket
    | Summary(lines: seq<int>, subtotal: int, delivery: int, total: int, progress: real, message: DeliveryMessage)

  function View(items: seq<CartItem>): (v: BasketView)
    ensures v.EmptyBasket? <==> items == []
    ensures v.Summary? ==>
      && |v.lines| == |items|
      && (forall i :: 0 <= i < |items| ==> v.lines[i] == items[i].product.price * items[i].quantity)
      && v.subtotal == Subtotal(items)
      && v.delivery == CartDelivery(v.subtotal)
      && v.total == CartTotal(v.subtotal) && v.total == v.subtotal + v.delivery
      && v.progress == Progress(v.subtotal)
      && v.message == Message(v.subtotal)
      && (v.progress == 100.0 <==> v.message.FreeDeliveryEarned?)
  {
    if items == [] then EmptyBasket
    else
      var s := Subtotal(items);
      Summary(seq(|items|, i requires 0 <= i < |items| => LineTotal(items[i])),
              s, CartDelivery(s), CartTotal(s), Progress(s), Message(s))
  }
}
