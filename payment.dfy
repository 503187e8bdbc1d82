/**
 * The checkout page (components/PaymentGateway.tsx): delivery cost and final
 * total, the business-day delivery estimate with its 4 PM cutoff, and the
 * card-number input formatter.
 *
 * Dates are integer day numbers counted so that `day % 7` is the JavaScript
 * `getDay()` value: 0 is Sunday and 6 is Saturday.
 */
module Payment {
  import opened Seqs
  import Basket

  datatype DeliveryMethod = Standard | Platinum

  /** Standard delivery is free only strictly above this subtotal (£100.00). */
  const FreeStandardAbove: int := 10000
  const StandardCharge: int := 499
  const PlatinumCharge: int := 899

  /** `standardCost`: free strictly above £100, otherwise £4.99. */
  function StandardCost(subtotal: int): (c: int)
    ensures c == 0 <==> subtotal > FreeStandardAbove
    ensures c != 0 ==> c == StandardCharge
  {
    if subtotal > FreeStandardAbove then 0 else StandardCharge
  }

  /** `currentDeliveryCost` for the selected method. */
  function DeliveryCost(m: DeliveryMethod, subtotal: int): (c: int)
    ensures 0 <= c <= PlatinumCharge
    ensures m == Platinum ==> c == PlatinumCharge
    ensures m == Standard ==> c == StandardCost(subtotal)
    ensures c == 0 <==> m == Standard && subtotal > FreeStandardAbove
  {
    match m
    case Standard => StandardCost(subtotal)
    case Platinum => PlatinumCharge
  }

  /** `finalTotal`, the total the page shows; `handleSubmit` captures it for `onSuccess`. */
  function FinalTotal(m: DeliveryMethod, subtotal: int): (t: int)
    ensures t >= subtotal
    ensures t - subtotal == DeliveryCost(m, subtotal)
    ensures m == Standard && subtotal > FreeStandardAbove ==> t == subtotal
  {
    subtotal + DeliveryCost(m, subtotal)
  }

  /** The basket page promises free delivery from £100.00 on, the checkout
      only above it: the two charges differ at exactly that subtotal. */
  lemma ThresholdsDisagreeAtHundredPounds(subtotal: int)
    ensures Basket.CartDelivery(subtotal) != StandardCost(subtotal) <==> subtotal == 10000
    ensures Basket.CartDelivery(10000) == 0 && StandardCost(10000) == 499
  {
  }

  // ---------------------------------------------------------------------
  // Delivery estimate

  predicate IsBusinessDay(day: int)
  {
    day % 7 != 0 && day % 7 != 6
  }

  /** The first business day strictly after `d`. */
  function NextBusinessDay(d: int): (n: int)
    ensures d < n <= d + 3
    ensures IsBusinessDay(n)
    ensures forall e :: d < e < n ==> !IsBusinessDay(e)
  {
    if IsBusinessDay(d + 1) then d + 1
    else if IsBusinessDay(d + 2) then d + 2
    else d + 3
  }

  /** The `n`-th business day strictly after `start`; `start` itself when `n <= 0`. */
  function NthBusinessDay(start: int, n: int): (r: int)
    ensures r >= start
    ensures n >= 1 ==> r > start && IsBusinessDay(r)
    decreases n
  {
    if n <= 0 then start else NextBusinessDay(NthBusinessDay(start, n - 1))
  }

  /** The number of business days in the interval (a, b]. */
  function CountBusinessDays(a: int, b: int): nat
    decreases b - a
  {
    if b <= a then 0
    else CountBusinessDays(a, b - 1) + (if IsBusinessDay(b) then 1 else 0)
  }

  lemma {:induction false} NthBusinessDayMonotone(start: int, i: int, j: int)
    requires 0 <= i <= j
    ensures NthBusinessDay(start, i) <= NthBusinessDay(start, j)
    decreases j - i
  {
    if i < j {
      NthBusinessDayMonotone(start, i, j - 1);
    }
  }

  lemma {:induction false} CountFlat(a: int, d: int, e: int)
    requires a <= d <= e
    requires forall x :: d < x <= e ==> !IsBusinessDay(x)
    ensures CountBusinessDays(a, e) == CountBusinessDays(a, d)
    decreases e - d
  {
    if e > d {
      CountFlat(a, d, e - 1);
    }
  }

  lemma {:induction false} CountMonotone(a: int, x: int, y: int)
    requires x <= y
    ensures CountBusinessDays(a, x) <= CountBusinessDays(a, y)
    decreases y - x
  {
    if x < y {
      CountMonotone(a, x, y - 1);
    }
  }

  /** Exactly `n` business days lie in (start, NthBusinessDay(start, n)], and
      no earlier day has `n` of them: it is the first such day. */
  lemma {:induction false} NthBusinessDayCount(start: int, n: int)
    requires n >= 0
    ensures CountBusinessDays(start, NthBusinessDay(start, n)) == n
    ensures forall x :: start <= x < NthBusinessDay(start, n) ==> CountBusinessDays(start, x) < n
    decreases n
  {
    if n > 0 {
      var d := NthBusinessDay(start, n - 1);
      var e := NextBusinessDay(d);
      NthBusinessDayCount(start, n - 1);
      CountFlat(start, d, e - 1);
      assert CountBusinessDays(start, e) == CountBusinessDays(start, e - 1) + 1;
      forall x | start <= x < e
        ensures CountBusinessDays(start, x) < n
      {
        CountMonotone(start, x, e - 1);
      }
    }
  }

  /** `addBusinessDays`: step one day at a time, counting Monday to Friday only. */
  method AddBusinessDays(start: int, days: int) returns (result: int)
    ensures result == NthBusinessDay(start, days)
    ensures days >= 1 ==> result > start && IsBusinessDay(result)
    ensures days >= 0 ==> CountBusinessDays(start, result) == days
  {
    result := start;
    var added := 0;
    while added < days
      invariant 0 <= added
      invariant days >= 0 ==> added <= days
      invariant NthBusinessDay(start, added) <= result < NthBusinessDay(start, added + 1)
      invariant added >= days ==> result == NthBusinessDay(start, days)
      decreases NthBusinessDay(start, days) - result
    {
      NthBusinessDayMonotone(start, added + 1, days);
      var reached := NthBusinessDay(start, added);
      assert NthBusinessDay(start, added + 1) == NextBusinessDay(reached);
      result := result + 1;
      if IsBusinessDay(result) {
        assert result == NextBusinessDay(reached);
        added := added + 1;
      }
    }
    if days >= 0 {
      NthBusinessDayCount(start, days);
    }
  }

  /** Orders placed at or after this hour miss the Platinum next-day slot. */
  const CutoffHour: int := 16

  /** Business days until Platinum arrival for an order placed at `hour`. */
  function PlatinumBusinessDays(hour: int): (n: int)
    ensures n == 1 || n == 2
    ensures n == 2 <==> hour >= CutoffHour
  {
    if hour >= CutoffHour then 2 else 1
  }

  datatype DeliveryEstimate = DeliveryEstimate(
    standardStart: int, standardEnd: int, platinum: int, isAfterCutoff: bool)

  /** `deliveryDates` for an order placed on day `today` at hour `hour`. */
  method EstimateDelivery(today: int, hour: int) returns (e: DeliveryEstimate)
    ensures today < e.standardStart < e.standardEnd
    ensures IsBusinessDay(e.standardStart) && IsBusinessDay(e.standardEnd) && IsBusinessDay(e.platinum)
    ensures e.standardEnd == NextBusinessDay(e.standardStart)
    ensures e.standardStart == NthBusinessDay(today, 1) && e.standardEnd == NthBusinessDay(today, 2)
    ensures e.isAfterCutoff <==> hour >= CutoffHour
    ensures e.platinum == if e.isAfterCutoff then e.standardEnd else e.standardStart
  {
    var stdStart := AddBusinessDays(today, 1);
    var stdEnd := AddBusinessDays(today, 2);
    var isAfterCutoff := hour >= CutoffHour;
    var platArrival := AddBusinessDays(today, PlatinumBusinessDays(hour));
    e := DeliveryEstimate(stdStart, stdEnd, platArrival, isAfterCutoff);
  }

  /** The standard window opens strictly before it closes, and both ends fall
      within four calendar days of the order. */
  lemma {:induction false} StandardWindow(today: int)
    ensures today < NthBusinessDay(today, 1) < NthBusinessDay(today, 2) <= today + 4
  {
    var d1 := NextBusinessDay(today);
    assert NthBusinessDay(today, 1) == d1;
    assert NthBusinessDay(today, 2) == NextBusinessDay(d1);
    if today % 7 == 5 {
      assert d1 == today + 3;
    } else if today % 7 == 6 {
      assert d1 == today + 2;
    }
  }

  // ---------------------------------------------------------------------
  // Card-number formatter

  predicate IsDigit(c: char) { '0' <= c <= '9' }

  predicate AllDigits(s: string) { forall i :: 0 <= i < |s| ==> IsDigit(s[i]) }

  /** `value.replace(/\D/g, '')`. */
  function Digits(s: string): (d: string)
    ensures AllDigits(d)
    ensures |d| <= |s|
  {
    Filter(s, IsDigit)
  }

  /** `value.match(/.{1,4}/g)?.join(' ') || value`: groups of at most four
      characters joined by single spaces (the empty string stays empty). */
  function Grouped(d: string): string
    decreases |d|
  {
    if |d| <= 4 then d else d[..4] + " " + Grouped(d[4..])
  }

  /** `handleCardNumberChange`: keep the digits, group them, cut at 19 characters. */
  function FormatCardNumber(input: string): (r: string)
    ensures |r| <= 19
  {
    Take(Grouped(Digits(input)), 19)
  }

  lemma {:induction false} GroupedLength(d: string)
    ensures |Grouped(d)| == if d == [] then 0 else |d| + (|d| - 1) / 4
    decreases |d|
  {
    if |d| > 4 {
      GroupedLength(d[4..]);
    }
  }

  /** Position `i` of a grouped string holds a space exactly when `i % 5 == 4`,
      and otherwise the digit `d[i - i / 5]`. */
  lemma {:induction false} GroupedAt(d: string, i: int)
    requires 0 <= i < |Grouped(d)|
    ensures i % 5 == 4 ==> Grouped(d)[i] == ' '
    ensures i % 5 != 4 ==> i - i / 5 < |d| && Grouped(d)[i] == d[i - i / 5]
    decreases |d|
  {
    if |d| > 4 {
      if i >= 5 {
        GroupedAt(d[4..], i - 5);
        assert Grouped(d)[i] == Grouped(d[4..])[i - 5];
      } else {
        assert Grouped(d)[i] == (d[..4] + " ")[i];
      }
    } else {
      GroupedLength(d);
      assert i < 4;
    }
  }

  lemma {:induction false} DigitsOfGrouped(d: string)
    requires AllDigits(d)
    ensures Digits(Grouped(d)) == d
    decreases |d|
  {
    if |d| <= 4 {
      FilterAll(d, IsDigit);
    } else {
      var head, tail := d[..4], d[4..];
      assert AllDigits(tail) by {
        assert forall i :: 0 <= i < |tail| ==> tail[i] == d[i + 4];
      }
      assert AllDigits(head) by {
        assert forall i :: 0 <= i < |head| ==> head[i] == d[i];
      }
      DigitsOfGrouped(tail);
      DigitsSkipSpace(head, Grouped(tail));
      assert head + tail == d;
    }
  }

  /** The separating space contributes no digit. */
  lemma DigitsSkipSpace(head: string, rest: string)
    requires AllDigits(head)
    ensures Digits(head + " " + rest) == head + Digits(rest)
  {
    var space := [' '];
    var spaced := head + space;
    assert Filter(space, IsDigit) == [] by {
      assert space[1..] == [];
    }
    FilterAppend(head, space, IsDigit);
    FilterAll(head, IsDigit);
    assert Filter(spaced, IsDigit) == head;
    FilterAppend(spaced, rest, IsDigit);
  }

  /** Cutting the grouped form after `k` whole groups groups the first `4k` digits. */
  lemma {:induction false} GroupedPrefix(d: string, k: int)
    requires 1 <= k && 4 * k <= |d|
    ensures |Grouped(d)| >= 5 * k - 1
    ensures Grouped(d[..4 * k]) == Grouped(d)[..5 * k - 1]
    decreases k
  {
    GroupedLength(d);
    if k == 1 {
      assert Grouped(d[..4]) == d[..4];
    } else {
      GroupedPrefix(d[4..], k - 1);
      assert d[..4 * k][..4] == d[..4];
      assert d[..4 * k][4..] == d[4..][..4 * (k - 1)];
      assert Grouped(d)[..5 * k - 1] == d[..4] + " " + Grouped(d[4..])[..5 * (k - 1) - 1];
    }
  }

  /** The formatted number is the grouped form of the first (at most 16) digits. */
  lemma {:induction false} FormatIsGroupedPrefix(input: string)
    ensures FormatCardNumber(input) == Grouped(Digits(input)[..Min(16, |Digits(input)|)])
  {
    var d := Digits(input);
    GroupedLength(d);
    if |d| <= 16 {
      assert d[..|d|] == d;
    } else {
      GroupedPrefix(d, 4);
    }
  }

  /** The formatter's output holds only digits and spaces, with a space exactly
      after each complete group of four digits and never at the end. */
  lemma {:induction false} CardNumberShape(input: string)
    ensures forall i :: 0 <= i < |FormatCardNumber(input)| ==>
      (FormatCardNumber(input)[i] == ' ' <==> i % 5 == 4)
    ensures forall i :: 0 <= i < |FormatCardNumber(input)| ==>
      FormatCardNumber(input)[i] == ' ' || IsDigit(FormatCardNumber(input)[i])
    ensures FormatCardNumber(input) != [] ==> FormatCardNumber(input)[|FormatCardNumber(input)| - 1] != ' '
  {
    var d := Digits(input)[..Min(16, |Digits(input)|)];
    var r := FormatCardNumber(input);
    FormatIsGroupedPrefix(input);
    forall i | 0 <= i < |r|
      ensures (r[i] == ' ' <==> i % 5 == 4) && (r[i] == ' ' || IsDigit(r[i]))
    {
      GroupedAt(d, i);
    }
    if r != [] {
      GroupedLength(d);
      var m := |d|;
      assert |r| == m + (m - 1) / 4;
      assert (|r| - 1) % 5 != 4;
    }
  }

  /** Removing the spaces gives back the first (at most 16) digits of the input. */
  lemma {:induction false} CardNumberDigits(input: string)
    ensures Digits(FormatCardNumber(input)) == Digits(input)[..Min(16, |Digits(input)|)]
  {
    FormatIsGroupedPrefix(input);
    DigitsOfGrouped(Digits(input)[..Min(16, |Digits(input)|)]);
  }

  /** Re-formatting a formatted number changes nothing. */
  /** Typing a digit first always leaves something in the card-number field. */
  lemma CardNumberNonEmpty(input: string)
    requires input != [] && IsDigit(input[0])
    ensures FormatCardNumber(input) != []
  {
    assert Digits(input) == [input[0]] + Digits(input[1..]);
    CardNumberDigits(input);
  }

  lemma {:induction false} CardNumberIdempotent(input: string)
    ensures FormatCardNumber(FormatCardNumber(input)) == FormatCardNumber(input)
  {
    var r := FormatCardNumber(input);
    var d := Digits(input)[..Min(16, |Digits(input)|)];
    CardNumberDigits(input);
    FormatIsGroupedPrefix(r);
    assert Digits(r) == d;
    assert d[..Min(16, |d|)] == d;
    FormatIsGroupedPrefix(input);
  }

  // ---------------------------------------------------------------------
  /** Any seven consecutive days hold exactly five business days. */
  lemma BusinessDaysPerWeek(a: int)
    ensures CountBusinessDays(a, a + 7) == 5
  {
    assert CountBusinessDays(a, a + 7) ==
      CountBusinessDays(a, a + 6) + (if IsBusinessDay(a + 7) then 1 else 0);
    assert CountBusinessDays(a, a + 6) ==
      CountBusinessDays(a, a + 5) + (if IsBusinessDay(a + 6) then 1 else 0);
    assert CountBusinessDays(a, a + 5) ==
      CountBusinessDays(a, a + 4) + (if IsBusinessDay(a + 5) then 1 else 0);
    assert CountBusinessDays(a, a + 4) ==
      CountBusinessDays(a, a + 3) + (if IsBusinessDay(a + 4) then 1 else 0);
    assert CountBusinessDays(a, a + 3) ==
      CountBusinessDays(a, a + 2) + (if IsBusinessDay(a + 3) then 1 else 0);
    assert CountBusinessDays(a, a + 2) ==
      CountBusinessDays(a, a + 1) + (if IsBusinessDay(a + 2) then 1 else 0);
    assert CountBusinessDays(a, a + 1) == (if IsBusinessDay(a + 1) then 1 else 0);
  }

  // The payment form

  /** The checkout component's state for one basket or direct-buy subtotal.
      `pendingTotal` is the `finalTotal` captured by the callback `handleSubmit`
      schedules: the amount that will be handed on, whatever the page shows by
      the time the callback runs. */
  class PaymentForm {
    const subtotal: int
    var deliveryMethod: DeliveryMethod
    var name: string
    var cardNumber: string
    var expiry: string
    var cvv: string
    var isProcessing: bool
    var pendingTotal: int

    constructor (subtotal: int)
      ensures this.subtotal == subtotal
      ensures deliveryMethod == Standard && !isProcessing
      ensures name == [] && cardNumber == [] && expiry == [] && cvv == []
    {
      this.subtotal := subtotal;
      deliveryMethod := Standard;
      name, cardNumber, expiry, cvv := [], [], [], [];
      isProcessing := false;
      pendingTotal := subtotal;
    }

    /** The total the page shows for the selected method. */
    function Total(): (t: int)
      reads this
      ensures t >= subtotal
      ensures t == subtotal + DeliveryCost(deliveryMethod, subtotal)
    {
      FinalTotal(deliveryMethod, subtotal)
    }

    /** The four inputs are `required`: the browser submits the form only
        when none of them is empty. */
    predicate Filled()
      reads this
    {
      name != [] && cardNumber != [] && expiry != [] && cvv != []
    }

    /** The delivery buttons; they stay enabled while a payment is processing. */
    method SelectDelivery(m: DeliveryMethod)
      modifies this
      ensures deliveryMethod == m
      ensures name == old(name) && cardNumber == old(cardNumber) && expiry == old(expiry) && cvv == old(cvv)
      ensures isProcessing == old(isProcessing) && pendingTotal == old(pendingTotal)
    {
      deliveryMethod := m;
    }

    /** The name input, stored as typed. */
    method ChangeName(raw: string)
      modifies this
      ensures name == raw
      ensures deliveryMethod == old(deliveryMethod) && cardNumber == old(cardNumber) && expiry == old(expiry) && cvv == old(cvv)
      ensures isProcessing == old(isProcessing) && pendingTotal == old(pendingTotal)
    {
      name := raw;
    }

    /** `handleCardNumberChange` with the raw text of the input field. */
    method ChangeCardNumber(raw: string)
      modifies this
      ensures cardNumber == FormatCardNumber(raw)
      ensures deliveryMethod == old(deliveryMethod) && name == old(name) && expiry == old(expiry) && cvv == old(cvv)
      ensures isProcessing == old(isProcessing) && pendingTotal == old(pendingTotal)
    {
      cardNumber := FormatCardNumber(raw);
    }

    /** The expiry input, stored as typed; its `maxLength` keeps at most five characters. */
    method ChangeExpiry(raw: string)
      modifies this
      ensures |expiry| == Min(5, |raw|) && expiry <= raw
      ensures deliveryMethod == old(deliveryMethod) && name == old(name) && cardNumber == old(cardNumber) && cvv == old(cvv)
      ensures isProcessing == old(isProcessing) && pendingTotal == old(pendingTotal)
    {
      expiry := Take(raw, 5);
    }

    /** The CVV input, stored as typed; its `maxLength` keeps at most three characters. */
    method ChangeCvv(raw: string)
      modifies this
      ensures |cvv| == Min(3, |raw|) && cvv <= raw
      ensures deliveryMethod == old(deliveryMethod) && name == old(name) && cardNumber == old(cardNumber) && expiry == old(expiry)
      ensures isProcessing == old(isProcessing) && pendingTotal == old(pendingTotal)
    {
      cvv := Take(raw, 3);
    }

    /** `handleSubmit`: processing starts and the total shown now is captured.
        Nothing happens while a required input is empty, nor while processing,
        as the submit button is then disabled; `started` says which case holds. */
    method Submit() returns (started: bool)
      modifies this
      ensures started <==> !old(isProcessing) && old(Filled())
      ensures isProcessing == (old(isProcessing) || started)
      ensures started ==> pendingTotal == old(Total())
      ensures !started ==> pendingTotal == old(pendingTotal)
      ensures deliveryMethod == old(deliveryMethod)
      ensures name == old(name) && cardNumber == old(cardNumber) && expiry == old(expiry) && cvv == old(cvv)
    {
      started := !isProcessing && Filled();
      if started {
        isProcessing := true;
        pendingTotal := FinalTotal(deliveryMethod, subtotal);
      }
    }

    /** The end of the simulated payment: processing stops and the captured
        total is passed to `onSuccess`. */
    method Complete() returns (finalTotal: int)
      requires isProcessing
      modifies this
      ensures !isProcessing
      ensures finalTotal == old(pendingTotal) && pendingTotal == old(pendingTotal)
      ensures deliveryMethod == old(deliveryMethod)
      ensures name == old(name) && cardNumber == old(cardNumber) && expiry == old(expiry) && cvv == old(cvv)
    {
      isProcessing := false;
      finalTotal := pendingTotal;
    }
  }

  /** The amount handed on need not be the total shown when the payment
      completes: the delivery method can change while the payment is processing. */
  method ChargedTotalCanDifferFromShown() returns (charged: int, shown: int)
    ensures charged == 5499 && shown == 5899
  {
    var form := new PaymentForm(5000);
    form.ChangeName("A Smith");
    form.ChangeCardNumber("4242");
    form.ChangeExpiry("12/30");
    form.ChangeCvv("123");
    CardNumberNonEmpty("4242");
    var started := form.Submit();
    form.SelectDelivery(Platinum);
    charged := form.Complete();
    shown := form.Total();
  }
}
