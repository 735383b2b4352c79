/** The deterministic part of the demo-data generator
    (src/lib/stores/transactions.ts, lines 345-442): the weighted hour sampler
    and the arithmetic of one demo sale. The random draws are inputs. */
module Demo {
  import opened Wrappers
  import opened Types
  import CartLedger

  /** A sampler entry: an hour of the day and its relative weight. */
  datatype HourWeight = HourWeight(hour: int, weight: nat)

  /** More sales at lunch and in the evening. */
  const Weights: seq<HourWeight> := [
    HourWeight(7, 5), HourWeight(8, 10), HourWeight(9, 15), HourWeight(10, 20),
    HourWeight(11, 40), HourWeight(12, 80), HourWeight(13, 70), HourWeight(14, 30),
    HourWeight(15, 15), HourWeight(16, 20), HourWeight(17, 25), HourWeight(18, 50),
    HourWeight(19, 60), HourWeight(20, 40), HourWeight(21, 20)]

  /** The hour returned when the walk runs past the last entry. */
  const FallbackHour := 12

  /** The total weight of the first `n` entries. */
  function Cumulative(n: nat): nat
    requires n <= |Weights|
  {
    if n == 0 then 0 else Cumulative(n - 1) + Weights[n - 1].weight
  }

  /** The entries cover the hours 7 to 21 in order, every weight is positive,
      and the weights add up to 500. */
  lemma WeightsShape()
    ensures |Weights| == 15
    ensures forall i :: 0 <= i < |Weights| ==> Weights[i].hour == 7 + i && Weights[i].weight > 0
    ensures Cumulative(|Weights|) == 500
  {
    assert Cumulative(1) == 5 && Cumulative(2) == 15 && Cumulative(3) == 30 && Cumulative(4) == 50 && Cumulative(5) == 90;
    assert Cumulative(6) == 170 && Cumulative(7) == 240 && Cumulative(8) == 270 && Cumulative(9) == 285 && Cumulative(10) == 305;
    assert Cumulative(11) == 330 && Cumulative(12) == 380 && Cumulative(13) == 440 && Cumulative(14) == 480 && Cumulative(15) == 500;
  }

  /** Cumulative weight strictly grows with the number of entries. */
  lemma {:induction false} CumulativeIncreasing(m: nat, n: nat)
    requires m < n <= |Weights|
    ensures Cumulative(m) < Cumulative(n)
  {
    WeightsShape();
    if m < n - 1 {
      CumulativeIncreasing(m, n - 1);
    }
  }

  /** `getWeightedHour` for the draw `r`, which the source takes uniformly in
      [0, 500): the hour whose band of cumulative weight holds `r`, that is,
      the first hour whose cumulative weight reaches `r`. */
  method GetWeightedHour(r: real) returns (hour: int)
    requires 0.0 <= r < 500.0
    ensures 7 <= hour <= 21
    ensures r <= Cumulative(hour - 6) as real
    ensures hour > 7 ==> Cumulative(hour - 7) as real < r
  {
    WeightsShape();
    var remaining := r;
    var n := 0;
    while n < |Weights|
      invariant 0 <= n <= |Weights|
      invariant remaining == r - Cumulative(n) as real
      invariant n > 0 ==> Cumulative(n) as real < r
    {
      remaining := remaining - Weights[n].weight as real;
      if remaining <= 0.0 {
        return Weights[n].hour;
      }
      n := n + 1;
    }
    assert false;
    return FallbackHour;
  }

  /** The draws that give hour `7 + i` form the band between the weight of
      the hours before it and that weight plus its own: bands of different
      hours do not overlap, and hour `7 + i` is drawn with probability
      `Weights[i].weight / 500`. */
  lemma WeightedBandsDisjoint(r: real, i: nat, j: nat)
    requires i < |Weights| && j < |Weights|
    requires r <= Cumulative(i + 1) as real && (i > 0 ==> Cumulative(i) as real < r)
    requires r <= Cumulative(j + 1) as real && (j > 0 ==> Cumulative(j) as real < r)
    ensures i == j
  {
    if i < j {
      CumulativeIncreasing(i + 1, j + 1);
      if i + 1 < j {
        CumulativeIncreasing(i + 1, j);
      }
    } else if j < i {
      if j + 1 < i {
        CumulativeIncreasing(j + 1, i);
      }
    }
  }

  // ---------------------------------------------------------------------------
  // One demo sale

  /** The smallest integer not below `x`, as `Math.ceil`. */
  function Ceil(x: real): (c: int)
    ensures x <= c as real < x + 1.0
  {
    -((-x).Floor)
  }

  /** The cash a demo customer hands over: the total rounded up to a multiple of 5. */
  function CashRounded(total: real): real {
    (Ceil(total / 5.0) * 5) as real
  }

  /** The cash covers the total, the change is under 5, and the cash is a
      multiple of 5. */
  lemma CashRoundedBounds(total: real)
    ensures total <= CashRounded(total) < total + 5.0
    ensures 0.0 <= CashRounded(total) - total < 5.0
    ensures exists k: int :: CashRounded(total) == (5 * k) as real
  {
    var k := Ceil(total / 5.0);
    assert CashRounded(total) == (5 * k) as real;
  }

  /** A demo line computes quantity, subtotal and VAT as a cart line does. */
  function DemoLine(product: Product, quantity: int): (line: CartItem)
    ensures line == CartLedger.Line(product, quantity)
  {
    var subtotal := product.price * quantity as real;
    CartItem(product, quantity, subtotal, subtotal * product.vatRate.Percent() / (100.0 + product.vatRate.Percent()))
  }

  /** The transaction recorded for the lines `items`: totals from the lines,
      cash rounded up to a multiple of 5 and its change when paid in cash,
      neither for a card. */
  function DemoRecord(items: seq<CartItem>, byCard: bool, id: string, timestamp: Stamp, receiptNumber: string): Transaction {
    var total := CartLedger.SubtotalSum(items);
    var totalVat := CartLedger.VatSum(items);
    Transaction(
      id, items, total - totalVat, totalVat, total,
      if byCard then Card else Cash,
      if byCard then None else Some(CashRounded(total)),
      if byCard then None else Some(CashRounded(total) - total),
      timestamp, receiptNumber)
  }

  /** A demo sale is what `processPayment` records for the same lines paid by
      card, or in cash with the rounded-up amount, whenever that amount is
      not zero. */
  lemma DemoRecordIsCheckout(items: seq<CartItem>, byCard: bool, id: string, timestamp: Stamp, receiptNumber: string)
    requires items != []
    requires !byCard ==> CashRounded(CartLedger.SubtotalSum(items)) != 0.0
    ensures var cash := if byCard then None else Some(CashRounded(CartLedger.SubtotalSum(items)));
      CartLedger.Checkout(items, if byCard then Card else Cash, cash, id, timestamp, receiptNumber)
        == Success(DemoRecord(items, byCard, id, timestamp, receiptNumber))
  {
  }

  /** One demo sale: the line for each drawn product index and quantity,
      the running totals, and the payment method drawn as `byCard`. */
  method DemoSale(products: seq<Product>, picks: seq<nat>, quantities: seq<int>, byCard: bool,
                  id: string, timestamp: Stamp, receiptNumber: string) returns (t: Transaction)
    requires |picks| == |quantities|
    requires forall i :: 0 <= i < |picks| ==> picks[i] < |products|
    ensures |t.items| == |picks|
    ensures forall i :: 0 <= i < |picks| ==> t.items[i] == CartLedger.Line(products[picks[i]], quantities[i])
    ensures t == DemoRecord(t.items, byCard, id, timestamp, receiptNumber)
  {
    var items: seq<CartItem> := [];
    var total := 0.0;
    var totalVat := 0.0;
    for i := 0 to |picks|
      invariant |items| == i
      invariant forall k :: 0 <= k < i ==> items[k] == CartLedger.Line(products[picks[k]], quantities[k])
      invariant total == CartLedger.SubtotalSum(items) && totalVat == CartLedger.VatSum(items)
    {
      var line := DemoLine(products[picks[i]], quantities[i]);
      CartLedger.SumsSplit(items, [line]);
      items := items + [line];
      total := total + line.subtotal;
      totalVat := totalVat + line.vatAmount;
    }
    var paymentMethod := if byCard then Card else Cash;
    t := Transaction(
      id, items, total - totalVat, totalVat, total, paymentMethod,
      if paymentMethod == Cash then Some(CashRounded(total)) else None,
      if paymentMethod == Cash then Some(CashRounded(total) - total) else None,
      timestamp, receiptNumber);
  }
}
