/** The cart ledger and payment of the point-of-sale app
    (src/lib/stores/cart.ts): a list of lines keyed by product id, each
    carrying its quantity, its tax-inclusive subtotal and the VAT that
    subtotal contains; totals derived from the lines on every read; and the
    payment that turns the cart into a recorded transaction. */
module CartLedger {
  import opened Wrappers
  import opened Types
  import opened Listing
  import Transactions

  // ---------------------------------------------------------------------------
  // Tax arithmetic

  /** The VAT contained in a tax-inclusive `amount` at `rate`. */
  function VatIncluded(amount: real, rate: VatRate): real {
    amount * rate.Percent() / (100.0 + rate.Percent())
  }

  /** What is left after taking the VAT out, taxed again at the same rate,
      gives the amount back; the VAT of a non-negative amount lies between 0
      and the amount. */
  lemma VatBackedOut(amount: real, rate: VatRate)
    ensures (amount - VatIncluded(amount, rate)) * (100.0 + rate.Percent()) == amount * 100.0
    ensures amount >= 0.0 ==> 0.0 <= VatIncluded(amount, rate) <= amount
  {
  }

  /** Backing VAT out of a sum is backing it out of each part. */
  lemma VatIncludedAdditive(a: real, b: real, rate: VatRate)
    ensures VatIncluded(a + b, rate) == VatIncluded(a, rate) + VatIncluded(b, rate)
  {
  }

  // ---------------------------------------------------------------------------
  // Lines

  /** The line for `quantity` units of `product`, with its derived amounts. */
  function Line(product: Product, quantity: int): CartItem {
    var subtotal := quantity as real * product.price;
    CartItem(product, quantity, subtotal, VatIncluded(subtotal, product.vatRate))
  }

  /** A line's subtotal and VAT agree with its quantity. */
  predicate Consistent(line: CartItem) {
    line == Line(line.product, line.quantity)
  }

  predicate UniqueIds(items: seq<CartItem>) {
    forall i, j :: 0 <= i < j < |items| ==> items[i].product.id != items[j].product.id
  }

  /** What every reachable cart satisfies: one line per product, each with a
      positive quantity and amounts that agree with it. */
  predicate WellFormed(items: seq<CartItem>) {
    && UniqueIds(items)
    && forall i :: 0 <= i < |items| ==> items[i].quantity >= 1 && Consistent(items[i])
  }

  /** The index of the first line for product `id`, as `items.find` does. */
  function Find(items: seq<CartItem>, id: string): (k: Option<nat>)
    ensures k.None? <==> forall i :: 0 <= i < |items| ==> items[i].product.id != id
    ensures k.Some? ==> k.value < |items| && items[k.value].product.id == id
    ensures k.Some? ==> forall i :: 0 <= i < k.value ==> items[i].product.id != id
  {
    var k := FirstWhere(items, LineOf(id));
    if k < |items| then Some(k) else None
  }

  /** The test `item.product.id === id`. */
  function LineOf(id: string): CartItem -> bool {
    (line: CartItem) => line.product.id == id
  }

  /** The lines whose product is not `id`, in order (`items.filter`). */
  function Deleted(items: seq<CartItem>, id: string): (r: seq<CartItem>)
    ensures Find(items, id).None? ==> r == items
  {
    Where(items, NotOf(id))
  }

  /** The test `item.product.id !== id`. */
  function NotOf(id: string): CartItem -> bool {
    (line: CartItem) => line.product.id != id
  }

  /** Deleting a product keeps a cart well formed. */
  lemma DeletedWellFormed(items: seq<CartItem>, id: string)
    ensures WellFormed(items) ==> WellFormed(Deleted(items, id))
  {
    if WellFormed(items) && Find(items, id).Some? {
      var k := Find(items, id).value;
      assert forall i :: 0 <= i < |items| && i != k ==> items[i].product.id != items[k].product.id;
      DeletedAt(items, id, k);
      LineTakenOutWellFormed(items, k);
    }
  }

  /** Taking one line out of a well-formed cart leaves it well formed. */
  lemma LineTakenOutWellFormed(items: seq<CartItem>, k: nat)
    requires WellFormed(items) && k < |items|
    ensures WellFormed(items[..k] + items[k + 1..])
  {
    var r := items[..k] + items[k + 1..];
    assert forall i :: 0 <= i < |r| ==> r[i] == items[if i < k then i else i + 1];
  }

  /** The lines with every line of product `id` moved by `delta` units. */
  function Stepped(items: seq<CartItem>, id: string, delta: int): seq<CartItem> {
    seq(|items|, i requires 0 <= i < |items| =>
      if items[i].product.id == id then Line(items[i].product, items[i].quantity + delta) else items[i])
  }

  /** The lines with every line of product `id` set to `quantity` units. */
  function Relined(items: seq<CartItem>, id: string, quantity: int): seq<CartItem> {
    seq(|items|, i requires 0 <= i < |items| =>
      if items[i].product.id == id then Line(items[i].product, quantity) else items[i])
  }

  lemma SteppedAt(items: seq<CartItem>, id: string, delta: int, k: nat)
    ensures UniqueIds(items) && Find(items, id) == Some(k) ==>
      Stepped(items, id, delta) == items[k := Line(items[k].product, items[k].quantity + delta)]
  {
  }

  lemma RelinedAt(items: seq<CartItem>, id: string, quantity: int, k: nat)
    ensures UniqueIds(items) && Find(items, id) == Some(k) ==>
      Relined(items, id, quantity) == items[k := Line(items[k].product, quantity)]
  {
  }

  /** Deleting a product whose only line is line `k` removes exactly that line. */
  lemma DeletedAt(items: seq<CartItem>, id: string, k: nat)
    requires k < |items| && items[k].product.id == id
    requires forall i :: 0 <= i < |items| && i != k ==> items[i].product.id != id
    ensures Deleted(items, id) == items[..k] + items[k + 1..]
  {
    var pre, post := items[..k], items[k + 1..];
    assert items == pre + ([items[k]] + post);
    assert forall i :: 0 <= i < |pre| ==> pre[i] == items[i];
    assert forall i :: 0 <= i < |post| ==> post[i] == items[k + 1 + i];
    DeletedAround(pre, items[k], post, id);
  }

  /** Deleting the product of the one line between two parts without it
      leaves the two parts. */
  lemma DeletedAround(pre: seq<CartItem>, line: CartItem, post: seq<CartItem>, id: string)
    requires line.product.id == id
    requires forall i :: 0 <= i < |pre| ==> pre[i].product.id != id
    requires forall i :: 0 <= i < |post| ==> post[i].product.id != id
    ensures Deleted(pre + ([line] + post), id) == pre + post
  {
    WhereSplit(pre, [line] + post, NotOf(id));
    WhereSplit([line], post, NotOf(id));
    DeletedKeepsAll(pre, id);
    DeletedKeepsAll(post, id);
    assert Deleted([line], id) == [];
  }

  /** Deleting a product no line holds changes nothing. */
  lemma DeletedKeepsAll(items: seq<CartItem>, id: string)
    requires forall i :: 0 <= i < |items| ==> items[i].product.id != id
    ensures Deleted(items, id) == items
  {
    assert forall i :: 0 <= i < |items| ==> NotOf(id)(items[i]);
  }

  // ---------------------------------------------------------------------------
  // The updates the store applies

  /** `addItem`: one more unit on the product's line, or a new last line. */
  function Added(items: seq<CartItem>, product: Product): (r: seq<CartItem>)
    ensures Find(items, product.id).None? ==> r == items + [Line(product, 1)]
    ensures UniqueIds(items) && Find(items, product.id).Some? ==>
      var k := Find(items, product.id).value;
      r == items[k := Line(items[k].product, items[k].quantity + 1)]
    ensures WellFormed(items) ==> WellFormed(r)
  {
    match Find(items, product.id)
    case Some(k) =>
      SteppedAt(items, product.id, 1, k);
      Stepped(items, product.id, 1)
    case None => items + [Line(product, 1)]
  }

  /** `removeItem`: one unit less on the product's line, or no line at all
      when it held a single unit. */
  function Removed(items: seq<CartItem>, id: string): (r: seq<CartItem>)
    ensures Find(items, id).None? ==> r == items
    ensures UniqueIds(items) && Find(items, id).Some? && items[Find(items, id).value].quantity > 1 ==>
      var k := Find(items, id).value;
      r == items[k := Line(items[k].product, items[k].quantity - 1)]
    ensures Find(items, id).Some? && items[Find(items, id).value].quantity <= 1 ==> r == Deleted(items, id)
    ensures WellFormed(items) ==> WellFormed(r)
  {
    match Find(items, id)
    case Some(k) =>
      if items[k].quantity > 1 then
        SteppedAt(items, id, -1, k);
        Stepped(items, id, -1)
      else DeletedWellFormed(items, id); Deleted(items, id)
    case None => Deleted(items, id)
  }

  /** `setQuantity`: a non-positive quantity deletes the line; otherwise the
      line holds exactly `quantity` units. */
  function QuantitySet(items: seq<CartItem>, id: string, quantity: int): (r: seq<CartItem>)
    ensures quantity <= 0 ==> r == Deleted(items, id)
    ensures Find(items, id).None? ==> r == items
    ensures quantity > 0 && UniqueIds(items) && Find(items, id).Some? ==>
      var k := Find(items, id).value;
      r == items[k := Line(items[k].product, quantity)]
    ensures WellFormed(items) ==> WellFormed(r)
  {
    if quantity <= 0 then DeletedWellFormed(items, id); Deleted(items, id)
    else
      RelinedAt(items, id, quantity, Find(items, id).GetOr(0));
      Relined(items, id, quantity)
  }

  /** `removeItem` applied `n` times. */
  function RemovedTimes(items: seq<CartItem>, id: string, n: nat): seq<CartItem>
    decreases n
  {
    if n == 0 then items else RemovedTimes(Removed(items, id), id, n - 1)
  }

  /** Replacing a line of product `id` by another line of it leaves the
      deletion of `id` as it was. */
  lemma DeletedReplaced(items: seq<CartItem>, id: string, k: nat, line: CartItem)
    requires k < |items| && items[k].product.id == id && line.product.id == id
    ensures Deleted(items[k := line], id) == Deleted(items, id)
  {
    var pre, post := items[..k], items[k + 1..];
    assert items == pre + ([items[k]] + post);
    assert items[k := line] == pre + ([line] + post);
    WhereSplit(pre, [items[k]] + post, NotOf(id));
    WhereSplit([items[k]], post, NotOf(id));
    WhereSplit(pre, [line] + post, NotOf(id));
    WhereSplit([line], post, NotOf(id));
    assert Deleted([items[k]], id) == [] == Deleted([line], id);
  }

  /** Replacing the first line of product `id` by another line of it keeps
      that line the first one. */
  lemma FindReplaced(items: seq<CartItem>, id: string, k: nat, line: CartItem)
    requires Find(items, id) == Some(k) && line.product.id == id
    ensures Find(items[k := line], id) == Some(k)
  {
    var next := items[k := line];
    assert next[k].product.id == id;
    assert Find(next, id).Some?;
  }

  /** Removing one of several units leaves a well-formed cart whose first
      line of the product is still line `k`, one unit shorter. */
  lemma OneUnitOff(items: seq<CartItem>, id: string, k: nat)
    requires WellFormed(items) && Find(items, id) == Some(k) && items[k].quantity > 1
    ensures var line := Line(items[k].product, items[k].quantity - 1);
      && Removed(items, id) == items[k := line]
      && WellFormed(items[k := line])
      && Find(items[k := line], id) == Some(k)
  {
    var line := Line(items[k].product, items[k].quantity - 1);
    assert Removed(items, id) == items[k := line];
    FindReplaced(items, id, k, line);
  }

  /** Removing a product as many times as its line holds units is deleting it. */
  lemma {:induction false} RemovingEveryUnitDeletes(items: seq<CartItem>, id: string, k: nat)
    requires WellFormed(items) && Find(items, id) == Some(k)
    ensures RemovedTimes(items, id, items[k].quantity) == Deleted(items, id)
    decreases items[k].quantity
  {
    var q := items[k].quantity;
    if q > 1 {
      var line := Line(items[k].product, q - 1);
      OneUnitOff(items, id, k);
      RemovingEveryUnitDeletes(items[k := line], id, k);
      DeletedReplaced(items, id, k, line);
    } else {
      assert RemovedTimes(items, id, q) == Removed(items, id);
    }
  }

  // ---------------------------------------------------------------------------
  // Derived totals

  function SubtotalSum(items: seq<CartItem>): real {
    if |items| == 0 then 0.0 else items[0].subtotal + SubtotalSum(items[1..])
  }

  function VatSum(items: seq<CartItem>): real {
    if |items| == 0 then 0.0 else items[0].vatAmount + VatSum(items[1..])
  }

  function QuantitySum(items: seq<CartItem>): int {
    if |items| == 0 then 0 else items[0].quantity + QuantitySum(items[1..])
  }

  /** Each line's amount net of VAT. */
  function PreTaxSum(items: seq<CartItem>): real {
    if |items| == 0 then 0.0
    else items[0].subtotal * 100.0 / (100.0 + items[0].product.vatRate.Percent()) + PreTaxSum(items[1..])
  }

  /** The derived `cart` view: totals recomputed from the lines. */
  function Totals(items: seq<CartItem>): (c: Cart)
    ensures c.items == items
    ensures c.subtotal + c.totalVat == c.total
    ensures items == [] ==> c.subtotal == 0.0 && c.totalVat == 0.0 && c.total == 0.0 && c.itemCount == 0
  {
    var total := SubtotalSum(items);
    var totalVat := VatSum(items);
    Cart(items, total - totalVat, totalVat, total, QuantitySum(items))
  }

  lemma {:induction false} SumsSplit(a: seq<CartItem>, b: seq<CartItem>)
    ensures SubtotalSum(a + b) == SubtotalSum(a) + SubtotalSum(b)
    ensures VatSum(a + b) == VatSum(a) + VatSum(b)
    ensures QuantitySum(a + b) == QuantitySum(a) + QuantitySum(b)
  {
    if |a| > 0 {
      assert (a + b)[1..] == a[1..] + b;
      SumsSplit(a[1..], b);
    } else {
      assert a + b == b;
    }
  }

  /** The sums after one line is replaced. */
  lemma SumsUpdate(items: seq<CartItem>, k: nat, line: CartItem)
    requires k < |items|
    ensures SubtotalSum(items[k := line]) == SubtotalSum(items) - items[k].subtotal + line.subtotal
    ensures VatSum(items[k := line]) == VatSum(items) - items[k].vatAmount + line.vatAmount
    ensures QuantitySum(items[k := line]) == QuantitySum(items) - items[k].quantity + line.quantity
  {
    assert items == items[..k] + ([items[k]] + items[k + 1..]);
    assert items[k := line] == items[..k] + ([line] + items[k + 1..]);
    SumsSplit(items[..k], [items[k]] + items[k + 1..]);
    SumsSplit([items[k]], items[k + 1..]);
    SumsSplit(items[..k], [line] + items[k + 1..]);
    SumsSplit([line], items[k + 1..]);
  }

  /** The sums after one line is taken out. */
  lemma SumsRemove(items: seq<CartItem>, k: nat)
    requires k < |items|
    ensures SubtotalSum(items[..k] + items[k + 1..]) == SubtotalSum(items) - items[k].subtotal
    ensures VatSum(items[..k] + items[k + 1..]) == VatSum(items) - items[k].vatAmount
    ensures QuantitySum(items[..k] + items[k + 1..]) == QuantitySum(items) - items[k].quantity
  {
    var pre, post := items[..k], items[k + 1..];
    assert items == pre + items[k..];
    assert items[k..][1..] == post;
    SumsSplit(pre, items[k..]);
    SumsSplit(pre, post);
  }

  /** When every line's amounts agree with its quantity, total less VAT is
      the sum of every line net of its own rate. */
  lemma {:induction false} PreTaxAgrees(items: seq<CartItem>)
    requires forall i :: 0 <= i < |items| ==> Consistent(items[i])
    ensures SubtotalSum(items) - VatSum(items) == PreTaxSum(items)
  {
    if |items| > 0 {
      var l := items[0];
      assert Consistent(l);
      PreTaxAgrees(items[1..]);
      var r := l.product.vatRate.Percent();
      assert l.subtotal - l.vatAmount == l.subtotal * 100.0 / (100.0 + r) by {
        assert (l.subtotal - l.vatAmount) * (100.0 + r) == l.subtotal * 100.0;
      }
    }
  }

  /** On a well-formed cart of non-negative prices the totals reconcile: the
      pre-tax subtotal is the sum of every line net of its own rate, the VAT
      lies between 0 and the total, and there are at least as many units as
      lines. */
  lemma {:induction false} TotalsReconcile(items: seq<CartItem>)
    requires WellFormed(items)
    requires forall i :: 0 <= i < |items| ==> items[i].product.price >= 0.0
    ensures Totals(items).subtotal == PreTaxSum(items)
    ensures 0.0 <= Totals(items).totalVat <= Totals(items).total
    ensures Totals(items).itemCount >= |items|
  {
    PreTaxAgrees(items);
    VatBounded(items);
  }

  /** Lines of at least one unit at a non-negative price carry a VAT between
      0 and their subtotal, and hold at least one unit each. */
  lemma {:induction false} VatBounded(items: seq<CartItem>)
    requires forall i :: 0 <= i < |items| ==> items[i].quantity >= 1 && Consistent(items[i])
    requires forall i :: 0 <= i < |items| ==> items[i].product.price >= 0.0
    ensures 0.0 <= VatSum(items) <= SubtotalSum(items)
    ensures QuantitySum(items) >= |items|
  {
    if |items| > 0 {
      var l := items[0];
      assert l.quantity >= 1 && Consistent(l) && l.product.price >= 0.0;
      VatBounded(items[1..]);
      assert l.subtotal >= 0.0;
    }
  }

  /** A line with one more unit costs one unit price more and carries that
      price's VAT more. */
  lemma LineStep(p: Product, q: int)
    ensures Line(p, q + 1).subtotal == Line(p, q).subtotal + p.price
    ensures Line(p, q + 1).vatAmount == Line(p, q).vatAmount + VatIncluded(p.price, p.vatRate)
  {
    var a := q as real * p.price;
    assert (q + 1) as real * p.price == a + p.price by {
      assert (q + 1) as real == q as real + 1.0;
    }
    VatIncludedAdditive(a, p.price, p.vatRate);
  }

  /** One unit more on a consistent line adds one unit, the unit price and
      that price's VAT to the totals. */
  lemma StepUpTotals(items: seq<CartItem>, k: nat)
    requires k < |items| && Consistent(items[k])
    ensures var p := items[k].product;
            var after := Totals(items[k := Line(p, items[k].quantity + 1)]);
            && after.itemCount == Totals(items).itemCount + 1
            && after.total == Totals(items).total + p.price
            && after.totalVat == Totals(items).totalVat + VatIncluded(p.price, p.vatRate)
  {
    var p := items[k].product;
    var q := items[k].quantity;
    SumsUpdate(items, k, Line(p, q + 1));
    LineStep(p, q);
  }

  /** One unit less on a consistent line takes one unit and the unit price
      off the totals. */
  lemma StepDownTotals(items: seq<CartItem>, k: nat)
    requires k < |items| && Consistent(items[k])
    ensures var p := items[k].product;
            var after := Totals(items[k := Line(p, items[k].quantity - 1)]);
            && after.itemCount == Totals(items).itemCount - 1
            && after.total == Totals(items).total - p.price
  {
    var p := items[k].product;
    var q := items[k].quantity;
    SumsUpdate(items, k, Line(p, q - 1));
    LineStep(p, q - 1);
  }

  /** Adding a product adds one unit, its unit price to the total and that
      price's VAT to the VAT total; the unit price is the one of the line
      already in the cart, if any. */
  lemma AddedTotals(items: seq<CartItem>, product: Product)
    requires WellFormed(items)
    ensures var unit := match Find(items, product.id)
                        case Some(k) => items[k].product
                        case None => product;
            && Totals(Added(items, product)).itemCount == Totals(items).itemCount + 1
            && Totals(Added(items, product)).total == Totals(items).total + unit.price
            && Totals(Added(items, product)).totalVat == Totals(items).totalVat + VatIncluded(unit.price, unit.vatRate)
  {
    match Find(items, product.id)
    case Some(k) =>
      StepUpTotals(items, k);
    case None =>
      SumsSplit(items, [Line(product, 1)]);
  }

  /** Removing a product present in the cart takes off one unit and its unit
      price; removing an absent product changes nothing. */
  lemma RemovedTotals(items: seq<CartItem>, id: string)
    requires WellFormed(items)
    ensures Find(items, id).None? ==> Totals(Removed(items, id)) == Totals(items)
    ensures Find(items, id).Some? ==>
      var unit := items[Find(items, id).value].product;
      && Totals(Removed(items, id)).itemCount == Totals(items).itemCount - 1
      && Totals(Removed(items, id)).total == Totals(items).total - unit.price
  {
    if Find(items, id).Some? {
      RemovedPresentTotals(items, id, Find(items, id).value);
    }
  }

  lemma RemovedPresentTotals(items: seq<CartItem>, id: string, k: nat)
    requires WellFormed(items) && Find(items, id) == Some(k)
    ensures Totals(Removed(items, id)).itemCount == Totals(items).itemCount - 1
    ensures Totals(Removed(items, id)).total == Totals(items).total - items[k].product.price
  {
    assert items[k].quantity >= 1 && Consistent(items[k]);
    if items[k].quantity > 1 {
      RemovedOneOfMany(items, id, k);
    } else {
      RemovedLastUnit(items, id, k);
    }
  }

  /** Removing one of several units steps the line down. */
  lemma RemovedOneOfMany(items: seq<CartItem>, id: string, k: nat)
    requires UniqueIds(items) && Find(items, id) == Some(k)
    requires items[k].quantity > 1 && Consistent(items[k])
    ensures Totals(Removed(items, id)).itemCount == Totals(items).itemCount - 1
    ensures Totals(Removed(items, id)).total == Totals(items).total - items[k].product.price
  {
    assert Removed(items, id) == items[k := Line(items[k].product, items[k].quantity - 1)];
    StepDownTotals(items, k);
  }

  /** Removing the last unit deletes the line, whose amount is one unit price. */
  lemma RemovedLastUnit(items: seq<CartItem>, id: string, k: nat)
    requires UniqueIds(items) && Find(items, id) == Some(k)
    requires items[k].quantity == 1 && Consistent(items[k])
    ensures Totals(Removed(items, id)).itemCount == Totals(items).itemCount - 1
    ensures Totals(Removed(items, id)).total == Totals(items).total - items[k].product.price
  {
    assert Removed(items, id) == Deleted(items, id);
    assert forall i :: k < i < |items| ==> items[i].product.id != id;
    DeletedTotals(items, id, k);
    assert items[k].subtotal == items[k].product.price;
  }

  /** Deleting a product takes off all of its line's units and amount. */
  lemma DeletedTotals(items: seq<CartItem>, id: string, k: nat)
    requires Find(items, id) == Some(k)
    requires forall i :: k < i < |items| ==> items[i].product.id != id
    ensures Totals(Deleted(items, id)).itemCount == Totals(items).itemCount - items[k].quantity
    ensures Totals(Deleted(items, id)).total == Totals(items).total - items[k].subtotal
    ensures Totals(Deleted(items, id)).totalVat == Totals(items).totalVat - items[k].vatAmount
  {
    DeletedAt(items, id, k);
    SumsRemove(items, k);
  }

  // ---------------------------------------------------------------------------
  // The store

  /** The `cartItems` store: its list of lines is replaced by each mutator. */
  class CartStore {
    var items: seq<CartItem>

    ghost predicate Valid()
      reads this
    {
      WellFormed(items)
    }

    constructor ()
      ensures Valid() && items == []
    {
      items := [];
    }

    method AddItem(product: Product)
      requires Valid()
      modifies this
      ensures Valid()
      ensures items == Added(old(items), product)
    {
      items := Added(items, product);
    }

    method RemoveItem(id: string)
      requires Valid()
      modifies this
      ensures Valid()
      ensures items == Removed(old(items), id)
    {
      items := Removed(items, id);
    }

    method DeleteItem(id: string)
      requires Valid()
      modifies this
      ensures Valid()
      ensures items == Deleted(old(items), id)
    {
      DeletedWellFormed(items, id);
      items := Deleted(items, id);
    }

    method SetQuantity(id: string, quantity: int)
      requires Valid()
      modifies this
      ensures Valid()
      ensures items == QuantitySet(old(items), id, quantity)
    {
      items := QuantitySet(items, id, quantity);
    }

    method Clear()
      modifies this
      ensures Valid() && items == []
    {
      items := [];
    }

    /** The derived `cart` store: the lines, the sum of their subtotals and
        of their VAT, the number of units, and the pre-tax subtotal, which on
        a well-formed cart is the sum of every line net of its own rate. */
    function View(): (c: Cart)
      reads this
      requires Valid()
      ensures c.items == items
      ensures c.total == SubtotalSum(items) && c.totalVat == VatSum(items)
      ensures c.itemCount == QuantitySum(items)
      ensures c.subtotal == PreTaxSum(items)
    {
      PreTaxAgrees(items);
      Totals(items)
    }
  }

  // ---------------------------------------------------------------------------
  // Payment

  const EmptyCartError := "Le panier est vide"

  /** JavaScript truthiness of an optional amount: present and not zero. */
  predicate Truthy(x: Option<real>) {
    x.Some? && x.value != 0.0
  }

  /** The transaction a payment builds from the current lines, or the
      empty-cart error. Identifier, time stamp and receipt number are inputs. */
  function Checkout(items: seq<CartItem>, paymentMethod: PaymentMethod, cashGiven: Option<real>,
                    id: string, timestamp: Stamp, receiptNumber: string): (r: Result<Transaction, string>)
    ensures r.Failure? <==> items == []
    ensures r.Failure? ==> r.error == EmptyCartError
    ensures r.Success? ==>
      var t := r.value;
      && t.items == items
      && t.total == SubtotalSum(items) && t.totalVat == VatSum(items)
      && t.subtotal + t.totalVat == t.total
      && t.paymentMethod == paymentMethod && t.timestamp == timestamp
      && t.id == id && t.receiptNumber == receiptNumber
    ensures r.Success? ==> r.value.cashGiven == (if paymentMethod == Cash then cashGiven else None)
    ensures r.Success? ==> (r.value.change.Some? <==> paymentMethod == Cash && Truthy(cashGiven))
    ensures r.Success? && r.value.change.Some? ==> r.value.total + r.value.change.value == cashGiven.value
  {
    if |items| == 0 then Failure(EmptyCartError)
    else
      var view := Totals(items);
      Success(Transaction(
        id, items, view.subtotal, view.totalVat, view.total, paymentMethod,
        if paymentMethod == Cash then cashGiven else None,
        if paymentMethod == Cash && Truthy(cashGiven) then Some(cashGiven.value - view.total) else None,
        timestamp, receiptNumber))
  }

  /** `processPayment`: on an empty cart nothing changes and the error is
      returned; otherwise the transaction is appended to the history and the
      cart is emptied. */
  method ProcessPayment(cart: CartStore, store: Transactions.TransactionsStore,
                        paymentMethod: PaymentMethod, cashGiven: Option<real>,
                        id: string, timestamp: Stamp, receiptNumber: string)
    returns (r: Result<Transaction, string>)
    requires cart.Valid()
    modifies cart, store
    ensures cart.Valid()
    ensures r == Checkout(old(cart.items), paymentMethod, cashGiven, id, timestamp, receiptNumber)
    ensures r.Failure? ==> cart.items == old(cart.items) && store.history == old(store.history)
    ensures r.Success? ==> cart.items == [] && store.history == old(store.history) + [r.value]
  {
    r := Checkout(cart.items, paymentMethod, cashGiven, id, timestamp, receiptNumber);
    if r.Success? {
      store.Add(r.value);
      cart.Clear();
    }
  }
}
