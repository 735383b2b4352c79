/** The transaction history and the dashboard computed from it
    (src/lib/stores/transactions.ts, lines 1-194): the day filters, the
    day-over-day revenue comparison, the hourly histogram, the top products
    and the stock alerts. */
module Transactions {
  import opened Wrappers
  import opened Types
  import opened Listing

  // ---------------------------------------------------------------------------
  // The store

  /** The `transactionsStore`: an append-only history of sales. */
  class TransactionsStore {
    var history: seq<Transaction>

    /** The store starts from whatever history was saved before. */
    constructor (saved: seq<Transaction>)
      ensures history == saved
    {
      history := saved;
    }

    method Add(t: Transaction)
      modifies this
      ensures history == old(history) + [t]
    {
      history := history + [t];
    }

    method Clear()
      modifies this
      ensures history == []
    {
      history := [];
    }

    method ImportDemo(ts: seq<Transaction>)
      modifies this
      ensures history == ts
    {
      history := ts;
    }

    /** `getByDate` (and `getToday` with today's key): exactly the sales of
        one calendar day, each once, in recording order. */
    function GetByDate(dayKey: int): (r: seq<Transaction>)
      reads this
      ensures exists at ::
        && PickedAt(r, history, at)
        && forall k :: 0 <= k < |history| ==> (history[k].timestamp.dayKey == dayKey <==> k in at)
    {
      WhereAtPositions(history, OnDate(dayKey));
      OnDay(history, dayKey)
    }

    /** `getLastDays`: exactly the sales at or after the cutoff instant, each
        once, in recording order. */
    function GetLastDays(cutoff: int): (r: seq<Transaction>)
      reads this
      ensures exists at ::
        && PickedAt(r, history, at)
        && forall k :: 0 <= k < |history| ==> (history[k].timestamp.instant >= cutoff <==> k in at)
    {
      WhereAtPositions(history, Since(cutoff));
      InWindow(history, cutoff)
    }
  }

  // ---------------------------------------------------------------------------
  // Filters and sums over a history (the sums are defined on the last sale,
  // so that a left-to-right loop over the history adds one step at a time)

  /** The test `getDayKey(t.timestamp) === dayKey`. */
  function OnDate(dayKey: int): Transaction -> bool {
    (t: Transaction) => t.timestamp.dayKey == dayKey
  }

  /** The test `t.timestamp >= cutoff`. */
  function Since(cutoff: int): Transaction -> bool {
    (t: Transaction) => t.timestamp.instant >= cutoff
  }

  /** The sales of calendar day `dayKey`, in order. */
  function OnDay(ts: seq<Transaction>, dayKey: int): (r: seq<Transaction>)
    ensures forall t :: t in r <==> t in ts && t.timestamp.dayKey == dayKey
    ensures |r| <= |ts|
  {
    Where(ts, OnDate(dayKey))
  }

  /** The sales at or after instant `cutoff`, in order. */
  function InWindow(ts: seq<Transaction>, cutoff: int): (r: seq<Transaction>)
    ensures forall t :: t in r <==> t in ts && t.timestamp.instant >= cutoff
    ensures |r| <= |ts|
  {
    Where(ts, Since(cutoff))
  }

  /** The sum of the sales' totals. */
  function Revenue(ts: seq<Transaction>): real {
    if |ts| == 0 then 0.0 else Revenue(Init(ts)) + Last(ts).total
  }

  /** How many sales fall in hour `h`. */
  function CountAt(ts: seq<Transaction>, h: int): nat {
    if |ts| == 0 then 0 else CountAt(Init(ts), h) + (if Last(ts).timestamp.hour == h then 1 else 0)
  }

  /** The revenue of the sales that fall in hour `h`. */
  function RevenueAt(ts: seq<Transaction>, h: int): real {
    if |ts| == 0 then 0.0 else RevenueAt(Init(ts), h) + (if Last(ts).timestamp.hour == h then Last(ts).total else 0.0)
  }

  /** How many sales fall in the hours `lo` to `hi`, both included. */
  function CountBetween(ts: seq<Transaction>, lo: int, hi: int): nat {
    if |ts| == 0 then 0
    else CountBetween(Init(ts), lo, hi) + (if lo <= Last(ts).timestamp.hour <= hi then 1 else 0)
  }

  // ---------------------------------------------------------------------------
  // Revenue comparison and average ticket

  /** Day-over-day change of revenue in percent, 0 when yesterday took nothing. */
  function Comparison(todayRevenue: real, yesterdayRevenue: real): (c: real)
    ensures yesterdayRevenue <= 0.0 ==> c == 0.0
    ensures yesterdayRevenue > 0.0 ==> c * yesterdayRevenue == (todayRevenue - yesterdayRevenue) * 100.0
    ensures yesterdayRevenue > 0.0 ==> (c > 0.0 <==> todayRevenue > yesterdayRevenue)
  {
    if yesterdayRevenue > 0.0 then (todayRevenue - yesterdayRevenue) / yesterdayRevenue * 100.0 else 0.0
  }

  /** Revenue per sale, 0 when there was no sale. */
  function AverageTicket(revenue: real, count: nat): (a: real)
    ensures count == 0 ==> a == 0.0
    ensures count > 0 ==> a * count as real == revenue
  {
    if count > 0 then revenue / count as real else 0.0
  }

  // ---------------------------------------------------------------------------
  // Hourly histogram

  const FirstHour := 6
  const LastHour := 22
  /** The operating window 6h..22h has 17 hours. */
  const HourCount := LastHour - FirstHour + 1

  /** The buckets of `calculateHourlyData`: one per operating hour, ascending,
      each with the revenue and the number of that hour's sales. */
  function HourlyOf(ts: seq<Transaction>): (r: seq<HourlySales>)
    ensures |r| == HourCount
  {
    seq(HourCount, i requires 0 <= i < HourCount =>
      HourlySales(FirstHour + i, RevenueAt(ts, FirstHour + i), CountAt(ts, FirstHour + i), CountAt(ts, FirstHour + i)))
  }

  /** `calculateHourlyData`: zeroed buckets, then each sale added to the
      bucket of its hour; sales outside the operating window are dropped. */
  method CalculateHourlyData(ts: seq<Transaction>) returns (buckets: seq<HourlySales>)
    ensures buckets == HourlyOf(ts)
  {
    buckets := seq(HourCount, i requires 0 <= i < HourCount => HourlySales(FirstHour + i, 0.0, 0, 0));
    assert buckets == HourlyOf(ts[..0]) by {
      assert ts[..0] == [];
      forall i | 0 <= i < HourCount ensures buckets[i] == HourlyOf([])[i] {
        assert CountAt([], FirstHour + i) == 0 && RevenueAt([], FirstHour + i) == 0.0;
      }
    }
    var j := 0;
    while j < |ts|
      invariant 0 <= j <= |ts|
      invariant buckets == HourlyOf(ts[..j])
    {
      var t := ts[j];
      assert ts[..j + 1] == ts[..j] + [t];
      HourlyBuckets(ts[..j], t);
      var h := t.timestamp.hour;
      if FirstHour <= h <= LastHour {
        var b := buckets[h - FirstHour];
        buckets := buckets[h - FirstHour := HourlySales(h, b.revenue + t.total, b.transactionCount + 1, b.customerCount + 1)];
      }
      j := j + 1;
    }
    assert ts[..|ts|] == ts;
  }

  /** The buckets cover the hours 6 to 22 in ascending order, count one
      customer per sale, and a sale outside those hours changes no bucket
      while a sale inside them adds itself to its hour's bucket only. */
  lemma HourlyBuckets(ts: seq<Transaction>, t: Transaction)
    ensures forall i :: 0 <= i < HourCount ==> HourlyOf(ts)[i].hour == FirstHour + i
    ensures forall i :: 0 <= i < HourCount ==> HourlyOf(ts)[i].transactionCount == HourlyOf(ts)[i].customerCount
    ensures !(FirstHour <= t.timestamp.hour <= LastHour) ==> HourlyOf(ts + [t]) == HourlyOf(ts)
    ensures FirstHour <= t.timestamp.hour <= LastHour ==>
      var k := t.timestamp.hour - FirstHour;
      var b := HourlyOf(ts)[k];
      HourlyOf(ts + [t]) == HourlyOf(ts)[k := HourlySales(b.hour, b.revenue + t.total, b.transactionCount + 1, b.customerCount + 1)]
  {
    var ts' := ts + [t];
    assert Init(ts') == ts && Last(ts') == t;
    var before, after := HourlyOf(ts), HourlyOf(ts');
    forall i | 0 <= i < HourCount
      ensures after[i].revenue == before[i].revenue + (if t.timestamp.hour == FirstHour + i then t.total else 0.0)
      ensures after[i].transactionCount == before[i].transactionCount + (if t.timestamp.hour == FirstHour + i then 1 else 0)
    {
      var h := FirstHour + i;
      assert after[i] == HourlySales(h, RevenueAt(ts', h), CountAt(ts', h), CountAt(ts', h));
      assert RevenueAt(ts', h) == RevenueAt(ts, h) + (if t.timestamp.hour == h then t.total else 0.0);
      assert CountAt(ts', h) == CountAt(ts, h) + (if t.timestamp.hour == h then 1 else 0);
    }
    if !(FirstHour <= t.timestamp.hour <= LastHour) {
      assert after == before;
    } else {
      var k := t.timestamp.hour - FirstHour;
      var b := before[k];
      assert after == before[k := HourlySales(b.hour, b.revenue + t.total, b.transactionCount + 1, b.customerCount + 1)];
    }
  }

  function BucketCountSum(buckets: seq<HourlySales>): int {
    if |buckets| == 0 then 0 else BucketCountSum(Init(buckets)) + Last(buckets).transactionCount
  }

  lemma {:induction false} CountBetweenSplit(ts: seq<Transaction>, lo: int, hi: int)
    requires lo <= hi
    ensures CountBetween(ts, lo, hi) == CountBetween(ts, lo, hi - 1) + CountAt(ts, hi)
  {
    if |ts| > 0 {
      CountBetweenSplit(Init(ts), lo, hi);
    }
  }

  /** The first `n` buckets count the sales of hours 6 to 6+n-1. */
  lemma {:induction false} BucketPrefixCount(ts: seq<Transaction>, n: nat)
    requires n <= HourCount
    ensures BucketCountSum(HourlyOf(ts)[..n]) == CountBetween(ts, FirstHour, FirstHour + n - 1)
  {
    if n == 0 {
      CountBetweenEmpty(ts, FirstHour, FirstHour - 1);
    } else {
      BucketPrefixCount(ts, n - 1);
      assert Init(HourlyOf(ts)[..n]) == HourlyOf(ts)[..n - 1];
      CountBetweenSplit(ts, FirstHour, FirstHour + n - 1);
    }
  }

  lemma {:induction false} CountBetweenEmpty(ts: seq<Transaction>, lo: int, hi: int)
    requires hi < lo
    ensures CountBetween(ts, lo, hi) == 0
  {
    if |ts| > 0 {
      CountBetweenEmpty(Init(ts), lo, hi);
    }
  }

  /** Every sale made between 6h and 22h is counted in exactly one bucket,
      and no other sale is counted. */
  lemma HourlyCountsEverySaleInHours(ts: seq<Transaction>)
    ensures BucketCountSum(HourlyOf(ts)) == CountBetween(ts, FirstHour, LastHour)
  {
    BucketPrefixCount(ts, HourCount);
    assert HourlyOf(ts)[..HourCount] == HourlyOf(ts);
  }

  // ---------------------------------------------------------------------------
  // Top products

  /** Every line of every sale, in order. */
  function AllLines(ts: seq<Transaction>): seq<CartItem> {
    if |ts| == 0 then [] else AllLines(Init(ts)) + Last(ts).items
  }

  /** Units of product `id` sold on `lines`. */
  function QuantityOf(lines: seq<CartItem>, id: string): int {
    if |lines| == 0 then 0
    else QuantityOf(Init(lines), id) + (if Last(lines).product.id == id then Last(lines).quantity else 0)
  }

  /** Revenue of product `id` on `lines`. */
  function RevenueOf(lines: seq<CartItem>, id: string): real {
    if |lines| == 0 then 0.0
    else RevenueOf(Init(lines), id) + (if Last(lines).product.id == id then Last(lines).subtotal else 0.0)
  }

  /** The index of the entry for product `id`. */
  function FindSales(acc: seq<ProductSales>, id: string): (k: Option<nat>)
    ensures k.None? <==> forall i :: 0 <= i < |acc| ==> acc[i].product.id != id
    ensures k.Some? ==> k.value < |acc| && acc[k.value].product.id == id
  {
    var k := FirstWhere(acc, SalesOf(id));
    if k < |acc| then Some(k) else None
  }

  /** The test `p.product.id === id`. */
  function SalesOf(id: string): ProductSales -> bool {
    (entry: ProductSales) => entry.product.id == id
  }

  /** The test `item.product.id === id` on a sold line. */
  function SoldAs(id: string): CartItem -> bool {
    (line: CartItem) => line.product.id == id
  }

  /** The position of the first line selling product `id`; `|lines|` when
      no line does. */
  function FirstSale(lines: seq<CartItem>, id: string): nat {
    FirstWhere(lines, SoldAs(id))
  }

  /** `entry` is a product sold on `lines`, as the first line that sold it
      carries it: the product a new map entry is made from. */
  predicate SoldFirstAs(lines: seq<CartItem>, entry: ProductSales) {
    FirstSale(lines, entry.product.id) < |lines| && lines[FirstSale(lines, entry.product.id)].product == entry.product
  }

  /** One line folded into the per-product totals: added to its product's
      entry, or a new last entry for a product seen for the first time. */
  function Tally(acc: seq<ProductSales>, line: CartItem): seq<ProductSales> {
    match FindSales(acc, line.product.id)
    case Some(k) =>
      acc[k := acc[k].(quantitySold := acc[k].quantitySold + line.quantity, revenue := acc[k].revenue + line.subtotal)]
    case None => acc + [ProductSales(line.product, line.quantity, line.subtotal)]
  }

  /** The per-product totals of `lines`, in order of first appearance. */
  function Tallied(lines: seq<CartItem>): seq<ProductSales> {
    if |lines| == 0 then [] else Tally(Tallied(Init(lines)), Last(lines))
  }

  predicate DistinctProducts(acc: seq<ProductSales>) {
    forall i, j :: 0 <= i < j < |acc| ==> acc[i].product.id != acc[j].product.id
  }

  lemma {:induction false} QuantityOfAbsent(lines: seq<CartItem>, id: string)
    requires forall i :: 0 <= i < |lines| ==> lines[i].product.id != id
    ensures QuantityOf(lines, id) == 0 && RevenueOf(lines, id) == 0.0
  {
    if |lines| > 0 {
      QuantityOfAbsent(Init(lines), id);
    }
  }

  /** `acc` is the tally of `lines`: each product once, with the units and
      the revenue of all of its lines, an entry for every product sold, and
      no entry for a product not sold. */
  predicate TallyOf(lines: seq<CartItem>, acc: seq<ProductSales>) {
    && DistinctProducts(acc)
    && (forall j :: 0 <= j < |acc| ==>
          acc[j].quantitySold == QuantityOf(lines, acc[j].product.id) && acc[j].revenue == RevenueOf(lines, acc[j].product.id))
    && (forall i :: 0 <= i < |lines| ==> FindSales(acc, lines[i].product.id).Some?)
    && (forall j :: 0 <= j < |acc| ==> SoldFirstAs(lines, acc[j]))
  }

  /** The per-product totals hold each product once, with the units and the
      revenue of all of its lines; every product sold has its entry, and
      every entry is a product sold, as its first line carries it. */
  lemma {:induction false} TalliedTotals(lines: seq<CartItem>)
    ensures DistinctProducts(Tallied(lines))
    ensures forall k :: 0 <= k < |Tallied(lines)| ==>
      && Tallied(lines)[k].quantitySold == QuantityOf(lines, Tallied(lines)[k].product.id)
      && Tallied(lines)[k].revenue == RevenueOf(lines, Tallied(lines)[k].product.id)
    ensures forall i :: 0 <= i < |lines| ==> FindSales(Tallied(lines), lines[i].product.id).Some?
    ensures forall k :: 0 <= k < |Tallied(lines)| ==> SoldFirstAs(lines, Tallied(lines)[k])
  {
    if |lines| > 0 {
      var prefix, line := Init(lines), Last(lines);
      assert lines == prefix + [line];
      TalliedTotals(prefix);
      var acc := Tallied(prefix);
      assert TallyOf(prefix, acc);
      match FindSales(acc, line.product.id) {
        case Some(k) => TallyExisting(prefix, line, acc, k);
        case None => TallyNew(prefix, line, acc);
      }
      assert TallyOf(lines, Tallied(lines));
    }
  }

  /** Tallying a line of a product that already has its entry keeps `acc`
      the tally of the lines, with that line added. */
  lemma TallyExisting(prefix: seq<CartItem>, line: CartItem, acc: seq<ProductSales>, k: nat)
    requires TallyOf(prefix, acc) && FindSales(acc, line.product.id) == Some(k)
    ensures TallyOf(prefix + [line], Tally(acc, line))
  {
    var r := Tally(acc, line);
    TallyAddsTo(acc, line, k);
    SameProducts(acc, r);
    ExistingSums(prefix, line, acc, k, r);
    ExistingFound(prefix, line, acc, k, r);
    ExistingFirst(prefix, line, acc, r);
  }

  /** A line of a product with an entry is added to that entry. */
  lemma TallyAddsTo(acc: seq<ProductSales>, line: CartItem, k: nat)
    requires FindSales(acc, line.product.id) == Some(k)
    ensures Tally(acc, line) ==
      acc[k := acc[k].(quantitySold := acc[k].quantitySold + line.quantity, revenue := acc[k].revenue + line.subtotal)]
  {
  }

  /** Adding a line to its product's entry keeps every entry equal to the
      sums of its product's lines. */
  lemma ExistingSums(prefix: seq<CartItem>, line: CartItem, acc: seq<ProductSales>, k: nat, r: seq<ProductSales>)
    requires FindSales(acc, line.product.id) == Some(k)
    requires DistinctProducts(acc)
    requires forall j :: 0 <= j < |acc| ==>
      acc[j].quantitySold == QuantityOf(prefix, acc[j].product.id) && acc[j].revenue == RevenueOf(prefix, acc[j].product.id)
    requires r == acc[k := acc[k].(quantitySold := acc[k].quantitySold + line.quantity, revenue := acc[k].revenue + line.subtotal)]
    ensures forall j :: 0 <= j < |r| ==>
      && r[j].quantitySold == QuantityOf(prefix + [line], r[j].product.id)
      && r[j].revenue == RevenueOf(prefix + [line], r[j].product.id)
  {
    forall j | 0 <= j < |r|
      ensures r[j].quantitySold == QuantityOf(prefix + [line], r[j].product.id)
      ensures r[j].revenue == RevenueOf(prefix + [line], r[j].product.id)
    {
      TalliedLineAdds(prefix, line, r[j].product.id);
      if j != k {
        assert acc[j].product.id != acc[k].product.id;
      }
    }
  }

  /** Adding a line to its product's entry keeps an entry for every product
      sold. */
  lemma ExistingFound(prefix: seq<CartItem>, line: CartItem, acc: seq<ProductSales>, k: nat, r: seq<ProductSales>)
    requires FindSales(acc, line.product.id) == Some(k)
    requires forall i :: 0 <= i < |prefix| ==> FindSales(acc, prefix[i].product.id).Some?
    requires r == acc[k := acc[k].(quantitySold := acc[k].quantitySold + line.quantity, revenue := acc[k].revenue + line.subtotal)]
    ensures forall i :: 0 <= i < |prefix + [line]| ==> FindSales(r, (prefix + [line])[i].product.id).Some?
  {
    var lines := prefix + [line];
    forall i | 0 <= i < |lines| ensures FindSales(r, lines[i].product.id).Some? {
      if i < |prefix| {
        assert lines[i] == prefix[i];
        var m := FindSales(acc, prefix[i].product.id).value;
        assert r[m].product.id == prefix[i].product.id;
      } else {
        assert r[k].product.id == lines[i].product.id;
      }
    }
  }

  /** Tallies listing the same products stay products sold, each as its
      first line carries it, once one more line is sold. */
  lemma ExistingFirst(prefix: seq<CartItem>, line: CartItem, acc: seq<ProductSales>, r: seq<ProductSales>)
    requires forall j :: 0 <= j < |acc| ==> SoldFirstAs(prefix, acc[j])
    requires |r| == |acc| && forall j :: 0 <= j < |r| ==> r[j].product == acc[j].product
    ensures forall j :: 0 <= j < |r| ==> SoldFirstAs(prefix + [line], r[j])
  {
    forall j | 0 <= j < |r| ensures SoldFirstAs(prefix + [line], r[j]) {
      EarlierSaleStays(prefix, line, acc[j]);
    }
  }

  /** A product already sold on `prefix` keeps its first line when one more
      line is sold. */
  lemma EarlierSaleStays(prefix: seq<CartItem>, line: CartItem, entry: ProductSales)
    requires SoldFirstAs(prefix, entry)
    ensures SoldFirstAs(prefix + [line], entry)
  {
    var f := FirstSale(prefix, entry.product.id);
    Listing.FirstWhereSnoc(prefix, line, SoldAs(entry.product.id));
    assert FirstSale(prefix + [line], entry.product.id) == f;
    assert (prefix + [line])[f] == prefix[f];
  }

  /** A product first sold on the added line has that line as its first. */
  lemma NewSaleFirst(prefix: seq<CartItem>, line: CartItem)
    requires forall i :: 0 <= i < |prefix| ==> prefix[i].product.id != line.product.id
    ensures FirstSale(prefix + [line], line.product.id) == |prefix|
  {
    Listing.FirstWhereSnoc(prefix, line, SoldAs(line.product.id));
  }

  /** Appending the entry of a product first sold on the added line keeps
      every entry a product sold, as its first line carries it. */
  lemma NewFirst(prefix: seq<CartItem>, line: CartItem, acc: seq<ProductSales>, r: seq<ProductSales>)
    requires forall j :: 0 <= j < |acc| ==> SoldFirstAs(prefix, acc[j])
    requires forall i :: 0 <= i < |prefix| ==> prefix[i].product.id != line.product.id
    requires r == acc + [ProductSales(line.product, line.quantity, line.subtotal)]
    ensures forall j :: 0 <= j < |r| ==> SoldFirstAs(prefix + [line], r[j])
  {
    forall j | 0 <= j < |r| ensures SoldFirstAs(prefix + [line], r[j]) {
      if j < |acc| {
        EarlierSaleStays(prefix, line, acc[j]);
      } else {
        NewSaleFirst(prefix, line);
        assert (prefix + [line])[|prefix|] == line;
      }
    }
  }

  /** One more line adds to the totals of its own product only. */
  lemma TalliedLineAdds(prefix: seq<CartItem>, line: CartItem, id: string)
    ensures QuantityOf(prefix + [line], id) == QuantityOf(prefix, id) + (if line.product.id == id then line.quantity else 0)
    ensures RevenueOf(prefix + [line], id) == RevenueOf(prefix, id) + (if line.product.id == id then line.subtotal else 0.0)
  {
    assert Init(prefix + [line]) == prefix;
  }

  /** Two tallies listing the same products in the same order. */
  lemma SameProducts(acc: seq<ProductSales>, r: seq<ProductSales>)
    requires |acc| == |r| && DistinctProducts(acc)
    requires forall j :: 0 <= j < |r| ==> r[j].product == acc[j].product
    ensures DistinctProducts(r)
  {
  }

  /** Tallying a line of a product without an entry appends its entry and
      keeps `acc` the tally of the lines, with that line added. */
  lemma TallyNew(prefix: seq<CartItem>, line: CartItem, acc: seq<ProductSales>)
    requires TallyOf(prefix, acc) && FindSales(acc, line.product.id).None?
    ensures TallyOf(prefix + [line], Tally(acc, line))
  {
    var id := line.product.id;
    forall i | 0 <= i < |prefix| ensures prefix[i].product.id != id {
      assert FindSales(acc, prefix[i].product.id).Some?;
    }
    QuantityOfAbsent(prefix, id);
    var r := Tally(acc, line);
    assert r == acc + [ProductSales(line.product, line.quantity, line.subtotal)];
    NewSums(prefix, line, acc, r);
    NewFound(prefix, line, acc, r);
    NewFirst(prefix, line, acc, r);
    NewDistinct(acc, r[|acc|]);
  }

  /** Appending the entry of a product no entry has keeps the products
      distinct. */
  lemma NewDistinct(acc: seq<ProductSales>, entry: ProductSales)
    requires DistinctProducts(acc)
    requires forall i :: 0 <= i < |acc| ==> acc[i].product.id != entry.product.id
    ensures DistinctProducts(acc + [entry])
  {
  }

  /** Appending the entry of a new product keeps every entry equal to the
      sums of its product's lines. */
  lemma NewSums(prefix: seq<CartItem>, line: CartItem, acc: seq<ProductSales>, r: seq<ProductSales>)
    requires FindSales(acc, line.product.id).None?
    requires QuantityOf(prefix, line.product.id) == 0 && RevenueOf(prefix, line.product.id) == 0.0
    requires forall j :: 0 <= j < |acc| ==>
      acc[j].quantitySold == QuantityOf(prefix, acc[j].product.id) && acc[j].revenue == RevenueOf(prefix, acc[j].product.id)
    requires r == acc + [ProductSales(line.product, line.quantity, line.subtotal)]
    ensures forall j :: 0 <= j < |r| ==>
      && r[j].quantitySold == QuantityOf(prefix + [line], r[j].product.id)
      && r[j].revenue == RevenueOf(prefix + [line], r[j].product.id)
  {
    forall j | 0 <= j < |r|
      ensures r[j].quantitySold == QuantityOf(prefix + [line], r[j].product.id)
      ensures r[j].revenue == RevenueOf(prefix + [line], r[j].product.id)
    {
      TalliedLineAdds(prefix, line, r[j].product.id);
    }
  }

  /** Appending the entry of a new product keeps an entry for every product
      sold. */
  lemma NewFound(prefix: seq<CartItem>, line: CartItem, acc: seq<ProductSales>, r: seq<ProductSales>)
    requires forall i :: 0 <= i < |prefix| ==> FindSales(acc, prefix[i].product.id).Some?
    requires r == acc + [ProductSales(line.product, line.quantity, line.subtotal)]
    ensures forall i :: 0 <= i < |prefix + [line]| ==> FindSales(r, (prefix + [line])[i].product.id).Some?
  {
    var lines := prefix + [line];
    forall i | 0 <= i < |lines| ensures FindSales(r, lines[i].product.id).Some? {
      if i < |prefix| {
        assert lines[i] == prefix[i];
        var m := FindSales(acc, prefix[i].product.id).value;
        assert r[m].product.id == prefix[i].product.id;
      } else {
        assert r[|acc|].product.id == lines[i].product.id;
      }
    }
  }

  /** `sort((a, b) => b.revenue - a.revenue)` is stable: an entry goes before
      the first entry whose revenue does not exceed its own. */
  function InsertByRevenue(x: ProductSales, s: seq<ProductSales>): seq<ProductSales> {
    if |s| == 0 then [x]
    else if x.revenue >= s[0].revenue then [x] + s
    else [s[0]] + InsertByRevenue(x, s[1..])
  }

  function SortByRevenue(s: seq<ProductSales>): seq<ProductSales> {
    if |s| == 0 then [] else InsertByRevenue(s[0], SortByRevenue(s[1..]))
  }

  predicate NonIncreasing(s: seq<ProductSales>) {
    forall i, j :: 0 <= i < j < |s| ==> s[i].revenue >= s[j].revenue
  }

  /** The entries of revenue `v`, in order. */
  function WithRevenue(s: seq<ProductSales>, v: real): seq<ProductSales> {
    if |s| == 0 then [] else (if s[0].revenue == v then [s[0]] else []) + WithRevenue(s[1..], v)
  }

  /** A head no smaller than every later entry keeps a sorted tail sorted. */
  lemma ConsNonIncreasing(h: ProductSales, t: seq<ProductSales>)
    requires NonIncreasing(t)
    requires forall j :: 0 <= j < |t| ==> h.revenue >= t[j].revenue
    ensures NonIncreasing([h] + t)
  {
  }

  lemma {:induction false} InsertByRevenuePermutes(x: ProductSales, s: seq<ProductSales>)
    ensures multiset(InsertByRevenue(x, s)) == multiset([x] + s)
  {
    if |s| > 0 && x.revenue < s[0].revenue {
      InsertByRevenuePermutes(x, s[1..]);
      assert s == [s[0]] + s[1..];
    }
  }

  lemma {:induction false} InsertByRevenueSorted(x: ProductSales, s: seq<ProductSales>)
    requires NonIncreasing(s)
    ensures NonIncreasing(InsertByRevenue(x, s))
  {
    if |s| == 0 {
    } else if x.revenue >= s[0].revenue {
      ConsNonIncreasing(x, s);
    } else {
      var rest := InsertByRevenue(x, s[1..]);
      InsertByRevenueSorted(x, s[1..]);
      InsertByRevenuePermutes(x, s[1..]);
      forall j | 0 <= j < |rest| ensures s[0].revenue >= rest[j].revenue {
        assert rest[j] in multiset(rest);
        assert rest[j] in multiset([x] + s[1..]);
        if rest[j] != x {
          assert rest[j] in s[1..];
        }
      }
      ConsNonIncreasing(s[0], rest);
    }
  }

  /** The entries of revenue `v` in a list with one more entry in front. */
  lemma WithRevenueCons(h: ProductSales, t: seq<ProductSales>, v: real)
    ensures WithRevenue([h] + t, v) == (if h.revenue == v then [h] else []) + WithRevenue(t, v)
  {
    assert ([h] + t)[1..] == t;
  }

  /** An entry that passes a head of larger revenue does not change the
      order among the entries of any one revenue. */
  lemma PassedStable(x: ProductSales, h: ProductSales, t: seq<ProductSales>, ins: seq<ProductSales>, v: real)
    requires x.revenue < h.revenue
    requires WithRevenue(ins, v) == WithRevenue([x] + t, v)
    ensures WithRevenue([h] + ins, v) == WithRevenue([x] + ([h] + t), v)
  {
    WithRevenueCons(h, ins, v);
    WithRevenueCons(x, t, v);
    WithRevenueCons(h, t, v);
    WithRevenueCons(x, [h] + t, v);
    assert x.revenue != v || h.revenue != v;
  }

  lemma {:induction false} InsertByRevenueStable(x: ProductSales, s: seq<ProductSales>, v: real)
    ensures WithRevenue(InsertByRevenue(x, s), v) == WithRevenue([x] + s, v)
  {
    if |s| > 0 && x.revenue < s[0].revenue {
      var t := s[1..];
      var ins := InsertByRevenue(x, t);
      InsertByRevenueStable(x, t, v);
      assert s == [s[0]] + t;
      assert InsertByRevenue(x, s) == [s[0]] + ins;
      PassedStable(x, s[0], t, ins, v);
    } else {
      assert InsertByRevenue(x, s) == [x] + s;
    }
  }

  /** The sort orders by non-increasing revenue, keeps every entry, and keeps
      entries of equal revenue in their original order. */
  lemma {:induction false} SortByRevenueSpec(s: seq<ProductSales>)
    ensures NonIncreasing(SortByRevenue(s))
    ensures multiset(SortByRevenue(s)) == multiset(s)
    ensures forall v :: WithRevenue(SortByRevenue(s), v) == WithRevenue(s, v)
  {
    if |s| > 0 {
      var rest := SortByRevenue(s[1..]);
      SortByRevenueSpec(s[1..]);
      InsertByRevenueSorted(s[0], rest);
      InsertByRevenuePermutes(s[0], rest);
      assert s == [s[0]] + s[1..];
      forall v ensures WithRevenue(SortByRevenue(s), v) == WithRevenue(s, v) {
        InsertByRevenueStable(s[0], rest, v);
        assert ([s[0]] + rest)[1..] == rest;
      }
    }
  }

  /** Distinct products stay distinct through an insertion of a new one. */
  lemma ConsDistinct(h: ProductSales, t: seq<ProductSales>)
    requires DistinctProducts(t)
    requires forall j :: 0 <= j < |t| ==> t[j].product.id != h.product.id
    ensures DistinctProducts([h] + t)
  {
  }

  lemma {:induction false} InsertByRevenueDistinct(x: ProductSales, s: seq<ProductSales>)
    requires DistinctProducts(s)
    requires forall j :: 0 <= j < |s| ==> s[j].product.id != x.product.id
    ensures DistinctProducts(InsertByRevenue(x, s))
  {
    if |s| == 0 {
    } else if x.revenue >= s[0].revenue {
      ConsDistinct(x, s);
    } else {
      var rest := InsertByRevenue(x, s[1..]);
      InsertByRevenueDistinct(x, s[1..]);
      InsertByRevenuePermutes(x, s[1..]);
      forall j | 0 <= j < |rest| ensures rest[j].product.id != s[0].product.id {
        assert rest[j] in multiset([x] + s[1..]);
        if rest[j] != x {
          assert rest[j] in s[1..];
          var m :| 0 <= m < |s[1..]| && s[1..][m] == rest[j];
          assert s[m + 1] == rest[j];
        }
      }
      ConsDistinct(s[0], rest);
    }
  }

  lemma {:induction false} SortByRevenueDistinct(s: seq<ProductSales>)
    requires DistinctProducts(s)
    ensures DistinctProducts(SortByRevenue(s))
  {
    if |s| > 0 {
      var rest := SortByRevenue(s[1..]);
      SortByRevenueDistinct(s[1..]);
      SortByRevenueSpec(s[1..]);
      forall j | 0 <= j < |rest| ensures rest[j].product.id != s[0].product.id {
        assert rest[j] in multiset(s[1..]);
        assert rest[j] in s[1..];
        var m :| 0 <= m < |s[1..]| && s[1..][m] == rest[j];
        assert s[m + 1] == rest[j];
      }
      InsertByRevenueDistinct(s[0], rest);
    }
  }

  /** At most ten products are shown. */
  const TopCount := 10

  /** `calculateTopProducts` as a value: the per-product totals sorted by
      revenue, best first, cut to the first ten. */
  function TopProductsOf(lines: seq<CartItem>): seq<ProductSales> {
    var sorted := SortByRevenue(Tallied(lines));
    if |sorted| <= TopCount then sorted else sorted[..TopCount]
  }

  /** The top products are at most ten distinct products, best revenue
      first; each carries the units and the revenue of all of its lines; and
      no product left out earned more than any product kept. */
  lemma TopProductsRanked(lines: seq<CartItem>)
    ensures var all, top := Tallied(lines), TopProductsOf(lines);
      && |top| == (if |all| <= TopCount then |all| else TopCount)
      && NonIncreasing(top)
      && DistinctProducts(top)
      && (forall k :: 0 <= k < |top| ==>
           && top[k].quantitySold == QuantityOf(lines, top[k].product.id)
           && top[k].revenue == RevenueOf(lines, top[k].product.id))
      && (forall k :: 0 <= k < |top| ==> top[k] in all && SoldFirstAs(lines, top[k]))
      && (forall e, k :: e in all && e !in top && 0 <= k < |top| ==> e.revenue <= top[k].revenue)
  {
    var all := Tallied(lines);
    var sorted := SortByRevenue(all);
    var top := TopProductsOf(lines);
    TalliedTotals(lines);
    SortByRevenueKeeps(all);
    SortByRevenueDistinct(all);
    assert top == sorted[..|top|];
    CutKeepsOrder(sorted, |top|);
    CutFromTally(all, sorted, top);
    TopKeepsSums(lines, all, top);
    TopBeatsRest(all, sorted, top);
  }

  /** A cut of the sorted tally holds entries of the tally only. */
  lemma CutFromTally(all: seq<ProductSales>, sorted: seq<ProductSales>, top: seq<ProductSales>)
    requires multiset(sorted) == multiset(all)
    requires |top| <= |sorted| && top == sorted[..|top|]
    ensures forall k :: 0 <= k < |top| ==> top[k] in all
  {
    forall k | 0 <= k < |top| ensures top[k] in all {
      assert top[k] == sorted[k];
      assert sorted[k] in multiset(all);
    }
  }

  /** The sorted entries are ordered and are the same entries. */
  lemma SortByRevenueKeeps(s: seq<ProductSales>)
    ensures NonIncreasing(SortByRevenue(s)) && multiset(SortByRevenue(s)) == multiset(s)
    ensures |SortByRevenue(s)| == |s|
  {
    SortByRevenueSpec(s);
    assert |multiset(SortByRevenue(s))| == |multiset(s)|;
  }

  /** The first `n` entries of an ordered list of distinct products are
      ordered and distinct. */
  lemma CutKeepsOrder(s: seq<ProductSales>, n: nat)
    requires n <= |s| && NonIncreasing(s) && DistinctProducts(s)
    ensures NonIncreasing(s[..n]) && DistinctProducts(s[..n])
  {
  }

  /** Entries taken from the tally carry their product's sums and are
      products sold, each as its first line carries it. */
  lemma TopKeepsSums(lines: seq<CartItem>, all: seq<ProductSales>, top: seq<ProductSales>)
    requires forall k :: 0 <= k < |all| ==>
      all[k].quantitySold == QuantityOf(lines, all[k].product.id) && all[k].revenue == RevenueOf(lines, all[k].product.id)
    requires forall k :: 0 <= k < |all| ==> SoldFirstAs(lines, all[k])
    requires forall k :: 0 <= k < |top| ==> top[k] in all
    ensures forall k :: 0 <= k < |top| ==>
      && top[k].quantitySold == QuantityOf(lines, top[k].product.id)
      && top[k].revenue == RevenueOf(lines, top[k].product.id)
      && SoldFirstAs(lines, top[k])
  {
    forall k | 0 <= k < |top|
      ensures top[k].quantitySold == QuantityOf(lines, top[k].product.id)
      ensures top[k].revenue == RevenueOf(lines, top[k].product.id)
      ensures SoldFirstAs(lines, top[k])
    {
      var m :| 0 <= m < |all| && all[m] == top[k];
    }
  }

  /** No entry left out of a cut of the sorted tally beats one kept. */
  lemma TopBeatsRest(all: seq<ProductSales>, sorted: seq<ProductSales>, top: seq<ProductSales>)
    requires NonIncreasing(sorted) && multiset(sorted) == multiset(all)
    requires |top| <= |sorted| && top == sorted[..|top|]
    ensures forall e, k :: e in all && e !in top && 0 <= k < |top| ==> e.revenue <= top[k].revenue
  {
    forall e, k | e in all && e !in top && 0 <= k < |top| ensures e.revenue <= top[k].revenue {
      assert e in multiset(sorted);
      var i :| 0 <= i < |sorted| && sorted[i] == e;
      assert top[k] == sorted[k];
    }
  }

  lemma TalliedStep(seen: seq<CartItem>, items: seq<CartItem>, j: nat)
    requires j < |items|
    ensures Tallied(seen + items[..j + 1]) == Tally(Tallied(seen + items[..j]), items[j])
  {
    assert seen + items[..j + 1] == (seen + items[..j]) + [items[j]];
    assert Init((seen + items[..j]) + [items[j]]) == seen + items[..j];
  }

  lemma AllLinesStep(ts: seq<Transaction>, i: nat)
    requires i < |ts|
    ensures AllLines(ts[..i + 1]) == AllLines(ts[..i]) + ts[i].items
  {
    assert Init(ts[..i + 1]) == ts[..i];
  }

  /** The body of the inner loop of `calculateTopProducts`: the line's
      units and subtotal added to its product's entry, or a new entry. */
  method CountSale(acc: seq<ProductSales>, item: CartItem) returns (next: seq<ProductSales>)
    ensures next == Tally(acc, item)
  {
    match FindSales(acc, item.product.id) {
      case Some(k) =>
        next := acc[k := acc[k].(quantitySold := acc[k].quantitySold + item.quantity, revenue := acc[k].revenue + item.subtotal)];
      case None =>
        next := acc + [ProductSales(item.product, item.quantity, item.subtotal)];
    }
  }

  /** `calculateTopProducts`: a map keyed by product id, filled line by line
      over every sale, then sorted and cut. */
  method CalculateTopProducts(ts: seq<Transaction>) returns (top: seq<ProductSales>)
    ensures top == TopProductsOf(AllLines(ts))
  {
    var acc: seq<ProductSales> := [];
    for i := 0 to |ts|
      invariant acc == Tallied(AllLines(ts[..i]))
    {
      var items := ts[i].items;
      assert AllLines(ts[..i]) + items[..0] == AllLines(ts[..i]);
      for j := 0 to |items|
        invariant acc == Tallied(AllLines(ts[..i]) + items[..j])
      {
        acc := CountSale(acc, items[j]);
        TalliedStep(AllLines(ts[..i]), items, j);
      }
      assert items[..|items|] == items;
      AllLinesStep(ts, i);
    }
    assert ts[..|ts|] == ts;
    var sorted := SortByRevenue(acc);
    top := if |sorted| <= TopCount then sorted else sorted[..TopCount];
  }

  // ---------------------------------------------------------------------------
  // Stock alerts

  /** The alert status of a product, if it has one: out of stock at 0,
      otherwise critical at half the minimum or below and low up to the
      minimum; a product without a stock or a minimum is never alerted. */
  function Classify(p: Product): (s: Option<StockStatus>)
    ensures s.Some? ==> p.stock.Some? && p.minStock.Some?
  {
    if p.stock.None? || p.minStock.None? then None
    else if p.stock.value == 0 then Some(StockOut)
    else if p.stock.value <= p.minStock.value then
      Some(if p.stock.value as real <= p.minStock.value as real / 2.0 then StockCritical else StockLow)
    else None
  }

  /** The bands in integer terms: out means a stock of exactly 0; critical
      means a non-zero stock at most the minimum whose double is at most the
      minimum; low means a stock at most the minimum whose double exceeds it. */
  lemma ClassifyBands(p: Product)
    ensures Classify(p) == Some(StockOut) <==> p.stock == Some(0) && p.minStock.Some?
    ensures Classify(p) == Some(StockCritical) <==>
      p.stock.Some? && p.minStock.Some? && p.stock.value != 0
      && p.stock.value <= p.minStock.value && 2 * p.stock.value <= p.minStock.value
    ensures Classify(p) == Some(StockLow) <==>
      p.stock.Some? && p.minStock.Some? && p.stock.value != 0
      && p.stock.value <= p.minStock.value && 2 * p.stock.value > p.minStock.value
    ensures Classify(p).None? <==>
      p.stock.None? || p.minStock.None? || (p.stock.value != 0 && p.stock.value > p.minStock.value)
  {
  }

  /** The alert of one product, carrying its stock and its minimum. */
  function AlertFor(p: Product): Option<StockAlert> {
    match Classify(p)
    case None => None
    case Some(s) => Some(StockAlert(p, p.stock.value, p.minStock.value, s))
  }

  /** The alerts in catalog order, before sorting: exactly the alerts of the
      products that have one. */
  function RawAlerts(ps: seq<Product>): (r: seq<StockAlert>)
    ensures forall a :: a in r ==> AlertFor(a.product) == Some(a)
    ensures forall i :: 0 <= i < |ps| && AlertFor(ps[i]).Some? ==> AlertFor(ps[i]).value in r
  {
    if |ps| == 0 then []
    else
      assert ps == Init(ps) + [Last(ps)];
      RawAlerts(Init(ps)) + (match AlertFor(Last(ps)) case Some(a) => [a] case None => [])
  }

  /** One more product adds its alert, if it has one, at the end. */
  lemma RawAlertsStep(ps: seq<Product>, i: nat)
    requires i < |ps|
    ensures RawAlerts(ps[..i + 1]) == RawAlerts(ps[..i]) + (match AlertFor(ps[i]) case Some(a) => [a] case None => [])
  {
    assert Init(ps[..i + 1]) == ps[..i];
  }

  /** `r` is the alerts of the products of `ps` at the positions `at`, in
      catalog order: the i-th alert is the one product `ps[at[i]]` raises,
      and the positions strictly increase. */
  predicate AlertsAt(r: seq<StockAlert>, ps: seq<Product>, at: seq<nat>) {
    && |at| == |r|
    && (forall i :: 0 <= i < |at| ==> at[i] < |ps| && AlertFor(ps[at[i]]) == Some(r[i]))
    && (forall i, j :: 0 <= i < j < |at| ==> at[i] < at[j])
  }

  /** `calculateStockAlerts` before its sort: one alert for each product of
      the catalog that raises one, and for no other, in catalog order. */
  lemma RawAlertsInCatalogOrder(ps: seq<Product>)
    ensures exists at ::
      && AlertsAt(RawAlerts(ps), ps, at)
      && forall k :: 0 <= k < |ps| ==> (AlertFor(ps[k]).Some? <==> k in at)
  {
    RawAlertsAt(ps);
  }

  /** The positions of the products that raise an alert, ascending. */
  function AlertPositions(ps: seq<Product>): seq<nat> {
    if |ps| == 0 then [] else AlertPositions(Init(ps)) + (if AlertFor(Last(ps)).Some? then [|ps| - 1] else [])
  }

  lemma {:induction false} RawAlertsAt(ps: seq<Product>)
    ensures AlertsAt(RawAlerts(ps), ps, AlertPositions(ps))
    ensures forall k :: 0 <= k < |ps| ==> (AlertFor(ps[k]).Some? <==> k in AlertPositions(ps))
  {
    if |ps| > 0 {
      var pre := Init(ps);
      assert ps == pre + [Last(ps)];
      RawAlertsAt(pre);
      AlertsAtSnoc(RawAlerts(pre), pre, AlertPositions(pre), Last(ps));
    }
  }

  /** One more product at the end of the catalog adds its alert, if it
      raises one, at its own position. */
  lemma AlertsAtSnoc(r: seq<StockAlert>, ps: seq<Product>, at: seq<nat>, p: Product)
    requires AlertsAt(r, ps, at)
    requires forall k :: 0 <= k < |ps| ==> (AlertFor(ps[k]).Some? <==> k in at)
    ensures var r', at' := r + (match AlertFor(p) case Some(a) => [a] case None => []),
                           at + (if AlertFor(p).Some? then [|ps|] else []);
      && AlertsAt(r', ps + [p], at')
      && forall k :: 0 <= k < |ps| + 1 ==> (AlertFor((ps + [p])[k]).Some? <==> k in at')
  {
    var qs := ps + [p];
    forall i | 0 <= i < |at| ensures qs[at[i]] == ps[at[i]] { }
    assert qs[|ps|] == p;
    assert |ps| !in at;
  }

  /** The alerts of status `st`, in order. */
  function WithStatus(alerts: seq<StockAlert>, st: StockStatus): (r: seq<StockAlert>)
    ensures forall i :: 0 <= i < |r| ==> r[i].status == st
  {
    var r := Where(alerts, StatusIs(st));
    assert forall i :: 0 <= i < |r| ==> r[i] in r;
    r
  }

  /** The test `a.status === st`. */
  function StatusIs(st: StockStatus): StockAlert -> bool {
    (a: StockAlert) => a.status == st
  }

  /** The sort key: out before critical before low. */
  function Priority(st: StockStatus): nat {
    match st
    case StockOut => 0
    case StockCritical => 1
    case StockLow => 2
  }

  /** The stable sort of the alerts by priority, written as its three runs. */
  function Prioritized(alerts: seq<StockAlert>): seq<StockAlert> {
    WithStatus(alerts, StockOut) + WithStatus(alerts, StockCritical) + WithStatus(alerts, StockLow)
  }

  lemma WithStatusSplit(a: seq<StockAlert>, b: seq<StockAlert>, st: StockStatus)
    ensures WithStatus(a + b, st) == WithStatus(a, st) + WithStatus(b, st)
  {
    WhereSplit(a, b, StatusIs(st));
  }

  lemma WithStatusTwice(alerts: seq<StockAlert>, st: StockStatus, st': StockStatus)
    ensures WithStatus(WithStatus(alerts, st), st') == if st == st' then WithStatus(alerts, st) else []
  {
    if st == st' {
      WithStatusSame(alerts, st);
    } else {
      WithStatusOther(alerts, st, st');
    }
  }

  /** Selecting a status again keeps every alert already selected. */
  lemma WithStatusSame(alerts: seq<StockAlert>, st: StockStatus)
    ensures WithStatus(WithStatus(alerts, st), st) == WithStatus(alerts, st)
  {
    var r := WithStatus(alerts, st);
    assert forall i :: 0 <= i < |r| ==> StatusIs(st)(r[i]);
  }

  /** Selecting another status among the alerts of one status finds none. */
  lemma WithStatusOther(alerts: seq<StockAlert>, st: StockStatus, st': StockStatus)
    requires st != st'
    ensures WithStatus(WithStatus(alerts, st), st') == []
  {
    var r := WithStatus(alerts, st);
    assert forall i :: 0 <= i < |r| ==> !StatusIs(st')(r[i]);
    WhereNone(r, StatusIs(st'));
  }

  /** Each alert of status `st` occurs among the alerts of that status as
      often as among all alerts; an alert of another status does not occur. */
  lemma {:induction false} WithStatusCount(alerts: seq<StockAlert>, st: StockStatus, x: StockAlert)
    ensures multiset(WithStatus(alerts, st))[x] == if x.status == st then multiset(alerts)[x] else 0
  {
    if |alerts| > 0 {
      var h, rest := alerts[0], alerts[1..];
      WithStatusCount(rest, st, x);
      assert alerts == [h] + rest;
      assert WithStatus(alerts, st) == (if h.status == st then [h] else []) + WithStatus(rest, st);
    }
  }

  /** The three status runs together hold every alert, as often as it occurs. */
  lemma WithStatusPartition(alerts: seq<StockAlert>)
    ensures multiset(WithStatus(alerts, StockOut)) + multiset(WithStatus(alerts, StockCritical))
      + multiset(WithStatus(alerts, StockLow)) == multiset(alerts)
  {
    var m := multiset(WithStatus(alerts, StockOut)) + multiset(WithStatus(alerts, StockCritical))
      + multiset(WithStatus(alerts, StockLow));
    forall x: StockAlert ensures m[x] == multiset(alerts)[x] {
      WithStatusCount(alerts, StockOut, x);
      WithStatusCount(alerts, StockCritical, x);
      WithStatusCount(alerts, StockLow, x);
    }
  }

  /** The sorted alerts put every out-of-stock alert first, then the critical
      ones, then the low ones. */
  lemma PrioritizedOrdered(alerts: seq<StockAlert>)
    ensures var r := Prioritized(alerts);
      forall i, j :: 0 <= i < j < |r| ==> Priority(r[i].status) <= Priority(r[j].status)
  {
    var o, c, l := WithStatus(alerts, StockOut), WithStatus(alerts, StockCritical), WithStatus(alerts, StockLow);
    var r := Prioritized(alerts);
    forall i | 0 <= i < |r|
      ensures Priority(r[i].status) == if i < |o| then 0 else if i < |o| + |c| then 1 else 2
    {
      if i < |o| {
        assert r[i] == o[i];
      } else if i < |o| + |c| {
        assert r[i] == c[i - |o|];
      } else {
        assert r[i] == l[i - |o| - |c|];
      }
    }
  }

  /** Sorting the alerts neither drops nor adds one. */
  lemma PrioritizedPermutes(alerts: seq<StockAlert>)
    ensures multiset(Prioritized(alerts)) == multiset(alerts)
  {
    WithStatusPartition(alerts);
  }

  /** Alerts of one status keep their catalog order through the sort. */
  lemma PrioritizedStable(alerts: seq<StockAlert>, st: StockStatus)
    ensures WithStatus(Prioritized(alerts), st) == WithStatus(alerts, st)
  {
    var o, c, l := WithStatus(alerts, StockOut), WithStatus(alerts, StockCritical), WithStatus(alerts, StockLow);
    WithStatusSplit(o + c, l, st);
    WithStatusSplit(o, c, st);
    OneRunOfThree(alerts, st);
  }

  /** Of the three status runs, only the run of `st` has alerts of status
      `st`. */
  lemma OneRunOfThree(alerts: seq<StockAlert>, st: StockStatus)
    ensures WithStatus(WithStatus(alerts, StockOut), st) + WithStatus(WithStatus(alerts, StockCritical), st)
      + WithStatus(WithStatus(alerts, StockLow), st) == WithStatus(alerts, st)
  {
    var r := WithStatus(alerts, st);
    match st {
      case StockOut =>
        WithStatusSame(alerts, StockOut);
        WithStatusOther(alerts, StockCritical, StockOut);
        WithStatusOther(alerts, StockLow, StockOut);
        assert r + [] + [] == r;
      case StockCritical =>
        WithStatusOther(alerts, StockOut, StockCritical);
        WithStatusSame(alerts, StockCritical);
        WithStatusOther(alerts, StockLow, StockCritical);
        assert [] + r + [] == r;
      case StockLow =>
        WithStatusOther(alerts, StockOut, StockLow);
        WithStatusOther(alerts, StockCritical, StockLow);
        WithStatusSame(alerts, StockLow);
        assert [] + [] + r == r;
    }
  }

  /** `calculateStockAlerts`: one pass over the catalog collecting alerts,
      then the sort by priority. */
  method CalculateStockAlerts(products: seq<Product>) returns (alerts: seq<StockAlert>)
    ensures alerts == Prioritized(RawAlerts(products))
  {
    var raw: seq<StockAlert> := [];
    for i := 0 to |products|
      invariant raw == RawAlerts(products[..i])
    {
      var p := products[i];
      RawAlertsStep(products, i);
      if p.stock.Some? && p.minStock.Some? {
        if p.stock.value == 0 {
          raw := raw + [StockAlert(p, p.stock.value, p.minStock.value, StockOut)];
        } else if p.stock.value <= p.minStock.value {
          var status := if p.stock.value as real <= p.minStock.value as real / 2.0 then StockCritical else StockLow;
          raw := raw + [StockAlert(p, p.stock.value, p.minStock.value, status)];
        }
      }
    }
    assert products[..|products|] == products;
    alerts := Prioritized(raw);
  }

  // ---------------------------------------------------------------------------
  // Dashboard

  /** The `dashboardStats` derived store: today's revenue and number of
      sales, the average ticket, the change against yesterday, today's hourly
      histogram and top products, and the stock alerts of the catalog. The
      calendar keys of today and yesterday are parameters. */
  method DashboardOf(history: seq<Transaction>, today: int, yesterday: int, products: seq<Product>)
    returns (stats: DashboardStats)
    ensures stats.todayRevenue == Revenue(OnDay(history, today))
    ensures stats.todayTransactions == |OnDay(history, today)|
    ensures stats.averageTicket == AverageTicket(stats.todayRevenue, stats.todayTransactions)
    ensures stats.comparisonYesterday == Comparison(stats.todayRevenue, Revenue(OnDay(history, yesterday)))
    ensures stats.hourlyData == HourlyOf(OnDay(history, today))
    ensures stats.topProducts == TopProductsOf(AllLines(OnDay(history, today)))
    ensures stats.stockAlerts == Prioritized(RawAlerts(products))
  {
    var todays := OnDay(history, today);
    var yesterdays := OnDay(history, yesterday);
    var todayRevenue := Revenue(todays);
    var yesterdayRevenue := Revenue(yesterdays);
    var hourly := CalculateHourlyData(todays);
    var top := CalculateTopProducts(todays);
    var alerts := CalculateStockAlerts(products);
    stats := DashboardStats(
      todayRevenue,
      |todays|,
      AverageTicket(todayRevenue, |todays|),
      Comparison(todayRevenue, yesterdayRevenue),
      top,
      alerts,
      hourly);
  }
}
