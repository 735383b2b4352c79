/** The traffic analysis of the sales in a trailing window
    (src/lib/stores/transactions.ts, lines 196-299): the average number of
    customers of each operating hour over the days that saw that hour busy,
    the level of each hour against the busiest one, the staff
    recommendations, the average per hour, and the busiest and quietest days
    of the week. The cutoff instant of the window is a parameter. */
module Traffic {
  import opened Wrappers
  import opened Types
  import opened Listing
  import opened Transactions
  import Staffing

  // ---------------------------------------------------------------------------
  // Per-hour averages

  /** The calendar days that had a sale in hour `h`. */
  function DaysAt(ts: seq<Transaction>, h: int): set<int> {
    if |ts| == 0 then {}
    else DaysAt(Init(ts), h) + (if Last(ts).timestamp.hour == h then {Last(ts).timestamp.dayKey} else {})
  }

  /** The (day, hour) pairs that had a sale: the keys of the day-by-hour map
      that `analyzeTraffic` fills. */
  function PairsOf(ts: seq<Transaction>): set<(int, int)> {
    if |ts| == 0 then {}
    else PairsOf(Init(ts)) + {(Last(ts).timestamp.dayKey, Last(ts).timestamp.hour as int)}
  }

  /** A (day, hour) pair was seen exactly when that day had a sale in that hour. */
  lemma {:induction false} PairsAreDays(ts: seq<Transaction>, d: int, h: int)
    ensures (d, h) in PairsOf(ts) <==> d in DaysAt(ts, h)
  {
    if |ts| > 0 {
      PairsAreDays(Init(ts), d, h);
    }
  }

  /** An hour is busy on at most as many days as it has sales, and on no day
      exactly when it has no sale. */
  lemma {:induction false} DaysBoundCount(ts: seq<Transaction>, h: int)
    ensures |DaysAt(ts, h)| <= CountAt(ts, h)
    ensures |DaysAt(ts, h)| == 0 <==> CountAt(ts, h) == 0
  {
    if |ts| > 0 {
      DaysBoundCount(Init(ts), h);
      var t := Last(ts);
      if t.timestamp.hour == h {
        var before := DaysAt(Init(ts), h);
        if t.timestamp.dayKey in before {
          assert before + {t.timestamp.dayKey} == before;
        } else {
          assert |before + {t.timestamp.dayKey}| == |before| + 1;
        }
      }
    }
  }

  /** Customers of hour `h` per day that had a sale in that hour, 0 when no
      day did. */
  function AverageAt(ts: seq<Transaction>, h: int): real {
    Ratio(CountAt(ts, h), |DaysAt(ts, h)|)
  }

  /** `days > 0 ? customers / days : 0`. */
  function Ratio(count: nat, days: nat): real {
    if days > 0 then count as real / days as real else 0.0
  }

  /** An average is never negative; it is 0 exactly for an hour without a
      sale, and otherwise at least one customer. */
  lemma AverageAtBounds(ts: seq<Transaction>, h: int)
    ensures AverageAt(ts, h) >= 0.0
    ensures AverageAt(ts, h) == 0.0 <==> CountAt(ts, h) == 0
    ensures CountAt(ts, h) > 0 ==> AverageAt(ts, h) >= 1.0
  {
    var count, days := CountAt(ts, h), |DaysAt(ts, h)|;
    DaysBoundCount(ts, h);
    Quotient(count, days);
    assert AverageAt(ts, h) == Ratio(count, days);
  }

  /** The ratio times the number of days gives back the count. */
  lemma Quotient(count: nat, days: nat)
    requires days <= count && (days == 0 <==> count == 0)
    ensures Ratio(count, days) >= 0.0
    ensures Ratio(count, days) * days as real == count as real
    ensures Ratio(count, days) == 0.0 <==> count == 0
    ensures count > 0 ==> Ratio(count, days) >= 1.0
  {
    if days > 0 {
      var q := count as real / days as real;
      assert q * days as real == count as real;
    }
  }

  /** The averages of the operating hours 6h..22h, in order. */
  function Averages(ts: seq<Transaction>): (r: seq<real>)
    ensures |r| == HourCount
  {
    seq(HourCount, i requires 0 <= i < HourCount => AverageAt(ts, FirstHour + i))
  }

  /** The running maximum `maxCustomers`, which starts at 0 and is replaced by
      any strictly greater average. */
  function MaxOf(xs: seq<real>): real {
    if |xs| == 0 then 0.0
    else if Last(xs) > MaxOf(Init(xs)) then Last(xs) else MaxOf(Init(xs))
  }

  /** The running maximum is at least 0, bounds every average, and is one of
      them unless it is the initial 0. */
  lemma {:induction false} MaxOfIsMax(xs: seq<real>)
    ensures MaxOf(xs) >= 0.0
    ensures forall i :: 0 <= i < |xs| ==> xs[i] <= MaxOf(xs)
    ensures MaxOf(xs) == 0.0 || exists i :: 0 <= i < |xs| && xs[i] == MaxOf(xs)
  {
    if |xs| > 0 {
      MaxOfIsMax(Init(xs));
      assert forall i :: 0 <= i < |xs| - 1 ==> xs[i] == Init(xs)[i];
      if MaxOf(xs) != 0.0 && MaxOf(xs) == MaxOf(Init(xs)) {
        var i :| 0 <= i < |Init(xs)| && Init(xs)[i] == MaxOf(Init(xs));
        assert xs[i] == MaxOf(xs);
      }
    }
  }

  /** The level of an average against the busiest hour: high from 70 % of
      it, medium from 40 %, low below. */
  function LevelOf(avg: real, max: real): Level {
    if avg >= max * 0.7 then High else if avg >= max * 0.4 then Medium else Low
  }

  function Rank(l: Level): nat {
    match l
    case Low => 0
    case Medium => 1
    case High => 2
  }

  /** A busier hour never gets a lower level; the busiest hour is high; and
      when the busiest average is 0, every hour is high. */
  lemma LevelsFollowTraffic(a: real, b: real, max: real)
    requires max >= 0.0
    ensures a <= b ==> Rank(LevelOf(a, max)) <= Rank(LevelOf(b, max))
    ensures a >= max ==> LevelOf(a, max) == High
    ensures max == 0.0 && a >= 0.0 ==> LevelOf(a, max) == High
  {
  }

  /** The peak hours of `analyzeTraffic`: one per operating hour, ascending,
      with its average and its level; the average revenue is always 0. */
  function PeakHoursOf(ts: seq<Transaction>): (r: seq<PeakHour>)
    ensures |r| == HourCount
  {
    var avgs := Averages(ts);
    var max := MaxOf(avgs);
    seq(HourCount, i requires 0 <= i < HourCount => PeakHour(FirstHour + i, avgs[i], 0.0, LevelOf(avgs[i], max)))
  }

  /** The peak hours are 6h..22h in increasing order, so keeping only the
      hours 6..22 keeps them all; the busiest hour is high. */
  lemma PeakHoursShape(ts: seq<Transaction>)
    ensures forall i :: 0 <= i < HourCount ==> PeakHoursOf(ts)[i].hour == FirstHour + i
    ensures forall i :: 0 <= i < HourCount ==> FirstHour <= PeakHoursOf(ts)[i].hour <= LastHour
    ensures Staffing.Increasing(PeakHoursOf(ts))
    ensures forall i :: 0 <= i < HourCount && Averages(ts)[i] == MaxOf(Averages(ts)) ==> PeakHoursOf(ts)[i].level == High
  {
    MaxOfIsMax(Averages(ts));
  }

  /** With no sale in the operating hours, every hour is high and the advice
      is one run from 6h to 23h with three staff. */
  lemma NoTrafficAllHigh(ts: seq<Transaction>)
    requires forall h :: FirstHour <= h <= LastHour ==> CountAt(ts, h) == 0
    ensures forall i :: 0 <= i < HourCount ==> PeakHoursOf(ts)[i].level == High
    ensures Staffing.Runs(PeakHoursOf(ts)) == [Staffing.CreateRecommendation(FirstHour, LastHour + 1, High)]
    ensures Staffing.Runs(PeakHoursOf(ts))[0].recommendedStaff == 3
  {
    var ph := PeakHoursOf(ts);
    NoTrafficLevels(ts);
    AllHighOneRun(ph);
  }

  /** With no sale in the operating hours every average is 0, so every hour
      is high. */
  lemma NoTrafficLevels(ts: seq<Transaction>)
    requires forall h :: FirstHour <= h <= LastHour ==> CountAt(ts, h) == 0
    ensures forall i :: 0 <= i < HourCount ==> PeakHoursOf(ts)[i].level == High
  {
    var avgs := Averages(ts);
    forall i | 0 <= i < HourCount ensures avgs[i] == 0.0 {
      AverageAtBounds(ts, FirstHour + i);
    }
    MaxOfZeros(avgs);
  }

  /** Operating hours that are all high make one run from the first hour to
      the end of the last, with three staff. */
  lemma AllHighOneRun(ph: seq<PeakHour>)
    requires |ph| == HourCount && ph[0].hour == FirstHour && Last(ph).hour == LastHour
    requires forall i :: 0 <= i < |ph| ==> ph[i].level == High
    ensures Staffing.Runs(ph) == [Staffing.CreateRecommendation(FirstHour, LastHour + 1, High)]
    ensures Staffing.Runs(ph)[0].recommendedStaff == 3
  {
    var r := Staffing.Runs(ph);
    Staffing.RunsTile(ph);
    Staffing.RunsOneLevel(ph, High);
    assert r[0] == Staffing.CreateRecommendation(r[0].startHour, r[0].endHour, r[0].trafficLevel);
  }

  lemma {:induction false} MaxOfZeros(xs: seq<real>)
    requires forall i :: 0 <= i < |xs| ==> xs[i] == 0.0
    ensures MaxOf(xs) == 0.0
  {
    if |xs| > 0 {
      MaxOfZeros(Init(xs));
    }
  }

  /** The sum of the peak hours' averages. */
  function CustomersSum(ph: seq<PeakHour>): real {
    if |ph| == 0 then 0.0 else CustomersSum(Init(ph)) + Last(ph).averageCustomers
  }

  // ---------------------------------------------------------------------------
  // Days of the week

  /** The day names indexed by `getDay()`, Sunday first. */
  const DayNames: seq<string> := ["Dimanche", "Lundi", "Mardi", "Mercredi", "Jeudi", "Vendredi", "Samedi"]

  /** Seven distinct names, so counting by name is counting by day of the week. */
  lemma DayNamesDistinct()
    ensures |DayNames| == 7
    ensures forall i, j :: 0 <= i < j < 7 ==> DayNames[i] != DayNames[j]
  {
  }

  /** An entry of the `dayTotals` map: a day of the week and its sales. */
  datatype DayCount = DayCount(day: Weekday, count: nat)

  /** How many sales fell on day `d` of the week. */
  function WeekdayCount(ts: seq<Transaction>, d: int): nat {
    if |ts| == 0 then 0 else WeekdayCount(Init(ts), d) + (if Last(ts).timestamp.weekday == d then 1 else 0)
  }

  /** The index of the entry for day `d`. */
  function FindDay(entries: seq<DayCount>, d: Weekday): (k: Option<nat>)
    ensures k.None? <==> forall i :: 0 <= i < |entries| ==> entries[i].day != d
    ensures k.Some? ==> k.value < |entries| && entries[k.value].day == d
  {
    var k := FirstWhere(entries, CountOf(d));
    if k < |entries| then Some(k) else None
  }

  /** The test that finds a day's entry. */
  function CountOf(d: Weekday): DayCount -> bool {
    (entry: DayCount) => entry.day == d
  }

  /** One sale counted for its day: added to the day's entry, or a new last
      entry for a day seen for the first time. */
  function CountDay(entries: seq<DayCount>, d: Weekday): seq<DayCount> {
    match FindDay(entries, d)
    case Some(k) => entries[k := entries[k].(count := entries[k].count + 1)]
    case None => entries + [DayCount(d, 1)]
  }

  /** The per-day counts, in order of first appearance. */
  function DayCounts(ts: seq<Transaction>): seq<DayCount> {
    if |ts| == 0 then [] else CountDay(DayCounts(Init(ts)), Last(ts).timestamp.weekday)
  }

  predicate DistinctDays(entries: seq<DayCount>) {
    forall i, j :: 0 <= i < j < |entries| ==> entries[i].day != entries[j].day
  }

  /** The per-day counts `entries` describe the sales `ts`: each day once,
      with its number of sales, and exactly the days that had a sale. */
  predicate Counted(ts: seq<Transaction>, entries: seq<DayCount>) {
    && DistinctDays(entries)
    && (forall k :: 0 <= k < |entries| ==>
          entries[k].count == WeekdayCount(ts, entries[k].day) && entries[k].count > 0)
    && (forall d: Weekday :: FindDay(entries, d).Some? <==> WeekdayCount(ts, d) > 0)
  }

  /** A sale on a day already listed adds one to that day's entry. */
  lemma CountDayFound(prefix: seq<Transaction>, t: Transaction, acc: seq<DayCount>, k: nat)
    requires Counted(prefix, acc)
    requires FindDay(acc, t.timestamp.weekday) == Some(k)
    ensures Counted(prefix + [t], CountDay(acc, t.timestamp.weekday))
  {
    var r := CountDay(acc, t.timestamp.weekday);
    CountDayAddsTo(acc, t.timestamp.weekday, k);
    FoundCounts(prefix, t, acc, k, r);
    FoundDays(prefix, t, acc, r);
  }

  /** Adding a sale to its day's entry keeps every entry the number of
      sales of its day. */
  lemma FoundCounts(prefix: seq<Transaction>, t: Transaction, acc: seq<DayCount>, k: nat, r: seq<DayCount>)
    requires DistinctDays(acc)
    requires forall j :: 0 <= j < |acc| ==> acc[j].count == WeekdayCount(prefix, acc[j].day) && acc[j].count > 0
    requires FindDay(acc, t.timestamp.weekday) == Some(k)
    requires r == acc[k := acc[k].(count := acc[k].count + 1)]
    ensures forall j :: 0 <= j < |r| ==> r[j].count == WeekdayCount(prefix + [t], r[j].day) && r[j].count > 0
  {
    var ts := prefix + [t];
    assert Init(ts) == prefix && Last(ts) == t;
    forall j | 0 <= j < |r| ensures r[j].count == WeekdayCount(ts, r[j].day) {
      if j != k {
        assert acc[j].day != acc[k].day;
      }
    }
  }

  /** Adding a sale to its day's entry keeps the days listed, and the day of
      the sale was listed already. */
  lemma FoundDays(prefix: seq<Transaction>, t: Transaction, acc: seq<DayCount>, r: seq<DayCount>)
    requires forall d: Weekday :: FindDay(acc, d).Some? <==> WeekdayCount(prefix, d) > 0
    requires FindDay(acc, t.timestamp.weekday).Some?
    requires |r| == |acc| && forall j :: 0 <= j < |r| ==> r[j].day == acc[j].day
    ensures DistinctDays(acc) ==> DistinctDays(r)
    ensures forall d: Weekday :: FindDay(r, d).Some? <==> WeekdayCount(prefix + [t], d) > 0
  {
    var ts := prefix + [t];
    assert Init(ts) == prefix && Last(ts) == t;
    forall e: Weekday ensures FindDay(r, e).Some? <==> WeekdayCount(ts, e) > 0 {
      SameDaysFound(acc, r, e);
    }
  }

  /** A sale on a listed day adds one to that day's entry. */
  lemma CountDayAddsTo(acc: seq<DayCount>, d: Weekday, k: nat)
    requires FindDay(acc, d) == Some(k)
    ensures CountDay(acc, d) == acc[k := acc[k].(count := acc[k].count + 1)]
  {
  }

  /** Entries that list the same days, position by position, find the same
      days. */
  lemma SameDaysFound(acc: seq<DayCount>, r: seq<DayCount>, e: Weekday)
    requires |r| == |acc| && forall j :: 0 <= j < |r| ==> r[j].day == acc[j].day
    ensures FindDay(r, e).Some? <==> FindDay(acc, e).Some?
  {
    if FindDay(acc, e).Some? {
      assert r[FindDay(acc, e).value].day == e;
    }
    if FindDay(r, e).Some? {
      assert acc[FindDay(r, e).value].day == e;
    }
  }

  /** A sale on a day not yet listed adds a last entry with a count of one. */
  lemma CountDayNew(prefix: seq<Transaction>, t: Transaction, acc: seq<DayCount>)
    requires Counted(prefix, acc)
    requires FindDay(acc, t.timestamp.weekday).None?
    ensures Counted(prefix + [t], CountDay(acc, t.timestamp.weekday))
  {
    var ts := prefix + [t];
    var d := t.timestamp.weekday;
    assert Init(ts) == prefix && Last(ts) == t;
    var r := CountDay(acc, d);
    assert r == acc + [DayCount(d, 1)];
    assert forall j :: 0 <= j < |acc| ==> r[j] == acc[j];
    assert WeekdayCount(prefix, d) == 0;
    forall e: Weekday ensures FindDay(r, e).Some? <==> WeekdayCount(ts, e) > 0 {
      if e != d {
        assert FindDay(r, e).Some? <==> FindDay(acc, e).Some?;
      } else {
        assert r[|acc|].day == d;
      }
    }
  }

  /** The per-day counts hold each day once with its number of sales, and
      exactly the days that had a sale. */
  lemma {:induction false} DayCountsSpec(ts: seq<Transaction>)
    ensures DistinctDays(DayCounts(ts))
    ensures forall k :: 0 <= k < |DayCounts(ts)| ==>
      DayCounts(ts)[k].count == WeekdayCount(ts, DayCounts(ts)[k].day) && DayCounts(ts)[k].count > 0
    ensures forall d: Weekday :: FindDay(DayCounts(ts), d).Some? <==> WeekdayCount(ts, d) > 0
    ensures |DayCounts(ts)| == 0 <==> |ts| == 0
  {
    if |ts| > 0 {
      var prefix, t := Init(ts), Last(ts);
      assert ts == prefix + [t];
      DayCountsSpec(prefix);
      var acc := DayCounts(prefix);
      match FindDay(acc, t.timestamp.weekday) {
        case Some(k) => CountDayFound(prefix, t, acc, k);
        case None => CountDayNew(prefix, t, acc);
      }
    }
  }

  /** The running maximum of `dayTotals`: the first entry whose count beats
      every earlier one and the initial 0; none when no count is positive. */
  function FirstMax(entries: seq<DayCount>): Option<nat> {
    if |entries| == 0 then None
    else
      var prev := FirstMax(Init(entries));
      var best := match prev case None => 0 case Some(k) => if k < |entries| then entries[k].count else 0;
      if Last(entries).count > best then Some(|entries| - 1) else prev
  }

  /** The running minimum, starting from infinity: the first entry whose count
      is below every earlier one; none only for no entry at all. */
  function FirstMin(entries: seq<DayCount>): Option<nat> {
    if |entries| == 0 then None
    else
      var prev := FirstMin(Init(entries));
      match prev
      case None => Some(|entries| - 1)
      case Some(k) => if k < |entries| && Last(entries).count < entries[k].count then Some(|entries| - 1) else prev
  }

  /** The busiest entry has the highest count and ties go to the first one;
      there is none exactly when no count is positive. */
  lemma {:induction false} FirstMaxSpec(entries: seq<DayCount>)
    ensures FirstMax(entries).None? <==> forall j :: 0 <= j < |entries| ==> entries[j].count == 0
    ensures FirstMax(entries).Some? ==> var k := FirstMax(entries).value;
      && k < |entries|
      && (forall j :: 0 <= j < |entries| ==> entries[j].count <= entries[k].count)
      && (forall j :: 0 <= j < k ==> entries[j].count < entries[k].count)
  {
    if |entries| > 0 {
      FirstMaxSpec(Init(entries));
      assert forall j :: 0 <= j < |entries| - 1 ==> entries[j] == Init(entries)[j];
    }
  }

  /** The quietest entry has the lowest count and ties go to the first one;
      there is none exactly when there is no entry. */
  lemma {:induction false} FirstMinSpec(entries: seq<DayCount>)
    ensures FirstMin(entries).None? <==> |entries| == 0
    ensures FirstMin(entries).Some? ==> var k := FirstMin(entries).value;
      && k < |entries|
      && (forall j :: 0 <= j < |entries| ==> entries[k].count <= entries[j].count)
      && (forall j :: 0 <= j < k ==> entries[k].count < entries[j].count)
  {
    if |entries| > 0 {
      FirstMinSpec(Init(entries));
      assert forall j :: 0 <= j < |entries| - 1 ==> entries[j] == Init(entries)[j];
    }
  }

  /** The name of the chosen entry, "N/A" when there is none. */
  function NameOf(entries: seq<DayCount>, k: Option<nat>): string {
    match k
    case Some(i) => if i < |entries| then DayNames[entries[i].day] else "N/A"
    case None => "N/A"
  }

  // ---------------------------------------------------------------------------
  // The analysis

  /** The day-by-hour pass: the sales of each operating hour and the number
      of days on which that hour had a sale. A (day, hour) pair adds a day
      the first time it is seen. */
  method HourlyTallies(ts: seq<Transaction>) returns (customers: seq<nat>, days: seq<nat>)
    ensures |customers| == HourCount && |days| == HourCount
    ensures forall i :: 0 <= i < HourCount ==>
      customers[i] == CountAt(ts, FirstHour + i) && days[i] == |DaysAt(ts, FirstHour + i)|
  {
    customers := seq(HourCount, _ => 0);
    days := seq(HourCount, _ => 0);
    var seen: set<(int, int)> := {};
    for j := 0 to |ts|
      invariant |customers| == HourCount && |days| == HourCount
      invariant seen == PairsOf(ts[..j])
      invariant forall i :: 0 <= i < HourCount ==> customers[i] == CountAt(ts[..j], FirstHour + i)
      invariant forall i :: 0 <= i < HourCount ==> days[i] == |DaysAt(ts[..j], FirstHour + i)|
    {
      var t := ts[j];
      var d, h := t.timestamp.dayKey, t.timestamp.hour;
      var firstOfDay := (d, h as int) !in seen;
      ghost var customers0, days0 := customers, days;
      seen := seen + {(d, h as int)};
      customers, days := CountInHour(customers, days, h, firstOfDay);
      HourlyStep(ts, j, customers0, days0, customers, days, firstOfDay);
    }
    assert ts[..|ts|] == ts;
  }

  /** The body of the day-by-hour pass for one sale at hour `h`: one more
      sale in its bucket when the hour is an operating hour, and one more
      busy day when it is the first sale of its day in that hour. */
  method CountInHour(customers: seq<nat>, days: seq<nat>, h: int, firstOfDay: bool)
    returns (customers': seq<nat>, days': seq<nat>)
    requires |customers| == HourCount && |days| == HourCount
    ensures |customers'| == HourCount && |days'| == HourCount
    ensures forall i :: 0 <= i < HourCount ==>
      && customers'[i] == (if h == FirstHour + i then customers[i] + 1 else customers[i])
      && days'[i] == (if h == FirstHour + i && firstOfDay then days[i] + 1 else days[i])
  {
    customers', days' := customers, days;
    if FirstHour <= h <= LastHour {
      customers' := customers'[h - FirstHour := customers'[h - FirstHour] + 1];
      if firstOfDay {
        days' := days'[h - FirstHour := days'[h - FirstHour] + 1];
      }
    }
  }

  /** One turn of the day-by-hour pass keeps the buckets equal to the counts
      of the sales seen so far. */
  lemma HourlyStep(ts: seq<Transaction>, j: nat, customers0: seq<nat>, days0: seq<nat>,
                   customers: seq<nat>, days: seq<nat>, firstOfDay: bool)
    requires j < |ts|
    requires |customers0| == HourCount && |days0| == HourCount
    requires |customers| == HourCount && |days| == HourCount
    requires forall i :: 0 <= i < HourCount ==>
      customers0[i] == CountAt(ts[..j], FirstHour + i) && days0[i] == |DaysAt(ts[..j], FirstHour + i)|
    requires firstOfDay <==> (ts[j].timestamp.dayKey, ts[j].timestamp.hour as int) !in PairsOf(ts[..j])
    requires forall i :: 0 <= i < HourCount ==>
      && customers[i] == (if ts[j].timestamp.hour == FirstHour + i then customers0[i] + 1 else customers0[i])
      && days[i] == (if ts[j].timestamp.hour == FirstHour + i && firstOfDay then days0[i] + 1 else days0[i])
    ensures PairsOf(ts[..j + 1]) == PairsOf(ts[..j]) + {(ts[j].timestamp.dayKey, ts[j].timestamp.hour as int)}
    ensures forall i :: 0 <= i < HourCount ==>
      customers[i] == CountAt(ts[..j + 1], FirstHour + i) && days[i] == |DaysAt(ts[..j + 1], FirstHour + i)|
  {
    assert Init(ts[..j + 1]) == ts[..j] && Last(ts[..j + 1]) == ts[j];
    PairsAreDays(ts[..j], ts[j].timestamp.dayKey, ts[j].timestamp.hour);
    forall i | 0 <= i < HourCount
      ensures customers[i] == CountAt(ts[..j + 1], FirstHour + i)
      ensures days[i] == |DaysAt(ts[..j + 1], FirstHour + i)|
    {
      BucketStep(ts, j, FirstHour + i, customers0[i], days0[i], firstOfDay);
    }
  }

  /** One more sale, seen from the bucket of hour `h`: a sale more when it
      fell in that hour, and a busy day more when it is the first sale of its
      day in that hour. */
  lemma BucketStep(ts: seq<Transaction>, j: nat, h: int, count: nat, days: nat, firstOfDay: bool)
    requires j < |ts|
    requires count == CountAt(ts[..j], h) && days == |DaysAt(ts[..j], h)|
    requires firstOfDay <==> ts[j].timestamp.dayKey !in DaysAt(ts[..j], ts[j].timestamp.hour)
    ensures CountAt(ts[..j + 1], h) == if ts[j].timestamp.hour == h then count + 1 else count
    ensures |DaysAt(ts[..j + 1], h)| == if ts[j].timestamp.hour == h && firstOfDay then days + 1 else days
  {
    assert Init(ts[..j + 1]) == ts[..j] && Last(ts[..j + 1]) == ts[j];
    var t := ts[j];
    var before := DaysAt(ts[..j], h);
    if t.timestamp.hour == h && t.timestamp.dayKey in before {
      assert before + {t.timestamp.dayKey} == before;
    }
  }

  /** The per-day pass: the `dayTotals` map, in order of first appearance. */
  method CountByWeekday(ts: seq<Transaction>) returns (entries: seq<DayCount>)
    ensures entries == DayCounts(ts)
  {
    entries := [];
    for j := 0 to |ts|
      invariant entries == DayCounts(ts[..j])
    {
      var d := ts[j].timestamp.weekday;
      match FindDay(entries, d) {
        case Some(k) =>
          CountDayAddsTo(entries, d, k);
          entries := entries[k := entries[k].(count := entries[k].count + 1)];
        case None => entries := entries + [DayCount(d, 1)];
      }
      assert Init(ts[..j + 1]) == ts[..j] && Last(ts[..j + 1]) == ts[j];
    }
    assert ts[..|ts|] == ts;
  }

  /** The scan of `dayTotals` for the busiest day (strictly more than the
      best so far, from 0) and the quietest (strictly fewer, from infinity). */
  method BusiestAndQuietest(entries: seq<DayCount>) returns (busiest: string, quietest: string)
    ensures busiest == NameOf(entries, FirstMax(entries))
    ensures quietest == NameOf(entries, FirstMin(entries))
  {
    busiest, quietest := "N/A", "N/A";
    var maxDay := 0;
    var minDay: Option<nat> := None;
    ghost var maxAt: Option<nat> := None;
    ghost var minAt: Option<nat> := None;
    for j := 0 to |entries|
      invariant maxAt == FirstMax(entries[..j]) && minAt == FirstMin(entries[..j])
      invariant maxAt.None? ==> maxDay == 0 && busiest == "N/A"
      invariant maxAt.Some? ==>
        maxAt.value < j && maxDay == entries[maxAt.value].count && busiest == DayNames[entries[maxAt.value].day]
      invariant minAt.None? <==> minDay.None?
      invariant minAt.None? ==> quietest == "N/A"
      invariant minAt.Some? ==>
        minAt.value < j && minDay == Some(entries[minAt.value].count) && quietest == DayNames[entries[minAt.value].day]
    {
      var e := entries[j];
      assert Init(entries[..j + 1]) == entries[..j] && Last(entries[..j + 1]) == e;
      if e.count > maxDay {
        maxDay := e.count;
        busiest := DayNames[e.day];
        maxAt := Some(j);
      }
      if minDay.None? || e.count < minDay.value {
        minDay := Some(e.count);
        quietest := DayNames[e.day];
        minAt := Some(j);
      }
    }
    assert entries[..|entries|] == entries;
  }

  /** The pass over the hourly tallies: each hour's average, at level low for
      now, and the running maximum of the averages. */
  method AveragePeakHours(recent: seq<Transaction>, customers: seq<nat>, days: seq<nat>)
    returns (peak: seq<PeakHour>, maxCustomers: real)
    requires |customers| == HourCount && |days| == HourCount
    requires forall i :: 0 <= i < HourCount ==>
      customers[i] == CountAt(recent, FirstHour + i) && days[i] == |DaysAt(recent, FirstHour + i)|
    ensures |peak| == HourCount
    ensures forall k :: 0 <= k < HourCount ==> peak[k] == PeakHour(FirstHour + k, Averages(recent)[k], 0.0, Low)
    ensures maxCustomers == MaxOf(Averages(recent))
  {
    var avgs := Averages(recent);
    peak := [];
    maxCustomers := 0.0;
    for i := 0 to HourCount
      invariant |peak| == i
      invariant forall k :: 0 <= k < i ==> peak[k] == PeakHour(FirstHour + k, avgs[k], 0.0, Low)
      invariant maxCustomers == MaxOf(avgs[..i])
    {
      var avg := if days[i] > 0 then customers[i] as real / days[i] as real else 0.0;
      assert avgs[i] == AverageAt(recent, FirstHour + i);
      assert avg == Ratio(customers[i], days[i]) == avgs[i];
      assert Init(avgs[..i + 1]) == avgs[..i] && Last(avgs[..i + 1]) == avg;
      if avg > maxCustomers {
        maxCustomers := avg;
      }
      peak := peak + [PeakHour(FirstHour + i, avg, 0.0, Low)];
    }
    assert avgs[..HourCount] == avgs;
  }

  /** The pass that sets each peak hour's level against the maximum. */
  method AssignLevels(recent: seq<Transaction>, peak: seq<PeakHour>, maxCustomers: real) returns (leveled: seq<PeakHour>)
    requires |peak| == HourCount
    requires forall k :: 0 <= k < HourCount ==> peak[k] == PeakHour(FirstHour + k, Averages(recent)[k], 0.0, Low)
    requires maxCustomers == MaxOf(Averages(recent))
    ensures leveled == PeakHoursOf(recent)
  {
    leveled := peak;
    for i := 0 to HourCount
      invariant |leveled| == HourCount
      invariant forall k :: 0 <= k < i ==> leveled[k] == PeakHoursOf(recent)[k]
      invariant forall k :: i <= k < HourCount ==> leveled[k] == peak[k]
    {
      var ph := leveled[i];
      var level := if ph.averageCustomers >= maxCustomers * 0.7 then High
        else if ph.averageCustomers >= maxCustomers * 0.4 then Medium
        else Low;
      leveled := leveled[i := ph.(level := level)];
    }
  }

  /** `analyzeTraffic` over the sales at or after the cutoff: the day-by-hour
      tallies, the peak hours with the running maximum, their levels, the
      staff recommendations, the per-day counts and the busiest and quietest
      days; the final filter on the hours 6..22 keeps every peak hour
      (`PeakHoursShape`). */
  method AnalyzeTraffic(history: seq<Transaction>, cutoff: int) returns (a: TrafficAnalysis)
    ensures var recent := InWindow(history, cutoff);
      && a.peakHours == PeakHoursOf(recent)
      && a.recommendations == Staffing.Runs(PeakHoursOf(recent))
      && a.averageCustomersPerHour == CustomersSum(PeakHoursOf(recent)) / HourCount as real
      && a.busiestDay == NameOf(DayCounts(recent), FirstMax(DayCounts(recent)))
      && a.quietestDay == NameOf(DayCounts(recent), FirstMin(DayCounts(recent)))
  {
    var recent := InWindow(history, cutoff);
    var customers, days := HourlyTallies(recent);
    var peak, maxCustomers := AveragePeakHours(recent, customers, days);
    peak := AssignLevels(recent, peak, maxCustomers);
    var recommendations := Staffing.GenerateStaffRecommendations(peak);
    var dayTotals := CountByWeekday(recent);
    var busiest, quietest := BusiestAndQuietest(dayTotals);
    a := TrafficAnalysis(peak, recommendations, CustomersSum(peak) / HourCount as real, busiest, quietest);
  }

  /** For any window, the recommendations tile the hours 6h to 23h with
      alternating levels, and each peak hour lies inside a recommendation of
      its level. */
  lemma RecommendationsTileOpeningHours(recent: seq<Transaction>)
    ensures var ph, r := PeakHoursOf(recent), Staffing.Runs(PeakHoursOf(recent));
      && |r| > 0 && r[0].startHour == FirstHour && r[|r| - 1].endHour == LastHour + 1
      && Staffing.Chained(r) && Staffing.Made(r)
      && (forall k :: 0 <= k < |ph| ==> exists i :: 0 <= i < |r| && r[i].startHour <= ph[k].hour < r[i].endHour
                                                    && r[i].trafficLevel == ph[k].level)
  {
    var ph := PeakHoursOf(recent);
    PeakHoursShape(recent);
    Staffing.RunsTile(ph);
    Staffing.RunsCover(ph);
    assert Last(ph).hour == LastHour;
  }

  /** The average number of customers per hour is never negative. */
  lemma AveragePerHourNonNegative(recent: seq<Transaction>)
    ensures CustomersSum(PeakHoursOf(recent)) / HourCount as real >= 0.0
  {
    var ph := PeakHoursOf(recent);
    forall i | 0 <= i < |ph| ensures ph[i].averageCustomers >= 0.0 {
      AverageAtBounds(recent, FirstHour + i);
    }
    CustomersNonNegative(ph);
  }

  /** The busiest and quietest days are "N/A" exactly when the window is
      empty, and otherwise the days with the most and the fewest sales, ties
      going to the day seen first. */
  lemma BusiestAndQuietestDays(recent: seq<Transaction>)
    ensures var e := DayCounts(recent);
      && (NameOf(e, FirstMax(e)) == "N/A" <==> |recent| == 0)
      && (NameOf(e, FirstMin(e)) == "N/A" <==> |recent| == 0)
      && (|recent| > 0 ==>
           && FirstMax(e).Some? && FirstMax(e).value < |e|
           && (forall j :: 0 <= j < |e| ==> e[j].count <= e[FirstMax(e).value].count)
           && (forall j :: 0 <= j < FirstMax(e).value ==> e[j].count < e[FirstMax(e).value].count)
           && FirstMin(e).Some? && FirstMin(e).value < |e|
           && (forall j :: 0 <= j < |e| ==> e[FirstMin(e).value].count <= e[j].count)
           && (forall j :: 0 <= j < FirstMin(e).value ==> e[FirstMin(e).value].count < e[j].count))
  {
    DayCountsPositive(recent);
    MaxAndMinDays(DayCounts(recent), |recent|);
  }

  /** The busiest and quietest of per-day counts that are all positive, and
      present exactly when there are `n > 0` sales. */
  lemma MaxAndMinDays(e: seq<DayCount>, n: nat)
    requires |e| == 0 <==> n == 0
    requires forall k :: 0 <= k < |e| ==> e[k].count > 0
    ensures && (NameOf(e, FirstMax(e)) == "N/A" <==> n == 0)
            && (NameOf(e, FirstMin(e)) == "N/A" <==> n == 0)
            && (n > 0 ==>
                 && FirstMax(e).Some? && FirstMax(e).value < |e|
                 && (forall j :: 0 <= j < |e| ==> e[j].count <= e[FirstMax(e).value].count)
                 && (forall j :: 0 <= j < FirstMax(e).value ==> e[j].count < e[FirstMax(e).value].count)
                 && FirstMin(e).Some? && FirstMin(e).value < |e|
                 && (forall j :: 0 <= j < |e| ==> e[FirstMin(e).value].count <= e[j].count)
                 && (forall j :: 0 <= j < FirstMin(e).value ==> e[FirstMin(e).value].count < e[j].count))
  {
    BusiestOf(e);
    QuietestOf(e);
  }

  /** The busiest of positive per-day counts: named exactly when there is an
      entry, and its count is the first largest. */
  lemma BusiestOf(e: seq<DayCount>)
    requires forall k :: 0 <= k < |e| ==> e[k].count > 0
    ensures NameOf(e, FirstMax(e)) == "N/A" <==> |e| == 0
    ensures |e| > 0 ==>
      && FirstMax(e).Some? && FirstMax(e).value < |e|
      && (forall j :: 0 <= j < |e| ==> e[j].count <= e[FirstMax(e).value].count)
      && (forall j :: 0 <= j < FirstMax(e).value ==> e[j].count < e[FirstMax(e).value].count)
  {
    FirstMaxSpec(e);
    DayNamesNotNA(e);
    if |e| > 0 {
      assert e[0].count > 0;
    }
  }

  /** The quietest of per-day counts: named exactly when there is an entry,
      and its count is the first smallest. */
  lemma QuietestOf(e: seq<DayCount>)
    ensures NameOf(e, FirstMin(e)) == "N/A" <==> |e| == 0
    ensures |e| > 0 ==>
      && FirstMin(e).Some? && FirstMin(e).value < |e|
      && (forall j :: 0 <= j < |e| ==> e[FirstMin(e).value].count <= e[j].count)
      && (forall j :: 0 <= j < FirstMin(e).value ==> e[FirstMin(e).value].count < e[j].count)
  {
    FirstMinSpec(e);
    DayNamesNotNA(e);
  }

  /** Every listed day had a sale, and some day is listed exactly when
      there is a sale. */
  lemma DayCountsPositive(ts: seq<Transaction>)
    ensures |DayCounts(ts)| == 0 <==> |ts| == 0
    ensures forall k :: 0 <= k < |DayCounts(ts)| ==> DayCounts(ts)[k].count > 0
  {
    DayCountsSpec(ts);
  }

  /** No day is called "N/A". */
  lemma DayNamesNotNA(e: seq<DayCount>)
    ensures forall k :: 0 <= k < |e| ==> DayNames[e[k].day] != "N/A"
  {
  }

  /** Averages are never negative, so neither is their sum. */
  lemma {:induction false} CustomersNonNegative(ph: seq<PeakHour>)
    requires forall i :: 0 <= i < |ph| ==> ph[i].averageCustomers >= 0.0
    ensures CustomersSum(ph) >= 0.0
  {
    if |ph| > 0 {
      CustomersNonNegative(Init(ph));
    }
  }
}
