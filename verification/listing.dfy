/** List idioms shared by the stores: the last entry and the rest, and the
    array methods the stores build their lists with: `map` that changes only
    the matching entries, `filter`, and `find`. */
module Listing {

  /** The last entry; the specifications of the loops over a list are
      defined on it, so that each turn of a left-to-right loop adds one step. */
  function Last<T>(s: seq<T>): T
    requires |s| > 0
  {
    s[|s| - 1]
  }

  /** Everything but the last entry. */
  function Init<T>(s: seq<T>): seq<T>
    requires |s| > 0
  {
    s[..|s| - 1]
  }

  /** `xs.map(x => hit(x) ? change(x) : x)`: the matching entries changed,
      all others kept, in order. */
  function MapWhere<T>(xs: seq<T>, hit: T -> bool, change: T -> T): (r: seq<T>)
    ensures |r| == |xs|
    ensures forall i :: 0 <= i < |xs| ==> r[i] == (if hit(xs[i]) then change(xs[i]) else xs[i])
  {
    if |xs| == 0 then []
    else [if hit(xs[0]) then change(xs[0]) else xs[0]] + MapWhere(xs[1..], hit, change)
  }

  /** `xs.filter(keep)` */
  function Where<T(==,!new)>(xs: seq<T>, keep: T -> bool): (r: seq<T>)
    ensures |r| <= |xs|
    ensures forall x :: x in r <==> x in xs && keep(x)
    ensures (forall i :: 0 <= i < |xs| ==> keep(xs[i])) ==> r == xs
  {
    if |xs| == 0 then []
    else if keep(xs[0]) then [xs[0]] + Where(xs[1..], keep)
    else Where(xs[1..], keep)
  }

  /** `r` lists entries of `xs` taken at the strictly increasing positions
      `at`: a subsequence of `xs`, in the order of `xs`. */
  predicate PickedAt<T(==)>(r: seq<T>, xs: seq<T>, at: seq<nat>) {
    && |at| == |r|
    && (forall i :: 0 <= i < |at| ==> at[i] < |xs| && r[i] == xs[at[i]])
    && (forall i, j :: 0 <= i < j < |at| ==> at[i] < at[j])
  }

  /** Every position one further on. */
  function Shifted(at: seq<nat>): (r: seq<nat>)
    ensures |r| == |at|
    ensures forall i :: 0 <= i < |at| ==> r[i] == at[i] + 1
  {
    seq(|at|, i requires 0 <= i < |at| => at[i] + 1)
  }

  /** The positions `filter` keeps, in order. */
  function WherePositions<T>(xs: seq<T>, keep: T -> bool): seq<nat> {
    if |xs| == 0 then []
    else if keep(xs[0]) then [0] + Shifted(WherePositions(xs[1..], keep))
    else Shifted(WherePositions(xs[1..], keep))
  }

  /** A position is in the shifted list exactly when the one before it is in
      the original. */
  lemma ShiftedHas(at: seq<nat>, k: int)
    ensures k in Shifted(at) <==> k >= 1 && k - 1 in at
  {
    if k >= 1 && k - 1 in at {
      var i :| 0 <= i < |at| && at[i] == k - 1;
      assert Shifted(at)[i] == k;
    }
  }

  /** Picks from the tail of `xs` are picks from `xs`, one position on; with
      the head in front when it is picked too. */
  lemma ShiftedPicks<T>(r: seq<T>, xs: seq<T>, at: seq<nat>, head: bool)
    requires |xs| > 0 && PickedAt(r, xs[1..], at)
    ensures head ==> PickedAt([xs[0]] + r, xs, [0] + Shifted(at))
    ensures !head ==> PickedAt(r, xs, Shifted(at))
  {
  }

  /** Filtering takes exactly the entries that pass the test, each once, in
      their order in the list. */
  lemma {:induction false} WhereAtPositions<T(!new)>(xs: seq<T>, keep: T -> bool)
    ensures PickedAt(Where(xs, keep), xs, WherePositions(xs, keep))
    ensures forall k :: 0 <= k < |xs| ==> (keep(xs[k]) <==> k in WherePositions(xs, keep))
  {
    if |xs| > 0 {
      var rest := WherePositions(xs[1..], keep);
      WhereAtPositions(xs[1..], keep);
      ShiftedPicks(Where(xs[1..], keep), xs, rest, keep(xs[0]));
      forall k | 0 <= k < |xs|
        ensures keep(xs[k]) <==> k in WherePositions(xs, keep)
      {
        ShiftedHas(rest, k);
        if k >= 1 {
          assert xs[1..][k - 1] == xs[k];
        }
      }
    }
  }

  /** Filtering keeps the kept entries in their order: filtering a
      concatenation filters each part. */
  lemma {:induction false} WhereSplit<T(!new)>(a: seq<T>, b: seq<T>, keep: T -> bool)
    ensures Where(a + b, keep) == Where(a, keep) + Where(b, keep)
  {
    if |a| > 0 {
      assert (a + b)[1..] == a[1..] + b;
      WhereSplit(a[1..], b, keep);
    } else {
      assert a + b == b;
    }
  }

  /** Filtering out every entry leaves nothing. */
  lemma {:induction false} WhereNone<T(!new)>(xs: seq<T>, keep: T -> bool)
    requires forall i :: 0 <= i < |xs| ==> !keep(xs[i])
    ensures Where(xs, keep) == []
  {
    if |xs| > 0 {
      WhereNone(xs[1..], keep);
    }
  }

  /** Filtering by one test and then another is filtering by both. */
  lemma {:induction false} WhereWhere<T(!new)>(xs: seq<T>, first: T -> bool, second: T -> bool, both: T -> bool)
    requires forall x :: both(x) == (first(x) && second(x))
    ensures Where(Where(xs, first), second) == Where(xs, both)
  {
    if |xs| > 0 {
      WhereWhere(xs[1..], first, second, both);
      if first(xs[0]) {
        assert ([xs[0]] + Where(xs[1..], first))[1..] == Where(xs[1..], first);
      }
    }
  }

  /** `xs.findIndex(hit)`, with `|xs|` standing for "none". */
  function FirstWhere<T>(xs: seq<T>, hit: T -> bool): (k: nat)
    ensures k <= |xs|
    ensures k < |xs| ==> hit(xs[k])
    ensures forall j :: 0 <= j < k ==> !hit(xs[j])
  {
    if |xs| == 0 then 0
    else if hit(xs[0]) then 0
    else 1 + FirstWhere(xs[1..], hit)
  }

  /** Finding in a list with one more entry at the end: an earlier match
      stays the first; otherwise the new entry is the first match when it
      matches. */
  lemma {:induction false} FirstWhereSnoc<T>(xs: seq<T>, x: T, hit: T -> bool)
    ensures FirstWhere(xs + [x], hit) ==
      if FirstWhere(xs, hit) < |xs| then FirstWhere(xs, hit) else if hit(x) then |xs| else |xs| + 1
  {
    if |xs| == 0 {
      assert xs + [x] == [x];
      assert [x][1..] == [];
    } else {
      assert (xs + [x])[0] == xs[0];
      if !hit(xs[0]) {
        assert (xs + [x])[1..] == xs[1..] + [x];
        FirstWhereSnoc(xs[1..], x, hit);
      }
    }
  }
}
