/** Largest-remainder apportionment and the basis-point split
    (apps/server/src/ledger/allocation.ts), in exact rationals; the `Settle` step is also
    analysed when the quotas carry decimal rounding error. */
module Apportionment {
  import opened Common
  import opened Reals

  datatype Weighted<K> = Weighted(key: K, weight: real)

  datatype Allocated<K> = Allocated(key: K, amount: int)

  datatype AllocationError = NegativeTotal | NonPositiveWeight

  // ---------------------------------------------------------------- specification

  /** The exact quota total * weight / totalWeight. */
  function Quota(total: int, weight: real, totalWeight: real): real
    requires totalWeight > 0.0
  {
    Ratio(Times(total as real, weight), totalWeight)
  }

  function Quotas(total: int, weights: seq<real>): (q: seq<real>)
    requires SumReal(weights) > 0.0
    ensures |q| == |weights|
  {
    seq(|weights|, i requires 0 <= i < |weights| => Quota(total, weights[i], SumReal(weights)))
  }

  function Floors(quotas: seq<real>): (f: seq<int>)
    ensures |f| == |quotas|
  {
    seq(|quotas|, i requires 0 <= i < |quotas| => quotas[i].Floor)
  }

  function Remainder(quota: real): (r: real)
    ensures 0.0 <= r < 1.0
  {
    quota - quota.Floor as real
  }

  /** Item i comes before item j in the queue for left-over units. */
  predicate Wins(quotas: seq<real>, i: nat, j: nat)
    requires i < |quotas| && j < |quotas|
  {
    || Remainder(quotas[i]) > Remainder(quotas[j])
    || (Remainder(quotas[i]) == Remainder(quotas[j]) && i < j)
  }

  /** What the apportionment promises: every unit is handed out, each item gets its floor or one
      more, and whoever gets one more wins against whoever does not. `LargestRemainderIsUnique`
      shows that this pins the amounts down completely. */
  ghost predicate IsLargestRemainder(total: int, quotas: seq<real>, amounts: seq<int>) {
    && |amounts| == |quotas|
    && Sum(amounts) == total
    && (forall i :: 0 <= i < |quotas| ==> quotas[i].Floor <= amounts[i] <= quotas[i].Floor + 1)
    && RaisedItemsWin(quotas, amounts)
  }

  ghost predicate RaisedItemsWin(quotas: seq<real>, amounts: seq<int>)
    requires |amounts| == |quotas|
  {
    forall i, j | 0 <= i < |quotas| && 0 <= j < |quotas| ::
      amounts[i] > quotas[i].Floor && amounts[j] == quotas[j].Floor ==> Wins(quotas, i, j)
  }

  lemma LargestRemainderIsUnique(total: int, quotas: seq<real>, a: seq<int>, b: seq<int>)
    requires IsLargestRemainder(total, quotas, a)
    requires IsLargestRemainder(total, quotas, b)
    ensures a == b
  {
    if a != b {
      if forall i :: 0 <= i < |a| ==> a[i] <= b[i] {
        SumDominates(a, b);
      } else if forall i :: 0 <= i < |a| ==> b[i] <= a[i] {
        SumDominates(b, a);
      } // otherwise one item is raised only in a and another only in b, and each wins against the other
    }
  }

  // ------------------------------------------------ what the result means for the parties

  /** No amount is a whole unit away from its exact quota. */
  lemma WithinOneUnit(total: int, quotas: seq<real>, amounts: seq<int>, i: nat)
    requires IsLargestRemainder(total, quotas, amounts) && i < |quotas|
    requires SumReal(quotas) == total as real
    ensures -1.0 < amounts[i] as real - quotas[i] < 1.0
  {
    if amounts[i] > quotas[i].Floor && Remainder(quotas[i]) == 0.0 {
      // The queue is sorted by remainder, so a raised whole quota means no floor loses anything.
      forall j | 0 <= j < |quotas|
        ensures quotas[j] <= amounts[j] as real
      {
        if amounts[j] == quotas[j].Floor {
          assert Wins(quotas, i, j);
        }
      }
      SumBelow(quotas, amounts, i);
    }
  }

  lemma {:induction false} SumBelow(quotas: seq<real>, amounts: seq<int>, i: nat)
    requires |quotas| == |amounts|
    requires forall j :: 0 <= j < |quotas| ==> quotas[j] <= amounts[j] as real
    ensures SumReal(quotas) <= Sum(amounts) as real
    ensures i < |quotas| && quotas[i] < amounts[i] as real ==> SumReal(quotas) < Sum(amounts) as real
  {
    if |quotas| > 0 {
      var n := |quotas| - 1;
      SumBelow(quotas[..n], amounts[..n], i);
    }
  }

  /** Heavier items never get less; among equal weights the earlier one gets the odd unit. */
  lemma Monotone(total: int, weights: seq<real>, amounts: seq<int>, i: nat, j: nat)
    requires total >= 0 && SumReal(weights) > 0.0
    requires IsLargestRemainder(total, Quotas(total, weights), amounts)
    requires i < |weights| && j < |weights|
    requires weights[i] > weights[j] || (weights[i] == weights[j] && i <= j)
    ensures amounts[i] >= amounts[j]
    ensures weights[i] == weights[j] ==> amounts[i] - amounts[j] <= 1
  {
    var q := Quotas(total, weights);
    QuotaMonotone(total, weights[i], weights[j], SumReal(weights));
    if total == 0 {
      NothingToShare(weights, amounts);
    } else {
      HigherQuotaGetsNoLess(total, q, amounts, i, j);
    }
  }

  lemma NothingToShare(weights: seq<real>, amounts: seq<int>)
    requires SumReal(weights) > 0.0
    requires IsLargestRemainder(0, Quotas(0, weights), amounts)
    ensures forall i :: 0 <= i < |amounts| ==> amounts[i] == 0
  {
    hide Times, Ratio;
    var none := seq(|amounts|, i => 0);
    forall i | 0 <= i < |amounts| ensures 0 <= amounts[i] {
      TimesUnits(weights[i]);
      RatioLaws(0.0, 0.0, SumReal(weights));
    }
    SumDominates(none, amounts);
    ZeroSum(none);
  }

  lemma {:induction false} ZeroSum(s: seq<int>)
    requires forall i :: 0 <= i < |s| ==> s[i] == 0
    ensures Sum(s) == 0
  {
    if |s| > 0 {
      ZeroSum(s[..|s| - 1]);
    }
  }

  lemma HigherQuotaGetsNoLess(total: int, q: seq<real>, amounts: seq<int>, i: nat, j: nat)
    requires IsLargestRemainder(total, q, amounts)
    requires i < |q| && j < |q| && (q[i] > q[j] || (q[i] == q[j] && i <= j))
    ensures amounts[i] >= amounts[j]
    ensures q[i] == q[j] ==> amounts[i] - amounts[j] <= 1
  {
    assert q[i].Floor >= q[j].Floor;
  }

  lemma QuotaMonotone(total: int, x: real, y: real, w: real)
    requires total >= 0 && w > 0.0 && x >= y
    ensures Quota(total, x, w) >= Quota(total, y, w)
    ensures x >= 0.0 ==> Quota(total, x, w) >= 0.0
    ensures total > 0 && x > y ==> Quota(total, x, w) > Quota(total, y, w)
  {
    hide Times, Ratio;
    var t := total as real;
    TimesMono(y, x, t);
    RatioLaws(Times(t, x), Times(t, y), w);
    if x >= 0.0 {
      TimesMono(0.0, x, t);
      TimesUnits(t);
      RatioLaws(Times(t, x), 0.0, w);
    }
  }

  lemma NonNegativeAmounts(total: int, weights: seq<real>, amounts: seq<int>)
    requires total >= 0 && SumReal(weights) > 0.0
    requires IsLargestRemainder(total, Quotas(total, weights), amounts)
    requires forall i :: 0 <= i < |weights| ==> weights[i] >= 0.0
    ensures forall i :: 0 <= i < |amounts| ==> 0 <= amounts[i]
  {
    forall i | 0 <= i < |amounts| ensures 0 <= amounts[i] {
      QuotaMonotone(total, weights[i], 0.0, SumReal(weights));
    }
  }

  function Distance(amount: int, quota: real): (d: real)
    ensures d >= 0.0
  {
    if amount as real >= quota then amount as real - quota else quota - amount as real
  }

  function TotalDistance(amounts: seq<int>, quotas: seq<real>): real
    requires |amounts| == |quotas|
  {
    if |quotas| == 0 then 0.0
    else
      var n := |quotas| - 1;
      TotalDistance(amounts[..n], quotas[..n]) + Distance(amounts[n], quotas[n])
  }

  /** Optimality: no other whole-unit division of the same total is closer to the exact quotas. */
  lemma Optimal(total: int, quotas: seq<real>, amounts: seq<int>, other: seq<int>)
    requires IsLargestRemainder(total, quotas, amounts)
    requires |other| == |quotas| && Sum(other) == total
    ensures TotalDistance(amounts, quotas) <= TotalDistance(other, quotas)
  {
    hide Times, TotalDistance, Sum;
    var t := Threshold(quotas, amounts);
    var p := 1.0 - 2.0 * t;
    forall i | 0 <= i < |quotas|
      ensures Distance(other[i], quotas[i]) - Distance(amounts[i], quotas[i]) >=
        Times(p, (other[i] - amounts[i]) as real)
    {
      DistanceWithPrice(quotas[i], amounts[i], other[i], t, p);
    }
    DistancesWithPrice(quotas, amounts, other, p);
    TimesUnits(p);
  }

  /** A remainder that separates the raised items from the others. */
  lemma Threshold(quotas: seq<real>, amounts: seq<int>) returns (t: real)
    requires |amounts| == |quotas| && RaisedItemsWin(quotas, amounts)
    ensures 0.0 <= t <= 1.0
    ensures forall i :: 0 <= i < |quotas| && amounts[i] > quotas[i].Floor ==> Remainder(quotas[i]) >= t
    ensures forall i :: 0 <= i < |quotas| && amounts[i] == quotas[i].Floor ==> Remainder(quotas[i]) <= t
  {
    t := 0.0;
    for n := 0 to |quotas|
      invariant 0.0 <= t <= 1.0
      invariant forall i :: 0 <= i < n && amounts[i] == quotas[i].Floor ==> Remainder(quotas[i]) <= t
      invariant t == 0.0 || exists i :: 0 <= i < n && amounts[i] == quotas[i].Floor && Remainder(quotas[i]) == t
    {
      if amounts[n] == quotas[n].Floor && Remainder(quotas[n]) > t {
        t := Remainder(quotas[n]);
      }
    }
  }

  /** Charging `1 - 2t` per unit makes each chosen amount the cheapest integer for its own item. */
  lemma DistanceWithPrice(q: real, a: int, b: int, t: real, p: real)
    requires q.Floor <= a <= q.Floor + 1 && 0.0 <= t <= 1.0 && p == 1.0 - 2.0 * t
    requires a > q.Floor ==> Remainder(q) >= t
    requires a == q.Floor ==> Remainder(q) <= t
    ensures Distance(b, q) - Distance(a, q) >= Times(p, (b - a) as real)
  {
    hide Times;
    var d := (b - a) as real;
    var s := 1.0 - t;
    TimesUnits(d);
    TimesUnits(t);
    TimesUnits(s);
    TimesSum(d, p, t);
    TimesSum(d, s, t);
    TimesSum(d, p + t, t);
    if b > q.Floor {
      TimesMono(if a == q.Floor then 1.0 else 0.0, d, t);
    } else {
      TimesMono(d, if a == q.Floor then 0.0 else -1.0, s);
    }
  }

  lemma {:induction false} DistancesWithPrice(quotas: seq<real>, a: seq<int>, b: seq<int>, p: real)
    requires |a| == |b| == |quotas|
    requires forall i :: 0 <= i < |quotas| ==>
      Distance(b[i], quotas[i]) - Distance(a[i], quotas[i]) >= Times(p, (b[i] - a[i]) as real)
    ensures TotalDistance(b, quotas) - TotalDistance(a, quotas) >= Times(p, (Sum(b) - Sum(a)) as real)
  {
    hide Times, Distance;
    if |quotas| > 0 {
      var n := |quotas| - 1;
      DistancesWithPrice(quotas[..n], a[..n], b[..n], p);
      TimesSum(p, (Sum(b[..n]) - Sum(a[..n])) as real, (b[n] - a[n]) as real);
    } else {
      TimesUnits(p);
    }
  }

  // ---------------------------------------------------------------- the algorithm

  /** A row of the `calculated` array. */
  datatype Row<K> = Row(key: K, amount: int, remainder: real, index: int)

  /** The two comparators handed to `sort`. */
  datatype Order = ByRemainder | ByIndex

  predicate Before<K>(o: Order, a: Row<K>, b: Row<K>) {
    match o
    case ByRemainder => a.remainder > b.remainder || (a.remainder == b.remainder && a.index < b.index)
    case ByIndex => a.index < b.index
  }

  ghost predicate Sorted<K>(o: Order, s: seq<Row<K>>) {
    forall i, j :: 0 <= i < j < |s| ==> !Before(o, s[j], s[i])
  }

  ghost predicate Distinct<K>(s: seq<Row<K>>) {
    forall i, j :: 0 <= i < j < |s| ==> s[i].index != s[j].index
  }

  function Amounts<K>(s: seq<Row<K>>): (r: seq<int>)
    ensures |r| == |s|
  {
    seq(|s|, i requires 0 <= i < |s| => s[i].amount)
  }

  /** Stable insertion of a row; `SortRows` built on it stands for the library `sort`. */
  function Inserted<K>(o: Order, r: Row<K>, s: seq<Row<K>>): (t: seq<Row<K>>) {
    if |s| == 0 || !Before(o, r, s[|s| - 1]) then s + [r]
    else Inserted(o, r, s[..|s| - 1]) + [s[|s| - 1]]
  }

  function SortRows<K>(o: Order, s: seq<Row<K>>): (t: seq<Row<K>>) {
    if |s| == 0 then [] else Inserted(o, s[|s| - 1], SortRows(o, s[..|s| - 1]))
  }

  lemma {:induction false} InsertedRows<K>(o: Order, r: Row<K>, s: seq<Row<K>>)
    ensures var t := Inserted(o, r, s);
            && |t| == |s| + 1
            && (forall i :: 0 <= i < |t| ==> t[i] == r || t[i] in s)
            && Sum(Amounts(t)) == Sum(Amounts(s)) + r.amount
  {
    var t := Inserted(o, r, s);
    if |s| == 0 || !Before(o, r, s[|s| - 1]) {
      assert Amounts(t) == Amounts(s) + [r.amount];
      SumAppend(Amounts(s), r.amount);
    } else {
      var n := |s| - 1;
      InsertedRows(o, r, s[..n]);
      var u := Inserted(o, r, s[..n]);
      assert Amounts(t) == Amounts(u) + [s[n].amount];
      SumAppend(Amounts(u), s[n].amount);
      assert Amounts(s)[..n] == Amounts(s[..n]);
    }
  }

  lemma {:induction false} InsertedIsSorted<K>(o: Order, r: Row<K>, s: seq<Row<K>>)
    requires Sorted(o, s)
    ensures Sorted(o, Inserted(o, r, s))
  {
    if |s| > 0 {
      var n := |s| - 1;
      if Before(o, r, s[n]) {
        InsertedIsSorted(o, r, s[..n]);
        InsertedRows(o, r, s[..n]);
        var u := Inserted(o, r, s[..n]);
        forall i | 0 <= i < |u| ensures !Before(o, s[n], u[i]) {
          if u[i] != r {
            var k :| 0 <= k < n && s[..n][k] == u[i];
          }
        }
      } else {
        forall i | 0 <= i < n ensures !Before(o, r, s[i]) {
          assert !Before(o, s[n], s[i]);
        }
      }
    }
  }

  lemma {:induction false} InsertedIsDistinct<K>(o: Order, r: Row<K>, s: seq<Row<K>>)
    requires Distinct(s)
    requires forall i :: 0 <= i < |s| ==> s[i].index != r.index
    ensures Distinct(Inserted(o, r, s))
  {
    if |s| != 0 && Before(o, r, s[|s| - 1]) {
      var n := |s| - 1;
      InsertedIsDistinct(o, r, s[..n]);
      InsertedRows(o, r, s[..n]);
      var u := Inserted(o, r, s[..n]);
      forall i | 0 <= i < |u| ensures u[i].index != s[n].index {
        if u[i] != r {
          var k :| 0 <= k < n && s[..n][k] == u[i];
        }
      }
    }
  }

  /** Sorting keeps the rows, their total and their distinctness. */
  lemma SortRowsIsSorted<K>(o: Order, s: seq<Row<K>>)
    ensures var t := SortRows(o, s);
            && |t| == |s| && Sorted(o, t)
            && (forall i :: 0 <= i < |t| ==> t[i] in s)
            && Sum(Amounts(t)) == Sum(Amounts(s))
            && (Distinct(s) ==> Distinct(t))
  {
    hide Sorted, Distinct, SortRows, Sum;
    SortKeepsRows(o, s);
    SortOrders(o, s);
    if Distinct(s) {
      SortKeepsDistinct(o, s);
    }
  }

  lemma {:induction false} SortKeepsRows<K>(o: Order, s: seq<Row<K>>)
    ensures var t := SortRows(o, s);
            && |t| == |s| && (forall i :: 0 <= i < |t| ==> t[i] in s)
            && Sum(Amounts(t)) == Sum(Amounts(s))
  {
    hide Inserted, Before, Sum;
    if |s| > 0 {
      var n := |s| - 1;
      SortKeepsRows(o, s[..n]);
      InsertedRows(o, s[n], SortRows(o, s[..n]));
      assert Amounts(s) == Amounts(s[..n]) + [s[n].amount];
      SumAppend(Amounts(s[..n]), s[n].amount);
    }
  }

  lemma {:induction false} SortOrders<K>(o: Order, s: seq<Row<K>>)
    ensures Sorted(o, SortRows(o, s))
  {
    if |s| > 0 {
      SortOrders(o, s[..|s| - 1]);
      InsertedIsSorted(o, s[|s| - 1], SortRows(o, s[..|s| - 1]));
    }
  }

  lemma {:induction false} SortKeepsDistinct<K>(o: Order, s: seq<Row<K>>)
    requires Distinct(s)
    ensures Distinct(SortRows(o, s))
  {
    if |s| > 0 {
      var n := |s| - 1;
      SortKeepsDistinct(o, s[..n]);
      SortKeepsRows(o, s[..n]);
      var u := SortRows(o, s[..n]);
      forall i | 0 <= i < |u| ensures u[i].index != s[n].index {
        var k :| 0 <= k < n && s[..n][k] == u[i];
      }
      InsertedIsDistinct(o, s[n], u);
    }
  }

  /** Distinct indices below n, in increasing order and n of them, are 0, 1, ..., n - 1. */
  lemma IndexOrderIsIdentity<K>(s: seq<Row<K>>)
    requires Sorted(ByIndex, s) && Distinct(s)
    requires forall i :: 0 <= i < |s| ==> 0 <= s[i].index < |s|
    ensures forall i :: 0 <= i < |s| ==> s[i].index == i
  {
    forall i | 0 <= i < |s| ensures s[i].index == i {
      IndexAtLeast(s, i);
      IndexAtMost(s, i);
    }
  }

  lemma {:induction false} IndexAtLeast<K>(s: seq<Row<K>>, i: nat)
    requires Sorted(ByIndex, s) && Distinct(s) && i < |s|
    requires forall k :: 0 <= k < |s| ==> 0 <= s[k].index
    ensures s[i].index >= i
  {
    if i > 0 {
      IndexAtLeast(s, i - 1);
      assert s[i - 1].index != s[i].index && !Before(ByIndex, s[i], s[i - 1]);
    }
  }

  lemma {:induction false} IndexAtMost<K>(s: seq<Row<K>>, i: nat)
    requires Sorted(ByIndex, s) && Distinct(s) && i < |s|
    requires forall k :: 0 <= k < |s| ==> s[k].index < |s|
    ensures s[i].index <= i
    decreases |s| - i
  {
    if i + 1 < |s| {
      IndexAtMost(s, i + 1);
      assert s[i].index != s[i + 1].index && !Before(ByIndex, s[i + 1], s[i]);
    }
  }

  /** Floors, queue by remainder, one extra unit each while units are missing (cycling), back to
      input order. The quotas may be any reals: exact ones, or ones carrying decimal rounding. */
  method Settle<K>(total: int, keys: seq<K>, quotas: seq<real>) returns (r: seq<Allocated<K>>)
    requires |keys| == |quotas| > 0
    ensures |r| == |keys|
    ensures forall i :: 0 <= i < |r| ==> r[i].key == keys[i]
    ensures Sum(AmountsOf(r)) == total <==> Sum(Floors(quotas)) <= total
    ensures Sum(Floors(quotas)) <= total <= Sum(Floors(quotas)) + |quotas| ==>
      IsLargestRemainder(total, quotas, AmountsOf(r))
  {
    var n := |keys|;
    var calculated := seq(n, i requires 0 <= i < n =>
      Row(keys[i], quotas[i].Floor, Remainder(quotas[i]), i));
    ghost var start := calculated;
    assert Amounts(start) == Floors(quotas);
    var floored := SumAmounts(calculated);
    var missing := total - floored;
    calculated := SortRows(ByRemainder, calculated);
    SortRowsIsSorted(ByRemainder, start);
    ghost var queue := calculated;
    calculated := PayMissing(calculated, missing);
    ghost var paid := calculated;
    calculated := SortRows(ByIndex, calculated);
    RestoredOrder(start, queue, paid);
    r := seq(n, i requires 0 <= i < n => Allocated(calculated[i].key, calculated[i].amount));
    assert AmountsOf(r) == Amounts(calculated);
    if 0 <= missing <= n {
      RaisedWin(quotas, start, queue, paid, missing);
    }
  }

  /** The increment loop: units go round the queue until none is missing. */
  method PayMissing<K>(queue: seq<Row<K>>, units: int) returns (calculated: seq<Row<K>>)
    requires |queue| > 0
    ensures |calculated| == |queue|
    ensures forall p :: 0 <= p < |queue| ==> calculated[p] == queue[p].(amount := calculated[p].amount)
    ensures Sum(Amounts(calculated)) == Sum(Amounts(queue)) + (if units > 0 then units else 0)
    ensures units <= |queue| ==> forall p :: 0 <= p < |queue| ==>
      calculated[p].amount == queue[p].amount + (if p < units then 1 else 0)
  {
    calculated := queue;
    var missing := units;
    ghost var handed := 0;
    var index := 0;
    while missing > 0
      invariant |calculated| == |queue| && 0 <= index < |queue|
      invariant forall p :: 0 <= p < |queue| ==> calculated[p] == queue[p].(amount := calculated[p].amount)
      invariant handed >= 0 && missing == units - handed && (handed > 0 ==> missing >= 0)
      invariant Sum(Amounts(calculated)) == Sum(Amounts(queue)) + handed
      invariant handed < |queue| ==> index == handed
      invariant handed <= |queue| ==> forall p :: 0 <= p < |queue| ==>
        calculated[p].amount == queue[p].amount + (if p < handed then 1 else 0)
    {
      ghost var prior := Amounts(calculated);
      var raised := calculated[index].amount + 1;
      calculated := calculated[index := calculated[index].(amount := raised)];
      assert Amounts(calculated) == prior[index := raised];
      SumUpdate(prior, index, raised);
      missing := missing - 1;
      index := if index + 1 == |queue| then 0 else index + 1;
      handed := handed + 1;
    }
  }

  function AmountsOf<K>(r: seq<Allocated<K>>): (s: seq<int>)
    ensures |s| == |r|
  {
    seq(|r|, i requires 0 <= i < |r| => r[i].amount)
  }

  method SumAmounts<K>(rows: seq<Row<K>>) returns (sum: int)
    ensures sum == Sum(Amounts(rows))
  {
    sum := 0;
    for i := 0 to |rows|
      invariant sum == Sum(Amounts(rows)[..i])
    {
      SumPrefix(Amounts(rows), i);
      sum := sum + rows[i].amount;
    }
    assert Amounts(rows)[..|rows|] == Amounts(rows);
  }

  /** `paid` is the queue with only amounts changed; sorting it by index lines it up with `start`. */
  ghost predicate Repaid<K>(start: seq<Row<K>>, queue: seq<Row<K>>, paid: seq<Row<K>>) {
    && |start| == |queue| == |paid|
    && (forall i :: 0 <= i < |start| ==> start[i].index == i)
    && queue == SortRows(ByRemainder, start)
    && (forall p :: 0 <= p < |paid| ==> paid[p] == queue[p].(amount := paid[p].amount))
  }

  lemma QueueRows<K>(start: seq<Row<K>>, queue: seq<Row<K>>, paid: seq<Row<K>>)
    requires Repaid(start, queue, paid)
    ensures Sorted(ByRemainder, queue) && Distinct(paid)
    ensures forall p :: 0 <= p < |queue| ==> 0 <= queue[p].index < |start| && queue[p] == start[queue[p].index]
  {
    SortRowsIsSorted(ByRemainder, start);
    forall p | 0 <= p < |queue| ensures 0 <= queue[p].index < |start| && queue[p] == start[queue[p].index] {
      var k :| 0 <= k < |start| && start[k] == queue[p];
    }
  }

  lemma RestoredOrder<K>(start: seq<Row<K>>, queue: seq<Row<K>>, paid: seq<Row<K>>)
    requires Repaid(start, queue, paid)
    ensures var back := SortRows(ByIndex, paid);
            && |back| == |start| && Sum(Amounts(back)) == Sum(Amounts(paid))
            && (forall i :: 0 <= i < |back| ==>
                 back[i].key == start[i].key && back[i].index == i && back[i] in paid)
  {
    QueueRows(start, queue, paid);
    SortRowsIsSorted(ByIndex, paid);
    var back := SortRows(ByIndex, paid);
    forall i | 0 <= i < |back|
      ensures 0 <= back[i].index < |start| && back[i].key == start[back[i].index].key
    {
      var p :| 0 <= p < |paid| && paid[p] == back[i];
    }
    IndexOrderIsIdentity(back);
  }

  /** With `handed` units given to the front of the queue, the raised items are the winners. */
  lemma RaisedWin<K>(quotas: seq<real>, start: seq<Row<K>>, queue: seq<Row<K>>, paid: seq<Row<K>>, handed: int)
    requires Repaid(start, queue, paid) && |quotas| == |start|
    requires forall i :: 0 <= i < |start| ==>
      start[i].amount == quotas[i].Floor && start[i].remainder == Remainder(quotas[i])
    requires forall p :: 0 <= p < |paid| ==> paid[p].amount == queue[p].amount + (if p < handed then 1 else 0)
    ensures var amounts := Amounts(SortRows(ByIndex, paid));
            && |amounts| == |quotas|
            && (forall i :: 0 <= i < |quotas| ==> quotas[i].Floor <= amounts[i] <= quotas[i].Floor + 1)
            && RaisedItemsWin(quotas, amounts)
  {
    QueueRows(start, queue, paid);
    RestoredOrder(start, queue, paid);
    var back := SortRows(ByIndex, paid);
    var amounts := Amounts(back);
    forall i | 0 <= i < |quotas| ensures quotas[i].Floor <= amounts[i] <= quotas[i].Floor + 1 {
      var p :| 0 <= p < |paid| && paid[p] == back[i];
    }
    forall i, j | 0 <= i < |quotas| && 0 <= j < |quotas|
      && amounts[i] > quotas[i].Floor && amounts[j] == quotas[j].Floor
      ensures Wins(quotas, i, j)
    {
      var p :| 0 <= p < |paid| && paid[p] == back[i];
      var m :| 0 <= m < |paid| && paid[m] == back[j];
      assert p < handed <= m;
      assert !Before(ByRemainder, queue[m], queue[p]);
    }
  }

  function Weights<K>(items: seq<Weighted<K>>): (w: seq<real>)
    ensures |w| == |items|
  {
    seq(|items|, i requires 0 <= i < |items| => items[i].weight)
  }

  method LargestRemainder<K>(total: int, items: seq<Weighted<K>>)
    returns (r: Result<seq<Allocated<K>>, AllocationError>)
    ensures total < 0 ==> r == Err(NegativeTotal)
    ensures total >= 0 && |items| == 0 ==> r == Ok([])
    ensures total >= 0 && |items| > 0 && SumReal(Weights(items)) <= 0.0 ==> r == Err(NonPositiveWeight)
    ensures total >= 0 && |items| > 0 && SumReal(Weights(items)) > 0.0 ==>
      && r.Ok? && |r.value| == |items|
      && (forall i :: 0 <= i < |items| ==> r.value[i].key == items[i].key)
      && IsLargestRemainder(total, Quotas(total, Weights(items)), AmountsOf(r.value))
  {
    if total < 0 {
      return Err(NegativeTotal);
    }
    if |items| == 0 {
      return Ok([]);
    }
    var totalWeight := 0.0;
    for i := 0 to |items|
      invariant totalWeight == SumReal(Weights(items)[..i])
    {
      SumRealPrefix(Weights(items), i);
      totalWeight := totalWeight + items[i].weight;
    }
    assert Weights(items)[..|items|] == Weights(items);
    if totalWeight <= 0.0 {
      return Err(NonPositiveWeight);
    }
    var quotas := seq(|items|, i requires 0 <= i < |items| => Quota(total, items[i].weight, totalWeight));
    assert quotas == Quotas(total, Weights(items));
    QuotasAddUp(total, Weights(items));
    FloorsFit(quotas, total);
    var keys := seq(|items|, i requires 0 <= i < |items| => items[i].key);
    var settled := Settle(total, keys, quotas);
    return Ok(settled);
  }

  lemma QuotasAddUp(total: int, weights: seq<real>)
    requires SumReal(weights) > 0.0
    ensures SumReal(Quotas(total, weights)) == total as real
  {
    hide Times, Ratio;
    ScaledSum(total, weights, SumReal(weights), Quotas(total, weights));
    RatioOfProduct(total as real, SumReal(weights));
  }

  lemma {:induction false} ScaledSum(total: int, weights: seq<real>, w: real, q: seq<real>)
    requires w > 0.0 && |q| == |weights|
    requires forall i :: 0 <= i < |q| ==> q[i] == Quota(total, weights[i], w)
    ensures SumReal(q) == Quota(total, SumReal(weights), w)
  {
    hide Times, Ratio;
    var t := total as real;
    if |q| > 0 {
      var n := |q| - 1;
      ScaledSum(total, weights[..n], w, q[..n]);
      TimesSum(t, SumReal(weights[..n]), weights[n]);
      RatioLaws(Times(t, SumReal(weights[..n])), Times(t, weights[n]), w);
    } else {
      TimesUnits(t);
      RatioLaws(0.0, 0.0, w);
    }
  }

  /** Quotas that add up to the total leave fewer missing units than items: one pass suffices. */
  lemma FloorsFit(quotas: seq<real>, total: int)
    requires SumReal(quotas) == total as real && |quotas| > 0
    ensures Sum(Floors(quotas)) <= total < Sum(Floors(quotas)) + |quotas|
  {
    FloorsBelow(quotas);
  }

  lemma {:induction false} FloorsBelow(quotas: seq<real>)
    ensures Sum(Floors(quotas)) as real <= SumReal(quotas)
    ensures |quotas| > 0 ==> SumReal(quotas) < (Sum(Floors(quotas)) + |quotas|) as real
  {
    if |quotas| > 0 {
      var n := |quotas| - 1;
      FloorsBelow(quotas[..n]);
      assert Floors(quotas)[..n] == Floors(quotas[..n]);
    }
  }

  // ---------------------------------------------------------------- decimal rounding

  /** `x` is the non-negative exact value `y` rounded with relative error at most `u`. */
  predicate Rounded(x: real, y: real, u: real) {
    y >= 0.0 && Times(y, 1.0 - u) <= x <= Times(y, 1.0 + u)
  }

  /** `sums` are the running totals of the weight fold, one rounded addition per item. */
  ghost predicate RoundedTotals(weights: seq<real>, sums: seq<real>, u: real) {
    && |sums| == |weights| + 1 && sums[0] == 0.0
    && forall i | 0 <= i < |weights| :: RoundedAddition(weights, sums, u, i)
  }

  predicate RoundedAddition(weights: seq<real>, sums: seq<real>, u: real, i: nat)
    requires i < |weights| && |sums| == |weights| + 1
  {
    Rounded(sums[i + 1], sums[i] + weights[i], u)
  }

  /** One rounded product and one rounded quotient. */
  predicate RoundedQuota(t: real, weight: real, totalWeight: real, product: real, quota: real, u: real)
    requires totalWeight > 0.0
  {
    Rounded(product, Times(t, weight), u) && Rounded(quota, Ratio(product, totalWeight), u)
  }

  ghost predicate RoundedQuotas(total: int, weights: seq<real>, totalWeight: real, products: seq<real>,
                                quotas: seq<real>, u: real)
    requires totalWeight > 0.0
  {
    && |products| == |quotas| == |weights|
    && forall i :: 0 <= i < |weights| ==>
         RoundedQuota(total as real, weights[i], totalWeight, products[i], quotas[i], u)
  }

  /** With n items and unit roundoff u, the rounded floors still fit whenever
      total * (1 + u)^2 < (total + 1) * (1 - n * u), and no more than n units are missing: `Settle` then
      hands out exactly the total, at most one unit to each, by the rounded remainders. */
  lemma RoundedFloorsFit(total: int, weights: seq<real>, sums: seq<real>, products: seq<real>, quotas: seq<real>,
                         u: real)
    requires total >= 0 && |weights| > 0 && 0.0 <= u < 1.0
    requires forall i :: 0 <= i < |weights| ==> weights[i] >= 0.0
    requires RoundedTotals(weights, sums, u) && sums[|weights|] > 0.0
    requires RoundedQuotas(total, weights, sums[|weights|], products, quotas, u)
    requires Times(total as real, Times(1.0 + u, 1.0 + u)) <
      Times(total as real + 1.0, 1.0 - Times(|weights| as real, u))
    ensures Sum(Floors(quotas)) <= total <= Sum(Floors(quotas)) + |quotas|
  {
    FloorsFromAbove(total, weights, sums, products, quotas, u);
    FloorsFromBelow(total, weights, sums, products, quotas, u);
  }

  /** Under the same condition, rounding moves each quota by less than one unit, so every amount is within two
      units of the exact quota; and each rounded quota is the exact one up to the accumulated factors. */
  lemma RoundedAmountsAreClose(total: int, weights: seq<real>, sums: seq<real>, products: seq<real>, quotas: seq<real>,
                               u: real, amounts: seq<int>, i: nat)
    requires total >= 0 && |weights| > 0 && 0.0 <= u < 1.0
    requires forall i :: 0 <= i < |weights| ==> weights[i] >= 0.0
    requires RoundedTotals(weights, sums, u) && sums[|weights|] > 0.0
    requires RoundedQuotas(total, weights, sums[|weights|], products, quotas, u)
    requires Times(total as real, Times(1.0 + u, 1.0 + u)) <
      Times(total as real + 1.0, 1.0 - Times(|weights| as real, u))
    requires IsLargestRemainder(total, quotas, amounts) && i < |weights|
    ensures SumReal(weights) > 0.0
    ensures var q, e := Quotas(total, weights)[i], 1.0 - Times(|weights| as real, u);
            && Times(quotas[i], e) <= Times(q, Times(1.0 + u, 1.0 + u))
            && Times(Times(q, Times(1.0 - u, 1.0 - u)), e) <= quotas[i]
            && -1.0 < quotas[i] - q < 1.0
            && -2.0 < amounts[i] as real - q < 2.0
  {
    var n, t, w, v := |weights|, total as real, SumReal(weights), sums[|weights|];
    var e, x := 1.0 - Times(n as real, u), weights[i];
    PositiveWhole(total, weights, sums, u);
    var q := Ratio(Times(t, x), w);
    assert Quotas(total, weights)[i] == q;
    assert quotas[i].Floor <= amounts[i] <= quotas[i].Floor + 1;
    hide Times, Ratio, IsLargestRemainder, Quotas;
    assert weights[..n] == weights;
    TotalsFrom(weights, sums, u, n);
    TotalsUpTo(weights, sums, u, n);
    LossFactor(n as real, u, t);
    QuotaBelow(t, x, v, products[i], quotas[i], u);
    QuotaAbove(t, x, v, products[i], quotas[i], u);
    AtMostTheWhole(weights, i);
    ExactQuota(t, x, w);
    FromAbove(t, x, w, v, u, e, q, quotas[i]);
    FromBelow(t, x, w, v, u, e, q, quotas[i]);
  }

  /** A positive rounded total comes from a positive total. */
  lemma PositiveWhole(total: int, weights: seq<real>, sums: seq<real>, u: real)
    requires total >= 0 && |weights| > 0 && 0.0 <= u < 1.0
    requires forall i :: 0 <= i < |weights| ==> weights[i] >= 0.0
    requires RoundedTotals(weights, sums, u) && sums[|weights|] > 0.0
    requires Times(total as real, Times(1.0 + u, 1.0 + u)) <
      Times(total as real + 1.0, 1.0 - Times(|weights| as real, u))
    ensures SumReal(weights) > 0.0
  {
    hide Times;
    var n := |weights|;
    TotalsUpTo(weights, sums, u, n);
    assert weights[..n] == weights;
    LossFactor(n as real, u, total as real);
    NonNegativeProduct(sums[n], 1.0 - Times(n as real, u));
  }

  lemma {:induction false} AtMostTheWhole(weights: seq<real>, i: nat)
    requires i < |weights| && forall j :: 0 <= j < |weights| ==> weights[j] >= 0.0
    ensures weights[i] <= SumReal(weights)
  {
    var n := |weights| - 1;
    NonNegativeSum(weights[..n]);
    if i < n {
      AtMostTheWhole(weights[..n], i);
    }
  }

  lemma ExactQuota(t: real, x: real, w: real)
    requires t >= 0.0 && 0.0 <= x <= w && w > 0.0
    ensures var q := Ratio(Times(t, x), w); 0.0 <= q <= t && Times(q, w) == Times(t, x)
  {
    hide Times, Ratio;
    NonNegativeProduct(t, x);
    TimesMono(x, w, t);
    RatioLaws(Times(t, x), 0.0, w);
    RatioLaws(Times(t, w), Times(t, x), w);
    RatioOfProduct(t, w);
  }

  lemma FromAbove(t: real, x: real, w: real, v: real, u: real, e: real, q: real, r: real)
    requires t >= 0.0 && x >= 0.0 && w > 0.0 && v > 0.0 && 0.0 <= u < 1.0 && 0.0 < e <= 1.0 && 0.0 <= q <= t
    requires Times(q, w) == Times(t, x) && Times(w, e) <= v
    requires Times(r, v) <= Times(Times(t, Times(1.0 + u, 1.0 + u)), x)
    requires Times(t, Times(1.0 + u, 1.0 + u)) < Times(t + 1.0, e)
    ensures Times(r, e) <= Times(q, Times(1.0 + u, 1.0 + u)) && r - q < 1.0
  {
    hide Times;
    var g := Times(1.0 + u, 1.0 + u);
    NonNegativeProduct(1.0 + u, 1.0 + u);
    NonNegativeProduct(q, g);
    TimesUnits(1.0 + u);
    TimesMono(1.0, 1.0 + u, 1.0 + u);
    TimesAssoc(t, g, x);
    TimesAssoc(t, x, g);
    TimesAssoc(q, w, g);
    TimesAssoc(q, g, w);
    assert Times(r, v) <= Times(Times(q, g), w);
    ScaleDown(r, v, w, e, Times(q, g));
    GapAbove(t, q, g, e, r);
  }

  /** Cancels a weight: from r * v <= c * w and w * e <= v to r * e <= c. */
  lemma ScaleDown(r: real, v: real, w: real, e: real, c: real)
    requires c >= 0.0 && w > 0.0 && v > 0.0 && e > 0.0 && Times(w, e) <= v && Times(r, v) <= Times(c, w)
    ensures Times(r, e) <= c
  {
    hide Times;
    if r <= 0.0 {
      TimesMono(r, 0.0, e);
      TimesUnits(e);
    } else {
      TimesMono(Times(w, e), v, r);
      TimesAssoc(r, e, w);
      TimesAssoc(r, w, e);
      assert Times(Times(r, e), w) <= Times(c, w);
      if Times(r, e) > c {
        TimesMono(c, Times(r, e), w);
      }
    }
  }

  lemma GapAbove(t: real, q: real, g: real, e: real, r: real)
    requires 0.0 <= q <= t && 0.0 < e <= 1.0 && g >= 1.0 && Times(r, e) <= Times(q, g)
    requires Times(t, g) < Times(t + 1.0, e)
    ensures r - q < 1.0
  {
    hide Times;
    // Times(r - q, e) <= Times(q, g - e) <= Times(t, g - e) < e
    TimesSum(e, r - q, q);
    TimesSum(q, g - e, e);
    TimesSum(t, g - e, e);
    TimesMono(q, t, g - e);
    TimesSum(e, t, 1.0);
    TimesUnits(e);
    TimesAssoc(t, e, 1.0);
    TimesAssoc(q, e, 1.0);
    assert Times(r - q, e) < e;
    if r - q >= 1.0 {
      TimesMono(1.0, r - q, e);
    }
  }

  lemma FromBelow(t: real, x: real, w: real, v: real, u: real, e: real, q: real, r: real)
    requires t >= 0.0 && x >= 0.0 && w > 0.0 && v > 0.0 && 0.0 <= u < 1.0 && 0.0 < e <= 1.0 && 0.0 <= q <= t
    requires Times(q, w) == Times(t, x) && Times(v, e) <= w
    requires Times(Times(t, Times(1.0 - u, 1.0 - u)), x) <= Times(r, v)
    requires Times(t, Times(1.0 + u, 1.0 + u)) < Times(t + 1.0, e)
    ensures Times(Times(q, Times(1.0 - u, 1.0 - u)), e) <= r && q - r < 1.0
  {
    hide Times;
    var l := Times(1.0 - u, 1.0 - u);
    NonNegativeProduct(1.0 - u, 1.0 - u);
    NonNegativeProduct(q, l);
    TimesAssoc(t, l, x);
    TimesAssoc(t, x, l);
    TimesAssoc(q, w, l);
    TimesAssoc(q, l, w);
    assert Times(Times(q, l), w) <= Times(r, v);
    ScaleUp(r, v, w, e, Times(q, l));
    LastUnit(t, u, e);
    Shrinking(u, e);
    GapBelow(t, q, Times(l, e), r) by {
      TimesAssoc(q, l, e);
      TimesAssoc(t, l, e);
    }
  }

  /** Cancels a weight the other way: from c * w <= r * v and v * e <= w to c * e <= r. */
  lemma ScaleUp(r: real, v: real, w: real, e: real, c: real)
    requires c >= 0.0 && v > 0.0 && Times(v, e) <= w && Times(c, w) <= Times(r, v)
    ensures Times(c, e) <= r
  {
    hide Times;
    TimesMono(Times(v, e), w, c);
    TimesAssoc(c, e, v);
    TimesAssoc(c, v, e);
    assert Times(Times(c, e), v) <= Times(r, v);
    if Times(c, e) > r {
      TimesMono(r, Times(c, e), v);
    }
  }

  lemma Shrinking(u: real, e: real)
    requires 0.0 <= u < 1.0 && 0.0 < e <= 1.0
    ensures Times(Times(1.0 - u, 1.0 - u), e) <= 1.0
  {
    hide Times;
    TimesMono(1.0 - u, 1.0, 1.0 - u);
    TimesUnits(1.0 - u);
    NonNegativeProduct(1.0 - u, 1.0 - u);
    var l := Times(1.0 - u, 1.0 - u);
    TimesMono(e, 1.0, l);
    TimesUnits(l);
  }

  lemma GapBelow(t: real, q: real, h: real, r: real)
    requires 0.0 <= q <= t && h <= 1.0 && Times(q, h) <= r && Times(t, h) > t - 1.0
    ensures q - r < 1.0
  {
    hide Times;
    TimesSum(q, h, 1.0 - h);
    TimesSum(t, h, 1.0 - h);
    TimesUnits(q);
    TimesUnits(t);
    TimesMono(q, t, 1.0 - h);
  }

  lemma FloorsFromBelow(total: int, weights: seq<real>, sums: seq<real>, products: seq<real>, quotas: seq<real>,
                        u: real)
    requires total >= 0 && |weights| > 0 && 0.0 <= u < 1.0
    requires forall i :: 0 <= i < |weights| ==> weights[i] >= 0.0
    requires RoundedTotals(weights, sums, u) && sums[|weights|] > 0.0
    requires RoundedQuotas(total, weights, sums[|weights|], products, quotas, u)
    requires Times(total as real, Times(1.0 + u, 1.0 + u)) <
      Times(total as real + 1.0, 1.0 - Times(|weights| as real, u))
    ensures total <= Sum(Floors(quotas)) + |quotas|
  {
    hide Times, Ratio;
    var n, t, v := |weights|, total as real, sums[|weights|];
    var c, e := Times(t, Times(1.0 - u, 1.0 - u)), 1.0 - Times(|weights| as real, u);
    TotalsUpTo(weights, sums, u, n);
    assert weights[..n] == weights;
    forall i | 0 <= i < n ensures Times(c, weights[i]) <= Times(quotas[i], v) {
      QuotaAbove(t, weights[i], v, products[i], quotas[i], u);
    }
    ScaledFrom(quotas, weights, v, c);
    NonNegativeProduct(1.0 - u, 1.0 - u);
    NonNegativeProduct(t, Times(1.0 - u, 1.0 - u));
    LossFactor(n as real, u, t);
    LastUnit(t, u, e);
    AboveLastUnit(c, e, SumReal(weights), v, SumReal(quotas), t - 1.0);
    FloorsBelow(quotas);
  }

  lemma LossFactor(n: real, u: real, t: real)
    requires n >= 0.0 && u >= 0.0 && t >= 0.0 && Times(t, Times(1.0 + u, 1.0 + u)) < Times(t + 1.0, 1.0 - Times(n, u))
    ensures 0.0 < 1.0 - Times(n, u) <= 1.0
  {
    hide Times;
    NonNegativeProduct(n, u);
    NonNegativeProduct(1.0 + u, 1.0 + u);
    NonNegativeProduct(t, Times(1.0 + u, 1.0 + u));
    var e := 1.0 - Times(n, u);
    if e <= 0.0 {
      TimesMono(e, 0.0, t + 1.0);
      TimesUnits(t + 1.0);
    }
  }

  /** What the upper bound leaves for the lower one. */
  lemma LastUnit(t: real, u: real, e: real)
    requires t >= 0.0 && 0.0 <= u < 1.0 && 0.0 < e <= 1.0
    requires Times(t, Times(1.0 + u, 1.0 + u)) < Times(t + 1.0, e)
    ensures Times(Times(t, Times(1.0 - u, 1.0 - u)), e) > t - 1.0
  {
    hide Times;
    var g, l := Times(1.0 + u, 1.0 + u), Times(1.0 - u, 1.0 - u);
    var h := Times(l, e);
    Squares(u, e);
    TimesMono(1.0 + e, g + h, t);
    TimesSum(t, 1.0, e);
    TimesSum(t, g, h);
    TimesUnits(t);
    TimesUnits(e);
    TimesSum(e, t, 1.0);
    TimesAssoc(t, l, e);
  }

  lemma Squares(u: real, e: real)
    requires 0.0 <= u < 1.0 && 0.0 < e <= 1.0
    ensures 1.0 + e <= Times(1.0 + u, 1.0 + u) + Times(Times(1.0 - u, 1.0 - u), e)
  {
    hide Times;
    var p := Times(u, u);
    TimesUnits(u);
    TimesUnits(e);
    TimesUnits(1.0 + u);
    TimesUnits(1.0 - u);
    TimesSum(1.0 + u, 1.0, u);
    TimesSum(u, 1.0, u);
    TimesSum(1.0 - u, 1.0 - u, u);
    TimesSum(u, 1.0 - u, u);
    assert Times(1.0 + u, 1.0 + u) == 1.0 + u + u + p;
    assert Times(1.0 - u, 1.0 - u) == 1.0 - u - u + p;
    var x := u + u - p;
    TimesSum(e, 1.0 - x, x);
    TimesMono(u, 1.0, u);
    NonNegativeProduct(u, u);
    TimesMono(e, 1.0, x);
    TimesUnits(x);
    TimesAssoc(x, e, 1.0);
  }

  lemma AboveLastUnit(c: real, e: real, w: real, v: real, q: real, bound: real)
    requires c >= 0.0 && v > 0.0 && Times(v, e) <= w && Times(c, w) <= Times(q, v) && Times(c, e) > bound
    ensures q > bound
  {
    hide Times;
    TimesMono(Times(v, e), w, c);
    TimesAssoc(c, e, v);
    TimesAssoc(c, v, e);
    assert Times(Times(c, e), v) <= Times(q, v);
    if q < Times(c, e) {
      TimesMono(q, Times(c, e), v);
    }
  }

  /** The rounded running total gains at most a factor 1 / (1 - k * u) after k additions. */
  lemma {:induction false} TotalsUpTo(weights: seq<real>, sums: seq<real>, u: real, k: nat)
    requires RoundedTotals(weights, sums, u) && k <= |weights| && 0.0 <= u < 1.0
    requires forall i :: 0 <= i < |weights| ==> weights[i] >= 0.0
    ensures Times(sums[k], 1.0 - Times(k as real, u)) <= SumReal(weights[..k])
  {
    hide Times;
    if k > 0 {
      TotalsUpTo(weights, sums, u, k - 1);
      TotalsFrom(weights, sums, u, k - 1);
      SumRealPrefix(weights, k - 1);
      NonNegativeSum(weights[..k - 1]);
      assert RoundedAddition(weights, sums, u, k - 1);
      GainStep(SumReal(weights[..k - 1]), weights[k - 1], u, (k - 1) as real, sums[k - 1], sums[k]);
    } else {
      TimesUnits(1.0 - Times(0.0, u));
    }
  }

  lemma GainStep(s: real, x: real, u: real, k: real, prior: real, next: real)
    requires s >= 0.0 && x >= 0.0 && 0.0 <= u < 1.0 && k >= 0.0 && prior >= 0.0
    requires Times(prior, 1.0 - Times(k, u)) <= s && Rounded(next, prior + x, u)
    ensures Times(next, 1.0 - Times(k + 1.0, u)) <= s + x
  {
    hide Times;
    var e, f, g, y := 1.0 - Times(k, u), 1.0 - Times(k + 1.0, u), 1.0 + u, prior + x;
    TimesUnits(y);
    TimesMono(0.0, 1.0 - u, y);
    if f <= 0.0 {
      TimesMono(f, 0.0, next);
      TimesUnits(next);
    } else {
      TimesMono(next, Times(y, g), f);
      TimesAssoc(y, g, f);
      GainFactor(k, u);
      TimesMono(Times(g, f), e, y);
      TimesSum(e, prior, x);
      NonNegativeProduct(k, u);
      TimesMono(e, 1.0, x);
      TimesUnits(x);
    }
  }

  lemma GainFactor(k: real, u: real)
    requires k >= 0.0 && u >= 0.0
    ensures Times(1.0 + u, 1.0 - Times(k + 1.0, u)) <= 1.0 - Times(k, u)
  {
    hide Times;
    var z := Times(k + 1.0, u);
    TimesUnits(u);
    TimesSum(u, k, 1.0);
    NonNegativeProduct(k + 1.0, u);
    NonNegativeProduct(u, z);
    TimesSum(1.0 - z, 1.0, u);
    TimesUnits(1.0 - z);
    TimesSum(u, 1.0 - z, z);
  }

  lemma {:induction false} ScaledFrom(quotas: seq<real>, weights: seq<real>, v: real, c: real)
    requires |quotas| == |weights|
    requires forall i :: 0 <= i < |weights| ==> Times(c, weights[i]) <= Times(quotas[i], v)
    ensures Times(c, SumReal(weights)) <= Times(SumReal(quotas), v)
  {
    hide Times;
    if |weights| > 0 {
      var n := |weights| - 1;
      ScaledFrom(quotas[..n], weights[..n], v, c);
      TimesSum(v, SumReal(quotas[..n]), quotas[n]);
      TimesSum(c, SumReal(weights[..n]), weights[n]);
    } else {
      TimesUnits(v);
      TimesUnits(c);
    }
  }

  lemma QuotaAbove(t: real, x: real, v: real, p: real, q: real, u: real)
    requires t >= 0.0 && x >= 0.0 && v > 0.0 && 0.0 <= u < 1.0
    requires RoundedQuota(t, x, v, p, q, u)
    ensures Times(Times(t, Times(1.0 - u, 1.0 - u)), x) <= Times(q, v)
  {
    hide Times, Ratio;
    var d, g := Ratio(p, v), 1.0 - u;
    RatioLaws(p, 0.0, v);
    TimesMono(Times(d, g), q, v);
    TimesAssoc(d, g, v);
    TimesAssoc(d, v, g);
    TimesMono(Times(Times(t, x), g), p, g);
    TimesAssoc(Times(t, x), g, g);
    TimesAssoc(t, x, Times(g, g));
    TimesAssoc(t, Times(g, g), x);
  }

  lemma FloorsFromAbove(total: int, weights: seq<real>, sums: seq<real>, products: seq<real>, quotas: seq<real>,
                        u: real)
    requires total >= 0 && |weights| > 0 && 0.0 <= u < 1.0
    requires forall i :: 0 <= i < |weights| ==> weights[i] >= 0.0
    requires RoundedTotals(weights, sums, u) && sums[|weights|] > 0.0
    requires RoundedQuotas(total, weights, sums[|weights|], products, quotas, u)
    requires Times(total as real, Times(1.0 + u, 1.0 + u)) <
      Times(total as real + 1.0, 1.0 - Times(|weights| as real, u))
    ensures Sum(Floors(quotas)) <= total
  {
    hide Times, Ratio;
    var n := |weights|;
    var c := Times(total as real, Times(1.0 + u, 1.0 + u));
    TotalsFrom(weights, sums, u, n);
    assert weights[..n] == weights;
    NonNegativeSum(weights);
    forall i | 0 <= i < n ensures Times(quotas[i], sums[n]) <= Times(c, weights[i]) {
      QuotaBelow(total as real, weights[i], sums[n], products[i], quotas[i], u);
    }
    ScaledBound(quotas, weights, sums[n], c);
    BelowNextUnit(total as real + 1.0, c, 1.0 - Times(n as real, u), SumReal(weights), sums[n], SumReal(quotas));
    FloorsBelow(quotas);
  }

  lemma BelowNextUnit(d: real, c: real, e: real, w: real, v: real, q: real)
    requires d > 0.0 && w >= 0.0 && v > 0.0 && v >= Times(w, e)
    requires c < Times(d, e) && Times(q, v) <= Times(c, w)
    ensures q < d
  {
    hide Times;
    TimesUnits(v);
    TimesUnits(c);
    TimesMono(0.0, d, v);
    TimesMono(Times(w, e), v, d);
    TimesAssoc(d, e, w);
    TimesMono(c, Times(d, e), w);
    assert Times(q, v) < Times(d, v);
    if q >= d {
      TimesMono(d, q, v);
    }
  }

  lemma {:induction false} NonNegativeSum(weights: seq<real>)
    requires forall i :: 0 <= i < |weights| ==> weights[i] >= 0.0
    ensures SumReal(weights) >= 0.0
  {
    if |weights| > 0 {
      NonNegativeSum(weights[..|weights| - 1]);
    }
  }

  /** The rounded running total loses at most a factor 1 - k * u after k additions. */
  lemma {:induction false} TotalsFrom(weights: seq<real>, sums: seq<real>, u: real, k: nat)
    requires RoundedTotals(weights, sums, u) && k <= |weights| && 0.0 <= u < 1.0
    requires forall i :: 0 <= i < |weights| ==> weights[i] >= 0.0
    ensures sums[k] >= 0.0
    ensures sums[k] >= Times(SumReal(weights[..k]), 1.0 - Times(k as real, u))
  {
    hide Times;
    if k > 0 {
      TotalsFrom(weights, sums, u, k - 1);
      SumRealPrefix(weights, k - 1);
      NonNegativeSum(weights[..k - 1]);
      assert RoundedAddition(weights, sums, u, k - 1);
      RoundingStep(SumReal(weights[..k - 1]), weights[k - 1], u, (k - 1) as real, sums[k - 1], sums[k]);
    } else {
      TimesUnits(1.0 - Times(0.0, u));
    }
  }

  lemma RoundingStep(s: real, x: real, u: real, k: real, prior: real, next: real)
    requires s >= 0.0 && x >= 0.0 && 0.0 <= u < 1.0 && k >= 0.0
    requires prior >= 0.0 && prior >= Times(s, 1.0 - Times(k, u))
    requires Rounded(next, prior + x, u)
    ensures next >= 0.0 && next >= Times(s + x, 1.0 - Times(k + 1.0, u))
  {
    hide Times;
    var e, v := 1.0 - Times(k, u), 1.0 - u;
    TimesUnits(u);
    TimesUnits(x);
    TimesUnits(v);
    TimesMono(0.0, k, u);
    TimesMono(e, 1.0, x);
    TimesSum(e, s, x);
    TimesMono(Times(s + x, e), prior + x, v);
    TimesMono(0.0, prior + x, v);
    FactorStep(k, u);
    TimesMono(1.0 - Times(k + 1.0, u), Times(e, v), s + x);
    TimesAssoc(s + x, e, v);
  }

  lemma FactorStep(k: real, u: real)
    requires k >= 0.0 && u >= 0.0
    ensures 1.0 - Times(k + 1.0, u) <= Times(1.0 - Times(k, u), 1.0 - u)
  {
    hide Times;
    var z := Times(k, u);
    TimesUnits(u);
    TimesUnits(z);
    TimesMono(0.0, k, u);
    TimesMono(0.0, z, u);
    TimesSum(u, k, 1.0);
    TimesSum(u, 1.0 - z, z);
    TimesSum(1.0 - z, 1.0 - u, u);
    TimesUnits(1.0 - z);
  }

  lemma {:induction false} ScaledBound(quotas: seq<real>, weights: seq<real>, v: real, c: real)
    requires |quotas| == |weights|
    requires forall i :: 0 <= i < |weights| ==> Times(quotas[i], v) <= Times(c, weights[i])
    ensures Times(SumReal(quotas), v) <= Times(c, SumReal(weights))
  {
    hide Times;
    if |weights| > 0 {
      var n := |weights| - 1;
      ScaledBound(quotas[..n], weights[..n], v, c);
      TimesSum(v, SumReal(quotas[..n]), quotas[n]);
      TimesSum(c, SumReal(weights[..n]), weights[n]);
    } else {
      TimesUnits(v);
      TimesUnits(c);
    }
  }

  lemma QuotaBelow(t: real, x: real, v: real, p: real, q: real, u: real)
    requires t >= 0.0 && x >= 0.0 && v > 0.0 && 0.0 <= u < 1.0
    requires RoundedQuota(t, x, v, p, q, u)
    ensures Times(q, v) <= Times(Times(t, Times(1.0 + u, 1.0 + u)), x)
  {
    hide Times, Ratio;
    var d, g := Ratio(p, v), 1.0 + u;
    RatioLaws(p, 0.0, v);
    TimesMono(q, Times(d, g), v);
    TimesAssoc(d, g, v);
    TimesAssoc(d, v, g);
    // Times(Times(d, g), v) == Times(p, g)
    TimesMono(p, Times(Times(t, x), g), g);
    TimesAssoc(Times(t, x), g, g);
    TimesAssoc(t, x, Times(g, g));
    TimesAssoc(t, Times(g, g), x);
  }

  // ---------------------------------------------------------------- basis-point split

  datatype Split = Split(customer: int, operator: int)

  /** BigInt division truncates toward zero. */
  function TruncDiv(a: int, b: int): int
    requires b > 0
  {
    if a >= 0 then a / b else -((-a) / b)
  }

  function SplitBasisPoints(total: int, customerBps: int): (r: Option<Split>)
    ensures r.None? <==> customerBps < 0 || customerBps > 10000
    ensures r.Some? ==> r.value.customer + r.value.operator == total
    ensures r.Some? && total >= 0 ==>
      && 0 <= r.value.customer <= total
      && r.value.customer * 10000 <= total * customerBps < (r.value.customer + 1) * 10000
  {
    if customerBps < 0 || customerBps > 10000 then None
    else
      var customer := TruncDiv(total * customerBps, 10000);
      assert total >= 0 ==> 0 <= total * customerBps <= total * 10000;
      Some(Split(customer, total - customer))
  }
}
