/** Share records (apps/server/src/gateway/share-journal.service.ts and share-maintenance.service.ts)
    and their assignment to allocation batches. */
module Shares {
  import opened Common
  import Deposits

  datatype Status = Pending | Accepted | Rejected | Unknown

  // ---------------------------------------------------------------- what the pool answers

  /** A field of a JSON-RPC reply, as far as the acceptance rules look at it. */
  datatype Field = Undefined | Null | Bool(b: bool) | Falsy | Truthy

  datatype Answer = Answer(result: Field, error: Field)

  datatype Rule = BitcoinRule | MoneroRule

  predicate IsTrue(f: Field) {
    f == Truthy || f == Bool(true)
  }

  /** Whether a reply accepts the share. */
  predicate Accepts(rule: Rule, a: Answer) {
    match rule
    case BitcoinRule => a.result == Bool(true) && (a.error == Null || a.error == Undefined)
    case MoneroRule => !IsTrue(a.error) && a.result != Null && a.result != Bool(false)
  }

  /** A success reply in the sense of section 5 of the JSON-RPC 2.0 Specification, or of the older
      dialect with a null error: a result is present and does not say no, and there is no error. */
  predicate Positive(a: Answer) {
    a.result !in {Undefined, Null, Bool(false)} && a.error in {Undefined, Null}
  }

  /** The Bitcoin rule accepts exactly the success replies whose result is `true`: these two, and no other. The
      Monero rule refuses exactly the replies with a truthy error and those whose result is null or false. So it
      accepts all success replies, and beyond them exactly the replies without a result or with a falsy error
      that is not null. */
  lemma AcceptanceIsPositive(a: Answer)
    ensures Accepts(BitcoinRule, a) <==> Positive(a) && a.result == Bool(true)
    ensures Accepts(BitcoinRule, a) <==> a == Answer(Bool(true), Null) || a == Answer(Bool(true), Undefined)
    ensures !Accepts(MoneroRule, a) <==>
      a.error == Bool(true) || a.error == Truthy || a.result == Null || a.result == Bool(false)
    ensures Positive(a) ==> Accepts(MoneroRule, a)
    ensures Accepts(MoneroRule, a) ==>
      (Positive(a) <==> a.result != Undefined && a.error in {Undefined, Null})
    ensures forall rule :: Accepts(rule, a) <==> SaysYes(rule, a)
    ensures var silent := Answer(Undefined, Undefined); Accepts(MoneroRule, silent) && !Positive(silent)
  {
  }

  /** What a yes looks like: behind a Bitcoin endpoint one of two replies; behind a Monero endpoint everything but
      a result that says no or an error that says anything. */
  predicate SaysYes(rule: Rule, a: Answer) {
    if rule == BitcoinRule then a in {Answer(Bool(true), Null), Answer(Bool(true), Undefined)}
    else a.result !in {Null, Bool(false)} && a.error in {Null, Undefined, Falsy, Bool(false)}
  }

  // ---------------------------------------------------------------- the table

  /** Where the reference to a share is: nowhere but in the submit handler, in the pending map
      under an upstream id, in a handler that is recording the answer, or nowhere any more. */
  datatype Place =
    | AtGateway
    | Forwarded(id: nat)
    | Answered(id: nat, answer: Answer)
    | Recorded(id: nat, answer: Answer)
    | Lost(id: nat, answer: Answer)

  /** A row. Deleted rows keep their place in the sequence, so that their past can be spoken of;
      no operation reads them. `place` and `verdict` are history, not columns. */
  datatype Share = Share(
    session: nat, endpoint: nat, customer: nat, policy: nat, work: real,
    status: Status, batch: Option<nat>, deleted: bool, place: Place, verdict: Option<bool>)

  predicate Allocatable(row: Share, endpoints: set<nat>) {
    !row.deleted && row.status == Accepted && row.batch.None? && row.endpoint in endpoints
  }

  /** The `update` inside `resolve`. */
  function Resolved(row: Share, accepted: bool): Share {
    row.(status := if accepted then Accepted else Rejected, verdict := Some(accepted))
  }

  predicate Unanswered(row: Share) {
    !row.deleted && row.status == Pending
  }

  /** The `updateMany` of `unknown` and of `reconcilePending`. */
  function MarkUnknown(rows: seq<Share>, refs: set<nat>): (r: seq<Share>)
    ensures |r| == |rows|
  {
    seq(|rows|, i requires 0 <= i < |rows| =>
      if i in refs && Unanswered(rows[i]) then rows[i].(status := Unknown) else rows[i])
  }

  predicate Prunable(row: Share) {
    (row.status == Accepted && row.batch.Some?) || row.status == Rejected || row.status == Unknown
  }

  /** `pruneRawShares`, for the rows older than the cutoff. */
  function Pruned(rows: seq<Share>, old': set<nat>): (r: seq<Share>)
    ensures |r| == |rows|
  {
    seq(|rows|, i requires 0 <= i < |rows| =>
      if i in old' && Prunable(rows[i]) then rows[i].(deleted := true) else rows[i])
  }

  /** The `updateMany` of `allocateDeposit`. */
  function Marked(rows: seq<Share>, endpoints: set<nat>, batch: nat): (r: seq<Share>)
    ensures |r| == |rows|
  {
    seq(|rows|, i requires 0 <= i < |rows| =>
      if Allocatable(rows[i], endpoints) then rows[i].(batch := Some(batch)) else rows[i])
  }

  // ---------------------------------------------------------------- work

  /** Groups of rows whose work is added up. */
  datatype Kind =
    | EverAccepted
    | Assigned(below: nat)
    | Waiting
    | InBatch(b: nat, customer: nat, policy: nat)
    | WholeBatch(b: nat)
    | Eligible(endpoints: set<nat>, customer: nat, policy: nat)
    | AllEligible(endpoints: set<nat>)
    | Verdicts(session: nat, accepted: bool)

  predicate Counts(k: Kind, row: Share) {
    match k
    case EverAccepted => row.verdict == Some(true)
    case Assigned(n) => row.batch.Some? && row.batch.value < n
    case Waiting => !row.deleted && row.status == Accepted && row.batch.None?
    case InBatch(b, c, p) => row.batch == Some(b) && row.customer == c && row.policy == p
    case WholeBatch(b) => row.batch == Some(b)
    case Eligible(e, c, p) =>
      !row.deleted && row.status == Accepted && row.batch.None? && row.endpoint in e &&
        row.customer == c && row.policy == p
    case AllEligible(e) => !row.deleted && row.status == Accepted && row.batch.None? && row.endpoint in e
    case Verdicts(s, accepted) => row.session == s && row.verdict == Some(accepted)
  }

  function WorkIf(k: Kind, row: Share): real {
    if Counts(k, row) then row.work else 0.0
  }

  function Work(k: Kind, rows: seq<Share>): real {
    if |rows| == 0 then 0.0
    else Work(k, rows[..|rows| - 1]) + WorkIf(k, rows[|rows| - 1])
  }

  function OneIf(k: Kind, row: Share): nat {
    if Counts(k, row) then 1 else 0
  }

  function Count(k: Kind, rows: seq<Share>): nat {
    if |rows| == 0 then 0
    else Count(k, rows[..|rows| - 1]) + OneIf(k, rows[|rows| - 1])
  }

  lemma SameWork(k: Kind, rows: seq<Share>, k': Kind, rows': seq<Share>)
    requires |rows| == |rows'|
    requires forall i :: 0 <= i < |rows| ==>
      rows[i].work == rows'[i].work && (Counts(k, rows[i]) <==> Counts(k', rows'[i]))
    ensures Work(k, rows) == Work(k', rows') && Count(k, rows) == Count(k', rows')
  {
    hide Counts, Work, Count;
    AlikeWork(k, rows, k', rows');
    AlikeCount(k, rows, k', rows');
  }

  lemma {:induction false} AlikeWork(k: Kind, rows: seq<Share>, k': Kind, rows': seq<Share>)
    requires |rows| == |rows'| && forall i :: 0 <= i < |rows| ==> WorkIf(k, rows[i]) == WorkIf(k', rows'[i])
    ensures Work(k, rows) == Work(k', rows')
  {
    hide WorkIf;
    if |rows| > 0 {
      AlikeWork(k, rows[..|rows| - 1], k', rows'[..|rows| - 1]);
    }
  }

  lemma {:induction false} AlikeCount(k: Kind, rows: seq<Share>, k': Kind, rows': seq<Share>)
    requires |rows| == |rows'| && forall i :: 0 <= i < |rows| ==> OneIf(k, rows[i]) == OneIf(k', rows'[i])
    ensures Count(k, rows) == Count(k', rows')
  {
    hide OneIf;
    if |rows| > 0 {
      AlikeCount(k, rows[..|rows| - 1], k', rows'[..|rows| - 1]);
    }
  }

  lemma {:induction false} SplitWork(k: Kind, a: Kind, b: Kind, rows: seq<Share>)
    requires forall i :: 0 <= i < |rows| ==>
      (Counts(k, rows[i]) <==> Counts(a, rows[i]) || Counts(b, rows[i])) && !(Counts(a, rows[i]) && Counts(b, rows[i]))
    ensures Work(k, rows) == Work(a, rows) + Work(b, rows)
  {
    hide Counts;
    if |rows| > 0 {
      SplitWork(k, a, b, rows[..|rows| - 1]);
    }
  }

  lemma {:induction false} NoWork(k: Kind, rows: seq<Share>)
    requires forall i :: 0 <= i < |rows| ==> !Counts(k, rows[i])
    ensures Work(k, rows) == 0.0 && Count(k, rows) == 0
  {
    hide Counts;
    if |rows| > 0 {
      NoWork(k, rows[..|rows| - 1]);
    }
  }

  lemma {:induction false} CountUpdate(k: Kind, rows: seq<Share>, i: nat, row: Share)
    requires i < |rows|
    ensures Count(k, rows[i := row]) == Count(k, rows) - OneIf(k, rows[i]) + OneIf(k, row)
  {
    hide Counts;
    var n := |rows| - 1;
    if i == n {
      assert rows[i := row][..n] == rows[..n];
    } else {
      assert rows[i := row][..n] == rows[..n][i := row];
      CountUpdate(k, rows[..n], i, row);
    }
  }

  lemma CountAppend(k: Kind, rows: seq<Share>, row: Share)
    ensures Count(k, rows + [row]) == Count(k, rows) + OneIf(k, row)
  {
    assert (rows + [row])[..|rows|] == rows;
  }

  // ---------------------------------------------------------------- grouping

  function AddWork(groups: seq<Deposits.Group>, customer: nat, policy: nat, work: real): seq<Deposits.Group> {
    if |groups| == 0 then [Deposits.Group(customer, policy, work)]
    else
      var n := |groups| - 1;
      if groups[n].customer == customer &&
        groups[n].policy == policy then groups[..n] + [groups[n].(work := groups[n].work + work)]
      else AddWork(groups[..n], customer, policy, work) + [groups[n]]
  }

  /** The `groupBy`: accepted, unallocated work of these endpoints per customer and policy. */
  function Grouped(rows: seq<Share>, endpoints: set<nat>): seq<Deposits.Group> {
    if |rows| == 0 then []
    else
      var row := rows[|rows| - 1];
      var earlier := Grouped(rows[..|rows| - 1], endpoints);
      if Allocatable(row, endpoints) then AddWork(earlier, row.customer, row.policy, row.work) else earlier
  }

  ghost predicate DistinctGroups(groups: seq<Deposits.Group>) {
    forall i, j :: 0 <= i < j < |groups| ==>
      groups[i].customer != groups[j].customer || groups[i].policy != groups[j].policy
  }

  function GroupWork(groups: seq<Deposits.Group>, customer: nat, policy: nat): real {
    if |groups| == 0 then 0.0
    else
      var g := groups[|groups| - 1];
      GroupWork(groups[..|groups| - 1], customer, policy) +
        (if g.customer == customer && g.policy == policy then g.work else 0.0)
  }

  predicate HasKey(groups: seq<Deposits.Group>, customer: nat, policy: nat) {
    exists i :: 0 <= i < |groups| && groups[i].customer == customer && groups[i].policy == policy
  }

  lemma {:induction false} AddWorkKeys(groups: seq<Deposits.Group>, customer: nat, policy: nat, work: real, c: nat,
                                       p: nat)
    ensures HasKey(AddWork(groups, customer, policy, work), c, p) <==>
      HasKey(groups, c, p) || (c == customer && p == policy)
  {
    if |groups| == 0 {
      var r := AddWork(groups, customer, policy, work);
      assert r[0].customer == customer;
    } else {
      var n := |groups| - 1;
      var g := groups[n];
      KeysOfLast(groups, c, p);
      KeysOfLast(AddWork(groups, customer, policy, work), c, p);
      if g.customer == customer && g.policy == policy {
        assert AddWork(groups, customer, policy, work)[..n] == groups[..n];
      } else {
        AddWorkKeys(groups[..n], customer, policy, work, c, p);
        var r := AddWork(groups, customer, policy, work);
        assert r[..|r| - 1] == AddWork(groups[..n], customer, policy, work);
      }
    }
  }

  lemma KeysOfLast(groups: seq<Deposits.Group>, c: nat, p: nat)
    requires |groups| > 0
    ensures var n := |groups| - 1;
            HasKey(groups, c, p) <==> HasKey(groups[..n], c, p) || (groups[n].customer == c && groups[n].policy == p)
  {
    var n := |groups| - 1;
    if HasKey(groups[..n], c, p) {
      var i :| 0 <= i < n && groups[..n][i].customer == c && groups[..n][i].policy == p;
      assert groups[i].customer == c && groups[i].policy == p;
    }
    if HasKey(groups, c, p) && !(groups[n].customer == c && groups[n].policy == p) {
      var i :| 0 <= i < |groups| && groups[i].customer == c && groups[i].policy == p;
      assert groups[..n][i].customer == c && groups[..n][i].policy == p;
    }
  }

  lemma {:induction false} AddWorkAdds(groups: seq<Deposits.Group>, customer: nat, policy: nat, work: real, c: nat,
                                       p: nat)
    requires DistinctGroups(groups)
    ensures DistinctGroups(AddWork(groups, customer, policy, work))
    ensures GroupWork(AddWork(groups, customer, policy, work), c, p)
         == GroupWork(groups, c, p) + (if c == customer && p == policy then work else 0.0)
  {
    var r := AddWork(groups, customer, policy, work);
    if |groups| == 0 {
      assert r[..0] == [];
    } else {
      var n := |groups| - 1;
      var g := groups[n];
      if g.customer == customer && g.policy == policy {
        assert r[..n] == groups[..n];
      } else {
        AddWorkAdds(groups[..n], customer, policy, work, c, p);
        assert r[..|r| - 1] == AddWork(groups[..n], customer, policy, work);
        AddWorkKeys(groups[..n], customer, policy, work, g.customer, g.policy);
        assert !HasKey(groups[..n], g.customer, g.policy);
      }
    }
  }

  /** Grouping loses nothing and mixes nothing: one group per customer and policy, with exactly the
      work of the rows that will be marked. */
  lemma {:induction false} GroupedWork(rows: seq<Share>, endpoints: set<nat>, c: nat, p: nat)
    ensures DistinctGroups(Grouped(rows, endpoints))
    ensures GroupWork(Grouped(rows, endpoints), c, p) == Work(Eligible(endpoints, c, p), rows)
  {
    hide AddWork;
    if |rows| > 0 {
      var n := |rows| - 1;
      GroupedWork(rows[..n], endpoints, c, p);
      if Allocatable(rows[n], endpoints) {
        AddWorkAdds(Grouped(rows[..n], endpoints), rows[n].customer, rows[n].policy, rows[n].work, c, p);
      }
    }
  }

  lemma {:induction false} AbsentGroup(groups: seq<Deposits.Group>, c: nat, p: nat)
    requires !HasKey(groups, c, p)
    ensures GroupWork(groups, c, p) == 0.0 && !HasKey(Deposits.WithWork(groups), c, p)
    ensures GroupWork(Deposits.WithWork(groups), c, p) == 0.0
  {
    if |groups| > 0 {
      var n := |groups| - 1;
      KeysOfLast(groups, c, p);
      AbsentGroup(groups[..n], c, p);
      var r := Deposits.WithWork(groups);
      if groups[n].work > 0.0 {
        KeysOfLast(r, c, p);
        assert r[..|r| - 1] == Deposits.WithWork(groups[..n]);
      } else {
        assert r == Deposits.WithWork(groups[..n]);
      }
    }
  }

  function Part(g: Deposits.Group, c: nat, p: nat): real {
    if g.customer == c && g.policy == p then g.work else 0.0
  }

  lemma GroupWorkAppend(groups: seq<Deposits.Group>, g: Deposits.Group, c: nat, p: nat)
    ensures GroupWork(groups + [g], c, p) == GroupWork(groups, c, p) + Part(g, c, p)
  {
    assert (groups + [g])[..|groups|] == groups;
  }

  /** The filter keeps a group's work if it is positive and drops it otherwise. */
  lemma {:induction false} FilteredWork(groups: seq<Deposits.Group>, c: nat, p: nat)
    requires DistinctGroups(groups)
    ensures GroupWork(Deposits.WithWork(groups), c, p) ==
      if GroupWork(groups, c, p) > 0.0 then GroupWork(groups, c, p) else 0.0
  {
    if |groups| > 0 {
      var n := |groups| - 1;
      var g := groups[n];
      FilteredWork(groups[..n], c, p);
      if g.customer == c && g.policy == p {
        assert !HasKey(groups[..n], c, p);
        AbsentGroup(groups[..n], c, p);
      }
      hide GroupWork, DistinctGroups;
      assert groups == groups[..n] + [g];
      GroupWorkAppend(groups[..n], g, c, p);
      GroupWorkAppend(Deposits.WithWork(groups[..n]), g, c, p);
      assert g.work <= 0.0 ==> Deposits.WithWork(groups) == Deposits.WithWork(groups[..n]);
    }
  }

  /** One group per customer and policy with work, and in each the whole work of the accepted, unassigned shares
      of these endpoints. */
  ghost predicate CarriesWork(groups: seq<Deposits.Group>, rows: seq<Share>, endpoints: set<nat>) {
    && DistinctGroups(groups) && (forall i :: 0 <= i < |groups| ==> groups[i].work > 0.0)
    && forall c, p :: GroupWork(groups, c, p) == PositivePart(Work(Eligible(endpoints, c, p), rows))
  }

  function PositivePart(x: real): real {
    if x > 0.0 then x else 0.0
  }

  /** Grouped and filtered, the shares' work is all there, and apart. */
  lemma GroupsCarryWork(rows: seq<Share>, endpoints: set<nat>)
    ensures CarriesWork(Deposits.WithWork(Grouped(rows, endpoints)), rows, endpoints)
  {
    hide Grouped, Work, GroupWork, Deposits.WithWork, DistinctGroups;
    var groups := Grouped(rows, endpoints);
    GroupedWork(rows, endpoints, 0, 0);
    FilteredStaysDistinct(groups);
    forall c, p
      ensures GroupWork(Deposits.WithWork(groups), c, p) == PositivePart(Work(Eligible(endpoints, c, p), rows)) {
      GroupedWork(rows, endpoints, c, p);
      FilteredWork(groups, c, p);
    }
  }

  lemma {:induction false} FilteredStaysDistinct(groups: seq<Deposits.Group>)
    requires DistinctGroups(groups)
    ensures var r := Deposits.WithWork(groups);
            DistinctGroups(r) && forall i :: 0 <= i < |r| ==> r[i].work > 0.0
  {
    if |groups| > 0 {
      var n := |groups| - 1;
      FilteredStaysDistinct(groups[..n]);
      assert !HasKey(groups[..n], groups[n].customer, groups[n].policy);
      AbsentGroup(groups[..n], groups[n].customer, groups[n].policy);
    }
  }

  // ---------------------------------------------------------------- totals

  lemma {:induction false} AddWorkTotal(groups: seq<Deposits.Group>, customer: nat, policy: nat, work: real)
    ensures SumReal(Deposits.Works(AddWork(groups, customer, policy, work))) == SumReal(Deposits.Works(groups)) + work
    ensures work >= 0.0 && NonNegativeGroups(groups) ==> NonNegativeGroups(AddWork(groups, customer, policy, work))
  {
    var r := AddWork(groups, customer, policy, work);
    if |groups| == 0 {
      TotalOfLast(r);
    } else {
      var n := |groups| - 1;
      TotalOfLast(groups);
      TotalOfLast(r);
      if groups[n].customer == customer && groups[n].policy == policy {
        assert r[..n] == groups[..n];
      } else {
        AddWorkTotal(groups[..n], customer, policy, work);
        assert r[..|r| - 1] == AddWork(groups[..n], customer, policy, work);
      }
    }
  }

  ghost predicate NonNegativeGroups(groups: seq<Deposits.Group>) {
    forall i :: 0 <= i < |groups| ==> groups[i].work >= 0.0
  }

  lemma TotalOfLast(groups: seq<Deposits.Group>)
    requires |groups| > 0
    ensures var n := |groups| - 1;
            SumReal(Deposits.Works(groups)) == SumReal(Deposits.Works(groups[..n])) + groups[n].work
  {
    assert Deposits.Works(groups)[..|groups| - 1] == Deposits.Works(groups[..|groups| - 1]);
  }

  lemma {:induction false} GroupedTotal(rows: seq<Share>, endpoints: set<nat>)
    ensures SumReal(Deposits.Works(Grouped(rows, endpoints))) == Work(AllEligible(endpoints), rows)
    ensures (forall i :: 0 <= i < |rows| ==> rows[i].work >= 0.0) ==> NonNegativeGroups(Grouped(rows, endpoints))
  {
    hide AddWork;
    if |rows| > 0 {
      var n := |rows| - 1;
      GroupedTotal(rows[..n], endpoints);
      if Allocatable(rows[n], endpoints) {
        AddWorkTotal(Grouped(rows[..n], endpoints), rows[n].customer, rows[n].policy, rows[n].work);
      }
    }
  }

  lemma {:induction false} FilteredTotal(groups: seq<Deposits.Group>)
    requires NonNegativeGroups(groups)
    ensures SumReal(Deposits.Works(Deposits.WithWork(groups))) == SumReal(Deposits.Works(groups))
  {
    if |groups| > 0 {
      var n := |groups| - 1;
      FilteredTotal(groups[..n]);
      TotalOfLast(groups);
      var r := Deposits.WithWork(groups);
      if groups[n].work > 0.0 {
        TotalOfLast(r);
        assert r[..|r| - 1] == Deposits.WithWork(groups[..n]);
      } else {
        assert r == Deposits.WithWork(groups[..n]);
      }
    }
  }
}
