/** Payout batches: states and transitions (apps/server/src/payouts/payout-state.ts), planning,
    and the journaling of a batch (apps/server/src/payouts/payouts.service.ts). */
module Payouts {
  import opened Common
  import opened Ledger
  import Apportionment
  import WalletFees

  datatype State =
    | Planned | ApprovalRequired | AutoApproved | Signed | Broadcast | Confirmed | Failed | Cancelled

  function Transitions(s: State): set<State> {
    match s
    case Planned => {ApprovalRequired, AutoApproved, Failed, Cancelled}
    case ApprovalRequired => {AutoApproved, Failed, Cancelled}
    case AutoApproved => {Signed, Failed, Cancelled}
    case Signed => {Broadcast, Failed}
    case Broadcast => {Confirmed, Failed}
    case Confirmed => {}
    case Failed => {AutoApproved, Signed, Broadcast}
    case Cancelled => {}
  }

  predicate CanTransition(from: State, to: State) {
    from == to || to in Transitions(from)
  }

  /** OPEN_PAYOUT_STATES. */
  predicate Open(s: State) {
    s != Confirmed && s != Cancelled
  }

  datatype Kind = CustomerBatch | OperatorBatch

  datatype FeePayer = CustomerPays | OperatorPays

  datatype Item = Item(owner: Owner, address: string, gross: int, fee: int, net: int, journaled: bool)

  /** A signed transaction: what leaves the wallet when it is relayed is outputs plus fee. */
  datatype Tx = Tx(id: string, outflow: int)

  /** A batch row with its items. The last four fields are history: the local day and automatic
      limit of its planning, and the fee rule and cap that its signing used. */
  datatype Batch = Batch(
    kind: Kind,
    state: State,
    items: seq<Item>,
    feePayer: Option<FeePayer>,
    maxFeeBps: Option<int>,
    payload: Option<seq<Tx>>,
    txids: seq<string>,
    totalFee: int,
    thresholdHit: bool,
    approver: Option<nat>,
    day: int,
    limit: int,
    deducted: bool,
    feeCap: int)

  /** Who pays the fee of an item when it is journaled: the policy snapshot, or failing that an
      inference from the amounts. */
  predicate OperatorPaysFee(b: Batch, item: Item) {
    && b.kind == CustomerBatch
    && b.feePayer.GetOr(if item.net < item.gross then CustomerPays else OperatorPays) == OperatorPays
  }

  // ---------------------------------------------------------------- sums over items and batches

  /** Everything that is ever added up over payout items. */
  datatype Measure =
    | Gross                    // amounts taken from the owners
    | Outflow                  // net outputs plus fee share
    | Reserved(owner: Owner)   // gross of an owner in open batches
    | Pending(owner: Owner)    // gross of an owner not journaled yet
    | Posted(side: Side)       // effect of the journaled items on a group of accounts
    | Auto(on: int)            // gross approved automatically on a local day
    | KeptFees                 // network fees of journaled items that the operator bears

  function ItemValue(m: Measure, b: Batch, item: Item): int {
    match m
    case Gross => item.gross
    case Outflow => item.net + item.fee
    case Reserved(o) => if Open(b.state) && item.owner == o then item.gross else 0
    case Pending(o) => if !item.journaled && item.owner == o then item.gross else 0
    case Posted(side) =>
      if item.journaled then PayoutEffect(side, item.owner, item.gross, item.fee, OperatorPaysFee(b, item)) else 0
    case KeptFees => if item.journaled then OperatorFee(item.owner, item.fee, OperatorPaysFee(b, item)) else 0
    case Auto(on) => if !b.thresholdHit && b.day == on && b.state != Cancelled then item.gross else 0
  }

  function ItemSum(m: Measure, b: Batch, items: seq<Item>): int {
    if |items| == 0 then 0
    else ItemSum(m, b, items[..|items| - 1]) + ItemValue(m, b, items[|items| - 1])
  }

  function Value(m: Measure, b: Batch): int {
    ItemSum(m, b, b.items)
  }

  function TotalOf(m: Measure, batches: seq<Batch>): int {
    if |batches| == 0 then 0
    else TotalOf(m, batches[..|batches| - 1]) + Value(m, batches[|batches| - 1])
  }

  lemma TotalAppend(m: Measure, batches: seq<Batch>, b: Batch)
    ensures TotalOf(m, batches + [b]) == TotalOf(m, batches) + Value(m, b)
  {
    assert (batches + [b])[..|batches|] == batches;
  }

  lemma {:induction false} TotalUpdate(m: Measure, batches: seq<Batch>, i: nat, b: Batch)
    requires i < |batches|
    ensures TotalOf(m, batches[i := b]) == TotalOf(m, batches) - Value(m, batches[i]) + Value(m, b)
  {
    hide Value;
    var n := |batches| - 1;
    if i == n {
      assert batches[i := b][..n] == batches[..n];
    } else {
      assert batches[i := b][..n] == batches[..n][i := b];
      TotalUpdate(m, batches[..n], i, b);
    }
  }

  /** Pointwise comparison of two measures carries to the sums. */
  lemma {:induction false} ItemSumLe(m: Measure, b: Batch, items: seq<Item>, m': Measure, b': Batch, items': seq<Item>)
    requires |items| == |items'|
    requires forall i :: 0 <= i < |items| ==> ItemValue(m, b, items[i]) <= ItemValue(m', b', items'[i])
    ensures ItemSum(m, b, items) <= ItemSum(m', b', items')
  {
    hide ItemValue;
    if |items| > 0 {
      ItemSumLe(m, b, items[..|items| - 1], m', b', items'[..|items| - 1]);
    }
  }

  lemma ItemSumEq(m: Measure, b: Batch, items: seq<Item>, m': Measure, b': Batch, items': seq<Item>)
    requires |items| == |items'|
    requires forall i :: 0 <= i < |items| ==> ItemValue(m, b, items[i]) == ItemValue(m', b', items'[i])
    ensures ItemSum(m, b, items) == ItemSum(m', b', items')
  {
    hide ItemValue;
    ItemSumLe(m, b, items, m', b', items');
    ItemSumLe(m', b', items', m, b, items);
  }

  lemma {:induction false} TotalsLe(m: Measure, m': Measure, batches: seq<Batch>)
    requires forall i :: 0 <= i < |batches| ==> Value(m, batches[i]) <= Value(m', batches[i])
    ensures TotalOf(m, batches) <= TotalOf(m', batches)
  {
    hide Value;
    if |batches| > 0 {
      TotalsLe(m, m', batches[..|batches| - 1]);
    }
  }

  lemma {:induction false} NonNegativeTotal(m: Measure, batches: seq<Batch>)
    requires forall i :: 0 <= i < |batches| ==> Value(m, batches[i]) >= 0
    ensures TotalOf(m, batches) >= 0
  {
    hide Value;
    if |batches| > 0 {
      NonNegativeTotal(m, batches[..|batches| - 1]);
    }
  }

  // ---------------------------------------------------------------- items of a batch

  ghost predicate DistinctOwners(items: seq<Item>) {
    forall i, j :: 0 <= i < j < |items| ==> items[i].owner != items[j].owner
  }

  /** Customer batches hold one item per customer; operator batches hold the operator's one item. */
  ghost predicate WellOwned(b: Batch) {
    && |b.items| > 0 && DistinctOwners(b.items)
    && (forall i :: 0 <= i < |b.items| ==> b.items[i].gross >= 0)
    && (forall i :: 0 <= i < |b.items| ==> (b.items[i].owner.Operator? <==> b.kind == OperatorBatch))
  }

  ghost predicate AllJournaled(b: Batch) {
    forall i :: 0 <= i < |b.items| ==> b.items[i].journaled
  }

  ghost predicate NoneJournaled(b: Batch) {
    forall i :: 0 <= i < |b.items| ==> !b.items[i].journaled
  }

  /** An owner's gross in a batch is the gross of the only item it may have there. */
  lemma {:induction false} OwnedAtMostOnce(m: Measure, b: Batch, items: seq<Item>, o: Owner)
    requires m == Reserved(o) || m == Pending(o)
    requires DistinctOwners(items)
    ensures (forall i :: 0 <= i < |items| ==> items[i].owner != o) ==> ItemSum(m, b, items) == 0
    ensures forall i :: 0 <= i < |items| && items[i].owner == o ==> ItemSum(m, b, items) == ItemValue(m, b, items[i])
  {
    if |items| > 0 {
      OwnedAtMostOnce(m, b, items[..|items| - 1], o);
    }
  }

  // ---------------------------------------------------------------- wallet preparation

  function Candidates(b: Batch): (c: seq<WalletFees.Candidate>)
    ensures |c| == |b.items|
  {
    seq(|b.items|, i requires 0 <= i < |b.items| => WalletFees.Candidate(i, b.items[i].address, b.items[i].gross))
  }

  /** The prepared items as stored back into the rows. */
  function StoredCharges(b: Batch): (p: seq<WalletFees.PreparedItem>)
    ensures |p| == |b.items|
  {
    seq(|b.items|, i requires 0 <= i < |b.items| =>
      WalletFees.PreparedItem(Candidates(b)[i], b.items[i].fee, b.items[i].net))
  }

  function Outflows(txs: seq<Tx>): (o: seq<int>)
    ensures |o| == |txs|
  {
    seq(|txs|, i requires 0 <= i < |txs| => txs[i].outflow)
  }

  function Ids(txs: seq<Tx>): (o: seq<string>)
    ensures |o| == |txs|
  {
    seq(|txs|, i requires 0 <= i < |txs| => txs[i].id)
  }

  /** A batch that holds a payload: the fee was charged by the fee loop under the fee rule
      recorded, agreed with the snapshot if there is one, respected the cap, and the transactions
      carry the net outputs and the fee. */
  ghost predicate SignedWell(b: Batch) {
    && b.payload.Some? && |b.payload.value| > 0
    && WalletFees.Charges(Candidates(b), b.deducted, b.totalFee, StoredCharges(b))
    && Sum(Outflows(b.payload.value)) == Sum(WalletFees.NetsOf(StoredCharges(b))) + b.totalFee
    && (b.kind == OperatorBatch ==> b.deducted)
    && (b.kind == CustomerBatch && b.feePayer.Some? ==> (b.deducted <==> b.feePayer.value == CustomerPays))
    && (b.kind == CustomerBatch ==> b.totalFee * 10000 <= Value(Gross, b) * b.feeCap)
  }

  /** Fee shares are never negative. */
  lemma SignedFees(b: Batch)
    requires WellOwned(b) && SignedWell(b)
    ensures forall i :: 0 <= i < |b.items| ==> b.items[i].fee >= 0
  {
    var w := WalletFees.GrossWeights(Candidates(b));
    assert forall i :: 0 <= i < |w| ==> w[i] >= 0.0;
    Apportionment.NonNegativeAmounts(b.totalFee, w, WalletFees.FeesOf(StoredCharges(b)));
    forall i | 0 <= i < |b.items| ensures b.items[i].fee >= 0 {
      assert WalletFees.FeesOf(StoredCharges(b))[i] == b.items[i].fee;
    }
  }

  /** For either fee payer, with or without a snapshot: what the journal takes out of the treasury
      for an item is what the chain carries for it. */
  lemma ItemTreasuryIsOutflow(b: Batch, i: nat)
    requires WellOwned(b) && SignedWell(b) && i < |b.items|
    ensures PayoutEffect(One(Treasury), b.items[i].owner, b.items[i].gross, b.items[i].fee,
      OperatorPaysFee(b, b.items[i]))
         == b.items[i].net + b.items[i].fee
  {
    SignedFees(b);
    var p := StoredCharges(b)[i];
    assert p.candidate == Candidates(b)[i];
  }

  lemma TreasuryIsOutflow(b: Batch)
    requires WellOwned(b) && SignedWell(b) && AllJournaled(b)
    ensures Value(Posted(One(Treasury)), b) == Value(Outflow, b) == Sum(Outflows(b.payload.value))
  {
    forall i | 0 <= i < |b.items|
      ensures ItemValue(Posted(One(Treasury)), b, b.items[i]) == ItemValue(Outflow, b, b.items[i])
    {
      ItemTreasuryIsOutflow(b, i);
    }
    ItemSumEq(Posted(One(Treasury)), b, b.items, Outflow, b, b.items);
    OutflowIsPayload(b);
  }

  lemma OutflowIsPayload(b: Batch)
    requires SignedWell(b)
    ensures Value(Outflow, b) == Sum(Outflows(b.payload.value))
  {
    hide WalletFees.Charges;
    WalletFees.ChargesConserve(Candidates(b), b.deducted, b.totalFee, StoredCharges(b));
    NetsPlusFees(b, b.items, WalletFees.NetsOf(StoredCharges(b)), WalletFees.FeesOf(StoredCharges(b)));
  }

  lemma {:induction false} NetsPlusFees(b: Batch, items: seq<Item>, nets: seq<int>, fees: seq<int>)
    requires |items| == |nets| == |fees|
    requires forall i :: 0 <= i < |items| ==> nets[i] == items[i].net && fees[i] == items[i].fee
    ensures ItemSum(Outflow, b, items) == Sum(nets) + Sum(fees)
  {
    if |items| > 0 {
      var n := |items| - 1;
      NetsPlusFees(b, items[..n], nets[..n], fees[..n]);
    }
  }

  // ---------------------------------------------------------------- journaling a batch

  function ReferenceOf(id: nat, o: Owner): Reference {
    match o
    case Operator => OperatorPayout(id)
    case Customer(c) => CustomerPayout(id, c)
  }

  function EntriesOf(b: Batch, item: Item): seq<Entry> {
    PayoutEntries(item.owner, item.gross, item.fee, OperatorPaysFee(b, item))
  }

  /** The posting loop over the first n items of the row that was read; items that already carry a
      journal id are skipped. */
  function PostItems(journal: seq<Journal>, id: nat, b: Batch, n: nat): Option<seq<Journal>>
    requires n <= |b.items|
  {
    if n == 0 then Some(journal)
    else
      var item := b.items[n - 1];
      match PostItems(journal, id, b, n - 1)
      case None => None
      case Some(j) =>
        if item.journaled then Some(j)
        else
          match Post(j, ReferenceOf(id, item.owner), EntriesOf(b, item))
          case Err(_) => None
          case Ok(k) => Some(k)
  }

  /** The transactions of the first n items of a batch: one for each that carries no journal id yet, in order, under
      the reference of batch and owner. The operator bears the fee of a customer's item if the policy snapshot says
      so, or if there is none and nothing was deducted. */
  ghost function Transactions(id: nat, b: Batch, n: nat): seq<Journal>
    requires n <= |b.items|
  {
    if n == 0 then []
    else
      var item := b.items[n - 1];
      var reference := if item.owner == Operator then OperatorPayout(id) else CustomerPayout(id, item.owner.id);
      var operatorPays := b.kind == CustomerBatch &&
        (b.feePayer == Some(OperatorPays) || (b.feePayer == None && item.net >= item.gross));
      Transactions(id, b, n - 1) +
        (if item.journaled then []
         else [Journal(reference, PayoutEntries(item.owner, item.gross, item.fee, operatorPays))])
  }

  /** Posting appends exactly these transactions. */
  lemma {:induction false} PostItemsAppends(journal: seq<Journal>, id: nat, b: Batch, n: nat)
    requires n <= |b.items| && PostItems(journal, id, b, n).Some?
    ensures PostItems(journal, id, b, n).value == journal + Transactions(id, b, n)
  {
    hide PayoutEntries;
    if n > 0 {
      PostItemsAppends(journal, id, b, n - 1);
    }
  }

  function MarkJournaled(items: seq<Item>): (r: seq<Item>)
    ensures |r| == |items|
  {
    seq(|items|, i requires 0 <= i < |items| => items[i].(journaled := true))
  }

  /** Journaling moves each balance by the effect of the items that were not journaled before. */
  lemma {:induction false} PostItemsBalance(side: Side, journal: seq<Journal>, id: nat, b: Batch, b': Batch, n: nat)
    requires n <= |b.items| && PostItems(journal, id, b, n).Some?
    requires b'.items == MarkJournaled(b.items) && b'.kind == b.kind && b'.feePayer == b.feePayer
    ensures Balance(side, PostItems(journal, id, b, n).value) == Balance(side, journal)
            + ItemSum(Posted(side), b', b'.items[..n]) - ItemSum(Posted(side), b, b.items[..n])
  {
    hide Balance, PayoutEffect, PayoutEntries, Net;
    if n > 0 {
      PostItemsBalance(side, journal, id, b, b', n - 1);
      assert b.items[..n][..n - 1] == b.items[..n - 1];
      assert b'.items[..n][..n - 1] == b'.items[..n - 1];
      var item := b.items[n - 1];
      assert b'.items[n - 1] == item.(journaled := true);
      if !item.journaled {
        var j := PostItems(journal, id, b, n - 1).value;
        BalanceAppend(side, j, Journal(ReferenceOf(id, item.owner), EntriesOf(b, item)));
        PayoutNet(side, item.owner, item.gross, item.fee, OperatorPaysFee(b, item));
      }
    }
  }

  /** The references afterwards: the old ones, and one for each item posted. */
  lemma {:induction false} PostItemsReferences(journal: seq<Journal>, id: nat, b: Batch, n: nat, r: Reference)
    requires n <= |b.items| && PostItems(journal, id, b, n).Some?
    ensures Referenced(r, PostItems(journal, id, b, n).value) <==>
      Referenced(r, journal) || exists i ::
        0 <= i < n && !b.items[i].journaled && r == ReferenceOf(id, b.items[i].owner)
    ensures journal <= PostItems(journal, id, b, n).value
  {
    hide PayoutEntries;
    if n > 0 {
      PostItemsReferences(journal, id, b, n - 1, r);
      var j := PostItems(journal, id, b, n - 1).value;
      var k := PostItems(journal, id, b, n).value;
      if !b.items[n - 1].journaled {
        ReferencedAppend(r, j, k[|j|]);
      }
    }
  }

  /** Posting keeps references unique, so no item is ever journaled twice. */
  lemma {:induction false} PostItemsUnique(journal: seq<Journal>, id: nat, b: Batch, n: nat)
    requires n <= |b.items| && PostItems(journal, id, b, n).Some? && UniqueReferences(journal)
    ensures UniqueReferences(PostItems(journal, id, b, n).value)
  {
    hide PayoutEntries;
    if n > 0 {
      PostItemsUnique(journal, id, b, n - 1);
      if !b.items[n - 1].journaled {
        var j := PostItems(journal, id, b, n - 1).value;
        UniqueAppend(j, Journal(ReferenceOf(id, b.items[n - 1].owner), EntriesOf(b, b.items[n - 1])));
      }
    }
  }

  ghost predicate UniqueReferences(journal: seq<Journal>) {
    forall i, j :: 0 <= i < j < |journal| ==> journal[i].reference != journal[j].reference
  }

  lemma UniqueAppend(journal: seq<Journal>, j: Journal)
    requires UniqueReferences(journal) && !Referenced(j.reference, journal)
    ensures UniqueReferences(journal + [j])
  {
  }

  lemma ReferencedAppend(r: Reference, journal: seq<Journal>, j: Journal)
    ensures Referenced(r, journal + [j]) <==> Referenced(r, journal) || r == j.reference
  {
    if Referenced(r, journal) {
      var i :| 0 <= i < |journal| && journal[i].reference == r;
      assert (journal + [j])[i].reference == r;
    }
    if r == j.reference {
      assert (journal + [j])[|journal|].reference == r;
    }
  }

  /** The journal has something to record: an empty transaction would be refused. */
  predicate Postable(item: Item) {
    item.gross + (if item.fee > 0 then item.fee else 0) > 0
  }

  /** A batch whose items were never posted is refused exactly for an empty journal transaction. */
  lemma {:induction false} PostItemsSucceeds(journal: seq<Journal>, id: nat, b: Batch, n: nat)
    requires n <= |b.items| && DistinctOwners(b.items)
    requires forall i :: 0 <= i < n && !b.items[i].journaled ==> !Referenced(ReferenceOf(id, b.items[i].owner), journal)
    ensures PostItems(journal, id, b, n).Some? <==> forall i :: 0 <= i < n && !b.items[i].journaled ==>
      Postable(b.items[i])
  {
    hide PayoutEntries, Total, Net, PayoutEffect;
    if n > 0 {
      PostItemsSucceeds(journal, id, b, n - 1);
      var item := b.items[n - 1];
      if !item.journaled && PostItems(journal, id, b, n - 1).Some? {
        PostItemsReferences(journal, id, b, n - 1, ReferenceOf(id, item.owner));
        PayoutNet(Everything, item.owner, item.gross, item.fee, OperatorPaysFee(b, item));
        NoEffectOnEverything(item.owner, item.gross, item.fee, OperatorPaysFee(b, item));
        NetIsDifference(Everything, EntriesOf(b, item));
      }
    }
  }

  lemma NoEffectOnEverything(o: Owner, gross: int, fee: int, pays: bool)
    ensures PayoutEffect(Everything, o, gross, fee, pays) == 0
  {
  }

  lemma NetIsDifference(side: Side, entries: seq<Entry>)
    ensures Net(side, entries) == Total(side, Credit, entries) - Total(side, Debit, entries)
  {
  }

  // ---------------------------------------------------------------- planning

  datatype DestinationStatus = Pending' | Active | Revoked

  datatype Destination = Destination(customer: nat, address: string, status: DestinationStatus, minPayout: int)

  /** What an owner may still be paid: its balance less the gross of its items in open batches. */
  function Available(journal: seq<Journal>, batches: seq<Batch>, o: Owner): int {
    OwnerBalance(o, journal) - TotalOf(Reserved(o), batches)
  }

  function Fresh(o: Owner, address: string, gross: int): Item {
    Item(o, address, gross, 0, gross, false)
  }

  /** The planning loop over the selected destinations. */
  function PlanItems(journal: seq<Journal>, batches: seq<Batch>, dests: seq<Destination>,
                     policyMinimum: int): seq<Item> {
    if |dests| == 0 then []
    else
      var d := dests[|dests| - 1];
      var available := Available(journal, batches, Customer(d.customer));
      var minimum := if d.minPayout > policyMinimum then d.minPayout else policyMinimum;
      PlanItems(journal, batches, dests[..|dests| - 1], policyMinimum)
      + (if available >= minimum then [Fresh(Customer(d.customer), d.address, available)] else [])
  }

  /** Active destinations that the query selects, in creation order, at most `take` of them. */
  function Selected(dests: seq<Destination>, eligible: set<nat>, take: nat): seq<Destination> {
    if |dests| == 0 then []
    else
      var n := |dests| - 1;
      var earlier := Selected(dests[..n], eligible, take);
      if dests[n].status == Active && n in eligible && |earlier| < take then earlier + [dests[n]] else earlier
  }

  /** At most one ACTIVE destination per customer. */
  ghost predicate OneActive(dests: seq<Destination>) {
    forall i, j :: 0 <= i < j < |dests| && dests[i].status == Active && dests[j].status == Active ==>
      dests[i].customer != dests[j].customer
  }

  ghost predicate DistinctCustomers(dests: seq<Destination>) {
    forall i, j :: 0 <= i < j < |dests| ==> dests[i].customer != dests[j].customer
  }

  /** The destination is an active row. */
  predicate IsActiveRow(dests: seq<Destination>, d: Destination) {
    exists i :: 0 <= i < |dests| && dests[i] == d && d.status == Active
  }

  lemma {:induction false} SelectedIsDistinct(dests: seq<Destination>, eligible: set<nat>, take: nat)
    requires OneActive(dests)
    ensures DistinctCustomers(Selected(dests, eligible, take))
    ensures forall d :: d in Selected(dests, eligible, take) ==> IsActiveRow(dests, d)
  {
    hide IsActiveRow;
    if |dests| > 0 {
      var n := |dests| - 1;
      SelectedIsDistinct(dests[..n], eligible, take);
      var earlier := Selected(dests[..n], eligible, take);
      forall k | 0 <= k < |earlier|
        ensures IsActiveRow(dests, earlier[k])
        ensures dests[n].status == Active ==> earlier[k].customer != dests[n].customer
      {
        assert earlier[k] in earlier;
        EarlierRow(dests, earlier[k]);
      }
      LastRow(dests);
    }
  }

  lemma EarlierRow(dests: seq<Destination>, d: Destination)
    requires OneActive(dests) && |dests| > 0 && IsActiveRow(dests[..|dests| - 1], d)
    ensures IsActiveRow(dests, d)
    ensures dests[|dests| - 1].status == Active ==> d.customer != dests[|dests| - 1].customer
  {
    var n := |dests| - 1;
    var i :| 0 <= i < n && dests[..n][i] == d;
    assert dests[i] == d;
  }

  lemma LastRow(dests: seq<Destination>)
    requires |dests| > 0
    ensures dests[|dests| - 1].status == Active ==> IsActiveRow(dests, dests[|dests| - 1])
  {
  }

  /** What planning promises of an item. */
  predicate PlannedItem(item: Item, journal: seq<Journal>, batches: seq<Batch>, minimum: int) {
    && item.owner.Customer? && !item.journaled && item.fee == 0 && item.net == item.gross
    && item.gross == Available(journal, batches, item.owner) && item.gross >= minimum
  }

  predicate HasDestination(dests: seq<Destination>, o: Owner) {
    o.Customer? && exists k :: 0 <= k < |dests| && dests[k].customer == o.id
  }

  lemma {:induction false} PlannedItems(journal: seq<Journal>, batches: seq<Batch>, dests: seq<Destination>,
                                        policyMinimum: int)
    requires DistinctCustomers(dests)
    ensures var items := PlanItems(journal, batches, dests, policyMinimum);
            && DistinctOwners(items)
            && (forall i :: 0 <= i < |items| ==> PlannedItem(items[i], journal, batches, policyMinimum))
            && (forall i :: 0 <= i < |items| ==> HasDestination(dests, items[i].owner))
  {
    hide Available, HasDestination;
    if |dests| > 0 {
      var n := |dests| - 1;
      PlannedItems(journal, batches, dests[..n], policyMinimum);
      var earlier := PlanItems(journal, batches, dests[..n], policyMinimum);
      NewOwner(dests, n);
      forall i | 0 <= i < |earlier| ensures HasDestination(dests, earlier[i].owner) {
        MoreDestinations(dests, n, earlier[i].owner);
      }
    }
  }

  lemma NewOwner(dests: seq<Destination>, n: nat)
    requires n == |dests| - 1 && DistinctCustomers(dests)
    ensures HasDestination(dests, Customer(dests[n].customer))
    ensures !HasDestination(dests[..n], Customer(dests[n].customer))
  {
    assert dests[n].customer == Customer(dests[n].customer).id;
  }

  lemma MoreDestinations(dests: seq<Destination>, n: nat, o: Owner)
    requires n <= |dests| && HasDestination(dests[..n], o)
    ensures HasDestination(dests, o)
  {
    var k :| 0 <= k < n && dests[..n][k].customer == o.id;
    assert dests[k].customer == o.id;
  }

  // ---------------------------------------------------------------- planning, on the rows

  ghost predicate Rising(s: seq<nat>) {
    forall i, j :: 0 <= i < j < |s| ==> s[i] < s[j]
  }

  /** Row k may be paid: active, and eligible by its time and its customer. */
  predicate MayBePaid(dests: seq<Destination>, eligible: set<nat>, k: nat) {
    k < |dests| && dests[k].status == Active && k in eligible
  }

  ghost predicate AllBelow(s: seq<nat>, k: nat) {
    forall i :: 0 <= i < |s| ==> s[i] < k
  }

  /** The query's rows: the first `take` that may be paid, in creation order. */
  ghost predicate Chooses(dests: seq<Destination>, eligible: set<nat>, take: nat, chosen: seq<nat>) {
    && |chosen| <= take && Rising(chosen)
    && (forall i :: 0 <= i < |chosen| ==> MayBePaid(dests, eligible, chosen[i]))
    && (forall k: nat :: MayBePaid(dests, eligible, k) && k !in chosen ==> |chosen| == take && AllBelow(chosen, k))
  }

  /** The selected destinations are these rows. */
  predicate AreRows(selected: seq<Destination>, dests: seq<Destination>, chosen: seq<nat>) {
    && |selected| == |chosen|
    && forall i :: 0 <= i < |chosen| ==> chosen[i] < |dests| && selected[i] == dests[chosen[i]]
  }

  lemma {:induction false} ChosenRows(dests: seq<Destination>, eligible: set<nat>, take: nat)
    returns (chosen: seq<nat>)
    ensures Chooses(dests, eligible, take, chosen) && AreRows(Selected(dests, eligible, take), dests, chosen)
  {
    hide Chooses, Rising, Selected, MayBePaid, AreRows, AllBelow;
    if |dests| == 0 {
      chosen := [];
      NothingChosen(dests, eligible, take);
    } else {
      var n := |dests| - 1;
      var earlier := ChosenRows(dests[..n], eligible, take);
      ChosenBefore(dests, eligible, take, earlier);
      SelectedLast(dests, eligible, take);
      MoreRows(Selected(dests[..n], eligible, take), dests, earlier);
      AsManyRows(Selected(dests[..n], eligible, take), dests[..n], earlier, eligible, take);
      if MayBePaid(dests, eligible, n) && |earlier| < take {
        chosen := earlier + [n];
        OneMoreRow(dests, eligible, take, earlier);
      } else {
        chosen := earlier;
        NoMoreRows(dests, eligible, take, earlier);
      }
    }
  }

  lemma NothingChosen(dests: seq<Destination>, eligible: set<nat>, take: nat)
    requires |dests| == 0
    ensures Chooses(dests, eligible, take, []) && AreRows(Selected(dests, eligible, take), dests, [])
  {
  }

  lemma AsManyRows(selected: seq<Destination>, dests: seq<Destination>, chosen: seq<nat>, eligible: set<nat>, take: nat)
    requires AreRows(selected, dests, chosen) && Chooses(dests, eligible, take, chosen)
    ensures |selected| == |chosen| <= take
  {
  }

  lemma SelectedLast(dests: seq<Destination>, eligible: set<nat>, take: nat)
    requires |dests| > 0
    ensures var n := |dests| - 1; var earlier := Selected(dests[..n], eligible, take);
            Selected(dests, eligible, take) ==
              if MayBePaid(dests, eligible, n) && |earlier| < take then earlier + [dests[n]] else earlier
  {
  }

  lemma MoreRows(selected: seq<Destination>, dests: seq<Destination>, chosen: seq<nat>)
    requires |dests| > 0 && AreRows(selected, dests[..|dests| - 1], chosen)
    ensures AreRows(selected, dests, chosen)
    ensures AreRows(selected + [dests[|dests| - 1]], dests, chosen + [|dests| - 1])
  {
  }

  lemma ChosenBefore(dests: seq<Destination>, eligible: set<nat>, take: nat, earlier: seq<nat>)
    requires |dests| > 0 && Chooses(dests[..|dests| - 1], eligible, take, earlier)
    ensures AllBelow(earlier, |dests| - 1)
  {
    forall i | 0 <= i < |earlier| ensures earlier[i] < |dests| - 1 {
      assert MayBePaid(dests[..|dests| - 1], eligible, earlier[i]);
    }
  }

  lemma OneMoreRow(dests: seq<Destination>, eligible: set<nat>, take: nat, earlier: seq<nat>)
    requires |dests| > 0 && Chooses(dests[..|dests| - 1], eligible, take, earlier) && AllBelow(earlier, |dests| - 1)
    requires MayBePaid(dests, eligible, |dests| - 1) && |earlier| < take
    ensures Chooses(dests, eligible, take, earlier + [|dests| - 1])
  {
    var n := |dests| - 1;
    var chosen := earlier + [n];
    forall i | 0 <= i < |chosen| ensures MayBePaid(dests, eligible, chosen[i]) {
      assert i < |earlier| ==> MayBePaid(dests[..n], eligible, earlier[i]);
    }
    forall k: nat | MayBePaid(dests, eligible, k) ensures k in chosen {
      if k == n {
        assert chosen[|earlier|] == n;
      } else {
        assert MayBePaid(dests[..n], eligible, k);
        assert k in earlier;
      }
    }
  }

  lemma NoMoreRows(dests: seq<Destination>, eligible: set<nat>, take: nat, earlier: seq<nat>)
    requires |dests| > 0 && Chooses(dests[..|dests| - 1], eligible, take, earlier) && AllBelow(earlier, |dests| - 1)
    requires !MayBePaid(dests, eligible, |dests| - 1) || |earlier| == take
    ensures Chooses(dests, eligible, take, earlier)
  {
    var n := |dests| - 1;
    forall i | 0 <= i < |earlier| ensures MayBePaid(dests, eligible, earlier[i]) {
      assert MayBePaid(dests[..n], eligible, earlier[i]);
    }
    forall k: nat | MayBePaid(dests, eligible, k) && k !in earlier
      ensures |earlier| == take && AllBelow(earlier, k)
    {
      assert k < n ==> MayBePaid(dests[..n], eligible, k);
    }
  }

  /** Row k is owed at least both minimums, its own and the policy's. */
  ghost predicate Owed(journal: seq<Journal>, batches: seq<Batch>, d: Destination, minimum: int) {
    var available := Available(journal, batches, Customer(d.customer));
    available >= d.minPayout && available >= minimum
  }

  /** A new item that pays a destination all that its customer has available. */
  ghost predicate PaysAll(journal: seq<Journal>, batches: seq<Batch>, d: Destination, item: Item) {
    && item.owner == Customer(d.customer) && item.address == d.address
    && item.gross == item.net == Available(journal, batches, Customer(d.customer))
    && item.fee == 0 && !item.journaled
  }

  /** The items pay exactly the chosen rows that are owed enough, in their order. */
  ghost predicate PaysRows(journal: seq<Journal>, batches: seq<Batch>, dests: seq<Destination>, chosen: seq<nat>,
                           minimum: int, items: seq<Item>, paid: seq<nat>) {
    && |paid| == |items| && Rising(paid) && AllBelow(paid, |dests|)
    && (forall k | 0 <= k < |dests| :: PaidExactly(journal, batches, dests, chosen, minimum, paid, k))
    && (forall i :: 0 <= i < |items| ==> PaysAll(journal, batches, dests[paid[i]], items[i]))
  }

  ghost predicate PaidExactly(journal: seq<Journal>, batches: seq<Batch>, dests: seq<Destination>, chosen: seq<nat>,
                              minimum: int, paid: seq<nat>, k: nat)
    requires k < |dests|
  {
    k in paid <==> k in chosen && Owed(journal, batches, dests[k], minimum)
  }

  /** A plan, on the rows: what the query chooses and what each chosen row gets. */
  ghost predicate PlanOf(journal: seq<Journal>, batches: seq<Batch>, dests: seq<Destination>, eligible: set<nat>,
                         take: nat, minimum: int, items: seq<Item>) {
    exists chosen, paid ::
      Chooses(dests, eligible, take, chosen) && PaysRows(journal, batches, dests, chosen, minimum, items, paid)
  }

  lemma {:induction false} PaidRows(journal: seq<Journal>, batches: seq<Batch>, dests: seq<Destination>,
                                    rows: seq<Destination>, chosen: seq<nat>, minimum: int) returns (paid: seq<nat>)
    requires AreRows(rows, dests, chosen) && Rising(chosen)
    ensures PaysRows(journal, batches, dests, chosen, minimum, PlanItems(journal, batches, rows, minimum), paid)
  {
    if |rows| == 0 {
      paid := [];
    } else {
      var n := |rows| - 1;
      var earlier := PaidRows(journal, batches, dests, rows[..n], chosen[..n], minimum);
      var items := PlanItems(journal, batches, rows[..n], minimum);
      LastRowPlanned(journal, batches, rows, minimum);
      hide PlanItems, PaysRows, Owed;
      paid := if Owed(journal, batches, rows[n], minimum) then earlier + [chosen[n]] else earlier;
      MorePaid(journal, batches, dests, chosen, minimum, items, earlier);
    }
  }

  lemma LastRowPlanned(journal: seq<Journal>, batches: seq<Batch>, rows: seq<Destination>, minimum: int)
    requires |rows| > 0
    ensures var d := rows[|rows| - 1]; var items := PlanItems(journal, batches, rows[..|rows| - 1], minimum);
            PlanItems(journal, batches, rows, minimum) == items +
              (if Owed(journal, batches, d, minimum)
               then [Fresh(Customer(d.customer), d.address, Available(journal, batches, Customer(d.customer)))] else [])
  {
    hide Available;
  }

  lemma MorePaid(journal: seq<Journal>, batches: seq<Batch>, dests: seq<Destination>, chosen: seq<nat>, minimum: int,
                 items: seq<Item>, earlier: seq<nat>)
    requires |chosen| > 0 && Rising(chosen) && AllBelow(chosen, |dests|)
    requires PaysRows(journal, batches, dests, chosen[..|chosen| - 1], minimum, items, earlier)
    ensures var k := chosen[|chosen| - 1]; var d := dests[k];
            var item := Fresh(Customer(d.customer), d.address, Available(journal, batches, Customer(d.customer)));
            if Owed(journal, batches, d, minimum)
            then PaysRows(journal, batches, dests, chosen, minimum, items + [item], earlier + [k])
            else PaysRows(journal, batches, dests, chosen, minimum, items + [], earlier)
  {
    hide Available, Owed;
    var n := |chosen| - 1;
    var k := chosen[n];
    assert chosen == chosen[..n] + [k];
    forall i | 0 <= i < |earlier| ensures earlier[i] < k {
      assert earlier[i] in earlier;
      assert PaidExactly(journal, batches, dests, chosen[..n], minimum, earlier, earlier[i]);
    }
    var paid := if Owed(journal, batches, dests[k], minimum) then earlier + [k] else earlier;
    forall j | 0 <= j < |dests| ensures PaidExactly(journal, batches, dests, chosen, minimum, paid, j) {
      assert PaidExactly(journal, batches, dests, chosen[..n], minimum, earlier, j);
    }
    assert items + [] == items;
  }

  /** The plan that the source's query and loop make. */
  lemma PlansTheRows(journal: seq<Journal>, batches: seq<Batch>, dests: seq<Destination>, eligible: set<nat>,
                     take: nat, minimum: int)
    ensures PlanOf(journal, batches, dests, eligible, take, minimum,
      PlanItems(journal, batches, Selected(dests, eligible, take), minimum))
  {
    hide PlanItems, Selected, PaysRows;
    var chosen := ChosenRows(dests, eligible, take);
    var paid := PaidRows(journal, batches, dests, Selected(dests, eligible, take), chosen, minimum);
  }

  /** A batch row as planning creates it. */
  ghost predicate NewRow(b: Batch, kind: Kind, feePayer: Option<FeePayer>, maxFeeBps: Option<int>, auto: bool) {
    && b.kind == kind && b.feePayer == feePayer && b.maxFeeBps == maxFeeBps
    && b.state == (if auto then AutoApproved else ApprovalRequired) && b.thresholdHit == !auto
    && b.payload.None? && b.txids == [] && b.totalFee == 0 && b.approver.None?
  }

  /** `canAutoApprove`, with `used` the gross already approved automatically that day. */
  predicate AutoApprovable(limit: int, used: int, amount: int) {
    limit > 0 && amount <= limit && used + amount <= limit
  }
}
