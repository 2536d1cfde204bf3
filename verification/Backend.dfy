/** The server's tables and the services that write them, in the form the server runs them: loops
    over rows and rows overwritten in place. The object remembers, as ghost history, the protocol
    steps it has taken, so whatever is proved of every run holds of every state of the object. */
module Backend {
  import opened Common
  import opened Ledger
  import opened Payouts
  import opened Protocol
  import opened Safety
  import Deposits
  import WalletFees

  /** Everything outside that an execution asks: the policy in force, the wallet's quotes, its
      signer, what it knows, whether each relay goes through, the ids it reports afterwards,
      whether the lock is still held at each check, and whether the row can be read back at the end. */
  datatype Outside = Outside(
    payer: FeePayer,
    bps: int,
    quotes: WalletFees.Wallet,
    sign: WalletFees.Quote -> Option<seq<Tx>>,
    knows: string -> bool,
    relays: nat -> bool,
    reported: seq<string>,
    held: nat -> bool,
    rereads: bool)

  datatype ExecuteError = LockLost | Halted | NotFound | NotExecutable | ExecutionFailed

  datatype ApproveError = UnknownBatch | NotApprovable

  datatype AllocateError =
    | UnknownDeposit
    | NotConfirmed
    | UnknownUpstream
    | Undivided(why: Deposits.ItemError)
    | AlreadyAllocated

  class Database {
    var deposits: map<DepositKey, Deposits.Deposit>
    var allocations: seq<Allocation>
    var journal: seq<Journal>
    var destinations: seq<Destination>
    var batches: seq<Batch>
    ghost var history: seq<Step>

    ghost function World(): Sys
      reads this`history
    {
      Run(EMPTY, history)
    }

    /** The tables are those of the protocol state reached by the history. */
    ghost predicate Mirrors()
      reads this
    {
      var w := World();
      && SaneRun(history)
      && w.deposits == deposits && w.allocations == allocations && w.journal == journal
      && w.destinations == destinations && w.batches == batches
    }

    /** Nobody holds the execution lock. */
    ghost predicate Valid()
      reads this
    {
      Mirrors() && World().phase == Idle
    }

    constructor ()
      ensures Valid() && history == []
    {
      deposits, allocations, journal, destinations, batches := map[], [], [], [], [];
      history := [];
    }

    ghost method Record(step: Step)
      requires SaneRun(history) && Sane(step)
      modifies this`history
      ensures history == old(history) + [step] && SaneRun(history)
      ensures World() == Next(old(World()), step)
      ensures Inv(old(World())) && Inv(World())
    {
      hide Next, Inv;
      EveryRun(history);
      assert (history + [step])[..|history|] == history;
      history := history + [step];
      EveryRun(history);
    }

    // -------------------------------------------------------------- balances

    /** `customerBalance` and `operatorBalance`: one pass over the journal entries. */
    method BalanceOf(o: Owner) returns (balance: int)
      ensures balance == OwnerBalance(o, journal)
      ensures var account := if o.Operator? then Revenue else Liability(o.id);
              balance == DirectionTotal(One(account), Credit, journal) - DirectionTotal(One(account), Debit, journal)
    {
      var account := AccountOf(o);
      var debit, credit := 0, 0;
      for i := 0 to |journal|
        invariant debit == DirectionTotal(One(account), Debit, journal[..i])
        invariant credit == DirectionTotal(One(account), Credit, journal[..i])
      {
        assert journal[..i + 1][..i] == journal[..i];
        var entries := journal[i].entries;
        var d, c := 0, 0;
        for k := 0 to |entries|
          invariant d == Total(One(account), Debit, entries[..k]) && c == Total(One(account), Credit, entries[..k])
        {
          assert entries[..k + 1][..k] == entries[..k];
          if entries[k].account == account {
            if entries[k].direction == Debit {
              d := d + entries[k].amount;
            } else {
              c := c + entries[k].amount;
            }
          }
        }
        assert entries[..|entries|] == entries;
        debit, credit := debit + d, credit + c;
      }
      assert journal[..|journal|] == journal;
      balance := credit - debit;
    }

    /** Adds a measure up over all items of all batches, as the `reduce` calls and aggregates do. */
    method SumItems(m: Measure) returns (total: int)
      ensures total == TotalOf(m, batches)
    {
      hide ItemValue;
      total := 0;
      for i := 0 to |batches|
        invariant total == TotalOf(m, batches[..i])
      {
        assert batches[..i + 1][..i] == batches[..i];
        var b := batches[i];
        var sum := 0;
        for k := 0 to |b.items|
          invariant sum == ItemSum(m, b, b.items[..k])
        {
          assert b.items[..k + 1][..k] == b.items[..k];
          sum := sum + ItemValue(m, b, b.items[k]);
        }
        assert b.items[..|b.items|] == b.items;
        total := total + sum;
      }
      assert batches[..|batches|] == batches;
    }

    method AvailableTo(o: Owner) returns (available: int)
      ensures available == Available(journal, batches, o)
      ensures available == OwnerBalance(o, journal) - TotalOf(Reserved(o), batches)
      ensures forall b, item ::
        ItemValue(Reserved(o), b, item) ==
          (if b.state in {Planned, ApprovalRequired, AutoApproved, Signed, Broadcast, Failed} && item.owner == o
           then item.gross else 0)
    {
      hide OwnerBalance, TotalOf;
      var balance := BalanceOf(o);
      var reserved := SumItems(Reserved(o));
      available := balance - reserved;
    }

    // -------------------------------------------------------------- destinations

    /** Activates the due rows one transaction at a time, in the order read. Afterwards the active
        destination of a customer with due rows is the last of them, and the only one. */
    method ActivateDueDestinations(due: set<nat>) returns (n: nat)
      requires Valid()
      modifies this`destinations, this`history
      ensures Valid() && OneActive(destinations) && old(history) <= history
      ensures |destinations| == |old(destinations)|
      ensures forall i :: 0 <= i < |destinations| ==>
        destinations[i] == Settled(old(destinations), due, |old(destinations)|, i)
      ensures forall i :: 0 <= i < |destinations| ==>
        destinations[i] == old(destinations)[i].(status := destinations[i].status)
      ensures forall i :: 0 <= i < |destinations| && IsDue(old(destinations), due, i) ==>
        (destinations[i].status == Active <==> LastDue(old(destinations), due, |old(destinations)|, i))
      ensures forall i :: 0 <= i < |destinations| && !IsDue(old(destinations), due, i) ==>
        destinations[i].status ==
        if old(destinations)[i].status == Active &&
          HasDue(old(destinations), due, |old(destinations)|, old(destinations)[i].customer)
        then Revoked else old(destinations)[i].status
    {
      hide Run, Inv;
      n := 0;
      var before := destinations;
      for k := 0 to |destinations|
        invariant Valid() && |destinations| == |before| && old(history) <= history
        invariant forall i :: 0 <= i < |before| ==> destinations[i] == Settled(before, due, k, i)
      {
        if before[k].status == Pending' && k in due {
          Record(Activate(k));
          destinations := ActivateDestination(destinations, k);
          n := n + 1;
          forall i | 0 <= i < |before| ensures destinations[i] == Settled(before, due, k + 1, i) {
            ActivatedRow(before, due, k, i);
          }
        } else {
          forall i | 0 <= i < |before| ensures destinations[i] == Settled(before, due, k + 1, i) {
            SkippedRow(before, due, k, i);
          }
        }
      }
      EveryRun(history);
      OneActiveHolds(World());
    }

    // -------------------------------------------------------------- planning

    /** The query: the first `take` rows that may be paid. */
    method SelectDestinations(eligible: set<nat>, take: nat) returns (selected: seq<Destination>)
      ensures selected == Selected(destinations, eligible, take)
      ensures exists chosen :: Chooses(destinations, eligible, take, chosen) && AreRows(selected, destinations, chosen)
    {
      selected := [];
      for i := 0 to |destinations|
        invariant selected == Selected(destinations[..i], eligible, take)
      {
        assert destinations[..i + 1][..i] == destinations[..i];
        if destinations[i].status == Active && i in eligible && |selected| < take {
          selected := selected + [destinations[i]];
        }
      }
      assert destinations[..|destinations|] == destinations;
      var chosen := ChosenRows(destinations, eligible, take);
    }

    method CanAutoApprove(limit: int, day: int, amount: int) returns (auto: bool)
      ensures auto <==> limit > 0 && amount <= limit && TotalOf(Auto(day), batches) + amount <= limit
      ensures forall b, item ::
        ItemValue(Auto(day), b, item) ==
          (if b.thresholdHit || b.day != day || b.state == Cancelled then 0 else item.gross)
    {
      if limit <= 0 || amount > limit {
        return false;
      }
      var used := SumItems(Auto(day));
      return used + amount <= limit;
    }

    /** Offers each selected destination all that its customer has available, from its minimum up. */
    method BuildItems(chosen: seq<Destination>, policyMinimum: int) returns (items: seq<Item>)
      ensures items == PlanItems(journal, batches, chosen, policyMinimum)
      ensures exists paid :: PaysRows(journal, batches, chosen, Everyone(|chosen|), policyMinimum, items, paid)
    {
      hide Available;
      items := [];
      for i := 0 to |chosen|
        invariant items == PlanItems(journal, batches, chosen[..i], policyMinimum)
      {
        assert chosen[..i + 1][..i] == chosen[..i];
        var d := chosen[i];
        var available := AvailableTo(Customer(d.customer));
        var minimum := if d.minPayout > policyMinimum then d.minPayout else policyMinimum;
        if available >= minimum {
          items := items + [Fresh(Customer(d.customer), d.address, available)];
        }
      }
      assert chosen[..|chosen|] == chosen;
      var paid := PaidRows(journal, batches, chosen, chosen, Everyone(|chosen|), policyMinimum);
    }

    /** The planning transaction. */
    method PlanBatch(r: PlanRequest) returns (planned: bool)
      requires Valid() && r.minimum >= 0
      modifies this`batches, this`history
      ensures Valid() && history == old(history) + [Step.Plan(r)]
      ensures !planned ==>
        batches == old(batches) && PlanOf(journal, old(batches), destinations, r.eligible, r.maxItems, r.minimum, [])
      ensures planned ==>
        && |batches| == |old(batches)| + 1 && batches[..|old(batches)|] == old(batches)
        && var b := batches[|old(batches)|];
           && |b.items| > 0 && b.day == r.day && b.limit == r.limit
           && PlanOf(journal, old(batches), destinations, r.eligible, r.maxItems, r.minimum, b.items)
           && NewRow(b, CustomerBatch, r.feePayer, r.maxFeeBps,
                     AutoApprovable(r.limit, TotalOf(Auto(r.day), old(batches)), GrossSum(b.items)))
    {
      hide Inv, Next, SaneRun, Selected, TotalOf, Available, Run, DistinctOwners, PlanOf, PlanItems, GrossSum, NewRow,
        AutoApprovable;
      var chosen := SelectDestinations(r.eligible, r.maxItems);
      var items := BuildItems(chosen, r.minimum);
      PlansTheRows(journal, batches, destinations, r.eligible, r.maxItems, r.minimum);
      var total := TotalGross(items);
      var auto := CanAutoApprove(r.limit, r.day, total);
      AutoIsWithin(r.limit, TotalOf(Auto(r.day), batches), total);
      ghost var was := World();
      Record(Step.Plan(r));
      OneActiveHolds(was);
      PlanIsNeverRefused(was, r);
      PlanEffect(was, r, items, auto);
      if |items| == 0 {
        return false;
      }
      batches := batches + [NewBatch(CustomerBatch, items, r.feePayer, r.maxFeeBps, auto, r.day, r.limit)];
      NewBatchIsNew(CustomerBatch, items, r.feePayer, r.maxFeeBps, auto, r.day, r.limit);
      return true;
    }

    method TotalGross(items: seq<Item>) returns (total: int)
      ensures total == GrossSum(items)
    {
      total := 0;
      for i := 0 to |items|
        invariant total == GrossSum(items[..i])
      {
        assert items[..i + 1][..i] == items[..i];
        total := total + items[i].gross;
      }
      assert items[..|items|] == items;
    }

    /** `plan`: due destinations are activated first, so the new address of a customer is the one paid. */
    method Plan(due: set<nat>, r: PlanRequest) returns (planned: bool)
      requires Valid() && r.minimum >= 0
      modifies this`destinations, this`batches, this`history
      ensures Valid() && old(history) <= history && |destinations| == |old(destinations)|
      ensures forall i :: 0 <= i < |destinations| ==>
        destinations[i] == Settled(old(destinations), due, |old(destinations)|, i)
      ensures !planned ==>
        batches == old(batches) && PlanOf(journal, old(batches), destinations, r.eligible, r.maxItems, r.minimum, [])
      ensures planned ==>
        && |batches| == |old(batches)| + 1 && batches[..|old(batches)|] == old(batches)
        && var b := batches[|old(batches)|];
           && |b.items| > 0 && b.day == r.day && b.limit == r.limit
           && PlanOf(journal, old(batches), destinations, r.eligible, r.maxItems, r.minimum, b.items)
           && NewRow(b, CustomerBatch, r.feePayer, r.maxFeeBps,
                     AutoApprovable(r.limit, TotalOf(Auto(r.day), old(batches)), GrossSum(b.items)))
    {
      hide Run, SaneRun, PlanOf, NewRow, TotalOf, Settled;
      var n := ActivateDueDestinations(due);
      planned := PlanBatch(r);
    }

    method PlanOperator(r: OperatorRequest) returns (planned: bool)
      requires Valid() && r.minimum >= 0
      modifies this`batches, this`history
      ensures Valid() && history == old(history) + [Step.PlanOperator(r)]
      ensures planned <==> Available(journal, old(batches), Operator) >= r.minimum
      ensures !planned ==> batches == old(batches)
      ensures planned ==>
        && |batches| == |old(batches)| + 1 && batches[..|old(batches)|] == old(batches)
        && var b, available := batches[|old(batches)|], Available(journal, old(batches), Operator);
           && |b.items| == 1 && b.items[0].owner == Operator && b.items[0].address == r.address
           && b.items[0].gross == b.items[0].net == available && b.items[0].fee == 0 && !b.items[0].journaled
           && b.day == r.day && b.limit == r.limit
           && NewRow(b, OperatorBatch, Some(CustomerPays), Some(r.maxFeeBps),
                     AutoApprovable(r.limit, TotalOf(Auto(r.day), old(batches)), available))
    {
      hide Inv, TotalOf, Available, Run;
      var available := AvailableTo(Operator);
      Record(Step.PlanOperator(r));
      if available < r.minimum {
        return false;
      }
      var auto := CanAutoApprove(r.limit, r.day, available);
      batches := batches + [NewBatch(OperatorBatch, [Fresh(Operator, r.address, available)], Some(CustomerPays),
        Some(r.maxFeeBps), auto, r.day, r.limit)];
      return true;
    }

    // -------------------------------------------------------------- approval and confirmation

    method Approve(id: nat, admin: nat) returns (r: Result<State, ApproveError>)
      requires Valid()
      modifies this`batches, this`history
      ensures Valid() && old(history) <= history
      ensures r == Err(UnknownBatch) <==> id >= |old(batches)|
      ensures r == Err(NotApprovable) <==> id < |old(batches)| && old(batches)[id].state !in {ApprovalRequired, Failed}
      ensures r.Err? ==> batches == old(batches)
      ensures r.Ok? ==>
        && (r.value == Signed <==> old(batches)[id].state == Failed && old(batches)[id].payload.Some?)
        && (r.value == Signed || r.value == AutoApproved) && CanTransition(old(batches)[id].state, r.value)
        && batches == old(batches)[id := old(batches)[id].(state := r.value, approver := Some(admin))]
    {
      hide Inv, Run, Next, SaneRun;
      if id >= |batches| {
        return Err(UnknownBatch);
      }
      var b := batches[id];
      if b.state != ApprovalRequired && b.state != Failed {
        return Err(NotApprovable);
      }
      var next := if b.state == Failed && b.payload.Some? then Signed else AutoApproved;
      ApproveEffect(World(), id, admin, next);
      Record(ApproveRead(id, admin));
      Record(ApproveWrite(Ticket(id, next, admin)));
      batches := batches[id := b.(state := next, approver := Some(admin))];
      return Ok(next);
    }

    /** `reconcile` with the wallet's confirmation counts: exactly the broadcast batches whose
        transactions all have enough confirmations become confirmed. */
    method Reconcile(confirmations: string -> int, required: int)
      requires Valid()
      modifies this`batches, this`history
      ensures Valid() && old(history) <= history
      ensures |batches| == |old(batches)|
      ensures forall i :: 0 <= i < |batches| ==>
        var b := old(batches)[i];
        if && b.state == Broadcast && |b.txids| > 0
           && (forall k :: 0 <= k < |b.txids| ==> confirmations(b.txids[k]) >= required)
        then batches[i] == b.(state := Confirmed) else batches[i] == b
    {
      hide Inv, Run, Next, SaneRun;
      for i := 0 to |batches|
        invariant Valid() && old(history) <= history && |batches| == |old(batches)|
        invariant forall k :: i <= k < |batches| ==> batches[k] == old(batches)[k]
        invariant forall k :: 0 <= k < i ==>
          batches[k] == (if Settles(old(batches)[k], confirmations, required)
            then old(batches)[k].(state := Confirmed) else old(batches)[k])
      {
        var b := batches[i];
        if b.state == Broadcast {
          var ids := b.txids;
          var enough := |ids| > 0 && forall k :: 0 <= k < |ids| ==> confirmations(ids[k]) >= required;
          if enough {
            ConfirmEffect(World(), i);
            Record(ConfirmRead(i));
            Record(ConfirmWrite(i));
            batches := batches[i := b.(state := Confirmed)];
          }
        }
      }
    }

    // -------------------------------------------------------------- deposits

    /** `allocateDeposit`. A confirmed deposit is divided and credited, unless it cannot be divided or already
        has its allocation; the guard on the parts and both journal guards never fire. */
    method AllocateDeposit(key: DepositKey, grouped: seq<Deposits.Group>, policies: map<nat, int>)
      returns (r: Option<AllocateError>)
      requires Valid()
      modifies this`deposits, this`allocations, this`journal, this`history
      ensures Valid() && old(history) <= history
      ensures r == Some(UnknownDeposit) <==> key !in old(deposits)
      ensures r == Some(NotConfirmed) <==>
        key in old(deposits) && old(deposits)[key].status in {Deposits.Observed, Deposits.Reorged}
      ensures key in old(deposits) && old(deposits)[key].status == Deposits.Shared ==> r.None?
      ensures key in old(deposits) && old(deposits)[key].status == Deposits.Confirmed ==>
        match Fault(old(deposits)[key].amount, grouped, policies)
        case Some(e) => r == Some(Undivided(e))
        case None => r == if HasAllocation(old(allocations), key) then Some(AlreadyAllocated) else None
      ensures r.Some? || old(deposits)[key].status == Deposits.Shared ==>
        deposits == old(deposits) && allocations == old(allocations) && journal == old(journal) &&
          history == old(history)
      ensures r.None? ==> HasAllocation(allocations, key)
      ensures r.None? && old(deposits)[key].status == Deposits.Confirmed ==>
        && deposits == old(deposits)[key := old(deposits)[key].(status := Deposits.Shared)]
        && |allocations| == |old(allocations)| + 1 && allocations[..|old(allocations)|] == old(allocations)
        && var a := allocations[|old(allocations)|];
           && a.deposit == key && a.total == old(deposits)[key].amount
           && Deposits.Itemised(a.total, Deposits.WithWork(grouped), policies, a.items)
           && journal == Credited(old(journal), a)
           && history == old(history) + [Allocate(key, Deposits.WithWork(grouped), policies, a.items)]
    {
      hide Run, Inv, Next, SaneRun, Deposits.Itemised, HasAllocation, Credited, Deposits.WithWork,
        Deposits.DivisionFault;
      EveryRun(history);
      if key !in deposits {
        return Some(UnknownDeposit);
      }
      var deposit := deposits[key];
      if deposit.status == Deposits.Shared {
        SharedHasAllocation(World(), key);
        return None;
      }
      if deposit.status != Deposits.Confirmed {
        return Some(NotConfirmed);
      }
      var divided, groups := Deposits.Itemise(deposit.amount, grouped, policies);
      if divided.Err? {
        return Some(Undivided(divided.error));
      }
      if HasAllocation(allocations, key) {
        return Some(AlreadyAllocated);
      }
      CreditDeposit(key, groups, policies, divided.value);
      NewAllocationIsThere(allocations, key);
      return None;
    }

    /** The writes of an allocation: both journal transactions, the allocation batch and the status. */
    method CreditDeposit(key: DepositKey, groups: seq<Deposits.Group>, policies: map<nat, int>,
                         items: seq<Deposits.Item>)
      requires Valid() && key in deposits && deposits[key].status == Deposits.Confirmed
      requires !HasAllocation(allocations, key)
      requires Deposits.Itemised(deposits[key].amount, groups, policies, items)
      modifies this`deposits, this`allocations, this`journal, this`history
      ensures Valid() && history == old(history) + [Allocate(key, groups, policies, items)]
      ensures deposits == old(deposits)[key := old(deposits)[key].(status := Deposits.Shared)]
      ensures allocations == old(allocations) + [Allocation(key, old(deposits)[key].amount, items)]
      ensures journal == Credited(old(journal), Allocation(key, old(deposits)[key].amount, items))
    {
      hide Run, Inv, Deposits.Itemised, Deposits.PostAllocation, HasAllocation, Total, Deposits.LiabilityEntries,
        Deposits.CustomerTotals;
      var total := deposits[key].amount;
      EveryRun(history);
      AllocationGoesThrough(World(), key, groups, policies, items);
      var operatorTotal := Sum(Deposits.OperatorParts(items));
      assert Sum(Deposits.CustomerParts(items)) + operatorTotal == total;
      var first := Post(journal, DepositOf(key), Deposits.DepositEntries(total));
      assert first.Ok?;
      var liabilities := Deposits.BuildLiabilities(items);
      var revenue := if operatorTotal > 0 then [Entry(Revenue, Credit, operatorTotal)] else [];
      var second := Post(first.value, AllocationOf(key), [Entry(Clearing, Debit, total)] + liabilities + revenue);
      assert second.Ok?;
      Record(Allocate(key, groups, policies, items));
      journal := second.value;
      allocations := allocations + [Allocation(key, total, items)];
      deposits := deposits[key := deposits[key].(status := Deposits.Shared)];
    }

    /** One receipt of a scan. An allocated deposit that is locked again is flagged; otherwise the
        row follows the receipt, except that an allocated one stays allocated. */
    method ObserveReceipt(receipt: Deposits.Receipt, upstream: nat)
      requires Valid() && receipt.amount > 0
      modifies this`deposits, this`history
      ensures Valid() && old(history) <= history
      ensures receipt.key in deposits && deposits.Keys == old(deposits).Keys + {receipt.key}
      ensures forall k :: k in old(deposits) && k != receipt.key ==> deposits[k] == old(deposits)[k]
      ensures SameOrigin(old(deposits), deposits, receipt, upstream)
      ensures deposits[receipt.key].status == StatusAfter(old(deposits), receipt)
      ensures receipt.key in old(deposits) && old(deposits)[receipt.key].status == Deposits.Shared ==>
        deposits[receipt.key].status == if receipt.locked then Deposits.Reorged else Deposits.Shared
      ensures receipt.key !in old(deposits) || old(deposits)[receipt.key].status != Deposits.Shared ==>
        deposits[receipt.key].status == if receipt.locked then Deposits.Observed else Deposits.Confirmed
    {
      hide Run, Inv, HasAllocation;
      var seen := if receipt.key in deposits then Some(deposits[receipt.key].status) else None;
      EveryRun(history);
      if seen == Some(Deposits.Shared) {
        SharedHasAllocation(World(), receipt.key);
      }
      Record(Step.Observe(receipt, upstream, seen));
      deposits := Deposits.Observe(deposits, receipt, upstream, seen);
    }

    /** One receipt with its attempt to allocate: the row follows the receipt, and is credited exactly when it
        is confirmed, divisible and without an allocation. No other row is touched. */
    method ScanReceipt(receipt: Deposits.Receipt, upstream: nat, grouped: seq<Deposits.Group>, policies: map<nat, int>)
      requires Valid() && receipt.amount > 0
      modifies this`deposits, this`allocations, this`journal, this`history
      ensures Valid() && old(history) <= history
      ensures deposits.Keys == old(deposits).Keys + {receipt.key}
      ensures forall k :: k in old(deposits) && k != receipt.key ==> deposits[k] == old(deposits)[k]
      ensures SameOrigin(old(deposits), deposits, receipt, upstream)
      ensures var observed := StatusAfter(old(deposits), receipt);
              var credited := observed == Deposits.Confirmed && Divisible(grouped, policies)
                              && !HasAllocation(old(allocations), receipt.key);
              && deposits[receipt.key].status == (if credited then Deposits.Shared else observed)
              && (if credited then NewlyAllocated(old(allocations), allocations, receipt.key)
                else allocations == old(allocations))
      ensures !receipt.locked && Divisible(grouped, policies) ==> HasAllocation(allocations, receipt.key)
    {
      hide Run, Inv, Next, SaneRun, Deposits.Itemised, HasAllocation, Deposits.WithWork, Credited, Divisible, Fault;
      ObserveReceipt(receipt, upstream);
      EveryRun(history);
      if deposits[receipt.key].status == Deposits.Confirmed {
        DepositIsPositive(World(), receipt.key);
        FaultIsIndivisible(deposits[receipt.key].amount, grouped, policies);
        var refused := AllocateDeposit(receipt.key, grouped, policies);
      } else if deposits[receipt.key].status == Deposits.Shared {
        SharedHasAllocation(World(), receipt.key);
      }
    }

    /** `scanAsset`: refused as a whole for an ambiguous address. Otherwise every receipt paid to a known address
        has its row and, if it is unlocked and its work can be divided, its allocation. Rows keep the amount
        first observed, rows of other receipts stay as they are, and nothing else is allocated. */
    method Scan(upstreams: seq<Deposits.Upstream>, receipts: seq<Sighting>, work: nat -> seq<Deposits.Group>,
                policies: map<nat, int>)
      returns (scanned: bool)
      requires Valid()
      requires forall i :: 0 <= i < |receipts| ==> receipts[i].receipt.amount > 0
      modifies this`deposits, this`allocations, this`journal, this`history
      ensures Valid() && old(history) <= history
      ensures scanned <==> !Deposits.Ambiguous(upstreams)
      ensures !scanned ==> deposits == old(deposits) && allocations == old(allocations) && journal == old(journal)
      ensures RowsKept(old(deposits), deposits, receipts, upstreams)
      ensures AllocationsKept(old(allocations), allocations, receipts)
      ensures scanned ==> forall i :: 0 <= i < |receipts| && Attributable(upstreams, receipts[i].address) ==>
        receipts[i].receipt.key in deposits &&
          (Offered(receipts, work, policies, i) ==> HasAllocation(allocations, receipts[i].receipt.key))
    {
      hide Run, SaneRun, Deposits.Owns, Deposits.Ambiguous, RowsKept, AllocationsKept, HasAllocation, Offered;
      NothingScanned(deposits, allocations, receipts, upstreams);
      var byAddress := Deposits.ByAddress(upstreams);
      if byAddress.None? {
        return false;
      }
      ReadReceipts(upstreams, byAddress.value, receipts, work, policies);
      return true;
    }

    /** The loop over the receipts. */
    method ReadReceipts(ghost upstreams: seq<Deposits.Upstream>, byAddress: map<string, Deposits.Upstream>,
                        receipts: seq<Sighting>, work: nat -> seq<Deposits.Group>, policies: map<nat, int>)
      requires Valid() && forall a :: a in byAddress ==> Deposits.Owns(upstreams, a, byAddress[a])
      requires forall i :: 0 <= i < |receipts| ==> receipts[i].receipt.amount > 0
      modifies this`deposits, this`allocations, this`journal, this`history
      ensures Valid() && old(history) <= history
      ensures RowsKept(old(deposits), deposits, receipts, upstreams)
      ensures AllocationsKept(old(allocations), allocations, receipts)
      ensures forall i :: 0 <= i < |receipts| && receipts[i].address in byAddress ==>
        receipts[i].receipt.key in deposits &&
          (Offered(receipts, work, policies, i) ==> HasAllocation(allocations, receipts[i].receipt.key))
    {
      hide Run, SaneRun, HasAllocation, RowsKept, AllocationsKept, NewlyAllocated, Divisible, Offered, Deposits.Owns,
        SameOrigin;
      NothingScanned(deposits, allocations, receipts, upstreams);
      for i := 0 to |receipts|
        invariant Valid() && old(history) <= history
        invariant RowsKept(old(deposits), deposits, receipts, upstreams)
        invariant AllocationsKept(old(allocations), allocations, receipts)
        invariant forall j :: 0 <= j < i && receipts[j].address in byAddress ==> receipts[j].receipt.key in deposits
        invariant forall j :: 0 <= j < i && receipts[j].address in byAddress && Offered(receipts, work, policies, j) ==>
          HasAllocation(allocations, receipts[j].receipt.key)
      {
        if receipts[i].address in byAddress {
          ghost var rows, batches := deposits, allocations;
          ScanReceipt(receipts[i].receipt, byAddress[receipts[i].address].id, work(i), policies);
          OneMoreReceipt(old(deposits), rows, deposits, receipts, upstreams, byAddress[receipts[i].address], i);
          MoreAllocations(old(allocations), batches, allocations, receipts, i);
          OfferedIsDivisible(receipts, work, policies, i);
        }
      }
    }

    // -------------------------------------------------------------- execution

    /** The `catch` block. */
    method Fail(id: nat)
      requires Mirrors() && World().phase != Idle && World().phase.id == id < |batches|
      modifies this`batches, this`history
      ensures Valid() && old(history) <= history && World().chain == old(World()).chain
      ensures batches == old(batches)[id := old(batches)[id].(state := Failed)]
    {
      hide Run, Inv;
      Record(Throw);
      batches := batches[id := batches[id].(state := Failed)];
    }

    /** The wallet's preparation, within the fee cap: the executor then holds what it may sign. */
    method PreparePayout(id: nat, outside: Outside) returns (signing: Option<Signing>)
      requires Mirrors() && id < |batches| && World().phase == Loaded(id, batches[id])
      requires SignerIsTruthful(outside, World())
      modifies this`history
      ensures Mirrors() && old(history) <= history && World().chain == old(World()).chain
      ensures signing.None? ==> World().phase == Loaded(id, batches[id])
      ensures signing.Some? ==>
        && World().phase == Charged(id, batches[id], signing.value) && |signing.value.prepared| == |batches[id].items|
        && var g, b := signing.value, batches[id];
           && (g.deducted <==> !(b.kind == CustomerBatch && b.feePayer.GetOr(outside.payer) == OperatorPays))
           && g.cap == b.maxFeeBps.GetOr(outside.bps)
           && WalletFees.Charges(Candidates(b), g.deducted, g.fee, g.prepared)
           && (b.kind == CustomerBatch ==> g.fee * 10000 <= Value(Gross, b) * g.cap)
           && (forall i :: 0 <= i < |b.items| ==>
                 g.prepared[i].net == b.items[i].gross - (if g.deducted then g.prepared[i].fee else 0))
           && (exists k: nat :: SignedFor(outside, k, b, g))
    {
      hide Run, Inv, WalletFees.Charges, WalletTruth, Value, SignerIsTruthful, WalletFees.QuoteFor,
        WalletFees.QuotesFee, SignedFor;
      var batch := batches[id];
      if !outside.held(1) {
        return None;
      }
      var feePayer := batch.feePayer.GetOr(outside.payer);
      var cap := batch.maxFeeBps.GetOr(outside.bps);
      var deducted := !(batch.kind == CustomerBatch && feePayer == OperatorPays);
      var converged, fees, trials := WalletFees.Converge(Candidates(batch), deducted, outside.quotes);
      if converged.Err? {
        return None;
      }
      var p := converged.value;
      if batch.kind == CustomerBatch && p.fee * 10000 > Value(Gross, batch) * cap {
        return None;
      }
      var txs := outside.sign(p.quote);
      if txs.None? {
        return None;
      }
      SignedAsAsked(outside, World(), Candidates(batch), |trials|, p, txs.value);
      ChargesAllItems(batch, deducted, p);
      Record(Prepare(outside.payer, outside.bps, p.items, p.fee, txs.value));
      signing := Some(Signing(p.items, p.fee, txs.value, deducted, cap));
      QuoteIsForItems(outside, |trials|, batch, p, signing.value);
    }

    /** The signing transaction: fee split, payload and SIGNED, written at once and read back. */
    method SignBatch(id: nat, g: Signing)
      requires Mirrors() && id < |batches| && World().phase == Charged(id, batches[id], g)
      requires |g.prepared| == |batches[id].items| && CanTransition(batches[id].state, Signed)
      modifies this`batches, this`history
      ensures Mirrors() && old(history) <= history && World().chain == old(World()).chain
      ensures |batches| == |old(batches)| && batches == old(batches)[id := batches[id]]
      ensures World().phase == Ready(id, batches[id])
      ensures SignedRow(old(batches)[id], batches[id], g)
    {
      hide Run, Inv;
      var batch := batches[id];
      var items := batch.items;
      for i := 0 to |g.prepared|
        invariant |items| == |batch.items|
        invariant forall k :: 0 <= k < i ==>
          items[k] == batch.items[k].(fee := g.prepared[k].fee, net := g.prepared[k].net)
        invariant forall k :: i <= k < |items| ==> items[k] == batch.items[k]
      {
        items := items[i := items[i].(fee := g.prepared[i].fee, net := g.prepared[i].net)];
      }
      assert items == ChargedItems(batch.items, g.prepared);
      hide ChargedItems;
      Record(Sign);
      batches := batches[id := batch.(items := items, state := Signed, payload := Some(g.txs), txids := Ids(g.txs),
                                      totalFee := g.fee, deducted := g.deducted, feeCap := g.cap)];
      Record(Refresh);
    }

    method PrepareAndSign(id: nat, outside: Outside) returns (ok: bool)
      requires Mirrors() && id < |batches| && World().phase == Loaded(id, batches[id])
      requires SignerIsTruthful(outside, World())
      modifies this`batches, this`history
      ensures Mirrors() && old(history) <= history && World().chain == old(World()).chain && |batches| == |old(batches)|
      ensures !ok ==> batches == old(batches) && World().phase != Idle && World().phase.id == id
      ensures ok ==>
        && batches == old(batches)[id := batches[id]] && World().phase == Ready(id, batches[id])
        && batches[id].state == Signed && batches[id].payload.Some?
    {
      hide Run, SaneRun, SignerIsTruthful;
      var signing := PreparePayout(id, outside);
      if signing.None? || !outside.held(2) || !CanTransition(batches[id].state, Signed) {
        return false;
      }
      SignBatch(id, signing.value);
      return true;
    }

    /** Hands transaction k of the payload to the network. */
    ghost method RelayTransaction(id: nat, k: nat, chain: set<Tx>)
      requires Mirrors() && id < |batches| && batches[id].payload.Some? && k < |batches[id].payload.value|
      requires World().phase == Relaying(id, batches[id], k) && NewIsFrom(chain, World().chain, batches[id])
      modifies this`history
      ensures Mirrors() && history == old(history) + [RelayNext]
      ensures World().phase == Relaying(id, batches[id], k + 1) && NewIsFrom(chain, World().chain, batches[id])
    {
      hide Run, Inv, Next, NewIsFrom;
      OneMore(chain, World().chain, batches[id], batches[id].payload.value[k]);
      RelayOne(World(), id, batches[id], k);
      Record(RelayNext);
    }

    /** Relays the stored transactions one by one; the first refusal ends the loop. */
    method RelayPayload(id: nat, outside: Outside) returns (ok: bool)
      requires Mirrors() && id < |batches| && batches[id].payload.Some? && World().phase == Ready(id, batches[id])
      modifies this`history
      ensures Mirrors() && old(history) <= history
      ensures ok ==> World().phase == Relayed(id, batches[id], outside.reported)
      ensures !ok ==> World().phase != Idle && World().phase.id == id
      ensures NewIsFrom(old(World()).chain, World().chain, batches[id])
      ensures ok <==> forall k :: 0 <= k < |batches[id].payload.value| ==> outside.relays(k)
    {
      hide Run, Inv, Next, SaneRun, NewIsFrom;
      var batch := batches[id];
      var payload := batch.payload.value;
      NothingNew(World().chain, batch);
      RelayEnds(World(), id, batch, []);
      Record(StartRelay);
      for k := 0 to |payload|
        invariant Mirrors() && old(history) <= history && World().phase == Relaying(id, batch, k)
        invariant NewIsFrom(old(World()).chain, World().chain, batch)
        invariant forall j :: 0 <= j < k ==> outside.relays(j)
      {
        if !outside.relays(k) {
          return false;
        }
        RelayTransaction(id, k, old(World()).chain);
      }
      RelayEnds(World(), id, batch, outside.reported);
      Record(EndRelay(outside.reported));
      return true;
    }

    /** Broadcast unless the wallet knows every expected id already. Whatever fails on the way, what
        has been relayed is part of the stored payload; success means all of it. */
    method BroadcastPayload(id: nat, outside: Outside) returns (ids: Option<seq<string>>)
      requires Mirrors() && id < |batches| && batches[id].payload.Some? && World().phase == Ready(id, batches[id])
      requires WalletKnowsOnlyRelayed(outside, World())
      modifies this`history
      ensures Mirrors() && old(history) <= history
      ensures ids.Some? ==> World().phase == Relayed(id, batches[id], ids.value)
      ensures ids.None? ==> World().phase != Idle && World().phase.id == id
      ensures NewIsFrom(old(World()).chain, World().chain, batches[id])
      ensures (&& |batches[id].txids| > 0
               && forall k :: 0 <= k < |batches[id].txids| ==> outside.knows(batches[id].txids[k])) ==>
        World().chain == old(World()).chain && (ids.Some? ==> ids.value == batches[id].txids)
    {
      hide Run, Inv, NewIsFrom;
      var batch := batches[id];
      NothingNew(World().chain, batch);
      if !outside.held(3) {
        return None;
      }
      var known := |batch.txids| > 0 && forall k :: 0 <= k < |batch.txids| ==> outside.knows(batch.txids[k]);
      if !outside.held(4) {
        return None;
      }
      if known {
        KnownIsRelayed(outside, World(), batch.txids);
        Record(FindKnown);
        ids := Some(batch.txids);
      } else {
        var relayed := RelayPayload(id, outside);
        if !relayed {
          return None;
        }
        ids := Some(outside.reported);
      }
      if !outside.held(5) {
        return None;
      }
    }

    /** The posting loop over the items of the row that was read. */
    method PostAll(id: nat, batch: Batch) returns (posted: Option<seq<Journal>>)
      ensures posted == PostItems(journal, id, batch, |batch.items|)
      ensures posted.Some? ==> posted.value == journal + Transactions(id, batch, |batch.items|)
    {
      hide Post, Transactions;
      var j := journal;
      for i := 0 to |batch.items|
        invariant PostItems(journal, id, batch, i) == Some(j)
      {
        var item := batch.items[i];
        if !item.journaled {
          var p := Post(j, ReferenceOf(id, item.owner), EntriesOf(batch, item));
          if p.Err? {
            PostItemsStaysRefused(journal, id, batch, i + 1, |batch.items|);
            return None;
          }
          j := p.value;
        }
      }
      PostItemsAppends(journal, id, batch, |batch.items|);
      return Some(j);
    }

    /** The final transaction: every item not journaled yet is posted and marked. */
    method JournalBatch(id: nat, ids: seq<string>) returns (ok: bool)
      requires Mirrors() && id < |batches| && World().phase == Relayed(id, batches[id], ids)
      modifies this`journal, this`batches, this`history
      ensures Mirrors() && old(history) <= history && World().chain == old(World()).chain
      ensures !ok ==>
        batches == old(batches) && journal == old(journal) && World().phase != Idle && World().phase.id == id
      ensures ok ==>
        && World().phase == Committed(id)
        && journal == old(journal) + Transactions(id, old(batches)[id], |old(batches)[id].items|)
        && batches == old(batches)[id := old(batches)[id].(items := MarkJournaled(old(batches)[id].items),
          state := Broadcast, txids := ids)]
      ensures ok ==>
        && |batches| == |old(batches)| && |batches[id].items| == |old(batches)[id].items|
        && forall i :: 0 <= i < |batches[id].items| ==>
          batches[id].items[i] == old(batches)[id].items[i].(journaled := true)
      ensures ok <==>
        && CanTransition(old(batches)[id].state, Broadcast)
        && forall i :: 0 <= i < |old(batches)[id].items| && !old(batches)[id].items[i].journaled ==>
          Postable(old(batches)[id].items[i])
    {
      hide Run, Inv, Next, PostItems, Postable, MarkJournaled, Transactions;
      var batch := batches[id];
      if !CanTransition(batch.state, Broadcast) {
        return false;
      }
      EveryRun(history);
      PostedUnlessEmpty(World(), batch);
      var posted := PostAll(id, batch);
      if posted.None? {
        return false;
      }
      PostItemsReferences(journal, id, batch, |batch.items|, OperatorPayout(0));
      CommitEffect(World(), posted.value);
      MarksEveryItem(batch.items);
      Record(Commit);
      journal := posted.value;
      batches := batches[id := batch.(items := MarkJournaled(batch.items), state := Broadcast, txids := ids)];
      return true;
    }

    /** Journal, then read the row back. */
    method Finish(id: nat, ids: seq<string>, outside: Outside) returns (ok: bool)
      requires Mirrors() && id < |batches| && World().phase == Relayed(id, batches[id], ids)
      modifies this`journal, this`batches, this`history
      ensures Valid() && old(history) <= history && World().chain == old(World()).chain
      ensures |batches| == |old(batches)| && batches == old(batches)[id := batches[id]]
      ensures batches[id].payload == old(batches)[id].payload
      ensures !ok ==>
        batches[id].state == Failed &&
          (journal == old(journal) || (!outside.rereads && Complete(batches[id], World().chain)))
      ensures ok ==> batches[id].state == Broadcast && Complete(batches[id], World().chain)
    {
      hide Run, Inv, SaneRun, Next, Complete, MarkJournaled;
      var journaled := JournalBatch(id, ids);
      if !journaled {
        Fail(id);
        return false;
      }
      EveryRun(history);
      BroadcastIsComplete(World(), id);
      CompleteInAnyState(batches[id], World().chain);
      if !outside.rereads {
        Fail(id);
        return false;
      }
      ReturnEffect(World());
      Record(Return);
      return true;
    }

    /** The checks before the `try`, and the read of the row. */
    method LoadBatch(id: nat, outside: Outside) returns (r: Option<ExecuteError>)
      requires Valid()
      modifies this`history
      ensures Mirrors() && old(history) <= history && World().chain == old(World()).chain
      ensures r == Some(LockLost) <==> !outside.held(0)
      ensures r == Some(Halted) <==> outside.held(0) && AnyReorged(deposits)
      ensures r == Some(NotFound) <==> outside.held(0) && !AnyReorged(deposits) && id >= |batches|
      ensures r == Some(NotExecutable) <==>
        && outside.held(0) && !AnyReorged(deposits) && id < |batches|
        && batches[id].state !in {AutoApproved, Signed, Failed}
      ensures r != Some(ExecutionFailed)
      ensures r.Some? ==> history == old(history)
      ensures r.None? ==>
        && id < |batches| && batches[id].state in {AutoApproved, Signed, Failed}
        && World().phase == if batches[id].payload.Some? then Ready(id, batches[id]) else Loaded(id, batches[id])
    {
      hide Run, Inv;
      if !outside.held(0) {
        return Some(LockLost);
      }
      if !NoReorg(deposits) {
        return Some(Halted);
      }
      if id >= |batches| {
        return Some(NotFound);
      }
      var batch := batches[id];
      if batch.state != AutoApproved && batch.state != Signed && batch.state != Failed {
        return Some(NotExecutable);
      }
      Record(Load(id));
      return None;
    }

    /** The `try` block: sign if need be, broadcast, journal, and read the row back. */
    method Attempt(id: nat, outside: Outside) returns (ok: bool)
      requires Mirrors() && SignerIsTruthful(outside, World()) && WalletKnowsOnlyRelayed(outside, World())
      requires id < |batches|
      requires World().phase == if batches[id].payload.Some? then Ready(id, batches[id]) else Loaded(id, batches[id])
      modifies this`journal, this`batches, this`history
      ensures Valid() && old(history) <= history
      ensures |batches| == |old(batches)| && batches == old(batches)[id := batches[id]]
      ensures old(batches)[id].payload.Some? ==> batches[id].payload == old(batches)[id].payload
      ensures NewIsFrom(old(World()).chain, World().chain, batches[id])
      ensures !ok ==>
        batches[id].state == Failed &&
          (journal == old(journal) || (!outside.rereads && Complete(batches[id], World().chain)))
      ensures ok ==> batches[id].state == Broadcast && Complete(batches[id], World().chain)
    {
      hide Run, Inv, SaneRun, Next, SignerIsTruthful, WalletKnowsOnlyRelayed, Complete, MarkJournaled;
      if batches[id].payload.None? {
        var signed := PrepareAndSign(id, outside);
        if !signed {
          Fail(id);
          return false;
        }
      }
      KnowledgeStays(outside, old(World()), World());
      var ids := BroadcastPayload(id, outside);
      if ids.None? {
        Fail(id);
        return false;
      }
      ok := Finish(id, ids.value, outside);
    }

    /** `execute`. Success means broadcast, journaled in full and on the chain. A failure inside the `try`
        leaves FAILED and the journal as it was, except that an exception after the final transaction
        leaves FAILED on a batch that is complete. A payload once stored is never replaced, and nothing
        but this batch's stored payload reaches the chain. */
    method Execute(id: nat, outside: Outside) returns (r: Option<ExecuteError>)
      requires Valid() && SignerIsTruthful(outside, World()) && WalletKnowsOnlyRelayed(outside, World())
      modifies this`journal, this`batches, this`history
      ensures Valid() && old(history) <= history
      ensures r == Some(LockLost) <==> !outside.held(0)
      ensures r == Some(NotFound) <==> outside.held(0) && !AnyReorged(deposits) && id >= |old(batches)|
      ensures r == Some(Halted) <==> outside.held(0) && AnyReorged(deposits)
      ensures r == Some(NotExecutable) <==>
        && outside.held(0) && !AnyReorged(deposits) && id < |old(batches)|
        && old(batches)[id].state !in {AutoApproved, Signed, Failed}
      ensures r.Some? && r != Some(ExecutionFailed) ==> batches == old(batches) && World() == old(World())
      ensures r.Some? && r != Some(ExecutionFailed) ==> journal == old(journal)
      ensures r == Some(ExecutionFailed) || r.None? ==>
        && id < |batches| == |old(batches)| && batches == old(batches)[id := batches[id]]
        && (old(batches)[id].payload.Some? ==> batches[id].payload == old(batches)[id].payload)
        && NewIsFrom(old(World()).chain, World().chain, batches[id])
      ensures r == Some(ExecutionFailed) ==>
        batches[id].state == Failed &&
          (journal == old(journal) || (!outside.rereads && Complete(batches[id], World().chain)))
      ensures r.None? ==> batches[id].state == Broadcast && Complete(batches[id], World().chain)
    {
      hide Run, Inv, SaneRun, Next, SignerIsTruthful, WalletKnowsOnlyRelayed, Complete, AnyReorged;
      var refused := LoadBatch(id, outside);
      if refused.Some? {
        return refused;
      }
      SignerStaysTruthful(outside, old(World()), World());
      KnowledgeStays(outside, old(World()), World());
      var ok := Attempt(id, outside);
      return if ok then None else Some(ExecutionFailed);
    }
  }

  /** An allocated deposit was flagged and nobody has dealt with it. */
  ghost predicate AnyReorged(deposits: map<DepositKey, Deposits.Deposit>) {
    exists key :: key in deposits && deposits[key].status == Deposits.Reorged
  }

  /** Only transactions of this batch's payload were added. */
  ghost predicate NewIsFrom(chain: set<Tx>, chain': set<Tx>, b: Batch) {
    chain <= chain' && forall tx :: tx in chain' && tx !in chain ==> InPayload(b, tx)
  }

  lemma NothingNew(chain: set<Tx>, b: Batch)
    ensures NewIsFrom(chain, chain, b)
  {
  }

  lemma OneMore(chain: set<Tx>, chain': set<Tx>, b: Batch, tx: Tx)
    requires NewIsFrom(chain, chain', b) && InPayload(b, tx)
    ensures NewIsFrom(chain, chain' + {tx}, b)
  {
  }

  function OutputAmounts(outputs: seq<WalletFees.Output>): (a: seq<int>)
    ensures |a| == |outputs|
  {
    seq(|outputs|, i requires 0 <= i < |outputs| => outputs[i].amount)
  }

  /** Assumed of the wallet: what it signs for a quote carries the outputs asked for and the quoted
      fee, under ids of its own. */
  ghost predicate SignerIsTruthful(outside: Outside, w: Sys) {
    forall k, outputs, quote, fee, txs |
      && outside.quotes(k, outputs) == Some(quote) && WalletFees.QuotesFee(quote, fee)
      && outside.sign(quote) == Some(txs) ::
      |txs| > 0 && Sum(Outflows(txs)) == Sum(OutputAmounts(outputs)) + fee && FreshIds(txs, w)
  }

  ghost predicate FreshIds(txs: seq<Tx>, w: Sys) {
    && (forall i, j :: 0 <= i < j < |txs| ==> txs[i].id != txs[j].id)
    && (forall tx, k, other | tx in txs && 0 <= k < |w.batches| :: InPayload(w.batches[k], other) ==> tx.id != other.id)
  }

  ghost predicate WalletKnowsOnlyRelayed(outside: Outside, w: Sys) {
    forall id :: outside.knows(id) ==> HasId(w.chain, id)
  }

  /** The row after signing: state, payload, its ids and the fee, and each item's share and net; the rest stays. */
  ghost predicate SignedRow(b: Batch, b': Batch, g: Signing) {
    && b'.state == Signed && b'.payload == Some(g.txs) && b'.totalFee == g.fee
    && b'.deducted == g.deducted && b'.feeCap == g.cap
    && |b'.txids| == |g.txs| && (forall i :: 0 <= i < |g.txs| ==> b'.txids[i] == g.txs[i].id)
    && |b'.items| == |b.items| == |g.prepared|
    && (forall i :: 0 <= i < |b.items| ==>
          b'.items[i] == b.items[i].(fee := g.prepared[i].fee, net := g.prepared[i].net))
    && b' == b.(state := b'.state, payload := b'.payload, txids := b'.txids, totalFee := b'.totalFee,
                deducted := b'.deducted, feeCap := b'.feeCap, items := b'.items)
  }

  /** What was signed is the wallet's own quote, at the fee that was charged, for outputs that give each item's
      address its net amount. */
  ghost predicate SignedFor(outside: Outside, k: nat, b: Batch, g: Signing) {
    exists outputs: seq<WalletFees.Output>, quote ::
      && |outputs| == |b.items| == |g.prepared|
      && (forall i :: 0 <= i < |outputs| ==>
            outputs[i].address == b.items[i].address && outputs[i].amount == g.prepared[i].net)
      && outside.quotes(k, outputs) == Some(quote) && WalletFees.QuotesFee(quote, g.fee)
      && outside.sign(quote) == Some(g.txs)
  }

  lemma QuoteIsForItems(outside: Outside, k: nat, b: Batch, p: WalletFees.Prepared, g: Signing)
    requires WalletFees.QuoteFor(Candidates(b), outside.quotes, k, p) && WalletFees.QuotesFee(p.quote, p.fee)
    requires outside.sign(p.quote) == Some(g.txs) && g.prepared == p.items && g.fee == p.fee
    ensures SignedFor(outside, k, b, g)
  {
    hide WalletFees.QuotesFee;
    var outputs: seq<WalletFees.Output> :|
      WalletFees.AsksNet(outputs, Candidates(b), p.items) && outside.quotes(k, outputs) == Some(p.quote);
    assert forall i :: 0 <= i < |outputs| ==> outputs[i].address == b.items[i].address;
  }

  lemma SignedAsAsked(outside: Outside, w: Sys, items: seq<WalletFees.Candidate>, k: nat, p: WalletFees.Prepared,
                      txs: seq<Tx>)
    requires SignerIsTruthful(outside, w)
    requires WalletFees.QuoteFor(items, outside.quotes, k, p) && WalletFees.QuotesFee(p.quote, p.fee)
    requires outside.sign(p.quote) == Some(txs)
    ensures WalletTruth(w, p.items, p.fee, txs)
  {
    hide WalletFees.QuotesFee;
    var outputs: seq<WalletFees.Output> :|
      WalletFees.AsksNet(outputs, items, p.items) && outside.quotes(k, outputs) == Some(p.quote);
    assert OutputAmounts(outputs) == WalletFees.NetsOf(p.items);
  }

  lemma KnownIsRelayed(outside: Outside, w: Sys, ids: seq<string>)
    requires WalletKnowsOnlyRelayed(outside, w) && forall k :: 0 <= k < |ids| ==> outside.knows(ids[k])
    ensures forall k :: 0 <= k < |ids| ==> HasId(w.chain, ids[k])
  {
  }

  lemma ChargesAllItems(b: Batch, deducted: bool, p: WalletFees.Prepared)
    requires WalletFees.Charges(Candidates(b), deducted, p.fee, p.items)
    ensures |p.items| == |b.items|
    ensures forall i :: 0 <= i < |b.items| ==>
      p.items[i].net == b.items[i].gross - (if deducted then p.items[i].fee else 0)
  {
  }

  lemma SignerStaysTruthful(outside: Outside, w: Sys, w': Sys)
    requires SignerIsTruthful(outside, w) && w'.batches == w.batches
    ensures SignerIsTruthful(outside, w')
  {
  }

  lemma KnowledgeStays(outside: Outside, w: Sys, w': Sys)
    requires WalletKnowsOnlyRelayed(outside, w) && w'.chain == w.chain
    ensures WalletKnowsOnlyRelayed(outside, w')
  {
  }

  lemma {:induction false} PostItemsStaysRefused(journal: seq<Journal>, id: nat, b: Batch, m: nat, n: nat)
    requires m <= n <= |b.items| && PostItems(journal, id, b, m).None?
    ensures PostItems(journal, id, b, n).None?
  {
    if m < n {
      PostItemsStaysRefused(journal, id, b, m, n - 1);
    }
  }

  lemma MarksEveryItem(items: seq<Item>)
    ensures forall i :: 0 <= i < |items| ==> MarkJournaled(items)[i] == items[i].(journaled := true)
  {
  }

  /** Journaled in full and on the chain in full. */
  ghost predicate Complete(b: Batch, chain: set<Tx>) {
    AllJournaled(b) && b.payload.Some? && OnChain(b.payload.value, chain)
  }

  lemma CompleteInAnyState(b: Batch, chain: set<Tx>)
    requires Complete(b, chain)
    ensures Complete(b.(state := Failed), chain)
  {
  }

  lemma ReturnEffect(s: Sys)
    requires s.phase.Committed?
    ensures Next(s, Return) == s.(phase := Idle)
  {
  }

  lemma BroadcastIsComplete(s: Sys, id: nat)
    requires Inv(s) && id < |s.batches| && s.batches[id].state == Broadcast
    ensures Complete(s.batches[id], s.chain)
  {
    hide PhaseOk, TicketsOk, Books, References, Covered, AllocationsOk, ChainOk, AutoOk, Linked, OneActive, SignedWell,
      WellOwned;
    assert BatchOk(s.batches[id], s.chain);
  }

  datatype Sighting = Sighting(address: string, receipt: Deposits.Receipt)

  ghost predicate Attributable(upstreams: seq<Deposits.Upstream>, address: string) {
    exists u :: u in upstreams && u.address == Some(address)
  }

  ghost predicate Sighted(receipts: seq<Sighting>, key: DepositKey) {
    exists i :: 0 <= i < |receipts| && receipts[i].receipt.key == key
  }

  /** Some receipt has this key and amount, and was paid to an address that the row's upstream speaks for. */
  ghost predicate SightedAt(receipts: seq<Sighting>, upstreams: seq<Deposits.Upstream>, key: DepositKey,
                            d: Deposits.Deposit) {
    exists i, u ::
      && 0 <= i < |receipts| && receipts[i].receipt.key == key && receipts[i].receipt.amount == d.amount
      && Deposits.Owns(upstreams, receipts[i].address, u) && u.id == d.upstream
  }

  /** The row keeps its amount and upstream; a new one has those of the receipt. */
  ghost predicate SameOrigin(before: map<DepositKey, Deposits.Deposit>, after: map<DepositKey, Deposits.Deposit>,
                             receipt: Deposits.Receipt, upstream: nat)
    requires receipt.key in after
  {
    var d := after[receipt.key];
    if receipt.key in before then d.amount == before[receipt.key].amount && d.upstream == before[receipt.key].upstream
    else d.amount == receipt.amount && d.upstream == upstream
  }

  /** Why these groups cannot share a deposit of this amount, if they cannot. */
  function Fault(amount: int, grouped: seq<Deposits.Group>, policies: map<nat, int>): Option<Deposits.ItemError> {
    Deposits.DivisionFault(amount, Deposits.WithWork(grouped), policies)
  }

  /** Some group has work, and the policies of those that have are present and in range. */
  ghost predicate Divisible(grouped: seq<Deposits.Group>, policies: map<nat, int>) {
    var groups := Deposits.WithWork(grouped);
    |groups| > 0 && forall i :: 0 <= i < |groups| ==> Deposits.ValidPolicy(policies, groups[i].policy)
  }

  lemma FaultIsIndivisible(amount: int, grouped: seq<Deposits.Group>, policies: map<nat, int>)
    requires amount > 0
    ensures Fault(amount, grouped, policies).None? <==> Divisible(grouped, policies)
  {
    Deposits.FaultlessPolicies(Deposits.WithWork(grouped), policies);
  }

  lemma DepositIsPositive(s: Sys, key: DepositKey)
    requires Inv(s) && key in s.deposits
    ensures s.deposits[key].amount > 0
  {
    hide Rows, PhaseOk, TicketsOk, Books, References, Covered, ChainOk, AutoOk, Linked, OneActive;
    PositiveAmount(s, key);
  }

  /** The journal with both transactions of an allocation. */
  function Credited(journal: seq<Journal>, a: Allocation): seq<Journal> {
    journal + [Journal(DepositOf(a.deposit), Deposits.DepositEntries(a.total))]
    + [Journal(AllocationOf(a.deposit), Deposits.AllocationEntries(a.total, a.items))]
  }

  /** The status of a row once a receipt is observed: an allocated deposit is flagged when it is locked again,
      and otherwise stays allocated; any other follows the receipt. */
  function StatusAfter(deposits: map<DepositKey, Deposits.Deposit>, receipt: Deposits.Receipt): Deposits.Status {
    if receipt.key in deposits && deposits[receipt.key].status == Deposits.Shared then
      if receipt.locked then Deposits.Reorged else Deposits.Shared
    else if receipt.locked then Deposits.Observed
    else Deposits.Confirmed
  }

  ghost predicate NewlyAllocated(before: seq<Allocation>, after: seq<Allocation>, key: DepositKey) {
    |after| == |before| + 1 && after[..|before|] == before && after[|before|].deposit == key
  }

  /** Receipt i is unlocked and its work can be divided. */
  ghost predicate Offered(receipts: seq<Sighting>, work: nat -> seq<Deposits.Group>, policies: map<nat, int>, i: nat)
    requires i < |receipts|
  {
    !receipts[i].receipt.locked && Divisible(work(i), policies)
  }

  lemma OfferedIsDivisible(receipts: seq<Sighting>, work: nat -> seq<Deposits.Group>, policies: map<nat, int>, i: nat)
    requires i < |receipts|
    ensures Offered(receipts, work, policies, i) <==> !receipts[i].receipt.locked && Divisible(work(i), policies)
  {
  }

  /** Rows keep their amounts and upstreams, new ones have those of a receipt, and rows without a receipt stay. */
  ghost predicate RowsKept(before: map<DepositKey, Deposits.Deposit>, after: map<DepositKey, Deposits.Deposit>,
                           receipts: seq<Sighting>, upstreams: seq<Deposits.Upstream>) {
    && (forall k :: k in before ==>
          k in after && after[k].amount == before[k].amount && after[k].upstream == before[k].upstream)
    && (forall k :: k in before && !Sighted(receipts, k) ==> after[k] == before[k])
    && (forall k :: k in after && k !in before ==> SightedAt(receipts, upstreams, k, after[k]))
  }

  /** Allocations stay, and new ones are for deposits with a receipt. */
  ghost predicate AllocationsKept(before: seq<Allocation>, after: seq<Allocation>, receipts: seq<Sighting>) {
    before <= after && forall i :: |before| <= i < |after| ==> Sighted(receipts, after[i].deposit)
  }

  lemma NothingScanned(deposits: map<DepositKey, Deposits.Deposit>, allocations: seq<Allocation>,
                       receipts: seq<Sighting>, upstreams: seq<Deposits.Upstream>)
    ensures RowsKept(deposits, deposits, receipts, upstreams) && AllocationsKept(allocations, allocations, receipts)
  {
  }

  lemma OneMoreReceipt(start: map<DepositKey, Deposits.Deposit>, before: map<DepositKey, Deposits.Deposit>,
                       after: map<DepositKey, Deposits.Deposit>, receipts: seq<Sighting>,
                       upstreams: seq<Deposits.Upstream>, u: Deposits.Upstream, i: nat)
    requires i < |receipts| && RowsKept(start, before, receipts, upstreams)
    requires Deposits.Owns(upstreams, receipts[i].address, u)
    requires var r := receipts[i].receipt;
             && after.Keys == before.Keys + {r.key} && (forall k :: k in before && k != r.key ==> after[k] == before[k])
             && SameOrigin(before, after, r, u.id)
    ensures RowsKept(start, after, receipts, upstreams)
  {
    var r := receipts[i].receipt;
    assert Sighted(receipts, r.key);
    hide Deposits.Owns, Sighted, SightedAt;
    forall k | k in after && k !in start ensures SightedAt(receipts, upstreams, k, after[k]) {
      if k in before {
        SameSighting(receipts, upstreams, k, before[k], after[k]);
      } else {
        NewSighting(receipts, upstreams, u, i, after[k]);
      }
    }
  }

  lemma NewSighting(receipts: seq<Sighting>, upstreams: seq<Deposits.Upstream>, u: Deposits.Upstream, i: nat,
                    d: Deposits.Deposit)
    requires i < |receipts| && Deposits.Owns(upstreams, receipts[i].address, u)
    requires d.amount == receipts[i].receipt.amount && d.upstream == u.id
    ensures SightedAt(receipts, upstreams, receipts[i].receipt.key, d)
  {
    hide Deposits.Owns;
  }

  lemma SameSighting(receipts: seq<Sighting>, upstreams: seq<Deposits.Upstream>, key: DepositKey, d: Deposits.Deposit,
                     d': Deposits.Deposit)
    requires SightedAt(receipts, upstreams, key, d) && d'.amount == d.amount && d'.upstream == d.upstream
    ensures SightedAt(receipts, upstreams, key, d')
  {
  }

  lemma MoreAllocations(start: seq<Allocation>, before: seq<Allocation>, after: seq<Allocation>,
                        receipts: seq<Sighting>, i: nat)
    requires i < |receipts| && AllocationsKept(start, before, receipts)
    requires after == before || NewlyAllocated(before, after, receipts[i].receipt.key)
    ensures AllocationsKept(start, after, receipts)
    ensures forall k :: HasAllocation(before, k) ==> HasAllocation(after, k)
  {
    assert Sighted(receipts, receipts[i].receipt.key);
    forall k | HasAllocation(before, k) ensures HasAllocation(after, k) {
      var j :| 0 <= j < |before| && before[j].deposit == k;
      assert after[j] == before[j];
    }
  }

  lemma SharedHasAllocation(s: Sys, key: DepositKey)
    requires Inv(s) && key in s.deposits && s.deposits[key].status == Deposits.Shared
    ensures HasAllocation(s.allocations, key)
  {
    hide Rows, PhaseOk, TicketsOk, Books, References, Covered, ChainOk, AutoOk, Linked, OneActive, HasAllocation;
  }

  lemma NewAllocationIsThere(allocations: seq<Allocation>, key: DepositKey)
    requires |allocations| > 0 && allocations[|allocations| - 1].deposit == key
    ensures HasAllocation(allocations, key)
  {
  }

  lemma AllocationGoesThrough(s: Sys, key: DepositKey, groups: seq<Deposits.Group>, policies: map<nat, int>,
                              items: seq<Deposits.Item>)
    requires Inv(s) && key in s.deposits && s.deposits[key].status == Deposits.Confirmed
    requires !HasAllocation(s.allocations, key)
    requires Deposits.Itemised(s.deposits[key].amount, groups, policies, items)
    ensures s.deposits[key].amount > 0
    ensures Sum(Deposits.CustomerParts(items)) + Sum(Deposits.OperatorParts(items)) == s.deposits[key].amount
    ensures Deposits.PostAllocation(s.journal, key, s.deposits[key].amount, items).Some?
    ensures Post(s.journal, DepositOf(key), Deposits.DepositEntries(s.deposits[key].amount)).Ok?
    ensures Deposits.PostAllocation(s.journal, key, s.deposits[key].amount, items).value ==
      s.journal + [Journal(DepositOf(key), Deposits.DepositEntries(s.deposits[key].amount))]
      + [Journal(AllocationOf(key), Deposits.AllocationEntries(s.deposits[key].amount, items))]
    ensures Post(s.journal + [Journal(DepositOf(key), Deposits.DepositEntries(s.deposits[key].amount))],
      AllocationOf(key), Deposits.AllocationEntries(s.deposits[key].amount, items)).Ok?
  {
    hide Rows, PhaseOk, TicketsOk, Books, Covered, ChainOk, AutoOk, Linked, OneActive, Deposits.Itemised, Referenced,
      Total, Deposits.AllocationEntries, Deposits.DepositEntries, Post;
    var total := s.deposits[key].amount;
    assert AllocationsOk(s) && References(s);
    Deposits.ItemisedConserves(total, groups, policies, items);
    assert Referenced(DepositOf(key), s.journal) ==> ReferenceOk(s, DepositOf(key));
    assert Referenced(AllocationOf(key), s.journal) ==> ReferenceOk(s, AllocationOf(key));
    Deposits.PostAllocationSucceeds(s.journal, key, total, items);
  }

  predicate Settles(b: Batch, confirmations: string -> int, required: int) {
    && b.state == Broadcast && |b.txids| > 0
    && forall k :: 0 <= k < |b.txids| ==> confirmations(b.txids[k]) >= required
  }

  lemma AutoIsWithin(limit: int, used: int, amount: int)
    ensures AutoApprovable(limit, used, amount) <==> limit > 0 && amount <= limit && used + amount <= limit
  {
  }

  lemma NewBatchIsNew(kind: Kind, items: seq<Item>, feePayer: Option<FeePayer>, maxFeeBps: Option<int>, auto: bool,
                      day: int, limit: int)
    ensures var b := NewBatch(kind, items, feePayer, maxFeeBps, auto, day, limit);
            NewRow(b, kind, feePayer, maxFeeBps, auto) && b.items == items && b.day == day && b.limit == limit
  {
  }

  function Everyone(n: nat): (r: seq<nat>)
    ensures |r| == n && forall i :: 0 <= i < n ==> r[i] == i
  {
    seq(n, i => i)
  }

  lemma ConfirmEffect(s: Sys, id: nat)
    requires id < |s.batches| && s.batches[id].state == Broadcast && |s.batches[id].txids| > 0
    ensures Next(Next(s, ConfirmRead(id)), ConfirmWrite(id)) ==
      s.(confirmed := s.confirmed + {id} - {id}, batches := s.batches[id := s.batches[id].(state := Confirmed)])
  {
  }

  lemma ApproveEffect(s: Sys, id: nat, admin: nat, next: State)
    requires id < |s.batches| && s.batches[id].state in {ApprovalRequired, Failed}
    requires next == if s.batches[id].state == Failed && s.batches[id].payload.Some? then Signed else AutoApproved
    ensures Next(Next(s, ApproveRead(id, admin)), ApproveWrite(Ticket(id, next, admin))) ==
      s.(tickets := s.tickets + {Ticket(id, next, admin)} - {Ticket(id, next, admin)},
         batches := s.batches[id := s.batches[id].(state := next, approver := Some(admin))])
  {
  }

  lemma OneActiveHolds(s: Sys)
    requires Inv(s)
    ensures OneActive(s.destinations)
  {
    hide Rows, PhaseOk, TicketsOk, Books, References, Covered, AllocationsOk, ChainOk, AutoOk, Linked, OneActive;
  }

  predicate IsDue(dests: seq<Destination>, due: set<nat>, i: nat)
    requires i < |dests|
  {
    dests[i].status == Pending' && i in due
  }

  ghost predicate HasDue(dests: seq<Destination>, due: set<nat>, k: nat, customer: nat)
    requires k <= |dests|
  {
    exists j :: 0 <= j < k && IsDue(dests, due, j) && dests[j].customer == customer
  }

  ghost predicate LastDue(dests: seq<Destination>, due: set<nat>, k: nat, i: nat)
    requires i < |dests| && k <= |dests|
  {
    && i < k && IsDue(dests, due, i)
    && forall j :: i < j < k && IsDue(dests, due, j) ==> dests[j].customer != dests[i].customer
  }

  /** Row i once the due rows below k have been activated. */
  ghost function Settled(dests: seq<Destination>, due: set<nat>, k: nat, i: nat): Destination
    requires i < |dests| && k <= |dests|
  {
    var d := dests[i];
    if LastDue(dests, due, k, i) then d.(status := Active)
    else if i < k && IsDue(dests, due, i) then d.(status := Revoked)
    else if d.status == Active && HasDue(dests, due, k, d.customer) then d.(status := Revoked)
    else d
  }

  lemma ActivatedRow(dests: seq<Destination>, due: set<nat>, k: nat, i: nat)
    requires i < |dests| && k < |dests| && IsDue(dests, due, k)
    ensures Settled(dests, due, k + 1, i) ==
      var was := Settled(dests, due, k, i);
      if i == k then was.(status := Active)
      else if was.customer == dests[k].customer && was.status == Active then was.(status := Revoked)
      else was
  {
    if HasDue(dests, due, k, dests[i].customer) {
      assert HasDue(dests, due, k + 1, dests[i].customer);
    }
  }

  lemma SkippedRow(dests: seq<Destination>, due: set<nat>, k: nat, i: nat)
    requires i < |dests| && k < |dests| && !IsDue(dests, due, k)
    ensures Settled(dests, due, k + 1, i) == Settled(dests, due, k, i)
  {
    if HasDue(dests, due, k, dests[i].customer) {
      assert HasDue(dests, due, k + 1, dests[i].customer);
    }
  }
}
