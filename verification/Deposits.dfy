/** Deposits: attribution of receipts to pool accounts, the deposit status machine
    (apps/server/src/wallets/deposits.service.ts) and the division of a confirmed deposit
    (`allocateDeposit` in apps/server/src/ledger/ledger.service.ts). */
module Deposits {
  import opened Common
  import opened Ledger
  import opened Apportionment

  // ---------------------------------------------------------------- attribution

  datatype Upstream = Upstream(id: nat, address: Option<string>, accountKey: string, priority: int)

  /** `u` speaks for the address: same pool account as, and no lower rank than, all its rivals. */
  ghost predicate Owns(upstreams: seq<Upstream>, address: string, u: Upstream) {
    && u in upstreams && u.address == Some(address)
    && forall v :: v in upstreams && v.address == Some(address) ==>
         v.accountKey == u.accountKey && u.priority <= v.priority
  }

  /** Two different pool accounts share a receive address. */
  ghost predicate Ambiguous(upstreams: seq<Upstream>) {
    exists u, v ::
      u in upstreams && v in upstreams && u.address.Some? && u.address == v.address && u.accountKey != v.accountKey
  }

  /** The `byAddress` map: refused exactly when some address is ambiguous. */
  method ByAddress(upstreams: seq<Upstream>) returns (r: Option<map<string, Upstream>>)
    ensures r.None? <==> Ambiguous(upstreams)
    ensures r.Some? ==> forall a :: a in r.value ==> Owns(upstreams, a, r.value[a])
    ensures r.Some? ==> forall u :: u in upstreams && u.address.Some? ==> u.address.value in r.value
  {
    var byAddress: map<string, Upstream> := map[];
    for n := 0 to |upstreams|
      invariant Attributed(upstreams[..n], byAddress)
    {
      var u := upstreams[n];
      assert upstreams[..n + 1] == upstreams[..n] + [u];
      if u.address.Some? {
        var address := u.address.value;
        if address in byAddress && byAddress[address].accountKey != u.accountKey {
          assert byAddress[address] in upstreams;
          return None;
        }
        if address !in byAddress || u.priority < byAddress[address].priority {
          byAddress := byAddress[address := u];
        }
      }
    }
    assert upstreams[..|upstreams|] == upstreams;
    AttributedIsUnambiguous(upstreams, byAddress);
    return Some(byAddress);
  }

  ghost predicate Attributed(upstreams: seq<Upstream>, byAddress: map<string, Upstream>) {
    && (forall a :: a in byAddress ==> Owns(upstreams, a, byAddress[a]))
    && (forall u :: u in upstreams && u.address.Some? ==> u.address.value in byAddress)
  }

  lemma AttributedIsUnambiguous(upstreams: seq<Upstream>, byAddress: map<string, Upstream>)
    requires Attributed(upstreams, byAddress)
    ensures !Ambiguous(upstreams)
  {
    forall u, v | u in upstreams && v in upstreams && u.address.Some? && u.address == v.address
      ensures u.accountKey == v.accountKey
    {
      assert Owns(upstreams, u.address.value, byAddress[u.address.value]);
    }
  }

  // ---------------------------------------------------------------- status machine

  datatype Status = Observed | Confirmed | Shared | Reorged

  datatype Deposit = Deposit(amount: int, upstream: nat, status: Status)

  datatype Receipt = Receipt(key: DepositKey, amount: int, locked: bool)

  /** One receipt of `scanAsset`. `seen` is the status read before the write; it may be stale. */
  function Observe(deposits: map<DepositKey, Deposit>, receipt: Receipt, upstream: nat,
                   seen: Option<Status>): (r: map<DepositKey, Deposit>)
    ensures forall k :: k in deposits ==>
      k in r && r[k].amount == deposits[k].amount && r[k].upstream == deposits[k].upstream
    ensures forall k :: k in r && k !in deposits ==>
      k == receipt.key && r[k].amount == receipt.amount && r[k].upstream == upstream
  {
    var status := if receipt.locked then Observed else Confirmed;
    if seen == Some(Shared) && receipt.locked then
      if receipt.key in deposits then deposits[receipt.key := deposits[receipt.key].(status := Reorged)] else deposits
    else if receipt.key in deposits then
      deposits[receipt.key := deposits[receipt.key].(status := if seen == Some(Shared) then Shared else status)]
    else
      deposits[receipt.key := Deposit(receipt.amount, upstream, status)]
  }

  // ---------------------------------------------------------------- division of a deposit

  /** Accepted work of one customer under one split policy. */
  datatype Group = Group(customer: nat, policy: nat, work: real)

  datatype Item = Item(customer: nat, policy: nat, work: real, gross: int, customerAtomic: int, operatorAtomic: int)

  function Works(groups: seq<Group>): (w: seq<real>)
    ensures |w| == |groups|
  {
    seq(|groups|, i requires 0 <= i < |groups| => groups[i].work)
  }

  function GrossOf(items: seq<Item>): (g: seq<int>)
    ensures |g| == |items|
  {
    seq(|items|, i requires 0 <= i < |items| => items[i].gross)
  }

  function CustomerParts(items: seq<Item>): (g: seq<int>)
    ensures |g| == |items|
  {
    seq(|items|, i requires 0 <= i < |items| => items[i].customerAtomic)
  }

  function OperatorParts(items: seq<Item>): (g: seq<int>)
    ensures |g| == |items|
  {
    seq(|items|, i requires 0 <= i < |items| => items[i].operatorAtomic)
  }

  /** The items of an allocation batch: largest remainder over the work, then the policy's split. */
  ghost predicate Itemised(total: int, groups: seq<Group>, policies: map<nat, int>, items: seq<Item>) {
    && |items| == |groups| > 0
    && (forall i :: 0 <= i < |groups| ==> groups[i].work > 0.0)
    && SumReal(Works(groups)) > 0.0
    && IsLargestRemainder(total, Quotas(total, Works(groups)), GrossOf(items))
    && (forall i :: 0 <= i < |groups| ==>
          && items[i].customer == groups[i].customer && items[i].policy == groups[i].policy
          && items[i].work == groups[i].work && groups[i].policy in policies
          && SplitBasisPoints(items[i].gross, policies[groups[i].policy])
               == Some(Split(items[i].customerAtomic, items[i].operatorAtomic)))
  }

  predicate ValidPolicy(policies: map<nat, int>, policy: nat) {
    policy in policies && 0 <= policies[policy] <= 10000
  }

  datatype ItemError = NoWork | MissingPolicy(policy: nat) | BadSplit | Unshared(why: AllocationError)

  /** The first policy that is missing or out of range, in the order of the groups. */
  function PolicyFault(groups: seq<Group>, policies: map<nat, int>): Option<ItemError> {
    if |groups| == 0 then None
    else
      match PolicyFault(groups[..|groups| - 1], policies)
      case Some(e) => Some(e)
      case None =>
        var policy := groups[|groups| - 1].policy;
        if policy !in policies then Some(MissingPolicy(policy))
        else if !ValidPolicy(policies, policy) then Some(BadSplit)
        else None
  }

  /** Why a deposit cannot be divided over these groups, if it cannot. */
  function DivisionFault(total: int, groups: seq<Group>, policies: map<nat, int>): Option<ItemError> {
    if |groups| == 0 then Some(NoWork)
    else if total < 0 then Some(Unshared(NegativeTotal))
    else PolicyFault(groups, policies)
  }

  /** The division itself, from the grouped work to the items. */
  method Itemise(total: int, grouped: seq<Group>, policies: map<nat, int>)
    returns (r: Result<seq<Item>, ItemError>, groups: seq<Group>)
    ensures groups == WithWork(grouped)
    ensures r.Ok? ==> Itemised(total, groups, policies, r.value)
    ensures DivisionFault(total, groups, policies) == if r.Ok? then None else Some(r.error)
  {
    hide IsLargestRemainder, Quotas, WithWork, PolicyFault;
    groups := DropIdle(grouped);
    WithWorkIsPositive(grouped);
    if |groups| == 0 {
      return Err(NoWork), groups;
    }
    PositiveWorks(Works(groups));
    var weighted := seq(|groups|, i requires 0 <= i < |groups| => Weighted(groups[i], groups[i].work));
    assert Weights(weighted) == Works(groups);
    var shared := LargestRemainder(total, weighted);
    if shared.Err? {
      return Err(Unshared(shared.error)), groups;
    }
    var amounts := AmountsOf(shared.value);
    r := SplitAll(groups, amounts, policies);
    if r.Ok? {
      assert GrossOf(r.value) == amounts;
    }
  }

  method DropIdle(grouped: seq<Group>) returns (groups: seq<Group>)
    ensures groups == WithWork(grouped)
  {
    groups := [];
    for i := 0 to |grouped|
      invariant groups == WithWork(grouped[..i])
    {
      assert grouped[..i + 1][..i] == grouped[..i];
      if grouped[i].work > 0.0 {
        groups := groups + [grouped[i]];
      }
    }
    assert grouped[..|grouped|] == grouped;
  }

  /** An item carries its group, and its gross split by the group's policy. */
  ghost predicate SplitItem(item: Item, g: Group, policies: map<nat, int>) {
    && item.customer == g.customer && item.policy == g.policy && item.work == g.work && g.policy in policies
    && SplitBasisPoints(item.gross, policies[g.policy]) == Some(Split(item.customerAtomic, item.operatorAtomic))
  }

  method SplitAll(groups: seq<Group>, amounts: seq<int>, policies: map<nat,
                  int>) returns (r: Result<seq<Item>, ItemError>)
    requires |groups| == |amounts|
    ensures PolicyFault(groups, policies) == if r.Ok? then None else Some(r.error)
    ensures r.Ok? ==> |r.value| == |groups|
    ensures r.Ok? ==> forall k :: 0 <= k < |groups| ==>
      r.value[k].gross == amounts[k] && SplitItem(r.value[k], groups[k], policies)
  {
    hide PolicyFault;
    var items: seq<Item> := [];
    NoFaultYet(policies);
    for i := 0 to |groups|
      invariant |items| == i && PolicyFault(groups[..i], policies).None?
      invariant forall k :: 0 <= k < i ==> items[k].gross == amounts[k] && SplitItem(items[k], groups[k], policies)
    {
      var key, amount := groups[i], amounts[i];
      NextFault(groups, policies, i);
      if key.policy !in policies {
        FaultStays(groups, policies, i + 1);
        return Err(MissingPolicy(key.policy));
      }
      var split := SplitBasisPoints(amount, policies[key.policy]);
      if split.None? {
        FaultStays(groups, policies, i + 1);
        return Err(BadSplit);
      }
      items := items + [Item(key.customer, key.policy, key.work, amount, split.value.customer, split.value.operator)];
    }
    assert groups[..|groups|] == groups;
    return Ok(items);
  }

  lemma NoFaultYet(policies: map<nat, int>)
    ensures PolicyFault([], policies).None?
  {
  }

  lemma NextFault(groups: seq<Group>, policies: map<nat, int>, i: nat)
    requires i < |groups| && PolicyFault(groups[..i], policies).None?
    ensures var policy := groups[i].policy;
            PolicyFault(groups[..i + 1], policies) ==
            if policy !in policies then Some(MissingPolicy(policy))
            else if !ValidPolicy(policies, policy) then Some(BadSplit)
            else None
  {
    assert groups[..i + 1][..i] == groups[..i];
  }

  lemma {:induction false} FaultStays(groups: seq<Group>, policies: map<nat, int>, i: nat)
    requires i <= |groups| && PolicyFault(groups[..i], policies).Some?
    ensures PolicyFault(groups, policies) == PolicyFault(groups[..i], policies)
  {
    if i == |groups| {
      assert groups[..i] == groups;
    } else {
      var n := |groups| - 1;
      assert groups[..n][..i] == groups[..i];
      FaultStays(groups[..n], policies, i);
    }
  }

  /** There is no fault exactly when every policy is present and in range. */
  lemma {:induction false} FaultlessPolicies(groups: seq<Group>, policies: map<nat, int>)
    ensures PolicyFault(groups, policies).None? <==> forall i :: 0 <= i < |groups| ==>
      ValidPolicy(policies, groups[i].policy)
  {
    if |groups| > 0 {
      var n := |groups| - 1;
      FaultlessPolicies(groups[..n], policies);
      assert forall i :: 0 <= i < n ==> groups[..n][i] == groups[i];
    }
  }

  /** The `filter` that drops groups without work. */
  function WithWork(groups: seq<Group>): seq<Group> {
    if |groups| == 0 then []
    else
      var g := groups[|groups| - 1];
      WithWork(groups[..|groups| - 1]) + (if g.work > 0.0 then [g] else [])
  }

  lemma {:induction false} WithWorkIsPositive(groups: seq<Group>)
    ensures forall i :: 0 <= i < |WithWork(groups)| ==> WithWork(groups)[i].work > 0.0
  {
    if |groups| > 0 {
      WithWorkIsPositive(groups[..|groups| - 1]);
    }
  }

  lemma {:induction false} PositiveWorks(w: seq<real>)
    requires forall i :: 0 <= i < |w| ==> w[i] > 0.0
    ensures |w| > 0 ==> SumReal(w) > 0.0
  {
    if |w| > 0 {
      PositiveWorks(w[..|w| - 1]);
    }
  }

  /** The division is a function of the work groups. */
  lemma ItemisedIsUnique(total: int, groups: seq<Group>, policies: map<nat, int>, a: seq<Item>, b: seq<Item>)
    requires Itemised(total, groups, policies, a) && Itemised(total, groups, policies, b)
    ensures a == b
  {
    hide IsLargestRemainder, Quotas;
    LargestRemainderIsUnique(total, Quotas(total, Works(groups)), GrossOf(a), GrossOf(b));
    forall i | 0 <= i < |a| ensures a[i] == b[i] {
      assert GrossOf(a)[i] == GrossOf(b)[i];
    }
  }

  /** Conservation: the parts add up to the deposit, so the "Allocation invariant failed" guard is
      dead, and nobody is credited a negative amount. */
  lemma ItemisedConserves(total: int, groups: seq<Group>, policies: map<nat, int>, items: seq<Item>)
    requires total >= 0 && Itemised(total, groups, policies, items)
    ensures Sum(CustomerParts(items)) + Sum(OperatorParts(items)) == total
    ensures forall i :: 0 <= i < |items| ==> items[i].customerAtomic >= 0 && items[i].operatorAtomic >= 0
  {
    SumZip(CustomerParts(items), OperatorParts(items), GrossOf(items));
    NonNegativeAmounts(total, Works(groups), GrossOf(items));
    forall i | 0 <= i < |items| ensures items[i].customerAtomic >= 0 && items[i].operatorAtomic >= 0 {
      assert GrossOf(items)[i] >= 0;
    }
  }

  // ---------------------------------------------------------------- postings of an allocation

  datatype Due = Due(customer: nat, amount: int)

  predicate Listed(totals: seq<Due>, customer: nat) {
    exists i :: 0 <= i < |totals| && totals[i].customer == customer
  }

  /** `customerTotals.set(id, (get(id) ?? 0) + amount)`: a new customer goes to the end, a known one keeps
      its place. */
  function Accumulate(totals: seq<Due>, customer: nat, amount: int): seq<Due> {
    if Listed(totals, customer) then Raised(totals, customer, amount) else totals + [Due(customer, amount)]
  }

  function Raised(totals: seq<Due>, customer: nat, amount: int): (r: seq<Due>)
    ensures |r| == |totals| && forall i :: 0 <= i < |r| ==> r[i].customer == totals[i].customer
  {
    if |totals| == 0 then []
    else
      var n := |totals| - 1;
      if totals[n].customer == customer then totals[..n] + [Due(customer, totals[n].amount + amount)]
      else Raised(totals[..n], customer, amount) + [totals[n]]
  }

  function CustomerTotals(items: seq<Item>): seq<Due> {
    if |items| == 0 then []
    else
      var item := items[|items| - 1];
      Accumulate(CustomerTotals(items[..|items| - 1]), item.customer, item.customerAtomic)
  }

  function LiabilityEntries(totals: seq<Due>): seq<Entry> {
    if |totals| == 0 then []
    else
      var due := totals[|totals| - 1];
      LiabilityEntries(totals[..|totals| - 1]) +
        (if due.amount <= 0 then [] else [Entry(Liability(due.customer), Credit, due.amount)])
  }

  function DepositEntries(total: int): seq<Entry> {
    [Entry(Treasury, Debit, total), Entry(Clearing, Credit, total)]
  }

  function AllocationEntries(total: int, items: seq<Item>): seq<Entry> {
    var operatorTotal := Sum(OperatorParts(items));
    [Entry(Clearing, Debit, total)] + LiabilityEntries(CustomerTotals(items))
    + (if operatorTotal > 0 then [Entry(Revenue, Credit, operatorTotal)] else [])
  }

  /** Both journal transactions of an allocation; `None` when either is refused. */
  function PostAllocation(journal: seq<Journal>, key: DepositKey, total: int, items: seq<Item>): Option<seq<Journal>> {
    match Post(journal, DepositOf(key), DepositEntries(total))
    case Err(_) => None
    case Ok(j) =>
      match Post(j, AllocationOf(key), AllocationEntries(total, items))
      case Err(_) => None
      case Ok(k) => Some(k)
  }

  /** The loops that build the liability entries. */
  method BuildLiabilities(items: seq<Item>) returns (entries: seq<Entry>)
    ensures entries == LiabilityEntries(CustomerTotals(items))
  {
    var totals: seq<Due> := [];
    for i := 0 to |items|
      invariant totals == CustomerTotals(items[..i])
    {
      assert items[..i + 1][..i] == items[..i];
      totals := Accumulate(totals, items[i].customer, items[i].customerAtomic);
    }
    assert items[..|items|] == items;
    entries := [];
    for i := 0 to |totals|
      invariant entries == LiabilityEntries(totals[..i])
    {
      assert totals[..i + 1][..i] == totals[..i];
      if totals[i].amount > 0 {
        entries := entries + [Entry(Liability(totals[i].customer), Credit, totals[i].amount)];
      }
    }
    assert totals[..|totals|] == totals;
  }

  /** The customers of the items, each at its first appearance. */
  function FirstSeen(items: seq<Item>): seq<nat> {
    if |items| == 0 then []
    else
      var earlier, c := FirstSeen(items[..|items| - 1]), items[|items| - 1].customer;
      if c in earlier then earlier else earlier + [c]
  }

  /** What the items of one customer add up to. */
  function CustomerSum(items: seq<Item>, customer: nat): int {
    if |items| == 0 then 0
    else
      var item := items[|items| - 1];
      CustomerSum(items[..|items| - 1], customer) + (if item.customer == customer then item.customerAtomic else 0)
  }

  predicate Appears(items: seq<Item>, customer: nat) {
    exists i :: 0 <= i < |items| && items[i].customer == customer
  }

  lemma AppearsInLonger(items: seq<Item>, customer: nat)
    requires |items| > 0
    ensures var n := |items| - 1;
            Appears(items, customer) <==> Appears(items[..n], customer) || items[n].customer == customer
  {
    var n := |items| - 1;
    if i :| 0 <= i < n && items[..n][i].customer == customer {
      assert items[i].customer == customer;
    }
    if i :| 0 <= i < |items| && items[i].customer == customer {
      assert i < n ==> items[..n][i].customer == customer;
    }
  }

  lemma {:induction false} SeenOnce(items: seq<Item>)
    ensures var seen := FirstSeen(items);
            && (forall i, j :: 0 <= i < j < |seen| ==> seen[i] != seen[j])
            && (forall c :: c in seen <==> Appears(items, c))
  {
    if |items| > 0 {
      SeenOnce(items[..|items| - 1]);
      forall c ensures c in FirstSeen(items) <==> Appears(items, c) {
        AppearsInLonger(items, c);
      }
    }
  }

  /** One total per customer, in the order of first appearance, and each the sum of that customer's items. */
  lemma {:induction false} TotalsAreByCustomer(items: seq<Item>)
    ensures var totals, seen := CustomerTotals(items), FirstSeen(items);
            && |totals| == |seen| && (forall i, j :: 0 <= i < j < |seen| ==> seen[i] != seen[j])
            && (forall c :: c in seen <==> Appears(items, c))
            && (forall i :: 0 <= i < |totals| ==> totals[i] == Due(seen[i], CustomerSum(items, seen[i])))
  {
    hide Appears;
    SeenOnce(items);
    if |items| > 0 {
      var n := |items| - 1;
      var before, item := items[..n], items[n];
      TotalsAreByCustomer(before);
      var totals, seen := CustomerTotals(before), FirstSeen(before);
      ListedIsSeen(totals, seen, item.customer);
      if Listed(totals, item.customer) {
        RaisedAt(totals, item.customer, item.customerAtomic);
      } else {
        NotSeen(before, item.customer);
      }
    }
  }

  lemma ListedIsSeen(totals: seq<Due>, seen: seq<nat>, customer: nat)
    requires |totals| == |seen| && forall i :: 0 <= i < |totals| ==> totals[i].customer == seen[i]
    ensures Listed(totals, customer) <==> customer in seen
  {
    if customer in seen {
      var i :| 0 <= i < |seen| && seen[i] == customer;
      assert totals[i].customer == customer;
    }
  }

  lemma NotSeen(items: seq<Item>, customer: nat)
    requires !Appears(items, customer)
    ensures CustomerSum(items, customer) == 0
  {
    Unseen(items, customer);
  }

  lemma {:induction false} Unseen(items: seq<Item>, customer: nat)
    requires forall i :: 0 <= i < |items| ==> items[i].customer != customer
    ensures CustomerSum(items, customer) == 0
  {
    if |items| > 0 {
      Unseen(items[..|items| - 1], customer);
    }
  }

  lemma {:induction false} RaisedAt(totals: seq<Due>, customer: nat, amount: int)
    requires forall i, j :: 0 <= i < j < |totals| ==> totals[i].customer != totals[j].customer
    ensures forall i :: 0 <= i < |totals| ==>
      Raised(totals, customer, amount)[i].amount ==
        totals[i].amount + (if totals[i].customer == customer then amount else 0)
  {
    if |totals| > 0 {
      RaisedAt(totals[..|totals| - 1], customer, amount);
    }
  }

  /** The customers' part of an allocation that falls on a group of accounts. */
  function ItemCredit(side: Side, items: seq<Item>): int {
    if |items| == 0 then 0
    else
      var item := items[|items| - 1];
      ItemCredit(side, items[..|items| - 1]) +
        (if Touches(side, Liability(item.customer)) then item.customerAtomic else 0)
  }

  function DueCredit(side: Side, totals: seq<Due>): int {
    if |totals| == 0 then 0
    else
      var due := totals[|totals| - 1];
      DueCredit(side, totals[..|totals| - 1]) + (if Touches(side, Liability(due.customer)) then due.amount else 0)
  }

  ghost predicate NonNegativeDues(totals: seq<Due>) {
    forall i :: 0 <= i < |totals| ==> totals[i].amount >= 0
  }

  lemma {:induction false} RaisedCredit(side: Side, totals: seq<Due>, customer: nat, amount: int)
    requires Listed(totals, customer)
    ensures DueCredit(side, Raised(totals, customer, amount))
         == DueCredit(side, totals) + (if Touches(side, Liability(customer)) then amount else 0)
    ensures NonNegativeDues(totals) && amount >= 0 ==> NonNegativeDues(Raised(totals, customer, amount))
  {
    hide Touches;
    var n := |totals| - 1;
    var r := Raised(totals, customer, amount);
    if totals[n].customer == customer {
      assert r[..n] == totals[..n];
    } else {
      var i :| 0 <= i < |totals| && totals[i].customer == customer;
      assert totals[..n][i].customer == customer;
      RaisedCredit(side, totals[..n], customer, amount);
      assert r[..n] == Raised(totals[..n], customer, amount);
    }
  }

  lemma AccumulateCredit(side: Side, totals: seq<Due>, customer: nat, amount: int)
    ensures DueCredit(side, Accumulate(totals, customer, amount))
         == DueCredit(side, totals) + (if Touches(side, Liability(customer)) then amount else 0)
    ensures NonNegativeDues(totals) && amount >= 0 ==> NonNegativeDues(Accumulate(totals, customer, amount))
  {
    hide Touches, Raised;
    if Listed(totals, customer) {
      RaisedCredit(side, totals, customer, amount);
    } else {
      assert (totals + [Due(customer, amount)])[..|totals|] == totals;
    }
  }

  lemma {:induction false} CustomerTotalsCredit(side: Side, items: seq<Item>)
    requires forall i :: 0 <= i < |items| ==> items[i].customerAtomic >= 0
    ensures DueCredit(side, CustomerTotals(items)) == ItemCredit(side, items)
    ensures NonNegativeDues(CustomerTotals(items))
  {
    hide Accumulate, Touches;
    if |items| > 0 {
      var n := |items| - 1;
      CustomerTotalsCredit(side, items[..n]);
      AccumulateCredit(side, CustomerTotals(items[..n]), items[n].customer, items[n].customerAtomic);
    }
  }

  lemma {:induction false} LiabilityTotals(side: Side, totals: seq<Due>)
    requires NonNegativeDues(totals)
    ensures Total(side, Credit, LiabilityEntries(totals)) == DueCredit(side, totals)
    ensures Total(side, Debit, LiabilityEntries(totals)) == 0
  {
    hide Total, Touches;
    if |totals| > 0 {
      var n := |totals| - 1;
      LiabilityTotals(side, totals[..n]);
      var last := if totals[n].amount <= 0 then []
        else [Entry(Liability(totals[n].customer), Credit, totals[n].amount)];
      TotalConcat(side, Credit, LiabilityEntries(totals[..n]), last);
      TotalConcat(side, Debit, LiabilityEntries(totals[..n]), last);
      TotalNone(side);
      if totals[n].amount > 0 {
        TotalOne(side, last[0]);
      }
    } else {
      TotalNone(side);
    }
  }

  lemma TotalNone(side: Side)
    ensures forall d :: Total(side, d, []) == 0
  {
  }

  /** What an allocation does to each group of accounts, in credits less debits. */
  function AllocationEffect(side: Side, total: int, items: seq<Item>): int {
    match side
    case Everything => 0
    case One(Treasury) => -total
    case One(Revenue) => Sum(OperatorParts(items))
    case One(Liability(_)) => ItemCredit(side, items)
    case Liabilities => Sum(CustomerParts(items))
    case _ => 0
  }

  lemma {:induction false} AllCustomerCredit(side: Side, items: seq<Item>)
    requires side == Everything || side == Liabilities
    ensures ItemCredit(side, items) == Sum(CustomerParts(items))
  {
    if |items| > 0 {
      AllCustomerCredit(side, items[..|items| - 1]);
      assert CustomerParts(items)[..|items| - 1] == CustomerParts(items[..|items| - 1]);
    }
  }

  lemma {:induction false} NoCustomerCredit(side: Side, items: seq<Item>)
    requires forall c :: !Touches(side, Liability(c))
    ensures ItemCredit(side, items) == 0
  {
    if |items| > 0 {
      NoCustomerCredit(side, items[..|items| - 1]);
    }
  }

  lemma AllocationTotals(side: Side, total: int, items: seq<Item>)
    requires forall i :: 0 <= i < |items| ==> items[i].customerAtomic >= 0
    requires Sum(OperatorParts(items)) >= 0
    ensures var e := AllocationEntries(total, items);
            && Total(side, Debit, e) == (if Touches(side, Clearing) then total else 0)
            && Total(side, Credit, e) ==
              ItemCredit(side, items) + (if Touches(side, Revenue) then Sum(OperatorParts(items)) else 0)
  {
    hide Total, Touches, CustomerTotals, LiabilityEntries, ItemCredit, Sum;
    var operatorTotal := Sum(OperatorParts(items));
    var a, b := [Entry(Clearing, Debit, total)], LiabilityEntries(CustomerTotals(items));
    var c := if operatorTotal > 0 then [Entry(Revenue, Credit, operatorTotal)] else [];
    CustomerTotalsCredit(side, items);
    LiabilityTotals(side, CustomerTotals(items));
    TotalNone(side);
    TotalOne(side, a[0]);
    if operatorTotal > 0 {
      TotalOne(side, c[0]);
    }
    TotalConcat(side, Debit, a, b);
    TotalConcat(side, Credit, a, b);
    TotalConcat(side, Debit, a + b, c);
    TotalConcat(side, Credit, a + b, c);
  }

  lemma AllocationNet(side: Side, total: int, items: seq<Item>)
    requires forall i :: 0 <= i < |items| ==> items[i].customerAtomic >= 0
    requires Sum(OperatorParts(items)) >= 0
    requires Sum(CustomerParts(items)) + Sum(OperatorParts(items)) == total
    ensures Net(side, DepositEntries(total)) + Net(side, AllocationEntries(total, items)) ==
      AllocationEffect(side, total, items)
    ensures Total(Everything, Debit, AllocationEntries(total, items)) ==
      Total(Everything, Credit, AllocationEntries(total, items)) == total
    ensures Total(Everything, Debit, DepositEntries(total)) == Total(Everything, Credit, DepositEntries(total)) == total
  {
    hide Total, AllocationEntries, ItemCredit, Sum, OperatorParts, CustomerParts;
    AllocationTotals(side, total, items);
    AllocationTotals(Everything, total, items);
    AllCustomerCredit(Everything, items);
    PairTotals(side, Entry(Treasury, Debit, total), Entry(Clearing, Credit, total));
    PairTotals(Everything, Entry(Treasury, Debit, total), Entry(Clearing, Credit, total));
    if side == Liabilities {
      AllCustomerCredit(Liabilities, items);
    } else if side == Fees || (side.One? && !side.account.Liability?) {
      NoCustomerCredit(side, items);
    }
  }

  /** An allocation of a positive deposit is always accepted by the journal, once. */
  lemma PostAllocationSucceeds(journal: seq<Journal>, key: DepositKey, total: int, items: seq<Item>)
    requires total > 0
    requires forall i :: 0 <= i < |items| ==> items[i].customerAtomic >= 0 && items[i].operatorAtomic >= 0
    requires Sum(CustomerParts(items)) + Sum(OperatorParts(items)) == total
    ensures PostAllocation(journal, key, total, items).Some?
        <==> !Referenced(DepositOf(key), journal) && !Referenced(AllocationOf(key), journal)
    ensures PostAllocation(journal, key, total, items).Some? ==>
              PostAllocation(journal, key, total, items).value ==
              journal + [Journal(DepositOf(key), DepositEntries(total))] +
                [Journal(AllocationOf(key), AllocationEntries(total, items))]
  {
    hide Total, AllocationEntries, Sum, OperatorParts, CustomerParts, DepositEntries;
    NonNegativeParts(items);
    AllocationNet(Everything, total, items);
    var first := journal + [Journal(DepositOf(key), DepositEntries(total))];
    assert Referenced(AllocationOf(key), first) <==> Referenced(AllocationOf(key), journal) by {
      if Referenced(AllocationOf(key), journal) {
        var i :| 0 <= i < |journal| && journal[i].reference == AllocationOf(key);
        assert first[i].reference == AllocationOf(key);
      }
    }
  }

  lemma {:induction false} NonNegativeParts(items: seq<Item>)
    requires forall i :: 0 <= i < |items| ==> items[i].operatorAtomic >= 0
    ensures Sum(OperatorParts(items)) >= 0
  {
    if |items| > 0 {
      NonNegativeParts(items[..|items| - 1]);
      assert OperatorParts(items)[..|items| - 1] == OperatorParts(items[..|items| - 1]);
    }
  }
}
