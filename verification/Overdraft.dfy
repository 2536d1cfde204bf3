/** What a negative payout minimum does. The environment default of the minimum is not checked, and with a
    negative one a customer is paid twice; with any other nobody ever is. */
module Overdraft {
  import opened Common
  import opened Ledger
  import opened Payouts
  import opened Protocol
  import opened Safety
  import opened Guarantees
  import opened Recovery
  import opened Scenario
  import Deposits
  import WalletFees

  // ---------------------------------------------------------------- paying one planned batch

  /** Signed at no fee. */
  function SignedPlan(amount: int, limit: int, name: string): Batch {
    PlannedBatch(amount, limit).(state := Signed, payload := Some([Tx(name, amount)]), txids := [name],
      deducted := true, feeCap := 10000)
  }

  function Paid(amount: int, limit: int, name: string): Batch {
    SignedPlan(amount, limit, name).(state := Broadcast,
      items := [Fresh(Customer(0), "address", amount).(journaled := true)])
  }

  predicate Executes(steps: seq<Step>) {
    forall i :: 0 <= i < |steps| ==>
      !(steps[i].Plan? || steps[i].PlanOperator? || steps[i].AddDestination? || steps[i].Observe?)
  }

  lemma SignPlanned(s: Sys, id: nat, amount: int, limit: int, name: string) returns (steps: seq<Step>)
    requires s.phase == Idle && NoReorg(s.deposits) && id < |s.batches| && s.batches[id] == PlannedBatch(amount, limit)
    requires amount > 0
    requires Unseen(s.batches, name)
    ensures Executes(steps)
    ensures Run(s, steps) == s.(phase := Persisted(id), batches := s.batches[id := SignedPlan(amount, limit, name)])
  {
    hide Run, WalletFees.Charges, WalletTruth, Value;
    var b, txs := PlannedBatch(amount, limit), [Tx(name, amount)];
    Chargeable(s, b, amount, 0, name);
    var prepare := Prepare(CustomerPays, 0, SingleCharge(amount, 0), 0, txs);
    PreparedPhase(s, id, CustomerPays, 0, SingleCharge(amount, 0), 0, txs);
    RunOfThree(s, Crash, Load(id), prepare);
    RunLast(s, [Crash, Load(id), prepare], Sign);
    steps := [Crash, Load(id), prepare] + [Sign];
    assert ChargedItems(b.items, SingleCharge(amount, 0)) == b.items;
    assert Ids(txs) == [name];
  }

  lemma PostOne(journal: seq<Journal>, id: nat, b: Batch, amount: int)
    requires amount > 0 && b.items == [Fresh(Customer(0), "address", amount)]
    requires !Referenced(CustomerPayout(id, 0), journal)
    ensures PostItems(journal, id, b, 1).Some?
    ensures var j := PostItems(journal, id, b, 1).value;
            && OwnerBalance(Customer(0), j) == OwnerBalance(Customer(0), journal) - amount
            && forall r :: Referenced(r, j) <==> Referenced(r, journal) || r == CustomerPayout(id, 0)
  {
    hide PostItems, Balance, Referenced, PayoutEntries;
    assert b.items[0].owner == Customer(0) && ReferenceOf(id, b.items[0].owner) == CustomerPayout(id, 0);
    PostItemsSucceeds(journal, id, b, 1);
    var j := PostItems(journal, id, b, 1).value;
    var b' := b.(items := MarkJournaled(b.items));
    var side := One(Liability(0));
    PostItemsBalance(side, journal, id, b, b', 1);
    assert b.items[..1] == b.items && b'.items[..1] == b'.items && b.items[..0] == [] && b'.items[..0] == [];
    assert ItemSum(Posted(side), b, []) == 0 && ItemSum(Posted(side), b', []) == 0;
    forall r ensures Referenced(r, j) <==> Referenced(r, journal) || r == CustomerPayout(id, 0) {
      PostItemsReferences(journal, id, b, 1, r);
    }
  }

  lemma PaySigned(s: Sys, id: nat, amount: int, limit: int, name: string)
    requires NoReorg(s.deposits) && id < |s.batches| && s.batches[id] == SignedPlan(amount, limit, name) && amount > 0
    requires !Referenced(CustomerPayout(id, 0), s.journal)
    ensures var f := Run(s, Retry(id, 1, [name]));
            && f == s.(phase := Idle, journal := f.journal, chain := f.chain,
              batches := s.batches[id := Paid(amount, limit, name)])
            && OwnerBalance(Customer(0), f.journal) == OwnerBalance(Customer(0), s.journal) - amount
            && forall r :: Referenced(r, f.journal) <==> Referenced(r, s.journal) || r == CustomerPayout(id, 0)
  {
    hide Run, Next, PostItems, OwnerBalance, Referenced, NoReorg;
    var b := s.batches[id];
    Opening(s, id);
    var started := s.(phase := Relaying(id, b, 0));
    RelaysRun(started, id, b, 1);
    var relayed := Run(started, Relays(1));
    var last := [EndRelay([name]), Commit, Return];
    RunSplits(s, [Crash, Load(id), StartRelay], Relays(1) + last);
    RunSplits(started, Relays(1), last);
    assert Retry(id, 1, [name]) == [Crash, Load(id), StartRelay] + (Relays(1) + last);
    RunOfThree(relayed, EndRelay([name]), Commit, Return);
    RelayEnds(relayed, id, b, [name]);
    PostOne(s.journal, id, b, amount);
    CommitEffect(relayed.(phase := Relayed(id, b, [name])), PostItems(s.journal, id, b, 1).value);
    assert MarkJournaled(b.items) == Paid(amount, limit, name).items;
  }

  lemma PayBatch(s: Sys, id: nat, amount: int, limit: int, name: string) returns (steps: seq<Step>)
    requires s.phase == Idle && NoReorg(s.deposits) && id < |s.batches| && s.batches[id] == PlannedBatch(amount, limit)
    requires amount > 0
    requires Unseen(s.batches, name) && !Referenced(CustomerPayout(id, 0), s.journal)
    ensures Executes(steps)
    ensures var f := Run(s, steps);
            && f == s.(journal := f.journal, chain := f.chain, batches := s.batches[id := Paid(amount, limit, name)])
            && OwnerBalance(Customer(0), f.journal) == OwnerBalance(Customer(0), s.journal) - amount
            && forall r :: Referenced(r, f.journal) <==> Referenced(r, s.journal) || r == CustomerPayout(id, 0)
  {
    hide Run, OwnerBalance, Referenced, Unseen;
    var sign := SignPlanned(s, id, amount, limit, name);
    PaySigned(Run(s, sign), id, amount, limit, name);
    RunSplits(s, sign, Retry(id, 1, [name]));
    steps := sign + Retry(id, 1, [name]);
  }

  // ---------------------------------------------------------------- sums over few batches

  /** What a batch of customer 0 adds to its reservations and to the day's automatic approvals. */
  lemma SingleValues(b: Batch, gross: int)
    requires |b.items| == 1 && b.items[0].owner == Customer(0) && b.items[0].gross == gross
    ensures Value(Reserved(Customer(0)), b) == if Open(b.state) then gross else 0
    ensures Value(Auto(0), b) == if !b.thresholdHit && b.day == 0 && b.state != Cancelled then gross else 0
  {
    assert b.items[..0] == [];
    assert ItemSum(Reserved(Customer(0)), b, []) == 0 && ItemSum(Auto(0), b, []) == 0;
  }

  lemma TotalsOfOne(b: Batch)
    ensures forall m :: TotalOf(m, [b]) == Value(m, b)
  {
    hide Value;
    assert [b][..0] == [];
  }

  lemma TotalsOfTwo(a: Batch, b: Batch)
    ensures forall m :: TotalOf(m, [a, b]) == Value(m, a) + Value(m, b)
  {
    hide Value;
    assert [a, b][..1] == [a];
    TotalsOfOne(a);
  }

  // ---------------------------------------------------------------- the run

  /** Every minimum is `m`, the default; destinations are created with at least that. */
  predicate UsesMinimum(steps: seq<Step>, m: int) {
    forall i :: 0 <= i < |steps| ==> AllowedAt(steps[i], m)
  }

  predicate AllowedAt(step: Step, m: int) {
    match step
    case Plan(r) => r.minimum == m
    case PlanOperator(r) => r.minimum == m
    case AddDestination(d) => d.minPayout >= m
    case Observe(receipt, _, _) => receipt.amount > 0
    case _ => true
  }

  /** The state of the run after each act, as far as it matters. */
  ghost predicate Act(s: Sys, m: int, batches: seq<Batch>, balance: int, paid: set<nat>) {
    && s.phase == Idle && NoReorg(s.deposits) && s.destinations == [ActiveTarget(0, m)] && s.batches == batches
    && OwnerBalance(Customer(0), s.journal) == balance
    && forall id :: Referenced(CustomerPayout(id, 0), s.journal) ==> id in paid
  }

  lemma SetupIsAllowed(m: int)
    requires m < 0
    ensures UsesMinimum(Setup(-m, m) + [Plan(Request(-m, m))], m)
  {
  }

  lemma FirstPlan(m: int)
    requires m < 0
    ensures var steps := Setup(-m, m) + [Plan(Request(-m, m))];
            UsesMinimum(steps, m) && Act(Run(EMPTY, steps), m, [PlannedBatch(-m, -m)], -m, {})
  {
    SetupIsAllowed(m);
    hide Run, OwnerBalance, Referenced, UsesMinimum;
    SetupFunds(-m, m);
    var s := Run(EMPTY, Setup(-m, m));
    assert TotalOf(Reserved(Customer(0)), []) == 0 && TotalOf(Auto(0), []) == 0;
    PlanOnce(s, -m, -m, m);
    hide Next, TotalOf, Setup, Available;
    RunLast(EMPTY, Setup(-m, m), Plan(Request(-m, m)));
    assert [] + [PlannedBatch(-m, -m)] == [PlannedBatch(-m, -m)];
  }

  /** First act: the deposit of -m is planned and paid. */
  lemma FirstPayment(m: int) returns (steps: seq<Step>)
    requires m < 0
    ensures UsesMinimum(steps, m) && Act(Run(EMPTY, steps), m, [Paid(-m, -m, "a")], 0, {0})
  {
    hide Run, OwnerBalance, Referenced, Paid, PlannedBatch, Setup;
    FirstPlan(m);
    var planned := Setup(-m, m) + [Plan(Request(-m, m))];
    NothingSeen(-m, "a");
    var pay := PayBatch(Run(EMPTY, planned), 0, -m, -m, "a");
    RunSplits(EMPTY, planned, pay);
    steps := planned + pay;
  }

  lemma NothingSeen(amount: int, name: string)
    ensures Unseen([PlannedBatch(amount, amount)], name)
  {
  }

  /** What is broadcast is both journaled and reserved, so m is available, within the limit of the day. */
  lemma NegativeIsAvailable(s: Sys, m: int)
    requires m < 0 && Act(s, m, [Paid(-m, -m, "a")], 0, {0})
    ensures Available(s.journal, s.batches, Customer(0)) == m && AutoApprovable(-m, TotalOf(Auto(0), s.batches), m)
  {
    hide OwnerBalance, Referenced, TotalOf, Value;
    SingleValues(Paid(-m, -m, "a"), -m);
    TotalsOfOne(Paid(-m, -m, "a"));
  }

  /** Second act: m is planned. */
  lemma NegativePlan(steps: seq<Step>, m: int)
    requires m < 0 && Act(Run(EMPTY, steps), m, [Paid(-m, -m, "a")], 0, {0})
    ensures Act(Run(EMPTY, steps + [Plan(Request(-m, m))]), m, [Paid(-m, -m, "a"), PlannedBatch(m, -m)], 0, {0})
  {
    hide Run, OwnerBalance, Referenced, TotalOf, Next, Available, AutoApprovable, Paid, PlannedBatch;
    var s := Run(EMPTY, steps);
    NegativeIsAvailable(s, m);
    PlanOnce(s, m, -m, m);
    RunLast(EMPTY, steps, Plan(Request(-m, m)));
  }

  function Settled(m: int): Batch {
    Paid(-m, -m, "a").(state := Confirmed)
  }

  /** With the first batch confirmed -m is available again, and the day's total is back at zero. */
  lemma AvailableAgain(s: Sys, m: int)
    requires m < 0 && Act(s, m, [Settled(m), PlannedBatch(m, -m)], 0, {0})
    ensures Available(s.journal, s.batches, Customer(0)) == -m && AutoApprovable(-m, TotalOf(Auto(0), s.batches), -m)
  {
    hide OwnerBalance, Referenced, TotalOf, Value;
    SingleValues(Settled(m), -m);
    SingleValues(PlannedBatch(m, -m), m);
    TotalsOfTwo(Settled(m), PlannedBatch(m, -m));
  }

  lemma Confirming(steps: seq<Step>, m: int)
    requires m < 0 && Act(Run(EMPTY, steps), m, [Paid(-m, -m, "a"), PlannedBatch(m, -m)], 0, {0})
    ensures Act(Run(EMPTY, steps + [ConfirmRead(0)] + [ConfirmWrite(0)]), m, [Settled(m), PlannedBatch(m, -m)], 0, {0})
  {
    hide Run, OwnerBalance, Referenced;
    RunLast(EMPTY, steps, ConfirmRead(0));
    RunLast(EMPTY, steps + [ConfirmRead(0)], ConfirmWrite(0));
    assert Run(EMPTY, steps + [ConfirmRead(0)] + [ConfirmWrite(0)]).batches == [Settled(m), PlannedBatch(m, -m)];
  }

  /** Third act: the first batch is confirmed, and -m is planned again. */
  lemma SecondPlan(steps: seq<Step>, m: int) returns (more: seq<Step>)
    requires m < 0 && Act(Run(EMPTY, steps), m, [Paid(-m, -m, "a"), PlannedBatch(m, -m)], 0, {0})
    ensures UsesMinimum(more, m)
    ensures Act(Run(EMPTY, steps + more), m, [Settled(m), PlannedBatch(m, -m), PlannedBatch(-m, -m)], 0, {0})
  {
    hide Run, OwnerBalance, Referenced, TotalOf, Next, Available, AutoApprovable, Settled, PlannedBatch;
    Confirming(steps, m);
    var confirmed := steps + [ConfirmRead(0)] + [ConfirmWrite(0)];
    var s := Run(EMPTY, confirmed);
    AvailableAgain(s, m);
    PlanOnce(s, -m, -m, m);
    RunLast(EMPTY, confirmed, Plan(Request(-m, m)));
    more := [ConfirmRead(0)] + [ConfirmWrite(0)] + [Plan(Request(-m, m))];
    assert steps + more == confirmed + [Plan(Request(-m, m))];
  }

  /** The customer is paid a second time, and owes the pool the deposit. */
  lemma NegativeMinimumOverdraws(m: int) returns (steps: seq<Step>)
    requires m < 0
    ensures UsesMinimum(steps, m) && OwnerBalance(Customer(0), Run(EMPTY, steps).journal) == m
  {
    hide Run, OwnerBalance, Referenced;
    var one := FirstPayment(m);
    NegativePlan(one, m);
    var two := one + [Plan(Request(-m, m))];
    var more := SecondPlan(two, m);
    var three := two + more;
    var pay := PayBatch(Run(EMPTY, three), 2, -m, -m, "b");
    RunSplits(EMPTY, three, pay);
    steps := three + pay;
  }

  /** Exactly when nobody is ever overdrawn: when the minimum is not negative. */
  lemma MinimumDecides(m: int)
    ensures (forall steps, o | UsesMinimum(steps, m) :: OwnerBalance(o, Run(EMPTY, steps).journal) >= 0) <==> m >= 0
  {
    hide Run, OwnerBalance;
    if m >= 0 {
      forall steps, o | UsesMinimum(steps, m) ensures OwnerBalance(o, Run(EMPTY, steps).journal) >= 0 {
        assert SaneRun(steps) by {
          forall i | 0 <= i < |steps| ensures Sane(steps[i]) {
            assert AllowedAt(steps[i], m);
          }
        }
        NoOverdraft(steps, o);
      }
    } else {
      var steps := NegativeMinimumOverdraws(m);
    }
  }
}
