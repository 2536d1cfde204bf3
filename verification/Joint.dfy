/** The money pipeline and the gateway together. `allocateDeposit` is one transaction over both: it groups
    the accepted shares, divides the deposit over the groups, and marks exactly those shares. */
module Joint {
  import opened Common
  import Ledger
  import Deposits
  import Protocol
  import Safety
  import Guarantees
  import Shares
  import Gateway
  import Sessions
  import ShareGuarantees
  import Backend
  import GatewaySession

  datatype World = World(money: Protocol.Sys, shares: Gateway.Hub)

  /** An allocation reads the account keys of the asset's upstreams, by upstream id. */
  datatype Step =
    | Money(m: Protocol.Step)
    | Share(g: Gateway.Step)
    | AllocateDeposit(key: Ledger.DepositKey, accounts: map<nat, string>, policies: map<nat, int>,
                      items: seq<Deposits.Item>)

  /** All upstreams of the account to which the deposit's upstream belongs. */
  function AccountEndpoints(accounts: map<nat, string>, upstream: nat): set<nat>
    requires upstream in accounts
  {
    set u | u in accounts && accounts[u] == accounts[upstream]
  }

  function GroupsOf(w: World, endpoints: set<nat>): seq<Deposits.Group> {
    Deposits.WithWork(Shares.Grouped(w.shares.rows, endpoints))
  }

  /** `allocateDeposit` over both halves: they commit together or not at all. */
  ghost function AllocateStep(w: World, key: Ledger.DepositKey, accounts: map<nat, string>, policies: map<nat, int>,
                              items: seq<Deposits.Item>): World {
    if key !in w.money.deposits || w.money.deposits[key].upstream !in accounts then w
    else
      var endpoints := AccountEndpoints(accounts, w.money.deposits[key].upstream);
      var money := Protocol.Next(w.money, Protocol.Allocate(key, GroupsOf(w, endpoints), policies, items));
      if money == w.money then w else World(money, Gateway.Next(w.shares, Gateway.Allocate(endpoints)))
  }

  /** Either half alone never allocates. */
  ghost function Next(w: World, step: Step): World {
    match step
    case Money(m) => if m.Allocate? then w else w.(money := Protocol.Next(w.money, m))
    case Share(g) => if g.Allocate? then w else w.(shares := Gateway.Next(w.shares, g))
    case AllocateDeposit(key, accounts, policies, items) => AllocateStep(w, key, accounts, policies, items)
  }

  ghost function Run(w: World, steps: seq<Step>): World {
    if |steps| == 0 then w else Next(Run(w, steps[..|steps| - 1]), steps[|steps| - 1])
  }

  const START := World(Protocol.EMPTY, Gateway.IDLE)

  ghost predicate SaneRun(steps: seq<Step>) {
    forall i :: 0 <= i < |steps| && steps[i].Money? ==> Protocol.Sane(steps[i].m)
  }

  // ---------------------------------------------------------------- both halves are runs of their own

  lemma MoneyLast(steps: seq<Protocol.Step>, step: Protocol.Step)
    requires Protocol.SaneRun(steps) && Protocol.Sane(step)
    ensures Protocol.SaneRun(steps + [step])
    ensures Protocol.Run(Protocol.EMPTY, steps + [step]) == Protocol.Next(Protocol.Run(Protocol.EMPTY, steps), step)
  {
    hide Protocol.Next;
    assert (steps + [step])[..|steps|] == steps;
  }

  lemma ShareLast(steps: seq<Gateway.Step>, step: Gateway.Step)
    ensures Gateway.Run(Gateway.IDLE, steps + [step]) == Gateway.Next(Gateway.Run(Gateway.IDLE, steps), step)
  {
    hide Gateway.Next;
    assert (steps + [step])[..|steps|] == steps;
  }

  /** So all guarantees about either half hold here. */
  lemma {:induction false} Halves(steps: seq<Step>) returns (m: seq<Protocol.Step>, g: seq<Gateway.Step>)
    requires SaneRun(steps)
    ensures Protocol.SaneRun(m)
    ensures Run(START, steps) == World(Protocol.Run(Protocol.EMPTY, m), Gateway.Run(Gateway.IDLE, g))
  {
    hide Protocol.Next, Gateway.Next, Protocol.Run, Gateway.Run;
    if |steps| == 0 {
      m, g := [], [];
      EmptyRuns();
    } else {
      var n := |steps| - 1;
      m, g := Halves(steps[..n]);
      match steps[n]
      case Money(step) =>
        if !step.Allocate? {
          MoneyLast(m, step);
          m := m + [step];
        }
      case Share(step) =>
        if !step.Allocate? {
          ShareLast(g, step);
          g := g + [step];
        }
      case AllocateDeposit(key, accounts, policies, items) =>
        var w := Run(START, steps[..n]);
        if Next(w, steps[n]) != w {
          var endpoints := AccountEndpoints(accounts, w.money.deposits[key].upstream);
          var allocate := Protocol.Allocate(key, GroupsOf(w, endpoints), policies, items);
          MoneyLast(m, allocate);
          ShareLast(g, Gateway.Allocate(endpoints));
          m, g := m + [allocate], g + [Gateway.Allocate(endpoints)];
        }
    }
  }

  lemma EmptyRuns()
    ensures Protocol.Run(Protocol.EMPTY, []) == Protocol.EMPTY && Gateway.Run(Gateway.IDLE, []) == Gateway.IDLE
  {
  }

  // ---------------------------------------------------------------- what ties them

  /** The allocation divides its deposit over exactly these groups of work. */
  ghost predicate DividedOver(a: Protocol.Allocation, groups: seq<Deposits.Group>) {
    exists policies :: Deposits.Itemised(a.total, groups, policies, a.items)
  }

  ghost predicate Tied(w: World) {
    && |w.money.allocations| == |w.shares.batches|
    && forall i :: 0 <= i < |w.money.allocations| ==> DividedOver(w.money.allocations[i], w.shares.batches[i])
  }

  lemma NextKeepsTied(w: World, step: Step)
    requires Tied(w)
    ensures Tied(Next(w, step))
  {
    hide Protocol.Next, Gateway.Next, DividedOver;
    match step
    case Money(m) =>
      if !m.Allocate? {
        AllocationsStay(w.money, m);
      }
    case Share(g) =>
      if !g.Allocate? {
        ShareGuarantees.LotsStay(w.shares, g);
      }
    case AllocateDeposit(key, accounts, policies, items) =>
      if Next(w, step) != w {
        JointAllocation(w, key, AccountEndpoints(accounts, w.money.deposits[key].upstream), policies, items);
      }
  }

  lemma AllocationsStay(s: Protocol.Sys, step: Protocol.Step)
    requires !step.Allocate?
    ensures Protocol.Next(s, step).allocations == s.allocations
  {
    hide Protocol.PlanStep, Protocol.WalletTruth;
    if step.Plan? {
      assert Protocol.PlanStep(s, step.plan).allocations == s.allocations by {
        PlanLeavesAllocations(s, step.plan);
      }
    }
  }

  lemma PlanLeavesAllocations(s: Protocol.Sys, r: Protocol.PlanRequest)
    ensures Protocol.PlanStep(s, r).allocations == s.allocations
  {
  }

  lemma JointAllocation(w: World, key: Ledger.DepositKey, endpoints: set<nat>, policies: map<nat, int>,
                        items: seq<Deposits.Item>)
    ensures var groups := GroupsOf(w, endpoints);
            var money := Protocol.Next(w.money, Protocol.Allocate(key, groups, policies, items));
            money != w.money ==>
              && |money.allocations| == |w.money.allocations| + 1
              && money.allocations[..|w.money.allocations|] == w.money.allocations
              && DividedOver(money.allocations[|w.money.allocations|], groups)
              && money.allocations[|w.money.allocations|].deposit == key
              && Gateway.Next(w.shares, Gateway.Allocate(endpoints)).batches == w.shares.batches + [groups]
  {
    hide Deposits.PostAllocation, Deposits.WithWork, Shares.Grouped, Deposits.Itemised;
    var groups := GroupsOf(w, endpoints);
    var money := Protocol.Next(w.money, Protocol.Allocate(key, groups, policies, items));
    if money != w.money {
      assert Deposits.Itemised(w.money.deposits[key].amount, groups, policies, items);
      HasGroups(w.money.deposits[key].amount, groups, policies, items);
    }
  }

  lemma HasGroups(total: int, groups: seq<Deposits.Group>, policies: map<nat, int>, items: seq<Deposits.Item>)
    requires Deposits.Itemised(total, groups, policies, items)
    ensures |groups| > 0
  {
  }

  lemma {:induction false} TiedInEveryRun(steps: seq<Step>)
    ensures Tied(Run(START, steps))
  {
    hide Next, DividedOver;
    if |steps| > 0 {
      TiedInEveryRun(steps[..|steps| - 1]);
      NextKeepsTied(Run(START, steps[..|steps| - 1]), steps[|steps| - 1]);
    }
  }

  /** A share that a deposit of this upstream pays for, under these accounts: stored, accepted, not paid for yet, and
      mined at an upstream with the same account key. */
  predicate PaidBy(row: Shares.Share, accounts: map<nat, string>, upstream: nat) {
    && !row.deleted && row.status == Shares.Accepted && row.batch.None?
    && row.endpoint in accounts && upstream in accounts && accounts[row.endpoint] == accounts[upstream]
  }

  /** A deposit pays for the work of its own upstream only, whatever shares there are, if and only if no other
      upstream has the same account key. */
  lemma OwnUpstreamOnly(accounts: map<nat, string>, upstream: nat)
    requires upstream in accounts
    ensures (forall row :: PaidBy(row, accounts, upstream) ==> row.endpoint == upstream) <==>
      (forall u :: u in accounts && accounts[u] == accounts[upstream] ==> u == upstream)
  {
    if forall row :: PaidBy(row, accounts, upstream) ==> row.endpoint == upstream {
      forall u | u in accounts && accounts[u] == accounts[upstream] ensures u == upstream {
        var row := Shares.Share(0, u, 0, 0, 1.0, Shares.Accepted, None, false, Shares.AtGateway, None);
        assert PaidBy(row, accounts, upstream);
      }
    }
  }

  /** Allocation i pays for exactly these rows of what there was before it. */
  ghost predicate PaysFor(i: nat, before: seq<Shares.Share>, accounts: map<nat, string>, upstream: nat,
                          rows: seq<Shares.Share>) {
    && |before| <= |rows|
    && (forall k :: 0 <= k < |before| ==>
          rows[k].endpoint == before[k].endpoint &&
            (rows[k].batch == Some(i) <==> PaidBy(before[k], accounts, upstream)))
    && (forall k :: |before| <= k < |rows| ==> rows[k].batch != Some(i))
  }

  /** Step n made allocation i, for a deposit of an upstream whose account was known, over the shares of that
      account. */
  ghost predicate AllocatedAt(steps: seq<Step>, n: nat, i: nat)
    requires n < |steps|
  {
    var before, w := Run(START, steps[..n]), Run(START, steps);
    && steps[n].AllocateDeposit? && |before.money.allocations| == i < |w.money.allocations|
    && w.money.allocations[i].deposit == steps[n].key && steps[n].key in before.money.deposits
    && steps[n].key in w.money.deposits
    && var upstream := before.money.deposits[steps[n].key].upstream;
       && w.money.deposits[steps[n].key].upstream == upstream && upstream in steps[n].accounts
       && PaysFor(i, before.shares.rows, steps[n].accounts, upstream, w.shares.rows)
  }

  lemma {:induction false} AllocatingStep(steps: seq<Step>, i: nat) returns (n: nat)
    requires SaneRun(steps) && i < |Run(START, steps).money.allocations|
    ensures n < |steps| && AllocatedAt(steps, n, i)
  {
    hide Next, PaysFor;
    var m := |steps| - 1;
    var w, last := Run(START, steps[..m]), steps[m];
    TiedInEveryRun(steps[..m]);
    hide Tied;
    AllocationsGrow(w, last);
    if i < |w.money.allocations| {
      n := AllocatingStep(steps[..m], i);
      assert steps[..m][..n] == steps[..n];
      var upstream := w.money.deposits[steps[n].key].upstream;
      PaidStays(w, last, i, Run(START, steps[..n]).shares.rows, steps[n].accounts, upstream);
    } else {
      n := m;
      var money, g := Halves(steps[..m]);
      Sessions.EveryRun(g);
      PaidNow(w, last);
    }
  }

  /** No step removes an allocation, a deposit or its attribution, and only an allocation adds one, for its deposit. */
  lemma AllocationsGrow(w: World, step: Step)
    requires Tied(w)
    ensures var w' := Next(w, step); var n := |w.money.allocations|;
            && n <= |w'.money.allocations| <= n + 1 && w'.money.allocations[..n] == w.money.allocations
            && |w.shares.batches| == n
            && (forall key :: key in w.money.deposits ==>
                  key in w'.money.deposits && w'.money.deposits[key].upstream == w.money.deposits[key].upstream)
            && (|w'.money.allocations| > n ==>
                  step.AllocateDeposit? && w' != w && w'.money.allocations[n].deposit == step.key)
  {
    hide Gateway.Next, Protocol.Next, DividedOver;
    match step
    case Money(m) =>
      if !m.Allocate? {
        AllocationsStay(w.money, m);
        UpstreamsStay(w.money, m);
      }
    case Share(g) =>
    case AllocateDeposit(key, accounts, policies, items) =>
      if Next(w, step) != w {
        var endpoints := AccountEndpoints(accounts, w.money.deposits[key].upstream);
        JointAllocation(w, key, endpoints, policies, items);
        UpstreamsStay(w.money, Protocol.Allocate(key, GroupsOf(w, endpoints), policies, items));
      }
  }

  lemma UpstreamsStay(s: Protocol.Sys, step: Protocol.Step)
    ensures var deposits := Protocol.Next(s, step).deposits;
            forall key :: key in s.deposits ==>
              key in deposits && deposits[key].upstream == s.deposits[key].upstream
  {
    hide Protocol.PlanStep, Protocol.WalletTruth, Deposits.Itemised, Deposits.PostAllocation;
    if step.Plan? {
      PlanLeavesDeposits(s, step.plan);
    }
  }

  lemma PlanLeavesDeposits(s: Protocol.Sys, r: Protocol.PlanRequest)
    ensures Protocol.PlanStep(s, r).deposits == s.deposits
  {
  }

  lemma PaidStays(w: World, step: Step, i: nat, before: seq<Shares.Share>, accounts: map<nat, string>, upstream: nat)
    requires upstream in accounts && i < |w.shares.batches| && PaysFor(i, before, accounts, upstream, w.shares.rows)
    ensures PaysFor(i, before, accounts, upstream, Next(w, step).shares.rows)
  {
    hide Gateway.Next, Protocol.Next, ShareGuarantees.TakenFrom, PaysFor;
    var endpoints := AccountEndpoints(accounts, upstream);
    PaysForIsTaken(i, before, accounts, upstream, w.shares.rows);
    if Next(w, step).shares != w.shares {
      var g := if step.Share? then step.g
               else Gateway.Allocate(AccountEndpoints(step.accounts, w.money.deposits[step.key].upstream));
      ShareGuarantees.TakenStays(w.shares, g, i, before, endpoints);
      PaysForIsTaken(i, before, accounts, upstream, Next(w, step).shares.rows);
    }
  }

  lemma PaysForIsTaken(i: nat, before: seq<Shares.Share>, accounts: map<nat, string>, upstream: nat,
                       rows: seq<Shares.Share>)
    requires upstream in accounts
    ensures PaysFor(i, before, accounts, upstream, rows) <==>
      ShareGuarantees.TakenFrom(i, before, AccountEndpoints(accounts, upstream), rows)
  {
    var endpoints := AccountEndpoints(accounts, upstream);
    assert forall k :: 0 <= k < |before| ==>
      (PaidBy(before[k], accounts, upstream) <==> ShareGuarantees.Waits(before[k], endpoints));
    hide PaidBy, ShareGuarantees.Waits;
  }

  lemma PaidNow(w: World, step: Step)
    requires step.AllocateDeposit? && Gateway.Inv(w.shares) && Next(w, step) != w
    ensures step.key in w.money.deposits && w.money.deposits[step.key].upstream in step.accounts
    ensures PaysFor(|w.shares.batches|, w.shares.rows, step.accounts, w.money.deposits[step.key].upstream,
      Next(w, step).shares.rows)
  {
    hide Gateway.Next, Protocol.Next, ShareGuarantees.TakenFrom, PaysFor, Gateway.Inv;
    var upstream := w.money.deposits[step.key].upstream;
    var endpoints := AccountEndpoints(step.accounts, upstream);
    JointAllocation(w, step.key, endpoints, step.policies, step.items);
    ShareGuarantees.TakenNow(w.shares, endpoints);
    PaysForIsTaken(|w.shares.batches|, w.shares.rows, step.accounts, upstream, Next(w, step).shares.rows);
  }

  /** Credits follow the shares, in every joint run. Allocation i divides its deposit by largest remainder over
      groups of work that are, for every customer and policy, the work of exactly the shares marked for it
      (a negative total counts as none), and nothing is credited beyond the deposit. These shares are, exactly, those
      that waited at the upstreams of the deposit's own pool account when the deposit was allocated. */
  lemma CreditsFollowShares(steps: seq<Step>, i: nat)
    requires SaneRun(steps) && i < |Run(START, steps).money.allocations|
    ensures var w := Run(START, steps); var a := w.money.allocations[i];
            && i < |w.shares.batches| && DividedOver(a, w.shares.batches[i])
            && Gateway.BatchOk(w.shares.batches[i], i, w.shares.rows)
            && Sum(Deposits.CustomerParts(a.items)) + Sum(Deposits.OperatorParts(a.items)) == a.total
    ensures exists n :: 0 <= n < |steps| && AllocatedAt(steps, n, i)
  {
    hide Run, DividedOver, Gateway.BatchOk, Protocol.Run, Gateway.Run, Sum, AllocatedAt;
    var m, g := Halves(steps);
    TiedInEveryRun(steps);
    ShareGuarantees.WorkIsConserved(g);
    Guarantees.DepositsAreCreditedOnce(m);
    assert Safety.AllocationOk(Run(START, steps).money, Run(START, steps).money.allocations[i]);
    var n := AllocatingStep(steps, i);
  }

  // ---------------------------------------------------------------- the objects

  lemma {:induction false} FilteredTwice(groups: seq<Deposits.Group>)
    ensures Deposits.WithWork(Deposits.WithWork(groups)) == Deposits.WithWork(groups)
  {
    if |groups| > 0 {
      var n := |groups| - 1;
      FilteredTwice(groups[..n]);
      var r := Deposits.WithWork(groups);
      if groups[n].work > 0.0 {
        assert r[..|r| - 1] == Deposits.WithWork(groups[..n]);
      } else {
        assert r == Deposits.WithWork(groups[..n]);
      }
    }
  }

  /** The tables agree: allocation i divides its deposit over the work of share batch i. */
  ghost predicate Agree(db: Backend.Database, table: GatewaySession.ShareTable)
    reads db, table
  {
    && |db.allocations| == |table.batches|
    && forall i :: 0 <= i < |db.allocations| ==> DividedOver(db.allocations[i], table.batches[i])
  }

  /** `allocateDeposit` over both tables: the accepted shares of the account are grouped, the deposit is divided
      over the groups and credited, and exactly those shares are marked; or nothing changes anywhere. In whatever
      hub the table lives it is the joint step. */
  method AllocateOverBoth(db: Backend.Database, table: GatewaySession.ShareTable, key: Ledger.DepositKey,
                          accounts: map<nat, string>, policies: map<nat, int>, ghost h: Gateway.Hub)
    returns (r: Option<Backend.AllocateError>)
    requires db.Valid() && Agree(db, table) && h.rows == table.rows && h.batches == table.batches
    modifies db`deposits, db`allocations, db`journal, db`history, table
    ensures db.Valid() && Agree(db, table)
    ensures r == Some(Backend.UnknownDeposit) <==> key !in old(db.deposits)
    ensures r == Some(Backend.NotConfirmed) <==>
      key in old(db.deposits) && old(db.deposits)[key].status in {Deposits.Observed, Deposits.Reorged}
    ensures r == Some(Backend.UnknownUpstream) <==>
      key in old(db.deposits) && old(db.deposits)[key].status == Deposits.Confirmed &&
        old(db.deposits)[key].upstream !in accounts
    ensures key in old(db.deposits) && old(db.deposits)[key].status == Deposits.Shared ==> r.None?
    ensures (&& key in old(db.deposits) && old(db.deposits)[key].status == Deposits.Confirmed
             && old(db.deposits)[key].upstream in accounts) ==>
      match Deposits.DivisionFault(old(db.deposits)[key].amount,
        GroupsOf(World(old(db.World()), h), AccountEndpoints(accounts, old(db.deposits)[key].upstream)), policies)
      case Some(e) => r == Some(Backend.Undivided(e))
      case None => r == if Protocol.HasAllocation(old(db.allocations), key) then Some(Backend.AlreadyAllocated)
        else None
    ensures r.Some? || old(db.deposits)[key].status == Deposits.Shared ==>
      && db.deposits == old(db.deposits) && db.allocations == old(db.allocations) && db.journal == old(db.journal)
      && table.rows == old(table.rows) && table.batches == old(table.batches)
    ensures r.None? && old(db.deposits)[key].status == Deposits.Confirmed ==>
      && |db.allocations| == |old(db.allocations)| + 1 && |table.batches| == |old(table.batches)| + 1
      && table.batches[..|old(table.batches)|] == old(table.batches) && old(db.deposits)[key].upstream in accounts
      && var upstream := old(db.deposits)[key].upstream;
         && Shares.CarriesWork(table.batches[|old(table.batches)|], old(table.rows),
              AccountEndpoints(accounts, upstream))
         && |table.rows| == |old(table.rows)|
         && forall k :: 0 <= k < |table.rows| ==>
              table.rows[k] == if PaidBy(old(table.rows)[k], accounts, upstream)
                               then old(table.rows)[k].(batch := Some(|old(table.batches)|)) else old(table.rows)[k]
    ensures r.None? && old(db.deposits)[key].status == Deposits.Confirmed ==>
      Next(World(old(db.World()), h),
        AllocateDeposit(key, accounts, policies, db.allocations[|old(db.allocations)|].items))
      == World(db.World(), h.(rows := table.rows, batches := table.batches))
  {
    hide Shares.Grouped, Deposits.WithWork, Deposits.Itemised, Deposits.DivisionFault, Protocol.HasAllocation,
      Protocol.Run, Protocol.Next, Shares.Marked, Safety.Inv, Shares.CarriesWork, Next, PaidBy, AccountEndpoints;
    var confirmed := key in db.deposits && db.deposits[key].status == Deposits.Confirmed;
    if confirmed && db.deposits[key].upstream !in accounts {
      return Some(Backend.UnknownUpstream);
    }
    var endpoints: set<nat> := if confirmed then AccountEndpoints(accounts, db.deposits[key].upstream) else {};
    var groups := table.GroupAccepted(endpoints);
    FilteredTwice(Shares.Grouped(table.rows, endpoints));
    ghost var before := db.history;
    r := db.AllocateDeposit(key, groups, policies);
    if r.None? && confirmed {
      ghost var items := db.allocations[|old(db.allocations)|].items;
      HasGroups(old(db.deposits)[key].amount, groups, policies, items);
      assert DividedOver(db.allocations[|old(db.allocations)|], groups);
      hide DividedOver;
      var marked := table.AssignAccepted(endpoints);
      HistoryStep(before, Protocol.Allocate(key, groups, policies, items));
      assert db.World() != old(db.World());
      CommittedStep(World(old(db.World()), h), key, accounts, policies, items);
      PaidAtEndpoints(accounts, old(db.deposits)[key].upstream);
    }
  }

  lemma CommittedStep(w: World, key: Ledger.DepositKey, accounts: map<nat, string>, policies: map<nat, int>,
                      items: seq<Deposits.Item>)
    requires key in w.money.deposits && w.money.deposits[key].upstream in accounts
    ensures var endpoints := AccountEndpoints(accounts, w.money.deposits[key].upstream);
            var groups := GroupsOf(w, endpoints);
            var money := Protocol.Next(w.money, Protocol.Allocate(key, groups, policies, items));
            money != w.money && |groups| > 0 ==>
              Next(w, AllocateDeposit(key, accounts, policies, items)) ==
                World(money, w.shares.(rows := Shares.Marked(w.shares.rows, endpoints, |w.shares.batches|),
                                       batches := w.shares.batches + [groups]))
  {
    hide Protocol.Next, Shares.Marked, Shares.Grouped, Deposits.WithWork;
  }

  lemma PaidAtEndpoints(accounts: map<nat, string>, upstream: nat)
    requires upstream in accounts
    ensures var endpoints := AccountEndpoints(accounts, upstream);
            forall row: Shares.Share :: PaidBy(row, accounts, upstream) <==>
              !row.deleted && row.status == Shares.Accepted && row.batch == None && row.endpoint in endpoints
  {
  }

  lemma HistoryStep(history: seq<Protocol.Step>, step: Protocol.Step)
    ensures Protocol.Run(Protocol.EMPTY, history + [step]) == Protocol.Next(Protocol.Run(Protocol.EMPTY, history), step)
  {
    hide Protocol.Next;
    assert (history + [step])[..|history|] == history;
  }
}
