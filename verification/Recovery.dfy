/** After a crash at any point, a retry finishes a signed batch: same payload, each item journaled
    once. */
module Recovery {
  import opened Common
  import opened Ledger
  import opened Payouts
  import opened Protocol
  import opened Safety
  import opened Guarantees
  import WalletFees

  /** The retry of one batch when nothing goes wrong; it does not matter what ids are reported. */
  function Retry(id: nat, n: nat, ids: seq<string>): seq<Step> {
    [Crash, Load(id), StartRelay] + Relays(n) + [EndRelay(ids), Commit, Return]
  }

  function Relays(n: nat): (r: seq<Step>)
    ensures |r| == n && forall i :: 0 <= i < n ==> r[i] == RelayNext
  {
    if n == 0 then [] else Relays(n - 1) + [RelayNext]
  }

  /** Signed but not known to be journaled: what a crash or an exception leaves behind. */
  predicate Retriable(b: Batch) {
    Resumable(b) && forall i :: 0 <= i < |b.items| ==> Postable(b.items[i])
  }

  predicate Resumable(b: Batch) {
    b.payload.Some? && b.state in {Signed, Failed}
  }

  function TxSet(txs: seq<Tx>): set<Tx> {
    set tx | tx in txs
  }

  function Finished(b: Batch, ids: seq<string>): Batch {
    b.(items := MarkJournaled(b.items), state := Broadcast, txids := ids)
  }

  /** From every reachable state, whoever held the lock and wherever it crashed: one undisturbed
      retry leaves the batch broadcast and journaled in full, has exactly its stored payload on the
      chain on top of what was there, touches no other row, and posts nothing for a batch that was
      journaled before. */
  lemma RetryFinishes(steps: seq<Step>, id: nat, ids: seq<string>)
    requires SaneRun(steps) && id < |Run(EMPTY, steps).batches| && Retriable(Run(EMPTY, steps).batches[id])
    requires NoReorg(Run(EMPTY, steps).deposits)
    ensures var s := Run(EMPTY, steps); var b := s.batches[id];
            var f := Run(s, Retry(id, |b.payload.value|, ids));
            && f == s.(phase := Idle, journal := f.journal, chain := s.chain + TxSet(b.payload.value),
                       batches := s.batches[id := Finished(b, ids)])
            && s.journal <= f.journal && Inv(f)
            && (forall i :: 0 <= i < |b.items| ==> Referenced(ReferenceOf(id, b.items[i].owner), f.journal))
            && (AllJournaled(b) ==> f.journal == s.journal)
  {
    hide Run, Next, Inv, Postable, NoReorg, Relays, MarkJournaled, AllJournaled, Referenced, PostItems, TxSet;
    var s := Run(EMPTY, steps);
    var b := s.batches[id];
    var n := |b.payload.value|;
    EveryRun(steps);
    var started := s.(phase := Relaying(id, b, 0));
    Opening(s, id);
    InvAlong(s, [Crash, Load(id), StartRelay]);
    RelaysRun(started, id, b, n);
    InvAlong(started, Relays(n));
    assert b.payload.value[..n] == b.payload.value;
    var relayed := Run(started, Relays(n));
    Ending(relayed, id, b, ids);
    var f := Run(relayed, [EndRelay(ids), Commit, Return]);
    InvAlong(relayed, [EndRelay(ids), Commit, Return]);
    RunSplits(s, [Crash, Load(id), StartRelay], Relays(n) + [EndRelay(ids), Commit, Return]);
    RunSplits(started, Relays(n), [EndRelay(ids), Commit, Return]);
    assert Retry(id, n, ids) == [Crash, Load(id), StartRelay] + (Relays(n) + [EndRelay(ids), Commit, Return]);
  }

  lemma {:induction false} InvAlong(s: Sys, steps: seq<Step>)
    requires Inv(s) && SaneRun(steps)
    ensures Inv(Run(s, steps))
  {
    hide Next, Inv;
    if |steps| > 0 {
      InvAlong(s, steps[..|steps| - 1]);
      NextKeeps(Run(s, steps[..|steps| - 1]), steps[|steps| - 1]);
    }
  }

  lemma RunOfThree(s: Sys, a: Step, b: Step, c: Step)
    ensures Run(s, [a, b, c]) == Next(Next(Next(s, a), b), c)
  {
    hide Next;
    assert [a, b, c][..2] == [a, b] && [a, b][..1] == [a] && [a][..0] == [];
    assert Run(s, []) == s;
    assert Run(s, [a]) == Next(s, a);
    assert Run(s, [a, b]) == Next(Next(s, a), b);
  }

  lemma Opening(s: Sys, id: nat)
    requires id < |s.batches| && Resumable(s.batches[id]) && NoReorg(s.deposits)
    ensures Run(s, [Crash, Load(id), StartRelay]) == s.(phase := Relaying(id, s.batches[id], 0))
  {
    hide Run;
    RunOfThree(s, Crash, Load(id), StartRelay);
  }

  lemma RunLast(s: Sys, steps: seq<Step>, step: Step)
    ensures Run(s, steps + [step]) == Next(Run(s, steps), step) && Run(s, []) == s
  {
    hide Next;
    assert (steps + [step])[..|steps|] == steps;
  }

  lemma {:induction false} RelaysRun(s: Sys, id: nat, b: Batch, n: nat)
    requires s.phase == Relaying(id, b, 0) && b.payload.Some? && n <= |b.payload.value|
    ensures Run(s, Relays(n)) == s.(chain := s.chain + TxSet(b.payload.value[..n]), phase := Relaying(id, b, n))
  {
    hide Next, TxSet, Run;
    TxSetGrows(s.chain, b.payload.value, n);
    if n > 0 {
      RelaysRun(s, id, b, n - 1);
      RunLast(s, Relays(n - 1), RelayNext);
      RelayOne(Run(s, Relays(n - 1)), id, b, n - 1);
    } else {
      RunLast(s, [], RelayNext);
    }
  }

  lemma TxSetGrows(chain: set<Tx>, txs: seq<Tx>, n: nat)
    requires n <= |txs|
    ensures chain + TxSet(txs[..n]) == if n == 0 then chain else chain + TxSet(txs[..n - 1]) + {txs[n - 1]}
  {
  }

  lemma Ending(s: Sys, id: nat, b: Batch, ids: seq<string>)
    requires Inv(s) && id < |s.batches| && b == s.batches[id] && Retriable(b)
    requires s.phase == Relaying(id, b, |b.payload.value|)
    ensures var f := Run(s, [EndRelay(ids), Commit, Return]);
            && f == s.(phase := Idle, journal := f.journal, batches := s.batches[id := Finished(b, ids)])
            && s.journal <= f.journal
            && (AllJournaled(b) ==> f.journal == s.journal)
            && (forall i :: 0 <= i < |b.items| ==> Referenced(ReferenceOf(id, b.items[i].owner), f.journal))
  {
    hide Run, Inv, MarkJournaled, PostItems, Referenced, Postable, PhaseOk;
    RunOfThree(s, EndRelay(ids), Commit, Return);
    var ready := s.(phase := Relayed(id, b, ids));
    assert Next(s, EndRelay(ids)) == ready;
    NextKeeps(s, EndRelay(ids));
    hide Next;
    PostedUnlessEmpty(ready, b);
    var j := PostItems(s.journal, id, b, |b.items|).value;
    CommitEffect(ready, j);
    LinkedHolds(s);
    forall i | 0 <= i < |b.items| ensures Referenced(ReferenceOf(id, b.items[i].owner), j) {
      PostItemsReferences(s.journal, id, b, |b.items|, ReferenceOf(id, b.items[i].owner));
    }
    PostItemsReferences(s.journal, id, b, |b.items|, OperatorPayout(0));
    if AllJournaled(b) {
      NothingToPost(s.journal, id, b, |b.items|);
    }
  }

  lemma LinkedHolds(s: Sys)
    requires Inv(s)
    ensures Linked(s)
  {
    hide Rows, PhaseOk, TicketsOk, Books, References, Covered, AllocationsOk, ChainOk, AutoOk, Linked, OneActive;
  }

  lemma {:induction false} NothingToPost(journal: seq<Journal>, id: nat, b: Batch, n: nat)
    requires AllJournaled(b) && n <= |b.items|
    ensures PostItems(journal, id, b, n) == Some(journal)
  {
    if n > 0 {
      NothingToPost(journal, id, b, n - 1);
    }
  }

  /** Approved and unsigned: what planning with automatic approval, or an approval, leaves behind. */
  predicate Signable(b: Batch) {
    b.payload.None? && b.state in {AutoApproved, Failed}
  }

  /** From every reachable state, any answer of the wallet that charges the fee within the cap is
      signed and stored by an undisturbed attempt; with `RetryFinishes`, such a batch gets paid. */
  lemma AttemptSigns(steps: seq<Step>, id: nat, payer: FeePayer, bps: int, prepared: seq<WalletFees.PreparedItem>,
                     fee: int, txs: seq<Tx>)
    requires SaneRun(steps) && id < |Run(EMPTY, steps).batches| && Signable(Run(EMPTY, steps).batches[id])
    requires NoReorg(Run(EMPTY, steps).deposits) && WalletTruth(Run(EMPTY, steps), prepared, fee, txs)
    requires var b := Run(EMPTY, steps).batches[id];
             && WalletFees.Charges(Candidates(b), DeductsFee(b, payer), fee, prepared)
             && (b.kind == CustomerBatch ==> fee * 10000 <= Value(Gross, b) * b.maxFeeBps.GetOr(bps))
    ensures var s := Run(EMPTY, steps);
            var f := Run(s, [Crash, Load(id), Prepare(payer, bps, prepared, fee, txs)] + [Sign]);
            && f == s.(phase := Persisted(id), batches := f.batches)
            && |f.batches| == |s.batches| && f.batches == s.batches[id := f.batches[id]]
            && f.batches[id].state == Signed && f.batches[id].payload == Some(txs) && f.batches[id].totalFee == fee
            && |prepared| == |s.batches[id].items| && f.batches[id].items == ChargedItems(s.batches[id].items, prepared)
            && Inv(f)
  {
    hide Run, Inv, WalletFees.Charges, WalletTruth, Value, ChargedItems;
    var s := Run(EMPTY, steps);
    var b := s.batches[id];
    EveryItemCharged(b, DeductsFee(b, payer), fee, prepared);
    EveryRun(steps);
    var prepare := Prepare(payer, bps, prepared, fee, txs);
    RunOfThree(s, Crash, Load(id), prepare);
    InvAlong(s, [Crash, Load(id), prepare]);
    var charged := Run(s, [Crash, Load(id), prepare]);
    PreparedPhase(s, id, payer, bps, prepared, fee, txs);
    RunLast(s, [Crash, Load(id), prepare], Sign);
    NextKeeps(charged, Sign);
  }

  predicate DeductsFee(b: Batch, payer: FeePayer) {
    !(b.kind == CustomerBatch && b.feePayer.GetOr(payer) == OperatorPays)
  }

  lemma EveryItemCharged(b: Batch, deducted: bool, fee: int, prepared: seq<WalletFees.PreparedItem>)
    requires WalletFees.Charges(Candidates(b), deducted, fee, prepared)
    ensures |prepared| == |b.items|
  {
  }

  lemma PreparedPhase(s: Sys, id: nat, payer: FeePayer, bps: int, prepared: seq<WalletFees.PreparedItem>, fee: int,
                      txs: seq<Tx>)
    requires id < |s.batches| && Signable(s.batches[id]) && NoReorg(s.deposits) && WalletTruth(s, prepared, fee, txs)
    requires var b := s.batches[id];
             && WalletFees.Charges(Candidates(b), DeductsFee(b, payer), fee, prepared)
             && (b.kind == CustomerBatch ==> fee * 10000 <= Value(Gross, b) * b.maxFeeBps.GetOr(bps))
    ensures var b := s.batches[id];
            Next(Next(Next(s, Crash), Load(id)), Prepare(payer, bps, prepared, fee, txs))
            == s.(phase := Charged(id, b, Signing(prepared, fee, txs, DeductsFee(b, payer), b.maxFeeBps.GetOr(bps))))
  {
    hide WalletFees.Charges, Value;
    var loaded := Next(Next(s, Crash), Load(id));
    assert loaded == s.(phase := Loaded(id, s.batches[id]));
    assert WalletTruth(loaded, prepared, fee, txs);
  }
}
