/** The fee-convergence loop of `preparePayout` in both wallet adapters
    (apps/server/src/wallets/bitcoin-wallet.adapter.ts, monero-wallet.adapter.ts) and the Monero
    relay loop, against a wallet that may answer every call as it likes. */
module WalletFees {
  import opened Common
  import opened Apportionment

  datatype Candidate = Candidate(id: nat, address: string, gross: int)

  datatype Output = Output(address: string, amount: int)

  datatype PreparedItem = PreparedItem(candidate: Candidate, fee: int, net: int)

  /** What the wallet returns for a set of outputs: a funded PSBT with its fee in coins, or a list
      of split transactions with one fee each. */
  datatype Quote =
    | Bitcoin(psbt: string, coinFee: real)
    | Monero(metadata: seq<string>, txids: seq<string>, fees: seq<int>)

  datatype Prepared = Prepared(fee: int, items: seq<PreparedItem>, quote: Quote)

  datatype FeeError =
    | NoItems
    | Unallocatable(why: AllocationError)
    | SmallerThanFee(id: nat)
    | NotConverged
    | WalletFailed

  /** The wallet, as a function of the call number and the outputs asked for; `None` is a call that throws. */
  type Wallet = (nat, seq<Output>) -> Option<Quote>

  function Ceil(x: real): (c: int)
    ensures (c - 1) as real < x <= c as real
  {
    -((-x).Floor)
  }

  function FeeOf(q: Quote): int {
    match q
    case Bitcoin(_, coinFee) => Ceil(coinFee * 100000000.0)
    case Monero(_, _, fees) => Sum(fees)
  }

  function GrossWeights(items: seq<Candidate>): (w: seq<real>)
    ensures |w| == |items|
  {
    seq(|items|, i requires 0 <= i < |items| => items[i].gross as real)
  }

  function GrossOf(items: seq<Candidate>): (g: seq<int>)
    ensures |g| == |items|
  {
    seq(|items|, i requires 0 <= i < |items| => items[i].gross)
  }

  function FeesOf(items: seq<PreparedItem>): (f: seq<int>)
    ensures |f| == |items|
  {
    seq(|items|, i requires 0 <= i < |items| => items[i].fee)
  }

  function NetsOf(items: seq<PreparedItem>): (n: seq<int>)
    ensures |n| == |items|
  {
    seq(|items|, i requires 0 <= i < |items| => items[i].net)
  }

  function GrossOutputs(items: seq<Candidate>): seq<Output> {
    seq(|items|, i requires 0 <= i < |items| => Output(items[i].address, items[i].gross))
  }

  function NetOutputs(items: seq<PreparedItem>): seq<Output> {
    seq(|items|, i requires 0 <= i < |items| => Output(items[i].candidate.address, items[i].net))
  }

  ghost predicate DistinctIds(items: seq<Candidate>) {
    forall i, j :: 0 <= i < j < |items| ==> items[i].id != items[j].id
  }

  /** `nets` charges the fee to the items by largest remainder over their gross amounts. */
  ghost predicate Charges(items: seq<Candidate>, deduct: bool, fee: int, nets: seq<PreparedItem>) {
    && |nets| == |items| && fee >= 0
    && SumReal(GrossWeights(items)) > 0.0
    && IsLargestRemainder(fee, Quotas(fee, GrossWeights(items)), FeesOf(nets))
    && (forall i :: 0 <= i < |items| ==> nets[i].candidate == items[i])
    && (forall i :: 0 <= i < |items| ==>
          if deduct then 0 < nets[i].net == items[i].gross - nets[i].fee else nets[i].net == items[i].gross)
  }

  /** One charge per fee: the loop body is deterministic in the fee. */
  lemma ChargesIsUnique(items: seq<Candidate>, deduct: bool, fee: int, a: seq<PreparedItem>, b: seq<PreparedItem>)
    requires Charges(items, deduct, fee, a) && Charges(items, deduct, fee, b)
    ensures a == b
  {
    hide IsLargestRemainder, Quotas;
    LargestRemainderIsUnique(fee, Quotas(fee, GrossWeights(items)), FeesOf(a), FeesOf(b));
    forall i | 0 <= i < |a| ensures a[i] == b[i] {
      assert FeesOf(a)[i] == FeesOf(b)[i];
    }
  }

  /** No unit appears or disappears between gross, fee and net. */
  lemma ChargesConserve(items: seq<Candidate>, deduct: bool, fee: int, nets: seq<PreparedItem>)
    requires Charges(items, deduct, fee, nets)
    ensures Sum(FeesOf(nets)) == fee
    ensures deduct ==> Sum(NetsOf(nets)) + fee == Sum(GrossOf(items))
    ensures !deduct ==> Sum(NetsOf(nets)) == Sum(GrossOf(items))
  {
    if deduct {
      SumZip(NetsOf(nets), FeesOf(nets), GrossOf(items));
    } else {
      assert NetsOf(nets) == GrossOf(items);
    }
  }

  /** Each item's address is asked to get its gross amount. */
  ghost predicate AsksGross(outputs: seq<Output>, items: seq<Candidate>) {
    && |outputs| == |items|
    && forall i :: 0 <= i < |items| ==> outputs[i].address == items[i].address && outputs[i].amount == items[i].gross
  }

  /** Each item's address is asked to get its net amount. */
  ghost predicate AsksNet(outputs: seq<Output>, items: seq<Candidate>, nets: seq<PreparedItem>) {
    && |outputs| == |items| == |nets|
    && forall i :: 0 <= i < |items| ==> outputs[i].address == items[i].address && outputs[i].amount == nets[i].net
  }

  /** The fee of a quote in atomic units: coins rounded up to whole satoshi, or the sum of the fee list. */
  ghost predicate QuotesFee(q: Quote, fee: int) {
    match q
    case Bitcoin(_, coinFee) => (fee - 1) as real < coinFee * 100000000.0 <= fee as real
    case Monero(_, _, fees) => fee == Sum(fees)
  }

  lemma FeeOfQuote(q: Quote)
    ensures QuotesFee(q, FeeOf(q))
  {
  }

  lemma AskedOutputs(items: seq<Candidate>, deduct: bool, fee: int, nets: seq<PreparedItem>)
    ensures AsksGross(GrossOutputs(items), items)
    ensures Charges(items, deduct, fee, nets) ==> AsksNet(NetOutputs(nets), items, nets)
  {
  }

  /** The loop's history: the first call asked for the gross amounts; trial k was charged at `fees[k]`, and
      asking the wallet for its net outputs on call k + 1 gave the fee `fees[k + 1]`. */
  ghost predicate Trials(items: seq<Candidate>, deduct: bool, wallet: Wallet, fees: seq<int>,
                         trials: seq<seq<PreparedItem>>) {
    && |fees| == |trials| + 1
    && FirstAnswer(items, wallet, fees[0])
    && (forall k :: 0 <= k < |trials| ==> Charges(items, deduct, fees[k], trials[k]))
    && (forall k :: 0 <= k < |trials| ==> TrialAnswer(items, wallet, k, trials[k], fees[k + 1]))
  }

  ghost predicate Quoted(q: Option<Quote>, fee: int) {
    q.Some? && QuotesFee(q.value, fee)
  }

  ghost predicate FirstAnswer(items: seq<Candidate>, wallet: Wallet, fee: int) {
    exists outputs :: AsksGross(outputs, items) && Quoted(wallet(0, outputs), fee)
  }

  ghost predicate TrialAnswer(items: seq<Candidate>, wallet: Wallet, k: nat, nets: seq<PreparedItem>, fee: int) {
    exists outputs :: AsksNet(outputs, items, nets) && Quoted(wallet(k + 1, outputs), fee)
  }

  /** Call k + 1 throws for outputs charged at this fee. */
  ghost predicate TrialFails(items: seq<Candidate>, deduct: bool, wallet: Wallet, k: nat, fee: int) {
    exists nets, outputs ::
      Charges(items, deduct, fee, nets) && AsksNet(outputs, items, nets) && wallet(k + 1, outputs).None?
  }

  /** The first call throws. */
  ghost predicate FirstFails(items: seq<Candidate>, wallet: Wallet) {
    exists outputs :: AsksGross(outputs, items) && wallet(0, outputs).None?
  }

  /** The quote is the wallet's answer, on call k, to the net outputs of these items. */
  ghost predicate QuoteFor(items: seq<Candidate>, wallet: Wallet, k: nat, p: Prepared) {
    exists outputs :: AsksNet(outputs, items, p.items) && wallet(k, outputs) == Some(p.quote)
  }

  /** Only a fixpoint is returned: the fee charged to the items is the fee of the very transaction
      that the wallet funded for their net outputs. Giving up means four trials, none of them
      a fixpoint; stopping earlier means that a wallet call threw or that the last fee admits no charge at all. */
  method Converge(items: seq<Candidate>, deduct: bool, wallet: Wallet)
    returns (r: Result<Prepared, FeeError>, ghost fees: seq<int>, ghost trials: seq<seq<PreparedItem>>)
    requires DistinctIds(items)
    ensures |items| == 0 <==> r == Err(NoItems)
    ensures |items| > 0 ==>
      (r == Err(WalletFailed) && FirstFails(items, wallet)) || Trials(items, deduct, wallet, fees, trials)
    ensures |items| > 0 && !FirstFails(items, wallet) ==>
      && Trials(items, deduct, wallet, fees, trials) && |trials| <= 4
      && (forall k :: 0 <= k < |trials| - 1 ==> fees[k] != fees[k + 1])
      && (r == Err(NotConverged) ==> |trials| == 4 && fees[3] != fees[4])
      && (r == Err(WalletFailed) ==> |trials| < 4 && TrialFails(items, deduct, wallet, |trials|, fees[|trials|]))
      && (r.Err? && r.error != NotConverged && r.error != WalletFailed ==>
            |trials| < 4 && forall nets :: !Charges(items, deduct, fees[|trials|], nets))
    ensures r.Ok? ==>
      && |trials| > 0 && |fees| == |trials| + 1 && fees[|trials| - 1] == fees[|trials|] == r.value.fee
      && r.value.items == trials[|trials| - 1]
      && QuoteFor(items, wallet, |trials|, r.value) && QuotesFee(r.value.quote, r.value.fee)
      && Charges(items, deduct, r.value.fee, r.value.items)
  {
    hide Charges, FeeOf, NetOutputs, GrossOutputs, DistinctIds, QuotesFee, AsksNet, AsksGross;
    fees, trials := [0], [];
    if |items| == 0 {
      return Err(NoItems), fees, trials;
    }
    AskedOutputs(items, deduct, 0, []);
    var preliminary := wallet(0, GrossOutputs(items));
    if preliminary.None? {
      return Err(WalletFailed), fees, trials;
    }
    var feeAtomic := FeeOf(preliminary.value);
    FeeOfQuote(preliminary.value);
    assert Quoted(wallet(0, GrossOutputs(items)), feeAtomic);
    assert FirstAnswer(items, wallet, feeAtomic);
    fees := [feeAtomic];
    var attempt := 0;
    while attempt < 4
      invariant 0 <= attempt <= 4
      invariant |trials| == attempt && Trials(items, deduct, wallet, fees, trials)
      invariant fees[attempt] == feeAtomic
      invariant forall k :: 0 <= k < |trials| ==> fees[k] != fees[k + 1]
    {
      var charged := Charge(items, deduct, feeAtomic);
      if charged.Err? {
        return Err(charged.error), fees, trials;
      }
      var netItems := charged.value;
      AskedOutputs(items, deduct, feeAtomic, netItems);
      var funded := wallet(attempt + 1, NetOutputs(netItems));
      if funded.None? {
        assert TrialFails(items, deduct, wallet, attempt, feeAtomic);
        return Err(WalletFailed), fees, trials;
      }
      var actualFee := FeeOf(funded.value);
      FeeOfQuote(funded.value);
      assert Quoted(wallet(attempt + 1, NetOutputs(netItems)), actualFee);
      assert TrialAnswer(items, wallet, attempt, netItems, actualFee);
      fees, trials := fees + [actualFee], trials + [netItems];
      if actualFee == feeAtomic {
        r := Ok(Prepared(feeAtomic, netItems, funded.value));
        assert QuoteFor(items, wallet, |trials|, r.value);
        return r, fees, trials;
      }
      feeAtomic := actualFee;
      attempt := attempt + 1;
    }
    return Err(NotConverged), fees, trials;
  }

  lemma ShareIsForced(items: seq<Candidate>, fee: int, nets: seq<PreparedItem>, amounts: seq<int>, i: nat)
    requires Charges(items, true, fee, nets) && i < |items| == |amounts|
    requires IsLargestRemainder(fee, Quotas(fee, GrossWeights(items)), amounts)
    ensures amounts[i] < items[i].gross
  {
    hide IsLargestRemainder, Quotas;
    LargestRemainderIsUnique(fee, Quotas(fee, GrossWeights(items)), FeesOf(nets), amounts);
    assert FeesOf(nets)[i] == amounts[i];
  }

  /** One loop body: apportion the fee, look each item's share up by id, and deduct it. */
  method Charge(items: seq<Candidate>, deduct: bool, feeAtomic: int) returns (r: Result<seq<PreparedItem>, FeeError>)
    requires |items| > 0 && DistinctIds(items)
    ensures r.Ok? ==> Charges(items, deduct, feeAtomic, r.value)
    ensures r.Err? ==> forall nets :: !Charges(items, deduct, feeAtomic, nets)
    ensures r.Err? ==> r.error.Unallocatable? || r.error.SmallerThanFee?
    ensures r.Err? && r.error.Unallocatable? <==> feeAtomic < 0 || SumReal(GrossWeights(items)) <= 0.0
  {
    hide IsLargestRemainder, Quotas;
    var weighted := seq(|items|, i requires 0 <= i < |items| => Weighted(items[i].id, items[i].gross as real));
    assert Weights(weighted) == GrossWeights(items);
    var fees := LargestRemainder(feeAtomic, weighted);
    if fees.Err? {
      return Err(Unallocatable(fees.error));
    }
    var feeMap: map<nat, int> := map[];
    for i := 0 to |items|
      invariant forall k :: 0 <= k < i ==> items[k].id in feeMap && feeMap[items[k].id] == fees.value[k].amount
    {
      feeMap := feeMap[fees.value[i].key := fees.value[i].amount];
    }
    var netItems: seq<PreparedItem> := [];
    for i := 0 to |items|
      invariant |netItems| == i
      invariant forall k :: 0 <= k < i ==>
        && netItems[k].candidate == items[k] && netItems[k].fee == fees.value[k].amount
        && (if deduct then 0 < netItems[k].net == items[k].gross - netItems[k].fee
            else netItems[k].net == items[k].gross)
    {
      var share := if items[i].id in feeMap then feeMap[items[i].id] else 0;
      if deduct && share >= items[i].gross {
        forall nets | Charges(items, deduct, feeAtomic, nets) ensures false {
          ShareIsForced(items, feeAtomic, nets, AmountsOf(fees.value), i);
        }
        return Err(SmallerThanFee(items[i].id));
      }
      netItems := netItems + [PreparedItem(items[i], share, if deduct then items[i].gross - share else items[i].gross)];
    }
    assert FeesOf(netItems) == AmountsOf(fees.value);
    return Ok(netItems);
  }

  // ---------------------------------------------------------------- Monero specifics

  datatype MoneroError = Fees(error: FeeError) | NoMetadata | UnstableIds

  /** The Monero adapter accepts a converged split exactly if it has metadata and one id per transaction blob. */
  method PrepareMonero(items: seq<Candidate>, deduct: bool, wallet: Wallet)
    returns (r: Result<Prepared, MoneroError>, ghost converged: Result<Prepared, FeeError>)
    requires DistinctIds(items)
    requires forall k, outputs :: wallet(k, outputs).Some? ==> wallet(k, outputs).value.Monero?
    ensures converged.Err? ==> r == Err(Fees(converged.error))
    ensures converged.Ok? ==>
      && Charges(items, deduct, converged.value.fee, converged.value.items) && converged.value.quote.Monero?
      && (exists k: nat :: QuoteFor(items, wallet, k, converged.value))
      && Sum(converged.value.quote.fees) == converged.value.fee
      && var blobs, ids := |converged.value.quote.metadata|, |converged.value.quote.txids|;
         r == if blobs == 0 then Err(NoMetadata) else if ids != blobs then Err(UnstableIds) else Ok(converged.value)
  {
    var c, fees, trials := Converge(items, deduct, wallet);
    converged := c;
    if c.Ok? {
      assert QuoteFor(items, wallet, |trials|, c.value);
    }
    if c.Err? {
      return Err(Fees(c.error)), c;
    }
    var quote := c.value.quote;
    if |quote.metadata| == 0 {
      return Err(NoMetadata), c;
    }
    if |quote.txids| != |quote.metadata| {
      return Err(UnstableIds), c;
    }
    return Ok(c.value), c;
  }

  /** A relay call either fails or reports a transaction hash, possibly none. */
  datatype Relay = Refused | Relayed(hash: Option<string>)

  /** `broadcast`: relay every blob in order; the loop stops at the first refusal, so what has been
      handed to the network is always a prefix of the payload, and all of it on success. */
  method RelayAll(metadata: seq<string>, txids: seq<string>, relay: (nat, string) -> Relay)
    returns (ids: Option<seq<string>>, relayed: nat)
    requires |txids| == |metadata|
    ensures relayed <= |metadata|
    ensures forall k :: 0 <= k < relayed ==> relay(k, metadata[k]).Relayed?
    ensures ids.Some? ==> relayed == |metadata|
    ensures ids.Some? ==>
      && |ids.value| == |metadata|
      && forall k :: 0 <= k < |metadata| ==> ids.value[k] == relay(k, metadata[k]).hash.GetOr(txids[k]) != ""
    ensures ids.None? ==>
      || (relayed < |metadata| && relay(relayed, metadata[relayed]).Refused?)
      || (relayed > 0 && relay(relayed - 1, metadata[relayed - 1]).hash.GetOr(txids[relayed - 1]) == "")
  {
    relayed := 0;
    var out: seq<string> := [];
    while relayed < |metadata|
      invariant relayed <= |metadata| && |out| == relayed
      invariant forall k :: 0 <= k < relayed ==> relay(k, metadata[k]).Relayed?
      invariant forall k :: 0 <= k < relayed ==> out[k] == relay(k, metadata[k]).hash.GetOr(txids[k]) != ""
    {
      var result := relay(relayed, metadata[relayed]);
      if result.Refused? {
        return None, relayed;
      }
      var txid := result.hash.GetOr(txids[relayed]);
      relayed := relayed + 1;
      if txid == "" {
        return None, relayed;
      }
      out := out + [txid];
    }
    return Some(out), relayed;
  }
}
