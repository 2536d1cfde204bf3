/** The double-entry journal (apps/server/src/ledger/ledger.service.ts): balances as folds over
    entries, the guarded `post`, and the entries written for deposits, allocations and payouts.
    One asset; the other has books of its own. */
module Ledger {
  import opened Common

  /** Whoever a payout item belongs to: a customer, or the operator (a null customer id). */
  datatype Owner = Operator | Customer(id: nat)

  datatype Account =
    | Treasury
    | Clearing
    | Revenue
    | NetworkFee
    | FeeRecovery
    | Liability(customer: nat)

  function AccountOf(o: Owner): Account {
    match o
    case Operator => Revenue
    case Customer(id) => Liability(id)
  }

  datatype Direction = Debit | Credit

  datatype Entry = Entry(account: Account, direction: Direction, amount: int)

  /** Receipts are identified by transaction and output. */
  datatype DepositKey = DepositKey(txid: string, outputRef: string)

  /** The unique (type, referenceType, referenceId) of a journal transaction. */
  datatype Reference =
    | DepositOf(deposit: DepositKey)
    | AllocationOf(deposit: DepositKey)
    | CustomerPayout(batch: nat, customer: nat)
    | OperatorPayout(batch: nat)

  datatype Journal = Journal(reference: Reference, entries: seq<Entry>)

  /** A group of accounts whose entries are added up together. */
  datatype Side = One(account: Account) | Liabilities | Fees | Everything

  predicate Touches(side: Side, a: Account) {
    match side
    case One(account) => a == account
    case Liabilities => a.Liability?
    case Fees => a == NetworkFee || a == FeeRecovery
    case Everything => true
  }

  function Total(side: Side, d: Direction, entries: seq<Entry>): int {
    if |entries| == 0 then 0
    else
      var e := entries[|entries| - 1];
      Total(side, d, entries[..|entries| - 1]) + (if e.direction == d && Touches(side, e.account) then e.amount else 0)
  }

  /** Credits less debits of one journal transaction. */
  function Net(side: Side, entries: seq<Entry>): int {
    Total(side, Credit, entries) - Total(side, Debit, entries)
  }

  function DirectionTotal(side: Side, d: Direction, journal: seq<Journal>): int {
    if |journal| == 0 then 0
    else DirectionTotal(side, d, journal[..|journal| - 1]) + Total(side, d, journal[|journal| - 1].entries)
  }

  /** `customerBalance` and `operatorBalance` are this for the owner's account. */
  function Balance(side: Side, journal: seq<Journal>): int {
    DirectionTotal(side, Credit, journal) - DirectionTotal(side, Debit, journal)
  }

  function OwnerBalance(o: Owner, journal: seq<Journal>): int {
    Balance(One(AccountOf(o)), journal)
  }

  lemma BalanceAppend(side: Side, journal: seq<Journal>, j: Journal)
    ensures Balance(side, journal + [j]) == Balance(side, journal) + Net(side, j.entries)
  {
    assert (journal + [j])[..|journal|] == journal;
  }

  lemma {:induction false} TotalConcat(side: Side, d: Direction, a: seq<Entry>, b: seq<Entry>)
    ensures Total(side, d, a + b) == Total(side, d, a) + Total(side, d, b)
  {
    if |b| == 0 {
      assert a + b == a;
    } else {
      var n := |b| - 1;
      assert (a + b)[..|a + b| - 1] == a + b[..n];
      TotalConcat(side, d, a, b[..n]);
    }
  }

  /** Every entry falls on exactly one of these sides. */
  lemma {:induction false} Partition(d: Direction, entries: seq<Entry>)
    ensures Total(Everything, d, entries) ==
            Total(One(Treasury), d, entries) + Total(One(Clearing), d, entries) + Total(One(Revenue), d, entries)
            + Total(Fees, d, entries) + Total(Liabilities, d, entries)
  {
    if |entries| > 0 {
      Partition(d, entries[..|entries| - 1]);
    }
  }

  lemma {:induction false} PartitionJournal(d: Direction, journal: seq<Journal>)
    ensures DirectionTotal(Everything, d, journal) ==
            DirectionTotal(One(Treasury), d, journal) + DirectionTotal(One(Clearing), d, journal)
            + DirectionTotal(One(Revenue), d, journal) + DirectionTotal(Fees, d, journal)
            + DirectionTotal(Liabilities, d, journal)
  {
    if |journal| > 0 {
      PartitionJournal(d, journal[..|journal| - 1]);
      Partition(d, journal[|journal| - 1].entries);
    }
  }

  // ---------------------------------------------------------------- posting

  datatype PostError = Unbalanced(debit: int, credit: int) | DuplicateReference

  predicate Referenced(r: Reference, journal: seq<Journal>) {
    exists i :: 0 <= i < |journal| && journal[i].reference == r
  }

  /** `post`: equal, positive debit and credit totals, and a reference not used before. */
  function Post(journal: seq<Journal>, r: Reference, entries: seq<Entry>): (p: Result<seq<Journal>, PostError>)
    ensures p.Ok? ==> Net(Everything, entries) == 0 && Total(Everything, Debit, entries) > 0
    ensures p.Ok? ==> p.value == journal + [Journal(r, entries)] && !Referenced(r, journal)
    ensures p.Ok? <==>
      !Referenced(r, journal) && Total(Everything, Debit, entries) == Total(Everything, Credit, entries) > 0
  {
    var debit := Total(Everything, Debit, entries);
    var credit := Total(Everything, Credit, entries);
    if debit != credit || debit <= 0 then Err(Unbalanced(debit, credit))
    else if Referenced(r, journal) then Err(DuplicateReference)
    else Ok(journal + [Journal(r, entries)])
  }

  /** `post` as the source computes it, one pass over the entries per direction. */
  method Totals(entries: seq<Entry>) returns (debit: int, credit: int)
    ensures debit == Total(Everything, Debit, entries) && credit == Total(Everything, Credit, entries)
  {
    debit, credit := 0, 0;
    for i := 0 to |entries|
      invariant debit == Total(Everything, Debit, entries[..i]) && credit == Total(Everything, Credit, entries[..i])
    {
      assert entries[..i + 1][..i] == entries[..i];
      if entries[i].direction == Debit {
        debit := debit + entries[i].amount;
      } else {
        credit := credit + entries[i].amount;
      }
    }
    assert entries[..|entries|] == entries;
  }

  // ---------------------------------------------------------------- payouts

  /** Entries of `postPayout` and `postOperatorPayout`. */
  function PayoutEntries(o: Owner, gross: int, fee: int, operatorPaysFee: bool): seq<Entry> {
    var principal := [Entry(AccountOf(o), Debit, gross), Entry(Treasury, Credit, gross)];
    if fee <= 0 then principal
    else principal + [Entry(NetworkFee, Debit, fee),
                      Entry(if o.Customer? && operatorPaysFee then Treasury else FeeRecovery, Credit, fee)]
  }

  /** The fee that a payout leaves with the operator; a customer's fee is recovered at once. */
  function OperatorFee(o: Owner, fee: int, operatorPaysFee: bool): int {
    if fee > 0 && o.Customer? && operatorPaysFee then fee else 0
  }

  /** What a payout does to each group of accounts, in credits less debits. */
  function PayoutEffect(side: Side, o: Owner, gross: int, fee: int, operatorPaysFee: bool): int {
    var own := if Touches(side, AccountOf(o)) then -gross else 0;
    var kept := OperatorFee(o, fee, operatorPaysFee);
    match side
    case Everything => 0
    case One(Treasury) => gross + kept
    case One(NetworkFee) => if fee > 0 then -fee else 0
    case One(FeeRecovery) => if fee > 0 then fee - kept else 0
    case Fees => -kept
    case _ => own
  }

  lemma PayoutNet(side: Side, o: Owner, gross: int, fee: int, operatorPaysFee: bool)
    ensures Net(side, PayoutEntries(o, gross, fee, operatorPaysFee)) ==
      PayoutEffect(side, o, gross, fee, operatorPaysFee)
    ensures Total(Everything, Debit, PayoutEntries(o, gross, fee, operatorPaysFee)) ==
      gross + (if fee > 0 then fee else 0)
  {
    hide Total;
    var a, b := Entry(AccountOf(o), Debit, gross), Entry(Treasury, Credit, gross);
    PairTotals(side, a, b);
    PairTotals(Everything, a, b);
    if fee > 0 {
      var c, d := Entry(NetworkFee, Debit, fee),
        Entry(if o.Customer? && operatorPaysFee then Treasury else FeeRecovery, Credit, fee);
      PairTotals(side, c, d);
      PairTotals(Everything, c, d);
      TotalConcat(side, Debit, [a, b], [c, d]);
      TotalConcat(side, Credit, [a, b], [c, d]);
      TotalConcat(Everything, Debit, [a, b], [c, d]);
    }
  }

  lemma PairTotals(side: Side, a: Entry, b: Entry)
    requires a.direction == Debit && b.direction == Credit
    ensures Total(side, Debit, [a, b]) == if Touches(side, a.account) then a.amount else 0
    ensures Total(side, Credit, [a, b]) == if Touches(side, b.account) then b.amount else 0
  {
    hide Total;
    TotalOne(side, a);
    TotalOne(side, b);
    TotalConcat(side, Debit, [a], [b]);
    TotalConcat(side, Credit, [a], [b]);
    assert [a] + [b] == [a, b];
  }

  lemma TotalOne(side: Side, e: Entry)
    ensures forall d :: Total(side, d, [e]) == if e.direction == d && Touches(side, e.account) then e.amount else 0
  {
    assert [e][..0] == [];
  }
}
