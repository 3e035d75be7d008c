/**
 The two sets of books: an account's balance is told by its line items, and told again by the
 transaction records of the ledger. They agree after every step once the value still in the hands of
 calls is counted, and outright whenever no call is half way.
 */
module LedgerAgreement {
  import opened Amounts
  import opened Balances
  import opened LedgerInvariant
  import opened LedgerSteps
  import opened Sums

  // `v` when account `x` is the one asked about.
  function Mine(a: AccountUid, x: AccountUid, v: int): int {
    if a == x then v else 0
  }

  /** What one record says about account `a`: value moved, value promised, or, once receipted, nothing
      (the value then stands in the record of the receipt). */
  function ShareOfRecord(side: Side, a: AccountUid, r: Record): int {
    match r.state
    case Direct => if side == Funds then Mine(a, r.creditor, r.value) - Mine(a, r.debtor, r.value) else 0
    case Refunding => if side == Funds then Mine(a, r.creditor, r.value) - Mine(a, r.debtor, r.value) else 0
    case Refunded => if side == Funds then Mine(a, r.creditor, r.value) - Mine(a, r.debtor, r.value) else 0
    case Receipted => 0
    case _ =>
      if side == Liabilities then Mine(a, r.debtor, r.value)
      else if side == Receivables then Mine(a, r.creditor, r.value)
      else 0
  }

  /** What a call has written to account `a` beyond what the records say. */
  function ShareOfCall(side: Side, a: AccountUid, call: Call): int {
    match call
    case Paying(debtor, creditor, values, provisional, debited, credited, recorded, _) =>
      var out := Mine(a, debtor, Pending(values, recorded, debited));
      var back := Mine(a, creditor, Pending(values, recorded, credited));
      if provisional then (if side == Liabilities then out else if side == Receivables then back else 0)
      else if side == Funds then back - out
      else 0
    case Settling(t, stage) =>
      var taken := stage == Debited || stage == Credited || stage == Closed;
      var given := stage == Credited || stage == Closed;
      match side
      case Funds =>
        (if given then Mine(a, t.Payee(), t.Amount()) else 0) - (if taken then Mine(a, t.Payer(), t.Amount()) else 0)
      case Liabilities =>
        if t.Receipt? && taken && stage != Closed then -Mine(a, t.Payer(), t.note.value) else 0
      case Receivables =>
        if t.Receipt? && stage == Credited then -Mine(a, t.Payee(), t.note.value) else 0
  }

  function RecordShare(side: Side, a: AccountUid): Record -> int {
    (r: Record) => ShareOfRecord(side, a, r)
  }

  function CallShare(side: Side, a: AccountUid): Call -> int {
    (call: Call) => ShareOfCall(side, a, call)
  }

  ghost predicate BooksAgree(s: Ledger, side: Side, a: AccountUid)
    requires a in s.items
  {
    Replay(ZERO, s.items[a]).On(side) == SumMap(s.records, RecordShare(side, a)) + SumMap(s.calls, CallShare(side, a))
  }

  // Writing a line item and moving the call on by the same amount keeps the books in agreement.
  lemma LineKeepsBooks(s: Ledger, x: AccountUid, line: Info, c: CallId, call: Call, side: Side, a: AccountUid)
    requires a in s.items && x in s.items && c in s.calls && BooksAgree(s, side, a)
    requires ShareOfCall(side, a, call) == ShareOfCall(side, a, s.calls[c]) + Mine(a, x, Effect(side, line))
    ensures BooksAgree(s.AddLine(x, line).SetCall(c, call), side, a)
  {
    ReplayAppend(ZERO, s.items[x], line, side);
    SumMapUpdate(s.calls, CallShare(side, a), c, call);
  }

  // Moving an amount from what a call holds into a new record keeps the books in agreement.
  lemma NewRecordKeepsBooks(s: Ledger, uid: NoteUid, r: Record, c: CallId, call: Call, side: Side, a: AccountUid)
    requires a in s.items && BooksAgree(s, side, a) && uid !in s.records && c in s.calls
    requires ShareOfCall(side, a, call) == ShareOfCall(side, a, s.calls[c]) - ShareOfRecord(side, a, r)
    ensures BooksAgree(s.AddRecord(uid, r).SetCall(c, call), side, a)
  {
    SumMapInsert(s.records, RecordShare(side, a), uid, r);
    SumMapUpdate(s.calls, CallShare(side, a), c, call);
  }

  // So does moving an amount between what a call holds and an existing record.
  lemma StateKeepsBooks(s: Ledger, uid: NoteUid, state: RecordState, c: CallId, call: Call, side: Side, a: AccountUid)
    requires a in s.items && BooksAgree(s, side, a) && uid in s.records
    requires var r := s.records[uid];
      ShareOfCall(side, a, call) - At(s.calls, CallShare(side, a), c) ==
      ShareOfRecord(side, a, r) - ShareOfRecord(side, a, r.(state := state))
    ensures BooksAgree(s.SetState(uid, state).SetCall(c, call), side, a)
  {
    SumMapUpdate(s.records, RecordShare(side, a), uid, s.records[uid].(state := state));
    SumMapSet(s.calls, CallShare(side, a), c, call);
  }

  lemma DebitShare(p: Call, side: Side, a: AccountUid)
    requires p.Paying? && Counted(p) && p.debited < |p.values|
    ensures ShareOfCall(side, a, p.(debited := p.debited + 1)) ==
      ShareOfCall(side, a, p) + Mine(a, p.debtor, Effect(side, PaymentDebit(p.values[p.debited], p.provisional)))
  {
    PendingGrows(p.values, p.recorded, p.debited);
  }

  lemma CreditShare(p: Call, side: Side, a: AccountUid)
    requires p.Paying? && Counted(p) && p.credited < p.debited
    ensures ShareOfCall(side, a, p.(credited := p.credited + 1)) ==
      ShareOfCall(side, a, p) + Mine(a, p.creditor, Effect(side, PaymentCredit(p.values[p.credited], p.provisional)))
  {
    PendingGrows(p.values, p.recorded, p.credited);
  }

  lemma PartShare(p: Call, side: Side, a: AccountUid)
    requires p.Paying? && Counted(p) && p.recorded < p.credited == |p.values|
    ensures ShareOfCall(side, a, p.(recorded := p.recorded + 1)) ==
      ShareOfCall(side, a, p) - ShareOfRecord(side, a, PartRecord(p))
  {
    PendingShrinks(p.values, p.recorded, p.debited);
    PendingShrinks(p.values, p.recorded, p.credited);
  }

  lemma DebitKeepsBooks(s: Ledger, c: CallId, side: Side, a: AccountUid)
    requires MayDebit(s, c) && Counted(s.calls[c]) && a in s.items && BooksAgree(s, side, a)
    ensures BooksAgree(AfterDebit(s, c), side, a)
  {
    var p := s.calls[c];
    DebitShare(p, side, a);
    LineKeepsBooks(s, p.debtor, PaymentDebit(p.values[p.debited], p.provisional), c,
                   p.(debited := p.debited + 1), side, a);
  }

  lemma CreditKeepsBooks(s: Ledger, c: CallId, side: Side, a: AccountUid)
    requires MayCredit(s, c) && Counted(s.calls[c]) && a in s.items && BooksAgree(s, side, a)
    ensures BooksAgree(AfterCredit(s, c), side, a)
  {
    var p := s.calls[c];
    CreditShare(p, side, a);
    LineKeepsBooks(s, p.creditor, PaymentCredit(p.values[p.credited], p.provisional), c,
                   p.(credited := p.credited + 1), side, a);
  }

  lemma RecordPartKeepsBooks(s: Ledger, c: CallId, side: Side, a: AccountUid)
    requires Valid(s) && MayRecord(s, c) && a in s.items && BooksAgree(s, side, a)
    ensures BooksAgree(AfterRecord(s, c), side, a)
  {
    NewUidIsFresh(s, RecordPart(c));
    var p := s.calls[c];
    PartShare(p, side, a);
    NewRecordKeepsBooks(s, NoteUid(c, p.recorded), PartRecord(p), c, p.(recorded := p.recorded + 1), side, a);
  }

  lemma TakeShare(t: Settlement, side: Side, a: AccountUid)
    requires t.Admissible() && Transferable(t)
    ensures ShareOfCall(side, a, Settling(t, Debited)) ==
      ShareOfCall(side, a, Settling(t, Claimed)) + Mine(a, t.Payer(), Effect(side, t.DebitLine()))
  {
  }

  lemma GiveShare(t: Settlement, side: Side, a: AccountUid)
    requires t.Admissible() && Transferable(t)
    ensures ShareOfCall(side, a, Settling(t, Credited)) ==
      ShareOfCall(side, a, Settling(t, Debited)) + Mine(a, t.Payee(), Effect(side, t.CreditLine()))
  {
  }

  lemma CloseShare(t: Settlement, r: Record, side: Side, a: AccountUid)
    requires t.Matches(t.Transaction(), r) && r.state == t.Busy()
    ensures ShareOfCall(side, a, Settling(t, Closed)) - ShareOfCall(side, a, Settling(t, Credited)) ==
      ShareOfRecord(side, a, r) - ShareOfRecord(side, a, r.(state := t.Done()))
  {
  }

  lemma ClaimShare(t: Settlement, r: Record, side: Side, a: AccountUid)
    ensures ShareOfCall(side, a, Settling(t, Claimed)) == ShareOfCall(side, a, Settling(t, Abandoned)) == 0
    ensures ShareOfRecord(side, a, r.(state := t.Busy())) == ShareOfRecord(side, a, r.(state := t.Expected()))
  {
  }

  lemma FileShare(t: Settlement, side: Side, a: AccountUid)
    ensures ShareOfCall(side, a, Settling(t, Filed)) ==
      ShareOfCall(side, a, Settling(t, Closed)) - ShareOfRecord(side, a, t.NewRecord())
  {
  }

  lemma TakeKeepsBooks(s: Ledger, c: CallId, side: Side, a: AccountUid)
    requires Valid(s) && MayTake(s, c) && a in s.items && BooksAgree(s, side, a)
    ensures BooksAgree(AfterTake(s, c), side, a)
  {
    var t := s.calls[c].settlement;
    TakeShare(t, side, a);
    LineKeepsBooks(s, t.Payer(), t.DebitLine(), c, Settling(t, Debited), side, a);
  }

  lemma GiveKeepsBooks(s: Ledger, c: CallId, side: Side, a: AccountUid)
    requires Valid(s) && MayGive(s, c) && a in s.items && BooksAgree(s, side, a)
    ensures BooksAgree(AfterGive(s, c), side, a)
  {
    var t := s.calls[c].settlement;
    GiveShare(t, side, a);
    LineKeepsBooks(s, t.Payee(), t.CreditLine(), c, Settling(t, Credited), side, a);
  }

  lemma CloseKeepsBooks(s: Ledger, c: CallId, side: Side, a: AccountUid)
    requires Valid(s) && MayClose(s, c) && a in s.items && BooksAgree(s, side, a)
    ensures BooksAgree(AfterClose(s, c), side, a)
  {
    var t := s.calls[c].settlement;
    assert StageAgrees(s, s.calls[c]);
    CloseShare(t, s.records[t.Transaction()], side, a);
    StateKeepsBooks(s, t.Transaction(), t.Done(), c, Settling(t, Closed), side, a);
  }

  lemma FileKeepsBooks(s: Ledger, c: CallId, side: Side, a: AccountUid)
    requires Valid(s) && SettlingAt(s, c, Closed) && a in s.items && BooksAgree(s, side, a)
    ensures BooksAgree(AfterFile(s, c), side, a)
  {
    NewUidIsFresh(s, FileRecord(c));
    var t := s.calls[c].settlement;
    FileShare(t, side, a);
    NewRecordKeepsBooks(s, NoteUid(c, 0), t.NewRecord(), c, Settling(t, Filed), side, a);
  }

  // Taking and giving back a claim leaves the record's share and the call's share as they were.
  lemma ClaimKeepsBooks(s: Ledger, c: CallId, t: Settlement, side: Side, a: AccountUid)
    requires Valid(s) && MayClaim(s, c, t) && a in s.items && BooksAgree(s, side, a)
    ensures BooksAgree(AfterClaim(s, c, t), side, a)
  {
    ClaimShare(t, s.records[t.Transaction()], side, a);
    StateKeepsBooks(s, t.Transaction(), t.Busy(), c, Settling(t, Claimed), side, a);
  }

  lemma RollBackKeepsBooks(s: Ledger, c: CallId, side: Side, a: AccountUid)
    requires Valid(s) && MayRollBack(s, c) && a in s.items && BooksAgree(s, side, a)
    ensures BooksAgree(AfterRollBack(s, c), side, a)
  {
    var t := s.calls[c].settlement;
    ClaimShare(t, s.records[t.Transaction()], side, a);
    StateKeepsBooks(s, t.Transaction(), t.Expected(), c, Settling(t, Abandoned), side, a);
  }

  // Starting a payment, or refusing the rest of it, moves no value.
  lemma QuietKeepsBooks(s: Ledger, step: Step, side: Side, a: AccountUid)
    requires Valid(s) && Enabled(s, step) && a in s.items && BooksAgree(s, side, a)
    requires step.StartPayment? || step.RefusePart?
    ensures BooksAgree(Do(s, step), side, a)
  {
    SumMapSet(s.calls, CallShare(side, a), step.call, Do(s, step).calls[step.call]);
  }

  lemma StepKeepsBooks(s: Ledger, step: Step, side: Side, a: AccountUid)
    requires Valid(s) && Enabled(s, step) && a in s.items && BooksAgree(s, side, a)
    ensures a in Do(s, step).items && BooksAgree(Do(s, step), side, a)
  {
    match step
    case DebitPart(c) => DebitKeepsBooks(s, c, side, a);
    case CreditPart(c) => CreditKeepsBooks(s, c, side, a);
    case RecordPart(c) => RecordPartKeepsBooks(s, c, side, a);
    case Claim(c, t) => ClaimKeepsBooks(s, c, t, side, a);
    case RollBack(c) => RollBackKeepsBooks(s, c, side, a);
    case TakeValue(c) => TakeKeepsBooks(s, c, side, a);
    case GiveValue(c) => GiveKeepsBooks(s, c, side, a);
    case CloseRecord(c) => CloseKeepsBooks(s, c, side, a);
    case FileRecord(c) => FileKeepsBooks(s, c, side, a);
    case _ => QuietKeepsBooks(s, step, side, a);
  }

  /** The agreement holds at every point of every interleaving, not only when the ledger is at rest. */
  lemma {:induction false} RunKeepsBooks(s: Ledger, steps: seq<Step>, t: Ledger, side: Side, a: AccountUid)
    requires Valid(s) && a in s.items && BooksAgree(s, side, a) && Runs(s, steps, t)
    ensures a in t.items && BooksAgree(t, side, a)
    decreases |steps|
  {
    if steps != [] {
      StepKeepsBooks(s, steps[0], side, a);
      StepKeepsValid(s, steps[0]);
      RunKeepsBooks(Do(s, steps[0]), steps[1..], t, side, a);
    }
  }

  // ------------------------------------------------------------ what the records alone say

  predicate IsProvisional(state: RecordState) {
    state == Provisional || state == Receipting || state == Receipted
  }

  function NetMoved(a: AccountUid): Record -> int {
    (r: Record) =>
      if IsProvisional(r.state) then 0 else Mine(a, r.creditor, r.value) - Mine(a, r.debtor, r.value)
  }

  function PromisedBy(a: AccountUid): Record -> int {
    (r: Record) => if r.state == Provisional then Mine(a, r.debtor, r.value) else 0
  }

  function PromisedTo(a: AccountUid): Record -> int {
    (r: Record) => if r.state == Provisional then Mine(a, r.creditor, r.value) else 0
  }

  /** The account as an auditor reads it off the records: credits minus debits over the transactions
      that are not provisional, and the promises still open. */
  ghost function Audit(records: map<NoteUid, Record>, a: AccountUid): Balance {
    Balance(SumMap(records, NetMoved(a)), SumMap(records, PromisedBy(a)), SumMap(records, PromisedTo(a)))
  }

  lemma QuiescentMeansNoneBusy(s: Ledger, uid: NoteUid)
    requires Valid(s) && s.Quiescent() && uid in s.records
    ensures !IsBusy(s.records[uid].state)
  {
    assert forall c :: c in s.calls && s.calls[c].HoldsClaim() ==> !s.calls[c].Finished();
  }

  lemma FinishedHoldsNothing(call: Call, side: Side, a: AccountUid)
    requires Counted(call) && call.Finished()
    ensures ShareOfCall(side, a, call) == 0
  {
  }

  lemma RestingBooks(s: Ledger, side: Side, a: AccountUid)
    requires Valid(s) && s.Quiescent() && a in s.items && BooksAgree(s, side, a)
    ensures Replay(ZERO, s.items[a]).On(side) == SumMap(s.records, RecordShare(side, a))
  {
    forall c | c in s.calls ensures CallShare(side, a)(s.calls[c]) == 0 {
      FinishedHoldsNothing(s.calls[c], side, a);
    }
    SumMapZero(s.calls, CallShare(side, a));
  }

  lemma SharesAreAudited(s: Ledger, a: AccountUid)
    requires Valid(s) && s.Quiescent()
    ensures SumMap(s.records, RecordShare(Funds, a)) == SumMap(s.records, NetMoved(a))
    ensures SumMap(s.records, RecordShare(Liabilities, a)) == SumMap(s.records, PromisedBy(a))
    ensures SumMap(s.records, RecordShare(Receivables, a)) == SumMap(s.records, PromisedTo(a))
  {
    forall uid | uid in s.records
      ensures RecordShare(Funds, a)(s.records[uid]) == NetMoved(a)(s.records[uid])
      ensures RecordShare(Liabilities, a)(s.records[uid]) == PromisedBy(a)(s.records[uid])
      ensures RecordShare(Receivables, a)(s.records[uid]) == PromisedTo(a)(s.records[uid])
    {
      QuiescentMeansNoneBusy(s, uid);
    }
    SumMapCongruent(s.records, RecordShare(Funds, a), NetMoved(a));
    SumMapCongruent(s.records, RecordShare(Liabilities, a), PromisedBy(a));
    SumMapCongruent(s.records, RecordShare(Receivables, a), PromisedTo(a));
  }

  lemma InitialBooksAgree(s: Ledger, side: Side, a: AccountUid)
    requires s.Initial() && a in s.items
    ensures BooksAgree(s, side, a)
  {
  }

  /** Whenever no call is half way, an account's line items and the ledger's records tell the same
      balance, the same liability and the same receivable, and neither promise is negative. */
  lemma TwoBooksAgree(s: Ledger, steps: seq<Step>, t: Ledger, a: AccountUid)
    requires s.Initial() && Runs(s, steps, t) && t.Quiescent() && a in s.items
    ensures a in t.items
    ensures Replay(ZERO, t.items[a]) == Audit(t.records, a)
    ensures 0 <= Audit(t.records, a).liability && 0 <= Audit(t.records, a).receivable
  {
    InitialValid(s);
    RunKeepsValid(s, steps, t);
    forall side ensures a in t.items && Replay(ZERO, t.items[a]).On(side) == SumMap(t.records, RecordShare(side, a)) {
      InitialBooksAgree(s, side, a);
      RunKeepsBooks(s, steps, t, side, a);
      RestingBooks(t, side, a);
    }
    SharesAreAudited(t, a);
    assert Replay(ZERO, t.items[a]).On(Funds) == Audit(t.records, a).On(Funds);
    assert Replay(ZERO, t.items[a]).On(Liabilities) == Audit(t.records, a).On(Liabilities);
    assert Replay(ZERO, t.items[a]).On(Receivables) == Audit(t.records, a).On(Receivables);
    SumMapNonNegative(t.records, PromisedBy(a));
    SumMapNonNegative(t.records, PromisedTo(a));
  }
}
