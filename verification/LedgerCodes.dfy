/**
 The two sets of books, code by code. What the line items of each of the eight codes add up to in an account is
 told again by the transaction records: outright payments, promises, receipts and refunds, made and received.
 The two agree after every step once what calls have under way is counted, and outright at rest.
 */
module LedgerCodes {
  import opened Amounts
  import opened Balances
  import opened LedgerAgreement
  import opened LedgerInvariant
  import opened LedgerSteps
  import opened Sums

  // The line items that a settlement puts into the accounts of its payer and its payee.
  function TakenEntry(amount: Amount, a: AccountUid, t: Settlement): int {
    match t
    case Receipt(note, receipted) =>
      if amount == Original(ReceivedReceipt) then Mine(a, note.debtor, note.value)
      else if amount == Settled(ReceivedReceipt) then Mine(a, note.debtor, receipted)
      else 0
    case Refund(note) => if amount == Original(SentRefund) then Mine(a, note.creditor, note.value) else 0
  }

  function GivenEntry(amount: Amount, a: AccountUid, t: Settlement): int {
    match t
    case Receipt(note, receipted) =>
      if amount == Original(SentReceipt) then Mine(a, note.creditor, note.value)
      else if amount == Settled(SentReceipt) then Mine(a, note.creditor, receipted)
      else 0
    case Refund(note) => if amount == Original(ReceivedRefund) then Mine(a, note.debtor, note.value) else 0
  }

  /** The line items that a record stands for. */
  function EntryOfRecord(amount: Amount, a: AccountUid, r: Record): int {
    match r.settles
    case Some(t) => TakenEntry(amount, a, t) + GivenEntry(amount, a, t)
    case None =>
      if amount == Original(if IsProvisional(r.state) then CurrentLiability else Debit) then Mine(a, r.debtor, r.value)
      else if amount == Original(if IsProvisional(r.state) then AccountReceivable else Credit)
      then Mine(a, r.creditor, r.value)
      else 0
  }

  /** The line items that a call has written beyond what the records say. */
  function EntryOfCall(amount: Amount, a: AccountUid, call: Call): int {
    match call
    case Paying(debtor, creditor, values, provisional, debited, credited, recorded, _) =>
      if amount == Original(if provisional then CurrentLiability else Debit)
      then Mine(a, debtor, Pending(values, recorded, debited))
      else if amount == Original(if provisional then AccountReceivable else Credit)
      then Mine(a, creditor, Pending(values, recorded, credited))
      else 0
    case Settling(t, stage) =>
      var taken := stage == Debited || stage == Credited || stage == Closed;
      var given := stage == Credited || stage == Closed;
      (if taken then TakenEntry(amount, a, t) else 0) + (if given then GivenEntry(amount, a, t) else 0)
  }

  function RecordEntry(amount: Amount, a: AccountUid): Record -> int {
    (r: Record) => EntryOfRecord(amount, a, r)
  }

  function CallEntry(amount: Amount, a: AccountUid): Call -> int {
    (call: Call) => EntryOfCall(amount, a, call)
  }

  ghost predicate CodeAgrees(s: Ledger, amount: Amount, a: AccountUid)
    requires a in s.items
  {
    Posted(amount, s.items[a]) == SumMap(s.records, RecordEntry(amount, a)) + SumMap(s.calls, CallEntry(amount, a))
  }

  // ------------------------------------------------------------ every step keeps it

  lemma LineKeepsCode(s: Ledger, x: AccountUid, line: Info, c: CallId, call: Call, amount: Amount, a: AccountUid)
    requires a in s.items && x in s.items && c in s.calls && CodeAgrees(s, amount, a)
    requires EntryOfCall(amount, a, call) == EntryOfCall(amount, a, s.calls[c]) + Mine(a, x, Entry(amount, line))
    ensures CodeAgrees(s.AddLine(x, line).SetCall(c, call), amount, a)
  {
    PostedAppend(amount, s.items[x], line);
    SumMapUpdate(s.calls, CallEntry(amount, a), c, call);
  }

  lemma NewRecordKeepsCode(s: Ledger, uid: NoteUid, r: Record, c: CallId, call: Call, amount: Amount, a: AccountUid)
    requires a in s.items && CodeAgrees(s, amount, a) && uid !in s.records && c in s.calls
    requires EntryOfCall(amount, a, call) == EntryOfCall(amount, a, s.calls[c]) - EntryOfRecord(amount, a, r)
    ensures CodeAgrees(s.AddRecord(uid, r).SetCall(c, call), amount, a)
  {
    SumMapInsert(s.records, RecordEntry(amount, a), uid, r);
    SumMapUpdate(s.calls, CallEntry(amount, a), c, call);
  }

  // A state changes within the states of a payment of its kind.
  lemma StateKeepsCode(s: Ledger, uid: NoteUid, state: RecordState, c: CallId, call: Call, amount: Amount,
                       a: AccountUid)
    requires a in s.items && CodeAgrees(s, amount, a) && uid in s.records
    requires IsProvisional(s.records[uid].state) == IsProvisional(state)
    requires EntryOfCall(amount, a, call) == At(s.calls, CallEntry(amount, a), c)
    ensures CodeAgrees(s.SetState(uid, state).SetCall(c, call), amount, a)
  {
    SumMapUpdate(s.records, RecordEntry(amount, a), uid, s.records[uid].(state := state));
    SumMapSet(s.calls, CallEntry(amount, a), c, call);
  }

  lemma DebitEntry(p: Call, amount: Amount, a: AccountUid)
    requires p.Paying? && Counted(p) && p.debited < |p.values|
    ensures EntryOfCall(amount, a, p.(debited := p.debited + 1)) ==
      EntryOfCall(amount, a, p) + Mine(a, p.debtor, Entry(amount, PaymentDebit(p.values[p.debited], p.provisional)))
  {
    PendingGrows(p.values, p.recorded, p.debited);
  }

  lemma CreditEntry(p: Call, amount: Amount, a: AccountUid)
    requires p.Paying? && Counted(p) && p.credited < p.debited
    ensures EntryOfCall(amount, a, p.(credited := p.credited + 1)) ==
      EntryOfCall(amount, a, p) + Mine(a, p.creditor, Entry(amount, PaymentCredit(p.values[p.credited], p.provisional)))
  {
    PendingGrows(p.values, p.recorded, p.credited);
  }

  lemma PartEntry(p: Call, amount: Amount, a: AccountUid)
    requires p.Paying? && Counted(p) && p.recorded < p.credited == |p.values|
    ensures EntryOfCall(amount, a, p.(recorded := p.recorded + 1)) ==
      EntryOfCall(amount, a, p) - EntryOfRecord(amount, a, PartRecord(p))
  {
    PendingShrinks(p.values, p.recorded, p.debited);
    PendingShrinks(p.values, p.recorded, p.credited);
  }

  lemma SettlementEntries(t: Settlement, amount: Amount, a: AccountUid)
    requires t.Admissible() && Transferable(t)
    ensures TakenEntry(amount, a, t) == Mine(a, t.Payer(), Entry(amount, t.DebitLine()))
    ensures GivenEntry(amount, a, t) == Mine(a, t.Payee(), Entry(amount, t.CreditLine()))
  {
  }

  lemma DebitKeepsCode(s: Ledger, c: CallId, amount: Amount, a: AccountUid)
    requires MayDebit(s, c) && Counted(s.calls[c]) && a in s.items && CodeAgrees(s, amount, a)
    ensures CodeAgrees(AfterDebit(s, c), amount, a)
  {
    var p := s.calls[c];
    DebitEntry(p, amount, a);
    LineKeepsCode(s, p.debtor, PaymentDebit(p.values[p.debited], p.provisional), c,
                  p.(debited := p.debited + 1), amount, a);
  }

  lemma CreditKeepsCode(s: Ledger, c: CallId, amount: Amount, a: AccountUid)
    requires MayCredit(s, c) && Counted(s.calls[c]) && a in s.items && CodeAgrees(s, amount, a)
    ensures CodeAgrees(AfterCredit(s, c), amount, a)
  {
    var p := s.calls[c];
    CreditEntry(p, amount, a);
    LineKeepsCode(s, p.creditor, PaymentCredit(p.values[p.credited], p.provisional), c,
                  p.(credited := p.credited + 1), amount, a);
  }

  lemma RecordPartKeepsCode(s: Ledger, c: CallId, amount: Amount, a: AccountUid)
    requires Valid(s) && MayRecord(s, c) && a in s.items && CodeAgrees(s, amount, a)
    ensures CodeAgrees(AfterRecord(s, c), amount, a)
  {
    var p := s.calls[c];
    var next, r, uid := p.(recorded := p.recorded + 1), PartRecord(p), NoteUid(c, p.recorded);
    assert uid !in s.records by { NewUidIsFresh(s, RecordPart(c)); }
    assert EntryOfCall(amount, a, next) == EntryOfCall(amount, a, p) - EntryOfRecord(amount, a, r) by {
      PartEntry(p, amount, a);
    }
    NewRecordKeepsCode(s, uid, r, c, next, amount, a);
  }

  lemma TakeKeepsCode(s: Ledger, c: CallId, amount: Amount, a: AccountUid)
    requires Valid(s) && MayTake(s, c) && a in s.items && CodeAgrees(s, amount, a)
    ensures CodeAgrees(AfterTake(s, c), amount, a)
  {
    var t := s.calls[c].settlement;
    SettlementEntries(t, amount, a);
    LineKeepsCode(s, t.Payer(), t.DebitLine(), c, Settling(t, Debited), amount, a);
  }

  lemma GiveKeepsCode(s: Ledger, c: CallId, amount: Amount, a: AccountUid)
    requires Valid(s) && MayGive(s, c) && a in s.items && CodeAgrees(s, amount, a)
    ensures CodeAgrees(AfterGive(s, c), amount, a)
  {
    var t := s.calls[c].settlement;
    SettlementEntries(t, amount, a);
    LineKeepsCode(s, t.Payee(), t.CreditLine(), c, Settling(t, Credited), amount, a);
  }

  lemma CloseKeepsCode(s: Ledger, c: CallId, amount: Amount, a: AccountUid)
    requires Valid(s) && MayClose(s, c) && a in s.items && CodeAgrees(s, amount, a)
    ensures CodeAgrees(AfterClose(s, c), amount, a)
  {
    var t := s.calls[c].settlement;
    StateKeepsCode(s, t.Transaction(), t.Done(), c, Settling(t, Closed), amount, a);
  }

  lemma FileKeepsCode(s: Ledger, c: CallId, amount: Amount, a: AccountUid)
    requires Valid(s) && SettlingAt(s, c, Closed) && a in s.items && CodeAgrees(s, amount, a)
    ensures CodeAgrees(AfterFile(s, c), amount, a)
  {
    var t := s.calls[c].settlement;
    assert NoteUid(c, 0) !in s.records by { NewUidIsFresh(s, FileRecord(c)); }
    NewRecordKeepsCode(s, NoteUid(c, 0), t.NewRecord(), c, Settling(t, Filed), amount, a);
  }

  lemma ClaimKeepsCode(s: Ledger, c: CallId, t: Settlement, amount: Amount, a: AccountUid)
    requires Valid(s) && MayClaim(s, c, t) && a in s.items && CodeAgrees(s, amount, a)
    ensures CodeAgrees(AfterClaim(s, c, t), amount, a)
  {
    StateKeepsCode(s, t.Transaction(), t.Busy(), c, Settling(t, Claimed), amount, a);
  }

  lemma RollBackKeepsCode(s: Ledger, c: CallId, amount: Amount, a: AccountUid)
    requires Valid(s) && MayRollBack(s, c) && a in s.items && CodeAgrees(s, amount, a)
    ensures CodeAgrees(AfterRollBack(s, c), amount, a)
  {
    var t := s.calls[c].settlement;
    StateKeepsCode(s, t.Transaction(), t.Expected(), c, Settling(t, Abandoned), amount, a);
  }

  lemma QuietKeepsCode(s: Ledger, step: Step, amount: Amount, a: AccountUid)
    requires Valid(s) && Enabled(s, step) && a in s.items && CodeAgrees(s, amount, a)
    requires step.StartPayment? || step.RefusePart?
    ensures CodeAgrees(Do(s, step), amount, a)
  {
    SumMapSet(s.calls, CallEntry(amount, a), step.call, Do(s, step).calls[step.call]);
  }

  lemma StepKeepsCode(s: Ledger, step: Step, amount: Amount, a: AccountUid)
    requires Valid(s) && Enabled(s, step) && a in s.items && CodeAgrees(s, amount, a)
    ensures a in Do(s, step).items && CodeAgrees(Do(s, step), amount, a)
  {
    match step
    case DebitPart(c) => DebitKeepsCode(s, c, amount, a);
    case CreditPart(c) => CreditKeepsCode(s, c, amount, a);
    case RecordPart(c) => RecordPartKeepsCode(s, c, amount, a);
    case Claim(c, t) => ClaimKeepsCode(s, c, t, amount, a);
    case RollBack(c) => RollBackKeepsCode(s, c, amount, a);
    case TakeValue(c) => TakeKeepsCode(s, c, amount, a);
    case GiveValue(c) => GiveKeepsCode(s, c, amount, a);
    case CloseRecord(c) => CloseKeepsCode(s, c, amount, a);
    case FileRecord(c) => FileKeepsCode(s, c, amount, a);
    case _ => QuietKeepsCode(s, step, amount, a);
  }

  lemma {:induction false} RunKeepsCode(s: Ledger, steps: seq<Step>, t: Ledger, amount: Amount, a: AccountUid)
    requires Valid(s) && a in s.items && CodeAgrees(s, amount, a) && Runs(s, steps, t)
    ensures a in t.items && CodeAgrees(t, amount, a)
    decreases |steps|
  {
    if steps != [] {
      StepKeepsCode(s, steps[0], amount, a);
      StepKeepsValid(s, steps[0]);
      RunKeepsCode(Do(s, steps[0]), steps[1..], t, amount, a);
    }
  }

  // ------------------------------------------------------------ settlements in their records

  // A record that settles another says who paid whom and how much.
  predicate SettlesAsFiled(r: Record) {
    r.settles.Some? ==>
      match r.settles.value
      case Receipt(note, receipted) => r.debtor == note.debtor && r.creditor == note.creditor && r.value == receipted
      case Refund(note) => r.debtor == note.creditor && r.creditor == note.debtor && r.value == note.value
  }

  predicate AllSettleAsFiled(s: Ledger) {
    forall uid :: uid in s.records ==> SettlesAsFiled(s.records[uid])
  }

  lemma {:induction false} RunKeepsFiled(s: Ledger, steps: seq<Step>, t: Ledger)
    requires Valid(s) && AllSettleAsFiled(s) && Runs(s, steps, t)
    ensures AllSettleAsFiled(t)
    decreases |steps|
  {
    if steps != [] {
      var next := Do(s, steps[0]);
      forall uid | uid in next.records ensures SettlesAsFiled(next.records[uid]) {
        if uid in s.records { RecordsOnlyMoveLegally(s, steps[0], uid); }
      }
      StepKeepsValid(s, steps[0]);
      RunKeepsFiled(next, steps[1..], t);
    }
  }

  // ------------------------------------------------------------ what the records alone say

  function OutrightBy(a: AccountUid): Record -> int {
    (r: Record) => if r.settles.None? && !IsProvisional(r.state) && r.debtor == a then r.value else 0
  }

  function OutrightTo(a: AccountUid): Record -> int {
    (r: Record) => if r.settles.None? && !IsProvisional(r.state) && r.creditor == a then r.value else 0
  }

  function ProvisionalBy(a: AccountUid): Record -> int {
    (r: Record) => if r.settles.None? && IsProvisional(r.state) && r.debtor == a then r.value else 0
  }

  function ProvisionalTo(a: AccountUid): Record -> int {
    (r: Record) => if r.settles.None? && IsProvisional(r.state) && r.creditor == a then r.value else 0
  }

  function ReceiptedBy(a: AccountUid): Record -> int {
    (r: Record) => if r.settles.Some? && r.settles.value.Receipt? && r.debtor == a then r.value else 0
  }

  function ReceiptedTo(a: AccountUid): Record -> int {
    (r: Record) => if r.settles.Some? && r.settles.value.Receipt? && r.creditor == a then r.value else 0
  }

  function ClosedBy(a: AccountUid): Record -> int {
    (r: Record) =>
      if r.settles.Some? && r.settles.value.Receipt? && r.debtor == a then r.settles.value.note.value else 0
  }

  function ClosedTo(a: AccountUid): Record -> int {
    (r: Record) =>
      if r.settles.Some? && r.settles.value.Receipt? && r.creditor == a then r.settles.value.note.value else 0
  }

  function RefundedBy(a: AccountUid): Record -> int {
    (r: Record) => if r.settles.Some? && r.settles.value.Refund? && r.debtor == a then r.value else 0
  }

  function RefundedTo(a: AccountUid): Record -> int {
    (r: Record) => if r.settles.Some? && r.settles.value.Refund? && r.creditor == a then r.value else 0
  }

  lemma FinishedWroteAll(call: Call, amount: Amount, a: AccountUid)
    requires Counted(call) && call.Finished()
    ensures EntryOfCall(amount, a, call) == 0
  {
  }

  lemma CodeAtRest(s: Ledger, steps: seq<Step>, t: Ledger, a: AccountUid, amount: Amount, told: Record -> int)
    requires s.Initial() && Runs(s, steps, t) && t.Quiescent() && a in s.items
    requires forall r: Record :: SettlesAsFiled(r) ==> EntryOfRecord(amount, a, r) == told(r)
    ensures a in t.items && Posted(amount, t.items[a]) == SumMap(t.records, told)
  {
    InitialValid(s);
    RunKeepsValid(s, steps, t);
    RunKeepsFiled(s, steps, t);
    assert CodeAgrees(s, amount, a);
    RunKeepsCode(s, steps, t, amount, a);
    forall c | c in t.calls ensures CallEntry(amount, a)(t.calls[c]) == 0 {
      FinishedWroteAll(t.calls[c], amount, a);
    }
    SumMapZero(t.calls, CallEntry(amount, a));
    forall uid | uid in t.records ensures RecordEntry(amount, a)(t.records[uid]) == told(t.records[uid]) {
      assert SettlesAsFiled(t.records[uid]);
    }
    SumMapCongruent(t.records, RecordEntry(amount, a), told);
  }

  /** Whenever no call is half way, debits and credits in an account are the outright payments the records say
      it made and received, and liabilities and receivables the provisional ones, settled or not. */
  lemma PaymentCodesAgree(s: Ledger, steps: seq<Step>, t: Ledger, a: AccountUid)
    requires s.Initial() && Runs(s, steps, t) && t.Quiescent() && a in s.items
    ensures a in t.items
    ensures Posted(Original(Debit), t.items[a]) == SumMap(t.records, OutrightBy(a))
    ensures Posted(Original(Credit), t.items[a]) == SumMap(t.records, OutrightTo(a))
    ensures Posted(Original(CurrentLiability), t.items[a]) == SumMap(t.records, ProvisionalBy(a))
    ensures Posted(Original(AccountReceivable), t.items[a]) == SumMap(t.records, ProvisionalTo(a))
  {
    CodeAtRest(s, steps, t, a, Original(Debit), OutrightBy(a));
    CodeAtRest(s, steps, t, a, Original(Credit), OutrightTo(a));
    CodeAtRest(s, steps, t, a, Original(CurrentLiability), ProvisionalBy(a));
    CodeAtRest(s, steps, t, a, Original(AccountReceivable), ProvisionalTo(a));
  }

  /** And receipts and refunds, received and sent, are those of the records: a receipt stands in the debtor's
      account as received and in the creditor's as sent, with the value promised and the value receipted; a
      refund as sent by the creditor and received by the debtor. */
  lemma SettlementCodesAgree(s: Ledger, steps: seq<Step>, t: Ledger, a: AccountUid)
    requires s.Initial() && Runs(s, steps, t) && t.Quiescent() && a in s.items
    ensures a in t.items
    ensures Posted(Settled(ReceivedReceipt), t.items[a]) == SumMap(t.records, ReceiptedBy(a))
    ensures Posted(Settled(SentReceipt), t.items[a]) == SumMap(t.records, ReceiptedTo(a))
    ensures Posted(Original(ReceivedReceipt), t.items[a]) == SumMap(t.records, ClosedBy(a))
    ensures Posted(Original(SentReceipt), t.items[a]) == SumMap(t.records, ClosedTo(a))
    ensures Posted(Original(SentRefund), t.items[a]) == SumMap(t.records, RefundedBy(a))
    ensures Posted(Original(ReceivedRefund), t.items[a]) == SumMap(t.records, RefundedTo(a))
  {
    CodeAtRest(s, steps, t, a, Settled(ReceivedReceipt), ReceiptedBy(a));
    CodeAtRest(s, steps, t, a, Settled(SentReceipt), ReceiptedTo(a));
    CodeAtRest(s, steps, t, a, Original(ReceivedReceipt), ClosedBy(a));
    CodeAtRest(s, steps, t, a, Original(SentReceipt), ClosedTo(a));
    CodeAtRest(s, steps, t, a, Original(SentRefund), RefundedBy(a));
    CodeAtRest(s, steps, t, a, Original(ReceivedRefund), RefundedTo(a));
  }
}
