/**
 The ledger as a transition system. Any number of calls of `perform`, `receipt` and `refund` are in
 progress at once; one step is one write to the object store by one call.
 */
module LedgerSteps {
  import opened Wrappers
  import opened Balances

  type AccountUid = nat
  type CallId = nat

  // A note's UID is drawn afresh for each note; here it names the call that drew it and its place in that call.
  datatype NoteUid = NoteUid(call: CallId, place: nat)

  datatype RecordState = Direct | Provisional | Receipting | Receipted | Refunding | Refunded

  datatype CreditNote = CreditNote(
    debitNote: NoteUid, debtor: AccountUid, creditor: AccountUid, value: int, provisional: bool)

  /** A receipt or a refund: both settle one earlier transaction, named by its credit note. */
  datatype Settlement = Receipt(note: CreditNote, receipted: int) | Refund(note: CreditNote) {

    // What the constructor of a receipt or a refund lets through.
    predicate Admissible() {
      Receipt? ==> note.provisional && 0 <= receipted <= note.value
    }

    function Transaction(): NoteUid {
      note.debitNote
    }

    // The states the settled transaction goes through.
    function Expected(): RecordState {
      if Receipt? then Provisional else Direct
    }

    function Busy(): RecordState {
      if Receipt? then Receipting else Refunding
    }

    function Done(): RecordState {
      if Receipt? then Receipted else Refunded
    }

    // A receipt moves value on to the creditor, a refund moves it back.
    function Payer(): AccountUid {
      if Receipt? then note.debtor else note.creditor
    }

    function Payee(): AccountUid {
      if Receipt? then note.creditor else note.debtor
    }

    function Amount(): int {
      if Receipt? then receipted else note.value
    }

    // `assert_matching_receipt` and `assert_matching_refund`.
    predicate Matches(uid: NoteUid, r: Record) {
      && note.debitNote == uid
      && note.debtor == r.debtor
      && note.creditor == r.creditor
      && note.value == r.value
    }

    function DebitLine(): Info
      requires Admissible() && 0 <= note.value <= MAX_TRANSACTION
    {
      if Receipt? then TransactionInfo(ReceivedReceipt, note.value, Some(receipted))
      else TransactionInfo(SentRefund, note.value, None)
    }

    function CreditLine(): Info
      requires Admissible() && 0 <= note.value <= MAX_TRANSACTION
    {
      if Receipt? then TransactionInfo(SentReceipt, note.value, Some(receipted))
      else TransactionInfo(ReceivedRefund, note.value, None)
    }

    // The transaction that a completed settlement adds to the ledger.
    function NewRecord(): Record {
      Record(Payer(), Payee(), Amount(), Direct, Some(this))
    }
  }

  datatype Record = Record(
    debtor: AccountUid, creditor: AccountUid, value: int, state: RecordState, settles: Option<Settlement>)

  function PaymentDebit(value: int, provisional: bool): Info
    requires 0 <= value <= MAX_TRANSACTION
  {
    TransactionInfo(if provisional then CurrentLiability else Debit, value, None)
  }

  function PaymentCredit(value: int, provisional: bool): Info
    requires 0 <= value <= MAX_TRANSACTION
  {
    TransactionInfo(if provisional then AccountReceivable else Credit, value, None)
  }

  predicate Payable(values: seq<int>) {
    forall i :: 0 <= i < |values| ==> 0 < values[i] <= MAX_TRANSACTION
  }

  // How far a settlement has got: the state moved to busy, value taken, value given, the state moved
  // to done, the new record written; or the state moved back because the settlement did not match.
  datatype Stage = Claimed | Debited | Credited | Closed | Filed | Abandoned

  /** A call in progress, or finished. */
  datatype Call =
    | Paying(debtor: AccountUid, creditor: AccountUid, values: seq<int>, provisional: bool,
             debited: nat, credited: nat, recorded: nat, refused: bool)
    | Settling(settlement: Settlement, stage: Stage)
  {
    predicate Live() {
      Settling? && stage != Abandoned
    }

    predicate HoldsClaim() {
      Settling? && (stage == Claimed || stage == Debited || stage == Credited)
    }

    // Nothing more to do, and no value left half way.
    predicate Finished() {
      match this
      case Paying(_, _, values, _, debited, _, recorded, refused) =>
        recorded == |values| || (refused && debited == 0)
      case Settling(_, stage) => stage == Filed || stage == Abandoned
    }
  }

  datatype Ledger = Ledger(
    items: map<AccountUid, seq<Info>>, records: map<NoteUid, Record>, calls: map<CallId, Call>)
  {
    predicate Initial() {
      records == map[] && calls == map[] && forall a :: a in items ==> items[a] == []
    }

    predicate Quiescent() {
      forall c :: c in calls ==> calls[c].Finished()
    }

    function AddLine(a: AccountUid, t: Info): Ledger
      requires a in items
    {
      this.(items := items[a := items[a] + [t]])
    }

    function SetState(uid: NoteUid, state: RecordState): Ledger
      requires uid in records
    {
      this.(records := records[uid := records[uid].(state := state)])
    }

    function AddRecord(uid: NoteUid, r: Record): Ledger {
      this.(records := records[uid := r])
    }

    function SetCall(c: CallId, call: Call): Ledger {
      this.(calls := calls[c := call])
    }
  }

  datatype Step =
    | StartPayment(call: CallId, debtor: AccountUid, creditor: AccountUid, values: seq<int>, provisional: bool)
    | DebitPart(call: CallId)
    | RefusePart(call: CallId)
    | CreditPart(call: CallId)
    | RecordPart(call: CallId)
    | Claim(call: CallId, settlement: Settlement)
    | RollBack(call: CallId)
    | TakeValue(call: CallId)
    | GiveValue(call: CallId)
    | CloseRecord(call: CallId)
    | FileRecord(call: CallId)

  predicate PayingAt(s: Ledger, c: CallId) {
    && c in s.calls && s.calls[c].Paying?
    && !s.calls[c].refused
    && Payable(s.calls[c].values)
    && s.calls[c].debtor in s.items && s.calls[c].creditor in s.items
  }

  predicate SettlingAt(s: Ledger, c: CallId, stage: Stage) {
    && c in s.calls && s.calls[c].Settling?
    && s.calls[c].stage == stage
    && s.calls[c].settlement.Admissible()
    && s.calls[c].settlement.Payer() in s.items && s.calls[c].settlement.Payee() in s.items
  }

  // The stored record a settlement is about is in the given state.
  predicate RecordIs(s: Ledger, t: Settlement, state: RecordState) {
    t.Transaction() in s.records && s.records[t.Transaction()].state == state
  }

  predicate RecordMatches(s: Ledger, t: Settlement) {
    t.Transaction() in s.records && t.Matches(t.Transaction(), s.records[t.Transaction()])
  }

  predicate Transferable(t: Settlement) {
    0 <= t.note.value <= MAX_TRANSACTION
  }

  predicate MayStart(s: Ledger, c: CallId, debtor: AccountUid, creditor: AccountUid, values: seq<int>) {
    c !in s.calls && values != [] && Payable(values) && debtor in s.items && creditor in s.items
  }

  predicate MayDebit(s: Ledger, c: CallId) {
    PayingAt(s, c) && s.calls[c].debited < |s.calls[c].values|
  }

  // `DebitNote._create_from_transaction`: one line item in the debtor's account.
  function AfterDebit(s: Ledger, c: CallId): Ledger
    requires MayDebit(s, c)
  {
    var p := s.calls[c];
    s.AddLine(p.debtor, PaymentDebit(p.values[p.debited], p.provisional)).SetCall(c, p.(debited := p.debited + 1))
  }

  predicate MayCredit(s: Ledger, c: CallId) {
    PayingAt(s, c) && s.calls[c].credited < s.calls[c].debited == |s.calls[c].values|
  }

  // `CreditNote._create_from_debit_note`: one line item in the creditor's account.
  function AfterCredit(s: Ledger, c: CallId): Ledger
    requires MayCredit(s, c)
  {
    var p := s.calls[c];
    s.AddLine(p.creditor, PaymentCredit(p.values[p.credited], p.provisional)).SetCall(c, p.(credited := p.credited + 1))
  }

  predicate MayRecord(s: Ledger, c: CallId) {
    PayingAt(s, c) && s.calls[c].recorded < s.calls[c].credited == |s.calls[c].values|
  }

  function PartRecord(p: Call): Record
    requires p.Paying? && p.recorded < |p.values|
  {
    Record(p.debtor, p.creditor, p.values[p.recorded], if p.provisional then Provisional else Direct, None)
  }

  // `_record_to_ledger`, for one pair of notes.
  function AfterRecord(s: Ledger, c: CallId): Ledger
    requires MayRecord(s, c)
  {
    var p := s.calls[c];
    s.AddRecord(NoteUid(c, p.recorded), PartRecord(p)).SetCall(c, p.(recorded := p.recorded + 1))
  }

  predicate MayClaim(s: Ledger, c: CallId, t: Settlement) {
    && c !in s.calls && t.Admissible() && t.Payer() in s.items && t.Payee() in s.items
    && RecordIs(s, t, t.Expected())
  }

  // `load_test_and_set`, from the expected state to the busy one.
  function AfterClaim(s: Ledger, c: CallId, t: Settlement): Ledger
    requires MayClaim(s, c, t)
  {
    s.SetState(t.Transaction(), t.Busy()).SetCall(c, Settling(t, Claimed))
  }

  predicate MayRollBack(s: Ledger, c: CallId) {
    && SettlingAt(s, c, Claimed)
    && var t := s.calls[c].settlement;
       RecordIs(s, t, t.Busy()) && !RecordMatches(s, t)
  }

  // The settlement does not match the transaction: its state is put back.
  function AfterRollBack(s: Ledger, c: CallId): Ledger
    requires MayRollBack(s, c)
  {
    var t := s.calls[c].settlement;
    s.SetState(t.Transaction(), t.Expected()).SetCall(c, Settling(t, Abandoned))
  }

  predicate MayTake(s: Ledger, c: CallId) {
    && SettlingAt(s, c, Claimed)
    && var t := s.calls[c].settlement;
       RecordMatches(s, t) && Transferable(t)
  }

  // `_debit_receipt` or `_debit_refund`.
  function AfterTake(s: Ledger, c: CallId): Ledger
    requires MayTake(s, c)
  {
    var t := s.calls[c].settlement;
    s.AddLine(t.Payer(), t.DebitLine()).SetCall(c, Settling(t, Debited))
  }

  predicate MayGive(s: Ledger, c: CallId) {
    && SettlingAt(s, c, Debited)
    && var t := s.calls[c].settlement;
       RecordIs(s, t, t.Busy()) && RecordMatches(s, t) && Transferable(t)
  }

  // `_credit_receipt` or `_credit_refund`, after checking state and match once more.
  function AfterGive(s: Ledger, c: CallId): Ledger
    requires MayGive(s, c)
  {
    var t := s.calls[c].settlement;
    s.AddLine(t.Payee(), t.CreditLine()).SetCall(c, Settling(t, Credited))
  }

  predicate MayClose(s: Ledger, c: CallId) {
    && SettlingAt(s, c, Credited)
    && var t := s.calls[c].settlement;
       RecordIs(s, t, t.Busy())
  }

  // `load_test_and_set`, from the busy state to the final one.
  function AfterClose(s: Ledger, c: CallId): Ledger
    requires MayClose(s, c)
  {
    var t := s.calls[c].settlement;
    s.SetState(t.Transaction(), t.Done()).SetCall(c, Settling(t, Closed))
  }

  // `_record_to_ledger`, for the transaction that carries the settlement.
  function AfterFile(s: Ledger, c: CallId): Ledger
    requires SettlingAt(s, c, Closed)
  {
    var t := s.calls[c].settlement;
    s.AddRecord(NoteUid(c, 0), t.NewRecord()).SetCall(c, Settling(t, Filed))
  }

  predicate Enabled(s: Ledger, step: Step) {
    match step
    case StartPayment(c, debtor, creditor, values, _) => MayStart(s, c, debtor, creditor, values)
    case DebitPart(c) => MayDebit(s, c)
    case RefusePart(c) => MayDebit(s, c)
    case CreditPart(c) => MayCredit(s, c)
    case RecordPart(c) => MayRecord(s, c)
    case Claim(c, t) => MayClaim(s, c, t)
    case RollBack(c) => MayRollBack(s, c)
    case TakeValue(c) => MayTake(s, c)
    case GiveValue(c) => MayGive(s, c)
    case CloseRecord(c) => MayClose(s, c)
    case FileRecord(c) => SettlingAt(s, c, Closed)
  }

  function Do(s: Ledger, step: Step): Ledger
    requires Enabled(s, step)
  {
    match step
    case StartPayment(c, debtor, creditor, values, provisional) =>
      s.SetCall(c, Paying(debtor, creditor, values, provisional, 0, 0, 0, false))
    case DebitPart(c) => AfterDebit(s, c)
    case RefusePart(c) => s.SetCall(c, s.calls[c].(refused := true))
    case CreditPart(c) => AfterCredit(s, c)
    case RecordPart(c) => AfterRecord(s, c)
    case Claim(c, t) => AfterClaim(s, c, t)
    case RollBack(c) => AfterRollBack(s, c)
    case TakeValue(c) => AfterTake(s, c)
    case GiveValue(c) => AfterGive(s, c)
    case CloseRecord(c) => AfterClose(s, c)
    case FileRecord(c) => AfterFile(s, c)
  }

  /** `t` is the ledger after the calls in `s` took the given steps, in any interleaving. */
  predicate Runs(s: Ledger, steps: seq<Step>, t: Ledger)
    decreases |steps|
  {
    if steps == [] then s == t
    else Enabled(s, steps[0]) && Runs(Do(s, steps[0]), steps[1..], t)
  }

  ghost predicate Reaches(s: Ledger, t: Ledger) {
    exists steps :: Runs(s, steps, t)
  }

  lemma ReachesSelf(s: Ledger)
    ensures Reaches(s, s)
  {
    assert Runs(s, [], s);
  }

  lemma {:induction false} RunsConcat(s: Ledger, first: seq<Step>, t: Ledger, second: seq<Step>, u: Ledger)
    requires Runs(s, first, t) && Runs(t, second, u)
    ensures Runs(s, first + second, u)
    decreases |first|
  {
    if first == [] {
      assert first + second == second;
    } else {
      var all := first + second;
      assert all[0] == first[0] && all[1..] == first[1..] + second;
      RunsConcat(Do(s, all[0]), first[1..], t, second, u);
    }
  }

  lemma ReachesStep(s: Ledger, t: Ledger, step: Step)
    requires Reaches(s, t) && Enabled(t, step)
    ensures Reaches(s, Do(t, step))
  {
    var steps :| Runs(s, steps, t);
    assert Runs(t, [step], Do(t, step));
    RunsConcat(s, steps, t, [step], Do(t, step));
  }
}
