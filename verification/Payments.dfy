/**
 Payments from end to end. A value is split into parts, the parts are paid provisionally, and every part is
 then receipted, the receipts adding up to all of the value or to part of it; or the parts are paid outright
 and every one of them is refunded.
 */
module Payments {
  import opened Amounts
  import opened Balances
  import opened LedgerService
  import opened LedgerSteps
  import opened Receipting
  import opened Splitting
  import opened Wrappers

  type Books = map<AccountUid, seq<Info>>

  /** What has changed for an account when `moved` has gone from debtor to creditor and `open` is still to be
      receipted. The debtor and the creditor may be the same. */
  function Change(side: Side, a: AccountUid, debtor: AccountUid, creditor: AccountUid, moved: int, open: int): int {
    match side
    case Funds => (if a == creditor then moved else 0) - (if a == debtor then moved else 0)
    case Liabilities => if a == debtor then open else 0
    case Receivables => if a == creditor then open else 0
  }

  predicate MovedAt(before: Books, after: Books, a: AccountUid, side: Side, debtor: AccountUid,
                    creditor: AccountUid, moved: int, open: int)
    requires a in before && a in after
  {
    Effects(side, after[a]) == Effects(side, before[a]) + Change(side, a, debtor, creditor, moved, open)
  }

  /** Every account has changed by just that, in every column. */
  predicate Moved(before: Books, after: Books, debtor: AccountUid, creditor: AccountUid, moved: int, open: int) {
    before.Keys == after.Keys &&
    forall a, side: Side | a in before :: MovedAt(before, after, a, side, debtor, creditor, moved, open)
  }

  lemma BalanceMoved(before: Books, after: Books, a: AccountUid, side: Side, debtor: AccountUid,
                     creditor: AccountUid, moved: int, open: int)
    requires Moved(before, after, debtor, creditor, moved, open) && a in before
    ensures Replay(ZERO, after[a]).On(side) ==
      Replay(ZERO, before[a]).On(side) + Change(side, a, debtor, creditor, moved, open)
  {
    assert MovedAt(before, after, a, side, debtor, creditor, moved, open);
    ReplayAddsEffects(ZERO, before[a], side);
    ReplayAddsEffects(ZERO, after[a], side);
  }

  /** What a move means for the balances of the two accounts. */
  lemma MovedBalances(before: Books, after: Books, debtor: AccountUid, creditor: AccountUid, moved: int)
    requires Moved(before, after, debtor, creditor, moved, 0) && debtor in before && creditor in before
        && debtor != creditor
    ensures var b, b' := Replay(ZERO, before[debtor]), Replay(ZERO, after[debtor]);
      b' == b.(balance := b.balance - moved)
    ensures var b, b' := Replay(ZERO, before[creditor]), Replay(ZERO, after[creditor]);
      b' == b.(balance := b.balance + moved)
  {
    var b, c := Replay(ZERO, before[debtor]), Replay(ZERO, before[creditor]);
    forall side ensures Replay(ZERO, after[debtor]).On(side) == b.(balance := b.balance - moved).On(side) {
      BalanceMoved(before, after, debtor, side, debtor, creditor, moved, 0);
    }
    forall side ensures Replay(ZERO, after[creditor]).On(side) == c.(balance := c.balance + moved).On(side) {
      BalanceMoved(before, after, creditor, side, debtor, creditor, moved, 0);
    }
    SameOnEverySide(Replay(ZERO, after[debtor]), b.(balance := b.balance - moved));
    SameOnEverySide(Replay(ZERO, after[creditor]), c.(balance := c.balance + moved));
  }

  // ------------------------------------------------------------ paying

  lemma OneLineAdds(history: seq<Info>, t: Info, side: Side)
    ensures Effects(side, history + [t]) == Effects(side, history) + Effect(side, t)
  {
    assert (history + [t])[..|history|] == history;
  }

  lemma {:induction false} DebitLinesAdd(values: seq<int>, provisional: bool, side: Side)
    requires Payable(values)
    ensures Effects(side, DebitLines(values, provisional)) ==
      if side == Liabilities && provisional then Sum(values)
      else if side == Funds && !provisional then -Sum(values)
      else 0
    decreases |values|
  {
    if |values| > 0 {
      var shorter, last := values[..|values| - 1], values[|values| - 1];
      DebitLinesAdd(shorter, provisional, side);
      OneLineAdds(DebitLines(shorter, provisional), PaymentDebit(last, provisional), side);
    }
  }

  lemma {:induction false} CreditLinesAdd(values: seq<int>, provisional: bool, side: Side)
    requires Payable(values)
    ensures Effects(side, CreditLines(values, provisional)) ==
      if side == Receivables && provisional then Sum(values)
      else if side == Funds && !provisional then Sum(values)
      else 0
    decreases |values|
  {
    if |values| > 0 {
      var shorter, last := values[..|values| - 1], values[|values| - 1];
      CreditLinesAdd(shorter, provisional, side);
      OneLineAdds(CreditLines(shorter, provisional), PaymentCredit(last, provisional), side);
    }
  }

  lemma EffectsPaid(history: seq<Info>, values: seq<int>, provisional: bool, a: AccountUid, side: Side,
                    debtor: AccountUid, creditor: AccountUid)
    requires Payable(values)
    ensures var debited := if a == debtor then history + DebitLines(values, provisional) else history;
      var paid := if a == creditor then debited + CreditLines(values, provisional) else debited;
      Effects(side, paid) == Effects(side, history) +
        Change(side, a, debtor, creditor,
               if provisional then 0 else Sum(values), if provisional then Sum(values) else 0)
  {
    var debits, credits := DebitLines(values, provisional), CreditLines(values, provisional);
    var debited := if a == debtor then history + debits else history;
    DebitLinesAdd(values, provisional, side);
    CreditLinesAdd(values, provisional, side);
    EffectsConcat(side, history, debits);
    EffectsConcat(side, debited, credits);
  }

  /** A payment moves its value, or opens it on both sides when it is provisional. */
  lemma PaymentMoves(items: Books, debtor: AccountUid, creditor: AccountUid, values: seq<int>, provisional: bool)
    requires Payable(values) && debtor in items && creditor in items
    ensures Moved(items, PaidItems(items, debtor, creditor, values, provisional), debtor, creditor,
                  if provisional then 0 else Sum(values), if provisional then Sum(values) else 0)
  {
    var after := PaidItems(items, debtor, creditor, values, provisional);
    forall a, side: Side | a in items
      ensures Effects(side, after[a]) == Effects(side, items[a]) +
        Change(side, a, debtor, creditor,
               if provisional then 0 else Sum(values), if provisional then Sum(values) else 0)
    {
      EffectsPaid(items[a], values, provisional, a, side, debtor, creditor);
    }
  }

  // ------------------------------------------------------------ receipting and refunding

  // What a receipt or a refund moves from debtor to creditor, and what it opens.
  function MovedBy(t: Settlement): int {
    if t.Receipt? then t.receipted else -t.note.value
  }

  function OpenedBy(t: Settlement): int {
    if t.Receipt? then -t.note.value else 0
  }

  lemma SettlementChanges(t: Settlement, a: AccountUid, side: Side)
    requires t.Admissible() && Transferable(t)
    ensures (if a == t.Payer() then Effect(side, t.DebitLine()) else 0) +
      (if a == t.Payee() then Effect(side, t.CreditLine()) else 0) ==
      Change(side, a, t.note.debtor, t.note.creditor, MovedBy(t), OpenedBy(t))
  {
  }

  lemma EffectsSettled(history: seq<Info>, t: Settlement, a: AccountUid, side: Side)
    requires t.Admissible() && Transferable(t)
    ensures var taken := if a == t.Payer() then history + [t.DebitLine()] else history;
      var given := if a == t.Payee() then taken + [t.CreditLine()] else taken;
      Effects(side, given) ==
        Effects(side, history) + Change(side, a, t.note.debtor, t.note.creditor, MovedBy(t), OpenedBy(t))
  {
    var taken := if a == t.Payer() then history + [t.DebitLine()] else history;
    var paid := if a == t.Payer() then Effect(side, t.DebitLine()) else 0;
    assert Effects(side, taken) == Effects(side, history) + paid by {
      OneLineAdds(history, t.DebitLine(), side);
    }
    OneLineAdds(taken, t.CreditLine(), side);
    SettlementChanges(t, a, side);
  }

  /** A receipt moves the receipted value and closes the original value on both sides; a refund moves the
      value back. */
  lemma SettlementMoves(items: Books, t: Settlement)
    requires t.Admissible() && Transferable(t) && t.Payer() in items && t.Payee() in items
    ensures Moved(items, SettledItems(items, t), t.note.debtor, t.note.creditor, MovedBy(t), OpenedBy(t))
  {
    forall a, side: Side | a in items
      ensures MovedAt(items, SettledItems(items, t), a, side, t.note.debtor, t.note.creditor, MovedBy(t), OpenedBy(t))
    {
      EffectsSettled(items[a], t, a, side);
    }
  }

  // Receipts and refunds of payments between two accounts.
  predicate Between(settlements: seq<Settlement>, debtor: AccountUid, creditor: AccountUid) {
    forall i :: 0 <= i < |settlements| ==>
      var t := settlements[i];
      t.Admissible() && Transferable(t) && t.note.debtor == debtor && t.note.creditor == creditor
  }

  /** The books after each of the first `n` settlements in turn, before any of them first. */
  predicate Course(books: seq<Books>, settlements: seq<Settlement>, n: nat, debtor: AccountUid, creditor: AccountUid) {
    && Between(settlements, debtor, creditor)
    && n <= |settlements| && |books| == n + 1
    && (forall i :: 0 <= i < |books| ==> debtor in books[i] && creditor in books[i])
    && forall i :: 0 <= i < n ==> books[i + 1] == SettledItems(books[i], settlements[i])
  }

  lemma CourseBegins(items: Books, settlements: seq<Settlement>, debtor: AccountUid, creditor: AccountUid)
    requires Between(settlements, debtor, creditor) && debtor in items && creditor in items
    ensures Course([items], settlements, 0, debtor, creditor)
  {
  }

  lemma CourseGoesOn(books: seq<Books>, settlements: seq<Settlement>, n: nat, debtor: AccountUid, creditor: AccountUid)
    requires Course(books, settlements, n, debtor, creditor) && n < |settlements|
    ensures Course(books + [SettledItems(books[n], settlements[n])], settlements, n + 1, debtor, creditor)
  {
    var longer := books + [SettledItems(books[n], settlements[n])];
    forall i | 0 <= i < n + 1 ensures longer[i + 1] == SettledItems(longer[i], settlements[i]) {
      if i < n {
        assert longer[i + 1] == books[i + 1] && longer[i] == books[i];
      }
    }
  }

  function MovedByFirst(settlements: seq<Settlement>, n: nat): int
    requires n <= |settlements|
  {
    if n == 0 then 0 else MovedByFirst(settlements, n - 1) + MovedBy(settlements[n - 1])
  }

  function OpenedByFirst(settlements: seq<Settlement>, n: nat): int
    requires n <= |settlements|
  {
    if n == 0 then 0 else OpenedByFirst(settlements, n - 1) + OpenedBy(settlements[n - 1])
  }

  lemma {:induction false} SameAccounts(books: seq<Books>, settlements: seq<Settlement>, n: nat,
                                        debtor: AccountUid, creditor: AccountUid)
    requires Course(books, settlements, |settlements|, debtor, creditor) && n <= |settlements|
    ensures books[n].Keys == books[0].Keys
    decreases n
  {
    if n > 0 {
      SameAccounts(books, settlements, n - 1, debtor, creditor);
      assert books[n - 1 + 1] == SettledItems(books[n - 1], settlements[n - 1]);
    }
  }

  lemma MovedAfterwards(items: Books, paid: Books, settled: Books, a: AccountUid, side: Side, debtor: AccountUid,
                        creditor: AccountUid,
                        moved: int, open: int, m: int, o: int)
    requires a in items && a in paid && a in settled
    requires MovedAt(items, paid, a, side, debtor, creditor, moved, open)
    requires MovedAt(paid, settled, a, side, debtor, creditor, m, o)
    ensures MovedAt(items, settled, a, side, debtor, creditor, moved + m, open + o)
  {
  }

  // In one account and one column at a time.
  lemma {:induction false} SettlingMoves(books: seq<Books>, settlements: seq<Settlement>, n: nat,
                                         debtor: AccountUid, creditor: AccountUid, a: AccountUid, side: Side)
    requires Course(books, settlements, |settlements|, debtor, creditor)
    requires n <= |settlements| && a in books[0] && a in books[n]
    ensures MovedAt(books[0], books[n], a, side, debtor, creditor,
                    MovedByFirst(settlements, n), OpenedByFirst(settlements, n))
    decreases n
  {
    if n > 0 {
      SameAccounts(books, settlements, n - 1, debtor, creditor);
      SettlingMoves(books, settlements, n - 1, debtor, creditor, a, side);
      assert books[n - 1 + 1] == SettledItems(books[n - 1], settlements[n - 1]);
      SettlementMoves(books[n - 1], settlements[n - 1]);
      MovedAfterwards(books[0], books[n - 1], books[n], a, side, debtor, creditor,
                      MovedByFirst(settlements, n - 1), OpenedByFirst(settlements, n - 1),
                      MovedBy(settlements[n - 1]), OpenedBy(settlements[n - 1]));
    }
  }

  // A payment and what comes after it add up.
  lemma MovesAdd(items: Books, paid: Books, settled: Books, debtor: AccountUid, creditor: AccountUid,
                 moved: int, open: int, m: int, o: int)
    requires Moved(items, paid, debtor, creditor, moved, open) && Moved(paid, settled, debtor, creditor, m, o)
    ensures Moved(items, settled, debtor, creditor, moved + m, open + o)
  {
    forall a, side: Side | a in items
      ensures Effects(side, settled[a]) ==
        Effects(side, items[a]) + Change(side, a, debtor, creditor, moved + m, open + o)
    {
      assert MovedAt(items, paid, a, side, debtor, creditor, moved, open);
      assert MovedAt(paid, settled, a, side, debtor, creditor, m, o);
      MovedAfterwards(items, paid, settled, a, side, debtor, creditor, moved, open, m, o);
    }
  }

  lemma AllSettlingMoves(books: seq<Books>, settlements: seq<Settlement>,
                         debtor: AccountUid, creditor: AccountUid, m: int, o: int)
    requires Course(books, settlements, |settlements|, debtor, creditor)
    requires m == MovedByFirst(settlements, |settlements|) && o == OpenedByFirst(settlements, |settlements|)
    ensures Moved(books[0], books[|settlements|], debtor, creditor, m, o)
  {
    var n := |settlements|;
    SameAccounts(books, settlements, n, debtor, creditor);
    forall a, side: Side | a in books[0]
      ensures Effects(side, books[n][a]) == Effects(side, books[0][a]) + Change(side, a, debtor, creditor, m, o)
    {
      SettlingMoves(books, settlements, n, debtor, creditor, a, side);
    }
  }

  // ------------------------------------------------------------ settling every part of a payment

  function NotesOf(c: CallId, debtor: AccountUid, creditor: AccountUid, values: seq<int>, provisional: bool)
    : (notes: seq<CreditNote>)
    ensures |notes| == |values|
  {
    seq(|values|, i requires 0 <= i < |values| => CreditNote(NoteUid(c, i), debtor, creditor, values[i], provisional))
  }

  // The notes from `i` on have not been settled.
  predicate Waiting(records: map<NoteUid, Record>, notes: seq<CreditNote>, i: nat) {
    forall j :: i <= j < |notes| ==>
      && notes[j].debitNote in records
      && var r := records[notes[j].debitNote];
      && r.debtor == notes[j].debtor && r.creditor == notes[j].creditor && r.value == notes[j].value
      && r.state == (if notes[j].provisional then Provisional else Direct)
  }

  predicate DistinctNotes(notes: seq<CreditNote>) {
    forall i, j :: 0 <= i < j < |notes| ==> notes[i].debitNote != notes[j].debitNote
  }

  // Each note is settled: receipted when it is provisional, refunded when it is not.
  predicate Answers(settlements: seq<Settlement>, notes: seq<CreditNote>) {
    && |settlements| == |notes|
    && forall i :: 0 <= i < |notes| ==>
        settlements[i].note == notes[i] && (settlements[i].Receipt? <==> notes[i].provisional)
  }

  lemma PaidNotesWait(records: map<NoteUid, Record>, c: CallId, debtor: AccountUid, creditor: AccountUid,
                      values: seq<int>, provisional: bool)
    ensures var p := Paying(debtor, creditor, values, provisional, 0, 0, 0, false);
      Waiting(records + PaymentRecords(c, p, |values|), NotesOf(c, debtor, creditor, values, provisional), 0)
  {
  }

  lemma SettledNoteWaitsNoMore(records: map<NoteUid, Record>, notes: seq<CreditNote>, i: nat, t: Settlement,
                               uid: NoteUid)
    requires Waiting(records, notes, i) && DistinctNotes(notes) && i < |notes| && t.note == notes[i] && uid !in records
    ensures Waiting(SettledRecords(records, t, uid), notes, i + 1)
  {
    forall j | i + 1 <= j < |notes|
      ensures notes[j].debitNote in SettledRecords(records, t, uid)
      ensures SettledRecords(records, t, uid)[notes[j].debitNote] == records[notes[j].debitNote]
    {
      assert notes[j].debitNote != uid && notes[j].debitNote != notes[i].debitNote;
    }
  }

  lemma WaitingIsSettleable(items: Books, records: map<NoteUid, Record>, notes: seq<CreditNote>, i: nat, t: Settlement)
    requires Waiting(records, notes, i) && i < |notes| && t.note == notes[i] && (t.Receipt? <==> notes[i].provisional)
    requires t.Admissible() && t.Payer() in items && t.Payee() in items
    ensures Settleable(items, records, t)
  {
  }

  // One settlement goes through.
  method SettleOne(ledger: LedgerService, notes: seq<CreditNote>, i: nat, t: Settlement)
    requires ledger.Valid() && i < |notes| && t.note == notes[i] && (t.Receipt? <==> notes[i].provisional)
    requires t.Admissible() && Transferable(t) && t.Payer() in ledger.items && t.Payee() in ledger.items
    requires Waiting(ledger.records, notes, i) && DistinctNotes(notes)
    modifies ledger
    ensures ledger.Valid() && ledger.limits == old(ledger.limits)
    ensures Waiting(ledger.records, notes, i + 1)
    ensures ledger.items == SettledItems(old(ledger.items), t)
    ensures old(ledger.state).Quiescent() ==> ledger.state.Quiescent()
  {
    ghost var records := ledger.records;
    WaitingIsSettleable(ledger.items, records, notes, i, t);
    var r := ledger.Settle(t);
    SettledNoteWaitsNoMore(records, notes, i, t, r.value);
  }

  /** Settle every note: all of them go through. */
  method SettleAll(ledger: LedgerService, notes: seq<CreditNote>, settlements: seq<Settlement>,
                   ghost debtor: AccountUid, ghost creditor: AccountUid)
    returns (ghost books: seq<Books>)
    requires ledger.Valid() && debtor in ledger.items && creditor in ledger.items
    requires Answers(settlements, notes) && Between(settlements, debtor, creditor)
    requires Waiting(ledger.records, notes, 0) && DistinctNotes(notes)
    modifies ledger
    ensures ledger.Valid() && ledger.limits == old(ledger.limits)
    ensures Course(books, settlements, |settlements|, debtor, creditor)
    ensures books[0] == old(ledger.items) && books[|settlements|] == ledger.items
    ensures old(ledger.state).Quiescent() ==> ledger.state.Quiescent()
  {
    books := [ledger.items];
    CourseBegins(ledger.items, settlements, debtor, creditor);
    for i := 0 to |settlements|
      invariant ledger.Valid() && ledger.limits == old(ledger.limits)
      invariant Waiting(ledger.records, notes, i)
      invariant Course(books, settlements, i, debtor, creditor)
      invariant books[0] == old(ledger.items) && books[i] == ledger.items
      invariant old(ledger.state).Quiescent() ==> ledger.state.Quiescent()
    {
      CourseGoesOn(books, settlements, i, debtor, creditor);
      SettleOne(ledger, notes, i, settlements[i]);
      books := books + [ledger.items];
    }
  }

  predicate NotesBetween(notes: seq<CreditNote>, debtor: AccountUid, creditor: AccountUid, provisional: bool) {
    forall i :: 0 <= i < |notes| ==>
      && notes[i].debtor == debtor && notes[i].creditor == creditor
      && notes[i].provisional == provisional && 0 <= notes[i].value <= MAX_TRANSACTION
  }

  lemma NotesFit(notes: seq<CreditNote>, debtor: AccountUid, creditor: AccountUid, values: seq<int>, provisional: bool)
    requires Payable(values) && exists c :: notes == NotesOf(c, debtor, creditor, values, provisional)
    ensures NoteValues(notes) == values && NotesBetween(notes, debtor, creditor, provisional) && DistinctNotes(notes)
  {
  }

  // The parts are paid, or the debtor cannot afford them.
  method PayParts(ledger: LedgerService, debtor: AccountUid, creditor: AccountUid, values: seq<int>, provisional: bool)
    returns (notes: Option<seq<CreditNote>>)
    requires ledger.Valid() && debtor in ledger.items && creditor in ledger.items
    requires Payable(values) && values != []
    modifies ledger
    ensures ledger.Valid() && ledger.limits == old(ledger.limits)
    ensures var b := BalanceOf(old(ledger.items)[debtor]);
      notes.Some? <==> Sum(values) <= b.balance - b.liability + old(ledger.limits)[debtor]
    ensures notes.Some? ==> exists c :: notes.value == NotesOf(c, debtor, creditor, values, provisional)
    ensures notes.Some? ==> Waiting(ledger.records, notes.value, 0)
    ensures notes.Some? ==> ledger.items == PaidItems(old(ledger.items), debtor, creditor, values, provisional)
    ensures notes.Some? && old(ledger.state).Quiescent() ==> ledger.state.Quiescent()
  {
    ghost var records := ledger.records;
    var done := ledger.Perform(values, debtor, creditor, provisional);
    if done.Failure? {
      return None;
    }
    PaidNotesWait(records, done.value, debtor, creditor, values, provisional);
    return Some(NotesOf(done.value, debtor, creditor, values, provisional));
  }

  // ------------------------------------------------------------ a payment and its receipts

  lemma CoversAnswers(notes: seq<CreditNote>, receipts: seq<Settlement>, debtor: AccountUid, creditor: AccountUid)
    requires NotesBetween(notes, debtor, creditor, true) && Covers(notes, receipts)
    ensures Answers(receipts, notes) && Between(receipts, debtor, creditor)
  {
  }

  lemma {:induction false} ReceiptsAddUp(notes: seq<CreditNote>, receipts: seq<Settlement>, n: nat)
    requires Covers(notes, receipts) && n <= |notes|
    ensures MovedByFirst(receipts, n) == Sum(ReceiptedValues(receipts)[..n])
    ensures OpenedByFirst(receipts, n) == -Sum(NoteValues(notes)[..n])
    decreases n
  {
    if n > 0 {
      ReceiptsAddUp(notes, receipts, n - 1);
      var r, v := ReceiptedValues(receipts), NoteValues(notes);
      assert r[..n] == r[..n - 1] + [r[n - 1]] && v[..n] == v[..n - 1] + [v[n - 1]];
      SumAppend(r[..n - 1], r[n - 1]);
      SumAppend(v[..n - 1], v[n - 1]);
    }
  }

  lemma AllReceiptsAddUp(notes: seq<CreditNote>, receipts: seq<Settlement>)
    requires Covers(notes, receipts)
    ensures MovedByFirst(receipts, |receipts|) == Sum(ReceiptedValues(receipts))
    ensures OpenedByFirst(receipts, |receipts|) == -Sum(NoteValues(notes))
  {
    var n := |receipts|;
    ReceiptsAddUp(notes, receipts, n);
    assert ReceiptedValues(receipts)[..n] == ReceiptedValues(receipts) && NoteValues(notes)[..n] == NoteValues(notes);
  }

  /** A provisional payment and its receipts together move what is receipted and leave nothing open. */
  lemma PaidAndReceipted(items: Books, books: seq<Books>, values: seq<int>, notes: seq<CreditNote>,
                         receipts: seq<Settlement>,
                         debtor: AccountUid, creditor: AccountUid)
    requires Payable(values) && debtor in items && creditor in items
    requires Covers(notes, receipts) && NoteValues(notes) == values
    requires Course(books, receipts, |receipts|, debtor, creditor)
    requires books[0] == PaidItems(items, debtor, creditor, values, true)
    ensures Moved(items, books[|receipts|], debtor, creditor, Sum(ReceiptedValues(receipts)), 0)
  {
    var received, value := Sum(ReceiptedValues(receipts)), Sum(values);
    PaymentMoves(items, debtor, creditor, values, true);
    AllReceiptsAddUp(notes, receipts);
    AllSettlingMoves(books, receipts, debtor, creditor, received, -value);
    MovesAdd(items, books[0], books[|receipts|], debtor, creditor, 0, value, received, -value);
  }

  /** Pay a value provisionally and receipt part of it. It goes through exactly when the debtor can afford
      the whole value; exactly the receipted part has then moved from debtor to creditor, and nothing is
      left outstanding on either side. */
  method PayInPart(ledger: LedgerService, debtor: AccountUid, creditor: AccountUid,
                   value: int, receipted: int, description: string)
    returns (paid: bool)
    requires ledger.Valid() && debtor in ledger.items && creditor in ledger.items
    requires 0 < value < QUADRILLION && 0 <= receipted <= value
    modifies ledger
    ensures ledger.Valid() && ledger.limits == old(ledger.limits)
    ensures var b := BalanceOf(old(ledger.items)[debtor]);
      paid <==> value <= b.balance - b.liability + old(ledger.limits)[debtor]
    ensures paid ==> Moved(old(ledger.items), ledger.items, debtor, creditor, receipted, 0)
    ensures paid && old(ledger.state).Quiescent() ==> ledger.state.Quiescent()
  {
    var parts := Split(value, Some(description));
    var values := Values(parts.value);
    ghost var before := ledger.items;
    var notes := PayParts(ledger, debtor, creditor, values, true);
    if notes.None? {
      return false;
    }
    NotesFit(notes.value, debtor, creditor, values, true);
    var receipts := Create(notes.value, Some(receipted));
    CoversAnswers(notes.value, receipts.value, debtor, creditor);
    ghost var books := SettleAll(ledger, notes.value, receipts.value, debtor, creditor);
    PaidAndReceipted(before, books, values, notes.value, receipts.value, debtor, creditor);
    return true;
  }

  // ------------------------------------------------------------ a payment and its refunds

  function RefundsOf(notes: seq<CreditNote>): (refunds: seq<Settlement>)
    ensures |refunds| == |notes| && forall i :: 0 <= i < |notes| ==> refunds[i] == Refund(notes[i])
  {
    seq(|notes|, i requires 0 <= i < |notes| => Refund(notes[i]))
  }

  lemma RefundsAnswer(notes: seq<CreditNote>, debtor: AccountUid, creditor: AccountUid)
    requires NotesBetween(notes, debtor, creditor, false)
    ensures Answers(RefundsOf(notes), notes) && Between(RefundsOf(notes), debtor, creditor)
  {
  }

  lemma {:induction false} RefundsAddUp(notes: seq<CreditNote>, n: nat)
    requires n <= |notes|
    ensures MovedByFirst(RefundsOf(notes), n) == -Sum(NoteValues(notes)[..n])
    ensures OpenedByFirst(RefundsOf(notes), n) == 0
    decreases n
  {
    if n > 0 {
      RefundsAddUp(notes, n - 1);
      var v := NoteValues(notes);
      assert v[..n] == v[..n - 1] + [v[n - 1]];
      SumAppend(v[..n - 1], v[n - 1]);
    }
  }

  lemma AllRefundsAddUp(notes: seq<CreditNote>)
    ensures MovedByFirst(RefundsOf(notes), |notes|) == -Sum(NoteValues(notes))
    ensures OpenedByFirst(RefundsOf(notes), |notes|) == 0
  {
    RefundsAddUp(notes, |notes|);
    assert NoteValues(notes)[..|notes|] == NoteValues(notes);
  }

  /** Refunding every part of a payment undoes it. */
  lemma PaidAndRefunded(items: Books, books: seq<Books>, values: seq<int>, notes: seq<CreditNote>,
                        debtor: AccountUid, creditor: AccountUid)
    requires Payable(values) && debtor in items && creditor in items
    requires NoteValues(notes) == values && Course(books, RefundsOf(notes), |notes|, debtor, creditor)
    requires books[0] == PaidItems(items, debtor, creditor, values, false)
    ensures Moved(items, books[|notes|], debtor, creditor, 0, 0)
  {
    var value := Sum(values);
    PaymentMoves(items, debtor, creditor, values, false);
    AllRefundsAddUp(notes);
    AllSettlingMoves(books, RefundsOf(notes), debtor, creditor, -value, 0);
    MovesAdd(items, books[0], books[|notes|], debtor, creditor, value, 0, -value, 0);
  }

  /** Pay a value and refund it. The payment goes through exactly when the debtor can afford it; the refunds
      then always go through, whatever the creditor has left, and every balance is what it was. */
  method PayAndRefund(ledger: LedgerService, debtor: AccountUid, creditor: AccountUid, value: int, description: string)
    returns (paid: bool)
    requires ledger.Valid() && debtor in ledger.items && creditor in ledger.items
    requires 0 < value < QUADRILLION
    modifies ledger
    ensures ledger.Valid() && ledger.limits == old(ledger.limits)
    ensures var b := BalanceOf(old(ledger.items)[debtor]);
      paid <==> value <= b.balance - b.liability + old(ledger.limits)[debtor]
    ensures paid ==> Moved(old(ledger.items), ledger.items, debtor, creditor, 0, 0)
    ensures paid && old(ledger.state).Quiescent() ==> ledger.state.Quiescent()
  {
    var parts := Split(value, Some(description));
    var values := Values(parts.value);
    ghost var before := ledger.items;
    var notes := PayParts(ledger, debtor, creditor, values, false);
    if notes.None? {
      return false;
    }
    NotesFit(notes.value, debtor, creditor, values, false);
    RefundsAnswer(notes.value, debtor, creditor);
    ghost var books := SettleAll(ledger, notes.value, RefundsOf(notes.value), debtor, creditor);
    PaidAndRefunded(before, books, values, notes.value, debtor, creditor);
    return true;
  }
}
