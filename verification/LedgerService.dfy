/**
 The ledger as the program runs it: `perform`, `receipt` and `refund` one after the other, on the
 object store. Every method takes the steps of the transition system, so all that is proved of its
 runs holds here; on top of that come exact outcomes and the overdraft bound.
 */
module LedgerService {
  import opened Amounts
  import opened Balances
  import opened LedgerInvariant
  import opened LedgerSteps
  import opened Wrappers

  datatype LedgerError =
    | InsufficientFunds   // the first part could not be debited: nothing happened
    | UnbalancedLedger    // a later part could not be debited: the earlier ones stay debited
    | NothingToPair       // no transaction was passed
    | NotAdmissible       // no such receipt can be made
    | NoSuchAccount
    | UnexpectedState     // the transaction is not in the state the settlement starts from
    | Unmatched           // the settlement does not match the transaction
    | NegativeLimit
    | BeyondLimit

  ghost predicate Reachable(t: Ledger) {
    exists s: Ledger :: s.Initial() && Reaches(s, t)
  }

  lemma ReachableStep(t: Ledger, step: Step)
    requires Reachable(t) && Enabled(t, step)
    ensures Reachable(Do(t, step))
  {
    var s: Ledger :| s.Initial() && Reaches(s, t);
    ReachesStep(s, t, step);
  }

  lemma ReachableIsValid(t: Ledger)
    requires Reachable(t)
    ensures LedgerInvariant.Valid(t)
  {
    var s: Ledger :| s.Initial() && Reaches(s, t);
    var steps :| Runs(s, steps, t);
    InitialValid(s);
    RunKeepsValid(s, steps, t);
  }

  // What an account with this history has to spend, before any overdraft.
  function AvailableIn(history: seq<Info>): int {
    BalanceOf(history).balance - BalanceOf(history).liability
  }

  lemma AvailableIsReplayed(history: seq<Info>)
    ensures AvailableIn(history) == Replay(ZERO, history).balance - Replay(ZERO, history).liability
    ensures Replay(ZERO, history).Available() == Replay(ZERO, history).balance - Replay(ZERO, history).liability
  {
    BalanceIsReplay(history);
  }

  function DebitLines(values: seq<int>, provisional: bool): seq<Info>
    requires Payable(values)
  {
    if |values| == 0 then []
    else DebitLines(values[..|values| - 1], provisional) + [PaymentDebit(values[|values| - 1], provisional)]
  }

  function CreditLines(values: seq<int>, provisional: bool): seq<Info>
    requires Payable(values)
  {
    if |values| == 0 then []
    else CreditLines(values[..|values| - 1], provisional) + [PaymentCredit(values[|values| - 1], provisional)]
  }

  // What a line item adds to the available balance, refunds sent set aside.
  function Cushion(t: Info): int {
    Effect(Funds, t) - Effect(Liabilities, t) + (if t.code == SentRefund then t.value else 0)
  }

  function RefundsSent(history: seq<Info>): int {
    Posted(Original(SentRefund), history)
  }

  lemma AvailableAppend(history: seq<Info>, t: Info)
    ensures AvailableIn(history + [t]) == AvailableIn(history) + Effect(Funds, t) - Effect(Liabilities, t)
    ensures AvailableIn(history + [t]) + RefundsSent(history + [t]) ==
      AvailableIn(history) + RefundsSent(history) + Cushion(t)
  {
    assert (history + [t])[..|history|] == history;
  }

  lemma AvailableOneMore(history: seq<Info>, lines: seq<Info>, t: Info)
    ensures AvailableIn(history + (lines + [t])) ==
      AvailableIn(history + lines) + Effect(Funds, t) - Effect(Liabilities, t)
  {
    assert history + (lines + [t]) == (history + lines) + [t];
    AvailableAppend(history + lines, t);
  }

  lemma {:induction false} AvailableAfterDebits(history: seq<Info>, values: seq<int>, provisional: bool)
    requires Payable(values)
    ensures AvailableIn(history + DebitLines(values, provisional)) == AvailableIn(history) - Sum(values)
    decreases |values|
  {
    if |values| == 0 {
      assert history + [] == history;
    } else {
      var shorter, last := values[..|values| - 1], values[|values| - 1];
      AvailableAfterDebits(history, shorter, provisional);
      AvailableOneMore(history, DebitLines(shorter, provisional), PaymentDebit(last, provisional));
    }
  }

  lemma DebitLinesGrow(values: seq<int>, i: nat, provisional: bool)
    requires Payable(values) && i < |values|
    ensures DebitLines(values[..i + 1], provisional) ==
      DebitLines(values[..i], provisional) + [PaymentDebit(values[i], provisional)]
    ensures CreditLines(values[..i + 1], provisional) ==
      CreditLines(values[..i], provisional) + [PaymentCredit(values[i], provisional)]
  {
    assert values[..i + 1][..i] == values[..i];
  }

  // A part that cannot be afforded after the ones before it makes the whole too dear.
  lemma PrefixTooDear(values: seq<int>, i: nat, funds: int)
    requires Payable(values) && i < |values| && Sum(values[..i]) + values[i] > funds
    ensures Sum(values) > funds
  {
    var rest := values[i + 1..];
    SumNonNegative(rest);
    SumAppend(values[..i], values[i]);
    assert values == (values[..i] + [values[i]]) + rest;
    SumConcat(values[..i] + [values[i]], rest);
  }

  /** The records of the first `n` parts of a payment. */
  function PaymentRecords(c: CallId, p: Call, n: nat): map<NoteUid, Record>
    requires p.Paying? && n <= |p.values|
  {
    map i | 0 <= i < n ::
      NoteUid(c, i) := Record(p.debtor, p.creditor, p.values[i], if p.provisional then Provisional else Direct, None)
  }

  lemma PaymentRecordsGrow(c: CallId, p: Call, n: nat)
    requires p.Paying? && n < |p.values|
    ensures PaymentRecords(c, p, n + 1) == PaymentRecords(c, p, n)[NoteUid(c, n) := PartRecord(p.(recorded := n))]
  {
  }

  /** The line items of a completed payment: all the debits, then all the credits. */
  function PaidItems(items: map<AccountUid, seq<Info>>, debtor: AccountUid, creditor: AccountUid,
                     values: seq<int>, provisional: bool): map<AccountUid, seq<Info>>
    requires Payable(values) && debtor in items && creditor in items
  {
    var debited := items[debtor := items[debtor] + DebitLines(values, provisional)];
    debited[creditor := debited[creditor] + CreditLines(values, provisional)]
  }

  /** One debit and one credit for each part, in order, with the codes of the kind of payment. */
  lemma {:induction false} PaymentLinesAre(values: seq<int>, provisional: bool)
    requires Payable(values)
    ensures |DebitLines(values, provisional)| == |CreditLines(values, provisional)| == |values|
    ensures forall i :: 0 <= i < |values| ==>
      && DebitLines(values, provisional)[i] ==
           TransactionInfo(if provisional then CurrentLiability else TransactionCode.Debit, values[i], None)
      && CreditLines(values, provisional)[i] ==
           TransactionInfo(if provisional then AccountReceivable else TransactionCode.Credit, values[i], None)
    decreases |values|
  {
    if |values| > 0 {
      PaymentLinesAre(values[..|values| - 1], provisional);
    }
  }

  // Items after a payment of which only the first `k` parts were debited.
  predicate PartlyDebited(before: map<AccountUid, seq<Info>>, after: map<AccountUid, seq<Info>>, debtor: AccountUid,
                          values: seq<int>, provisional: bool, k: nat)
    requires Payable(values) && k <= |values| && debtor in before
  {
    after == before[debtor := before[debtor] + DebitLines(values[..k], provisional)]
  }

  predicate Solvent(history: seq<Info>, limit: int) {
    0 <= AvailableIn(history) + limit + RefundsSent(history)
  }

  lemma StaysSolvent(history: seq<Info>, limit: int, t: Info)
    requires Solvent(history, limit) && 0 <= Cushion(t)
    ensures Solvent(history + [t], limit)
  {
    AvailableAppend(history, t);
  }

  lemma {:induction false} RefundsSentNonNegative(history: seq<Info>)
    ensures 0 <= RefundsSent(history)
    decreases |history|
  {
    if |history| > 0 {
      RefundsSentNonNegative(history[..|history| - 1]);
    }
  }

  lemma AffordableStaysSolvent(history: seq<Info>, limit: int, value: int, provisional: bool)
    requires 0 < value <= MAX_TRANSACTION && value <= AvailableIn(history) + limit
    ensures Solvent(history + [PaymentDebit(value, provisional)], limit)
    ensures 0 <= AvailableIn(history + [PaymentDebit(value, provisional)]) + limit
  {
    AvailableAppend(history, PaymentDebit(value, provisional));
    RefundsSentNonNegative(history + [PaymentDebit(value, provisional)]);
  }

  // Crediting never costs an account anything, nor does receipting what it already owes, refunds set aside.
  lemma SettlingCushions(t: Settlement)
    requires t.Admissible() && Transferable(t)
    ensures 0 <= Cushion(t.DebitLine()) && 0 <= Cushion(t.CreditLine())
  {
  }

  lemma CreditCushions(value: int, provisional: bool)
    requires 0 <= value <= MAX_TRANSACTION
    ensures 0 <= Cushion(PaymentCredit(value, provisional))
  {
  }

  predicate AllSolvent(items: map<AccountUid, seq<Info>>, limits: map<AccountUid, int>) {
    limits.Keys == items.Keys && forall a :: a in items ==> Solvent(items[a], limits[a])
  }

  lemma LineKeepsSolvency(items: map<AccountUid, seq<Info>>, limits: map<AccountUid, int>, a: AccountUid, t: Info)
    requires AllSolvent(items, limits) && a in items && Solvent(items[a] + [t], limits[a])
    ensures AllSolvent(items[a := items[a] + [t]], limits)
  {
  }

  lemma LimitKeepsSolvency(items: map<AccountUid, seq<Info>>, limits: map<AccountUid, int>, a: AccountUid, limit: int)
    requires AllSolvent(items, limits) && a in items && 0 <= AvailableIn(items[a]) + limit
    ensures AllSolvent(items, limits[a := limit])
  {
    RefundsSentNonNegative(items[a]);
  }

  lemma CushionedKeepsSolvency(items: map<AccountUid, seq<Info>>, limits: map<AccountUid, int>, a: AccountUid, t: Info)
    requires AllSolvent(items, limits) && a in items && 0 <= Cushion(t)
    ensures AllSolvent(items[a := items[a] + [t]], limits)
  {
    StaysSolvent(items[a], limits[a], t);
    LineKeepsSolvency(items, limits, a, t);
  }

  lemma DebitKeepsSolvency(items: map<AccountUid, seq<Info>>, limits: map<AccountUid, int>, a: AccountUid,
                           value: int, provisional: bool)
    requires AllSolvent(items, limits) && a in items
    requires 0 < value <= MAX_TRANSACTION && value <= AvailableIn(items[a]) + limits[a]
    ensures var after := items[a := items[a] + [PaymentDebit(value, provisional)]];
      AllSolvent(after, limits) && 0 <= AvailableIn(after[a]) + limits[a]
  {
    AffordableStaysSolvent(items[a], limits[a], value, provisional);
    LineKeepsSolvency(items, limits, a, PaymentDebit(value, provisional));
  }

  // A payment that has debited `i` of its parts, starting from `s`.
  ghost predicate HasDebited(s: Ledger, t: Ledger, c: CallId, p: Call, i: nat)
    requires p.Paying? && Payable(p.values) && i <= |p.values| && p.debtor in s.items
  {
    && t.records == s.records && t.calls == s.calls[c := p.(debited := i)]
    && t.items == s.items[p.debtor := s.items[p.debtor] + DebitLines(p.values[..i], p.provisional)]
  }

  lemma DebitOneMore(s: Ledger, t: Ledger, c: CallId, p: Call, i: nat)
    requires p.Paying? && Payable(p.values) && i < |p.values| && p.debtor in s.items && MayDebit(t, c)
    requires HasDebited(s, t, c, p, i)
    ensures HasDebited(s, AfterDebit(t, c), c, p, i + 1)
  {
    DebitLinesGrow(p.values, i, p.provisional);
    var history, lines := s.items[p.debtor], DebitLines(p.values[..i], p.provisional);
    var line := PaymentDebit(p.values[i], p.provisional);
    assert history + (lines + [line]) == (history + lines) + [line];
  }

  function SumTo(values: seq<int>, i: nat): int
    requires i <= |values|
  {
    Sum(values[..i])
  }

  lemma SumToEnds(values: seq<int>)
    ensures SumTo(values, 0) == 0 && SumTo(values, |values|) == Sum(values)
  {
    assert values[..0] == [] && values[..|values|] == values;
  }

  lemma FirstPart(values: seq<int>, i: nat)
    requires Payable(values) && 0 < i <= |values|
    ensures values[0] <= SumTo(values, i) && SumTo(values, 1) == values[0]
  {
    assert values[..1] == [] + [values[0]];
    SumAppend([], values[0]);
    SumFirst(values[..i]);
    SumNonNegative(values[..i][1..]);
  }

  // The loop stops at the first part that the funds do not cover.
  predicate StopsAt(values: seq<int>, funds: int, done: nat) {
    && done <= |values|
    && (done == 0 || SumTo(values, done) <= funds)
    && (done < |values| ==> funds < SumTo(values, done + 1))
  }

  lemma StopsAtFirst(values: seq<int>, funds: int, done: nat)
    requires Payable(values) && values != [] && StopsAt(values, funds, done)
    ensures done == 0 <==> funds < values[0]
  {
    if done == 0 {
      FirstPart(values, 1);
    } else {
      FirstPart(values, done);
    }
  }

  // One round of the first loop of `perform`.
  lemma DebitRound(s: Ledger, t: Ledger, c: CallId, p: Call, i: nat, funds: int)
    requires p.Paying? && Payable(p.values) && i < |p.values| && p.debtor in s.items && MayDebit(t, c)
    requires HasDebited(s, t, c, p, i)
    ensures HasDebited(s, AfterDebit(t, c), c, p, i + 1)
    ensures HasDebited(s, Do(t, RefusePart(c)), c, p.(refused := true), i)
    ensures AvailableIn(t.items[p.debtor]) == AvailableIn(s.items[p.debtor]) - SumTo(p.values, i)
    ensures SumTo(p.values, i + 1) == SumTo(p.values, i) + p.values[i]
    ensures SumTo(p.values, i + 1) > funds ==> Sum(p.values) > funds
  {
    DebitOneMore(s, t, c, p, i);
    AvailableAfterDebits(s.items[p.debtor], p.values[..i], p.provisional);
    assert p.values[..i + 1] == p.values[..i] + [p.values[i]];
    SumAppend(p.values[..i], p.values[i]);
    if SumTo(p.values, i + 1) > funds {
      PrefixTooDear(p.values, i, funds);
    }
  }

  ghost predicate HasCredited(s: Ledger, t: Ledger, c: CallId, p: Call, i: nat)
    requires p.Paying? && Payable(p.values) && i <= |p.values| && p.creditor in s.items
  {
    && t.records == s.records && t.calls == s.calls[c := p.(credited := i)]
    && t.items == s.items[p.creditor := s.items[p.creditor] + CreditLines(p.values[..i], p.provisional)]
  }

  lemma CreditOneMore(s: Ledger, t: Ledger, c: CallId, p: Call, i: nat)
    requires p.Paying? && Payable(p.values) && i < |p.values| && p.creditor in s.items && MayCredit(t, c)
    requires HasCredited(s, t, c, p, i)
    ensures HasCredited(s, AfterCredit(t, c), c, p, i + 1)
  {
    DebitLinesGrow(p.values, i, p.provisional);
    var history, lines := s.items[p.creditor], CreditLines(p.values[..i], p.provisional);
    var line := PaymentCredit(p.values[i], p.provisional);
    assert history + (lines + [line]) == (history + lines) + [line];
  }

  ghost predicate HasRecorded(s: Ledger, t: Ledger, c: CallId, p: Call, i: nat)
    requires p.Paying? && i <= |p.values|
  {
    && t.items == s.items && t.calls == s.calls[c := p.(recorded := i)]
    && t.records == s.records + PaymentRecords(c, p, i)
  }

  lemma AddThenSet<K, V>(m: map<K, V>, n: map<K, V>, k: K, v: V)
    ensures (m + n)[k := v] == m + n[k := v]
  {
  }

  lemma RecordOneMore(s: Ledger, t: Ledger, c: CallId, p: Call, i: nat)
    requires p.Paying? && i < |p.values| && MayRecord(t, c)
    requires HasRecorded(s, t, c, p, i)
    ensures HasRecorded(s, AfterRecord(t, c), c, p, i + 1)
  {
    PaymentRecordsGrow(c, p, i);
    AddThenSet(s.records, PaymentRecords(c, p, i), NoteUid(c, i), PartRecord(p.(recorded := i)));
  }

  // The same, before the first part.
  lemma NothingDebited(s: Ledger, c: CallId, p: Call)
    requires p.Paying? && Payable(p.values) && p.debtor in s.items && p.debited == 0
    requires c in s.calls && s.calls[c] == p
    ensures HasDebited(s, s, c, p, 0)
  {
    assert p.values[..0] == [];
    assert s.items[p.debtor] + [] == s.items[p.debtor];
  }

  lemma NothingCredited(s: Ledger, c: CallId, p: Call)
    requires p.Paying? && Payable(p.values) && p.creditor in s.items && p.credited == 0
    requires c in s.calls && s.calls[c] == p
    ensures HasCredited(s, s, c, p, 0)
  {
    assert p.values[..0] == [];
    assert s.items[p.creditor] + [] == s.items[p.creditor];
  }

  lemma NothingRecorded(s: Ledger, c: CallId, p: Call)
    requires p.Paying? && p.recorded == 0 && c in s.calls && s.calls[c] == p
    ensures HasRecorded(s, s, c, p, 0)
  {
    assert PaymentRecords(c, p, 0) == map[];
  }

  // The three loops of `perform`, one after the other.
  lemma PaymentComplete(s: Ledger, s0: Ledger, s1: Ledger, s2: Ledger, s3: Ledger, c: CallId, p: Call)
    requires p.Paying? && Payable(p.values) && p.debtor in s.items && p.creditor in s.items && c !in s.calls
    requires s0 == s.SetCall(c, p) && p.recorded == 0
    requires HasDebited(s0, s1, c, p, |p.values|)
    requires HasCredited(s1, s2, c, p.(debited := |p.values|), |p.values|)
    requires HasRecorded(s2, s3, c, p.(debited := |p.values|, credited := |p.values|), |p.values|)
    ensures s3.items == PaidItems(s.items, p.debtor, p.creditor, p.values, p.provisional)
    ensures s3.records == s.records + PaymentRecords(c, p, |p.values|)
    ensures s.Quiescent() ==> s3.Quiescent()
  {
    assert p.values[..|p.values|] == p.values;
    var done := p.(debited := |p.values|, credited := |p.values|);
    assert PaymentRecords(c, done, |p.values|) == PaymentRecords(c, p, |p.values|);
    assert s3.calls == s.calls[c := done.(recorded := |p.values|)];
  }

  // Refused at part `k`.
  lemma PaymentRefused(s: Ledger, s0: Ledger, s1: Ledger, c: CallId, p: Call, k: nat)
    requires p.Paying? && Payable(p.values) && p.debtor in s.items && c !in s.calls && k < |p.values|
    requires s0 == s.SetCall(c, p) && HasDebited(s0, s1, c, p.(refused := true), k)
    ensures s1.records == s.records && PartlyDebited(s.items, s1.items, p.debtor, p.values, p.provisional, k)
    ensures k == 0 ==> s1.items == s.items
  {
    assert p.values[..0] == [];
    assert s.items[p.debtor] + [] == s.items[p.debtor];
  }

  /** Line items after a settlement. */
  function SettledItems(items: map<AccountUid, seq<Info>>, t: Settlement): map<AccountUid, seq<Info>>
    requires t.Admissible() && Transferable(t) && t.Payer() in items && t.Payee() in items
  {
    var debited := items[t.Payer() := items[t.Payer()] + [t.DebitLine()]];
    debited[t.Payee() := debited[t.Payee()] + [t.CreditLine()]]
  }

  /** Records after a settlement filed under `uid`. */
  function SettledRecords(records: map<NoteUid, Record>, t: Settlement, uid: NoteUid): map<NoteUid, Record>
    requires t.Transaction() in records
  {
    records[t.Transaction() := records[t.Transaction()].(state := t.Done())][uid := t.NewRecord()]
  }

  /** A refund goes from the creditor's account back to the debtor's, under the codes for refunds; a receipt
      stands in both accounts with the value promised and the value receipted. */
  lemma SettlementLinesAre(items: map<AccountUid, seq<Info>>, t: Settlement)
    requires t.Admissible() && Transferable(t) && t.note.debtor in items && t.note.creditor in items
    requires t.note.debtor != t.note.creditor
    ensures var n, after := t.note, SettledItems(items, t);
      && after.Keys == items.Keys
      && (forall a :: a in items && a != n.debtor && a != n.creditor ==> after[a] == items[a])
      && after[n.debtor] == items[n.debtor] +
           [if t.Refund? then TransactionInfo(ReceivedRefund, n.value, None)
            else TransactionInfo(ReceivedReceipt, n.value, Some(t.receipted))]
      && after[n.creditor] == items[n.creditor] +
           [if t.Refund? then TransactionInfo(SentRefund, n.value, None)
            else TransactionInfo(SentReceipt, n.value, Some(t.receipted))]
  {
  }

  /** The settled record moves on to its final state, and the new one says who paid whom and how much. */
  lemma SettlementRecordsAre(records: map<NoteUid, Record>, t: Settlement, uid: NoteUid)
    requires t.Transaction() in records && uid !in records
    ensures var n, after := t.note, SettledRecords(records, t, uid);
      && after.Keys == records.Keys + {uid}
      && (forall u :: u in records && u != n.debitNote ==> after[u] == records[u])
      && after[n.debitNote] == records[n.debitNote].(state := if t.Refund? then Refunded else Receipted)
      && after[uid] == if t.Refund? then Record(n.creditor, n.debtor, n.value, Direct, Some(t))
                       else Record(n.debtor, n.creditor, t.receipted, Direct, Some(t))
  {
  }

  // What has to hold for a receipt or refund to go through.
  predicate Settleable(items: map<AccountUid, seq<Info>>, records: map<NoteUid, Record>, t: Settlement) {
    && t.Admissible() && t.Payer() in items && t.Payee() in items
    && t.Transaction() in records && records[t.Transaction()].state == t.Expected()
    && t.Matches(t.Transaction(), records[t.Transaction()])
  }

  /** Field by field. */
  lemma SettleableIff(items: map<AccountUid, seq<Info>>, records: map<NoteUid, Record>, t: Settlement)
    ensures var n := t.note;
      Settleable(items, records, t) <==>
      && (t.Receipt? ==> n.provisional && 0 <= t.receipted <= n.value)
      && n.debtor in items && n.creditor in items && n.debitNote in records
      && var r := records[n.debitNote];
         && r.state == (if t.Receipt? then Provisional else Direct)
         && r.debtor == n.debtor && r.creditor == n.creditor && r.value == n.value
  {
  }

  // Why it does not, in the order of the checks.
  function SettlementError(items: map<AccountUid, seq<Info>>, records: map<NoteUid, Record>, t: Settlement)
    : LedgerError
  {
    var n := t.note;
    if t.Receipt? && !(n.provisional && 0 <= t.receipted <= n.value) then NotAdmissible
    else if n.debtor !in items || n.creditor !in items then NoSuchAccount
    else if n.debitNote !in records then UnexpectedState
    else if records[n.debitNote].state != (if t.Receipt? then Provisional else Direct) then UnexpectedState
    else Unmatched
  }

  lemma SettleableIsTransferable(s: Ledger, t: Settlement)
    requires Reachable(s) && Settleable(s.items, s.records, t)
    ensures Transferable(t)
  {
    ReachableIsValid(s);
  }

  lemma NewCallHasNoRecords(s: Ledger, c: CallId)
    requires Reachable(s) && c !in s.calls
    ensures forall place :: NoteUid(c, place) !in s.records
  {
    ReachableIsValid(s);
  }

  lemma RolledBack(s: Ledger, s1: Ledger, s2: Ledger, c: CallId, t: Settlement)
    requires MayClaim(s, c, t) && s1 == AfterClaim(s, c, t)
    requires MayRollBack(s1, c) && s2 == AfterRollBack(s1, c)
    ensures s2.items == s.items && s2.records == s.records
    ensures s.Quiescent() ==> s2.Quiescent()
  {
    var r := s.records[t.Transaction()];
    assert r.(state := t.Busy()).(state := t.Expected()) == r;
    assert s2.calls == s.calls[c := Settling(t, Abandoned)];
  }

  lemma SettlementComplete(s: Ledger, s1: Ledger, s2: Ledger, s3: Ledger, s4: Ledger, s5: Ledger, c: CallId,
                           t: Settlement)
    requires Settleable(s.items, s.records, t) && Transferable(t) && MayClaim(s, c, t)
    requires s1 == AfterClaim(s, c, t)
    requires MayTake(s1, c) && s2 == AfterTake(s1, c)
    requires MayGive(s2, c) && s3 == AfterGive(s2, c)
    requires MayClose(s3, c) && s4 == AfterClose(s3, c)
    requires SettlingAt(s4, c, Closed) && s5 == AfterFile(s4, c)
    ensures s5.items == SettledItems(s.items, t)
    ensures s5.records == SettledRecords(s.records, t, NoteUid(c, 0))
    ensures s.Quiescent() ==> s5.Quiescent()
  {
    var uid := t.Transaction();
    assert s4.records == s.records[uid := s.records[uid].(state := t.Done())];
    assert s5.calls == s.calls[c := Settling(t, Filed)];
  }

  /** The single ledger of the accounting service, over the object store. */
  class LedgerService {
    var items: map<AccountUid, seq<Info>>
    var records: map<NoteUid, Record>
    var limits: map<AccountUid, int>
    var nextCall: CallId
    ghost var state: Ledger

    ghost predicate Valid()
      reads this
    {
      && state.items == items && state.records == records
      && Reachable(state)
      && (forall c :: c in state.calls ==> c < nextCall)
      && AllSolvent(items, limits)
    }

    constructor (accounts: set<AccountUid>)
      ensures Valid() && items.Keys == accounts && records == map[] && state.Initial()
      ensures forall a :: a in accounts ==> limits[a] == 0
    {
      items := map a | a in accounts :: [];
      records := map[];
      limits := map a | a in accounts :: 0;
      nextCall := 0;
      state := Ledger(map a | a in accounts :: [], map[], map[]);
      new;
      ReachesSelf(state);
    }

    // `Account.balance().available()`; the account's own model shows its balance to be this replay.
    method AvailableNow(a: AccountUid) returns (available: int)
      requires a in items
      ensures available == AvailableIn(items[a])
    {
      var balance := SumTransactions(items[a]);
      AvailableIsReplayed(items[a]);
      available := balance.Available();
    }

    // A new limit the account is already beyond is put back.
    method ChangeLimit(a: AccountUid, limit: int) returns (ok: bool)
      requires Valid() && a in items && 0 <= limit
      modifies this`limits
      ensures Valid()
      ensures ok <==> 0 <= AvailableIn(items[a]) + limit
      ensures limits == if ok then old(limits)[a := limit] else old(limits)
    {
      var oldLimit := limits[a];
      limits := limits[a := limit];
      var available := AvailableNow(a);
      if available < -limit {
        limits := limits[a := oldLimit];
        assert limits == old(limits);
        return false;
      }
      LimitKeepsSolvency(items, old(limits), a, limit);
      return true;
    }

    // `Account.set_overdraft_limit`.
    method SetOverdraftLimit(a: AccountUid, limit: int) returns (r: Result<(), LedgerError>)
      requires Valid() && a in items
      modifies this`limits
      ensures Valid()
      ensures var b := BalanceOf(items[a]);
        r.Success? <==> 0 <= limit && (limit == old(limits[a]) || 0 <= b.balance - b.liability + limit)
      ensures r.Success? ==> limits == old(limits)[a := limit]
      ensures r.Failure? ==> limits == old(limits) && r.error == if limit < 0 then NegativeLimit else BeyondLimit
    {
      if limit < 0 {
        return Failure(NegativeLimit);
      }
      if limits[a] == limit {
        assert limits == old(limits)[a := limit];
        return Success(());
      }
      var ok := ChangeLimit(a, limit);
      return if ok then Success(()) else Failure(BeyondLimit);
    }

    // Takes one step of the transition system.
    ghost method Follow(step: Step)
      requires Reachable(state) && Enabled(state, step)
      modifies this`state
      ensures Reachable(state) && state == Do(old(state), step)
    {
      ReachableStep(state, step);
      state := Do(state, step);
    }

    // `Account._debit` for one part: refused when it exceeds what is available under the limit.
    method Debit(ghost c: CallId, debtor: AccountUid, value: int, provisional: bool) returns (ok: bool)
      requires Valid() && MayDebit(state, c)
      requires var p := state.calls[c];
        p.debtor == debtor && p.values[p.debited] == value && p.provisional == provisional
      modifies this
      ensures Valid() && limits == old(limits) && nextCall == old(nextCall)
      ensures var b := BalanceOf(old(items)[debtor]);
        ok <==> value <= b.balance - b.liability + limits[debtor]
      ensures state == if ok then AfterDebit(old(state), c) else Do(old(state), RefusePart(c))
    {
      var available := AvailableNow(debtor);
      if available + limits[debtor] < value {
        Follow(RefusePart(c));
        return false;
      }
      DebitKeepsSolvency(items, limits, debtor, value, provisional);
      items := items[debtor := items[debtor] + [PaymentDebit(value, provisional)]];
      Follow(DebitPart(c));
      // the check made once more after the write: with one call at a time it always passes
      available := AvailableNow(debtor);
      assert 0 <= available + limits[debtor];
      return true;
    }

    // `Account._credit` for one part.
    method Credit(ghost c: CallId, creditor: AccountUid, value: int, provisional: bool)
      requires Valid() && MayCredit(state, c)
      requires var p := state.calls[c];
        p.creditor == creditor && p.values[p.credited] == value && p.provisional == provisional
      modifies this
      ensures Valid() && limits == old(limits) && nextCall == old(nextCall)
      ensures state == AfterCredit(old(state), c)
    {
      var line := PaymentCredit(value, provisional);
      CreditCushions(value, provisional);
      CushionedKeepsSolvency(items, limits, creditor, line);
      items := items[creditor := items[creditor] + [line]];
      Follow(CreditPart(c));
    }

    // `Ledger.save_transaction` for the pair of notes at `place`.
    method SavePart(c: CallId, place: nat, r: Record)
      requires Valid() && MayRecord(state, c) && place == state.calls[c].recorded
      requires r == PartRecord(state.calls[c])
      modifies this
      ensures Valid() && limits == old(limits) && nextCall == old(nextCall)
      ensures state == AfterRecord(old(state), c)
    {
      records := records[NoteUid(c, place) := r];
      Follow(RecordPart(c));
    }

    // One debit note: it is refused exactly when the parts so far exceed the funds of the debtor.
    method DebitOne(ghost c: CallId, debtor: AccountUid, i: nat, value: int, provisional: bool,
                    ghost s: Ledger, ghost p: Call, ghost funds: int)
      returns (ok: bool)
      requires Valid() && p.Paying? && Payable(p.values) && i < |p.values| && p.debtor in s.items
      requires p.debtor == debtor && p.values[i] == value && p.provisional == provisional
      requires PayingAt(state, c) && HasDebited(s, state, c, p, i)
      requires debtor in limits && funds == AvailableIn(s.items[debtor]) + limits[debtor]
      modifies this
      ensures Valid() && limits == old(limits) && nextCall == old(nextCall)
      ensures ok <==> SumTo(p.values, i + 1) <= funds
      ensures ok ==> PayingAt(state, c) && HasDebited(s, state, c, p, i + 1)
      ensures !ok ==> HasDebited(s, state, c, p.(refused := true), i) && Sum(p.values) > funds
    {
      DebitRound(s, state, c, p, i, funds);
      ok := Debit(c, debtor, value, provisional);
    }

    // The first loop of `perform`: the debit notes, until one is refused.
    method DebitAll(ghost c: CallId, values: seq<int>, debtor: AccountUid, provisional: bool, ghost p: Call)
      returns (done: nat)
      requires Valid() && c in state.calls && state.calls[c] == p && p.Paying? && PayingAt(state, c)
      requires p.values == values && p.debtor == debtor && p.provisional == provisional && values != []
      requires p.debited == p.credited == p.recorded == 0
      modifies this
      ensures Valid() && limits == old(limits) && nextCall == old(nextCall)
      ensures done <= |values|
      ensures done == |values| <==> Sum(values) <= AvailableIn(old(items)[debtor]) + limits[debtor]
      ensures StopsAt(values, AvailableIn(old(items)[debtor]) + limits[debtor], done)
      ensures HasDebited(old(state), state, c, if done == |values| then p else p.(refused := true), done)
    {
      ghost var s, funds := state, AvailableIn(items[debtor]) + limits[debtor];
      NothingDebited(s, c, p);
      SumToEnds(values);
      done := 0;
      while done < |values|
        invariant 0 <= done <= |values|
        invariant Valid() && limits == old(limits) && nextCall == old(nextCall)
        invariant PayingAt(state, c) && HasDebited(s, state, c, p, done)
        invariant SumTo(values, done) <= funds || done == 0
      {
        var ok := DebitOne(c, debtor, done, values[done], provisional, s, p, funds);
        if !ok {
          return;
        }
        done := done + 1;
      }
    }

    // The second loop: the credit notes.
    method CreditAll(ghost c: CallId, values: seq<int>, creditor: AccountUid, provisional: bool, ghost p: Call)
      requires Valid() && c in state.calls && state.calls[c] == p && p.Paying? && PayingAt(state, c)
      requires p.values == values && p.creditor == creditor && p.provisional == provisional
      requires p.debited == |values| && p.credited == p.recorded == 0
      modifies this
      ensures Valid() && limits == old(limits) && nextCall == old(nextCall)
      ensures HasCredited(old(state), state, c, p, |values|)
    {
      ghost var s := state;
      NothingCredited(s, c, p);
      for i := 0 to |values|
        invariant Valid() && limits == old(limits) && nextCall == old(nextCall)
        invariant HasCredited(s, state, c, p, i)
      {
        CreditOneMore(s, state, c, p, i);
        Credit(c, creditor, values[i], provisional);
      }
    }

    method RecordOne(c: CallId, i: nat, r: Record, ghost s: Ledger, ghost p: Call)
      requires Valid() && p.Paying? && i < |p.values| && PayingAt(state, c) && HasRecorded(s, state, c, p, i)
      requires p.debited == p.credited == |p.values|
      requires r == Record(p.debtor, p.creditor, p.values[i], if p.provisional then Provisional else Direct, None)
      modifies this
      ensures Valid() && limits == old(limits) && nextCall == old(nextCall)
      ensures PayingAt(state, c) && HasRecorded(s, state, c, p, i + 1)
    {
      RecordOneMore(s, state, c, p, i);
      SavePart(c, i, r);
    }

    // `_record_to_ledger`: one record for each pair of notes.
    method RecordAll(c: CallId, values: seq<int>, debtor: AccountUid, creditor: AccountUid, provisional: bool,
                     ghost p: Call)
      requires Valid() && c in state.calls && state.calls[c] == p && p.Paying? && PayingAt(state, c)
      requires p.values == values && p.debtor == debtor && p.creditor == creditor && p.provisional == provisional
      requires p.debited == p.credited == |values| && p.recorded == 0
      modifies this
      ensures Valid() && limits == old(limits) && nextCall == old(nextCall)
      ensures HasRecorded(old(state), state, c, p, |values|)
    {
      ghost var s := state;
      NothingRecorded(s, c, p);
      for i := 0 to |values|
        invariant Valid() && limits == old(limits) && nextCall == old(nextCall)
        invariant PayingAt(state, c) && HasRecorded(s, state, c, p, i)
      {
        RecordOne(c, i, Record(debtor, creditor, values[i], if provisional then Provisional else Direct, None), s, p);
      }
    }

    /** `perform`: succeeds exactly when the debtor can afford the sum of the parts; then all parts are
        debited, credited and recorded. Refused at the first part, it changes nothing; refused later, it
        leaves the parts before it debited and reports an unbalanced ledger. */
    method Perform(values: seq<int>, debtor: AccountUid, creditor: AccountUid, provisional: bool)
      returns (r: Result<CallId, LedgerError>)
      requires Valid() && Payable(values) && debtor in items && creditor in items
      modifies this
      ensures Valid() && limits == old(limits)
      ensures var b := BalanceOf(old(items)[debtor]);
        && (r.Success? <==> values != [] && Sum(values) <= b.balance - b.liability + limits[debtor])
        && (r == Failure(InsufficientFunds) <==> values != [] && b.balance - b.liability + limits[debtor] < values[0])
        && (r == Failure(UnbalancedLedger) ==>
              exists k :: 0 < k < |values| && PartlyDebited(old(items), items, debtor, values, provisional, k)
                && StopsAt(values, b.balance - b.liability + limits[debtor], k))
      ensures r.Success? ==> r.value !in old(state).calls && (old(state).Quiescent() ==> state.Quiescent())
      ensures r.Success? ==> items == PaidItems(old(items), debtor, creditor, values, provisional)
      ensures r.Success? ==>
        var p := Paying(debtor, creditor, values, provisional, 0, 0, 0, false);
        records == old(records) + PaymentRecords(r.value, p, |values|)
      ensures r.Failure? ==> r.error in {NothingToPair, InsufficientFunds, UnbalancedLedger}
      ensures r == Failure(NothingToPair) <==> values == []
      ensures r.Failure? ==> records == old(records)
      ensures r.Failure? && r.error != UnbalancedLedger ==> items == old(items)
    {
      if values == [] {
        return Failure(NothingToPair);
      }
      var c := nextCall;
      nextCall := nextCall + 1;
      ghost var p := Paying(debtor, creditor, values, provisional, 0, 0, 0, false);
      ghost var s, funds := state, AvailableIn(items[debtor]) + limits[debtor];
      Follow(StartPayment(c, debtor, creditor, values, provisional));
      ghost var s0 := state;
      var done := DebitAll(c, values, debtor, provisional, p);
      ghost var s1 := state;
      StopsAtFirst(values, funds, done);
      if done < |values| {
        PaymentRefused(s, s0, s1, c, p, done);
        return Failure(if done == 0 then InsufficientFunds else UnbalancedLedger);
      }
      CreditAll(c, values, creditor, provisional, p.(debited := |values|));
      ghost var s2 := state;
      RecordAll(c, values, debtor, creditor, provisional, p.(debited := |values|, credited := |values|));
      PaymentComplete(s, s0, s1, s2, state, c, p);
      return Success(c);
    }

    method ClaimRecord(c: CallId, t: Settlement)
      requires Valid() && MayClaim(state, c, t) && c < nextCall
      modifies this`records, this`state
      ensures Valid() && state == AfterClaim(old(state), c, t)
    {
      records := records[t.Transaction() := records[t.Transaction()].(state := t.Busy())];
      Follow(Claim(c, t));
    }

    method RollBackRecord(c: CallId, t: Settlement)
      requires Valid() && MayRollBack(state, c) && state.calls[c].settlement == t
      modifies this`records, this`state
      ensures Valid() && state == AfterRollBack(old(state), c)
    {
      records := records[t.Transaction() := records[t.Transaction()].(state := t.Expected())];
      Follow(RollBack(c));
    }

    // `_debit_receipt` or `_debit_refund`
    method Take(c: CallId, t: Settlement)
      requires Valid() && MayTake(state, c) && state.calls[c].settlement == t
      modifies this`items, this`state
      ensures Valid() && state == AfterTake(old(state), c)
    {
      SettlingCushions(t);
      CushionedKeepsSolvency(items, limits, t.Payer(), t.DebitLine());
      items := items[t.Payer() := items[t.Payer()] + [t.DebitLine()]];
      Follow(TakeValue(c));
    }

    // `_credit_receipt` or `_credit_refund`
    method Give(c: CallId, t: Settlement)
      requires Valid() && MayGive(state, c) && state.calls[c].settlement == t
      modifies this`items, this`state
      ensures Valid() && state == AfterGive(old(state), c)
    {
      SettlingCushions(t);
      CushionedKeepsSolvency(items, limits, t.Payee(), t.CreditLine());
      items := items[t.Payee() := items[t.Payee()] + [t.CreditLine()]];
      Follow(GiveValue(c));
    }

    method Close(c: CallId, t: Settlement)
      requires Valid() && MayClose(state, c) && state.calls[c].settlement == t
      modifies this`records, this`state
      ensures Valid() && state == AfterClose(old(state), c)
    {
      records := records[t.Transaction() := records[t.Transaction()].(state := t.Done())];
      Follow(CloseRecord(c));
    }

    method File(c: CallId, t: Settlement)
      requires Valid() && SettlingAt(state, c, Closed) && state.calls[c].settlement == t
      modifies this`records, this`state
      ensures Valid() && state == AfterFile(old(state), c)
    {
      records := records[NoteUid(c, 0) := t.NewRecord()];
      Follow(FileRecord(c));
    }

    /** `receipt` and `refund`: the settlement goes through exactly when it is well formed, its accounts
        exist, its transaction waits for it and matches it; otherwise nothing changes. */
    method Settle(t: Settlement) returns (r: Result<NoteUid, LedgerError>)
      requires Valid()
      modifies this
      ensures Valid() && limits == old(limits)
      ensures r.Success? <==> Settleable(old(items), old(records), t)
      ensures r.Success? ==> Transferable(t) && items == SettledItems(old(items), t)
      ensures r.Success? ==> r.value !in old(records) && records == SettledRecords(old(records), t, r.value)
      ensures r.Failure? ==> items == old(items) && records == old(records)
      ensures r.Failure? ==> r.error == SettlementError(old(items), old(records), t)
      ensures old(state).Quiescent() ==> state.Quiescent()
    {
      if !t.Admissible() {
        return Failure(NotAdmissible);
      }
      if t.Payer() !in items || t.Payee() !in items {
        return Failure(NoSuchAccount);
      }
      if t.Transaction() !in records || records[t.Transaction()].state != t.Expected() {
        return Failure(UnexpectedState);
      }
      var c := nextCall;
      nextCall := nextCall + 1;
      ghost var s := state;
      NewCallHasNoRecords(s, c);
      ClaimRecord(c, t);
      ghost var s1 := state;
      if !t.Matches(t.Transaction(), records[t.Transaction()]) {
        RollBackRecord(c, t);
        RolledBack(s, s1, state, c, t);
        return Failure(Unmatched);
      }
      SettleableIsTransferable(s, t);
      Complete(c, t, s);
      return Success(NoteUid(c, 0));
    }

    // The settlement matches: value is taken, given, and the result recorded.
    method Complete(c: CallId, t: Settlement, ghost s: Ledger)
      requires Valid() && Settleable(s.items, s.records, t) && Transferable(t) && MayClaim(s, c, t)
      requires state == AfterClaim(s, c, t)
      modifies this`items, this`records, this`state
      ensures Valid()
      ensures items == SettledItems(s.items, t) && records == SettledRecords(s.records, t, NoteUid(c, 0))
      ensures s.Quiescent() ==> state.Quiescent()
    {
      ghost var s1 := state;
      Take(c, t);
      ghost var s2 := state;
      Give(c, t);
      ghost var s3 := state;
      Close(c, t);
      ghost var s4 := state;
      File(c, t);
      SettlementComplete(s, s1, s2, s3, s4, state, c, t);
    }
  }

  /** What is available to an account, overdraft included, never falls below zero by more than the
      refunds drawn from it; without refunds it never falls below zero at all. */
  lemma OverdraftBound(l: LedgerService, a: AccountUid)
    requires l.Valid() && a in l.items
    ensures var b := Replay(ZERO, l.items[a]);
      && -Posted(Original(SentRefund), l.items[a]) <= b.balance - b.liability + l.limits[a]
      && ((forall i :: 0 <= i < |l.items[a]| ==> l.items[a][i].code != SentRefund) ==>
            0 <= b.balance - b.liability + l.limits[a])
  {
    AvailableIsReplayed(l.items[a]);
    if forall i :: 0 <= i < |l.items[a]| ==> l.items[a][i].code != SentRefund {
      NoRefundsSent(l.items[a]);
    }
  }

  lemma {:induction false} NoRefundsSent(history: seq<Info>)
    requires forall i :: 0 <= i < |history| ==> history[i].code != SentRefund
    ensures RefundsSent(history) == 0
    decreases |history|
  {
    if |history| > 0 {
      NoRefundsSent(history[..|history| - 1]);
    }
  }
}
