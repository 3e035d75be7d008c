/**
 The invariant of the ledger: which call is at which stage of which transaction. From it: every
 transaction is settled at most once, by one receipt or one refund, and its state only moves forward.
 */
module LedgerInvariant {
  import opened Wrappers
  import opened Balances
  import opened LedgerSteps

  predicate Counted(call: Call) {
    call.Paying? ==> call.recorded <= call.credited <= call.debited <= |call.values| && Payable(call.values)
  }

  // A call has filed exactly the records it says it has.
  predicate FiledBy(uid: NoteUid, call: Call) {
    match call
    case Paying(_, _, _, _, _, _, recorded, _) => uid.place < recorded
    case Settling(_, stage) => uid.place == 0 && stage == Filed
  }

  predicate RecordsOwned(s: Ledger) {
    forall uid :: uid in s.records ==>
      uid.call in s.calls && FiledBy(uid, s.calls[uid.call]) && 0 <= s.records[uid].value <= MAX_TRANSACTION
  }

  predicate CallsCounted(s: Ledger) {
    forall c :: c in s.calls ==> Counted(s.calls[c])
  }

  // A live settlement's transaction is in the state its stage says, and matches once value has moved.
  predicate StageAgrees(s: Ledger, call: Call) {
    call.Live() ==>
      var t := call.settlement;
      && t.Admissible()
      && RecordIs(s, t, if call.HoldsClaim() then t.Busy() else t.Done())
      && (call.stage != Claimed ==> RecordMatches(s, t))
  }

  predicate StagesAgree(s: Ledger) {
    forall c :: c in s.calls ==> StageAgrees(s, s.calls[c])
  }

  /** No two calls settle the same transaction. */
  predicate OneSettler(s: Ledger) {
    forall c, d :: c in s.calls && d in s.calls && c != d && s.calls[c].Live() && s.calls[d].Live() ==>
      s.calls[c].settlement.Transaction() != s.calls[d].settlement.Transaction()
  }

  predicate IsBusy(state: RecordState) {
    state == Receipting || state == Refunding
  }

  ghost predicate ClaimedBySomeone(s: Ledger, uid: NoteUid) {
    exists c :: c in s.calls && s.calls[c].HoldsClaim() && s.calls[c].settlement.Transaction() == uid
  }

  ghost predicate BusyIsClaimed(s: Ledger) {
    forall uid :: uid in s.records && IsBusy(s.records[uid].state) ==> ClaimedBySomeone(s, uid)
  }

  // A record that settles another was filed by the call that settled it.
  predicate SettlementFiled(s: Ledger, uid: NoteUid)
    requires uid in s.records
  {
    s.records[uid].settles.Some? ==>
      uid.place == 0 && uid.call in s.calls && s.calls[uid.call] == Settling(s.records[uid].settles.value, Filed)
  }

  predicate SettlementsFiled(s: Ledger) {
    forall uid :: uid in s.records ==> SettlementFiled(s, uid)
  }

  predicate AccountsKnown(s: Ledger, call: Call) {
    match call
    case Paying(debtor, creditor, _, _, _, _, _, _) => debtor in s.items && creditor in s.items
    case Settling(t, _) => t.Payer() in s.items && t.Payee() in s.items
  }

  predicate AllAccountsKnown(s: Ledger) {
    forall c :: c in s.calls ==> AccountsKnown(s, s.calls[c])
  }

  ghost predicate Valid(s: Ledger) {
    && CallsCounted(s) && AllAccountsKnown(s) && RecordsOwned(s) && StagesAgree(s) && OneSettler(s) && BusyIsClaimed(s)
    && SettlementsFiled(s)
  }

  lemma InitialValid(s: Ledger)
    requires s.Initial()
    ensures Valid(s)
  {
  }

  // The one call a step belongs to is the only one it changes; records keep everything but their state.
  lemma StepShape(s: Ledger, step: Step)
    requires Enabled(s, step)
    ensures var t, c := Do(s, step), step.call;
      && c in t.calls && t.calls == s.calls[c := t.calls[c]]
      && t.items.Keys == s.items.Keys
      && (forall uid :: uid in s.records && uid in t.records && uid != NoteUid(c, 0) && uid.call != c ==>
            t.records[uid] == s.records[uid].(state := t.records[uid].state))
  {
  }

  // The new record, if the step writes one.
  function FiledUid(s: Ledger, step: Step): Option<NoteUid>
    requires Enabled(s, step)
  {
    match step
    case RecordPart(c) => Some(NoteUid(c, s.calls[c].recorded))
    case FileRecord(c) => Some(NoteUid(c, 0))
    case _ => None
  }

  lemma NewUidIsFresh(s: Ledger, step: Step)
    requires Valid(s) && Enabled(s, step)
    ensures FiledUid(s, step).Some? ==> FiledUid(s, step).value !in s.records
  {
  }

  /** The moves a stored transaction's state may make. */
  predicate LegalMove(before: RecordState, after: RecordState) {
    || before == after
    || (before == Provisional && after == Receipting)
    || (before == Receipting && (after == Provisional || after == Receipted))
    || (before == Direct && after == Refunding)
    || (before == Refunding && (after == Direct || after == Refunded))
  }

  /** A stored record never disappears, keeps its accounts and value, and its state moves legally;
      in particular a receipted or refunded transaction stays so. */
  lemma RecordsOnlyMoveLegally(s: Ledger, step: Step, uid: NoteUid)
    requires Valid(s) && Enabled(s, step) && uid in s.records
    ensures uid in Do(s, step).records
    ensures Do(s, step).records[uid] == s.records[uid].(state := Do(s, step).records[uid].state)
    ensures LegalMove(s.records[uid].state, Do(s, step).records[uid].state)
  {
    NewUidIsFresh(s, step);
  }

  lemma StepKeepsCalls(s: Ledger, step: Step)
    requires Valid(s) && Enabled(s, step)
    ensures CallsCounted(Do(s, step)) && AllAccountsKnown(Do(s, step))
  {
    StepShape(s, step);
    var t, c := Do(s, step), step.call;
    forall d | d in t.calls
      ensures Counted(t.calls[d]) && AccountsKnown(t, t.calls[d])
    {
      if d in s.calls {
        assert Counted(s.calls[d]) && AccountsKnown(s, s.calls[d]);
      }
    }
  }

  lemma FiledStaysFiled(s: Ledger, step: Step, uid: NoteUid)
    requires Valid(s) && Enabled(s, step) && uid in s.records
    ensures uid.call in Do(s, step).calls && FiledBy(uid, Do(s, step).calls[uid.call])
    ensures s.calls[uid.call].Settling? ==>
              Do(s, step).calls[uid.call] == s.calls[uid.call]
  {
    assert FiledBy(uid, s.calls[uid.call]);
  }

  lemma NewRecordIsFiled(s: Ledger, step: Step)
    requires Valid(s) && Enabled(s, step) && FiledUid(s, step).Some?
    ensures var t, uid := Do(s, step), FiledUid(s, step).value;
      && t.records.Keys == s.records.Keys + {uid}
      && FiledBy(uid, t.calls[uid.call]) && 0 <= t.records[uid].value <= MAX_TRANSACTION
      && !IsBusy(t.records[uid].state)
      && SettlementFiled(t, uid)
  {
    if step.FileRecord? {
      assert StageAgrees(s, s.calls[step.call]);
    }
  }

  lemma StepKeepsOwnership(s: Ledger, step: Step)
    requires Valid(s) && Enabled(s, step)
    ensures RecordsOwned(Do(s, step)) && SettlementsFiled(Do(s, step))
  {
    var t := Do(s, step);
    forall uid | uid in t.records
      ensures uid.call in t.calls && FiledBy(uid, t.calls[uid.call]) && 0 <= t.records[uid].value <= MAX_TRANSACTION
      ensures SettlementFiled(t, uid)
    {
      if uid in s.records {
        RecordsOnlyMoveLegally(s, step, uid);
        FiledStaysFiled(s, step, uid);
        assert SettlementFiled(s, uid);
      } else {
        assert FiledUid(s, step) == Some(uid);
        NewRecordIsFiled(s, step);
      }
    }
  }

  // A claim is only ever taken on a transaction nobody has settled or is settling.
  lemma ClaimFindsNoSettler(s: Ledger, c: CallId, t: Settlement, d: CallId)
    requires Valid(s) && Enabled(s, Claim(c, t))
    requires d in s.calls && s.calls[d].Live()
    ensures s.calls[d].settlement.Transaction() != t.Transaction()
  {
    assert StageAgrees(s, s.calls[d]);
  }

  // Every settlement alive in `t`, but for call `c`, was alive in `s`.
  predicate NoNewSettler(s: Ledger, t: Ledger, c: CallId) {
    forall d :: d in t.calls && t.calls[d].Live() && d != c ==>
      d in s.calls && s.calls[d].Live() && s.calls[d].settlement == t.calls[d].settlement
  }

  lemma LiveWasLive(s: Ledger, step: Step)
    requires Enabled(s, step)
    ensures var t, c := Do(s, step), step.call;
      && NoNewSettler(s, t, c)
      && (t.calls[c].Live() && !step.Claim? ==>
            c in s.calls && s.calls[c].Live() && t.calls[c].settlement == s.calls[c].settlement)
      && (step.Claim? ==> t.calls[c] == Settling(step.settlement, Claimed))
  {
    StepShape(s, step);
  }

  lemma OneSettlerFrom(s: Ledger, t: Ledger, c: CallId)
    requires OneSettler(s) && NoNewSettler(s, t, c) && c in t.calls
    requires t.calls[c].Live() ==> forall d :: d in s.calls && d != c && s.calls[d].Live() ==>
      s.calls[d].settlement.Transaction() != t.calls[c].settlement.Transaction()
    ensures OneSettler(t)
  {
  }

  lemma StepKeepsOneSettler(s: Ledger, step: Step)
    requires Valid(s) && Enabled(s, step)
    ensures OneSettler(Do(s, step))
  {
    var t, c := Do(s, step), step.call;
    LiveWasLive(s, step);
    if step.Claim? {
      forall d | d in s.calls && d != c && s.calls[d].Live()
        ensures s.calls[d].settlement.Transaction() != t.calls[c].settlement.Transaction()
      {
        ClaimFindsNoSettler(s, c, step.settlement, d);
      }
    }
    OneSettlerFrom(s, t, c);
  }

  lemma TakeKeepsStage(s: Ledger, c: CallId)
    requires Valid(s) && Enabled(s, TakeValue(c))
    ensures StageAgrees(Do(s, TakeValue(c)), Do(s, TakeValue(c)).calls[c])
  {
    assert StageAgrees(s, s.calls[c]);
  }

  lemma GiveKeepsStage(s: Ledger, c: CallId)
    requires Valid(s) && Enabled(s, GiveValue(c))
    ensures StageAgrees(Do(s, GiveValue(c)), Do(s, GiveValue(c)).calls[c])
  {
    assert StageAgrees(s, s.calls[c]);
  }

  lemma CloseKeepsStage(s: Ledger, c: CallId)
    requires Valid(s) && Enabled(s, CloseRecord(c))
    ensures StageAgrees(Do(s, CloseRecord(c)), Do(s, CloseRecord(c)).calls[c])
  {
    assert StageAgrees(s, s.calls[c]);
  }

  lemma FileKeepsStage(s: Ledger, c: CallId)
    requires Valid(s) && Enabled(s, FileRecord(c))
    ensures StageAgrees(Do(s, FileRecord(c)), Do(s, FileRecord(c)).calls[c])
  {
    assert StageAgrees(s, s.calls[c]);
    NewUidIsFresh(s, FileRecord(c));
  }

  lemma StepKeepsOwnStage(s: Ledger, step: Step)
    requires Valid(s) && Enabled(s, step)
    ensures StageAgrees(Do(s, step), Do(s, step).calls[step.call])
  {
    match step
    case TakeValue(c) => TakeKeepsStage(s, c);
    case GiveValue(c) => GiveKeepsStage(s, c);
    case CloseRecord(c) => CloseKeepsStage(s, c);
    case FileRecord(c) => FileKeepsStage(s, c);
    case _ =>
  }

  // The transaction of another call's settlement is untouched.
  lemma OtherTransactionUntouched(s: Ledger, step: Step, d: CallId)
    requires Valid(s) && Enabled(s, step)
    requires d in s.calls && d != step.call && s.calls[d].Live()
    ensures var uid := s.calls[d].settlement.Transaction();
      uid in s.records && uid in Do(s, step).records && Do(s, step).records[uid] == s.records[uid]
  {
    var c := step.call;
    assert StageAgrees(s, s.calls[d]);
    NewUidIsFresh(s, step);
    if step.Claim? {
      ClaimFindsNoSettler(s, c, step.settlement, d);
    } else if c in s.calls && s.calls[c].Live() {
      assert s.calls[c].settlement.Transaction() != s.calls[d].settlement.Transaction();
    }
  }

  lemma StepKeepsStages(s: Ledger, step: Step)
    requires Valid(s) && Enabled(s, step)
    ensures StagesAgree(Do(s, step))
  {
    var t, c := Do(s, step), step.call;
    StepShape(s, step);
    StepKeepsOwnStage(s, step);
    forall d | d in t.calls && d != c
      ensures StageAgrees(t, t.calls[d])
    {
      assert StageAgrees(s, s.calls[d]);
      if s.calls[d].Live() {
        OtherTransactionUntouched(s, step, d);
      }
    }
  }

  // A transaction that stays busy stays claimed by the same call.
  lemma ClaimSurvives(s: Ledger, step: Step, d: CallId)
    requires Valid(s) && Enabled(s, step) && d in s.calls && s.calls[d].HoldsClaim()
    ensures var t, uid := Do(s, step), s.calls[d].settlement.Transaction();
      uid in t.records && IsBusy(t.records[uid].state) ==>
        d in t.calls && t.calls[d].HoldsClaim() && t.calls[d].settlement == s.calls[d].settlement
  {
    if d == step.call {
      assert step.RollBack? || step.TakeValue? || step.GiveValue? || step.CloseRecord?;
    } else {
      StepShape(s, step);
    }
  }

  // Only a claim makes a transaction busy.
  lemma BusyWasBusy(s: Ledger, step: Step, uid: NoteUid)
    requires Valid(s) && Enabled(s, step)
    requires uid in Do(s, step).records && IsBusy(Do(s, step).records[uid].state)
    requires !(step.Claim? && uid == step.settlement.Transaction())
    ensures uid in s.records && IsBusy(s.records[uid].state)
  {
    if FiledUid(s, step).Some? {
      NewRecordIsFiled(s, step);
    }
  }

  lemma StepKeepsClaims(s: Ledger, step: Step)
    requires Valid(s) && Enabled(s, step)
    ensures BusyIsClaimed(Do(s, step))
  {
    var t, c := Do(s, step), step.call;
    forall uid | uid in t.records && IsBusy(t.records[uid].state)
      ensures ClaimedBySomeone(t, uid)
    {
      if step.Claim? && uid == step.settlement.Transaction() {
        assert t.calls[c].HoldsClaim();
      } else {
        BusyWasBusy(s, step, uid);
        var d :| d in s.calls && s.calls[d].HoldsClaim() && s.calls[d].settlement.Transaction() == uid;
        ClaimSurvives(s, step, d);
      }
    }
  }

  lemma StepKeepsValid(s: Ledger, step: Step)
    requires Valid(s) && Enabled(s, step)
    ensures Valid(Do(s, step))
  {
    StepKeepsCalls(s, step);
    StepKeepsOwnership(s, step);
    StepKeepsOneSettler(s, step);
    StepKeepsStages(s, step);
    StepKeepsClaims(s, step);
  }

  lemma {:induction false} RunKeepsValid(s: Ledger, steps: seq<Step>, t: Ledger)
    requires Valid(s) && Runs(s, steps, t)
    ensures Valid(t)
    decreases |steps|
  {
    if steps != [] {
      StepKeepsValid(s, steps[0]);
      RunKeepsValid(Do(s, steps[0]), steps[1..], t);
    }
  }

  /** At most one record in the ledger settles any given transaction: one receipt or one refund,
      never both and never two, whatever was interleaved. */
  lemma SettledAtMostOnce(s: Ledger, steps: seq<Step>, t: Ledger, one: NoteUid, two: NoteUid)
    requires s.Initial() && Runs(s, steps, t)
    requires one in t.records && t.records[one].settles.Some?
    requires two in t.records && t.records[two].settles.Some?
    requires t.records[one].settles.value.Transaction() == t.records[two].settles.value.Transaction()
    ensures one == two
  {
    InitialValid(s);
    RunKeepsValid(s, steps, t);
    assert SettlementFiled(t, one) && SettlementFiled(t, two);
    assert t.calls[one.call].Live() && t.calls[two.call].Live();
  }

  lemma ClaimMovesOn(s: Ledger, c: CallId)
    requires Valid(s) && c in s.calls && s.calls[c].Settling? && s.calls[c].stage == Claimed
    ensures Enabled(s, TakeValue(c)) != Enabled(s, RollBack(c))
  {
    assert StageAgrees(s, s.calls[c]) && AccountsKnown(s, s.calls[c]);
  }

  lemma DebitMovesOn(s: Ledger, c: CallId)
    requires Valid(s) && c in s.calls && s.calls[c].Settling? && s.calls[c].stage == Debited
    ensures Enabled(s, GiveValue(c))
  {
    assert StageAgrees(s, s.calls[c]) && AccountsKnown(s, s.calls[c]);
  }

  lemma CreditMovesOn(s: Ledger, c: CallId)
    requires Valid(s) && c in s.calls && s.calls[c].Settling? && s.calls[c].stage == Credited
    ensures Enabled(s, CloseRecord(c))
  {
    assert StageAgrees(s, s.calls[c]) && AccountsKnown(s, s.calls[c]);
  }

  lemma CloseMovesOn(s: Ledger, c: CallId)
    requires Valid(s) && c in s.calls && s.calls[c].Settling? && s.calls[c].stage == Closed
    ensures Enabled(s, FileRecord(c))
  {
    assert StageAgrees(s, s.calls[c]) && AccountsKnown(s, s.calls[c]);
  }

  /** A settlement that has not finished can always take its next step. */
  ghost predicate MovesOn(s: Ledger, c: CallId)
    requires c in s.calls && s.calls[c].Settling?
  {
    match s.calls[c].stage
    case Claimed => Enabled(s, TakeValue(c)) != Enabled(s, RollBack(c))
    case Debited => Enabled(s, GiveValue(c))
    case Credited => Enabled(s, CloseRecord(c))
    case Closed => Enabled(s, FileRecord(c))
    case _ => s.calls[c].Finished()
  }

  /** Once value has been taken for a settlement, the second check of the state and of the match, made
      when the value is given, cannot fail: the call is never stuck with the value in its hands. */
  lemma SettlementIsNeverStuck(s: Ledger, steps: seq<Step>, t: Ledger, c: CallId)
    requires s.Initial() && Runs(s, steps, t)
    requires c in t.calls && t.calls[c].Settling?
    ensures MovesOn(t, c)
  {
    InitialValid(s);
    RunKeepsValid(s, steps, t);
    match t.calls[c].stage
    case Claimed => ClaimMovesOn(t, c);
    case Debited => DebitMovesOn(t, c);
    case Credited => CreditMovesOn(t, c);
    case Closed => CloseMovesOn(t, c);
    case _ =>
  }

  /** Nor is a payment: a part can be debited or refused until all are, then credited until all are, then
      recorded until all are. */
  lemma PaymentIsNeverStuck(s: Ledger, steps: seq<Step>, t: Ledger, c: CallId)
    requires s.Initial() && Runs(s, steps, t)
    requires c in t.calls && t.calls[c].Paying? && !t.calls[c].refused
    ensures var p := t.calls[c];
      && (Enabled(t, DebitPart(c)) <==> p.debited < |p.values|)
      && (Enabled(t, RefusePart(c)) <==> p.debited < |p.values|)
      && (Enabled(t, CreditPart(c)) <==> p.credited < p.debited == |p.values|)
      && (Enabled(t, RecordPart(c)) <==> p.recorded < p.credited == |p.values|)
      && (p.recorded == |p.values| ==> p.Finished())
  {
    InitialValid(s);
    RunKeepsValid(s, steps, t);
    assert Counted(t.calls[c]) && AccountsKnown(t, t.calls[c]);
  }

  // A ledger with one payment, in the given state, and perhaps its settlement.
  function OnePayment(provisional: bool, state: RecordState, settling: Option<Call>): Ledger {
    var calls := map[0 := Paying(0, 1, [1], provisional, 1, 1, 1, false)];
    Ledger(map[0 := [], 1 := []], map[NoteUid(0, 0) := Record(0, 1, 1, state, None)],
           if settling.Some? then calls[1 := settling.value] else calls)
  }

  lemma PaidIsValid(provisional: bool, state: RecordState)
    requires !IsBusy(state)
    ensures Valid(OnePayment(provisional, state, None))
  {
  }

  lemma SettlingIsOwned(provisional: bool, t: Settlement, stage: Stage)
    requires t.Admissible() && t.note.debitNote == NoteUid(0, 0) && t.note.debtor == 0 && t.note.creditor == 1
    requires stage == Claimed || (stage == Credited && t.note.value == 1)
    ensures var s := OnePayment(provisional, t.Busy(), Some(Settling(t, stage)));
      CallsCounted(s) && AllAccountsKnown(s) && RecordsOwned(s) && OneSettler(s) && SettlementsFiled(s)
  {
  }

  lemma SettlingIsClaimed(provisional: bool, t: Settlement, stage: Stage)
    requires t.Admissible() && t.note.debitNote == NoteUid(0, 0) && t.note.debtor == 0 && t.note.creditor == 1
    requires stage == Claimed || (stage == Credited && t.note.value == 1)
    ensures var s := OnePayment(provisional, t.Busy(), Some(Settling(t, stage)));
      StagesAgree(s) && BusyIsClaimed(s)
  {
    var s := OnePayment(provisional, t.Busy(), Some(Settling(t, stage)));
    assert s.calls[1].HoldsClaim();
  }

  lemma SettlingIsValid(provisional: bool, t: Settlement, stage: Stage)
    requires t.Admissible() && t.note.debitNote == NoteUid(0, 0) && t.note.debtor == 0 && t.note.creditor == 1
    requires stage == Claimed || (stage == Credited && t.note.value == 1)
    ensures Valid(OnePayment(provisional, t.Busy(), Some(Settling(t, stage))))
  {
    SettlingIsOwned(provisional, t, stage);
    SettlingIsClaimed(provisional, t, stage);
  }

  /** Every legal move of a state is made by some step of some ledger. */
  lemma LegalMovesAreMade(before: RecordState, after: RecordState) returns (s: Ledger, step: Step, uid: NoteUid)
    requires LegalMove(before, after) && before != after
    ensures Valid(s) && Enabled(s, step) && uid in s.records && uid in Do(s, step).records
    ensures s.records[uid].state == before && Do(s, step).records[uid].state == after
  {
    uid := NoteUid(0, 0);
    var provisional := before == Provisional || before == Receipting;
    var note := CreditNote(uid, 0, 1, if after == Provisional || after == Direct then 2 else 1, provisional);
    var t := if provisional then Receipt(note, 1) else Refund(note);
    if !IsBusy(before) {
      PaidIsValid(provisional, before);
      s, step := OnePayment(provisional, before, None), Claim(1, t);
    } else if after == Provisional || after == Direct {
      SettlingIsValid(provisional, t, Claimed);
      s, step := OnePayment(provisional, before, Some(Settling(t, Claimed))), RollBack(1);
    } else {
      SettlingIsValid(provisional, t, Credited);
      s, step := OnePayment(provisional, before, Some(Settling(t, Credited))), CloseRecord(1);
    }
  }
}
