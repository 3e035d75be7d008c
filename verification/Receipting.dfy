/** Receipts for a list of provisional payments, for all of their value or for part of it. */
module Receipting {
  import opened Amounts
  import opened LedgerSteps
  import opened Wrappers

  datatype ReceiptError = NotACreditNote | NotProvisional | NegativeReceipt | ReceiptTooLarge

  /** The constructor of a receipt. */
  function NewReceipt(note: CreditNote, receipted: Option<int>): (r: Result<Settlement, ReceiptError>)
    ensures r.Success? <==> note.provisional && (receipted.Some? ==> 0 <= receipted.value <= note.value)
    ensures r.Success? ==> r.value == Receipt(note, if receipted.Some? then receipted.value else note.value)
    ensures r == Failure(NotProvisional) <==> !note.provisional
    ensures r == Failure(NegativeReceipt) <==> note.provisional && receipted.Some? && receipted.value < 0
    ensures r == Failure(ReceiptTooLarge) <==>
      note.provisional && receipted.Some? && 0 <= receipted.value && note.value < receipted.value
  {
    if !note.provisional then Failure(NotProvisional)
    else match receipted
      case None => Success(Receipt(note, note.value))
      case Some(v) =>
        if v < 0 then Failure(NegativeReceipt)
        else if v > note.value then Failure(ReceiptTooLarge)
        else Success(Receipt(note, v))
  }

  function NoteValues(notes: seq<CreditNote>): (v: seq<int>)
    ensures |v| == |notes| && forall i :: 0 <= i < |v| ==> v[i] == notes[i].value
  {
    seq(|notes|, i requires 0 <= i < |notes| => notes[i].value)
  }

  function ReceiptedValues(receipts: seq<Settlement>): (v: seq<int>)
    requires forall i :: 0 <= i < |receipts| ==> receipts[i].Receipt?
    ensures |v| == |receipts| && forall i :: 0 <= i < |v| ==> v[i] == receipts[i].receipted
  {
    seq(|receipts|, i requires 0 <= i < |receipts| => receipts[i].receipted)
  }

  /** One receipt for each note, in order, for no more than the note's value. */
  predicate Covers(notes: seq<CreditNote>, receipts: seq<Settlement>) {
    && |receipts| == |notes|
    && forall i :: 0 <= i < |notes| ==>
        receipts[i].Receipt? && receipts[i].note == notes[i] && receipts[i].Admissible()
  }

  /** What is held back is held back from the first notes: nothing, then at most one part, then all. */
  predicate FrontLoadedAt(notes: seq<CreditNote>, amounts: seq<int>, k: nat)
    requires |amounts| == |notes|
  {
    forall i :: 0 <= i < |notes| ==> (i < k ==> amounts[i] == 0) && (i > k ==> amounts[i] == notes[i].value)
  }

  ghost predicate FrontLoaded(notes: seq<CreditNote>, amounts: seq<int>)
    requires |amounts| == |notes|
  {
    exists k: nat :: FrontLoadedAt(notes, amounts, k)
  }

  predicate Within(notes: seq<CreditNote>, amounts: seq<int>) {
    |amounts| == |notes| && forall i :: 0 <= i < |notes| ==> 0 <= amounts[i] <= notes[i].value
  }

  // Front-loaded amounts with a later cut are smaller everywhere.
  lemma LaterCutIsSmaller(notes: seq<CreditNote>, a: seq<int>, j: nat, b: seq<int>, k: nat, i: nat)
    requires Within(notes, a) && Within(notes, b) && i < |notes| && j < k
    requires FrontLoadedAt(notes, a, j) && FrontLoadedAt(notes, b, k)
    ensures b[i] <= a[i]
  {
  }

  lemma {:induction false} SmallerWithSameSum(a: seq<int>, b: seq<int>)
    requires |a| == |b| && (forall i :: 0 <= i < |a| ==> b[i] <= a[i])
    ensures Sum(b) <= Sum(a)
    ensures Sum(b) == Sum(a) ==> a == b
    decreases |a|
  {
    if |a| > 0 {
      SmallerWithSameSum(a[..|a| - 1], b[..|b| - 1]);
      assert a == a[..|a| - 1] + [a[|a| - 1]] && b == b[..|b| - 1] + [b[|b| - 1]];
    } else {
      assert a == b;
    }
  }

  /** The notes, the total and the front-loaded shape leave no choice: there is only one way to share
      out a partial receipt. */
  lemma ShapeDeterminesAmounts(notes: seq<CreditNote>, a: seq<int>, b: seq<int>)
    requires Within(notes, a) && Within(notes, b) && Sum(a) == Sum(b)
    requires FrontLoaded(notes, a) && FrontLoaded(notes, b)
    ensures a == b
  {
    var j: nat :| FrontLoadedAt(notes, a, j);
    var k: nat :| FrontLoadedAt(notes, b, k);
    if j < k {
      forall i | 0 <= i < |a| ensures b[i] <= a[i] {
        LaterCutIsSmaller(notes, a, j, b, k, i);
      }
      SmallerWithSameSum(a, b);
    } else if k < j {
      forall i | 0 <= i < |a| ensures a[i] <= b[i] {
        LaterCutIsSmaller(notes, b, k, a, j, i);
      }
      SmallerWithSameSum(b, a);
    } else {
      SameCut(notes, a, b, k);
    }
  }

  // With the same cut the two differ at the cut at most, so one is smaller everywhere.
  lemma SameCut(notes: seq<CreditNote>, a: seq<int>, b: seq<int>, k: nat)
    requires Within(notes, a) && Within(notes, b) && Sum(a) == Sum(b)
    requires FrontLoadedAt(notes, a, k) && FrontLoadedAt(notes, b, k)
    ensures a == b
  {
    if k >= |a| || a[k] == b[k] {
      assert a == b;
    } else if b[k] < a[k] {
      SmallerWithSameSum(a, b);
    } else {
      SmallerWithSameSum(b, a);
    }
  }

  method TotalValue(notes: seq<CreditNote>) returns (total: int)
    ensures total == Sum(NoteValues(notes))
  {
    total := 0;
    for i := 0 to |notes|
      invariant total == Sum(NoteValues(notes[..i]))
    {
      assert NoteValues(notes[..i + 1]) == NoteValues(notes[..i]) + [notes[i].value];
      SumAppend(NoteValues(notes[..i]), notes[i].value);
      total := total + notes[i].value;
    }
    assert notes[..|notes|] == notes;
  }

  method ReceiptInFull(notes: seq<CreditNote>) returns (r: Result<seq<Settlement>, ReceiptError>)
    requires forall i :: 0 <= i < |notes| ==> 0 <= notes[i].value
    ensures r.Success? <==> forall i :: 0 <= i < |notes| ==> notes[i].provisional
    ensures r.Failure? ==> r.error == NotProvisional
    ensures r.Success? ==> Covers(notes, r.value) && ReceiptedValues(r.value) == NoteValues(notes)
  {
    var receipts := [];
    for i := 0 to |notes|
      invariant Covers(notes[..i], receipts) && ReceiptedValues(receipts) == NoteValues(notes[..i])
      invariant forall j :: 0 <= j < i ==> notes[j].provisional
    {
      var receipt :- NewReceipt(notes[i], None);
      receipts := receipts + [receipt];
    }
    assert notes[..|notes|] == notes;
    return Success(receipts);
  }

  // The first notes have been receipted, `taken` of the `held` value has been held back so far.
  predicate HeldBack(notes: seq<CreditNote>, receipts: seq<Settlement>, held: int, diff: int, cut: nat) {
    && Covers(notes, receipts)
    && 0 <= diff <= held
    && Sum(ReceiptedValues(receipts)) + held - diff == Sum(NoteValues(notes))
    && FrontLoadedAt(notes, ReceiptedValues(receipts), cut)
    && cut <= |notes|
    && (diff > 0 ==> cut == |notes| && Sum(ReceiptedValues(receipts)) == 0)
  }

  lemma OneMoreReceipt(notes: seq<CreditNote>, receipts: seq<Settlement>, note: CreditNote, receipt: Settlement)
    requires Covers(notes, receipts) && receipt.Receipt? && receipt.note == note && receipt.Admissible()
    ensures Covers(notes + [note], receipts + [receipt])
    ensures ReceiptedValues(receipts + [receipt]) == ReceiptedValues(receipts) + [receipt.receipted]
    ensures NoteValues(notes + [note]) == NoteValues(notes) + [note.value]
    ensures Sum(ReceiptedValues(receipts + [receipt])) == Sum(ReceiptedValues(receipts)) + receipt.receipted
    ensures Sum(NoteValues(notes + [note])) == Sum(NoteValues(notes)) + note.value
  {
    assert ReceiptedValues(receipts + [receipt]) == ReceiptedValues(receipts) + [receipt.receipted];
    assert NoteValues(notes + [note]) == NoteValues(notes) + [note.value];
    SumAppend(ReceiptedValues(receipts), receipt.receipted);
    SumAppend(NoteValues(notes), note.value);
  }

  // `d` is held back from the next note.
  lemma HoldBackFrom(notes: seq<CreditNote>, receipts: seq<Settlement>, held: int, diff: int, cut: nat,
                     note: CreditNote, receipt: Settlement, d: int) returns (cut': nat)
    requires HeldBack(notes, receipts, held, diff, cut)
    requires note.provisional && 0 <= note.value && d == if diff < note.value then diff else note.value
    requires receipt == Receipt(note, note.value - d)
    ensures HeldBack(notes + [note], receipts + [receipt], held, diff - d, cut')
  {
    OneMoreReceipt(notes, receipts, note, receipt);
    cut' := if diff - d > 0 then |notes| + 1 else cut;
    CutMoves(notes, ReceiptedValues(receipts), cut, note, receipt.receipted, cut');
  }

  lemma HoldBackAt(notes: seq<CreditNote>, i: nat, receipts: seq<Settlement>, held: int, diff: int, cut: nat,
                   receipt: Settlement, d: int) returns (cut': nat)
    requires i < |notes| && HeldBack(notes[..i], receipts, held, diff, cut)
    requires notes[i].provisional && 0 <= notes[i].value && d == if diff < notes[i].value then diff else notes[i].value
    requires receipt == Receipt(notes[i], notes[i].value - d)
    ensures HeldBack(notes[..i + 1], receipts + [receipt], held, diff - d, cut')
  {
    cut' := HoldBackFrom(notes[..i], receipts, held, diff, cut, notes[i], receipt, d);
    assert notes[..i] + [notes[i]] == notes[..i + 1];
  }

  lemma NothingHeldBack(notes: seq<CreditNote>, held: int)
    requires 0 <= held
    ensures HeldBack(notes[..0], [], held, held, 0)
  {
    assert notes[..0] == [];
  }

  lemma CutMoves(notes: seq<CreditNote>, amounts: seq<int>, cut: nat, note: CreditNote, amount: int, cut': nat)
    requires |amounts| == |notes| && FrontLoadedAt(notes, amounts, cut) && cut <= |notes|
    requires (cut' == cut && (cut == |notes| || amount == note.value))
      || (cut == |notes| && cut' == |notes| + 1 && amount == 0)
    ensures FrontLoadedAt(notes + [note], amounts + [amount], cut')
  {
  }

  // At the end nothing is left to hold back.
  lemma AllHeldBack(notes: seq<CreditNote>, receipts: seq<Settlement>, total: int, receipted: int, diff: int, cut: nat)
    requires HeldBack(notes, receipts, total - receipted, diff, cut)
    requires total == Sum(NoteValues(notes)) && 0 <= receipted < total
    ensures Sum(ReceiptedValues(receipts)) == receipted && FrontLoaded(notes, ReceiptedValues(receipts))
  {
    assert FrontLoadedAt(notes, ReceiptedValues(receipts), cut);
  }

  // Holds `total - receipted` back from the first notes.
  method ReceiptInPart(notes: seq<CreditNote>, total: int, receipted: int)
    returns (r: Result<seq<Settlement>, ReceiptError>)
    requires forall i :: 0 <= i < |notes| ==> 0 <= notes[i].value
    requires total == Sum(NoteValues(notes)) && 0 <= receipted < total
    ensures r.Success? <==> forall i :: 0 <= i < |notes| ==> notes[i].provisional
    ensures r.Failure? ==> r.error == NotProvisional
    ensures r.Success? ==> Covers(notes, r.value)
    ensures r.Success? ==> Sum(ReceiptedValues(r.value)) == receipted && FrontLoaded(notes, ReceiptedValues(r.value))
  {
    var receipts := [];
    var diff := total - receipted;
    ghost var held, cut: nat := diff, 0;
    NothingHeldBack(notes, held);
    for i := 0 to |notes|
      invariant HeldBack(notes[..i], receipts, held, diff, cut)
      invariant forall j :: 0 <= j < i ==> notes[j].provisional
    {
      var d := if diff < notes[i].value then diff else notes[i].value;
      var receipt :- NewReceipt(notes[i], Some(notes[i].value - d));
      cut := HoldBackAt(notes, i, receipts, held, diff, cut, receipt, d);
      diff := diff - d;
      receipts := receipts + [receipt];
    }
    assert notes[..|notes|] == notes;
    AllHeldBack(notes, receipts, total, receipted, diff, cut);
    return Success(receipts);
  }

  /** `Receipt.create`: succeeds exactly when there are notes, all provisional, and the total asked for lies
      between zero and their sum; then there is one receipt for each note, in order, the receipts add up
      to what was asked for, and what is missing is missing from the first notes. */
  method Create(notes: seq<CreditNote>, receipted: Option<int>) returns (r: Result<seq<Settlement>, ReceiptError>)
    requires forall i :: 0 <= i < |notes| ==> 0 <= notes[i].value
    ensures r.Success? <==>
      && notes != [] && (forall i :: 0 <= i < |notes| ==> notes[i].provisional)
      && (receipted.Some? ==> 0 <= receipted.value <= Sum(NoteValues(notes)))
    ensures r.Success? ==> Covers(notes, r.value) && FrontLoaded(notes, ReceiptedValues(r.value))
    ensures r.Success? ==>
      Sum(ReceiptedValues(r.value)) == if receipted.Some? then receipted.value else Sum(NoteValues(notes))
    ensures r == Failure(NotACreditNote) <==> notes == []
    ensures |notes| > 1 ==>
      && (r == Failure(NegativeReceipt) <==> receipted.Some? && receipted.value < 0)
      && (r == Failure(ReceiptTooLarge) <==> receipted.Some? && Sum(NoteValues(notes)) < receipted.value)
  {
    if |notes| == 0 {
      return Failure(NotACreditNote);
    }
    if |notes| == 1 {
      var receipt :- SingleReceipt(notes, receipted);
      return Success([receipt]);
    }
    var total := TotalValue(notes);
    SumNonNegative(NoteValues(notes));
    var wanted := if receipted.Some? then receipted.value else total;
    if wanted < 0 {
      return Failure(NegativeReceipt);
    }
    if wanted > total {
      return Failure(ReceiptTooLarge);
    }
    if wanted == total {
      r := ReceiptInFull(notes);
      FullIsFrontLoaded(notes);
    } else {
      r := ReceiptInPart(notes, total, wanted);
    }
  }

  method SingleReceipt(notes: seq<CreditNote>, receipted: Option<int>) returns (r: Result<Settlement, ReceiptError>)
    requires |notes| == 1 && 0 <= notes[0].value
    ensures r.Success? <==>
      notes[0].provisional && (receipted.Some? ==> 0 <= receipted.value <= Sum(NoteValues(notes)))
    ensures r.Failure? ==> r.error != NotACreditNote
    ensures r.Success? ==> Covers(notes, [r.value]) && FrontLoaded(notes, ReceiptedValues([r.value]))
    ensures r.Success? ==>
      Sum(ReceiptedValues([r.value])) == if receipted.Some? then receipted.value else Sum(NoteValues(notes))
  {
    SumAppend([], notes[0].value);
    assert NoteValues(notes) == [] + [notes[0].value];
    var receipt :- NewReceipt(notes[0], receipted);
    SumAppend([], receipt.receipted);
    assert ReceiptedValues([receipt]) == [] + [receipt.receipted];
    assert FrontLoadedAt(notes, ReceiptedValues([receipt]), 0);
    return Success(receipt);
  }

  lemma FullIsFrontLoaded(notes: seq<CreditNote>)
    ensures FrontLoaded(notes, NoteValues(notes))
  {
    assert FrontLoadedAt(notes, NoteValues(notes), 0);
  }
}
