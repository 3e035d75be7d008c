/** Matching debit notes with the credit notes that answer them. */
module Pairing {
  import opened LedgerSteps
  import opened Wrappers

  datatype DebitNote = DebitNote(uid: NoteUid, account: AccountUid, value: int, provisional: bool)

  datatype PairedNote = PairedNote(debit: DebitNote, credit: CreditNote)

  datatype PairingError = NoDebitNotes | NoCreditNotes | MismatchedPair | UnbalancedLedger

  /** The dictionary a list of credit notes becomes: under each debit note's UID, the last credit note for it. */
  function Indexed(credits: seq<CreditNote>): map<NoteUid, CreditNote> {
    if |credits| == 0 then map[]
    else
      var last := credits[|credits| - 1];
      Indexed(credits[..|credits| - 1])[last.debitNote := last]
  }

  // Every debit note has a credit note of its own in the dictionary.
  predicate Answered(debits: seq<DebitNote>, credits: map<NoteUid, CreditNote>) {
    forall i :: 0 <= i < |debits| ==>
      debits[i].uid in credits && credits[debits[i].uid].debitNote == debits[i].uid
  }

  function UidsOf(debits: seq<DebitNote>): set<NoteUid> {
    set i | 0 <= i < |debits| :: debits[i].uid
  }

  predicate DistinctDebits(debits: seq<DebitNote>) {
    forall i, j :: 0 <= i < j < |debits| ==> debits[i].uid != debits[j].uid
  }

  predicate DistinctCredits(credits: seq<CreditNote>) {
    forall i, j :: 0 <= i < j < |credits| ==> credits[i].debitNote != credits[j].debitNote
  }

  // The pairs, when every debit note is answered: one for each debit note, in order.
  function PairsOf(debits: seq<DebitNote>, credits: map<NoteUid, CreditNote>): (pairs: seq<PairedNote>)
    requires Answered(debits, credits)
    ensures |pairs| == |debits|
    ensures forall i :: 0 <= i < |debits| ==> pairs[i].debit == debits[i] && pairs[i].credit.debitNote == debits[i].uid
  {
    seq(|debits|, i requires 0 <= i < |debits| => PairedNote(debits[i], credits[debits[i].uid]))
  }

  /** `PairedNote.create` on a dictionary of credit notes. */
  method CreateFromDictionary(debits: seq<DebitNote>, credits: map<NoteUid, CreditNote>)
    returns (r: Result<seq<PairedNote>, PairingError>)
    ensures r.Success? <==> debits != [] && Answered(debits, credits) && |credits| == |debits|
    ensures r.Success? ==> r.value == PairsOf(debits, credits)
    ensures r == Failure(NoDebitNotes) <==> debits == []
    ensures r == Failure(MismatchedPair) <==>
      exists i :: 0 <= i < |debits| && debits[i].uid in credits && credits[debits[i].uid].debitNote != debits[i].uid
    ensures r.Failure? ==> r.error != NoCreditNotes
  {
    if |debits| == 0 {
      return Failure(NoDebitNotes);
    }
    var pairs: seq<PairedNote> := [];
    var missing: seq<DebitNote> := [];
    for i := 0 to |debits|
      invariant missing == [] <==> forall j :: 0 <= j < i ==> debits[j].uid in credits
      invariant forall j :: 0 <= j < i && debits[j].uid in credits ==>
        credits[debits[j].uid].debitNote == debits[j].uid
      invariant missing == [] ==> |pairs| == i
      invariant missing == [] ==> forall j :: 0 <= j < i ==> pairs[j] == PairedNote(debits[j], credits[debits[j].uid])
    {
      var uid := debits[i].uid;
      if uid in credits {
        if credits[uid].debitNote != uid {
          return Failure(MismatchedPair);
        }
        pairs := pairs + [PairedNote(debits[i], credits[uid])];
      } else {
        missing := missing + [debits[i]];
      }
    }
    if |missing| > 0 || |credits| != |debits| {
      return Failure(UnbalancedLedger);
    }
    assert Answered(debits, credits);
    assert pairs == PairsOf(debits, credits);
    return Success(pairs);
  }

  method Index(credits: seq<CreditNote>) returns (d: map<NoteUid, CreditNote>)
    ensures d == Indexed(credits)
  {
    d := map[];
    for i := 0 to |credits|
      invariant d == Indexed(credits[..i])
    {
      assert credits[..i + 1][..i] == credits[..i];
      d := d[credits[i].debitNote := credits[i]];
    }
    assert credits[..|credits|] == credits;
  }

  /** `PairedNote.create` on a list of credit notes. */
  method CreateFromList(debits: seq<DebitNote>, credits: seq<CreditNote>)
    returns (r: Result<seq<PairedNote>, PairingError>)
    ensures r.Success? <==>
      && debits != [] && credits != []
      && Answered(debits, Indexed(credits)) && |Indexed(credits)| == |debits|
    ensures r.Success? ==> r.value == PairsOf(debits, Indexed(credits))
    ensures r == Failure(NoDebitNotes) <==> debits == []
    ensures r == Failure(NoCreditNotes) <==> debits != [] && credits == []
    ensures r != Failure(MismatchedPair)
  {
    if |debits| == 0 {
      return Failure(NoDebitNotes);
    }
    if |credits| == 0 {
      return Failure(NoCreditNotes);
    }
    var d := Index(credits);
    r := CreateFromDictionary(debits, d);
    if r == Failure(MismatchedPair) {
      var i :| 0 <= i < |debits| && debits[i].uid in d && d[debits[i].uid].debitNote != debits[i].uid;
      IndexedIsListed(credits, debits[i].uid);
      assert false;
    }
  }

  // ------------------------------------------------------------ is the pairing a bijection?

  lemma UidsGrow(debits: seq<DebitNote>, last: DebitNote)
    ensures UidsOf(debits + [last]) == UidsOf(debits) + {last.uid}
    ensures DistinctDebits(debits + [last]) <==> DistinctDebits(debits) && last.uid !in UidsOf(debits)
  {
    var all := debits + [last];
    forall uid | uid in UidsOf(debits) + {last.uid} ensures uid in UidsOf(all) {
      if uid in UidsOf(debits) {
        var i :| 0 <= i < |debits| && debits[i].uid == uid;
        assert all[i].uid == uid;
      } else {
        assert all[|debits|].uid == uid;
      }
    }
    if DistinctDebits(debits) && last.uid !in UidsOf(debits) {
      forall i, j | 0 <= i < j < |all| ensures all[i].uid != all[j].uid {
        assert all[i].uid in UidsOf(debits);
      }
    }
    if DistinctDebits(all) {
      forall i, j | 0 <= i < j < |debits| ensures debits[i].uid != debits[j].uid {
        assert all[i].uid != all[j].uid;
      }
      forall i | 0 <= i < |debits| ensures debits[i].uid != last.uid {
        assert all[i].uid != all[|debits|].uid;
      }
    }
  }

  lemma {:induction false} UidCount(debits: seq<DebitNote>)
    ensures |UidsOf(debits)| <= |debits|
    ensures |UidsOf(debits)| == |debits| <==> DistinctDebits(debits)
    decreases |debits|
  {
    if |debits| > 0 {
      var init, last := debits[..|debits| - 1], debits[|debits| - 1];
      assert debits == init + [last];
      UidCount(init);
      UidsGrow(init, last);
    }
  }

  lemma {:induction false} SubsetOfSameSize<T>(a: set<T>, b: set<T>)
    requires a <= b && |a| == |b|
    ensures a == b
    decreases a
  {
    if a == {} {
      assert b == {};
    } else {
      var x :| x in a;
      SubsetOfSameSize(a - {x}, b - {x});
    }
  }

  ghost predicate UsedBy(debits: seq<DebitNote>, uid: NoteUid, i: nat) {
    i < |debits| && debits[i].uid == uid
  }

  /** Each credit note of the dictionary stands in exactly one pair. */
  ghost predicate EachUsedOnce(debits: seq<DebitNote>, credits: map<NoteUid, CreditNote>) {
    forall uid :: uid in credits ==>
      exists i: nat :: UsedBy(debits, uid, i) && forall j: nat :: UsedBy(debits, uid, j) ==> j == i
  }

  lemma DistinctMeansUsedOnce(debits: seq<DebitNote>, credits: map<NoteUid, CreditNote>)
    requires Answered(debits, credits) && |credits| == |debits| && DistinctDebits(debits)
    ensures EachUsedOnce(debits, credits)
  {
    UidCount(debits);
    SubsetOfSameSize(UidsOf(debits), credits.Keys);
    forall uid | uid in credits
      ensures exists i: nat :: UsedBy(debits, uid, i) && forall j: nat :: UsedBy(debits, uid, j) ==> j == i
    {
      assert uid in UidsOf(debits);
      var i: nat :| i < |debits| && debits[i].uid == uid;
      assert UsedBy(debits, uid, i);
    }
  }

  /** A pairing that is accepted pairs every debit note with its own credit note; it uses every credit note
      of the dictionary exactly once if and only if no debit note is listed twice. */
  lemma PairingIsBijectionIff(debits: seq<DebitNote>, credits: map<NoteUid, CreditNote>)
    requires Answered(debits, credits) && |credits| == |debits|
    ensures EachUsedOnce(debits, credits) <==> DistinctDebits(debits)
  {
    if DistinctDebits(debits) {
      DistinctMeansUsedOnce(debits, credits);
    } else if EachUsedOnce(debits, credits) {
      var i: nat, j: nat :| i < j < |debits| && debits[i].uid == debits[j].uid;
      assert UsedBy(debits, debits[i].uid, i) && UsedBy(debits, debits[i].uid, j);
    }
  }

  /** Two equal debit notes against two credit notes are accepted, and one credit note is left unused. */
  lemma RepeatedDebitNoteIsAccepted(d: DebitNote, a: CreditNote, b: CreditNote)
    requires a.debitNote == d.uid && b.debitNote != d.uid
    ensures var debits, credits := [d, d], map[a.debitNote := a, b.debitNote := b];
      Answered(debits, credits) && |credits| == |debits| && !EachUsedOnce(debits, credits)
  {
    var debits, credits := [d, d], map[a.debitNote := a, b.debitNote := b];
    assert credits.Keys == {a.debitNote, b.debitNote};
    PairingIsBijectionIff(debits, credits);
  }

  lemma {:induction false} IndexedIsListed(credits: seq<CreditNote>, uid: NoteUid)
    ensures uid in Indexed(credits) <==> exists i :: 0 <= i < |credits| && credits[i].debitNote == uid
    ensures uid in Indexed(credits) ==> Indexed(credits)[uid] in credits && Indexed(credits)[uid].debitNote == uid
    decreases |credits|
  {
    if |credits| > 0 {
      var init := credits[..|credits| - 1];
      IndexedIsListed(init, uid);
      assert forall i :: 0 <= i < |init| ==> credits[i] == init[i];
    }
  }

  // A listed credit note the dictionary does not hold is lost.
  ghost predicate Kept(credits: seq<CreditNote>, i: nat)
    requires i < |credits|
  {
    credits[i].debitNote in Indexed(credits) && Indexed(credits)[credits[i].debitNote] == credits[i]
  }

  lemma {:induction false} DistinctAreKept(credits: seq<CreditNote>, i: nat)
    requires i < |credits| && DistinctCredits(credits)
    ensures Kept(credits, i)
    decreases |credits|
  {
    if i < |credits| - 1 {
      var init := credits[..|credits| - 1];
      DistinctAreKept(init, i);
      assert credits[i].debitNote != credits[|credits| - 1].debitNote;
    }
  }

  predicate DifferentNotes(credits: seq<CreditNote>) {
    forall i, j :: 0 <= i < j < |credits| ==> credits[i] != credits[j]
  }

  /** When credit notes are passed as a list of different notes, none is lost if and only if no two answer
      the same debit note: otherwise the later one silently replaces the earlier. */
  lemma NoneLostIff(credits: seq<CreditNote>)
    requires DifferentNotes(credits)
    ensures (forall i :: 0 <= i < |credits| ==> Kept(credits, i)) <==> DistinctCredits(credits)
  {
    if DistinctCredits(credits) {
      forall i | 0 <= i < |credits| ensures Kept(credits, i) {
        DistinctAreKept(credits, i);
      }
    } else {
      var i, j :| 0 <= i < j < |credits| && credits[i].debitNote == credits[j].debitNote;
      assert credits[i] != credits[j];
      assert !(Kept(credits, i) && Kept(credits, j));
    }
  }

  /** Of two credit notes listed for the same debit note the first is lost, and the pairing is accepted. */
  lemma FirstOfTwoNotesIsLost(d: DebitNote, a: CreditNote, b: CreditNote)
    requires a.debitNote == b.debitNote == d.uid && a != b
    ensures Indexed([a, b]) == map[d.uid := b] && Answered([d], Indexed([a, b])) && |Indexed([a, b])| == |[d]|
    ensures PairsOf([d], Indexed([a, b])) == [PairedNote(d, b)]
  {
    assert [a, b][..1] == [a] && [a][..0] == [];
    assert Indexed([a]) == map[d.uid := a];
    var index := map[d.uid := b];
    assert index.Keys == {d.uid};
  }
}
