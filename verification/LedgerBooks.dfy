/**
 Value is conserved at every single write, by any interleaving of payments, receipts and refunds.
 */
module LedgerBooks {
  import opened Amounts
  import opened Balances
  import opened LedgerInvariant
  import opened LedgerSteps
  import opened Sums

  /** Real value a call has taken from one account and not yet given to the other: what sits in debit
      notes that have not been credited. */
  function Carried(call: Call): int {
    match call
    case Paying(_, _, values, provisional, debited, credited, _, _) =>
      if provisional then 0 else Pending(values, credited, debited)
    case Settling(t, stage) =>
      if stage == Debited then t.Amount() else 0
  }

  /** Promised value the debtor already owes and the creditor does not yet expect; negative while a
      receipt has released the debtor and not yet the creditor. */
  function Afloat(call: Call): int {
    match call
    case Paying(_, _, values, provisional, debited, credited, _, _) =>
      if provisional then Pending(values, credited, debited) else 0
    case Settling(t, stage) =>
      if stage == Debited && t.Receipt? then -t.note.value else 0
  }

  function TotalOn(side: Side): seq<Info> -> int {
    (history: seq<Info>) => Replay(ZERO, history).On(side)
  }

  ghost function InAccounts(s: Ledger, side: Side): int {
    SumMap(s.items, TotalOn(side))
  }

  /** All real value: in accounts, or in a debit note that has not been credited yet. */
  ghost function RealValue(s: Ledger): int {
    InAccounts(s, Funds) + SumMap(s.calls, Carried)
  }

  /** Promises owed minus promises expected, less those afloat. */
  ghost function PromiseGap(s: Ledger): int {
    InAccounts(s, Liabilities) - InAccounts(s, Receivables) - SumMap(s.calls, Afloat)
  }

  lemma AddLineChangesTotal(s: Ledger, a: AccountUid, t: Info, side: Side)
    requires a in s.items
    ensures InAccounts(s.AddLine(a, t), side) == InAccounts(s, side) + Effect(side, t)
  {
    ReplayAppend(ZERO, s.items[a], t, side);
    SumMapUpdate(s.items, TotalOn(side), a, s.items[a] + [t]);
  }

  // A line item and what the call carries afterwards cancel.
  lemma LineConserves(s: Ledger, a: AccountUid, line: Info, c: CallId, call: Call)
    requires a in s.items && c in s.calls
    requires Carried(call) == Carried(s.calls[c]) - Effect(Funds, line)
    requires Afloat(call) == Afloat(s.calls[c]) + Effect(Liabilities, line) - Effect(Receivables, line)
    ensures RealValue(s.AddLine(a, line).SetCall(c, call)) == RealValue(s)
    ensures PromiseGap(s.AddLine(a, line).SetCall(c, call)) == PromiseGap(s)
  {
    AddLineChangesTotal(s, a, line, Funds);
    AddLineChangesTotal(s, a, line, Liabilities);
    AddLineChangesTotal(s, a, line, Receivables);
    SumMapUpdate(s.calls, Carried, c, call);
    SumMapUpdate(s.calls, Afloat, c, call);
  }

  lemma QuietConserves(s: Ledger, t: Ledger, c: CallId)
    requires t.items == s.items && c in t.calls && t.calls == s.calls[c := t.calls[c]]
    requires Carried(t.calls[c]) == At(s.calls, Carried, c)
    requires Afloat(t.calls[c]) == At(s.calls, Afloat, c)
    ensures RealValue(t) == RealValue(s) && PromiseGap(t) == PromiseGap(s)
  {
    SumMapSet(s.calls, Carried, c, t.calls[c]);
    SumMapSet(s.calls, Afloat, c, t.calls[c]);
  }

  // A step that writes no line item leaves what its call holds as it was.
  lemma QuietStep(s: Ledger, step: Step)
    requires Enabled(s, step)
    requires !(step.DebitPart? || step.CreditPart? || step.TakeValue? || step.GiveValue?)
    ensures RealValue(Do(s, step)) == RealValue(s)
    ensures PromiseGap(Do(s, step)) == PromiseGap(s)
  {
    QuietConserves(s, Do(s, step), step.call);
  }

  lemma TakeConserves(s: Ledger, c: CallId)
    requires MayTake(s, c)
    ensures RealValue(AfterTake(s, c)) == RealValue(s)
    ensures PromiseGap(AfterTake(s, c)) == PromiseGap(s)
  {
    var t := s.calls[c].settlement;
    LineConserves(s, t.Payer(), t.DebitLine(), c, Settling(t, Debited));
  }

  lemma GiveConserves(s: Ledger, c: CallId)
    requires MayGive(s, c)
    ensures RealValue(AfterGive(s, c)) == RealValue(s)
    ensures PromiseGap(AfterGive(s, c)) == PromiseGap(s)
  {
    var t := s.calls[c].settlement;
    LineConserves(s, t.Payee(), t.CreditLine(), c, Settling(t, Credited));
  }

  lemma DebitCarries(p: Call)
    requires p.Paying? && Counted(p) && p.debited < |p.values|
    ensures var p', line := p.(debited := p.debited + 1), PaymentDebit(p.values[p.debited], p.provisional);
      && Carried(p') == Carried(p) - Effect(Funds, line)
      && Afloat(p') == Afloat(p) + Effect(Liabilities, line) - Effect(Receivables, line)
  {
    PendingGrows(p.values, p.credited, p.debited);
  }

  lemma CreditDelivers(p: Call)
    requires p.Paying? && Counted(p) && p.credited < p.debited
    ensures var p', line := p.(credited := p.credited + 1), PaymentCredit(p.values[p.credited], p.provisional);
      && Carried(p') == Carried(p) - Effect(Funds, line)
      && Afloat(p') == Afloat(p) + Effect(Liabilities, line) - Effect(Receivables, line)
  {
    PendingShrinks(p.values, p.credited, p.debited);
  }

  lemma DebitConserves(s: Ledger, c: CallId)
    requires MayDebit(s, c) && Counted(s.calls[c])
    ensures RealValue(AfterDebit(s, c)) == RealValue(s)
    ensures PromiseGap(AfterDebit(s, c)) == PromiseGap(s)
  {
    var p := s.calls[c];
    DebitCarries(p);
    LineConserves(s, p.debtor, PaymentDebit(p.values[p.debited], p.provisional), c, p.(debited := p.debited + 1));
  }

  lemma CreditConserves(s: Ledger, c: CallId)
    requires MayCredit(s, c) && Counted(s.calls[c])
    ensures RealValue(AfterCredit(s, c)) == RealValue(s)
    ensures PromiseGap(AfterCredit(s, c)) == PromiseGap(s)
  {
    var p := s.calls[c];
    CreditDelivers(p);
    LineConserves(s, p.creditor, PaymentCredit(p.values[p.credited], p.provisional), c,
                  p.(credited := p.credited + 1));
  }

  lemma StepKeepsCounts(s: Ledger, step: Step)
    requires Enabled(s, step) && CallsCounted(s)
    ensures CallsCounted(Do(s, step))
  {
  }

  /** No single write, by any call at any point, makes or destroys value. */
  lemma StepConserves(s: Ledger, step: Step)
    requires Enabled(s, step) && CallsCounted(s)
    ensures RealValue(Do(s, step)) == RealValue(s)
    ensures PromiseGap(Do(s, step)) == PromiseGap(s)
  {
    if step.DebitPart? {
      DebitConserves(s, step.call);
    } else if step.CreditPart? {
      CreditConserves(s, step.call);
    } else if step.TakeValue? {
      TakeConserves(s, step.call);
    } else if step.GiveValue? {
      GiveConserves(s, step.call);
    } else {
      QuietStep(s, step);
    }
  }

  /** Conservation over whole runs: whatever is interleaved with whatever, and wherever it stops. */
  lemma {:induction false} Conservation(s: Ledger, steps: seq<Step>, t: Ledger)
    requires Runs(s, steps, t) && CallsCounted(s)
    ensures CallsCounted(t)
    ensures RealValue(t) == RealValue(s) && PromiseGap(t) == PromiseGap(s)
    decreases |steps|
  {
    if steps != [] {
      StepKeepsCounts(s, steps[0]);
      StepConserves(s, steps[0]);
      Conservation(Do(s, steps[0]), steps[1..], t);
    }
  }

  /** From an empty ledger: the accounts together hold exactly the value in debit notes still waiting
      for their credit, with the sign turned, and owe exactly what they expect but for promises afloat. */
  lemma NothingFromNothing(s: Ledger, steps: seq<Step>, t: Ledger)
    requires s.Initial() && Runs(s, steps, t)
    ensures InAccounts(t, Funds) == -SumMap(t.calls, Carried)
    ensures InAccounts(t, Liabilities) - InAccounts(t, Receivables) == SumMap(t.calls, Afloat)
  {
    Conservation(s, steps, t);
    SumMapZero(s.items, TotalOn(Funds));
    SumMapZero(s.items, TotalOn(Liabilities));
    SumMapZero(s.items, TotalOn(Receivables));
  }
}
