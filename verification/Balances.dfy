/** Money, the eight line-item codes and what each does to an account's balance. */
module Balances {
  import opened Amounts
  import opened Wrappers

  // Money is counted in micro-units: the six decimal places every value is rounded to.
  const UNIT := 1_000_000
  const MAX_TRANSACTION := 999_999_999_999 // 999999.999999

  datatype TransactionCode =
    | Credit
    | Debit
    | CurrentLiability
    | AccountReceivable
    | ReceivedReceipt
    | SentReceipt
    | ReceivedRefund
    | SentRefund

  predicate IsReceiptCode(code: TransactionCode) {
    code == ReceivedReceipt || code == SentReceipt
  }

  /** What a line-item key says: a code, a value and, for the two receipt codes, the receipted value. */
  datatype TransactionInfo = TransactionInfo(code: TransactionCode, value: int, receipted: Option<int>) {
    predicate WellFormed() {
      && 0 <= value <= MAX_TRANSACTION
      && (receipted.Some? <==> IsReceiptCode(code))
      && (receipted.Some? ==> 0 <= receipted.value <= MAX_TRANSACTION)
    }

    // `value()`: the receipted value when there is one.
    function Value(): int {
      match receipted
      case Some(r) => r
      case None => value
    }
  }

  type Info = t: TransactionInfo | t.WellFormed()
    witness TransactionInfo(Credit, 0, None)

  // The three figures an account keeps.
  datatype Side = Funds | Liabilities | Receivables

  datatype Balance = Balance(balance: int, liability: int, receivable: int) {
    function On(side: Side): int {
      match side
      case Funds => balance
      case Liabilities => liability
      case Receivables => receivable
    }

    function Plus(other: Balance): Balance {
      Balance(balance + other.balance, liability + other.liability, receivable + other.receivable)
    }

    // What may still be spent without an overdraft.
    function Available(): int {
      balance - liability
    }
  }

  const ZERO := Balance(0, 0, 0)

  /** `Balance.__add__` for a line item, branch by branch. */
  function Apply(b: Balance, t: Info): Balance {
    match t.code
    case Credit => b.(balance := b.balance + t.Value())
    case Debit => b.(balance := b.balance - t.Value())
    case CurrentLiability => b.(liability := b.liability + t.Value())
    case AccountReceivable => b.(receivable := b.receivable + t.Value())
    case ReceivedReceipt =>
      b.(balance := b.balance - t.receipted.value, liability := b.liability - t.value)
    case SentReceipt =>
      b.(balance := b.balance + t.receipted.value, receivable := b.receivable - t.value)
    case ReceivedRefund => b.(balance := b.balance + t.Value())
    case SentRefund => b.(balance := b.balance - t.Value())
  }

  /** What a line item means for each of the three figures, one column of the ledger at a time. */
  function Effect(side: Side, t: Info): int {
    match side
    case Funds =>
      if t.code == Credit || t.code == ReceivedRefund then t.value
      else if t.code == Debit || t.code == SentRefund then -t.value
      else if t.code == SentReceipt then t.receipted.value
      else if t.code == ReceivedReceipt then -t.receipted.value
      else 0
    case Liabilities =>
      if t.code == CurrentLiability then t.value else if t.code == ReceivedReceipt then -t.value else 0
    case Receivables =>
      if t.code == AccountReceivable then t.value else if t.code == SentReceipt then -t.value else 0
  }

  lemma ApplyAddsEffect(b: Balance, t: Info, side: Side)
    ensures Apply(b, t).On(side) == b.On(side) + Effect(side, t)
  {
  }

  lemma SameOnEverySide(a: Balance, b: Balance)
    requires forall side :: a.On(side) == b.On(side)
    ensures a == b
  {
    assert a.On(Funds) == b.On(Funds) && a.On(Liabilities) == b.On(Liabilities);
    assert a.On(Receivables) == b.On(Receivables);
  }

  /** Line items added to `b` one after the other, oldest first. */
  function Replay(b: Balance, s: seq<Info>): Balance {
    if |s| == 0 then b else Apply(Replay(b, s[..|s| - 1]), s[|s| - 1])
  }

  method SumTransactions(transactions: seq<Info>) returns (balance: Balance)
    ensures balance == Replay(ZERO, transactions)
  {
    balance := ZERO;
    for i := 0 to |transactions|
      invariant balance == Replay(ZERO, transactions[..i])
    {
      assert transactions[..i + 1][..i] == transactions[..i];
      balance := Apply(balance, transactions[i]);
    }
    assert transactions[..|transactions|] == transactions;
  }

  lemma ReplayAppend(b: Balance, s: seq<Info>, t: Info, side: Side)
    ensures Replay(b, s + [t]).On(side) == Replay(b, s).On(side) + Effect(side, t)
  {
    assert (s + [t])[..|s|] == s;
    ApplyAddsEffect(Replay(b, s), t, side);
  }

  function Effects(side: Side, s: seq<Info>): int {
    if |s| == 0 then 0 else Effects(side, s[..|s| - 1]) + Effect(side, s[|s| - 1])
  }

  // The amount a line item carries: its value, or what of it was receipted.
  datatype Amount = Original(code: TransactionCode) | Settled(code: TransactionCode)

  function Entry(amount: Amount, t: Info): int {
    if t.code != amount.code then 0
    else
      match amount
      case Original(_) => t.value
      case Settled(_) => if t.receipted.Some? then t.receipted.value else 0
  }

  /** What the line items of one code add up to. */
  function Posted(amount: Amount, s: seq<Info>): int {
    if |s| == 0 then 0 else Posted(amount, s[..|s| - 1]) + Entry(amount, s[|s| - 1])
  }

  lemma PostedAppend(amount: Amount, s: seq<Info>, t: Info)
    ensures Posted(amount, s + [t]) == Posted(amount, s) + Entry(amount, t)
  {
    assert (s + [t])[..|s|] == s;
  }

  /** A replay is the starting balance plus each line item's effect, column by column. */
  lemma {:induction false} ReplayAddsEffects(b: Balance, s: seq<Info>, side: Side)
    ensures Replay(b, s).On(side) == b.On(side) + Effects(side, s)
    decreases |s|
  {
    if |s| > 0 {
      ReplayAddsEffects(b, s[..|s| - 1], side);
      ApplyAddsEffect(Replay(b, s[..|s| - 1]), s[|s| - 1], side);
    }
  }

  // The balance after these line items, figure by figure.
  function BalanceOf(s: seq<Info>): Balance {
    Balance(Effects(Funds, s), Effects(Liabilities, s), Effects(Receivables, s))
  }

  /** It is the replay of the line items from nothing. */
  lemma BalanceIsReplay(s: seq<Info>)
    ensures BalanceOf(s) == Replay(ZERO, s)
  {
    ReplayAddsEffects(ZERO, s, Funds);
    ReplayAddsEffects(ZERO, s, Liabilities);
    ReplayAddsEffects(ZERO, s, Receivables);
  }

  lemma {:induction false} EffectsConcat(side: Side, s: seq<Info>, t: seq<Info>)
    ensures Effects(side, s + t) == Effects(side, s) + Effects(side, t)
    decreases |t|
  {
    if |t| == 0 {
      assert s + t == s;
    } else {
      EffectsConcat(side, s, t[..|t| - 1]);
      assert (s + t)[..|s + t| - 1] == s + t[..|t| - 1];
    }
  }

  lemma EffectsInsert(side: Side, head: seq<Info>, t: Info, tail: seq<Info>)
    ensures Effects(side, (head + [t]) + tail) == Effects(side, head + tail) + Effect(side, t)
  {
    EffectsConcat(side, head + [t], tail);
    EffectsConcat(side, head, tail);
    assert (head + [t])[..|head|] == head;
  }

  lemma EffectsBothGrow(side: Side, s: seq<Info>, t: Info, head: seq<Info>, tail: seq<Info>)
    requires Effects(side, s) == Effects(side, head + tail)
    ensures Effects(side, s + [t]) == Effects(side, (head + [t]) + tail)
  {
    EffectsInsert(side, head, t, tail);
    assert (s + [t])[..|s|] == s;
  }

  lemma SplitAt(s: seq<Info>, t: Info) returns (head: seq<Info>, tail: seq<Info>)
    requires t in multiset(s)
    ensures s == (head + [t]) + tail
    ensures multiset(head + tail) == multiset(s) - multiset{t}
  {
    var i :| 0 <= i < |s| && s[i] == t;
    head, tail := s[..i], s[i + 1..];
    assert s == (head + [t]) + tail;
  }

  lemma {:induction false} EffectsOrderIrrelevant(side: Side, s: seq<Info>, t: seq<Info>)
    requires multiset(s) == multiset(t)
    ensures Effects(side, s) == Effects(side, t)
    decreases |s|
  {
    if |s| == 0 {
      assert |t| == |multiset(t)| == 0;
    } else {
      var s', x := s[..|s| - 1], s[|s| - 1];
      assert s == s' + [x];
      var head, tail := SplitAt(t, x);
      EffectsOrderIrrelevant(side, s', head + tail);
      EffectsBothGrow(side, s', x, head, tail);
    }
  }

  /** A balance does not depend on the order in which line items are listed. */
  lemma ReplayOrderIrrelevant(b: Balance, s: seq<Info>, t: seq<Info>)
    requires multiset(s) == multiset(t)
    ensures Replay(b, s) == Replay(b, t)
  {
    forall side ensures Replay(b, s).On(side) == Replay(b, t).On(side) {
      ReplayAddsEffects(b, s, side);
      ReplayAddsEffects(b, t, side);
      EffectsOrderIrrelevant(side, s, t);
    }
    SameOnEverySide(Replay(b, s), Replay(b, t));
  }

  /** `Balance.total`: the component-wise sum of a list of balances. */
  function TotalOf(balances: seq<Balance>): Balance {
    if |balances| == 0 then ZERO
    else TotalOf(balances[..|balances| - 1]).Plus(balances[|balances| - 1])
  }

  function Figures(balances: seq<Balance>, side: Side): (v: seq<int>)
    ensures |v| == |balances| && forall i :: 0 <= i < |v| ==> v[i] == balances[i].On(side)
  {
    seq(|balances|, i requires 0 <= i < |balances| => balances[i].On(side))
  }

  /** Each figure of a total is the sum of that figure over the list. */
  lemma {:induction false} TotalAddsFigures(balances: seq<Balance>, side: Side)
    ensures TotalOf(balances).On(side) == Sum(Figures(balances, side))
    decreases |balances|
  {
    if |balances| > 0 {
      var rest := balances[..|balances| - 1];
      TotalAddsFigures(rest, side);
      assert Figures(balances, side) == Figures(rest, side) + [balances[|balances| - 1].On(side)];
      SumAppend(Figures(rest, side), balances[|balances| - 1].On(side));
    }
  }

  method Total(balances: seq<Balance>) returns (r: Balance)
    ensures r == TotalOf(balances)
    ensures r.balance == Sum(Figures(balances, Funds)) && r.liability == Sum(Figures(balances, Liabilities))
    ensures r.receivable == Sum(Figures(balances, Receivables))
  {
    var balance, liability, receivable := 0, 0, 0;
    for i := 0 to |balances|
      invariant Balance(balance, liability, receivable) == TotalOf(balances[..i])
    {
      assert balances[..i + 1][..i] == balances[..i];
      balance := balance + balances[i].balance;
      liability := liability + balances[i].liability;
      receivable := receivable + balances[i].receivable;
    }
    assert balances[..|balances|] == balances;
    TotalAddsFigures(balances, Funds);
    TotalAddsFigures(balances, Liabilities);
    TotalAddsFigures(balances, Receivables);
    r := Balance(balance, liability, receivable);
  }
}
