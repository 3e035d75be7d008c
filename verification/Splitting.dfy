/** A single transaction holds at most the maximum value; larger values are split into several. */
module Splitting {
  import opened Amounts
  import opened Balances
  import opened Wrappers

  // Values are below one quadrillion units.
  const QUADRILLION := 1_000_000_000_000_000_000_000 // 10^15 units

  datatype Description = Plain(text: Option<string>) | Part(whole: Option<string>, number: nat, count: nat)

  datatype Transaction = Transaction(value: int, description: Description)

  datatype TransactionError = NegativeValue | ValueTooLarge | NoDescription

  /** The constructor of a transaction accepts values up to 999999.999999, with a description unless zero. */
  function NewTransaction(value: int, description: Description): (r: Result<Transaction, TransactionError>)
    ensures r.Success? <==> 0 <= value <= 999_999_999_999 && (description == Plain(None) ==> value == 0)
    ensures r.Success? ==> r.value.value == value && r.value.description == description
    ensures r == Failure(NegativeValue) <==> value < 0
    ensures r == Failure(ValueTooLarge) <==> 999_999_999_999 < value
  {
    if value < 0 then Failure(NegativeValue)
    else if value > MAX_TRANSACTION then Failure(ValueTooLarge)
    else if description == Plain(None) && value > 0 then Failure(NoDescription)
    else Success(Transaction(value, description))
  }

  function Values(transactions: seq<Transaction>): (v: seq<int>)
    ensures |v| == |transactions| && forall i :: 0 <= i < |v| ==> v[i] == transactions[i].value
  {
    seq(|transactions|, i requires 0 <= i < |transactions| => transactions[i].value)
  }

  /** A list of amounts that single transactions could carry. */
  predicate LegalParts(values: seq<int>) {
    forall i :: 0 <= i < |values| ==> 0 < values[i] <= MAX_TRANSACTION
  }

  // Full parts, then a remainder that is not empty.
  predicate Greedy(values: seq<int>) {
    && values != []
    && (forall i :: 0 <= i < |values| - 1 ==> values[i] == MAX_TRANSACTION)
    && 0 < values[|values| - 1] <= MAX_TRANSACTION
  }

  lemma {:induction false} SumOfFullParts(values: seq<int>)
    requires forall i :: 0 <= i < |values| ==> values[i] == MAX_TRANSACTION
    ensures Sum(values) == MAX_TRANSACTION * |values|
    decreases |values|
  {
    if |values| > 0 {
      SumOfFullParts(values[..|values| - 1]);
    }
  }

  /** No list of legal parts with the same sum is shorter than a greedy one. */
  lemma GreedyIsShortest(parts: seq<int>, other: seq<int>)
    requires Greedy(parts) && LegalParts(other) && Sum(other) == Sum(parts)
    ensures |parts| <= |other|
  {
    SumOfFullParts(parts[..|parts| - 1]);
    SumAtMost(other, MAX_TRANSACTION);
    assert MAX_TRANSACTION * (|parts| - 1) < MAX_TRANSACTION * |other|;
  }

  /** A greedy list is the only one of its length and sum with every part but the last full. */
  lemma GreedyIsUnique(parts: seq<int>, other: seq<int>)
    requires Greedy(parts) && Greedy(other) && Sum(other) == Sum(parts)
    ensures parts == other
  {
    GreedyIsShortest(parts, other);
    GreedyIsShortest(other, parts);
    assert parts[..|parts| - 1] == other[..|other| - 1];
  }

  method SumUp(values: seq<int>) returns (total: int)
    ensures total == Sum(values)
  {
    total := 0;
    for i := 0 to |values|
      invariant total == Sum(values[..i])
    {
      assert values[..i + 1][..i] == values[..i];
      total := total + values[i];
    }
    assert values[..|values|] == values;
  }

  // Full parts so far, and what is still to be handed out.
  predicate Underway(values: seq<int>, rest: int, value: int) {
    && 0 < rest && Sum(values) + rest == value
    && forall i :: 0 <= i < |values| ==> values[i] == MAX_TRANSACTION
  }

  lemma OneMorePart(values: seq<int>, rest: int, value: int)
    requires Underway(values, rest, value)
    ensures rest > MAX_TRANSACTION ==> Underway(values + [MAX_TRANSACTION], rest - MAX_TRANSACTION, value)
    ensures rest <= MAX_TRANSACTION ==> Greedy(values + [rest]) && Sum(values + [rest]) == value
  {
    SumAppend(values, if rest > MAX_TRANSACTION then MAX_TRANSACTION else rest);
  }

  // The amounts `split` hands out, for a value that does not fit comfortably.
  method Portions(value: int) returns (values: seq<int>)
    requires MAX_TRANSACTION <= value
    ensures Greedy(values) && Sum(values) == value
  {
    values := [];
    var rest := value;
    while rest > MAX_TRANSACTION
      invariant Underway(values, rest, value)
    {
      OneMorePart(values, rest, value);
      values := values + [MAX_TRANSACTION];
      rest := rest - MAX_TRANSACTION;
    }
    OneMorePart(values, rest, value);
    values := values + [rest];
    var total := SumUp(values);
    if total != value {
      assert false; // the correction of the last part is never needed
    }
  }

  // One transaction for each part, numbered.
  method Numbered(values: seq<int>, description: Option<string>) returns (transactions: seq<Transaction>)
    requires LegalParts(values)
    ensures Values(transactions) == values
    ensures forall i :: 0 <= i < |transactions| ==> transactions[i].description == Part(description, i + 1, |values|)
  {
    transactions := [];
    for i := 0 to |values|
      invariant |transactions| == i
      invariant forall j :: 0 <= j < i ==> transactions[j] == Transaction(values[j], Part(description, j + 1, |values|))
    {
      var t := NewTransaction(values[i], Part(description, i + 1, |values|));
      assert t.Success?;
      transactions := transactions + [t.value];
    }
  }

  lemma SinglePart(t: Transaction)
    ensures Sum(Values([t])) == t.value
    ensures 0 < t.value <= MAX_TRANSACTION ==> Greedy(Values([t]))
  {
    SumAppend([], t.value);
    assert Values([t]) == [] + [t.value];
  }

  lemma GreedyIsLegal(values: seq<int>)
    requires Greedy(values)
    ensures LegalParts(values)
  {
  }

  /** `Transaction.split`. It succeeds exactly on values in range that have the description they need; the
      parts are positive, fit the limit, add up to the value, and are as few as can be. */
  method Split(value: int, description: Option<string>) returns (r: Result<seq<Transaction>, TransactionError>)
    ensures r.Success? <==>
      0 <= value < 1_000_000_000_000_000 * UNIT && (0 < value < 999_999_999_999 ==> description.Some?)
    ensures r == Failure(NegativeValue) <==> value < 0
    ensures r == Failure(ValueTooLarge) <==> 1_000_000_000_000_000 * UNIT <= value
    ensures r.Success? ==> Sum(Values(r.value)) == value
    ensures r.Success? && value > 0 ==> Greedy(Values(r.value))
    ensures r.Success? && value < MAX_TRANSACTION ==> r.value == [Transaction(value, Plain(description))]
    ensures r.Success? && value >= MAX_TRANSACTION ==>
      forall i :: 0 <= i < |r.value| ==> r.value[i].description == Part(description, i + 1, |r.value|)
  {
    if value < 0 {
      return Failure(NegativeValue);
    }
    if value >= QUADRILLION {
      return Failure(ValueTooLarge);
    }
    if value < MAX_TRANSACTION {
      var t :- NewTransaction(value, Plain(description));
      SinglePart(t);
      return Success([t]);
    }
    var values := Portions(value);
    GreedyIsLegal(values);
    var transactions := Numbered(values, description);
    var total := SumUp(Values(transactions));
    if total != value {
      assert false; // the final mismatch error cannot be reached
    }
    return Success(transactions);
  }

  lemma SplitIsMinimal(value: int, parts: seq<Transaction>, other: seq<int>)
    requires Greedy(Values(parts)) && Sum(Values(parts)) == value
    requires LegalParts(other) && Sum(other) == value
    ensures |parts| <= |other|
  {
    GreedyIsShortest(Values(parts), other);
  }
}
