/**
 An account as the ledger uses it: debits are checked against the cached balance, line items are stamped, and
 balances are asked for as time goes on. What the account can spend is what the ledger says its history
 leaves it, so the overdraft bound holds for cached balances.
 */
module AccountLedger {
  import opened AccountService
  import opened BalanceCache
  import opened Balances
  import opened Calendar
  import opened LedgerService
  import opened LedgerSteps
  import opened LineItemKeys

  // The list is the account's history; nothing in it is stamped, and nothing has been asked, after `clock`.
  ghost predicate InOrder(v: View, list: seq<Item>, clock: Time) {
    && Coherent(v, clock)
    && Lists(list, v.items) && AllWellFormed(list)
    && forall i :: i in v.items ==> i.stamp <= clock
  }

  lemma InfosGrow(list: seq<Item>, i: Item)
    requires AllWellFormed(list) && i.info.WellFormed()
    ensures AllWellFormed(list + [i]) && Infos(list + [i]) == Infos(list) + [i.info]
  {
    assert (list + [i])[..|list|] == list;
  }

  lemma AnswerIsReplay(v: View, list: seq<Item>, clock: Time, now: Time)
    requires InOrder(v, list, clock) && clock <= now && QueryTime(now)
    ensures Timely(v, now) && BalanceNow(v, now) == Replay(ZERO, Infos(list))
  {
    LaterHoursAreTimely(v, clock, now);
    assert Upto(v.items, now) == v.items;
    assert BalanceNow(v, now) == SumOf(v.items) by { QueryIsReplay(v, clock, now); }
    assert Replay(ZERO, Infos(list)) == SumOf(v.items) by { ReplayIsSum(list, v.items); }
  }

  lemma QueryStaysInOrder(v: View, list: seq<Item>, clock: Time, now: Time)
    requires InOrder(v, list, clock) && clock <= now && QueryTime(now)
    ensures InOrder(AfterBalance(v, now), list, now)
  {
    LaterHoursAreTimely(v, clock, now);
    QueryKeepsCoherent(v, clock, now);
    ItemsUntouched(v, now);
  }

  /** From whatever the account has kept, an answer is the balance of the whole history, and leaves to spend
      what the ledger says the history does. */
  lemma AnswerIsAvailable(v: View, list: seq<Item>, clock: Time, now: Time)
    requires InOrder(v, list, clock) && clock <= now && QueryTime(now)
    ensures BalanceNow(v, now) == Replay(ZERO, Infos(list))
    ensures var b := BalanceNow(v, now);
      b.Available() == b.balance - b.liability == AvailableIn(Infos(list))
  {
    AnswerIsReplay(v, list, clock, now);
    AvailableIsReplayed(Infos(list));
  }

  lemma WriteStaysInOrder(v: View, list: seq<Item>, clock: Time, i: Item)
    requires InOrder(v, list, clock) && MayWrite(i, clock) && i.info.WellFormed()
    ensures InOrder(v.(items := v.items + {i}), list + [i], i.stamp)
  {
    WriteKeepsCoherent(v, clock, i);
    CoherentLater(v.(items := v.items + {i}), clock, i.stamp);
    InfosGrow(list, i);
    var longer := list + [i];
    forall j, k | 0 <= j < k < |longer| ensures longer[j] != longer[k] {
      if k == |list| {
        assert list[j] in v.items;
      }
    }
  }

  /** `balance().available()`. */
  method AvailableAt(account: Account, now: Time, ghost v: View, ghost list: seq<Item>, ghost clock: Time)
    returns (available: int)
    requires account.Shows(v) && InOrder(v, list, clock) && clock <= now && QueryTime(now)
    modifies account.bucket, account`lastUpdate
    ensures available == AvailableIn(Infos(list))
    ensures account.Shows(AfterBalance(v, now)) && InOrder(AfterBalance(v, now), list, now)
  {
    var balance := account.GetBalance(now, v);
    AnswerIsAvailable(v, list, clock, now);
    QueryStaysInOrder(v, list, clock, now);
    available := balance.Available();
  }

  // A line item is stamped and written after all that was asked and written before.
  method Write(account: Account, i: Item, ghost v: View, ghost list: seq<Item>, ghost clock: Time)
    requires account.Shows(v) && InOrder(v, list, clock) && MayWrite(i, clock) && Encodable(i)
    modifies account.bucket
    ensures account.Shows(v.(items := v.items + {i}))
    ensures InOrder(v.(items := v.items + {i}), list + [i], i.stamp)
  {
    account.WriteLineItem(i, i.uid, v);
    WriteStaysInOrder(v, list, clock, i);
  }

  /** `_debit`, with the balance asked for before the line item is stamped and once more after it is written:
      it goes through exactly when the cached balance leaves enough under the limit, which is when the
      history does; the second check always passes. */
  method Debit(account: Account, limit: int, value: int, provisional: bool, uid: string,
               asked: Time, stamp: Time, checked: Time, ghost v: View, ghost list: seq<Item>, ghost clock: Time)
    returns (ok: bool, ghost v': View, ghost list': seq<Item>)
    requires account.Shows(v) && InOrder(v, list, clock) && 0 < value <= MAX_TRANSACTION && '/' !in uid
    requires clock <= asked < stamp <= checked && QueryTime(asked) && QueryTime(checked)
    requires Stampable(stamp) && stamp % HOUR != 0
    modifies account.bucket, account`lastUpdate
    ensures account.Shows(v') && InOrder(v', list', if ok then checked else asked)
    ensures var b := BalanceOf(Infos(list));
      ok <==> value <= b.balance - b.liability + limit
    ensures list' == if ok then list + [Item(stamp, uid, PaymentDebit(value, provisional))] else list
    ensures Solvent(Infos(list), limit) ==> Solvent(Infos(list'), limit)
    ensures var b := BalanceOf(Infos(list'));
      ok ==> 0 <= b.balance - b.liability + limit
  {
    var available := AvailableAt(account, asked, v, list, clock);
    v', list' := AfterBalance(v, asked), list;
    if available + limit < value {
      return false, v', list';
    }
    var i := Item(stamp, uid, PaymentDebit(value, provisional));
    Write(account, i, v', list, asked);
    v', list' := v'.(items := v'.items + {i}), list + [i];
    InfosGrow(list, i);
    AffordableStaysSolvent(Infos(list), limit, value, provisional);
    available := AvailableAt(account, checked, v', list', stamp);
    v' := AfterBalance(v', checked);
    if available + limit < 0 {
      assert false; // never rescinded
    }
    return true, v', list';
  }

  /** The other writes: credits, receipts and refunds are not checked, and cost an account no more than the
      refunds it sends. */
  method Enter(account: Account, limit: int, line: Info, uid: string, stamp: Time,
               ghost v: View, ghost list: seq<Item>, ghost clock: Time)
    returns (ghost v': View, ghost list': seq<Item>)
    requires account.Shows(v) && InOrder(v, list, clock) && 0 <= Cushion(line) && '/' !in uid
    requires clock < stamp && Stampable(stamp) && stamp % HOUR != 0
    modifies account.bucket
    ensures account.Shows(v') && InOrder(v', list', stamp) && list' == list + [Item(stamp, uid, line)]
    ensures Solvent(Infos(list), limit) ==> Solvent(Infos(list'), limit)
  {
    var i := Item(stamp, uid, line);
    Write(account, i, v, list, clock);
    v', list' := v.(items := v.items + {i}), list + [i];
    InfosGrow(list, i);
    if Solvent(Infos(list), limit) {
      StaysSolvent(Infos(list), limit, line);
    }
  }

  lemma SolventBound(history: seq<Info>, limit: int)
    requires Solvent(history, limit)
    ensures -RefundsSent(history) <= AvailableIn(history) + limit
  {
  }

  lemma NoRefundsIn(list: seq<Item>)
    requires AllWellFormed(list) && forall i :: i in list ==> i.info.code != SentRefund
    ensures RefundsSent(Infos(list)) == 0
  {
    InfosOf(list);
    forall k | 0 <= k < |list| ensures Infos(list)[k].code != SentRefund {
      assert list[k] in list;
    }
    NoRefundsSent(Infos(list));
  }

  /** The overdraft bound, on what a query of the account answers. */
  lemma CachedOverdraftBound(v: View, list: seq<Item>, clock: Time, now: Time, limit: int)
    requires InOrder(v, list, clock) && clock <= now && QueryTime(now) && Solvent(Infos(list), limit)
    ensures var b := BalanceNow(v, now);
      && -Posted(Original(SentRefund), Infos(list)) <= b.balance - b.liability + limit
      && ((forall i :: i in v.items ==> i.info.code != SentRefund) ==> 0 <= b.balance - b.liability + limit)
  {
    AnswerIsAvailable(v, list, clock, now);
    SolventBound(Infos(list), limit);
    if forall i :: i in v.items ==> i.info.code != SentRefund {
      NoRefundsIn(list);
    }
  }

  lemma {:induction false} InfosOf(list: seq<Item>)
    requires AllWellFormed(list)
    ensures forall k :: 0 <= k < |list| ==> Infos(list)[k] == list[k].info
    decreases |list|
  {
    if |list| > 0 {
      InfosOf(list[..|list| - 1]);
    }
  }
}
