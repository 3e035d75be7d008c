# A verified model of the Acquire accounting service

Acquire keeps financial accounts as a double-entry ledger on an append-only key/value store. This
project models that engine in Dafny and proves what it is built to guarantee; a second, smaller part
models the job pools and the key ring of a compute cluster.

## What is modelled

- **Money** is a whole number of micro-units (six decimal places); one transaction carries at most
  999999.999999 units. **Time** is a whole number of microseconds; day `n` starts at `n * DAY` and day 1
  is 1 January of year 1. Dates are those of the proleptic Gregorian calendar.
- **Line items and balances** (`Amounts`, `Balances`, `Sums`): the eight codes and what each does to
  balance, liability and receivable.
- **Keys** (`Digits`, `Calendar`, `LineItemKeys`, `BalanceKeys`): the strings under which line items and
  hourly balances are stored, character by character, with their prefixes and their sorting order.
- **The balance of an account** (`BalanceSearch`, `BalanceCache`, `BalanceRuns`, `LateWrites`,
  `AccountStore`, `AccountService`, `AccountLedger`): an account stores no running total. `BalanceCache`
  says what a query computes on line items, stored hourly balances and the account's memory;
  `AccountService.Account` computes it on string keys in a store, as the program does; `BalanceRuns` shows
  that all answers, over whole runs with any number of readers, are replays of the history; `LateWrites`
  says what answers lack when line items are written late; `AccountLedger` checks debits against the cached
  balance.
- **The hour-boundary protocol** (`SafeTimes`, `TimedWrites`, `PiecemealAnswers`): when line items may be
  stamped, when no stored hourly balance ever goes stale, and what the answers of queries can miss, as
  transition systems of concurrent writers and piecemeal queries.
- **The ledger** (`LedgerSteps`, `LedgerInvariant`, `LedgerBooks`, `LedgerAgreement`, `LedgerCodes`): `perform`, `receipt`
  and `refund` as a transition system in which one step is one write of one call and calls interleave
  freely. `LedgerService` is the same ledger as a class, one call at a time, with exact outcomes; every
  write of its methods is a step of the transition system.
- **Moving the state of a record** (`Leases`, `LeaseGuard`): the test-and-set under a lease, which the
  ledger's transition system takes as one step.
- **Splitting, receipting and pairing** (`Splitting`, `Receipting`, `Pairing`) and payments from end to
  end, receipted or refunded (`Payments`).
- **Creating accounts** (`AccountCreation`): check, lock, check again, marker, unlock, build, limit, bind, by
  any number of processes, held up anywhere, with every access to the store failing or not.
- **The compute cluster** (`JobPools`, `TornTakes`, `KeyRing`).

The places where the code does not do all it seems meant to do are stated as theorems, each with the exact
condition under which it does:

- a query that reads the clock before the hour and searches the store after it can find the balance another
  query has just stored for the next hour, and store it for its own hour
  (`TimedWrites.RacingQueriesStoreTheWrongBalance`; the exact conditions are `TimedWrites.StoreIsReplayIff` for
  one query, `TimedWrites.StoredBalancesAreReplaysIff` for whole runs and `BalanceCache.QueryIsReplayIff` for
  the answer, which counts the line items in between twice);
- two readings of the clock that are less than a day apart can show the same hour of the day and still lie
  in different hours (`SafeTimes.GapTellsTheHourIff`);
- with a clock that stands still, `_get_safe_now` never returns from the second but last second of an hour
  (`SafeTimes.FrozenClockEndsIff`, for instance `SafeTimes.FrozenBeforeTheHour`);
- a line item stamped exactly on midnight is missed by a day-by-day search (`BalanceCache.BetweenIsWindowIff`,
  for instance `BalanceCache.MidnightItemIsMissed`);
- a line item written after someone has asked for a balance at or after its stamp may be missed until the
  hour is over (`BalanceCache.LateWriteIsSeenIff`, for instance `BalanceCache.LateCreditIsMissed`; over whole
  runs `LateWrites.AnswersLackExactly`);
- pairing accepts a list in which a debit note occurs twice and then leaves a credit note unused
  (`Pairing.PairingIsBijectionIff`, for instance `Pairing.RepeatedDebitNoteIsAccepted`), and of two listed credit
  notes for the same debit note it drops one (`Pairing.NoneLostIff`, for instance
  `Pairing.FirstOfTwoNotesIsLost`);
- creating an account with a negative overdraft limit loses its name for ever, with nothing else going wrong
  (`AccountCreation.LostToNegativeLimitIff`, `AccountCreation.NegativeLimitLosesTheName`); so do failures of the
  store at certain steps and callers that are held up beyond their lease (`AccountCreation.OrphanedIff`);
- a caller of `create_account` that is held up beyond its lease is refused when it unlocks, but by then may have
  written the marker over an account that was created and given meanwhile, whose name is then lost
  (`AccountCreation.AccountsStayBoundIff`, for instance `AccountCreation.HeldUpCallerLosesTheAccount`);
- a failing read is taken for a name that is not there, so two accounts can be created under one name
  (`AccountCreation.OneAccountIsSafeIff`, for instance `AccountCreation.MissedLooksGiveTwoAccounts`);
- a credit stamped before a query, however promptly it is written, may be missed until the hour is over
  (`PiecemealAnswers.AnswersMissOnlyThisHour`, for instance `PiecemealAnswers.PromptCreditIsMissed`);
- submitting a job again can put it in two pools (`JobPools.ResubmitKeepsOnePlaceIff`, for instance
  `JobPools.ResubmittedJobIsInTwoPools`); so can, on either production backend, two callers taking it at once
  and a delete that fails (`TornTakes.AlwaysApartIff`, for instance `TornTakes.FailedDeleteLeavesTwo`;
  `JobPools.TornTakesKeepOnePlaceIff`).

Line numbers below are those of the Acquire repository.

## Model

| member | source | states |
|---|---|---|
| Balances.SumTransactions | Acquire/Accounting/_account.py:125-148 | The accumulator loop gives the replay of the list |
| Balances.ReplayAddsEffects | Acquire/Accounting/_balance.py:68-102 | A replay is the starting balance plus what the ledger table gives for each line item, column by column, receipts by the receipted value on the balance and the original value on the promise |
| Balances.ReplayOrderIrrelevant | Acquire/Accounting/_account.py:125-148 | The store lists keys in any order: the sum is the same for every order |
| Balances.BalanceIsReplay | Acquire/Accounting/_account.py:125-148 | The balance in which the ledger's outcomes are stated is the replay of the line items |
| Balances.Total | Acquire/Accounting/_balance.py:141-157 | The three totals of a list of balances are the sums of its three figures |
| Balances.TotalAddsFigures | Acquire/Accounting/_balance.py:141-157 | Each figure of a total is the sum of that figure over the list |
| Digits.ParsePrint | Acquire/Accounting/_transactioninfo.py:61-70 | Fixed-width zero-padded digits are read back as the number printed |
| Digits.PrintSorts | Acquire/Accounting/_account.py:44-72 | Zero-padded numbers of one width sort as numbers, whatever follows them |
| LineItemKeys.ParsePrintedTime | Acquire/ObjectStore/_encoding.py:237-255 | A time written in ISO format, with or without microseconds, is read back exactly |
| LineItemKeys.IsoTimeInFields | Acquire/ObjectStore/_encoding.py:237-255 | A time of any date of the Gregorian calendar is written year, month, day, hour, minute, second and, unless zero, microseconds, field by field |
| LineItemKeys.MoneyInFields | Acquire/Accounting/_transactioninfo.py:61-70 | A value is written as six digits of units, a point and six digits of micro-units |
| LineItemKeys.CodesInFull | Acquire/Accounting/_transactioninfo.py:7-15 | The texts of the eight codes |
| LineItemKeys.SingleValueReceipt | Acquire/Accounting/_transactioninfo.py:163-188 | A receipt code with one value is read as that value, without a receipted value |
| LineItemKeys.CodeInFrontIsRead | Acquire/Accounting/_transactioninfo.py:146-160 | Positions before the first part count from the last: a key with the code in front is read too |
| LineItemKeys.FromKey | Acquire/Accounting/_transactioninfo.py:120-197 | The search from the end of the path finds the last place where time, UID and code follow one another |
| LineItemKeys.RoundTrip | Acquire/Accounting/_transactioninfo.py:120-209 | For all eight codes, all values and receipted values and any path prefix, decoding the key of a line item gives the line item |
| LineItemKeys.KeysAreInjective | Acquire/Accounting/_transactioninfo.py:199-209 | Different line items have different keys |
| Calendar.CivilIncreases | Acquire/Accounting/_account.py:9-26 | Dates follow one another in the order of their days |
| Calendar.MonthIsInterval | Acquire/Accounting/_account.py:19-26 | The days up to a day that share its month are those from the first of the month on |
| Calendar.OrdinalIsDayCount | Acquire/Accounting/_account.py:9-72 | A date falls on the day that counting years, leap days, months and days gives: the closed form of the Gregorian calendar, for every date |
| Calendar.CivilIsDayCount | Acquire/Accounting/_account.py:44-72 | And a day has the date for which counting gives it |
| Calendar.LeapDaysIff | Acquire/Accounting/_account.py:44-62 | 29 February is a date exactly in leap years |
| Calendar.StartsAreMidnights | Acquire/Accounting/_account.py:9-26 | The day and the month before begin at midnight |
| BalanceKeys.DayPrefixSelects | Acquire/Accounting/_account.py:44-62 | The prefix of a day matches exactly the keys of that day's hours |
| BalanceKeys.MonthPrefixSelects | Acquire/Accounting/_account.py:44-72 | The prefix of a month matches exactly the keys of that month's hours |
| BalanceKeys.HourKeysSort | Acquire/Accounting/_account.py:44-51 | The keys of hourly balances sort in the order of time |
| BalanceKeys.HourRoundTrip | Acquire/Accounting/_account.py:44-92 | The hour searched for in a key by pattern is the hour the key was made for |
| BalanceKeys.HourKeyInFields | Acquire/Accounting/_account.py:44-72 | The keys of an hour, its day and its month, field by field for every date from the year 1000 |
| BalanceSearch.SearchFindsNewest | Acquire/Accounting/_account.py:393-450 | With nothing stored for a later day, today, yesterday, yesterday's month and the months before it leave no gap: the newest stored hour is found if it lies in the window, and none otherwise |
| BalanceSearch.SixMonthsAreSearched | Acquire/Accounting/_account.py:427-450 | The newest stored hour is found exactly when its month is no earlier than the sixth before yesterday's |
| BalanceSearch.MonthBefore | Acquire/Accounting/_account.py:19-26 | The day found is the first of the month before, and the month ends where the next begins |
| BalanceCache.ReplayIsSum | Acquire/Accounting/_account.py:125-148 | Any listing of a set of line items, replayed, gives their sum |
| BalanceCache.ReplayResumes | Acquire/Accounting/_account.py:526-532 | Going on from an earlier balance gives the balance of the whole history |
| BalanceCache.BetweenIsWindowIff | Acquire/Accounting/_account.py:315-378 | Both ways of searching return the line items with start < stamp <= end, except exactly when a day-by-day search ends on a midnight at which a line item is stamped |
| BalanceCache.MidnightItemIsMissed | Acquire/Accounting/_account.py:319-322 | A line item on midnight is missed by a search from the hour before |
| BalanceCache.HourlyIsReplay | Acquire/Accounting/_account.py:486-543 | From memory, from the store, from a searched older balance or from the zero balance of the first hour: the balance at the top of the hour is the replay |
| BalanceCache.QueryIsReplay | Acquire/Accounting/_account.py:545-607 | Whichever of its paths a query takes, it returns the replay of all line items stamped at or before now, as long as its search finds no later hour than the one asked for |
| BalanceCache.QueryIsReplayIff | Acquire/Accounting/_account.py:393-607 | With queries in any order: a figure is that of the replay exactly when no later hour is found or the line items in between come to nothing |
| BalanceCache.LaterHoursAreTimely | Acquire/Accounting/_account.py:393-412 | When query hours never decrease the search finds no later hour |
| BalanceCache.QueryKeepsCoherent | Acquire/Accounting/_account.py:486-607 | A query leaves behind only balances that are replays |
| BalanceCache.QueryLeavesBehind | Acquire/Accounting/_account.py:534-607 | The answer is remembered for its hour, the balance at the top of the hour is in the store, and nothing else in it changes |
| BalanceCache.WriteKeepsCoherent | Acquire/Accounting/_account.py:1197-1198 | A line item written before any query at or after its stamp makes nothing stale |
| BalanceCache.LateWriteIsSeenIff | Acquire/Accounting/_account.py:562-607 | A late line item is counted in a figure exactly when it is stamped after the kept balance the query goes on from, or does not change the figure |
| BalanceCache.LateCreditIsMissed | Acquire/Accounting/_account.py:562-607 | A credit stamped a second before a query and written after it is not in the balance a minute later |
| LateWrites.AnswersLackExactly | Acquire/Accounting/_account.py:393-607 | In every run with any number of late writes, an answer counts each line item stamped by then once, but for those its kept balance lacks; a figure is right exactly when these come to nothing |
| BalanceRuns.AnswersAreReplays | Acquire/Accounting/_account.py:393-607 | In every run with any number of readers, in which no query finds a later hour than its own, every answer is the replay |
| BalanceRuns.SeenAfterQuery | Acquire/Accounting/_account.py:534-607 | A query leaves its reader what it kept and the others what it stored |
| BalanceRuns.SeenAfterReload | Acquire/Accounting/_account.py:187 | A reload leaves its reader nothing but the store |
| BalanceRuns.LaterQueriesAreAllowed | Acquire/Accounting/_account.py:393-607 | Queries whose hours never decrease are among those |
| BalanceRuns.AnswersAreFolds | Acquire/Accounting/_account.py:393-607 | Every answer is the fold of the additions over those line items in any order |
| BalanceRuns.AnswersStand | Acquire/Accounting/_account.py:393-607 | From an empty account on, an answer once given is still the replay for its time at the end of the run |
| AccountStore.ShowsOneView | Acquire/Accounting/_account.py:1297-1313 | The strings in a store determine the line items and the hourly balances of an account |
| AccountStore.StoreShows | Acquire/Accounting/_account.py:534-536 | Storing an hourly balance adds that balance and leaves the line items alone |
| AccountStore.WriteShows | Acquire/Accounting/_account.py:1182-1198 | Writing a line item adds that line item and leaves the hourly balances alone |
| AccountStore.DayPrefixSelectsItems | Acquire/Accounting/_account.py:336-345 | The prefix of a day matches exactly the line items stamped on that day |
| AccountStore.FoundAreNamed | Acquire/Accounting/_account.py:343-353 | The keys listed under a prefix name exactly the things filed whose names start with it |
| AccountStore.RootsAreApart | Acquire/Accounting/_account.py:1290-1313 | No root of an account starts with a root of another |
| AccountStore.KeysInFull | Acquire/Accounting/_account.py:1290-1313 | The full path of a line item and of an hourly balance |
| AccountStore.WriteKeepsOthers | Acquire/Accounting/_account.py:1182-1198 | Writing a line item of an account changes nothing of any other account |
| AccountStore.StoreKeepsOthers | Acquire/Accounting/_account.py:534-536 | Nor does storing an hourly balance |
| AccountService.Bucket.GetAllObjectNames | Acquire/Accounting/_account.py:343-345 | The store lists the keys under a prefix, each once |
| AccountService.Last | Acquire/Accounting/_account.py:410-412 | The last of the sorted keys is the greatest |
| AccountService.LastIsNewest | Acquire/Accounting/_account.py:410-412 | The greatest key is that of the newest hour |
| AccountService.Select | Acquire/Accounting/_account.py:349-353 | From keys alone: each line item of the window once |
| AccountService.Account.TransactionsBetween | Acquire/Accounting/_account.py:297-378 | The search returns each line item it should, once, from either branch |
| AccountService.Account.FindLastBalanceKey | Acquire/Accounting/_account.py:393-484 | The key found is that of the hour the search is specified to find, a zero balance being stored for the first hour when there is none; the last look for any key finds nothing; every other account in the bucket is as it was |
| AccountService.Account.GetHourlyBalance | Acquire/Accounting/_account.py:486-543 | The hourly balance and everything it stores and remembers are as specified; every other account is as it was |
| AccountService.Account.GetBalance | Acquire/Accounting/_account.py:545-607 | The balance and everything the query stores and remembers are as specified; every other account is as it was |
| AccountService.Account.WriteLineItem | Acquire/Accounting/_account.py:1182-1198 | The write adds the line item to the account and changes nothing else, of this account or any other |
| SafeTimes.SafeIff | Acquire/Accounting/_account.py:708-717 | The guard on minutes, seconds and microseconds holds exactly around the top of the hour |
| SafeTimes.GetSafeNow | Acquire/Accounting/_account.py:701-729 | The loop over clock readings returns what it is specified to, and that is safe |
| SafeTimes.RunningClock | Acquire/Accounting/_account.py:701-729 | While the clock runs, the first safe reading is returned |
| SafeTimes.FrozenClockEndsIff | Acquire/Accounting/_account.py:719-727 | With a clock that stands still the wait ends exactly when now or a second later is safe |
| SafeTimes.FrozenBeforeTheHour | Acquire/Accounting/_account.py:719-727 | From the second but last second of an hour it never ends |
| SafeTimes.GapTellsTheHourIff | Acquire/Accounting/_account.py:1188-1195 | Comparing the hour of the day of two safe readings tells whether they lie in the same hour exactly when they are at most 23 h 2 s 10 us apart |
| SafeTimes.DelayKeepsTheHourIff | Acquire/Accounting/_account.py:708-717 | A write stays in the hour of the safe reading before it, whichever that is, exactly when it follows by at most two seconds |
| TimedWrites.NoLateWrites | Acquire/Accounting/_account.py:823-849 | No line item enters the store at or after the top of an hour that its stamp is not after |
| TimedWrites.UndisturbedWrite | Acquire/Accounting/_account.py:1182-1198 | A debit or credit checked within the hour and written less than two seconds later is in the store under the time at which it began |
| TimedWrites.CheckStartsAgainIff | Acquire/Accounting/_account.py:1188-1195 | It starts again exactly when the hour of the day has changed |
| TimedWrites.UndisturbedQuery | Acquire/Accounting/_account.py:486-543 | A query that nobody disturbs stores the replay for its hour |
| TimedWrites.StoreIsReplayIff | Acquire/Accounting/_account.py:511-536 | A query stores the right figure for the hour it read exactly when the line items between that and a later hour it found come to nothing |
| TimedWrites.StoredBalancesAreReplaysIff | Acquire/Accounting/_account.py:486-543 | In every interleaving of writers and piecemeal queries every stored hourly balance is at all times the replay, exactly when every store of the run is of that kind |
| TimedWrites.StoredBalancesAreReplays | Acquire/Accounting/_account.py:486-543 | So it is in every interleaving in which no query finds a later hour than the one it read |
| TimedWrites.RacingQueriesStoreTheWrongBalance | Acquire/Accounting/_account.py:403-412 | Two queries around the end of the first hour of a day store a credit in the balance of the top of the hour it was made in, the later hour being the newest of today |
| TimedWrites.StoredBalancesStand | Acquire/Accounting/_account.py:701-729 | In a run in which every store is of that kind, the balance of an hour, once stored, never changes and is still the replay at the end |
| PiecemealAnswers.AnswersMissOnlyThisHour | Acquire/Accounting/_account.py:545-607 | In every interleaving of writers and piecemeal queries in which every store is of that kind, an answer, from memory or not, counts every line item stamped by then once but for some of its own hour, those written after their time was listed; a figure is right exactly when these come to nothing |
| PiecemealAnswers.EarlierHoursAreCounted | Acquire/Accounting/_account.py:545-607 | No line item of an earlier hour is missed |
| PiecemealAnswers.UndisturbedAnswer | Acquire/Accounting/_account.py:545-607 | The first query after a reload, undisturbed, answers the replay and misses nothing |
| PiecemealAnswers.NextQueryGoesOn | Acquire/Accounting/_account.py:572-607 | The next query of the hour goes on from the last answer |
| PiecemealAnswers.PromptCreditIsMissed | Acquire/Accounting/_account.py:545-607 | A credit stamped a second before a query and written during it is missed |
| LedgerInvariant.StepKeepsValid | Acquire/Accounting/_ledger.py:83-534 | Every write of every call keeps the invariant that ties states, claims, records and calls together |
| LedgerInvariant.RecordsOnlyMoveLegally | Acquire/Accounting/_transactionrecord.py:14-21 | A record never disappears, keeps its accounts and value, and moves only along the life cycle; receipted and refunded are final |
| LedgerInvariant.LegalMovesAreMade | Acquire/Accounting/_transactionrecord.py:14-21 | Every move of the life cycle is made by some write of some ledger |
| LedgerInvariant.SettledAtMostOnce | Acquire/Accounting/_debitnote.py:216-249 | At most one record settles a transaction: one receipt or one refund, in any interleaving |
| LedgerInvariant.SettlementIsNeverStuck | Acquire/Accounting/_creditnote.py:206-309 | Once value has been taken, the second check of state and match cannot fail |
| LedgerInvariant.PaymentIsNeverStuck | Acquire/Accounting/_ledger.py:277-461 | A payment not refused can always take the next write of its phase, and no other |
| LedgerBooks.StepConserves | Acquire/Accounting/_debitnote.py:181-383 | No single write makes or destroys value, nor promises, counting what is in flight |
| LedgerBooks.Conservation | Acquire/Accounting/_creditnote.py:181-345 | Over every run, transfers to oneself included, value in accounts and in debit notes not yet credited is constant |
| LedgerBooks.NothingFromNothing | Acquire/Accounting/_ledger.py:277-461 | From an empty ledger: the accounts together hold the value in flight with the sign turned, and owe what they expect but for promises in flight |
| LedgerAgreement.StepKeepsBooks | Acquire/Accounting/_ledger.py:83-534 | Line items and records tell the same story after every write, counting what each call has under way |
| LedgerAgreement.TwoBooksAgree | Acquire/Accounting/_ledger.py:83-534 | At rest, the balance replayed from line items is credits minus debits over records that are not provisional, and liability and receivable are the open promises and not negative |
| LedgerCodes.PaymentCodesAgree | Acquire/Accounting/_ledger.py:277-461 | At rest, what debits, credits, liabilities and receivables add up to in an account are the outright and the provisional payments of the records, made and received |
| LedgerCodes.SettlementCodesAgree | Acquire/Accounting/_ledger.py:83-274 | At rest, receipts and refunds, sent and received, are those of the records, receipts with both of their values |
| LedgerService.LedgerService.SetOverdraftLimit | Acquire/Accounting/_account.py:1250-1288 | A limit is accepted exactly when it is not negative and either unchanged or balance minus liability plus limit is not negative; which error otherwise |
| LedgerService.LedgerService.Debit | Acquire/Accounting/_account.py:1119-1126 | A part is debited exactly when it is no more than balance minus liability plus limit |
| LedgerService.LedgerService.Perform | Acquire/Accounting/_ledger.py:277-461 | A payment succeeds exactly when the sum of its parts is no more than the debtor's balance minus liability plus limit, with all line items and records; exactly which error it fails with, and that a later refusal leaves just the parts that could be afforded debited |
| LedgerService.LedgerService.Settle | Acquire/Accounting/_ledger.py:83-274 | A receipt or refund goes through exactly when the transaction waits for it and matches it; otherwise nothing changes, and exactly which error is raised |
| LedgerService.PaymentLinesAre | Acquire/Accounting/_account.py:1130-1198 | One line item for each part, in order, with the codes of the kind of payment |
| LedgerService.SettleableIff | Acquire/Accounting/_creditnote.py:206-309 | What has to hold for a settlement, field by field |
| LedgerService.SettlementLinesAre | Acquire/Accounting/_account.py:731-851 | The two line items of a receipt or refund, codes and values, and that no other account changes |
| LedgerService.SettlementRecordsAre | Acquire/Accounting/_ledger.py:83-274 | The settled record moves to its final state and the new one says who paid whom and how much |
| LedgerService.OverdraftBound | Acquire/Accounting/_account.py:1119-1126 | After any calls, balance minus liability plus limit is never below minus the refunds sent, and not negative without refunds |
| AccountLedger.AnswerIsAvailable | Acquire/Accounting/_account.py:1117-1119 | What a cached balance says is what the whole history does, and leaves to spend its balance minus its liability |
| AccountLedger.Debit | Acquire/Accounting/_account.py:1117-1224 | With stamps and query times: a debit goes through exactly when the cached balance, and so the history, covers it; the check after the write passes; the history stays within the overdraft bound |
| AccountLedger.Enter | Acquire/Accounting/_account.py:731-1056 | Credits, receipts and refunds keep the history within the overdraft bound |
| AccountLedger.CachedOverdraftBound | Acquire/Accounting/_account.py:1119-1126 | The overdraft bound for the figures that a query answers |
| LeaseGuard.SavesReplaceWhatWasTested | Acquire/Accounting/_transactionrecord.py:435-457 | A state is stored only over the state that was tested for |
| LeaseGuard.MovesFormAChain | Acquire/Accounting/_transactionrecord.py:392-457 | In every interleaving the stored states form one chain of legal moves |
| LeaseGuard.SettledAtMostOnceUnderLease | Acquire/Accounting/_transactionrecord.py:392-457 | A record is receipted or refunded at most once, never both, and stays so |
| LeaseGuard.ClaimsAlternate | Acquire/Accounting/_debitnote.py:288-321 | Between two claims for a receipt the record was given back |
| LeaseGuard.UndisturbedTestAndSet | Acquire/Accounting/_transactionrecord.py:392-457 | A process that nobody disturbs stores the next state when the record is in the expected one, and leaves it alone when it is not |
| LeaseGuard.LookClearsIff | Acquire/Accounting/_transactionrecord.py:435-450 | A process goes on to store exactly when at least a hundred seconds of its lease are left |
| LeaseGuard.SavesInTimeIff | Acquire/Accounting/_transactionrecord.py:435-457 | Its write lands within those |
| Splitting.NewTransaction | Acquire/Accounting/_transaction.py:52-94 | Exactly the values up to 999999.999999 are accepted, with a description unless zero; which error otherwise |
| Splitting.Split | Acquire/Accounting/_transaction.py:181-236 | Exactly which values are split, up to 10^15 units; the parts add up, are full but for the last, and both corrections at the end are unreachable |
| Splitting.GreedyIsShortest | Acquire/Accounting/_transaction.py:181-236 | No list of legal parts with the same sum as a greedy one is shorter |
| Splitting.SplitIsMinimal | Acquire/Accounting/_transaction.py:181-236 | No list of legal parts of the value is shorter than what `split` returns |
| Splitting.GreedyIsUnique | Acquire/Accounting/_transaction.py:181-236 | The sum determines the parts |
| Receipting.NewReceipt | Acquire/Accounting/_receipt.py:12-56 | Which receipts can be made of a credit note, and which error is raised |
| Receipting.Create | Acquire/Accounting/_receipt.py:238-308 | Exactly when receipts can be made; they match the notes in order, add up to what was asked for, and hold back from the first notes |
| Receipting.ShapeDeterminesAmounts | Acquire/Accounting/_receipt.py:267-308 | Sum and shape determine every single amount |
| Pairing.CreateFromDictionary | Acquire/Accounting/_pairednote.py:51-87 | Exactly when a pairing is accepted, and its pairs |
| Pairing.CreateFromList | Acquire/Accounting/_pairednote.py:51-87 | The same for a list of credit notes |
| Pairing.PairingIsBijectionIff | Acquire/Accounting/_pairednote.py:66-87 | An accepted pairing uses every credit note once exactly when no debit note is listed twice |
| Pairing.RepeatedDebitNoteIsAccepted | Acquire/Accounting/_pairednote.py:66-87 | A repeated debit note is accepted and leaves a credit note unused |
| Pairing.NoneLostIff | Acquire/Accounting/_pairednote.py:60-69 | No listed credit note is lost exactly when no two answer the same debit note |
| Pairing.FirstOfTwoNotesIsLost | Acquire/Accounting/_pairednote.py:60-80 | Of two credit notes for one debit note the first is lost and the pairing accepted |
| Payments.PaymentMoves | Acquire/Accounting/_ledger.py:277-461 | A payment moves its value from debtor to creditor; a provisional one moves nothing and opens its value on both sides |
| Payments.SettlementMoves | Acquire/Accounting/_ledger.py:83-274 | A receipt moves the receipted value and closes the original value on both sides; a refund moves the value back; also when debtor and creditor are the same |
| Payments.SettleAll | Acquire/Accounting/_debitnote.py:181-321 | Receipts or refunds for all parts of a payment go through, one after the other |
| Payments.PaidAndReceipted | Acquire/Accounting/_receipt.py:238-308 | A provisional payment and all its receipts together move the receipted total and leave nothing open |
| Payments.PayInPart | Acquire/Accounting/_transaction.py:181-236 | End to end: it goes through exactly when the whole value can be afforded, and then moves exactly the receipted part |
| Payments.PaidAndRefunded | Acquire/Accounting/_ledger.py:83-174 | Refunding every part of a payment undoes it |
| Payments.PayAndRefund | Acquire/Accounting/_account.py:793-851 | End to end: the refunds of a payment go through whatever the creditor has left, and every balance is what it was |
| Payments.MovedBalances | Acquire/Accounting/_balance.py:68-102 | In balances: what was moved has changed hands, liability and receivable are what they were |
| AccountCreation.OneAccountPerName | Acquire/Accounting/_accounts.py:302-374 | In every interleaving, leases kept or not, whatever fails but a second look at a name under which somebody builds or has been given an account: at most one caller past the unlock builds, all accounts ever given are the same, and none is built once one was given |
| AccountCreation.OneAccountIsSafeIff | Acquire/Accounting/_accounts.py:323-326 | From any state reached, a step leaves open a run to two builders or two accounts exactly when it is such a second look that fails within the lease |
| AccountCreation.FreeNameIsGiven | Acquire/Accounting/_accounts.py:302-374 | An undisturbed call on a free name is given the account it built, which the name is then bound to |
| AccountCreation.TakenNameIsGiven | Acquire/Accounting/_accounts.py:302-317 | A call on a name that is bound to an account is given that account |
| AccountCreation.TakenUnderLockIsGiven | Acquire/Accounting/_accounts.py:323-339 | So is a caller that finds the account under the lock |
| AccountCreation.UnwrittenMarkerLetsGo | Acquire/Accounting/_accounts.py:343-348 | A caller that cannot write the marker lets go of the lock and leaves the name free |
| AccountCreation.FailedBuildFreesTheName | Acquire/Accounting/_accounts.py:355-367 | A caller whose build fails takes the marker away |
| AccountCreation.LeaseLastsTenMinutes | Acquire/Accounting/_accounts.py:321 | The lock can be taken again after ten minutes and not before |
| AccountCreation.MissedLooksGiveTwoAccounts | Acquire/Accounting/_accounts.py:302-326 | A caller both of whose reads fail is given a second account |
| AccountCreation.OnlyOwnMarkerIsDeleted | Acquire/Accounting/_accounts.py:360-366 | When a failing caller deletes the marker nobody else builds, has been given an account, or is about to build |
| AccountCreation.BoundNameChangesIff | Acquire/Accounting/_accounts.py:341-350 | In every run a name bound to an account loses it in a step exactly when the step writes a marker, and then the lease of the writer has lapsed |
| AccountCreation.AccountsStayBoundIff | Acquire/Accounting/_accounts.py:341-374 | A name bound to an account is bound to it at the end of a run exactly when no marker was written after a lease, and to the marker otherwise |
| AccountCreation.HeldUpCallerLosesTheAccount | Acquire/Accounting/_accounts.py:318-350 | A caller held up beyond its lease writes the marker over an account created and given meanwhile, and is refused; the name is lost |
| AccountCreation.OrphanedIff | Acquire/Accounting/_accounts.py:341-374 | Over every run: a name is lost exactly when a lease lapsed between the second look and the unlock, the lock could not be let go, a marker was written after the lease where there was none, the marker of a failed build could not be deleted, the limit was refused or not saved, or the account could not be bound |
| AccountCreation.LostNameComesBackIff | Acquire/Accounting/_accounts.py:323-326 | A lost name comes back in a step exactly when a second look fails within the lease |
| AccountCreation.OrphanedForEver | Acquire/Accounting/_accounts.py:302-316 | Otherwise the marker stays for ever and nobody is given an account that was not given before |
| AccountCreation.LostToNegativeLimitIff | Acquire/Accounting/_account.py:1250-1274 | When the store never fails and nobody is held up, a name is lost exactly when an account just built is to be given a negative limit |
| AccountCreation.NegativeLimitLosesTheName | Acquire/Accounting/_accounts.py:368-370 | A single call with a negative limit, nothing failing, loses the name |
| JobPools.EveryJobHasOnePlace | Acquire/Compute/_cluster.py:340-363 | In every interleaving a job is in one pool, in one caller's hands or lost to a failed store, and a pool holds the job its key names |
| JobPools.StaysAlternate | Acquire/Compute/_cluster.py:340-363 | With atomic takes, which neither production backend has: a job enters a pool, one caller takes it out, and only then can it enter again |
| JobPools.TornTakesKeepOnePlaceIff | Acquire/ObjectStore/_gcp_objstore.py:432-451 | With a take that reads and then deletes, two callers can end the same stay; the job is then in one place exactly when both move it to the same pool |
| TornTakes.AlwaysApartIff | Acquire/ObjectStore/_gcp_objstore.py:432-451 | With reads and deletes as separate steps, in every interleaving: every job has at all times no more than one place exactly when nobody reads a job between another caller's read and delete of it and no delete fails |
| TornTakes.NoJobVanishes | Acquire/ObjectStore/_oci_objstore.py:592-611 | However takes are torn, a submitted job is in a pool, in a caller's hands or lost to a failed store, and a pool holds the job its key names |
| TornTakes.UndisturbedMove | Acquire/Compute/_cluster.py:340-363 | A caller that nobody disturbs moves the job to the next pool, its times kept and the new one added |
| TornTakes.FailedDeleteLeavesTwo | Acquire/ObjectStore/_oci_objstore.py:592-611 | A delete that fails, nothing else going wrong, leaves a job in two pools |
| JobPools.ReadThenDeleteIsTake | Acquire/ObjectStore/_oci_objstore.py:592-611 | Undisturbed, reading and deleting is a take |
| JobPools.ResubmitKeepsOnePlaceIff | Acquire/Compute/_cluster.py:399-411 | Submitting again keeps a job in one place exactly when it is in no caller's hands and in no pool but the pending one |
| JobPools.ResubmittedJobIsInTwoPools | Acquire/Compute/_cluster.py:399-411 | A job submitted, moved on and submitted again is in two pools |
| JobPools.JobStore.SubmitJob | Acquire/Compute/_cluster.py:399-411 | The job can be taken from the pending pool, no other job is touched, and under a fresh UID it is in no other pool |
| JobPools.JobStore.GetJob | Acquire/Compute/_cluster.py:334-370 | The job asked for is handed out and moved on, its times kept and the new one added; or an error is raised, with nothing moved when it was not there, and with the job gone from every pool when it could not be stored again |
| KeyRing.Cluster.RotateKeys | Acquire/Compute/_cluster.py:232-236 | Rotation keeps every key |
| KeyRing.Cluster.DecryptData | Acquire/Compute/_cluster.py:263-311 | The backward search ends and finds the newest key with the fingerprint |
| KeyRing.OldDataDecryptsIff | Acquire/Compute/_cluster.py:244-311 | After any number of rotations old data is decrypted exactly when no newer key shares its key's fingerprint |
| KeyRing.ForeignDataIsRefused | Acquire/Compute/_cluster.py:276-308 | Which error is raised, exactly when |

## Left out

- Acquiring and releasing a mutex: each taken as one atomic step of a lease lock with one holder at a time. `Acquire/ObjectStore/_mutex.py:269-271` itself admits a race between three reads and writes; releasing reads, deletes and looks at the clock one after the other (`_mutex.py:126-138`).
- Assumptions of the timed models: clocks agree, the two readings are at most 23 h 2 s 10 us apart (`TimedWrites`; `SafeTimes.GapTellsTheHourIff` shows that this is what the comparison of hours needs), a write lands less than two seconds after the last reading (`TimedWrites`), within the hundred seconds checked for (`LeaseGuard`).
- PiecemealAnswers.AnswersMissOnlyThisHour: every store is harmless in the sense of `TimedWrites.StoreIsReplayIff`.
- TimedWrites.StoredBalancesAreReplays: no query finds a later hour than the one it read off the clock; `TimedWrites.RacingQueriesStoreTheWrongBalance` shows what happens otherwise, which nothing in the code prevents.
- AccountCreation.OneAccountPerName: no second look within a lease fails while somebody builds or has been given an account; `AccountCreation.OneAccountIsSafeIff` shows that this is exactly what is needed. A write or delete that fails is taken to store or delete nothing.
- AccountCreation.OrphanedIff: second looks within a lease are answered; `AccountCreation.LostNameComesBackIff` says what happens otherwise.
- BalanceRuns.AnswersAreReplays: assumes whole queries that find no later hour, which non-decreasing query hours ensure, and line items written before any query at or after their stamp. `TimedWrites` discharges the second for whole hours; `LateWrites.AnswersLackExactly` and `PiecemealAnswers.AnswersMissOnlyThisHour` say what is missed without it.
- LineItemKeys.FromKey: recognises times, codes and numbers in the form in which the code writes them; other spellings that Python's parsers would accept are not keys of this model.
- AccountService.Account.GetBalance: the UIDs of accounts have no 'T' and no '/' and the UIDs in line items no '/', as UUIDs are written; balances are asked for on days from the year 1001 to 9999.
- BalanceSearch.SearchFindsNewest: balances are asked for from the year 1001 to 9999, where "%4d" and ISO dates print the year alike.
- The check for over-debit made once more after a debit, and the rescinding line item written when it fails (`_account.py:1199-1222`): reached only with concurrent debits. The interleaved ledger leaves open when a part is refused; the sequential one proves the check passes.
- Roll-backs of a failing `perform`, `receipt` or `refund` through `_rescind_note`, `_delete_note`, `_set_truly_broken` and the PENDING state, none of which the code defines: such a failure ends in an unbalanced ledger, as `LedgerService.Perform` says.
- Zero values in `perform` (the filter keeps them and `_debit` then returns nothing), deadlines for receipts, descriptions, and fields of notes that no check reads.
- Receipting an empty list of notes with a receipted value, and functions called with arguments of the wrong type.
- `Balance.__sub__`, `Balance + Transaction`, equality, string forms and JSON of all entities.
- Decimal and float arithmetic: values are whole micro-units, so rounding is not modelled; texts of numbers and times are those the code writes itself.
- The order in which the store lists keys beyond "any order" and its paging.
- Authorisation, access rules, accounts groups, passphrases and service calls.
- Storing rotated keys on the service (`set_cluster`), which reloads the old cluster; fingerprints and encryption are symbolic.
- `JobPools`: the signal that makes the cluster pull a job, and listing of pending jobs.
- Clients, access to storage and compute, identity, registry and the JavaScript libraries.
