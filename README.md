# Bill-splitting bot: conversation and settlement

A Telegram bot splits a shared bill between up to ten people. A user starts a
bill with /newbill, /single (one person paid everything) or /multi (everyone
paid something). The bot then asks, one message at a time, for the bill's
title, the number of people, optional names, and either the total and the
payer or each person's payment. Sessions are kept per user in an in-memory
map, `userStates`. When the bill is complete, the bill is saved and the bot
reports the settlement: each person's equal share, what they paid, whether
they overpaid or underpaid, and a greedy list of transfers from debtors to
creditors. Only then is the session deleted.

The Dafny project models that core:

- `wrappers.dfy`: `Option`.
- `seqs.dfy`: an order-preserving `Filter`.
- `bill.dfy`: the bill record and the session (`BillData`, the steps, the bill
  type). It also has the invariants: `WellFormed`, which every stored session
  keeps, and `Finalized`, which every completed bill meets.
- `names.dfy`: the `collectNames` parsing (`split(',')`, `trim()`, dropping
  empty pieces). It includes the proof that the names shown back, joined with
  ", ", parse back to the same names.
- `settlement.dfy`: `calculateBillSplit` as functions. Lemmas show that the
  three status groups partition the result lines. For a completed bill they
  also show that what was paid equals the total and that the differences from
  the share cancel out exactly.
- `transfers.dfy`: `calculateTransfers`. The imperative two-index loop is
  proved equal to a recursive reference pass, `Plan`. Lemmas about `Plan`
  show four things:
  - every transfer is above the 0.01 tolerance;
  - every transfer goes from an underpayer to an overpayer;
  - nobody pays more than they owe or receives more than they are owed;
  - an `n`-person bill takes at most `n - 1` rounds.
- `conversation.dfy`: each step of `handleBillCreation`, and each of the
  `add_names_yes`, `add_names_no` and `finish_bill` buttons, as a pure
  transition. The outcome is one of three: unchanged, updated session, or
  completed bill. Lemmas show that every transition keeps a session
  well-formed, moves it strictly forward, and hands over only bills that
  settle.
- `bot.dfy`: the session store, a class holding `userStates` as a
  `map<int, Session>`. It has one method per handler. Each method updates the
  map in place and is proved to leave it equal to the pure transition applied
  to the old map.

Amounts are exact reals, so the share is the exact quotient and sums are exact.
`parseInt` and `parseFloat` are taken as already done: a text message carries
its text and an optional integer and real, with `None` standing for NaN.

## Model

| member | source | states |
|---|---|---|
| `Bill.Opened` | src/commands/newbill.ts:31-39 | a new session is at step `billName`, with an empty title, the sender as the only participant, no payments, a zero total and the given bill type, and it is well-formed |
| `Bill.Total` | src/commands/newbill.ts:226 | definition: the payments' amounts summed left to right, as the `reduce` does |
| `Bill.Slots` | src/commands/newbill.ts:82 | definition: participant `i` of an `n`-person bill opened by `userId` is `userId + i` |
| `Bill.Identified` | src/commands/newbill.ts:22-23 | definition: an event identifies its sender iff it carries a user id other than 0 |
| `Names.Split` | src/commands/newbill.ts:113 | splitting on commas gives at least one piece and no piece contains a comma |
| `Names.JoinSplit` | src/commands/newbill.ts:113 | joining the pieces with commas gives the original text back |
| `Names.Trim` | src/commands/newbill.ts:113 | the trimmed piece is a contiguous slice of the piece with only white space before and after it. It starts and ends with a non-white character, and it is empty exactly when the piece is all white space |
| `Names.Parse` | src/commands/newbill.ts:113 | every parsed name is non-empty, trimmed and comma-free, and there are no more names than comma-separated pieces |
| `Names.Clean` | src/commands/newbill.ts:113 | definition: each comma-separated piece trimmed, with the pieces that trim to nothing dropped, in order |
| `Names.JoinNames` | src/commands/newbill.ts:118-125 | definition: `names.join(', ')`, the form in which the names are shown back |
| `Names.ParseJoinNames` | src/commands/newbill.ts:118-124 | names shown back as `names.join(', ')` parse back to exactly the same names |
| `Seqs.Filter` | src/commands/newbill.ts:258-260 | a filter keeps exactly the elements that pass the test, and no more elements than it started with |
| `Seqs.FilterAppend` | src/commands/newbill.ts:258-260 | filtering distributes over concatenation, so no element moves past another |
| `Settlement.Classify` | src/commands/newbill.ts:248 | the status is overpaid iff the difference is positive, underpaid iff it is negative, and exact iff it is zero |
| `Settlement.Results` | src/commands/newbill.ts:237-250 | one line per participant in order, numbered from 1. A line is overpaid iff its participant paid more than the share and underpaid iff they paid less. With distinct participants and payments recorded one per participant in order, each line shows its own payment, or 0 past the last one |
| `Settlement.CalculateBillSplit` | src/commands/newbill.ts:225-263 | `perPerson` is the total over the participant count, and `totalPaid` is the sum of the payments. Each line has the fields above, with overpaid iff `paid > perPerson` and underpaid iff `paid < perPerson`. The three summary lists hold only lines of their status, together are a multiset partition of the lines, and each keeps the lines in participant order |
| `Settlement.FilterInPersonOrder` | src/commands/newbill.ts:257-261 | filtering lines whose person numbers increase keeps them increasing, so `filter` keeps participant order |
| `Settlement.StatusPartition` | src/commands/newbill.ts:257-261 | the overpaid, underpaid and exact filters together hold every line exactly once |
| `Settlement.PaymentMap` | src/commands/newbill.ts:231-234 | definition: each payment in turn sets its participant's entry, so a later payment for the same participant wins |
| `Settlement.PaidBy` | src/commands/newbill.ts:240 | definition: the entry for the participant, or 0 when there is none |
| `Settlement.UnpaidIsZero` | src/commands/newbill.ts:231-240 | a participant without a recorded payment counts as having paid 0 |
| `Settlement.PaidInOrderLookup` | src/commands/newbill.ts:231-240 | with payments recorded one per participant in order, participant `i` paid the `i`-th payment, or 0 past the last one |
| `Settlement.SumPaidFollowsPayments` | src/commands/newbill.ts:226 | lines that follow the payments in order add up to the payments' total |
| `Settlement.SumDifferencesIsPaidMinusShares` | src/commands/newbill.ts:241 | the differences add up to what was paid minus one share per line |
| `Settlement.SettlementPaid` | src/commands/newbill.ts:237-241 | for a completed bill, each line's `paid` is that participant's payment, or 0 if they have none |
| `Settlement.SettlementPaysTotal` | src/commands/newbill.ts:226-241 | for a completed bill, the lines' payments add up to the bill total |
| `Settlement.SettlementBalances` | src/commands/newbill.ts:225-263 | for a completed bill, the amount paid equals the total and the differences from the share cancel out to exactly 0 |
| `Transfers.Debtors` | src/commands/newbill.ts:328 | definition: the negative balances, sorted ascending |
| `Transfers.Creditors` | src/commands/newbill.ts:329 | definition: the positive balances, sorted descending |
| `Transfers.Balances` | src/commands/newbill.ts:322-325 | definition: one balance per result line, numbered from 1 in line order, holding the line's difference |
| `Transfers.Sort` | src/commands/newbill.ts:328-329 | the sort keeps the length. It is a stable sort, as ES2019 requires of `Array.prototype.sort`, written here as an insertion sort; its order, permutation and stability are the lemmas below |
| `Transfers.Insert` | src/commands/newbill.ts:328-329 | inserting into a sorted list adds one element, and the head is the new element or the old head |
| `Transfers.SortSorted` | src/commands/newbill.ts:328-329 | the sort orders by balance, ascending for debtors and descending for creditors |
| `Transfers.SortPermutes` | src/commands/newbill.ts:328-329 | the sort is a permutation of its input |
| `Transfers.SortStable` | src/commands/newbill.ts:328-329 | the sort is stable: for every key, the balances with that key come out in their input order, so equal balances keep participant order |
| `Transfers.InsertStable` | src/commands/newbill.ts:328-329 | inserting into a sorted list places the new balance after every balance with the same key |
| `Transfers.DebtorsAreUnderpayers` | src/commands/newbill.ts:328 | the debtors are sorted most indebted first. They are exactly the participants with a negative difference, each under its own person number |
| `Transfers.CreditorsAreOverpayers` | src/commands/newbill.ts:329 | the creditors are sorted by largest surplus first. They are exactly the participants with a positive difference, each under its own person number |
| `Transfers.RoundSettlesOne` | src/commands/newbill.ts:337-354 | each round settles the current debtor or the current creditor, so at least one leaves. The remaining debtors still owe, the remaining creditors are still owed, and the amount is not negative |
| `Transfers.Settled` | src/commands/newbill.ts:340 | definition: a round moves the smaller of the debtor's debt and the creditor's surplus |
| `Transfers.Recorded` | src/commands/newbill.ts:342-348 | definition: the round's transfer is recorded only when it is above 0.01 |
| `Transfers.PaidDown` | src/commands/newbill.ts:350-353 | definition: the debtor's balance goes up by the amount, and the debtor is passed once it is within 0.01 of zero |
| `Transfers.PaidOut` | src/commands/newbill.ts:351-354 | definition: the creditor's balance goes down by the amount, and the creditor is passed once it is below 0.01 |
| `Transfers.Plan` | src/commands/newbill.ts:334-355 | definition: the recursive reference pass, one round at a time, that the loop is proved equal to |
| `Transfers.Rounds` | src/commands/newbill.ts:334-355 | definition: the number of rounds the pass takes |
| `Transfers.TransferPlan` | src/commands/newbill.ts:320-358 | definition: the greedy pass `Plan` over the sorted debtors and creditors of the result lines, the reference the loop is proved equal to |
| `Transfers.TransferRounds` | src/commands/newbill.ts:320-358 | definition: the number of loop iterations that pass takes |
| `Transfers.PlanAboveTolerance` | src/commands/newbill.ts:342-348 | every recorded transfer is above 0.01 |
| `Transfers.PlanRounds` | src/commands/newbill.ts:334-355 | the pass takes at most one round fewer than there are debtors and creditors together, and records at most one transfer per round |
| `Transfers.PlanEndpoints` | src/commands/newbill.ts:343-347 | every transfer is from a debtor's person number to a creditor's |
| `Transfers.PlanWithinBalances` | src/commands/newbill.ts:340-354 | a debtor's transfers add up to at most its debt, and a creditor's receipts to at most its surplus |
| `Transfers.HoldingResults` | src/commands/newbill.ts:322-329 | the debtors hold exactly each participant's debt, and the creditors exactly each one's credit |
| `Transfers.TransfersFromDebtorsToCreditors` | src/commands/newbill.ts:320-358 | every transfer is above the tolerance and goes from a participant who underpaid to one who overpaid |
| `Transfers.TransfersWithinBalances` | src/commands/newbill.ts:320-358 | no participant pays out more than they owe or receives more than they are owed |
| `Transfers.DebtLeftOver` | src/commands/newbill.ts:340-354 | on differences -1.0, 0.985, 0.009 and 0.006 the plan is the single transfer of 0.985 from person 1 to person 2, so person 1 sends 0.015 less than its debt, more than the tolerance |
| `Transfers.TransfersFewerThanParticipants` | src/commands/newbill.ts:320-358 | an `n`-person bill needs at most `n - 1` rounds and so at most `n - 1` transfers |
| `Transfers.NoDebtNoTransfers` | src/commands/newbill.ts:328-338 | when nobody underpaid there are no transfers |
| `Transfers.PlanSmall` | src/commands/newbill.ts:340-348 | when every debtor and creditor is within 0.01 of zero, the pass records no transfer |
| `Transfers.SmallDifferencesNoTransfers` | src/commands/newbill.ts:320-358 | when every difference is within 0.01 of zero, there are no transfers |
| `Transfers.LoopIteration` | src/commands/newbill.ts:337-354 | one iteration with its in-place balance updates and index moves advances at least one index. Appending its transfer to those so far and then running the pass on what is left gives the same transfers as before the iteration |
| `Transfers.CalculateTransfers` | src/commands/newbill.ts:320-358 | the while loop returns exactly the reference pass `TransferPlan`, so it has all of the properties above, and it takes `TransferRounds` rounds |
| `Conversation.StepAfterNames` | src/commands/newbill.ts:97-105 | after the names question, a single-payer bill asks for the total. Any other bill, including one opened by /newbill with no type, asks for individual payments |
| `Conversation.OnBillName` | src/commands/newbill.ts:61-64 | the text becomes the title and the step becomes `totalPeople`; nothing else changes |
| `Conversation.OnTotalPeople` | src/commands/newbill.ts:67-90 | the count is rejected, leaving everything unchanged, iff it is NaN, below 1 or above 10. Otherwise there are that many participants, the first is the sender, the step is `addNames`, and nothing else changes |
| `Conversation.ChooseNames` | src/commands/newbill.ts:93-105 | yes moves to `collectNames`; no moves to the step after the names question; the bill is unchanged |
| `Conversation.OnCollectNames` | src/commands/newbill.ts:112-127 | the reply is rejected iff its name count differs from the participant count. Otherwise the names are stored, one per participant, and the step moves on |
| `Conversation.OnPaymentAmount` | src/commands/newbill.ts:129-136 | the amount is rejected iff it is NaN or not positive. Otherwise it becomes the total and the step is `singlePayer` |
| `Conversation.SinglePayerPayments` | src/commands/newbill.ts:160-168 | one payment per participant, in order; `SinglePayerTotal` and `SinglePayerPaysAll` state what they add up to and who paid |
| `Conversation.SinglePayerTotal` | src/commands/newbill.ts:160-168 | the single-payer payments add up to the total |
| `Conversation.OnSinglePayer` | src/commands/newbill.ts:152-173 | the payer number is rejected iff it is NaN or outside 1 to the participant count. Otherwise the bill completes with one payment per participant appended in order |
| `Conversation.AddPayment` | src/commands/newbill.ts:183-189 | the amount is appended for the next participant without a payment, and nothing is appended once everyone has one |
| `Conversation.Finished` | src/commands/newbill.ts:207-208 | a finished bill's total is the sum of its payments; nothing else changes. The `finish_bill` action in src/bot.ts sums the same way at lines 110-111 |
| `Conversation.OnIndividualPayment` | src/commands/newbill.ts:176-216 | the amount is rejected iff it is NaN or negative. Otherwise it is recorded, and the session stays at this step while some participant has no payment; after that, the bill completes with its total set to the sum of the payments |
| `Conversation.OnText` | src/commands/newbill.ts:56-109 | an empty message changes nothing. At step `addNames`, a message changes nothing iff it is neither `add_names_yes` nor `add_names_no` |
| `Conversation.OnNamesButton` | src/bot.ts:73-101 | the names buttons change a session iff it is at step `addNames`, and they then answer the names question |
| `Conversation.OnFinish` | src/bot.ts:103-121 | `finish_bill` acts iff the session is at step `individualPayments`, and it then completes the bill with its total set to the sum of the payments so far |
| `Conversation.Next` | src/bot.ts:73-121 | definition: a text message goes to the text handler and each button to its action |
| `Conversation.NextPreservesWellFormed` | src/commands/newbill.ts:48-223 | every event keeps a well-formed session well-formed. Every bill it completes has 1 to 10 distinct participants, payments in participant order, and a total equal to their sum |
| `Conversation.NextMovesForward` | src/commands/newbill.ts:48-223 | every event that updates a session moves it strictly forward: a later step, or more payments at the same step |
| `Conversation.TypedChoiceMatchesButton` | src/commands/newbill.ts:93-109 | typing `add_names_yes` or `add_names_no` at step `addNames` has the same effect as pressing that button |
| `Conversation.CompletedBillBalances` | src/commands/newbill.ts:207-211 | every bill the conversation completes settles: the amount paid equals the total and the differences cancel out |
| `Conversation.SinglePayerPaysAll` | src/commands/newbill.ts:160-171 | in a single-payer bill the chosen person paid the whole total and everyone else 0 |
| `Conversation.FinishCountsMissingAsZero` | src/bot.ts:108-114 | finishing early settles the participants without a payment as having paid 0 |
| `Bot.Apply` | src/commands/newbill.ts:14-18 | an unchanged outcome keeps the map. An update replaces the user's entry, a completion deletes it, and no other user's entry changes |
| `Bot.Dispatch` | src/commands/newbill.ts:50-54 | an event without a user id, or from a user without a session, changes nothing |
| `Bot.ApplyKeepsWellFormed` | src/commands/newbill.ts:14-18 | storing a sound outcome keeps every stored session well-formed |
| `Bot.DispatchKeepsWellFormed` | src/bot.ts:73-161 | whatever event arrives, whether one of the three actions at lines 73-121 or a text message at line 161, the store stays well-formed, and any bill handed out is ready for settlement |
| `Bot.SessionStore.constructor` | src/commands/newbill.ts:14 | the store starts empty |
| `Bot.SessionStore.NewBill` | src/commands/newbill.ts:20-46 | an identified sender gets a fresh session without a bill type, replacing any unfinished one; otherwise nothing changes |
| `Bot.SessionStore.StartTyped` | src/bot.ts:24-58 | /single and /multi give an identified sender a fresh session of that bill type; otherwise nothing changes |
| `Bot.SessionStore.Commit` | src/commands/newbill.ts:171-173 | the store applies the outcome and hands out exactly the completed bill |
| `Bot.SessionStore.PaySingle` | src/commands/newbill.ts:160-168 | the for loop appends exactly the single-payer payments, one per participant in order |
| `Bot.SessionStore.HandleText` | src/commands/newbill.ts:48-223 | the text handler leaves the map equal to the pure transition applied to the old map, and hands out exactly the completed bill |
| `Bot.SessionStore.AddNamesYes` | src/bot.ts:73-83 | at step `addNames` the session moves to `collectNames`; otherwise nothing changes |
| `Bot.SessionStore.AddNamesNo` | src/bot.ts:85-101 | at step `addNames` the session moves to `paymentAmount` for a single-payer bill and to `individualPayments` otherwise; otherwise nothing changes |
| `Bot.SessionStore.FinishBill` | src/bot.ts:103-121 | at step `individualPayments` the bill is completed with the payments so far and its session deleted; otherwise nothing changes |

## Left out

- The Telegram transport: the context object, replies, keyboards, the bot's launch, command menus and signal handling. Handlers take the sender's id as an `Option<int>` instead.
- The localized messages and the result message built in `saveBillAndShowResult` (src/commands/newbill.ts:265-318). The handlers hand the completed bill out as their result in place of saving it. `CalculateBillSplit` and `CalculateTransfers` are what that message is built from.
- The database: the Mongoose models, the connection, and the save itself. The save catches its own errors, so the session is deleted whether or not it succeeds. The model deletes it unconditionally.
- The exact behaviour of `parseInt` and `parseFloat`, including inputs such as `"3abc"` or `"Infinity"`. Each text message arrives with both results already parsed.
- Floating-point rounding: amounts are exact reals. So the share is exact, and the "exact" status, which the source decides with exact comparisons, is an exact zero here.
- Logging, the ordering of awaited calls, and events for the same user arriving concurrently: each event is handled atomically.
- The loop's `if (!debtor || !creditor) break;`: both indices are always in range inside the loop, so the guard never fires.
- The `participantId !== undefined` checks in the single-payer loop and the individual-payment step: the model indexes only in range. For individual payments it appends nothing once every participant has paid, which is what the guard does.
- Transfers.TransfersWithinBalances: states that a debtor pays at most its debt and a creditor receives at most its surplus. It does not state that they pay or receive all of it within the tolerance. Transfers of 0.01 or less are skipped but still reduce the balances, so that stronger claim does not hold in general. `Transfers.DebtLeftOver` gives a bill where it fails.
