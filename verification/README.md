# A travel agency's books, verified

This project models the back office of a travel agency and proves what its money
rules promise. No balance is stored anywhere in that system: every figure is
summed from rows, and every guard sums rows, decides, and then writes. The
questions are whether those guards hold when calls overlap, whether the several
derivations of one figure agree, and whether undoing something undoes exactly it.

Amounts are whole paisa, times are whole milliseconds, and one agency's rows are
considered at a time.

## How it is laid out

| files | subject |
|---|---|
| `Wrappers`, `Rows`, `Sorting` | options and results; SUM, WHERE and GROUP BY over tables; the stable sort |
| `Books`, `Calls`, `Acceptance`, `Effects`, `Office` | the rows and their derived figures; each service call as a state change; when it is accepted and what it does to every figure; the services as an imperative class that does just that |
| `Protocol`, `ProtocolAlone`, `ProtocolSafety`, `ProtocolLocks`, `ProtocolSales`, `ProtocolWallets`, `ProtocolSerial`, `TransferSafety`, `CallSafety`, `Witnesses` | payments and transfers statement by statement under READ COMMITTED and row locks; whole calls; and runs that reach what nothing guards against |
| `Ledger`, `Undo`, `Assets` | what explains a balance, what a deletion undoes, what collecting money conserves |
| `CustomerLedger`, `Statement`, `BookingList`, `Wallet` | the same figure from grouped queries, from an event list and from map-filling loops |
| `History`, `HistoryPasses`, `HistorySafety`, `HistoryEffects`, `HistoryRerun`, `HistoryImport`, `ImportRun`, `HistoryUndo` | importing a spreadsheet's history, importing it again, and undoing an import |
| `HajjRooms`, `HajjDesk`, `TourSeats`, `TourDesk` | seats, beds and terminal statuses |
| `Billing`, `Renewal`, `BillingDesk` | orders under interleaved notifications, and stacked renewals |
| `Json`, `Paging`, `QueryBuilder`, `RateLimiter` | the list query and the in-memory limiter |

The payment protocol is a transition system. A state holds the committed rows,
each transaction's program point with what it has read, and the owner of every
row lock. Each SQL statement reads the committed rows of its own moment; the
wallet's six sums are six separate reads in any order; whole calls of every other
kind commit in between. A payment's rows stay in its own buffer until it commits.
A call is *quiet* if it leaves every charge, every sale's owner, every usable account
and every receipt's money standing: receipts and edits of their discounts, money
flows, new rows, changes of a booking's status or a customer's opening due, and
deletions of payments, sales, transfers and flows. The other calls are edits of a
charge, a ticket's move to another customer, switching an account off, and deletions
of receipts, customers and accounts; they are let in one sale and one wallet at a time.

Where the source changes things in place, the model has a class whose methods
are tied to a state-change function, and the results over runs are proved about
that function. What such a function does is stated a second time, without it: when a
call is accepted as a condition on the rows (`Acceptance`), and what it does to every
balance, wallet and due in the fields it was asked with (`Effects`, `HistoryEffects`).

## What the proofs found

- A receipt may carry a second amount without a second account. It comes off the
  customer's due and is posted to no account (`Assets.ReceiptConservesExactlyWhen`).
- A PNR is stored upper-cased but looked up as written. A letter whose upper case
  normalises differently makes a second import create the ticket again; the exact
  condition is `HistoryRerun.ReimportAddsNothingIff`, and the comment that nothing
  is created twice holds under it only.
- Undoing an import is not stopped by a payment taken later on an imported ticket:
  the database deletes the payment with the ticket and its posting stays behind
  (`ImportRun.LaterPaymentsAreLost`). What undoing does in full is
  `ImportRun.RevertLeaves`; it is exact if and only if nothing outside the run
  refers to its rows (`ImportRun.RevertIsExactIff`).
- A gateway notification, retry or checkout that writes FAILED or CANCELLED does so
  whatever the order has become. When it finds the order paid, a further valid
  notification renews again (`Billing.StaleFailureRenewsTwice` is such a run), and
  there is no other way to renew twice (`Billing.ClaimedAgainIff`,
  `Billing.OverwrittenExactlyWhen`).
- Editing a ticket's or a visa case's own figures (fare, date-change fee, refund, fees)
  never looks at what was paid. Of all whole calls these alone can leave a sale
  overpaid, and do so exactly when the new charge is below what was paid
  (`CallSafety.WholeCallsOverpayIff`).
- A tour or hotel price cut does look, but without a lock: a payment can overtake it
  between its check and its write (`Witnesses.OvertakenPriceOverpays`). With edits of
  both kinds a sale is overpaid by exactly the events that put its charge below what
  has been paid by then (`ProtocolSales.EventOverpaysIff`); a Hajj booking never is
  (`ProtocolSales.HajjIsNeverOverpaid`).
- A wallet can be overdrawn in two ways: a receipt is deleted, or a ticket paid from
  another customer's wallet is moved onto its customer. Neither is guarded, and
  `CallSafety.WholeCallsOverdrawIff` says exactly when they do it.
- Deleting a payment, a receipt, a transfer or an investment is unguarded and leaves an
  account below zero exactly when it holds less than it then gives back
  (`Undo.DeletePaymentTakesBack`, `Undo.DeleteReceiptTakesBack`,
  `Undo.DeleteTransferTakesBack`, `Undo.DeleteFlowTakesBack`).
- `Witnesses` has runs from empty books that end in these failures, and in the next one.
- A customer with tour or hotel bookings, or with an opening due, can be deleted.
  What they owed leaves total assets (`Assets.RemovingCustomerConservesExactlyWhen`),
  and cash still taken on their bookings counts as new money
  (`Assets.AssetIdentity`).
- A server condition is safe from client filters because it is chained after
  them; the merge itself lets whichever comes later win (`Json.LaterPinsSurvive`).

## Model

| member | source | states |
|---|---|---|
| `ProtocolSafety.PaymentsAreSafe` | src/app/module/hajj/hajjBooking.service.ts:351-420 | Over every interleaving of payments, transfers and quiet calls, statement by statement, no sale has more taken for it than it costs and no wallet is spent beyond what was paid in; all five kinds of sale at once |
| `ProtocolSafety.NextKeeps` | src/app/module/ticket/ticket.service.ts:400-469 | Each single statement of any transaction, and each quiet call between two statements, keeps the inductive invariant behind that result |
| `ProtocolSafety.MutualExclusion` | src/app/utils/rowLock.ts:57-69 | Any two payments holding their sales' row locks are on different sales, and any two that have checked their wallets' owners spend different wallets |
| `ProtocolSafety.AnswerKeepsPayOk` | src/app/module/wallet/wallet.service.ts:33-67 | Each of the six sums behind a wallet balance reads its own snapshot; what was added up so far never over-estimates the balance while the customer is locked |
| `ProtocolSafety.StepKeepsPayOk` | src/app/module/ticket/ticket.service.ts:408-437 | Each guard that passed still holds at the next statement: owner re-checked, wallet covered or account usable, amount within the due; quiet calls move no sale to another customer, and what the owner check is for is Witnesses.OwnerCheckRefuses |
| `ProtocolSafety.EveryCommitIsOneCall` | src/app/module/visa/visa.service.ts:366-436 | A commit changes the rows exactly as one whole call made at that moment would |
| `ProtocolAlone.PaymentAlone` | src/app/module/ticket/ticket.service.ts:389-470 | The statements of a payment that nothing comes between end as the whole call does, in the same rows or the same error, with no lock left |
| `ProtocolAlone.TransferAlone` | src/app/module/balanceTransfer/balanceTransfer.service.ts:33-96 | A transfer's likewise |
| `ProtocolSales.SaleIsNeverOverpaid` | src/app/module/hotel/hotel.service.ts:343-420 | One sale is never overpaid, over every interleaving with calls of every kind and price edits whose check is out of date, as long as no edit puts its own charge below what has been paid on it by then |
| `ProtocolSales.EventOverpaysIff` | src/app/module/hotel/hotel.service.ts:241-292 | Whatever a run has come to, the next event leaves the sale overpaid if and only if it is such an edit |
| `ProtocolSales.HajjIsNeverOverpaid` | src/app/module/hajj/hajjBooking.service.ts:351-420 | A Hajj booking is never overpaid in its whole life, with no condition on what else is called: no call changes its package price |
| `ProtocolSales.NextKeepsSale` | src/app/utils/rowLock.ts:57-69 | Each statement and each whole call, edits that do not undercut it included, keeps what that needs: whoever is past the sale's lock owns it alone and has read its charge as it still is |
| `ProtocolWallets.WalletIsNeverOverdrawn` | src/app/module/wallet/wallet.service.ts:72-90 | One customer's wallet is never spent beyond what was paid in, over every interleaving with calls of every kind, as long as none of this customer's receipts is deleted and no ticket with wallet payments on it is moved onto this customer |
| `ProtocolWallets.NextKeepsWallet` | src/app/module/wallet/wallet.service.ts:33-67 | Each statement and each whole call but those two keeps what that needs: one payment at a time is past its owner check on a wallet, and what it has read never flatters the balance |
| `ProtocolSerial.PaymentsAreSerial` | src/app/module/tour/tourBooking.service.ts:353-422 | Any interleaving of payments with quiet calls ends in exactly the rows of the committed calls made whole, one after another, in commit order, each of them accepted |
| `ProtocolSerial.TransfersAreSerial` | src/app/module/balanceTransfer/balanceTransfer.service.ts:33-96 | The same with transfers in it, as long as no quiet call takes money out of an account |
| `ProtocolLocks.WaitChainsEndAfterTwo` | src/app/utils/rowLock.ts:19-28 | A chain of transactions waiting for each other's row locks has at most two links, since a payment asks for its customer first and its sale second |
| `ProtocolLocks.StepsRunOut` | src/app/module/cashAccount/posting.service.ts:194-206 | Every step a transaction takes uses up one of a bounded number and leaves all other transactions where they were |
| `ProtocolLocks.LocksNeverDeadlock` | src/app/utils/rowLock.ts:37-69 | From any books, with calls of any kind in between, in every reachable state the wait-for relation has no cycle and, while anyone is unfinished, someone can step |
| `ProtocolLocks.NextKeepsLocks` | src/app/utils/rowLock.ts:37-69 | Every event keeps the lock table right: a lock is owned exactly by the transaction whose program point says so |
| `TransferSafety.TransfersNeverOverdraw` | src/app/module/balanceTransfer/balanceTransfer.service.ts:33-96 | Over every interleaving of transfers, payments and calls that take nothing out of an account, whatever the rows, an account that starts non-negative never goes negative although only the source is locked |
| `TransferSafety.TransferCommitIsOneCall` | src/app/module/cashAccount/posting.service.ts:194-206 | A transfer that commits while both accounts are still in use is the whole call: the balance it read can only have grown since |
| `CallSafety.CallOverpaysIff` | src/app/module/ticket/ticket.service.ts:247-310 | One whole call of any kind leaves some sale with more taken for it than it costs if and only if it edits a ticket or visa case to charge less than was paid on it |
| `CallSafety.WholeCallsOverpayIff` | src/app/module/visa/visa.service.ts:214-265 | So over any run of whole calls no sale is ever overpaid if and only if no call does that when it is made |
| `CallSafety.UncollectOverdrawsIff` | src/app/module/dueReceived/dueReceived.service.ts:208-218 | Deleting a receipt is unguarded: it overdraws a wallet exactly when the wallet held less than the receipt brought |
| `CallSafety.HandOverOverdrawsIff` | src/app/module/ticket/ticket.service.ts:247-276 | Nor is giving a ticket to another customer guarded: it overdraws that customer's wallet exactly when the wallet held less than was paid for the ticket from wallets |
| `CallSafety.WholeCallsOverdrawIff` | src/app/module/wallet/wallet.service.ts:33-90 | Over any run of whole calls of every kind a wallet is never overdrawn if and only if no call is one of those two at such a moment |
| `Acceptance.AcceptedExactlyWhen` | src/app/module/ticket/ticket.service.ts:389-470 | Every call of every kind is accepted exactly when a condition on the rows and its own fields holds; an account can be used when it is there, not deleted and switched on |
| `Acceptance.RefusalIsTrue` | src/app/module/dueReceived/dueReceived.service.ts:42-67 | A refused payment, receipt or transfer names an error whose reason is the case |
| `Acceptance.PostsOnlyToUsable` | src/app/module/cashAccount/posting.service.ts:43-57 | Whatever any call posts, opening entries aside, goes onto an account that was there and switched on |
| `Effects.CallMovesBalance` | src/app/module/cashAccount/posting.service.ts:59-146 | Every accepted call moves every account by just what its fields, or the rows it deletes, say |
| `Effects.CallMovesWallet` | src/app/module/wallet/wallet.service.ts:33-67 | Every accepted call moves every wallet by just that |
| `Effects.CallMovesDue` | src/app/module/customer/customer.service.ts:113-211 | Every accepted call moves what every customer owes by just that: bills, their edits and cancellations, cash, receipts, discounts, tickets that change hands |
| `Effects.NewCustomerOwes` | src/app/module/customer/customer.service.ts:113-211 | A new customer owes their opening due and nothing else |
| `Effects.CallMovesPaid` | src/app/module/hajj/hajjBooking.service.ts:380-425 | Every accepted call moves what is taken on every sale by just its own payment |
| `Effects.CallRewritesSale` | src/app/module/ticket/ticket.service.ts:247-310 | A sale's row changes only by the call that names it, and only in the price, owner, status or deletion the call gives |
| `Effects.CallAddsSale` | src/app/module/ticket/ticket.service.ts:143-170 | A new sale is stored as it was asked for, and no other call adds or takes one away |
| `Effects.CallWritesItsRow` | src/app/module/dueReceived/dueReceived.service.ts:62-113 | A payment, receipt, transfer or flow is stored with the fields it was asked with, dates included, posted to its own accounts, and nothing else changes |
| `Effects.CallTakesItsRows` | src/app/module/balanceTransfer/balanceTransfer.service.ts:184-195 | A deletion takes each row it names and no other; a receipt's edit changes its discount and date only |
| `Effects.FiguresAreSums` | src/app/module/dashboard/dashboard.service.ts:299-310 | After any run of calls from empty books each balance, wallet and due is the sum of what the accepted calls did to it |
| `Witnesses.DeletedReceiptOverdraws` | src/app/module/dueReceived/dueReceived.service.ts:208-218 | A run from empty books after which a deleted receipt leaves its customer's wallet below zero |
| `Witnesses.HandedTicketOverdraws` | src/app/module/ticket/ticket.service.ts:247-276 | The same run, after which a ticket handed over leaves its new owner's wallet below zero |
| `Witnesses.DeletedPaymentOverdraws` | src/app/module/ticket/ticket.service.ts:474-487 | A run from empty books after which a deleted payment leaves an account below zero |
| `Witnesses.DeletedTransferOverdraws` | src/app/module/balanceTransfer/balanceTransfer.service.ts:184-195 | And one after which a deleted transfer does |
| `Witnesses.CutFareOverpays` | src/app/module/ticket/ticket.service.ts:247-276 | A run from empty books after which a fare cut leaves more taken on a ticket than it costs |
| `Witnesses.RemovedCustomerLosesDue` | src/app/module/customer/customer.service.ts:684-705 | A run from empty books after which deleting a customer who owes 5 takes 5 off total assets |
| `Witnesses.AccountlessAmountIsLost` | src/app/module/dueReceived/dueReceived.service.ts:42-122 | A run from empty books after which a receipt's second amount, with no second account, leaves total assets |
| `Witnesses.OwnerCheckRefuses` | src/app/module/ticket/ticket.service.ts:408-424 | Any ticket that changes hands between a wallet payment's first read and its lock on the old owner: the payment is refused because the owner changed |
| `Witnesses.OvertakenPriceOverpays` | src/app/module/tour/tourBooking.service.ts:255-290 | Any tour or hotel price cut that passes its check and is overtaken by a payment before it is written leaves more taken than the booking costs, if what was paid comes to more than the new price |
| `Ledger.LedgerIsExplained` | src/app/module/cashAccount/posting.service.ts:59-87 | Over any run of calls the postings are one for one with the openings of live accounts and the cash payments, receipt halves, transfer halves and single money flows that still exist; closed accounts leave nothing behind |
| `Ledger.CallKeepsExplained` | src/app/module/cashAccount/posting.service.ts:86-87 | Each call keeps that correspondence, reversal by (source, sourceId) included |
| `Ledger.CallKeepsFreshIds` | src/app/module/hajj/hajjBooking.service.ts:380-420 | No two rows of a table share an id, and an id not yet drawn is unused, after every call: what the posting key (source, sourceId) relies on |
| `Ledger.CloseExplained` | src/app/module/cashAccount/cashAccount.service.ts:120-144 | Deleting an account takes its opening posting with it, and since nothing else had moved on it the ledger stays explained |
| `Ledger.BalanceIsItsCauses` | src/app/module/cashAccount/posting.service.ts:101-146 | An account's balance is the sum over those causes, nothing twice and nothing missing |
| `Undo.DeletePaymentUndoesRecord` | src/app/module/ticket/ticket.service.ts:474-487 | Recording a payment and deleting it leaves payments and postings as they were |
| `Undo.DeleteReceiptUndoesCreate` | src/app/module/dueReceived/dueReceived.service.ts:208-218 | Creating a receipt and deleting it leaves receipts and postings as they were |
| `Undo.DeleteTransferUndoesCreate` | src/app/module/balanceTransfer/balanceTransfer.service.ts:184-195 | Creating a transfer and deleting it leaves transfers and postings as they were |
| `Undo.DeletePaymentTakesBack` | src/app/module/ticket/ticket.service.ts:474-487 | Deleting any payment, however late, takes from each account exactly the cash it had put there; an account ends below zero if and only if it holds less than that by then |
| `Undo.DeleteReceiptTakesBack` | src/app/module/dueReceived/dueReceived.service.ts:208-218 | The same for a receipt and the half of it each account got |
| `Undo.DeleteTransferTakesBack` | src/app/module/balanceTransfer/balanceTransfer.service.ts:184-195 | The same for a transfer: the target gives the amount back and may go below zero, the source regains it |
| `Undo.DeleteFlowTakesBack` | src/app/module/expense/expense.service.ts:239-248 | The same for an expense, an investment, a withdrawal, a supplier payment or a payout: deleting an investment may overdraw, deleting any other never does |
| `Undo.DeleteSaleRestoresBalances` | src/app/module/ticket/ticket.service.ts:493-507 | Deleting a sale takes from each account exactly the cash its payments had put there |
| `Undo.DeleteSaleUndoesItsPayments` | src/app/module/hajj/hajjBooking.service.ts:439-453 | Any number of payments on a sale followed by deleting it restores every account |
| `Undo.TransfersConserve` | src/app/module/balanceTransfer/balanceTransfer.service.ts:33-96 | Creating or deleting a transfer never changes the sum of all account balances |
| `Office.Agency.Post` | src/app/module/cashAccount/posting.service.ts:43-79 | Succeeds exactly for a positive amount onto an account that is there, not deleted and switched on; then it appends one posting, otherwise none |
| `Office.Agency.ReverseKey` | src/app/module/cashAccount/posting.service.ts:86-87 | The postings of other keys stay and those of this key go, and each account moves by exactly what those had moved on it |
| `Office.Agency.GetBalances` | src/app/module/cashAccount/posting.service.ts:101-146 | Exactly one row for each live account, with its opening balance, all that came in and went out, and their difference, which is the ledger's balance |
| `Office.Agency.AssertCovers` | src/app/module/wallet/wallet.service.ts:77-90 | Refuses exactly when the amount exceeds what five sums leave of what was paid in |
| `Office.Agency.RecordPayment` | src/app/module/hajj/hajjBooking.service.ts:327-423 | Accepted exactly when the sale stands, the amount fits its due, and the wallet covers it or the account can be used; then the account, or the wallet, the customer's due and the sale's paid total move by the amount and nothing else does; a refusal names a reason that is the case |
| `Office.Agency.DeletePayment` | src/app/module/hajj/hajjBooking.service.ts:425-437 | The payment and its posting go; on explained books the ledger stays explained and each account loses exactly that payment's cash |
| `Office.Agency.DeleteSale` | src/app/module/hajj/hajjBooking.service.ts:439-453 | The loop reverses each of the sale's payments before they are deleted and the sale is marked deleted |
| `Office.Agency.CreateDueReceived` | src/app/module/dueReceived/dueReceived.service.ts:42-122 | Split tender: the first amount goes into the first account and the second into the second, the wallet rises by both and the due falls by both and the discount; accepted exactly when both accounts can be used, and refused for a reason that is the case |
| `Office.Agency.DeleteDueReceived` | src/app/module/dueReceived/dueReceived.service.ts:208-218 | The receipt and both its postings go; on explained books each account loses exactly the half it got |
| `Office.Agency.AssertSufficientBalance` | src/app/module/cashAccount/posting.service.ts:194-206 | Refuses exactly when the account holds less than the amount |
| `Office.Agency.CreateBalanceTransfer` | src/app/module/balanceTransfer/balanceTransfer.service.ts:33-96 | Accepted exactly when both accounts can be used and the source holds the amount; then that leaves the source, reaches the target, and no other account moves |
| `Office.Agency.DeleteBalanceTransfer` | src/app/module/balanceTransfer/balanceTransfer.service.ts:184-195 | The transfer and its two postings go; on explained books the money is back where it came from and all accounts together hold what they held |
| `Office.Agency.UpdateBooking` | src/app/module/hotel/hotel.service.ts:241-292 | Accepted exactly when the new price covers what was paid; then only the price of that booking changes, and no sale anywhere is overpaid that was not |
| `Office.Agency.UpdateCase` | src/app/module/ticket/ticket.service.ts:247-310 | An edit of a ticket's or a visa case's figures moves the charge by just those figures, and the owner if one is named; it looks at nothing paid, so on books where no sale was overpaid it leaves one overpaid exactly when the case then charges less than was paid on it |
| `Assets.AssetIdentity` | src/app/module/dashboard/dashboard.service.ts:299-310 | Account balances plus customer dues come to the openings, bills of customers still there and investments less what was spent, paid to suppliers, paid out and withdrawn, plus cash from bookings of deleted customers, less write-offs: every other payment, receipt and transfer cancels |
| `Assets.AssetsOfEveryRun` | src/app/module/dashboard/dashboard.service.ts:299-310 | That identity holds after any run of any calls on an agency that starts empty: expenses, payouts, withdrawals, edits of discounts and deletions of customers and accounts included |
| `Assets.AssetsAreConserved` | src/app/module/customer/customer.service.ts:113-166 | Over any run of collecting, undoing, editing discounts and transferring, total assets move only by write-offs and by cash taken on bookings of deleted customers |
| `Assets.NothingStrays` | src/app/module/customer/customer.service.ts:684-705 | While each live booking's customer is there, no cash is of that second kind |
| `Assets.RemovingCustomerConservesExactlyWhen` | src/app/module/customer/customer.service.ts:684-705 | Deleting a customer drops their due from total assets, so it conserves them exactly when nothing was owed; the service looks for tickets, visa cases, Hajj bookings and receipts only |
| `Assets.ClosedIsNamedNowhere` | src/app/module/cashAccount/cashAccount.service.ts:120-144 | An account that can be deleted is named by no payment, receipt, transfer or money flow |
| `Assets.ReceiptConservesExactlyWhen` | src/app/module/dueReceived/dueReceived.service.ts:42-122 | A receipt leaves total assets unchanged exactly when it carries no discount and no second amount without a second account |
| `Assets.ReceiptMovesBothTerms` | src/app/module/dueReceived/dueReceived.service.ts:62-113 | A receipt raises the accounts by what landed in them and lowers the dues by amounts and discount |
| `Assets.WalletPaymentMovesNothing` | src/app/module/ticket/ticket.service.ts:453-468 | A wallet payment changes neither account balances nor customer dues |
| `CustomerLedger.FoldByOwner` | src/app/module/customer/customer.service.ts:194-207 | The folding loop gives each customer the sum of the groups whose sale is theirs, unknown owners skipped |
| `CustomerLedger.Regroup` | src/app/module/customer/customer.service.ts:113-211 | Grouping payments by sale and folding by owner is summing the owner's payments directly |
| `CustomerLedger.AttachLedgerTotals` | src/app/module/customer/customer.service.ts:50-269 | In a batch of any size each customer gets the figures defined for that customer alone |
| `Statement.GetCustomerLedger` | src/app/module/customer/customer.service.ts:410-646 | One line for each standing sale, each payment on one, each receipt and each discount, with that row's own date and money and no other line; oldest first, charges before money, each with the due after it; at any moment the last line up to it shows what the tables say was owed then |
| `Statement.EventsFold` | src/app/module/customer/customer.service.ts:410-611 | Any figure of the listed events is that figure of the tables' own rows |
| `Statement.StatementShowsDueBy` | src/app/module/customer/customer.service.ts:612-634 | For every moment: opening due, plus bills, less cash, receipts and discounts dated up to it |
| `Statement.StatementEndsOnDue` | src/app/module/customer/customer.service.ts:612-645 | Whatever order the events sort into, the running due ends on currentDue, short only of discounts below zero |
| `Statement.StatementIsInOrder` | src/app/module/customer/customer.service.ts:612-614 | The rows are a permutation of the listed events, by date and with charges ahead of money on the same instant |
| `BookingList.FoldProgress` | src/app/module/hajj/hajjBooking.service.ts:76-82 | The progress loop adds each (booking, status) count to its booking, pending papers to the total only |
| `BookingList.DecorateMany` | src/app/module/hajj/hajjBooking.service.ts:55-95 | Each booking of a page gets its own paid total, what that leaves of its price, and how many of its papers there are and how many are in hand |
| `Wallet.UsedUpIsOneSum` | src/app/module/wallet/wallet.service.ts:33-67 | The five per-table sums are one sum over the customer's wallet payments |
| `Wallet.AddSpend` | src/app/module/wallet/wallet.service.ts:132-140 | Each spending loop adds one kind of sale's wallet payments to their owners' entries |
| `Wallet.GetHolders` | src/app/module/wallet/wallet.service.ts:98-165 | Lists exactly the live customers whose wallet holds money, each once with what was received, what was spent and what is left, largest first |
| `Wallet.GetStatement` | src/app/module/wallet/wallet.service.ts:179-298 | One line for each receipt and each wallet payment with its own date and money, oldest first with the balance after each; at any moment the last line shows what the tables say was held then, and the totals agree with balanceOf |
| `History.Take` | src/app/module/import/history.service.ts:298-332 | A payment is taken exactly when the figure is above zero, its account known and something owed, and it is all of the figure or all that is owed, whichever is less |
| `History.RerunAddsNothingIff` | src/app/module/import/history.service.ts:192-230 | A second pass of the sales tab writes no ticket exactly when each importable row's key was in the books or is the stored key of a row the first pass wrote |
| `History.LoneRowRepeatsIff` | src/app/module/ticket/ticket.service.ts:140-157 | A new row is imported a second time exactly when upper-casing changes its normalised PNR |
| `History.SharpSRepeats` | src/app/module/import/history.service.ts:55 | For any text functions that spell a sharp s out as SS and do not normalise it back, every row with that PNR that the books do not have is imported twice |
| `HistorySafety.DateChangeIsAllowed` | src/app/module/ticket/ticket.service.ts:280-304 | The date change of a row just imported is never refused |
| `HistorySafety.PaymentIsAllowed` | src/app/module/ticket/ticket.service.ts:424-437 | A payment bounded by what is owed passes the overpayment guard |
| `HistorySafety.StatusIsAllowed` | src/app/module/ticket/ticket.constant.ts:5-10 | Any state the sheet names can be reached from a ticket just issued |
| `HistorySafety.ImportNeverOverpays` | src/app/module/import/history.service.ts:280-398 | Only a missing customer or an unusable account can stop a sales row; what is taken is at most fare plus change fee; the row ends with the sheet's status |
| `HistoryRerun.MovementsOnce` | src/app/module/import/history.service.ts:403-465 | A money tab imported twice is imported once |
| `HistoryRerun.ExpensesOnce` | src/app/module/import/history.service.ts:532-604 | Expenses imported twice make no second expense and no second category |
| `HistoryRerun.CompletedImport` | src/app/module/import/history.service.ts:749-836 | After a completed import every money row's key is in the books and the ticket keys are what the sales tab left |
| `HistoryRerun.ReimportAddsNothingIff` | src/app/module/import/history.service.ts:749-836 | Running a completed import again leaves the books unchanged if and only if each importable sales row's key is one the first pass left |
| `HistoryRerun.StableReimportAddsNothing` | src/app/module/import/history.service.ts:192-230 | In particular whenever upper-casing leaves each PNR's normal form alone |
| `HistoryImport.Run.ImportMovements` | src/app/module/import/history.service.ts:403-465 | The seen-set loop does what the pass defines, and the rollback list is exactly the rows added |
| `HistoryImport.Run.ImportExpenses` | src/app/module/import/history.service.ts:532-604 | The same with categories made once and found by name from then on |
| `HistoryImport.Run.ImportTicket` | src/app/module/import/history.service.ts:250-398 | Accepted exactly when the customer is known and the accounts its money went into can be used; then the books gain one ticket, its sale, a payment for each part with its own account and date, and their postings, all listed for rollback |
| `HistoryImport.Run.ImportTickets` | src/app/module/import/history.service.ts:192-398 | The sales loop writes the rows whose key is neither in the books nor on an earlier row |
| `HistoryImport.Run.Log` | src/app/module/import/history.service.ts:179-181 | Every row written is counted and put on the rollback list, which stays exactly the rows added, and everything posted stays keyed by a row on it |
| `HistoryImport.Run.ImportHistory` | src/app/module/import/history.service.ts:788-801 | Six tabs in order; stops at the first refusal |
| `HistoryImport.ImportTwice` | src/app/module/import/history.service.ts:749-836 | Two imports run one after the other: the second has nothing to roll back when PNRs are stable |
| `HistoryEffects.TicketRowWritten` | src/app/module/import/history.service.ts:250-398 | The same of the row's state change, every column written out: fare, fee, refund, cost, state, profit and both payments |
| `HistoryEffects.TicketRowMovesMoney` | src/app/module/import/history.service.ts:298-332 | The new sale has been paid the lesser of each figure and what was then owed, and each account named has risen by its own part |
| `HistoryEffects.MoneyRowWritten` | src/app/module/import/history.service.ts:613-663 | A row of a money tab is skipped when it asks for nothing or the books hold it, refused when its account or customer cannot be used, and otherwise stored with its own columns, its account moved by its money: collections and investments in, the rest out |
| `HistoryEffects.ExpenseRowWritten` | src/app/module/import/history.service.ts:532-610 | An expense row ends in a live category of its name, made if there was none, and takes its amount out of its account once |
| `HistoryUndo.RecordedIsListed` | src/app/module/import/importRun.service.ts:198-211 | The rollback list the import kept is what its undoing asks for: exactly the rows it added, each under its kind |
| `HistoryUndo.EntryIsOwned` | src/app/module/import/importRun.service.ts:56-80 | Every ledger entry an import writes carries the id of a row on its list, under a source that the row's kind deletes |
| `HistoryUndo.ImportIsUndone` | src/app/module/import/importRun.service.ts:240-293 | With that list, undoing takes away whatever the import added, with its tickets' history rows and every ledger entry it wrote, and leaves everything else as it was |
| `ImportRun.OrderIsTopological` | src/app/module/import/importRun.service.ts:35-110 | The delete order takes every kind before the kinds it refers to |
| `ImportRun.RevertLeaves` | src/app/module/import/importRun.service.ts:240-293 | The whole of what undoing does: refused exactly when a row or ledger entry that would stay needs a listed row; otherwise the listed rows go with every payment, document and history row of a listed ticket, and optional references to them are emptied |
| `ImportRun.UndoneByKind` | src/app/module/import/importRun.service.ts:38-112 | A row that stays stops the undoing if it needs a listed row, goes with a listed ticket it is part of, and loses its reference to a listed row it can do without, for every pair of kinds |
| `ImportRun.EntriesUndone` | src/app/module/import/importRun.service.ts:240-293 | Exactly the ledger entries of listed rows go, under every source those kinds are posted with |
| `ImportRun.RevertIsExactIff` | src/app/module/import/importRun.service.ts:240-293 | Undoing removes exactly the run's rows, its tickets' documents and history among them, and the entries they own, if and only if nothing outside the run refers to its rows |
| `ImportRun.RevertUndoesImport` | src/app/module/import/importRun.service.ts:240-293 | An import followed by its undoing restores every row and ledger entry; rows no list holds, such as a ticket's history, need only hang on a listed one |
| `ImportRun.RevertUndoesTicket` | src/app/module/ticket/ticket.service.ts:143-170 | In particular for any ticket with the history row written beside it |
| `ImportRun.LaterPaymentsAreLost` | src/app/module/import/importRun.service.ts:256-283 | Any later payment on an imported ticket goes with the ticket when undoing succeeds, and all it had posted stays in the ledger with no row behind it |
| `ImportRun.Imports.RevertRun` | src/app/module/import/importRun.service.ts:240-293 | All or nothing: the whole delete order or no change; a run undone or still running is refused |
| `HajjRooms.RoomsNeverOverfill` | src/app/module/hajj/hajjBooking.service.ts:271-302 | Over any run of calls each room's live pilgrims stay within its capacity and everyone is in the right hotel and batch |
| `HajjRooms.ShownIsTrue` | src/app/module/hajj/hajj.service.ts:289-296 | The count shown, where the second loop overwrites the first, is the true live count |
| `HajjRooms.DropRoomKeepsGood` | src/app/module/hajj/hajj.service.ts:331-342 | A room shown as empty can be deleted without stranding a live pilgrim |
| `HajjRooms.SeatsNeverOversold` | src/app/module/hajj/hajjBooking.service.ts:120-134 | Live bookings stay within a batch's seats over any run that does not edit its capacity |
| `HajjRooms.BatchFullExactlyWhenOversold` | src/app/module/hajj/hajjBooking.service.ts:120-130 | A batch is refused as full exactly when one more live booking would exceed its seats |
| `HajjRooms.RoomFullExactlyWhenOverfilled` | src/app/module/hajj/hajjBooking.service.ts:291-298 | A room is refused as full exactly when moving this pilgrim in would exceed its beds, wherever they sleep now |
| `HajjRooms.CancellingFrees` | src/app/module/hajj/hajj.service.ts:21 | Cancelling gives back exactly one seat and one bed in each room held |
| `HajjRooms.EditOversellsIff` | src/app/module/hajj/hajj.service.ts:230-247 | An edited capacity breaks the bound exactly when it is below what is booked |
| `HajjRooms.AcceptedExactlyWhen` | src/app/module/hajj/hajj.service.ts:136-342 | Every call on batches, rooms and bookings is accepted exactly when a condition on the rows holds |
| `HajjRooms.CallRewrites` | src/app/module/hajj/hajjBooking.service.ts:271-302 | An accepted call writes one row or rewrites the row it names as it says, and touches nothing else |
| `HajjDesk.Desk.AttachOccupancy` | src/app/module/hajj/hajj.service.ts:268-297 | The two map-filling loops give each room its shown occupancy and free places |
| `HajjDesk.Desk.AttachSeatCounts` | src/app/module/hajj/hajj.service.ts:112-134 | Each batch of a page gets its own live bookings and free seats |
| `HajjDesk.Desk.CreateBooking` | src/app/module/hajj/hajjBooking.service.ts:106-167 | Accepted exactly when the batch is the package's and has a seat left; adds one reserved booking without rooms and takes one seat, and nothing else |
| `HajjDesk.Desk.ChangeBookingStatus` | src/app/module/hajj/hajjBooking.service.ts:227-261 | Cancelling gives back exactly the booking's seat and beds, any other allowed change none; rooms and placements stay right |
| `HajjDesk.Desk.AssignRoom` | src/app/module/hajj/hajjBooking.service.ts:271-302 | The pilgrim is in the room asked for, or in none when none is given, and is counted there and no longer where they were; it is within its beds; no seat, no bed of the other city and no other booking changes |
| `HajjDesk.Desk.DeleteBooking` | src/app/module/hajj/hajjBooking.service.ts:439-453 | Gives back the seat and beds of a booking that was live, and none of one that was cancelled |
| `HajjDesk.Desk.DeleteRoom` | src/app/module/hajj/hajj.service.ts:331-342 | Refused while the occupancy shown is above zero, so a room that goes had no live pilgrim in it |
| `TourSeats.SeatsNeverOversold` | src/app/module/tour/tourBooking.service.ts:125-161 | Over any run of create, edit, status, delete and capacity calls, live travellers stay within a tour's limit |
| `TourSeats.FullExactlyWhenOversold` | src/app/module/tour/tourBooking.service.ts:129-143 | A booking is refused as full exactly when taking it would exceed the limit |
| `TourSeats.EditRefusedExactlyWhenOversold` | src/app/module/tour/tourBooking.service.ts:241-259 | Changing a live booking's travellers is refused exactly when the limit would be exceeded |
| `TourSeats.LimitRefusedExactlyWhenOversold` | src/app/module/tour/tour.service.ts:156-180 | On tours within their limits, a lowered or newly set limit is refused exactly when some tour would then be over its limit |
| `TourSeats.AcceptedExactlyWhen` | src/app/module/tour/tour.service.ts:61-226 | Every call on tours and bookings is accepted exactly when a condition on the rows holds; a tour that is not open is not sold |
| `TourSeats.CallRewrites` | src/app/module/tour/tourBooking.service.ts:107-328 | An accepted call writes one row or rewrites the fields it was given of the row it names, and touches nothing else |
| `TourSeats.AttachSeatCounts` | src/app/module/tour/tour.service.ts:31-59 | One grouped query gives each tour its own bookings, seats sold and seats left, never below zero |
| `TourDesk.Desk.CreateBooking` | src/app/module/tour/tourBooking.service.ts:107-174 | A booking that is accepted takes its travellers' seats, one if none are given, within the limit, and no other tour's |
| `TourDesk.Desk.UpdateBooking` | src/app/module/tour/tourBooking.service.ts:241-292 | Seats sold move by the change in travellers of a live booking and stay within the limit |
| `TourDesk.Desk.ChangeBookingStatus` | src/app/module/tour/tourBooking.service.ts:294-328 | Cancelling gives back exactly the booking's seats, any other allowed change none |
| `TourDesk.Desk.DeleteBooking` | src/app/module/tour/tourBooking.service.ts:443-457 | Gives back the seats of a booking that was live, and none of one that was cancelled |
| `TourDesk.Desk.UpdatePackage` | src/app/module/tour/tour.service.ts:156-203 | The status and limit given are written and those left out stay; a limit is accepted exactly when the tour is within it; no other tour changes |
| `Billing.RenewalsAreExact` | src/app/module/billing/manualPayment.service.ts:219-250 | Under any interleaving of notifications, retries, checkouts and reviews, renewals and claims that found no plan together are the overwrites of the order's payment, plus one if it stands paid; reviews claim at most once |
| `Billing.ClaimedAgainIff` | src/app/module/billing/billing.service.ts:296-341 | An order is claimed more than once if and only if a payment of it was overwritten and the order claimed again |
| `Billing.OverwrittenExactlyWhen` | src/app/module/billing/billing.service.ts:228-294 | The one kind of step that overwrites a payment: a FAILED or CANCELLED write that finds the order paid |
| `Billing.ClaimedExactlyWhen` | src/app/module/billing/manualPayment.service.ts:219-235 | The two kinds of step that claim: a confirmed notification that finds the order unpaid, an approval that finds it waiting |
| `Billing.ValidNotificationsRenewOnce` | src/app/module/billing/billing.service.ts:296-341 | However valid notifications and reviews interleave, an order that stands paid has been claimed exactly once and any other not at all, and it is renewed at most once |
| `Billing.WholeCallsKeepSuccess` | src/app/module/billing/billing.service.ts:216-344 | For calls that run alone SUCCESS is absorbing |
| `Billing.IpnAlone` | src/app/module/billing/billing.service.ts:216-341 | The notification's statements run in a row are the whole call |
| `Billing.RetryAlone` | src/app/module/billing/billing.service.ts:142-161 | The retry's read and cancellation in a row are the whole call |
| `Billing.ReviewAlone` | src/app/module/billing/manualPayment.service.ts:202-253 | The review's read and claim in a row are the whole call |
| `Renewal.PaidTimeIsExact` | src/app/module/billing/renewSubscription.ts:22-39 | Paid periods never overlap, so paid time is the sum of what was bought, and early renewals start where the old time ends |
| `Renewal.OverlapsIff` | src/app/module/billing/renewSubscription.ts:24-27 | A period overlaps the time already paid exactly when the clock went back over its end between the two reads |
| `BillingDesk.Desk.RenewSubscription` | src/app/module/billing/renewSubscription.ts:14-44 | Paid time left is kept whole with the new days on top, otherwise they start now; plan and activity are set; no other agency is touched |
| `BillingDesk.Desk.HandleIpn` | src/app/module/billing/billing.service.ts:216-341 | An order not yet paid fails on a bad body, an unreachable validator or a rejection and stands paid on a confirmation, which renews; a paid one stays so |
| `BillingDesk.Desk.Review` | src/app/module/billing/manualPayment.service.ts:202-253 | One decision for each waiting claim: approved it stands paid and renews through the same path, refused it stands failed, which leaves a retry open |
| `BillingDesk.Desk.RetryOrder` | src/app/module/billing/billing.service.ts:142-161 | An attempt neither paid nor cancelled is cancelled, and one fresh order for the same agency and plan is opened, failed at once if the gateway does not answer |
| `BillingDesk.Desk.StartCheckout` | src/app/module/billing/billing.service.ts:65-128 | The order row is written first and marked failed if the gateway does not answer |
| `BillingDesk.Desk.Submit` | src/app/module/billing/manualPayment.service.ts:63-141 | One waiting claim an agency, and a receipt is spent on one order only |
| `Json.DeepMerge` | src/app/utils/QueryBuilder.ts:69-91 | The merge loop is the key-by-key merge of the two conditions |
| `Json.LaterPinsSurvive` | src/app/utils/QueryBuilder.ts:175-180 | Whatever a later condition pins to a value, it has the last word on |
| `Json.SilenceKeeps` | src/app/utils/QueryBuilder.ts:69-91 | Whatever the later condition is silent about stays as it was, unsaid things included |
| `Paging.WindowIsSane` | src/app/utils/QueryBuilder.ts:217-225 | For every limit and page string: limit from 1 to 200, skip at most 2,000,000,000 |
| `Paging.LimitIsAsAsked` | src/app/utils/QueryBuilder.ts:217-225 | The page size asked for is the one used up to the largest allowed; anything else gives the usual one |
| `Paging.ReadsBack` | src/app/utils/QueryBuilder.ts:31-34 | A number written out is read back exactly up to 2^53 - 1, and refused above that |
| `Paging.PagingLosesNothing` | src/app/utils/QueryBuilder.ts:217-249 | For any order without ties, pages 1 to totalPages, each its own query, show each matching row exactly once, in that order |
| `QueryBuilder.OrderEndsOnId` | src/app/utils/QueryBuilder.ts:229-249 | Whatever sort was asked for, the order is by a proper key and ends on the id |
| `QueryBuilder.OneOrder` | src/app/utils/QueryBuilder.ts:229-249 | Whatever a client asks to sort by, two answers in the builder's order hold the rows in the same sequence, when ids differ |
| `QueryBuilder.WhitelistHolds` | src/app/utils/QueryBuilder.ts:154-173 | With a populated whitelist no parameter changes or adds anything at a field it does not name |
| `QueryBuilder.ScalarFilterHolds` | src/app/utils/QueryBuilder.ts:154-173 | An allowed parameter with one value: its field is compared with that value, read as a truth value, a number or the text it is |
| `QueryBuilder.ListFilterHolds` | src/app/utils/QueryBuilder.ts:154-173 | A repeated one: its field is one of its values, each as read |
| `QueryBuilder.RangeFilterHolds` | src/app/utils/QueryBuilder.ts:112-132 | A range: its field is compared by each known operator with the operand as read |
| `QueryBuilder.UnknownIsDropped` | src/app/utils/QueryBuilder.ts:112-132 | An operator that is not known is dropped from a range that has a known one |
| `QueryBuilder.SearchAsks` | src/app/utils/QueryBuilder.ts:135-152 | A search asks that one of the searchable fields contain the term, whatever its letter case |
| `QueryBuilder.SplitRejoins` | src/app/utils/QueryBuilder.ts:154-173 | A dotted name is cut at every dot and nowhere else |
| `QueryBuilder.Builder.MergeWhere` | src/app/utils/QueryBuilder.ts:64-67 | Both conditions are merged alike |
| `QueryBuilder.Builder.Filter` | src/app/utils/QueryBuilder.ts:154-173 | The filter loop merges each allowed parameter's condition, in order |
| `QueryBuilder.Builder.Where` | src/app/utils/QueryBuilder.ts:177-180 | A server condition survives every filter before it |
| `QueryBuilder.Builder.Paginate` | src/app/utils/QueryBuilder.ts:217-225 | Sets the sane page |
| `QueryBuilder.Builder.Sort` | src/app/utils/QueryBuilder.ts:229-249 | The order ends on the id, runs one way, and starts with the requested key when it is a proper one, with createdAt otherwise |
| `QueryBuilder.Builder.Execute` | src/app/utils/QueryBuilder.ts:275-290 | The page is cut from the rows of the condition in the order asked for, and the total counts the rows of that same condition |
| `QueryBuilder.List` | src/app/utils/QueryBuilder.ts:135-290 | The usual chain: tenant condition intact, the page of the whole condition in the sort asked for, sane window, matching total |
| `QueryBuilder.ListingLosesNothing` | src/app/utils/QueryBuilder.ts:135-290 | Calling the list for pages 1 to totalPages, each a query of its own that the table sorts anew by the builder's keys, shows every matching row exactly once and in the order asked for, for any query string, when ids differ |
| `RateLimiter.Limiter.IncrementInMemory` | src/app/middleware/rateLimiter.ts:41-60 | The sweep loop drops exactly expired windows; then a running window counts on to its own end, and an expired or missing one starts again at one for its whole length |
| `RateLimiter.Limiter.Handle` | src/app/middleware/rateLimiter.ts:62-84 | A request is let through exactly when its count is within max |
| `RateLimiter.SweepIsInvisible` | src/app/middleware/rateLimiter.ts:44-50 | With a clock that never goes back, sweeping changes no decision |
| `RateLimiter.WindowAdmitsAtMostMax` | src/app/middleware/rateLimiter.ts:52-60 | Each window lets through at most max requests of a key |
| `RateLimiter.RefusedOnlyWhenFull` | src/app/middleware/rateLimiter.ts:69-81 | A request is refused only once its window has let max through |
| `RateLimiter.SpanAdmitsAtMostTwice` | src/app/middleware/rateLimiter.ts:41-84 | Any span of one window's length, ends included, lets through at most twice max |

## Left out

- ProtocolSafety.PaymentsAreSafe: about runs of quiet calls, because the code does not lock edits of a charge, moves of a ticket, or deletions of receipts, customers and accounts against payments. With all of those let in, one sale at a time is `ProtocolSales.SaleIsNeverOverpaid`, one wallet at a time `ProtocolWallets.WalletIsNeverOverdrawn`, and whole calls are `CallSafety.WholeCallsOverpayIff` and `CallSafety.WholeCallsOverdrawIff`.
- ProtocolSales.SaleIsNeverOverpaid: only tour and hotel price edits are split into their check and their write (`WritePrice`, at any moment, whatever was checked); edits of tickets and visa cases check nothing, so they are whole calls that wait for the row.
- ProtocolLocks.LocksNeverDeadlock: speaks of the explicit row locks only; locks the database takes by itself (foreign keys, UPDATE) are not modelled, except that a call updating a sale, an account or a customer waits for whoever holds its row.
- ProtocolSafety.EveryCommitIsOneCall: covers payments and whole calls; a transfer's commit is covered by `TransferSafety.TransferCommitIsOneCall` under its own assumptions.
- HistoryRerun.ReimportAddsNothingIff: is about imports that complete; one that stops part-way attaches no rows and is not claimed to be repeatable.
- TransferSafety.TransfersNeverOverdraw: runs have no deletion of a payment, a sale, a receipt, a transfer or a money flow, and no expense, withdrawal, supplier payment or payout, none of which asks what the account holds; what a deletion takes out is `Undo.DeletePaymentTakesBack` and its neighbours.
- ImportRun.RevertIsExactIff: a row's references are a set of rows, so which column held one is not kept; documents and history added to an imported ticket later count as the ticket's, and go with it.
- HistoryUndo.ImportIsUndone: what the added rows refer to is given by the stored rows rather than by the import's own tables.
- Calls.AmendSale: which ticket states allow a date change, a refund or another state is not looked at (that lifecycle is `HistoryPasses.ChangeStatus`), so every such edit is let in at any time; costs and stored profit are in `HistoryPasses` only.
- HajjRooms.SeatsNeverOversold: seat and room checks are made by whole calls; two bookings racing for the last seat are not locked against each other in the code.
- TourSeats.SeatsNeverOversold: whole calls for the same reason.
- Renewal.PaidTimeIsExact: renewals one at a time; two renewals of one agency racing each other are not modelled.
- QueryBuilder.ListingLosesNothing: what the database makes of a condition is a function parameter, and each value has a whole number for its place in its column's order.
- Request parsing and schema validation are reduced to the checks the money rules rely on: positive amounts, non-negative discounts, positive travellers and capacities.
- Airlines, routes, suppliers, documents and status history are rows in `ImportRun` only; notes, payment methods, references and descriptions carry no money and are left out.
- Expenses, capital flows, profit withdrawals, supplier payments and payouts are one kind of row each with an account and an amount; whom or what they are for is kept in the history import only.
- The import's progress reports, problem list, skipped counts and money totals; reading the workbook, finding columns, and matching customers by phone, which are fixed look-up functions.
- Closing stale import runs (`markStaleRuns`) and the lists of runs.
- Room numbers, package and batch names, and their duplicate checks; customer checks on bookings; tour dates.
- The gateway session, the amount tolerance and currency of a validation (one answer: confirmed or not), bKash number formats, operators' names and notes, plan history rows.
- `include`, `dynamicInclude`, `fields` and Date values inside conditions.
- Redis counting: only the in-memory limiter is modelled, whose counter is used when Redis cannot count.
- The holders' tie-break by name, and the wallet summary, which is three sums over the holders.
- Editing the date and note of a transfer or a money flow, and names of customers and accounts; staff apart from payouts; the supplier ledger, a smaller copy of the customer one.
- Other dashboard figures, goals, support, announcements, authentication, e-mail, drawing documents, logging and configuration.
- Floating-point rounding, time zones and calendar arithmetic; a day is 86,400,000 milliseconds.
- More than one agency: every query is scoped to one.
