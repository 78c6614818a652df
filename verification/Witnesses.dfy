/**
 * Runs from empty books that reach what nothing guards against: each failure that the
 * other modules give an exact condition for does happen.
 */
module Witnesses {
  import opened Wrappers
  import opened Rows
  import opened Books
  import opened Calls
  import opened Protocol
  import opened ProtocolAlone
  import Assets
  import Ledger
  import Undo

  /** Some run of accepted or refused calls on an agency that starts empty leaves these rows. */
  ghost predicate Reached(db: Db) { exists ops :: Run(EMPTY, ops) == db }

  lemma Then(db: Db, op: Op)
    requires Reached(db) && Apply(db, op).Ok?
    ensures Reached(Apply(db, op).value)
  {
    var ops :| Run(EMPTY, ops) == db;
    assert (ops + [op])[..|ops|] == ops;
    assert Run(EMPTY, ops + [op]) == Apply(db, op).value;
  }

  /** Two customers and two accounts; then a ticket and a tour booking of the first customer's. */
  const PARTIES := Db(
    [Customer(0, false), Customer(0, false)], [Account(0, true, false), Account(0, true, false)], [], [], [], [], [], [], 0)
  const SHOP := PARTIES.(sales := [Sale(0, TicketPrice(5, 0, 0), 0, false), Sale(0, TourPrice(5, Reserved), 0, false)])

  lemma PartiesAreReached()
    ensures Reached(PARTIES)
  {
    var due, till := Customer(0, false), Account(0, true, false);
    var one := EMPTY.(customers := [due]);
    var two := one.(customers := [due] + [due]);
    var three := two.(accounts := [till]);
    assert Run(EMPTY, []) == EMPTY;
    Then(EMPTY, NewCustomer(0));
    Then(one, NewCustomer(0));
    Then(two, NewAccount(0, true));
    Then(three, NewAccount(0, true));
    assert [due] + [due] == PARTIES.customers && [till] + [till] == PARTIES.accounts;
  }

  lemma ShopIsReached()
    ensures Reached(SHOP)
  {
    var one := PARTIES.(sales := [Sale(0, TicketPrice(5, 0, 0), 0, false)]);
    PartiesAreReached();
    Then(PARTIES, NewSale(0, TicketPrice(5, 0, 0), 0));
    Then(one, NewSale(0, TourPrice(5, Reserved), 0));
  }

  lemma ReachedIsSound(db: Db)
    requires Reached(db)
    ensures Ledger.Sound(db) && Assets.Tidy(db)
  {
    var ops :| Run(EMPTY, ops) == db;
    Assets.AssetsOfEveryRun(ops);
  }

  /* ------------------------------- wallets ------------------------------ */

  /** A receipt of 5, all of it spent from the wallet on the ticket. */
  const FUNDED := AddReceipt(SHOP, Receipt(0, 0, 0, 5, None, 0, 0, 0))
  const SPENT := AddPayment(FUNDED, Payment(1, 0, 5, true, None, 0))

  lemma UsedUpOfOne(db: Db, p: Payment, c: nat)
    requires db.payments == [p]
    ensures UsedUp(db, c) == if p.fromWallet && BelongsTo(db.sales, p, c) then p.amount else 0
  {
    SumOne(p, WalletSpend(db.sales, c, Ticket));
    SumOne(p, WalletSpend(db.sales, c, Visa));
    SumOne(p, WalletSpend(db.sales, c, Hajj));
    SumOne(p, WalletSpend(db.sales, c, Tour));
    SumOne(p, WalletSpend(db.sales, c, Hotel));
  }

  lemma FundedIsReached()
    ensures Reached(FUNDED)
  {
    ShopIsReached();
    Then(SHOP, Collect(ReceiptRequest(0, 0, 5, None, None, None, 0)));
  }

  lemma FundedWallet()
    ensures FUNDED.receipts == [Receipt(0, 0, 0, 5, None, 0, 0, 0)] && WalletBalance(FUNDED, 0) == 5
  {
    SumOne(FUNDED.receipts[0], ReceivedFrom(0));
  }

  lemma SpentIsReached()
    ensures Reached(SPENT) && SPENT.payments == [Payment(1, 0, 5, true, None, 0)]
    ensures SPENT.receipts == [Receipt(0, 0, 0, 5, None, 0, 0, 0)]
  {
    FundedIsReached();
    FundedWallet();
    assert Apply(FUNDED, Pay(PayRequest(0, 5, true, None, 0))) == Ok(SPENT);
    Then(FUNDED, Pay(PayRequest(0, 5, true, None, 0)));
  }

  /** Deleting the receipt is accepted, and leaves the wallet 5 short. */
  lemma DeletedReceiptOverdraws()
    ensures Reached(SPENT) && WalletBalance(SPENT, 0) == 0
    ensures Apply(SPENT, Uncollect(0)).Ok? && WalletBalance(Apply(SPENT, Uncollect(0)).value, 0) == -5
  {
    SpentIsReached();
    SumOne(SPENT.receipts[0], ReceivedFrom(0));
    UsedUpOfOne(SPENT, SPENT.payments[0], 0);
    assert SPENT.receipts[0] in SPENT.receipts;
    var after := Apply(SPENT, Uncollect(0)).value;
    WhereNone(SPENT.receipts, OtherReceipts(0));
    UsedUpOfOne(after, SPENT.payments[0], 0);
  }

  /** Handing the ticket to the other customer is accepted, and leaves that customer's wallet 5 short. */
  lemma HandedTicketOverdraws()
    ensures Reached(SPENT) && WalletBalance(SPENT, 1) == 0
    ensures var handed := Apply(SPENT, Amend(0, TicketEdit(Some(1), None)));
            handed.Ok? && WalletBalance(handed.value, 1) == -5
  {
    SpentIsReached();
    SumOne(SPENT.receipts[0], ReceivedFrom(1));
    UsedUpOfOne(SPENT, SPENT.payments[0], 1);
    UsedUpOfOne(Apply(SPENT, Amend(0, TicketEdit(Some(1), None))).value, SPENT.payments[0], 1);
  }

  /* ------------------------------- accounts ----------------------------- */

  /** The ticket paid for in cash, into the first account. */
  lemma CashPayment() returns (db: Db)
    ensures Reached(db) && db.payments == [Payment(0, 0, 5, false, Some(0), 0)] && db.sales == SHOP.sales
    ensures Postable(db, 0) && Postable(db, 1) && db.nextId == 1
    ensures Balance(db.postings, 0) == 5 && Balance(db.postings, 1) == 0
  {
    ShopIsReached();
    Then(SHOP, Pay(PayRequest(0, 5, false, Some(0), 0)));
    db := Apply(SHOP, Pay(PayRequest(0, 5, false, Some(0), 0))).value;
    SumOne(db.postings[0], MovedOn(0));
    SumOne(db.postings[0], MovedOn(1));
  }

  /** A transfer made, and what it does to any account. */
  lemma MoveOn(db: Db, r: TransferRequest) returns (after: Db)
    requires Reached(db) && CreateTransfer(db, r).Ok?
    ensures Reached(after) && after.accounts == db.accounts && after.payments == db.payments && after.nextId == db.nextId + 1
    ensures after.transfers == db.transfers + [Transfer(db.nextId, r.source, r.target, r.amount)]
    ensures forall a :: Balance(after.postings, a)
                     == Balance(db.postings, a) + (if a == r.target then r.amount else 0) - (if a == r.source then r.amount else 0)
  {
    Then(db, Move(r));
    after := CreateTransfer(db, r).value;
    var posted := TransferPostings(Transfer(db.nextId, r.source, r.target, r.amount));
    forall a ensures Balance(after.postings, a)
                  == Balance(db.postings, a) + (if a == r.target then r.amount else 0) - (if a == r.source then r.amount else 0) {
      SumConcat(db.postings, posted, MovedOn(a));
      SumTwo(posted[0], posted[1], MovedOn(a));
    }
  }

  /** With its cash moved on, deleting a payment is accepted, and leaves the account it came into 5 below zero. */
  lemma DeletedPaymentOverdraws() returns (db: Db)
    ensures Reached(db) && Balance(db.postings, 0) == 0
    ensures DeletePayment(db, 0, 0).Ok? && Balance(DeletePayment(db, 0, 0).value.postings, 0) == -5
  {
    var paid := CashPayment();
    db := MoveOn(paid, TransferRequest(0, 1, 5));
    ReachedIsSound(db);
    assert db.payments[0] in db.payments;
    Undo.DeletePaymentTakesBack(db, db.payments[0], 0);
  }

  /** With its money sent back, deleting a transfer is accepted, and leaves the account it went to 5 below zero. */
  lemma DeletedTransferOverdraws() returns (db: Db)
    ensures Reached(db) && Balance(db.postings, 1) == 0
    ensures DeleteTransfer(db, 1).Ok? && Balance(DeleteTransfer(db, 1).value.postings, 1) == -5
  {
    var paid := CashPayment();
    var moved := MoveOn(paid, TransferRequest(0, 1, 5));
    db := MoveOn(moved, TransferRequest(1, 0, 5));
    ReachedIsSound(db);
    var first := Transfer(1, 0, 1, 5);
    assert first in moved.transfers;
    Undo.DeleteTransferTakesBack(db, first, 1);
  }

  /* ----------------------------- paid too much -------------------------- */

  /** Cutting the fare of a ticket paid for is accepted, and leaves more taken on it than it charges. */
  lemma CutFareOverpays() returns (db: Db)
    ensures Reached(db) && Paid(db.payments, 0) == 5
    ensures var cut := AmendSale(db, 0, TicketEdit(None, Some(3)));
            cut.Ok? && Paid(cut.value.payments, 0) == 5 && cut.value.sales[0].price.Charge() == 3
  {
    db := CashPayment();
    SumOne(db.payments[0], AmountOn(0));
  }

  /* ----------------------------- total assets --------------------------- */

  /** The customer who owes 5 is deleted all the same, and total assets lose the 5. */
  lemma RemovedCustomerLosesDue() returns (db: Db)
    ensures Reached(db) && DeleteCustomer(db, 0).Ok?
    ensures Assets.TotalAssets(DeleteCustomer(db, 0).value) == Assets.TotalAssets(db) - 5
  {
    assert Run(EMPTY, []) == EMPTY;
    Then(EMPTY, NewCustomer(5));
    db := AddCustomer(EMPTY, 5).value;
    assert CurrentDue(db, 0) == 5;
    Assets.RemovingCustomerConservesExactlyWhen(db, 0);
  }

  /** A receipt of 5, and of 3 more into no account, is accepted without a discount, and total assets lose the 3. */
  lemma AccountlessAmountIsLost()
    ensures var r := ReceiptRequest(0, 0, 5, None, Some(3), None, 0);
            && Reached(SHOP) && CreateReceipt(SHOP, r).Ok?
            && Assets.TotalAssets(CreateReceipt(SHOP, r).value) == Assets.TotalAssets(SHOP) - 3
  {
    var r := ReceiptRequest(0, 0, 5, None, Some(3), None, 0);
    ShopIsReached();
    ReachedIsSound(SHOP);
    Assets.CollectConserves(SHOP, r, CreateReceipt(SHOP, r).value);
    Assets.ReceiptWriteOff(SHOP, r, CreateReceipt(SHOP, r).value);
  }

  /* ---------------------------- interleavings --------------------------- */

  /**
   * Any ticket that changes hands while a wallet payment on it holds its old owner's row:
   * the payment is then refused by its owner check.
   */
  lemma OwnerCheckRefuses(db: Db, r: PayRequest, handOver: Amendment) returns (events: seq<Event>, end: State)
    requires r.fromWallet && r.amount > 0 && AmendSale(db, r.sale, handOver).Ok?
    requires LiveCustomer(db, db.sales[r.sale].customer)
    requires NewOwner(handOver).Some? && NewOwner(handOver).value != db.sales[r.sale].customer
    ensures Reaches(Start(db), events, end) && end.txns == [Paying(r, Refused(OwnerChanged))]
  {
    var c, sold := db.sales[r.sale].customer, AmendSale(db, r.sale, handOver).value;
    var s0 := Start(db);
    var s1 := s0.(txns := [] + [Paying(r, ReadOwner)]);
    var s2 := s1.(txns := s1.txns[0 := Paying(r, PayStep.LockCustomer(c))]);
    var s3 := s2.(db := sold);
    var s4 := State(sold, s3.txns[0 := Paying(r, PayStep.LockSale(Some(c)))], s3.locks[CustomerLock(c) := 0]);
    var s5 := State(sold, s4.txns[0 := Paying(r, ReRead(Some(c)))], s4.locks[Lock.SaleLock(r.sale) := 0]);
    end := AdvanceTo(s5, 0);
    Onward(s5, Advance(0), end, [], end);
    Onward(s4, Advance(0), s5, [Advance(0)], end);
    events := [Advance(0)] + [Advance(0)];
    Onward(s3, Advance(0), s4, events, end);
    events := [Advance(0)] + events;
    Onward(s2, Outside(Amend(r.sale, handOver)), s3, events, end);
    events := [Outside(Amend(r.sale, handOver))] + events;
    Onward(s1, Advance(0), s2, events, end);
    events := [Advance(0)] + events;
    Onward(s0, BeginPayment(r), s1, events, end);
    events := [BeginPayment(r)] + events;
  }

  /**
   * Any price cut that its check accepts and that a payment overtakes: written after the
   * payment's commit, it leaves more taken than the booking costs.
   */
  lemma OvertakenPriceOverpays(db: Db, r: PayRequest, sell: int) returns (events: seq<Event>, end: State)
    requires RecordPayment(db, r).Ok?
    requires Reprice(db, r.sale, sell).Ok? && sell < Paid(db.payments, r.sale) + r.amount
    ensures Reaches(Start(db), events, end)
    ensures r.sale < |end.db.sales| && end.db.sales[r.sale].price.Charge() == sell < Paid(end.db.payments, r.sale)
  {
    events := PaymentAlone(db, r);
    end := Next(Ends(db, r), WritePrice(r.sale, sell)).value;
    ReachesThen(Start(db), events, Ends(db, r), WritePrice(r.sale, sell));
    events := events + [WritePrice(r.sale, sell)];
    SumAppend(db.payments, NewPayment(db, r), AmountOn(r.sale));
  }
}
