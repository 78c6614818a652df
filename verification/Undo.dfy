/** Deleting a cause puts every account back exactly where it was. */
module Undo {
  import opened Wrappers
  import opened Rows
  import opened Books
  import opened Calls
  import opened Ledger

  lemma NewPaymentUndone(db: Db, p: Payment)
    requires FreshIds(db) && p.id == db.nextId
    ensures Reverse(db.postings + PaymentPostings(p), SalesPayment, p.id) == db.postings
    ensures Where(db.payments + [p], OtherPayments(p.id)) == db.payments
  {
    WhereDropsNew(db.postings, PaymentPostings(p), NotFrom(SalesPayment, p.id));
    WhereDropsNew(db.payments, [p], OtherPayments(p.id));
  }

  lemma NewReceiptUndone(db: Db, r: Receipt)
    requires FreshIds(db) && r.id == db.nextId
    ensures Reverse(db.postings + ReceiptPostings(r), DueReceived, r.id) == db.postings
    ensures Where(db.receipts + [r], OtherReceipts(r.id)) == db.receipts
  {
    assert forall u :: u in ReceiptPostings(r) ==> !NotFrom(DueReceived, r.id)(u);
    WhereDropsNew(db.postings, ReceiptPostings(r), NotFrom(DueReceived, r.id));
    WhereDropsNew(db.receipts, [r], OtherReceipts(r.id));
  }

  lemma NewTransferUndone(db: Db, t: Transfer)
    requires FreshIds(db) && t.id == db.nextId
    ensures Reverse(Reverse(db.postings + TransferPostings(t), TransferOut, t.id), TransferIn, t.id) == db.postings
    ensures Where(db.transfers + [t], OtherTransfers(t.id)) == db.transfers
  {
    WhereTwice(db.postings + TransferPostings(t), NotFrom(TransferOut, t.id), NotFrom(TransferIn, t.id), NotEitherHalf(t.id));
    forall u | u in TransferPostings(t) ensures !NotEitherHalf(t.id)(u) {
      assert u == TransferPostings(t)[0] || u == TransferPostings(t)[1];
    }
    WhereDropsNew(db.postings, TransferPostings(t), NotEitherHalf(t.id));
    WhereDropsNew(db.transfers, [t], OtherTransfers(t.id));
  }

  lemma AddedPaymentUndone(db: Db, p: Payment)
    requires FreshIds(db) && p.id == db.nextId
    ensures DeletePayment(AddPayment(db, p), p.sale, p.id) == Ok(db.(nextId := db.nextId + 1))
  {
    NewPaymentUndone(db, p);
    assert p == (db.payments + [p])[|db.payments|];
  }

  lemma DeletePaymentUndoesRecord(db: Db, r: PayRequest)
    requires FreshIds(db) && RecordPayment(db, r).Ok?
    ensures DeletePayment(RecordPayment(db, r).value, r.sale, db.nextId) == Ok(db.(nextId := db.nextId + 1))
  {
    var p := NewPayment(db, r);
    assert RecordPayment(db, r) == Ok(AddPayment(db, p));
    AddedPaymentUndone(db, p);
  }

  lemma AddedReceiptUndone(db: Db, x: Receipt)
    requires FreshIds(db) && x.id == db.nextId
    ensures DeleteReceipt(AddReceipt(db, x), x.id) == Ok(db.(nextId := db.nextId + 1))
  {
    NewReceiptUndone(db, x);
    assert x == (db.receipts + [x])[|db.receipts|];
  }

  lemma DeleteReceiptUndoesCreate(db: Db, r: ReceiptRequest)
    requires FreshIds(db) && CreateReceipt(db, r).Ok?
    ensures DeleteReceipt(CreateReceipt(db, r).value, db.nextId) == Ok(db.(nextId := db.nextId + 1))
  {
    var x := NewReceipt(db, r);
    assert CreateReceipt(db, r) == Ok(AddReceipt(db, x));
    AddedReceiptUndone(db, x);
  }

  lemma AddedTransferUndone(db: Db, t: Transfer)
    requires FreshIds(db) && t.id == db.nextId
    ensures DeleteTransfer(AddTransfer(db, t), t.id) == Ok(db.(nextId := db.nextId + 1))
  {
    NewTransferUndone(db, t);
    assert t == (db.transfers + [t])[|db.transfers|];
  }

  lemma DeleteTransferUndoesCreate(db: Db, r: TransferRequest)
    requires FreshIds(db) && CreateTransfer(db, r).Ok?
    ensures DeleteTransfer(CreateTransfer(db, r).value, db.nextId) == Ok(db.(nextId := db.nextId + 1))
  {
    var t := Transfer(db.nextId, r.source, r.target, r.amount);
    assert CreateTransfer(db, r) == Ok(AddTransfer(db, t));
    AddedTransferUndone(db, t);
  }

  /* ------------------ what a deletion takes out of an account ----------- */

  function CashOf(id: nat, a: nat): Payment -> int { (p: Payment) => if p.id == id then CashInto(a)(p) else 0 }
  function HalvesOf(id: nat, a: nat): Receipt -> int { (r: Receipt) => if r.id == id then HalvesInto(a)(r) else 0 }

  function NetOf(id: nat, a: nat): Transfer -> int { (t: Transfer) => if t.id == id then NetInto(a)(t) else 0 }

  lemma PaymentsLose(payments: seq<Payment>, p: Payment, a: nat)
    requires Unique(payments, PaymentId()) && p in payments
    ensures Sum(Where(payments, OtherPayments(p.id)), CashInto(a)) == Sum(payments, CashInto(a)) - CashInto(a)(p)
  {
    var rest: Payment -> int := (q: Payment) => if q.id == p.id then 0 else CashInto(a)(q);
    SumWhere(payments, OtherPayments(p.id), CashInto(a), rest);
    SumAdd(payments, rest, CashOf(p.id, a), CashInto(a));
    SumOfUnique(payments, PaymentId(), p, CashOf(p.id, a));
  }

  lemma ReceiptsLose(receipts: seq<Receipt>, r: Receipt, a: nat)
    requires Unique(receipts, ReceiptId()) && r in receipts
    ensures Sum(Where(receipts, OtherReceipts(r.id)), HalvesInto(a)) == Sum(receipts, HalvesInto(a)) - HalvesInto(a)(r)
  {
    var rest: Receipt -> int := (q: Receipt) => if q.id == r.id then 0 else HalvesInto(a)(q);
    SumWhere(receipts, OtherReceipts(r.id), HalvesInto(a), rest);
    SumAdd(receipts, rest, HalvesOf(r.id, a), HalvesInto(a));
    SumOfUnique(receipts, ReceiptId(), r, HalvesOf(r.id, a));
  }

  lemma TransfersLose(transfers: seq<Transfer>, t: Transfer, a: nat)
    requires Unique(transfers, TransferId()) && t in transfers
    ensures Sum(Where(transfers, OtherTransfers(t.id)), NetInto(a)) == Sum(transfers, NetInto(a)) - NetInto(a)(t)
  {
    var rest: Transfer -> int := (q: Transfer) => if q.id == t.id then 0 else NetInto(a)(q);
    SumWhere(transfers, OtherTransfers(t.id), NetInto(a), rest);
    SumAdd(transfers, rest, NetOf(t.id, a), NetInto(a));
    SumOfUnique(transfers, TransferId(), t, NetOf(t.id, a));
  }

  /**
   * Deleting a payment takes out of each account exactly the cash that payment put there,
   * so an account ends below zero if and only if it holds less than that by now.
   */
  lemma DeletePaymentTakesBack(db: Db, p: Payment, a: nat)
    requires Sound(db) && p in db.payments
    ensures DeletePayment(db, p.sale, p.id).Ok?
    ensures var after := Balance(DeletePayment(db, p.sale, p.id).value.postings, a);
            && after == Balance(db.postings, a) - CashInto(a)(p)
            && (after < 0 <==> Balance(db.postings, a) < CashInto(a)(p))
  {
    UnpayExplained(db, p.sale, p.id);
    FewerPaymentsBalance(db, DeletePayment(db, p.sale, p.id).value, p, a);
  }

  lemma FewerPaymentsBalance(db: Db, db': Db, p: Payment, a: nat)
    requires Explained(db) && UniqueIds(db) && p in db.payments
    requires Explained(db') && db'.payments == Where(db.payments, OtherPayments(p.id))
    requires db'.accounts == db.accounts && db'.receipts == db.receipts
    requires db'.transfers == db.transfers && db'.flows == db.flows
    ensures Balance(db'.postings, a) == Balance(db.postings, a) - CashInto(a)(p)
  {
    BalanceIsItsCauses(db, a);
    BalanceIsItsCauses(db', a);
    PaymentsLose(db.payments, p, a);
  }

  /** The same for a receipt, whichever of its two halves landed in the account. */
  lemma DeleteReceiptTakesBack(db: Db, r: Receipt, a: nat)
    requires Sound(db) && r in db.receipts
    ensures DeleteReceipt(db, r.id).Ok?
    ensures var after := Balance(DeleteReceipt(db, r.id).value.postings, a);
            && after == Balance(db.postings, a) - HalvesInto(a)(r)
            && (after < 0 <==> Balance(db.postings, a) < HalvesInto(a)(r))
  {
    UncollectExplained(db, r.id);
    FewerReceiptsBalance(db, DeleteReceipt(db, r.id).value, r, a);
  }

  lemma FewerReceiptsBalance(db: Db, db': Db, r: Receipt, a: nat)
    requires Explained(db) && UniqueIds(db) && r in db.receipts
    requires Explained(db') && db'.receipts == Where(db.receipts, OtherReceipts(r.id))
    requires db'.accounts == db.accounts && db'.payments == db.payments
    requires db'.transfers == db.transfers && db'.flows == db.flows
    ensures Balance(db'.postings, a) == Balance(db.postings, a) - HalvesInto(a)(r)
  {
    BalanceIsItsCauses(db, a);
    BalanceIsItsCauses(db', a);
    ReceiptsLose(db.receipts, r, a);
  }

  /** And for a transfer: its target can go below zero, its source only gains. */
  lemma DeleteTransferTakesBack(db: Db, t: Transfer, a: nat)
    requires Sound(db) && t in db.transfers
    ensures DeleteTransfer(db, t.id).Ok?
    ensures var after := Balance(DeleteTransfer(db, t.id).value.postings, a);
            && after == Balance(db.postings, a) - NetInto(a)(t)
            && (after < 0 <==> Balance(db.postings, a) < NetInto(a)(t))
  {
    UnmoveExplained(db, t.id);
    FewerTransfersBalance(db, DeleteTransfer(db, t.id).value, t, a);
  }

  lemma FewerTransfersBalance(db: Db, db': Db, t: Transfer, a: nat)
    requires Explained(db) && UniqueIds(db) && t in db.transfers
    requires Explained(db') && db'.transfers == Where(db.transfers, OtherTransfers(t.id))
    requires db'.accounts == db.accounts && db'.payments == db.payments
    requires db'.receipts == db.receipts && db'.flows == db.flows
    ensures Balance(db'.postings, a) == Balance(db.postings, a) - NetInto(a)(t)
  {
    BalanceIsItsCauses(db, a);
    BalanceIsItsCauses(db', a);
    TransfersLose(db.transfers, t, a);
  }

  lemma FlowsLose(flows: seq<Flow>, f: Flow, a: nat)
    requires Unique(flows, FlowId()) && f in flows
    ensures Sum(Where(flows, OtherFlows(f.kind, f.id)), FlowInto(a)) == Sum(flows, FlowInto(a)) - FlowInto(a)(f)
  {
    var rest: Flow -> int := (g: Flow) => if OtherFlows(f.kind, f.id)(g) then FlowInto(a)(g) else 0;
    var gone: Flow -> int := (g: Flow) => if OtherFlows(f.kind, f.id)(g) then 0 else FlowInto(a)(g);
    SumWhere(flows, OtherFlows(f.kind, f.id), FlowInto(a), rest);
    SumAdd(flows, rest, gone, FlowInto(a));
    SumOfUnique(flows, FlowId(), f, gone);
  }

  /** And for money entered or taken by itself: deleting an investment can overdraw, deleting an outgoing never does. */
  lemma DeleteFlowTakesBack(db: Db, f: Flow, a: nat)
    requires Sound(db) && f in db.flows
    ensures DeleteFlow(db, f.kind, f.id).Ok?
    ensures var after := Balance(DeleteFlow(db, f.kind, f.id).value.postings, a);
            && after == Balance(db.postings, a) - FlowInto(a)(f)
            && (after < 0 <==> Balance(db.postings, a) < FlowInto(a)(f))
  {
    UnenterExplained(db, f.kind, f.id);
    FewerFlowsBalance(db, DeleteFlow(db, f.kind, f.id).value, f, a);
  }

  lemma FewerFlowsBalance(db: Db, db': Db, f: Flow, a: nat)
    requires Explained(db) && UniqueIds(db) && f in db.flows
    requires Explained(db') && db'.flows == Where(db.flows, OtherFlows(f.kind, f.id))
    requires db'.accounts == db.accounts && db'.payments == db.payments
    requires db'.receipts == db.receipts && db'.transfers == db.transfers
    ensures Balance(db'.postings, a) == Balance(db.postings, a) - FlowInto(a)(f)
  {
    BalanceIsItsCauses(db, a);
    BalanceIsItsCauses(db', a);
    FlowsLose(db.flows, f, a);
  }

  /** Cash taken on one sale into one account. */
  function CashOn(sale: nat, a: nat): Payment -> int {
    (p: Payment) => if p.sale == sale then CashInto(a)(p) else 0
  }

  /** Deleting a sale takes out of every account exactly the cash its payments had put there. */
  lemma DeleteSaleRestoresBalances(db: Db, sale: nat, a: nat)
    requires Sound(db) && DeleteSale(db, sale).Ok?
    ensures Balance(DeleteSale(db, sale).value.postings, a) == Balance(db.postings, a) - Sum(db.payments, CashOn(sale, a))
  {
    RemoveSaleExplained(db, sale);
    FewerOnSaleBalance(db, DeleteSale(db, sale).value, sale, a);
  }

  lemma FewerOnSaleBalance(db: Db, db': Db, sale: nat, a: nat)
    requires Explained(db) && Explained(db') && db'.payments == Where(db.payments, OnOtherSales(sale))
    requires db'.accounts == db.accounts && db'.receipts == db.receipts
    requires db'.transfers == db.transfers && db'.flows == db.flows
    ensures Balance(db'.postings, a) == Balance(db.postings, a) - Sum(db.payments, CashOn(sale, a))
  {
    BalanceIsItsCauses(db, a);
    BalanceIsItsCauses(db', a);
    var rest: Payment -> int := (p: Payment) => if p.sale == sale then 0 else CashInto(a)(p);
    SumWhere(db.payments, OnOtherSales(sale), CashInto(a), rest);
    SumAdd(db.payments, rest, CashOn(sale, a), CashInto(a));
  }

  /** What deleting the sale would leave. */
  function LeftBehind(db: Db, sale: nat): (seq<Payment>, seq<Posting>) {
    (Where(db.payments, OnOtherSales(sale)), Where(db.postings, NotPaidFor(db.payments, sale)))
  }

  lemma {:induction false} PaymentsLeaveTheRest(db: Db, sale: nat, ops: seq<Op>)
    requires FreshIds(db) && LiveSale(db, sale)
    requires forall op :: op in ops ==> op.Pay? && op.pay.sale == sale
    ensures FreshIds(Run(db, ops)) && LiveSale(Run(db, ops), sale) && LeftBehind(Run(db, ops), sale) == LeftBehind(db, sale)
  {
    if ops != [] {
      var init, last := ops[..|ops| - 1], ops[|ops| - 1];
      PaymentsLeaveTheRest(db, sale, init);
      if Apply(Run(db, init), last).Ok? {
        CallKeepsFreshIds(Run(db, init), last);
        PaymentThenDeleteSale(Run(db, init), NewPayment(Run(db, init), last.pay));
      }
    }
  }

  /**
   * Any number of payments on a sale that had none, then deleting the sale: the
   * payments, the ledger and so every balance are what they were before.
   */
  lemma DeleteSaleUndoesItsPayments(db: Db, sale: nat, ops: seq<Op>)
    requires FreshIds(db) && LiveSale(db, sale)
    requires forall p :: p in db.payments ==> p.sale != sale
    requires forall op :: op in ops ==> op.Pay? && op.pay.sale == sale
    ensures DeleteSale(Run(db, ops), sale).Ok?
    ensures var db' := DeleteSale(Run(db, ops), sale).value; db'.payments == db.payments && db'.postings == db.postings
  {
    PaymentsLeaveTheRest(db, sale, ops);
    WhereAll(db.payments, OnOtherSales(sale));
    WhereAll(db.postings, NotPaidFor(db.payments, sale));
  }

  /** One more payment on the sale does not change what deleting the sale leaves. */
  lemma PaymentThenDeleteSale(db: Db, p: Payment)
    requires FreshIds(db) && p.id == db.nextId
    ensures LeftBehind(AddPayment(db, p), p.sale) == LeftBehind(db, p.sale)
  {
    var before, after := NotPaidFor(db.payments, p.sale), NotPaidFor(db.payments + [p], p.sale);
    WhereConcat(db.payments, [p], OnOtherSales(p.sale));
    WhereNone([p], OnOtherSales(p.sale));
    assert Where(db.payments + [p], OnOtherSales(p.sale)) == Where(db.payments, OnOtherSales(p.sale));
    WhereConcat(db.postings, PaymentPostings(p), after);
    forall u | u in db.postings ensures before(u) == after(u) {
    }
    WhereSame(db.postings, before, after);
    assert Where(db.postings + PaymentPostings(p), after) == Where(db.postings, before);
  }

  /* ------------------------ transfers move, not make ------------------- */

  function AllMoved(): Posting -> int { (p: Posting) => Signed(p) }

  /** What all accounts hold together. */
  function TotalBalance(db: Db): int { Sum(db.postings, AllMoved()) }

  /** Making a transfer, or undoing one, never changes what all accounts hold together. */
  lemma TransfersConserve(db: Db, op: Op)
    requires Sound(db) && (op.Move? || op.Unmove?) && Apply(db, op).Ok?
    ensures TotalBalance(Apply(db, op).value) == TotalBalance(db)
  {
    var db' := Apply(db, op).value;
    CallKeepsExplained(db, op);
    assert db'.accounts == db.accounts && db'.payments == db.payments;
    assert db'.receipts == db.receipts && db'.flows == db.flows;
    SameCausesSameTotal(db, db');
  }

  lemma SameCausesSameTotal(db: Db, db': Db)
    requires Explained(db) && Explained(db')
    requires db'.accounts == db.accounts && db'.payments == db.payments
    requires db'.receipts == db.receipts && db'.flows == db.flows
    ensures TotalBalance(db') == TotalBalance(db)
  {
    TotalFromCauses(db);
    TotalFromCauses(db');
  }

  /** Transfers drop out of the total altogether. */
  lemma TotalFromCauses(db: Db)
    requires Explained(db)
    ensures TotalBalance(db)
         == Sum(Openings(db.accounts), AllMoved()) + Sum(FlatMap(db.payments, PaymentPostings), AllMoved())
            + Sum(FlatMap(db.receipts, ReceiptPostings), AllMoved()) + Sum(FlatMap(db.flows, FlowPostings), AllMoved())
  {
    SumSameCounts(db.postings, Expected(db), AllMoved());
    SumExpected(db, AllMoved());
    TransfersNetToZero(db.transfers);
  }

  lemma TransfersNetToZero(transfers: seq<Transfer>)
    ensures Sum(FlatMap(transfers, TransferPostings), AllMoved()) == 0
  {
    var zero: Transfer -> int := (t: Transfer) => 0;
    forall t | t in transfers ensures zero(t) == Sum(TransferPostings(t), AllMoved()) {
      SumTwo(TransferPostings(t)[0], TransferPostings(t)[1], AllMoved());
    }
    SumFlatMap(transfers, TransferPostings, AllMoved(), zero);
    SumZero(transfers, zero);
  }
}
