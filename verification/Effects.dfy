/**
 * What each accepted call does to every figure, said in the fields it was asked with
 * and the rows it found; and every figure as the sum of what the calls so far did.
 */
module Effects {
  import opened Wrappers
  import opened Rows
  import opened Books
  import opened Calls
  import opened Acceptance
  import opened Ledger
  import Undo
  import Assets

  /* ------------------------------- balances ----------------------------- */

  /** Cash of this payment that went into the account. */
  function CashIn(p: Payment, a: nat): int { if !p.fromWallet && p.account == Some(a) then p.amount else 0 }

  function HalvesIn(r: Receipt, a: nat): int {
    (if r.account1 == a then r.amount1 else 0) + (if r.account2 == Some(a) then r.amount2 else 0)
  }

  function PaymentCash(id: nat, a: nat): Payment -> int { (p: Payment) => if p.id == id then CashIn(p, a) else 0 }
  function SaleCash(s: nat, a: nat): Payment -> int { (p: Payment) => if p.sale == s then CashIn(p, a) else 0 }
  function ReceiptCash(id: nat, a: nat): Receipt -> int { (r: Receipt) => if r.id == id then HalvesIn(r, a) else 0 }

  function TransferCash(id: nat, a: nat): Transfer -> int {
    (t: Transfer) => if t.id != id then 0 else (if t.target == a then t.amount else 0) - (if t.source == a then t.amount else 0)
  }

  function FlowCash(kind: FlowKind, id: nat, a: nat): Flow -> int {
    (f: Flow) => if !SameTable(f.kind, kind) || f.id != id || f.account != a then 0 else if f.kind == Invested then f.amount else -f.amount
  }

  /** What an accepted call adds to the balance of an account. */
  function BalanceMove(db: Db, op: Op, a: nat): int {
    match op
    case Pay(r) => if !r.fromWallet && r.account == Some(a) then r.amount else 0
    case Unpay(_, id) => -Sum(db.payments, PaymentCash(id, a))
    case RemoveSale(s) => -Sum(db.payments, SaleCash(s, a))
    case Collect(r) => (if r.account1 == a then r.amount1 else 0) + (if r.account2 == Some(a) then r.amount2.GetOr(0) else 0)
    case Uncollect(id) => -Sum(db.receipts, ReceiptCash(id, a))
    case Move(r) => (if r.target == a then r.amount else 0) - (if r.source == a then r.amount else 0)
    case Unmove(id) => -Sum(db.transfers, TransferCash(id, a))
    case Enter(b, kind, amount) => if a != b then 0 else if kind == Invested then amount else -amount
    case Unenter(kind, id) => -Sum(db.flows, FlowCash(kind, id, a))
    case NewAccount(opening, _) => if a == |db.accounts| then opening else 0
    case CloseAccount(b) => if a == b then -Balance(db.postings, b) else 0
    case _ => 0
  }

  lemma PostedMoves(before: seq<Posting>, posted: seq<Posting>, a: nat)
    requires |posted| <= 2
    ensures Balance(before + posted, a)
         == Balance(before, a) + (if |posted| > 0 then MovedOn(a)(posted[0]) else 0) + (if |posted| > 1 then MovedOn(a)(posted[1]) else 0)
  {
    SumConcat(before, posted, MovedOn(a));
    if |posted| == 2 {
      SumTwo(posted[0], posted[1], MovedOn(a));
    } else if |posted| == 1 {
      SumOne(posted[0], MovedOn(a));
    }
  }

  lemma PayMovesBalance(db: Db, r: PayRequest, a: nat)
    requires RecordPayment(db, r).Ok?
    ensures Balance(RecordPayment(db, r).value.postings, a) == Balance(db.postings, a) + BalanceMove(db, Pay(r), a)
  {
    PostedMoves(db.postings, PaymentPostings(NewPayment(db, r)), a);
  }

  lemma CollectMovesBalance(db: Db, r: ReceiptRequest, a: nat)
    requires CreateReceipt(db, r).Ok?
    ensures Balance(CreateReceipt(db, r).value.postings, a) == Balance(db.postings, a) + BalanceMove(db, Collect(r), a)
  {
    PostedMoves(db.postings, ReceiptPostings(NewReceipt(db, r)), a);
  }

  lemma TransferMovesBalance(db: Db, r: TransferRequest, a: nat)
    requires CreateTransfer(db, r).Ok?
    ensures Balance(CreateTransfer(db, r).value.postings, a) == Balance(db.postings, a) + BalanceMove(db, Move(r), a)
  {
    PostedMoves(db.postings, TransferPostings(Transfer(db.nextId, r.source, r.target, r.amount)), a);
  }

  lemma EnterMovesBalance(db: Db, b: nat, kind: FlowKind, amount: int, a: nat)
    requires EnterFlow(db, b, kind, amount).Ok?
    ensures Balance(EnterFlow(db, b, kind, amount).value.postings, a) == Balance(db.postings, a) + BalanceMove(db, Enter(b, kind, amount), a)
  {
    PostedMoves(db.postings, FlowPostings(Flow(db.nextId, b, kind, amount)), a);
  }

  lemma PaymentGoesBack(db: Db, sale: nat, id: nat, a: nat)
    requires Sound(db) && DeletePayment(db, sale, id).Ok?
    ensures Balance(DeletePayment(db, sale, id).value.postings, a) == Balance(db.postings, a) - Sum(db.payments, PaymentCash(id, a))
  {
    var p :| p in db.payments && p.id == id && p.sale == sale;
    Undo.DeletePaymentTakesBack(db, p, a);
    SumOfUnique(db.payments, PaymentId(), p, PaymentCash(id, a));
  }

  lemma SaleGoesBack(db: Db, s: nat, a: nat)
    requires Sound(db) && DeleteSale(db, s).Ok?
    ensures Balance(DeleteSale(db, s).value.postings, a) == Balance(db.postings, a) - Sum(db.payments, SaleCash(s, a))
  {
    Undo.DeleteSaleRestoresBalances(db, s, a);
    forall p | p in db.payments ensures SaleCash(s, a)(p) == Undo.CashOn(s, a)(p) {
      assert CashIn(p, a) == CashInto(a)(p);
    }
    SumEq(db.payments, SaleCash(s, a), Undo.CashOn(s, a));
  }

  lemma ReceiptGoesBack(db: Db, id: nat, a: nat)
    requires Sound(db) && Assets.Tidy(db) && DeleteReceipt(db, id).Ok?
    ensures Balance(DeleteReceipt(db, id).value.postings, a) == Balance(db.postings, a) - Sum(db.receipts, ReceiptCash(id, a))
  {
    var r :| r in db.receipts && r.id == id;
    Undo.DeleteReceiptTakesBack(db, r, a);
    assert Assets.TidyReceipt(db, r);
    SumOfUnique(db.receipts, ReceiptId(), r, ReceiptCash(id, a));
  }

  lemma TransferGoesBack(db: Db, id: nat, a: nat)
    requires Sound(db) && DeleteTransfer(db, id).Ok?
    ensures Balance(DeleteTransfer(db, id).value.postings, a) == Balance(db.postings, a) - Sum(db.transfers, TransferCash(id, a))
  {
    var t :| t in db.transfers && t.id == id;
    Undo.DeleteTransferTakesBack(db, t, a);
    SumOfUnique(db.transfers, TransferId(), t, TransferCash(id, a));
  }

  lemma FlowGoesBack(db: Db, kind: FlowKind, id: nat, a: nat)
    requires Sound(db) && DeleteFlow(db, kind, id).Ok?
    ensures Balance(DeleteFlow(db, kind, id).value.postings, a) == Balance(db.postings, a) - Sum(db.flows, FlowCash(kind, id, a))
  {
    var f :| f in db.flows && SameTable(f.kind, kind) && f.id == id;
    Undo.DeleteFlowTakesBack(db, f, a);
    WhereSame(db.postings, NotFromFlow(kind, id), NotFromFlow(f.kind, id));
    SumOfUnique(db.flows, FlowId(), f, FlowCash(kind, id, a));
  }

  lemma CloseMovesBalance(db: Db, b: nat, a: nat)
    requires DeleteAccount(db, b).Ok?
    ensures Balance(DeleteAccount(db, b).value.postings, a) == if a == b then 0 else Balance(db.postings, a)
  {
    var kept := (p: Posting) => if OffAccount(b)(p) then MovedOn(a)(p) else 0;
    SumWhere(db.postings, OffAccount(b), MovedOn(a), kept);
    if a == b {
      SumZero(db.postings, kept);
    } else {
      SumEq(db.postings, kept, MovedOn(a));
    }
  }

  lemma OpenMovesBalance(db: Db, opening: int, active: bool, a: nat)
    ensures Balance(OpenAccount(db, opening, active).value.postings, a)
         == Balance(db.postings, a) + if a == |db.accounts| then opening else 0
  {
    var posted := OpeningPostings(|db.accounts|, opening);
    SumConcat(db.postings, posted, MovedOn(a));
    if posted != [] {
      SumOne(posted[0], MovedOn(a));
    }
  }

  lemma UndoMovesBalance(db: Db, op: Op, a: nat)
    requires Sound(db) && Assets.Tidy(db) && Apply(db, op).Ok? && Undoes(op)
    ensures Balance(Apply(db, op).value.postings, a) == Balance(db.postings, a) + BalanceMove(db, op, a)
  {
    match op {
      case Unpay(sale, id) => PaymentGoesBack(db, sale, id, a);
      case RemoveSale(s) => SaleGoesBack(db, s, a);
      case Uncollect(id) => ReceiptGoesBack(db, id, a);
      case Unmove(id) => TransferGoesBack(db, id, a);
      case Unenter(kind, id) => FlowGoesBack(db, kind, id, a);
    }
  }

  lemma OtherMovesBalance(db: Db, op: Op, a: nat)
    requires Apply(db, op).Ok? && !Records(op) && !Undoes(op)
    ensures Balance(Apply(db, op).value.postings, a) == Balance(db.postings, a) + BalanceMove(db, op, a)
  {
    if op.NewAccount? {
      OpenMovesBalance(db, op.opening, op.open, a);
    } else if op.CloseAccount? {
      CloseMovesBalance(db, op.closed, a);
    }
  }

  /** Every accepted call moves every account by exactly that. */
  lemma CallMovesBalance(db: Db, op: Op, a: nat)
    requires Sound(db) && Assets.Tidy(db) && Apply(db, op).Ok?
    ensures Balance(Apply(db, op).value.postings, a) == Balance(db.postings, a) + BalanceMove(db, op, a)
  {
    if op.Pay? {
      PayMovesBalance(db, op.pay, a);
    } else if op.Collect? {
      CollectMovesBalance(db, op.collect, a);
    } else if op.Move? {
      TransferMovesBalance(db, op.move, a);
    } else if op.Enter? {
      EnterMovesBalance(db, op.account, op.kind, op.value, a);
    } else if Undoes(op) {
      UndoMovesBalance(db, op, a);
    } else {
      OtherMovesBalance(db, op, a);
    }
  }

  /* -------------------------------- wallets ----------------------------- */

  predicate Owns(sales: seq<Sale>, s: nat, c: nat) { s < |sales| && sales[s].customer == c }

  function WalletPaid(s: nat): Payment -> int { (p: Payment) => if p.sale == s && p.fromWallet then p.amount else 0 }

  function WalletPayment(sales: seq<Sale>, id: nat, c: nat): Payment -> int {
    (p: Payment) => if p.id == id && p.fromWallet && Owns(sales, p.sale, c) then p.amount else 0
  }

  function ReceiptHeld(id: nat, c: nat): Receipt -> int {
    (r: Receipt) => if r.id == id && r.customer == c then r.amount1 + r.amount2 else 0
  }

  /** Whose the sale is after the edit. */
  function OwnerAfter(db: Db, s: nat, a: Amendment): nat
    requires s < |db.sales|
  {
    match a
    case TicketEdit(Some(owner), _) => owner
    case _ => db.sales[s].customer
  }

  /** What an accepted call adds to a customer's wallet. */
  function WalletMove(db: Db, op: Op, c: nat): int {
    match op
    case Pay(r) => if r.fromWallet && Owns(db.sales, r.sale, c) then -r.amount else 0
    case Unpay(_, id) => Sum(db.payments, WalletPayment(db.sales, id, c))
    case RemoveSale(s) => if Owns(db.sales, s, c) then Sum(db.payments, WalletPaid(s)) else 0
    case Amend(s, a) =>
      if s >= |db.sales| then 0
      else (if Owns(db.sales, s, c) then Sum(db.payments, WalletPaid(s)) else 0)
           - (if OwnerAfter(db, s, a) == c then Sum(db.payments, WalletPaid(s)) else 0)
    case Collect(r) => if r.customer == c then r.amount1 + r.amount2.GetOr(0) else 0
    case Uncollect(id) => -Sum(db.receipts, ReceiptHeld(id, c))
    case _ => 0
  }

  lemma PayMovesWallet(db: Db, r: PayRequest, c: nat)
    requires RecordPayment(db, r).Ok?
    ensures Held(RecordPayment(db, r).value, c) == Held(db, c) + WalletMove(db, Pay(r), c)
  {
    SumAppend(db.payments, NewPayment(db, r), Wallet.SpentBy(db.sales, c));
  }

  lemma UnpayMovesWallet(db: Db, sale: nat, id: nat, c: nat)
    requires DeletePayment(db, sale, id).Ok?
    ensures Held(DeletePayment(db, sale, id).value, c) == Held(db, c) + WalletMove(db, Unpay(sale, id), c)
  {
    var spent := Wallet.SpentBy(db.sales, c);
    var kept := (p: Payment) => if OtherPayments(id)(p) then spent(p) else 0;
    SumWhere(db.payments, OtherPayments(id), spent, kept);
    SumAdd(db.payments, kept, WalletPayment(db.sales, id, c), spent);
  }

  lemma RemoveSaleMovesWallet(db: Db, s: nat, c: nat)
    requires DeleteSale(db, s).Ok?
    ensures Held(DeleteSale(db, s).value, c) == Held(db, c) + WalletMove(db, RemoveSale(s), c)
  {
    var db' := DeleteSale(db, s).value;
    var spent, after := Wallet.SpentBy(db.sales, c), Wallet.SpentBy(db'.sales, c);
    var kept := (p: Payment) => if OnOtherSales(s)(p) then after(p) else 0;
    SumWhere(db.payments, OnOtherSales(s), after, kept);
    if Owns(db.sales, s, c) {
      SumAdd(db.payments, kept, WalletPaid(s), spent);
    } else {
      SumEq(db.payments, kept, spent);
    }
  }

  lemma AmendMovesWallet(db: Db, s: nat, a: Amendment, c: nat)
    requires AmendSale(db, s, a).Ok?
    ensures Held(AmendSale(db, s, a).value, c) == Held(db, c) + WalletMove(db, Amend(s, a), c)
  {
    var db' := AmendSale(db, s, a).value;
    var before, after := Wallet.SpentBy(db.sales, c), Wallet.SpentBy(db'.sales, c);
    assert db'.sales[s].customer == OwnerAfter(db, s, a);
    if Owns(db.sales, s, c) == Owns(db'.sales, s, c) {
      SumEq(db.payments, before, after);
    } else if Owns(db.sales, s, c) {
      SumAdd(db.payments, after, WalletPaid(s), before);
    } else {
      SumAdd(db.payments, before, WalletPaid(s), after);
    }
  }

  lemma CollectMovesWallet(db: Db, r: ReceiptRequest, c: nat)
    requires CreateReceipt(db, r).Ok?
    ensures Held(CreateReceipt(db, r).value, c) == Held(db, c) + if c == r.customer then r.amount1 + r.amount2.GetOr(0) else 0
  {
    SumAppend(db.receipts, NewReceipt(db, r), Received(c));
  }

  lemma UncollectMovesWallet(db: Db, id: nat, c: nat)
    requires DeleteReceipt(db, id).Ok?
    ensures Held(DeleteReceipt(db, id).value, c) == Held(db, c) + WalletMove(db, Uncollect(id), c)
  {
    var kept := (r: Receipt) => if OtherReceipts(id)(r) then Received(c)(r) else 0;
    SumWhere(db.receipts, OtherReceipts(id), Received(c), kept);
    SumAdd(db.receipts, kept, ReceiptHeld(id, c), Received(c));
  }

  /** The other edits of a sale, a new sale, and a receipt's new discount or date leave every wallet alone. */
  lemma OtherSalesMoveNoWallet(db: Db, op: Op, c: nat)
    requires Assets.Tidy(db) && Apply(db, op).Ok? && (op.NewSale? || op.Edit? || op.SetStatus? || op.Recollect?)
    ensures Held(Apply(db, op).value, c) == Held(db, c)
  {
    var db' := Apply(db, op).value;
    if op.Recollect? {
      SumMap(db.receipts, EditedReceipt(op.changed, op.discount, op.dated), Received(c), Received(c));
    } else {
      forall p | p in db.payments ensures Wallet.SpentBy(db.sales, c)(p) == Wallet.SpentBy(db'.sales, c)(p) {
        assert Assets.TidyPayment(db, p);
      }
      SumEq(db.payments, Wallet.SpentBy(db.sales, c), Wallet.SpentBy(db'.sales, c));
    }
  }

  /** Every accepted call moves every wallet by exactly that. */
  lemma CallMovesWallet(db: Db, op: Op, c: nat)
    requires Assets.Tidy(db) && Apply(db, op).Ok?
    ensures Held(Apply(db, op).value, c) == Held(db, c) + WalletMove(db, op, c)
  {
    match op {
      case Pay(r) => PayMovesWallet(db, r, c);
      case Unpay(sale, id) => UnpayMovesWallet(db, sale, id, c);
      case RemoveSale(s) => RemoveSaleMovesWallet(db, s, c);
      case Amend(s, a) => AmendMovesWallet(db, s, a, c);
      case Collect(r) => CollectMovesWallet(db, r, c);
      case Uncollect(id) => UncollectMovesWallet(db, id, c);
      case NewSale(_, _, _) => OtherSalesMoveNoWallet(db, op, c);
      case Edit(_, _) => OtherSalesMoveNoWallet(db, op, c);
      case SetStatus(_, _) => OtherSalesMoveNoWallet(db, op, c);
      case Recollect(_, _, _) => OtherSalesMoveNoWallet(db, op, c);
      case _ =>
    }
  }

  /* ---------------------------- what is owed ---------------------------- */

  /** What a sale adds to its customer's bill. */
  function BillOf(price: Price): int { if StatusOf(price) == Some(Cancelled) then 0 else price.Charge() }

  /** What an edit of a ticket or a visa case adds to its charge. */
  function ChargeMove(price: Price, a: Amendment): int {
    match (price, a)
    case (TicketPrice(was, _, _), TicketEdit(_, fare)) => fare.GetOr(was) - was
    case (TicketPrice(_, was, _), DateChange(fee)) => fee - was
    case (TicketPrice(_, _, was), Reissue(refund)) => was - refund.GetOr(was)
    case (VisaPrice(service, embassy), VisaEdit(s, e)) => s.GetOr(service) - service + e.GetOr(embassy) - embassy
    case _ => 0
  }

  function CashPaid(s: nat): Payment -> int { (p: Payment) => if p.sale == s && !p.fromWallet then p.amount else 0 }

  function CashPayment(sales: seq<Sale>, id: nat, c: nat): Payment -> int {
    (p: Payment) => if p.id == id && !p.fromWallet && Owns(sales, p.sale, c) then p.amount else 0
  }

  function ReceiptCleared(id: nat, c: nat): Receipt -> int {
    (r: Receipt) => if r.id == id && r.customer == c then r.amount1 + r.amount2 + r.discount else 0
  }

  function DiscountMove(id: nat, discount: Option<int>, c: nat): Receipt -> int {
    (r: Receipt) => if r.id == id && r.customer == c then discount.GetOr(r.discount) - r.discount else 0
  }

  /** What an accepted call adds to what a customer owes. */
  function DueMove(db: Db, op: Op, c: nat): int
    requires Apply(db, op).Ok? && c < |db.customers|
  {
    match op
    case Pay(r) => if !r.fromWallet && Owns(db.sales, r.sale, c) then -r.amount else 0
    case Unpay(_, id) => Sum(db.payments, CashPayment(db.sales, id, c))
    case NewSale(b, price, _) => if b == c then BillOf(price) else 0
    case RemoveSale(s) => if Owns(db.sales, s, c) then Sum(db.payments, CashPaid(s)) - BillOf(db.sales[s].price) else 0
    case Edit(s, sell) => if Owns(db.sales, s, c) && StatusOf(db.sales[s].price) != Some(Cancelled) then sell - db.sales[s].price.Charge() else 0
    case Amend(s, a) =>
      var left := db.sales[s].price.Charge() - Sum(db.payments, CashPaid(s));
      (if OwnerAfter(db, s, a) == c then left + ChargeMove(db.sales[s].price, a) else 0) - (if Owns(db.sales, s, c) then left else 0)
    case SetStatus(s, to) => if Owns(db.sales, s, c) && to == Cancelled then -db.sales[s].price.Charge() else 0
    case Collect(r) => if r.customer == c then -(r.amount1 + r.amount2.GetOr(0) + r.discount.GetOr(0)) else 0
    case Recollect(id, discount, _) => -Sum(db.receipts, DiscountMove(id, discount, c))
    case Uncollect(id) => Sum(db.receipts, ReceiptCleared(id, c))
    case ChangeCustomer(k, due) => if k == c && due.Some? then due.value - db.customers[c].openingDue else 0
    case _ => 0
  }

  lemma UnpayMovesDue(db: Db, sale: nat, id: nat, c: nat)
    requires Assets.Tidy(db) && DeletePayment(db, sale, id).Ok? && c < |db.customers|
    ensures CurrentDue(DeletePayment(db, sale, id).value, c) == CurrentDue(db, c) + DueMove(db, Unpay(sale, id), c)
  {
    var credit := CreditTo(db.sales, c);
    var kept := (p: Payment) => if OtherPayments(id)(p) then credit(p) else 0;
    SumWhere(db.payments, OtherPayments(id), credit, kept);
    forall p | p in db.payments ensures credit(p) == kept(p) + CashPayment(db.sales, id, c)(p) {
      assert Assets.TidyPayment(db, p);
    }
    SumAdd(db.payments, kept, CashPayment(db.sales, id, c), credit);
  }

  lemma BillIsBilled(sold: Sale, c: nat)
    ensures BilledTo(c)(sold) == if sold.customer == c && !sold.deleted then BillOf(sold.price) else 0
  {
  }

  lemma NewSaleMovesNoCredit(db: Db, sold: Sale, c: nat)
    requires Assets.Tidy(db)
    ensures Sum(db.payments, CreditTo(db.sales + [sold], c)) == Sum(db.payments, CreditTo(db.sales, c))
  {
    forall p | p in db.payments ensures CreditTo(db.sales, c)(p) == CreditTo(db.sales + [sold], c)(p) {
      assert Assets.TidyPayment(db, p);
    }
    SumEq(db.payments, CreditTo(db.sales, c), CreditTo(db.sales + [sold], c));
  }

  lemma NewSaleMovesDue(db: Db, b: nat, price: Price, date: int, c: nat)
    requires Assets.Tidy(db) && AddSale(db, b, price, date).Ok? && c < |db.customers|
    ensures CurrentDue(AddSale(db, b, price, date).value, c) == CurrentDue(db, c) + DueMove(db, NewSale(b, price, date), c)
  {
    var sold := Sale(b, price, date, false);
    BillIsBilled(sold, c);
    SumAppend(db.sales, sold, BilledTo(c));
    NewSaleMovesNoCredit(db, sold, c);
    assert AddSale(db, b, price, date).value == db.(sales := db.sales + [sold]);
  }

  /** The credit a deleted sale's payments gave goes with them. */
  lemma RemovedCredit(db: Db, s: nat, c: nat)
    requires Assets.Tidy(db) && LiveSale(db, s)
    ensures var gone := db.sales[s := db.sales[s].(deleted := true)];
            Sum(Where(db.payments, OnOtherSales(s)), CreditTo(gone, c))
            == Sum(db.payments, CreditTo(db.sales, c)) - if Owns(db.sales, s, c) then Sum(db.payments, CashPaid(s)) else 0
  {
    var credit, after := CreditTo(db.sales, c), CreditTo(db.sales[s := db.sales[s].(deleted := true)], c);
    var kept := (p: Payment) => if OnOtherSales(s)(p) then after(p) else 0;
    SumWhere(db.payments, OnOtherSales(s), after, kept);
    forall p | p in db.payments ensures credit(p) == kept(p) + if Owns(db.sales, s, c) then CashPaid(s)(p) else 0 {
      assert Assets.TidyPayment(db, p);
    }
    if Owns(db.sales, s, c) {
      SumAdd(db.payments, kept, CashPaid(s), credit);
    } else {
      SumEq(db.payments, kept, credit);
    }
  }

  lemma RemoveSaleMovesDue(db: Db, s: nat, c: nat)
    requires Assets.Tidy(db) && DeleteSale(db, s).Ok? && c < |db.customers|
    ensures CurrentDue(DeleteSale(db, s).value, c) == CurrentDue(db, c) + DueMove(db, RemoveSale(s), c)
  {
    SumUpdate(db.sales, s, db.sales[s].(deleted := true), BilledTo(c));
    RemovedCredit(db, s, c);
  }

  /** A price or status rewritten in place moves its customer's bill and no credit. */
  lemma RewrittenSaleMovesDue(db: Db, s: nat, sold: Sale, c: nat)
    requires s < |db.sales| && c < |db.customers| && sold.customer == db.sales[s].customer && sold.deleted == db.sales[s].deleted
    ensures CurrentDue(db.(sales := db.sales[s := sold]), c)
         == CurrentDue(db, c) + BilledTo(c)(sold) - BilledTo(c)(db.sales[s])
  {
    SumUpdate(db.sales, s, sold, BilledTo(c));
    SumEq(db.payments, CreditTo(db.sales, c), CreditTo(db.sales[s := sold], c));
  }

  lemma AmendMovesDue(db: Db, s: nat, a: Amendment, c: nat)
    requires AmendSale(db, s, a).Ok? && c < |db.customers|
    ensures CurrentDue(AmendSale(db, s, a).value, c) == CurrentDue(db, c) + DueMove(db, Amend(s, a), c)
  {
    var db' := AmendSale(db, s, a).value;
    var before, after := CreditTo(db.sales, c), CreditTo(db'.sales, c);
    SumUpdate(db.sales, s, db'.sales[s], BilledTo(c));
    AmendMovesCharge(db, s, a);
    if Owns(db.sales, s, c) == Owns(db'.sales, s, c) {
      SumEq(db.payments, before, after);
    } else if Owns(db.sales, s, c) {
      SumAdd(db.payments, after, CashPaid(s), before);
    } else {
      SumAdd(db.payments, before, CashPaid(s), after);
    }
  }

  /** An edit of a ticket or a visa case moves the figures it names, and nothing else of the sale but its owner. */
  lemma AmendMovesCharge(db: Db, s: nat, a: Amendment)
    requires AmendSale(db, s, a).Ok?
    ensures var was, now := db.sales[s], AmendSale(db, s, a).value.sales[s];
            && now.price.Charge() == was.price.Charge() + ChargeMove(was.price, a)
            && now.customer == OwnerAfter(db, s, a) && now.date == was.date && now.deleted == was.deleted
            && now.price.Kind() == was.price.Kind() && now.price.Billed() == now.price.Charge()
  {
  }

  lemma EditMovesDiscount(receipts: seq<Receipt>, id: nat, discount: Option<int>, date: Option<int>, c: nat)
    ensures Sum(Map(receipts, EditedReceipt(id, discount, date)), DiscountTo(c))
         == Sum(receipts, DiscountTo(c)) + Sum(receipts, DiscountMove(id, discount, c))
  {
    var edit := EditedReceipt(id, discount, date);
    var edited := (r: Receipt) => DiscountTo(c)(edit(r));
    SumMap(receipts, edit, DiscountTo(c), edited);
    SumAdd(receipts, DiscountTo(c), DiscountMove(id, discount, c), edited);
  }

  lemma RecollectMovesDue(db: Db, id: nat, discount: Option<int>, date: Option<int>, c: nat)
    requires EditReceipt(db, id, discount, date).Ok? && c < |db.customers|
    ensures CurrentDue(EditReceipt(db, id, discount, date).value, c) == CurrentDue(db, c) + DueMove(db, Recollect(id, discount, date), c)
  {
    SumMap(db.receipts, EditedReceipt(id, discount, date), ReceivedFrom(c), ReceivedFrom(c));
    EditMovesDiscount(db.receipts, id, discount, date, c);
  }

  lemma UncollectMovesDue(db: Db, id: nat, c: nat)
    requires DeleteReceipt(db, id).Ok? && c < |db.customers|
    ensures CurrentDue(DeleteReceipt(db, id).value, c) == CurrentDue(db, c) + DueMove(db, Uncollect(id), c)
  {
    var both := (r: Receipt) => ReceivedFrom(c)(r) + DiscountTo(c)(r);
    var kept := (r: Receipt) => if OtherReceipts(id)(r) then both(r) else 0;
    var left := Where(db.receipts, OtherReceipts(id));
    SumAdd(db.receipts, ReceivedFrom(c), DiscountTo(c), both);
    SumAdd(left, ReceivedFrom(c), DiscountTo(c), both);
    SumWhere(db.receipts, OtherReceipts(id), both, kept);
    SumAdd(db.receipts, kept, ReceiptCleared(id, c), both);
  }

  lemma SaleCallMovesDue(db: Db, op: Op, c: nat)
    requires Assets.Tidy(db) && Apply(db, op).Ok? && c < |db.customers|
    requires op.NewSale? || op.RemoveSale? || op.Edit? || op.Amend? || op.SetStatus?
    ensures CurrentDue(Apply(db, op).value, c) == CurrentDue(db, c) + DueMove(db, op, c)
  {
    match op {
      case NewSale(b, price, date) => NewSaleMovesDue(db, b, price, date, c);
      case RemoveSale(s) => RemoveSaleMovesDue(db, s, c);
      case Edit(s, _) => RewrittenSaleMovesDue(db, s, Apply(db, op).value.sales[s], c);
      case Amend(s, a) => AmendMovesDue(db, s, a, c);
      case SetStatus(s, _) => RewrittenSaleMovesDue(db, s, Apply(db, op).value.sales[s], c);
    }
  }

  lemma CollectMovesDue(db: Db, r: ReceiptRequest, c: nat)
    requires CreateReceipt(db, r).Ok? && c < |db.customers|
    ensures CurrentDue(CreateReceipt(db, r).value, c)
         == CurrentDue(db, c) - if c == r.customer then r.amount1 + r.amount2.GetOr(0) + r.discount.GetOr(0) else 0
  {
    SumAppend(db.receipts, NewReceipt(db, r), ReceivedFrom(c));
    SumAppend(db.receipts, NewReceipt(db, r), DiscountTo(c));
  }

  lemma ReceiptCallMovesDue(db: Db, op: Op, c: nat)
    requires Apply(db, op).Ok? && c < |db.customers| && (op.Collect? || op.Recollect? || op.Uncollect?)
    ensures CurrentDue(Apply(db, op).value, c) == CurrentDue(db, c) + DueMove(db, op, c)
  {
    match op {
      case Collect(r) => CollectMovesDue(db, r, c);
      case Recollect(id, discount, date) => RecollectMovesDue(db, id, discount, date, c);
      case Uncollect(id) => UncollectMovesDue(db, id, c);
    }
  }

  /** Every accepted call moves what every customer owes by exactly that. */
  lemma CallMovesDue(db: Db, op: Op, c: nat)
    requires Assets.Tidy(db) && Apply(db, op).Ok? && c < |db.customers|
    ensures c < |Apply(db, op).value.customers|
    ensures CurrentDue(Apply(db, op).value, c) == CurrentDue(db, c) + DueMove(db, op, c)
  {
    if op.Pay? {
      SumAppend(db.payments, NewPayment(db, op.pay), CreditTo(db.sales, c));
    } else if op.Unpay? {
      UnpayMovesDue(db, op.sale, op.payment, c);
    } else if op.Collect? || op.Recollect? || op.Uncollect? {
      ReceiptCallMovesDue(db, op, c);
    } else if op.NewSale? || op.RemoveSale? || op.Edit? || op.Amend? || op.SetStatus? {
      SaleCallMovesDue(db, op, c);
    }
  }

  /** A new customer owes their opening due and nothing else yet. */
  lemma NewCustomerOwes(db: Db, due: int)
    requires Assets.Tidy(db)
    ensures CurrentDue(AddCustomer(db, due).value, |db.customers|) == due
  {
    var c := |db.customers|;
    SumZero(db.sales, BilledTo(c));
    forall p | p in db.payments ensures CreditTo(db.sales, c)(p) == 0 {
      assert Assets.TidyPayment(db, p) && db.sales[p.sale] in db.sales;
    }
    SumZero(db.payments, CreditTo(db.sales, c));
    forall r | r in db.receipts ensures ReceivedFrom(c)(r) == 0 && DiscountTo(c)(r) == 0 {
      assert Assets.TidyReceipt(db, r);
    }
    SumZero(db.receipts, ReceivedFrom(c));
    SumZero(db.receipts, DiscountTo(c));
  }

  /* ------------------------------ one sale ------------------------------ */

  function PaymentOn(id: nat, s: nat): Payment -> int { (p: Payment) => if p.id == id && p.sale == s then p.amount else 0 }

  /** What an accepted call adds to what has been taken on a sale. */
  function PaidMove(db: Db, op: Op, s: nat): int {
    match op
    case Pay(r) => if r.sale == s then r.amount else 0
    case Unpay(_, id) => -Sum(db.payments, PaymentOn(id, s))
    case RemoveSale(k) => if k == s then -Paid(db.payments, s) else 0
    case _ => 0
  }

  lemma CallMovesPaid(db: Db, op: Op, s: nat)
    requires Apply(db, op).Ok?
    ensures Paid(Apply(db, op).value.payments, s) == Paid(db.payments, s) + PaidMove(db, op, s)
  {
    match op {
      case Pay(r) => SumAppend(db.payments, NewPayment(db, r), AmountOn(s));
      case Unpay(_, id) =>
        var kept := (p: Payment) => if OtherPayments(id)(p) then AmountOn(s)(p) else 0;
        SumWhere(db.payments, OtherPayments(id), AmountOn(s), kept);
        SumAdd(db.payments, kept, PaymentOn(id, s), AmountOn(s));
      case RemoveSale(k) =>
        var kept := (p: Payment) => if OnOtherSales(k)(p) then AmountOn(s)(p) else 0;
        SumWhere(db.payments, OnOtherSales(k), AmountOn(s), kept);
        if k == s { SumZero(db.payments, kept); } else { SumEq(db.payments, kept, AmountOn(s)); }
      case _ =>
    }
  }

  /** What a sale's row may have become: its price, owner, status or deletion, as the call says, and nothing else. */
  predicate SaleAfter(db: Db, op: Op, s: nat, after: Sale)
    requires s < |db.sales|
  {
    var was := db.sales[s];
    match op
    case RemoveSale(k) => after == if k == s then was.(deleted := true) else was
    case Edit(k, sell) =>
      if k != s then after == was
      else after.price.Charge() == sell && after.price.Kind() == was.price.Kind()
           && StatusOf(after.price) == StatusOf(was.price) && after == was.(price := after.price)
    case Amend(k, a) =>
      if k != s then after == was
      else after.price.Charge() == was.price.Charge() + ChargeMove(was.price, a) && after.price.Kind() == was.price.Kind()
           && after == was.(price := after.price, customer := OwnerAfter(db, s, a))
    case SetStatus(k, to) =>
      if k != s then after == was
      else StatusOf(after.price) == Some(to) && after.price.Charge() == was.price.Charge()
           && after.price.Kind() == was.price.Kind() && after == was.(price := after.price)
    case _ => after == was
  }

  lemma CallRewritesSale(db: Db, op: Op, s: nat)
    requires Apply(db, op).Ok? && s < |db.sales|
    ensures s < |Apply(db, op).value.sales| && SaleAfter(db, op, s, Apply(db, op).value.sales[s])
  {
  }

  /** A new sale is stored as it was asked for; no other call adds one or takes one away. */
  lemma CallAddsSale(db: Db, op: Op)
    requires Apply(db, op).Ok?
    ensures if op.NewSale? then Apply(db, op).value.sales == db.sales + [Sale(op.buyer, op.price, op.date, false)]
            else |Apply(db, op).value.sales| == |db.sales|
  {
  }

  /* ----------------------------- whole tables --------------------------- */

  /** A payment, a receipt, a transfer or a flow is stored as it was asked for, with its postings, and nothing else changes. */
  lemma CallWritesItsRow(db: Db, op: Op)
    requires Apply(db, op).Ok?
    ensures var after, id := Apply(db, op).value, db.nextId;
            match op
            case Pay(r) =>
              var account := if r.fromWallet then None else r.account;
              after == db.(payments := db.payments + [Payment(id, r.sale, r.amount, r.fromWallet, account, r.paidAt)],
                           postings := db.postings + (if account.Some? then [Posting(account.value, In, r.amount, SalesPayment, id)] else []),
                           nextId := id + 1)
            case Collect(r) =>
              var amount2 := r.amount2.GetOr(0);
              after == db.(receipts := db.receipts + [Receipt(id, r.customer, r.account1, r.amount1, r.account2, amount2,
                                                              r.discount.GetOr(0), r.date)],
                           postings := db.postings + [Posting(r.account1, In, r.amount1, DueReceived, id)]
                                       + (if r.account2.Some? then [Posting(r.account2.value, In, amount2, DueReceived, id)] else []),
                           nextId := id + 1)
            case Move(r) =>
              after == db.(transfers := db.transfers + [Transfer(id, r.source, r.target, r.amount)],
                           postings := db.postings + [Posting(r.source, Out, r.amount, TransferOut, id),
                                                      Posting(r.target, In, r.amount, TransferIn, id)],
                           nextId := id + 1)
            case Enter(a, kind, amount) =>
              && after.flows == db.flows + [Flow(id, a, kind, amount)] && |after.postings| == |db.postings| + 1
              && after == db.(flows := after.flows, postings := after.postings, nextId := id + 1)
            case _ => after.nextId == id && |after.payments| <= |db.payments| && |after.receipts| <= |db.receipts|
  {
    if op.Unpay? { WhereShrinks(db.payments, OtherPayments(op.payment)); }
    if op.RemoveSale? { WhereShrinks(db.payments, OnOtherSales(op.removed)); }
    if op.Uncollect? { WhereShrinks(db.receipts, OtherReceipts(op.receipt)); }
  }

  lemma {:induction false} WhereShrinks<T(!new)>(rows: seq<T>, p: T -> bool)
    ensures |Where(rows, p)| <= |rows|
  {
    if rows != [] {
      WhereShrinks(rows[..|rows| - 1], p);
    }
  }

  /** A deletion takes the rows it names, each of them, and no others; a receipt's edit changes its discount and date. */
  lemma CallTakesItsRows(db: Db, op: Op)
    requires Apply(db, op).Ok?
    ensures var after := Apply(db, op).value;
            match op
            case Unpay(_, id) => forall p :: p in after.payments <==> p in db.payments && p.id != id
            case RemoveSale(s) => forall p :: p in after.payments <==> p in db.payments && p.sale != s
            case Uncollect(id) => forall r :: r in after.receipts <==> r in db.receipts && r.id != id
            case Unmove(id) => forall t :: t in after.transfers <==> t in db.transfers && t.id != id
            case Unenter(kind, id) => forall f :: f in after.flows <==> f in db.flows && !(SameTable(f.kind, kind) && f.id == id)
            case Recollect(id, discount, dated) =>
              |after.receipts| == |db.receipts| && forall i :: 0 <= i < |db.receipts| ==>
                var was := db.receipts[i];
                after.receipts[i] == if was.id != id then was
                                     else was.(discount := discount.GetOr(was.discount), date := dated.GetOr(was.date))
            case _ => true
  {
  }

  /** Customers and accounts: one more, or the row the call names rewritten, and every other as it was. */
  lemma CallRewritesParties(db: Db, op: Op)
    requires Apply(db, op).Ok?
    ensures var was, now := db.customers, Apply(db, op).value.customers;
            match op
            case NewCustomer(due) => now == was + [Customer(due, false)]
            case ChangeCustomer(c, due) => now == was[c := was[c].(openingDue := due.GetOr(was[c].openingDue))]
            case RemoveCustomer(c) => now == was[c := was[c].(deleted := true)]
            case _ => now == was
    ensures var was, now := db.accounts, Apply(db, op).value.accounts;
            match op
            case NewAccount(opening, active) => now == was + [Account(opening, active, false)]
            case ChangeAccount(a, active) => now == was[a := was[a].(active := active.GetOr(was[a].active))]
            case CloseAccount(a) => now == was[a := was[a].(active := false, deleted := true)]
            case _ => now == was
  {
  }

  /* -------------------- the three that record money --------------------- */

  /** What an accepted payment has done. */
  ghost predicate PaymentDone(db: Db, r: PayRequest, after: Db) {
    && after.customers == db.customers && after.sales == db.sales
    && (forall a: nat :: Balance(after.postings, a) == Balance(db.postings, a) + if !r.fromWallet && r.account == Some(a) then r.amount else 0)
    && (forall c: nat :: Held(after, c) == Held(db, c) - if r.fromWallet && Owns(db.sales, r.sale, c) then r.amount else 0)
    && (forall c: nat :: c < |db.customers| ==>
          CurrentDue(after, c) == CurrentDue(db, c) - if !r.fromWallet && Owns(db.sales, r.sale, c) then r.amount else 0)
    && (forall s: nat :: Paid(after.payments, s) == Paid(db.payments, s) + if s == r.sale then r.amount else 0)
  }

  /** What an accepted receipt has done: the first amount is in the first account, the second in the second. */
  ghost predicate ReceiptDone(db: Db, r: ReceiptRequest, after: Db) {
    && after.customers == db.customers
    && (forall a: nat ::
          Balance(after.postings, a)
          == Balance(db.postings, a) + (if a == r.account1 then r.amount1 else 0) + (if r.account2 == Some(a) then r.amount2.GetOr(0) else 0))
    && (forall c: nat :: Held(after, c) == Held(db, c) + if c == r.customer then r.amount1 + r.amount2.GetOr(0) else 0)
    && (forall c: nat :: c < |db.customers| ==>
          CurrentDue(after, c)
          == CurrentDue(db, c) - if c == r.customer then r.amount1 + r.amount2.GetOr(0) + r.discount.GetOr(0) else 0)
  }

  /** What an accepted transfer has done. */
  ghost predicate TransferDone(db: Db, r: TransferRequest, after: Db) {
    forall a: nat ::
      Balance(after.postings, a)
      == Balance(db.postings, a) + (if a == r.target then r.amount else 0) - (if a == r.source then r.amount else 0)
  }

  lemma PaymentIsDone(db: Db, r: PayRequest)
    requires RecordPayment(db, r).Ok?
    ensures PaymentDone(db, r, RecordPayment(db, r).value)
  {
    var after, p := RecordPayment(db, r).value, NewPayment(db, r);
    forall a: nat ensures Balance(after.postings, a) == Balance(db.postings, a) + BalanceMove(db, Pay(r), a) { PayMovesBalance(db, r, a); }
    forall c: nat ensures Held(after, c) == Held(db, c) + WalletMove(db, Pay(r), c) { PayMovesWallet(db, r, c); }
    forall c: nat | c < |db.customers| ensures CurrentDue(after, c) == CurrentDue(db, c) + DueMove(db, Pay(r), c) {
      SumAppend(db.payments, p, CreditTo(db.sales, c));
    }
    forall s: nat ensures Paid(after.payments, s) == Paid(db.payments, s) + PaidMove(db, Pay(r), s) { CallMovesPaid(db, Pay(r), s); }
  }

  lemma ReceiptIsDone(db: Db, r: ReceiptRequest)
    requires CreateReceipt(db, r).Ok?
    ensures ReceiptDone(db, r, CreateReceipt(db, r).value)
  {
    var after := CreateReceipt(db, r).value;
    forall a: nat
      ensures Balance(after.postings, a)
           == Balance(db.postings, a) + (if a == r.account1 then r.amount1 else 0) + (if r.account2 == Some(a) then r.amount2.GetOr(0) else 0)
    {
      CollectMovesBalance(db, r, a);
    }
    forall c: nat ensures Held(after, c) == Held(db, c) + if c == r.customer then r.amount1 + r.amount2.GetOr(0) else 0 {
      CollectMovesWallet(db, r, c);
    }
    forall c: nat | c < |db.customers|
      ensures CurrentDue(after, c)
           == CurrentDue(db, c) - if c == r.customer then r.amount1 + r.amount2.GetOr(0) + r.discount.GetOr(0) else 0
    {
      CollectMovesDue(db, r, c);
    }
  }

  lemma TransferIsDone(db: Db, r: TransferRequest)
    requires CreateTransfer(db, r).Ok?
    ensures TransferDone(db, r, CreateTransfer(db, r).value)
  {
    forall a: nat
      ensures Balance(CreateTransfer(db, r).value.postings, a) == Balance(db.postings, a) + BalanceMove(db, Move(r), a)
    {
      TransferMovesBalance(db, r, a);
    }
  }

  /* ---------------------------- over whole runs ------------------------- */

  /** What the accepted calls of a run add up to. */
  function AllMoves(db: Db, ops: seq<Op>, move: (Db, Op) -> int): int {
    if ops == [] then 0
    else
      var before, op := Run(db, ops[..|ops| - 1]), ops[|ops| - 1];
      AllMoves(db, ops[..|ops| - 1], move) + if Apply(before, op).Ok? then move(before, op) else 0
  }

  function MovesBalance(a: nat): (Db, Op) -> int { (db: Db, op: Op) => BalanceMove(db, op, a) }
  function MovesWallet(c: nat): (Db, Op) -> int { (db: Db, op: Op) => WalletMove(db, op, c) }

  /** A customer owes their opening due from the call that wrote them. */
  function MovesDue(c: nat): (Db, Op) -> int {
    (db: Db, op: Op) =>
      if op.NewCustomer? then (if c == |db.customers| then op.openingDue else 0)
      else if Apply(db, op).Ok? && c < |db.customers| then DueMove(db, op, c) else 0
  }

  predicate Figures(db: Db, ops: seq<Op>, a: nat, c: nat) {
    && Balance(db.postings, a) == AllMoves(EMPTY, ops, MovesBalance(a))
    && Held(db, c) == AllMoves(EMPTY, ops, MovesWallet(c))
    && (if c < |db.customers| then CurrentDue(db, c) else 0) == AllMoves(EMPTY, ops, MovesDue(c))
  }

  lemma StepMovesDue(db: Db, op: Op, c: nat)
    requires Assets.Tidy(db) && Apply(db, op).Ok?
    ensures var after := Apply(db, op).value;
            (if c < |after.customers| then CurrentDue(after, c) else 0)
            == (if c < |db.customers| then CurrentDue(db, c) else 0) + MovesDue(c)(db, op)
  {
    CallRewritesParties(db, op);
    if c < |db.customers| {
      CallMovesDue(db, op, c);
    } else if op.NewCustomer? {
      NewCustomerOwes(db, op.openingDue);
    }
  }

  /**
   * No figure is stored, and none needs to be: after any run of calls on an agency that
   * starts empty, each balance, each wallet and each due is the sum of what the accepted
   * calls did to it.
   */
  lemma {:induction false} FiguresAreSums(ops: seq<Op>, a: nat, c: nat)
    ensures Figures(Run(EMPTY, ops), ops, a, c)
  {
    if ops != [] {
      var init, op := ops[..|ops| - 1], ops[|ops| - 1];
      var db := Run(EMPTY, init);
      FiguresAreSums(init, a, c);
      Assets.AssetsOfEveryRun(init);
      if Apply(db, op).Ok? {
        CallMovesBalance(db, op, a);
        CallMovesWallet(db, op, c);
        StepMovesDue(db, op, c);
      }
    }
  }
}
