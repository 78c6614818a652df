/**
 * Which calls are accepted, as conditions on the rows found and the fields asked with,
 * and what a refusal says.
 */
module Acceptance {
  import opened Wrappers
  import opened Rows
  import opened Books
  import opened Calls
  import Wallet

  /* --------------------------- parties and money ------------------------ */

  predicate Known(db: Db, c: nat) { c < |db.customers| && !db.customers[c].deleted }

  /** An account that is there and switched on. */
  predicate Usable(db: Db, a: nat) { a < |db.accounts| && !db.accounts[a].deleted && db.accounts[a].active }

  predicate Standing(db: Db, s: nat) { s < |db.sales| && !db.sales[s].deleted }

  function Received(c: nat): Receipt -> int { (r: Receipt) => if r.customer == c then r.amount1 + r.amount2 else 0 }

  /** What is in a customer's wallet: everything received, less every wallet payment on a sale of theirs. */
  function Held(db: Db, c: nat): int {
    Sum(db.receipts, Received(c)) - Sum(db.payments, Wallet.SpentBy(db.sales, c))
  }

  function TakenOn(s: nat): Payment -> int { (p: Payment) => if p.sale == s then p.amount else 0 }

  /** What may still be taken on a sale. */
  function Due(db: Db, s: nat): int
    requires s < |db.sales|
  {
    db.sales[s].price.Charge() - Sum(db.payments, TakenOn(s))
  }

  predicate AtLeast(amount: Option<int>, least: int) { amount.Some? ==> amount.value >= least }

  lemma HeldIsWallet(db: Db, c: nat)
    ensures Held(db, c) == WalletBalance(db, c)
  {
    Wallet.UsedUpIsOneSum(db, c);
    SumEq(db.receipts, Received(c), ReceivedFrom(c));
  }

  lemma DueIsLeft(db: Db, s: nat)
    requires s < |db.sales|
    ensures Due(db, s) == db.sales[s].price.Charge() - Paid(db.payments, s)
  {
    SumEq(db.payments, TakenOn(s), AmountOn(s));
  }

  /* ------------------------------ acceptance ---------------------------- */

  predicate PaymentFits(db: Db, r: PayRequest) {
    && r.amount > 0 && Standing(db, r.sale) && r.amount <= Due(db, r.sale)
    && if r.fromWallet
       then Known(db, db.sales[r.sale].customer) && r.amount <= Held(db, db.sales[r.sale].customer)
       else r.account.Some? && Usable(db, r.account.value)
  }

  /** A second account comes with a second amount; a second amount may come alone. */
  predicate ReceiptFits(db: Db, r: ReceiptRequest) {
    && r.amount1 > 0 && AtLeast(r.amount2, 0) && AtLeast(r.discount, 0)
    && Known(db, r.customer) && Usable(db, r.account1)
    && (r.account2.Some? ==>
          r.account2.value != r.account1 && r.amount2.Some? && r.amount2.value > 0 && Usable(db, r.account2.value))
  }

  predicate TransferFits(db: Db, r: TransferRequest) {
    r.amount > 0 && r.source != r.target && Usable(db, r.source) && Usable(db, r.target)
    && r.amount <= Balance(db.postings, r.source)
  }

  /** The edit is one for this kind of sale, with no figure below zero, to nobody unknown. */
  predicate AmendmentFits(db: Db, s: nat, a: Amendment) {
    Standing(db, s) &&
    match a
    case TicketEdit(owner, fare) =>
      db.sales[s].price.TicketPrice? && AtLeast(fare, 0) && (owner.Some? ==> Known(db, owner.value))
    case DateChange(fee) => db.sales[s].price.TicketPrice? && fee >= 0
    case Reissue(refund) => db.sales[s].price.TicketPrice? && AtLeast(refund, 0)
    case VisaEdit(service, embassy) => db.sales[s].price.VisaPrice? && AtLeast(service, 0) && AtLeast(embassy, 0)
  }

  /** Reserved may be confirmed, confirmed completed, and either of them cancelled. */
  predicate MoveFits(db: Db, s: nat, to: BookingStatus) {
    Standing(db, s) &&
    var from := match db.sales[s].price
                case HajjPrice(_, status) => Some(status)
                case TourPrice(_, status) => Some(status)
                case HotelPrice(_, status) => Some(status)
                case _ => None;
    (from, to) in {(Some(Reserved), Confirmed), (Some(Reserved), Cancelled), (Some(Confirmed), Completed), (Some(Confirmed), Cancelled)}
  }

  /** A customer may go unless a receipt, or a standing ticket, visa case or Hajj booking, names them. */
  predicate Removable(db: Db, c: nat) {
    && Known(db, c) && (forall r :: r in db.receipts ==> r.customer != c)
    && (forall s :: s in db.sales && s.customer == c ==> s.deleted || s.price.TourPrice? || s.price.HotelPrice?)
  }

  predicate Accepted(db: Db, op: Op) {
    match op
    case Pay(r) => PaymentFits(db, r)
    case Unpay(sale, id) => exists p :: p in db.payments && p.id == id && p.sale == sale
    case NewSale(c, price, _) => Known(db, c) && price.Charge() >= 0
    case RemoveSale(s) => Standing(db, s)
    case Edit(s, sell) =>
      && sell >= 0 && Standing(db, s) && (db.sales[s].price.TourPrice? || db.sales[s].price.HotelPrice?)
      && Sum(db.payments, TakenOn(s)) <= sell
    case Amend(s, a) => AmendmentFits(db, s, a)
    case SetStatus(s, to) => MoveFits(db, s, to)
    case Collect(r) => ReceiptFits(db, r)
    case Recollect(id, discount, _) => AtLeast(discount, 0) && exists r :: r in db.receipts && r.id == id
    case Uncollect(id) => exists r :: r in db.receipts && r.id == id
    case Move(r) => TransferFits(db, r)
    case Unmove(id) => exists t :: t in db.transfers && t.id == id
    case Enter(a, _, amount) => amount > 0 && Usable(db, a)
    case Unenter(kind, id) => exists f :: f in db.flows && SameTable(f.kind, kind) && f.id == id
    case NewCustomer(_) => true
    case ChangeCustomer(c, _) => Known(db, c)
    case RemoveCustomer(c) => Removable(db, c)
    case NewAccount(_, _) => true
    case ChangeAccount(a, _) => a < |db.accounts| && !db.accounts[a].deleted
    case CloseAccount(a) =>
      && a < |db.accounts| && !db.accounts[a].deleted
      && forall u :: u in db.postings && u.account == a ==> u.source == Opening
  }

  lemma PaymentAcceptedWhen(db: Db, r: PayRequest)
    ensures RecordPayment(db, r).Ok? <==> PaymentFits(db, r)
  {
    if Standing(db, r.sale) {
      HeldIsWallet(db, db.sales[r.sale].customer);
      DueIsLeft(db, r.sale);
    }
  }

  lemma SaleCallAcceptedWhen(db: Db, op: Op)
    requires op.NewSale? || op.RemoveSale? || op.Edit? || op.Amend? || op.SetStatus?
    ensures Apply(db, op).Ok? <==> Accepted(db, op)
  {
    if op.Edit? {
      SumEq(db.payments, TakenOn(op.edited), AmountOn(op.edited));
    }
  }

  lemma CustomerGoesWhen(db: Db, c: nat)
    ensures DeleteCustomer(db, c).Ok? <==> Removable(db, c)
  {
    if Known(db, c) {
      assert (exists s :: s in db.sales && HoldsCustomer(s, c)) <==>
             !(forall s :: s in db.sales && s.customer == c ==> s.deleted || s.price.TourPrice? || s.price.HotelPrice?);
    }
  }

  /** A call is accepted exactly when the rows and its own fields allow it. */
  lemma AcceptedExactlyWhen(db: Db, op: Op)
    ensures Apply(db, op).Ok? <==> Accepted(db, op)
  {
    match op {
      case Pay(r) => PaymentAcceptedWhen(db, r);
      case NewSale(_, _, _) => SaleCallAcceptedWhen(db, op);
      case RemoveSale(_) => SaleCallAcceptedWhen(db, op);
      case Edit(_, _) => SaleCallAcceptedWhen(db, op);
      case Amend(_, _) => SaleCallAcceptedWhen(db, op);
      case SetStatus(_, _) => SaleCallAcceptedWhen(db, op);
      case RemoveCustomer(c) => CustomerGoesWhen(db, c);
      case _ =>
    }
  }

  /* ------------------------------- refusals ----------------------------- */

  predicate NoAccount(db: Db, a: nat) { a >= |db.accounts| || db.accounts[a].deleted }

  predicate SwitchedOff(db: Db, a: nat) { !NoAccount(db, a) && !db.accounts[a].active }

  /** What has to be the case for a payment to be refused with this error. */
  predicate PaymentReason(db: Db, r: PayRequest, e: Error) {
    match e
    case Invalid => r.amount <= 0
    case AccountRequired => !r.fromWallet && r.account.None?
    case NotFound =>
      || !Standing(db, r.sale)
      || (if r.fromWallet then !Known(db, db.sales[r.sale].customer) else r.account.Some? && NoAccount(db, r.account.value))
    case WalletShort => r.fromWallet && Standing(db, r.sale) && r.amount > Held(db, db.sales[r.sale].customer)
    case Inactive => !r.fromWallet && r.account.Some? && SwitchedOff(db, r.account.value)
    case Overpaid => Standing(db, r.sale) && r.amount > Due(db, r.sale)
    case _ => false
  }

  predicate ReceiptReason(db: Db, r: ReceiptRequest, e: Error) {
    match e
    case Invalid => r.amount1 <= 0 || !AtLeast(r.amount2, 0) || !AtLeast(r.discount, 0)
    case NotFound =>
      !Known(db, r.customer) || NoAccount(db, r.account1) || (r.account2.Some? && NoAccount(db, r.account2.value))
    case SameAccount => r.account2 == Some(r.account1)
    case SecondAmountMissing => r.account2.Some? && (r.amount2.None? || r.amount2.value == 0)
    case Inactive => SwitchedOff(db, r.account1) || (r.account2.Some? && SwitchedOff(db, r.account2.value))
    case _ => false
  }

  predicate TransferReason(db: Db, r: TransferRequest, e: Error) {
    match e
    case Invalid => r.amount <= 0
    case SameAccount => r.source == r.target
    case NotFound => NoAccount(db, r.source) || NoAccount(db, r.target)
    case Insufficient => !NoAccount(db, r.source) && r.amount > Balance(db.postings, r.source)
    case Inactive => SwitchedOff(db, r.source) || SwitchedOff(db, r.target)
    case _ => false
  }

  /** A refused payment, receipt or transfer is refused for something that is the case. */
  lemma RefusalIsTrue(db: Db, op: Op)
    requires Apply(db, op).Err?
    ensures op.Pay? ==> PaymentReason(db, op.pay, Apply(db, op).error)
    ensures op.Collect? ==> ReceiptReason(db, op.collect, Apply(db, op).error)
    ensures op.Move? ==> TransferReason(db, op.move, Apply(db, op).error)
  {
    if op.Pay? && Standing(db, op.pay.sale) {
      HeldIsWallet(db, db.sales[op.pay.sale].customer);
      DueIsLeft(db, op.pay.sale);
    }
  }

  /* ------------------------------- postings ----------------------------- */

  /** Whatever a call posts goes onto accounts that were there and switched on; only an opening entry needs none. */
  lemma PostsOnlyToUsable(db: Db, op: Op, u: Posting)
    requires Apply(db, op).Ok? && u in Apply(db, op).value.postings && u !in db.postings && u.source != Opening
    ensures Usable(db, u.account)
  {
    AcceptedExactlyWhen(db, op);
  }
}
