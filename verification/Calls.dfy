/**
 * Each service call as one step from committed rows to committed rows.
 *
 * A call that throws rolls its transaction back, so it leaves the rows as they
 * were: that is the `Err` case. Request validation (amounts positive, discount
 * non-negative) is the first check, as it is in front of the services.
 */
module Calls {
  import opened Wrappers
  import opened Rows
  import opened Books

  datatype Error =
    | Invalid            // refused by the request schema
    | NotFound
    | Inactive
    | AccountRequired
    | OwnerChanged
    | WalletShort
    | Overpaid
    | SameAccount
    | SecondAmountMissing
    | Insufficient
    | PriceBelowPaid
    | HasHistory
    | NotAllowed

  type Outcome = Result<Db, Error>

  datatype PayRequest = PayRequest(sale: nat, amount: int, fromWallet: bool, account: Option<nat>, paidAt: int)
  datatype ReceiptRequest = ReceiptRequest(
    customer: nat, account1: nat, amount1: int, account2: Option<nat>, amount2: Option<int>, discount: Option<int>, date: int)
  datatype TransferRequest = TransferRequest(source: nat, target: nat, amount: int)

  /** `assertPostableAccount`: the error it throws, if any. */
  function NotPostable(db: Db, a: nat): Option<Error> {
    if !LiveAccount(db, a) then Some(NotFound)
    else if !db.accounts[a].active then Some(Inactive)
    else None
  }

  predicate Postable(db: Db, a: nat) { NotPostable(db, a).None? }

  /** What `reverse(source, sourceId)` keeps. */
  function NotFrom(source: Source, id: nat): Posting -> bool { (p: Posting) => !(p.source == source && p.sourceId == id) }

  function Reverse(postings: seq<Posting>, source: Source, id: nat): seq<Posting> {
    Where(postings, NotFrom(source, id))
  }

  /* ----------------------------- payments ------------------------------ */

  function NewPayment(db: Db, r: PayRequest): Payment {
    Payment(db.nextId, r.sale, r.amount, r.fromWallet, if r.fromWallet then None else r.account, r.paidAt)
  }

  function PaymentPostings(p: Payment): seq<Posting> {
    if p.fromWallet || p.account.None? then [] else [Posting(p.account.value, In, p.amount, SalesPayment, p.id)]
  }

  function AddPayment(db: Db, p: Payment): Db {
    db.(payments := db.payments + [p], postings := db.postings + PaymentPostings(p), nextId := db.nextId + 1)
  }

  function RecordPayment(db: Db, r: PayRequest): Outcome {
    if r.amount <= 0 then Err(Invalid)
    else if !r.fromWallet && r.account.None? then Err(AccountRequired)
    else if !LiveSale(db, r.sale) then Err(NotFound)
    else if r.fromWallet && !LiveCustomer(db, db.sales[r.sale].customer) then Err(NotFound)
    else if r.fromWallet && r.amount > WalletBalance(db, db.sales[r.sale].customer) then Err(WalletShort)
    else if !r.fromWallet && !Postable(db, r.account.value) then Err(NotPostable(db, r.account.value).value)
    else if r.amount > db.sales[r.sale].price.Charge() - Paid(db.payments, r.sale) then Err(Overpaid)
    else Ok(AddPayment(db, NewPayment(db, r)))
  }

  function OtherPayments(id: nat): Payment -> bool { (p: Payment) => p.id != id }

  function DeletePayment(db: Db, sale: nat, id: nat): Outcome {
    if !(exists p :: p in db.payments && p.id == id && p.sale == sale) then Err(NotFound)
    else Ok(db.(payments := Where(db.payments, OtherPayments(id)),
                postings := Reverse(db.postings, SalesPayment, id)))
  }

  function OnOtherSales(sale: nat): Payment -> bool { (p: Payment) => p.sale != sale }

  /** What is left of the ledger once every payment on a sale has been reversed out of it. */
  function NotPaidFor(payments: seq<Payment>, sale: nat): Posting -> bool {
    (p: Posting) => !(p.source == SalesPayment && exists q :: q in payments && q.sale == sale && q.id == p.sourceId)
  }

  function DeleteSale(db: Db, sale: nat): Outcome {
    if !LiveSale(db, sale) then Err(NotFound)
    else Ok(db.(payments := Where(db.payments, OnOtherSales(sale)),
                postings := Where(db.postings, NotPaidFor(db.payments, sale)),
                sales := db.sales[sale := db.sales[sale].(deleted := true)]))
  }

  /** `updateBooking` of a tour or hotel booking, as far as it moves the price. */
  function Reprice(db: Db, sale: nat, sell: int): Outcome {
    if sell < 0 then Err(Invalid)
    else if !LiveSale(db, sale) || db.sales[sale].price.Kind() !in {Tour, Hotel} then Err(NotFound)
    else if sell < Paid(db.payments, sale) then Err(PriceBelowPaid)
    else
      Ok(db.(sales := db.sales[sale := db.sales[sale].(price := Resell(db.sales[sale].price, sell))]))
  }

  /** A price edit's own UPDATE: by then the check may have been made some time ago. */
  function Resell(price: Price, sell: int): Price
    requires price.Kind() in {Tour, Hotel}
  {
    if price.TourPrice? then price.(tourSell := sell) else price.(hotelSell := sell)
  }

  /** The edits of a ticket's or a visa case's own figures. None of them looks at what was paid. */
  datatype Amendment =
    | TicketEdit(owner: Option<nat>, fare: Option<int>)     // `updateTicket`
    | DateChange(fee: int)                                  // `recordDateChange`
    | Reissue(refund: Option<int>)                          // `changeTicketStatus`
    | VisaEdit(service: Option<int>, embassy: Option<int>)  // `updateVisaCase`

  predicate NonNegative(amount: Option<int>) { amount.GetOr(0) >= 0 }

  predicate Sensible(a: Amendment) {
    match a
    case TicketEdit(_, fare) => NonNegative(fare)
    case DateChange(fee) => fee >= 0
    case Reissue(refund) => NonNegative(refund)
    case VisaEdit(service, embassy) => NonNegative(service) && NonNegative(embassy)
  }

  /** The price afterwards, when the call is one for this kind of sale; an absent figure stays. */
  function Amended(price: Price, a: Amendment): Option<Price> {
    match (price, a)
    case (TicketPrice(was, _, _), TicketEdit(_, fare)) => Some(price.(fare := fare.GetOr(was)))
    case (TicketPrice(_, _, _), DateChange(fee)) => Some(price.(dateChangeFee := fee))
    case (TicketPrice(_, _, was), Reissue(refund)) => Some(price.(refundAmount := refund.GetOr(was)))
    case (VisaPrice(service, embassy), VisaEdit(s, e)) => Some(VisaPrice(s.GetOr(service), e.GetOr(embassy)))
    case _ => None
  }

  function NewOwner(a: Amendment): Option<nat> { if a.TicketEdit? then a.owner else None }

  function AmendSale(db: Db, sale: nat, a: Amendment): Outcome {
    if !Sensible(a) then Err(Invalid)
    else if !LiveSale(db, sale) || Amended(db.sales[sale].price, a).None? then Err(NotFound)
    else if NewOwner(a).Some? && !LiveCustomer(db, NewOwner(a).value) then Err(NotFound)
    else
      var s := db.sales[sale];
      var amended := s.(customer := NewOwner(a).GetOr(s.customer), price := Amended(s.price, a).value);
      Ok(db.(sales := db.sales[sale := amended]))
  }

  /** The booking transitions, alike for Hajj, tours and hotels: cancelled and completed are final. */
  predicate MayBecome(from: BookingStatus, to: BookingStatus) {
    || (from == Reserved && (to == Confirmed || to == Cancelled))
    || (from == Confirmed && (to == Completed || to == Cancelled))
  }

  function StatusOf(price: Price): Option<BookingStatus> {
    match price
    case HajjPrice(_, status) => Some(status)
    case TourPrice(_, status) => Some(status)
    case HotelPrice(_, status) => Some(status)
    case _ => None
  }

  function WithStatus(price: Price, to: BookingStatus): Price {
    match price
    case HajjPrice(_, _) => price.(hajjStatus := to)
    case TourPrice(_, _) => price.(tourStatus := to)
    case HotelPrice(_, _) => price.(hotelStatus := to)
    case _ => price
  }

  function ChangeBookingStatus(db: Db, sale: nat, to: BookingStatus): Outcome {
    if !LiveSale(db, sale) || StatusOf(db.sales[sale].price).None? then Err(NotFound)
    else if !MayBecome(StatusOf(db.sales[sale].price).value, to) then Err(NotAllowed)
    else Ok(db.(sales := db.sales[sale := db.sales[sale].(price := WithStatus(db.sales[sale].price, to))]))
  }

  /* ----------------------------- receipts ------------------------------ */

  function NewReceipt(db: Db, r: ReceiptRequest): Receipt {
    Receipt(db.nextId, r.customer, r.account1, r.amount1, r.account2, r.amount2.GetOr(0), r.discount.GetOr(0), r.date)
  }

  function ReceiptPostings(r: Receipt): seq<Posting> {
    var first := Posting(r.account1, In, r.amount1, DueReceived, r.id);
    if r.account2.Some? && r.amount2 > 0
    then [first, Posting(r.account2.value, In, r.amount2, DueReceived, r.id)]
    else [first]
  }

  function AddReceipt(db: Db, r: Receipt): Db {
    db.(receipts := db.receipts + [r], postings := db.postings + ReceiptPostings(r), nextId := db.nextId + 1)
  }

  function CreateReceipt(db: Db, r: ReceiptRequest): Outcome {
    if r.amount1 <= 0 || r.amount2.GetOr(0) < 0 || r.discount.GetOr(0) < 0 then Err(Invalid)
    else if !LiveCustomer(db, r.customer) then Err(NotFound)
    else if r.account2 == Some(r.account1) then Err(SameAccount)
    else if r.account2.Some? && r.amount2.GetOr(0) <= 0 then Err(SecondAmountMissing)
    else if !Postable(db, r.account1) then Err(NotPostable(db, r.account1).value)
    else if r.account2.Some? && !Postable(db, r.account2.value) then Err(NotPostable(db, r.account2.value).value)
    else Ok(AddReceipt(db, NewReceipt(db, r)))
  }

  function OtherReceipts(id: nat): Receipt -> bool { (r: Receipt) => r.id != id }

  function DeleteReceipt(db: Db, id: nat): Outcome {
    if !(exists r :: r in db.receipts && r.id == id) then Err(NotFound)
    else Ok(db.(receipts := Where(db.receipts, OtherReceipts(id)),
                postings := Reverse(db.postings, DueReceived, id)))
  }

  function EditedReceipt(id: nat, discount: Option<int>, date: Option<int>): Receipt -> Receipt {
    (r: Receipt) => if r.id == id then r.(discount := discount.GetOr(r.discount), date := date.GetOr(r.date)) else r
  }

  /** Amounts and accounts of a receipt are never edited; its discount and date are. */
  function EditReceipt(db: Db, id: nat, discount: Option<int>, date: Option<int>): Outcome {
    if !NonNegative(discount) then Err(Invalid)
    else if !(exists r :: r in db.receipts && r.id == id) then Err(NotFound)
    else Ok(db.(receipts := Map(db.receipts, EditedReceipt(id, discount, date))))
  }

  /* ----------------------------- transfers ----------------------------- */

  function TransferPostings(t: Transfer): seq<Posting> {
    [Posting(t.source, Out, t.amount, TransferOut, t.id), Posting(t.target, In, t.amount, TransferIn, t.id)]
  }

  function AddTransfer(db: Db, t: Transfer): Db {
    db.(transfers := db.transfers + [t], postings := db.postings + TransferPostings(t), nextId := db.nextId + 1)
  }

  function CreateTransfer(db: Db, r: TransferRequest): Outcome {
    if r.amount <= 0 then Err(Invalid)
    else if r.source == r.target then Err(SameAccount)
    else if !LiveAccount(db, r.source) then Err(NotFound)
    else if Balance(db.postings, r.source) < r.amount then Err(Insufficient)
    else if !Postable(db, r.source) then Err(NotPostable(db, r.source).value)
    else if !Postable(db, r.target) then Err(NotPostable(db, r.target).value)
    else Ok(AddTransfer(db, Transfer(db.nextId, r.source, r.target, r.amount)))
  }

  function OtherTransfers(id: nat): Transfer -> bool { (t: Transfer) => t.id != id }

  function DeleteTransfer(db: Db, id: nat): Outcome {
    if !(exists t :: t in db.transfers && t.id == id) then Err(NotFound)
    else Ok(db.(transfers := Where(db.transfers, OtherTransfers(id)),
                postings := Reverse(Reverse(db.postings, TransferOut, id), TransferIn, id)))
  }

  /* ----------------- money in and out of the business ------------------ */

  function SourceOf(kind: FlowKind): Source {
    match kind
    case Invested => Investment
    case CapitalTaken => CapitalOut
    case ProfitTaken => ProfitOut
    case SupplierPaid => SupplierOut
    case Spent => ExpenseOut
    case PaidOut => PayoutOut
  }

  function FlowPostings(f: Flow): seq<Posting> {
    [Posting(f.account, if f.kind == Invested then In else Out, f.amount, SourceOf(f.kind), f.id)]
  }

  function AddFlow(db: Db, f: Flow): Db {
    db.(flows := db.flows + [f], postings := db.postings + FlowPostings(f), nextId := db.nextId + 1)
  }

  /** Unlike a transfer, no kind of flow asks what the account holds. */
  function EnterFlow(db: Db, a: nat, kind: FlowKind, amount: int): Outcome {
    if amount <= 0 then Err(Invalid)
    else if !Postable(db, a) then Err(NotPostable(db, a).value)
    else Ok(AddFlow(db, Flow(db.nextId, a, kind, amount)))
  }

  /** Investments and withdrawals of capital are rows of one table; every other kind has its own. */
  predicate SameTable(a: FlowKind, b: FlowKind) {
    a == b || (a in {Invested, CapitalTaken} && b in {Invested, CapitalTaken})
  }

  function OtherFlows(kind: FlowKind, id: nat): Flow -> bool { (f: Flow) => !(SameTable(f.kind, kind) && f.id == id) }

  function SourcesOf(kind: FlowKind): set<Source> {
    if kind in {Invested, CapitalTaken} then {Investment, CapitalOut} else {SourceOf(kind)}
  }

  function NotFromFlow(kind: FlowKind, id: nat): Posting -> bool {
    (p: Posting) => !(p.source in SourcesOf(kind) && p.sourceId == id)
  }

  function DeleteFlow(db: Db, kind: FlowKind, id: nat): Outcome {
    if !(exists f :: f in db.flows && SameTable(f.kind, kind) && f.id == id) then Err(NotFound)
    else Ok(db.(flows := Where(db.flows, OtherFlows(kind, id)), postings := Where(db.postings, NotFromFlow(kind, id))))
  }

  /* --------------------------- parties, sales -------------------------- */

  function AddCustomer(db: Db, openingDue: int): Outcome {
    Ok(db.(customers := db.customers + [Customer(openingDue, false)]))
  }

  function OpeningPostings(a: nat, opening: int): seq<Posting> {
    if opening == 0 then []
    else [Posting(a, if opening > 0 then In else Out, if opening > 0 then opening else -opening, Opening, a)]
  }

  function OpenAccount(db: Db, opening: int, active: bool): Outcome {
    Ok(db.(accounts := db.accounts + [Account(opening, active, false)],
           postings := db.postings + OpeningPostings(|db.accounts|, opening)))
  }

  function OffAccount(a: nat): Posting -> bool { (p: Posting) => p.account != a }

  /** Refused once money other than the opening entry has passed through the account. */
  function DeleteAccount(db: Db, a: nat): Outcome {
    if !LiveAccount(db, a) then Err(NotFound)
    else if exists u :: u in db.postings && u.account == a && u.source != Opening then Err(HasHistory)
    else Ok(db.(postings := Where(db.postings, OffAccount(a)),
                accounts := db.accounts[a := db.accounts[a].(active := false, deleted := true)]))
  }

  /** Tickets, visa cases, Hajj bookings and receipts are looked for; tour and hotel bookings are not. */
  predicate HoldsCustomer(s: Sale, c: nat) {
    s.customer == c && !s.deleted && s.price.Kind() in {Ticket, Visa, Hajj}
  }

  function DeleteCustomer(db: Db, c: nat): Outcome {
    if !LiveCustomer(db, c) then Err(NotFound)
    else if (exists s :: s in db.sales && HoldsCustomer(s, c)) || (exists r :: r in db.receipts && r.customer == c)
    then Err(HasHistory)
    else Ok(db.(customers := db.customers[c := db.customers[c].(deleted := true)]))
  }

  function EditCustomer(db: Db, c: nat, openingDue: Option<int>): Outcome {
    if !LiveCustomer(db, c) then Err(NotFound)
    else Ok(db.(customers := db.customers[c := db.customers[c].(openingDue := openingDue.GetOr(db.customers[c].openingDue))]))
  }

  function EditAccount(db: Db, a: nat, active: Option<bool>): Outcome {
    if !LiveAccount(db, a) then Err(NotFound)
    else Ok(db.(accounts := db.accounts[a := db.accounts[a].(active := active.GetOr(db.accounts[a].active))]))
  }

  function AddSale(db: Db, customer: nat, price: Price, date: int): Outcome {
    if price.Charge() < 0 then Err(Invalid)
    else if !LiveCustomer(db, customer) then Err(NotFound)
    else Ok(db.(sales := db.sales + [Sale(customer, price, date, false)]))
  }

  /* -------------------------------- runs ------------------------------- */

  datatype Op =
    | Pay(pay: PayRequest)
    | Unpay(sale: nat, payment: nat)
    | NewSale(buyer: nat, price: Price, date: int)
    | RemoveSale(removed: nat)
    | Edit(edited: nat, sell: int)
    | Amend(amended: nat, amendment: Amendment)
    | SetStatus(moved: nat, status: BookingStatus)
    | Collect(collect: ReceiptRequest)
    | Recollect(changed: nat, discount: Option<int>, dated: Option<int>)
    | Uncollect(receipt: nat)
    | Move(move: TransferRequest)
    | Unmove(transfer: nat)
    | Enter(account: nat, kind: FlowKind, value: int)
    | Unenter(kind: FlowKind, flow: nat)
    | NewCustomer(openingDue: int)
    | ChangeCustomer(customer: nat, due: Option<int>)
    | RemoveCustomer(gone: nat)
    | NewAccount(opening: int, open: bool)
    | ChangeAccount(switched: nat, active: Option<bool>)
    | CloseAccount(closed: nat)

  function Apply(db: Db, op: Op): Outcome {
    match op
    case Pay(r) => RecordPayment(db, r)
    case Unpay(sale, id) => DeletePayment(db, sale, id)
    case NewSale(c, price, date) => AddSale(db, c, price, date)
    case RemoveSale(sale) => DeleteSale(db, sale)
    case Edit(sale, sell) => Reprice(db, sale, sell)
    case Amend(sale, a) => AmendSale(db, sale, a)
    case SetStatus(sale, to) => ChangeBookingStatus(db, sale, to)
    case Collect(r) => CreateReceipt(db, r)
    case Recollect(id, discount, date) => EditReceipt(db, id, discount, date)
    case Uncollect(id) => DeleteReceipt(db, id)
    case Move(r) => CreateTransfer(db, r)
    case Unmove(id) => DeleteTransfer(db, id)
    case Enter(a, kind, amount) => EnterFlow(db, a, kind, amount)
    case Unenter(kind, id) => DeleteFlow(db, kind, id)
    case NewCustomer(due) => AddCustomer(db, due)
    case ChangeCustomer(c, due) => EditCustomer(db, c, due)
    case RemoveCustomer(c) => DeleteCustomer(db, c)
    case NewAccount(opening, active) => OpenAccount(db, opening, active)
    case ChangeAccount(a, active) => EditAccount(db, a, active)
    case CloseAccount(a) => DeleteAccount(db, a)
  }

  /** A refused call leaves the rows alone. */
  function After(db: Db, op: Op): Db { if Apply(db, op).Ok? then Apply(db, op).value else db }

  function Run(db: Db, ops: seq<Op>): Db {
    if ops == [] then db else After(Run(db, ops[..|ops| - 1]), ops[|ops| - 1])
  }

  lemma {:induction false} RunConcat(db: Db, first: seq<Op>, then_: seq<Op>)
    ensures Run(db, first + then_) == Run(Run(db, first), then_)
  {
    if then_ == [] {
      assert first + then_ == first;
    } else {
      assert (first + then_)[..|first + then_| - 1] == first + then_[..|then_| - 1];
      RunConcat(db, first, then_[..|then_| - 1]);
    }
  }

  const EMPTY := Db([], [], [], [], [], [], [], [], 0)
}
