/**
 * The rows an agency's money is derived from, and the figures derived from them.
 *
 * Amounts are whole paisa. Customers, accounts and sales are only ever
 * soft-deleted, so the row number is the id; payments, receipts, transfers, flows
 * and postings are hard-deleted and carry an id drawn from `nextId`. One id space
 * serves all five kinds of sale and payment, as UUIDs do.
 */
module Books {
  import opened Wrappers
  import opened Rows

  datatype SaleKind = Ticket | Visa | Hajj | Tour | Hotel

  datatype BookingStatus = Reserved | Confirmed | Completed | Cancelled

  datatype Price =
    | TicketPrice(fare: int, dateChangeFee: int, refundAmount: int)
    | VisaPrice(serviceFee: int, embassyFee: int)
    | HajjPrice(packagePrice: int, hajjStatus: BookingStatus)
    | TourPrice(tourSell: int, tourStatus: BookingStatus)
    | HotelPrice(hotelSell: int, hotelStatus: BookingStatus)
  {
    function Kind(): SaleKind {
      match this
      case TicketPrice(_, _, _) => Ticket
      case VisaPrice(_, _) => Visa
      case HajjPrice(_, _) => Hajj
      case TourPrice(_, _) => Tour
      case HotelPrice(_, _) => Hotel
    }

    /** The ceiling on what may be taken against the sale. */
    function Charge(): int {
      match this
      case TicketPrice(fare, fee, refund) => fare + fee - refund
      case VisaPrice(service, embassy) => service + embassy
      case HajjPrice(price, _) => price
      case TourPrice(sell, _) => sell
      case HotelPrice(sell, _) => sell
    }

    /** What the sale adds to its customer's bill: a cancelled booking adds nothing. */
    function Billed(): int {
      match this
      case HajjPrice(price, status) => if status == Cancelled then 0 else price
      case TourPrice(sell, status) => if status == Cancelled then 0 else sell
      case HotelPrice(sell, status) => if status == Cancelled then 0 else sell
      case _ => Charge()
    }
  }

  datatype Customer = Customer(openingDue: int, deleted: bool)
  datatype Account = Account(opening: int, active: bool, deleted: bool)
  datatype Sale = Sale(customer: nat, price: Price, date: int, deleted: bool)
  datatype Payment = Payment(id: nat, sale: nat, amount: int, fromWallet: bool, account: Option<nat>, paidAt: int)
  datatype Receipt = Receipt(id: nat, customer: nat, account1: nat, amount1: int,
                             account2: Option<nat>, amount2: int, discount: int, date: int)
  datatype Transfer = Transfer(id: nat, source: nat, target: nat, amount: int)

  /** Money that enters or leaves the business by itself: only an owner's investment enters. */
  datatype FlowKind = Invested | CapitalTaken | ProfitTaken | SupplierPaid | Spent | PaidOut
  datatype Flow = Flow(id: nat, account: nat, kind: FlowKind, amount: int)

  datatype Direction = In | Out
  datatype Source = Opening | SalesPayment | DueReceived | TransferOut | TransferIn
                  | Investment | CapitalOut | ProfitOut | SupplierOut | ExpenseOut | PayoutOut
  datatype Posting = Posting(account: nat, direction: Direction, amount: int, source: Source, sourceId: nat)

  datatype Db = Db(
    customers: seq<Customer>, accounts: seq<Account>, sales: seq<Sale>,
    payments: seq<Payment>, receipts: seq<Receipt>, transfers: seq<Transfer>, flows: seq<Flow>,
    postings: seq<Posting>, nextId: nat)

  predicate LiveCustomer(db: Db, c: nat) { c < |db.customers| && !db.customers[c].deleted }
  predicate LiveAccount(db: Db, a: nat) { a < |db.accounts| && !db.accounts[a].deleted }
  predicate LiveSale(db: Db, s: nat) { s < |db.sales| && !db.sales[s].deleted }

  /* ------------------------- money on one sale ------------------------- */

  function AmountOn(sale: nat): Payment -> int { (p: Payment) => if p.sale == sale then p.amount else 0 }

  function Paid(payments: seq<Payment>, sale: nat): int { Sum(payments, AmountOn(sale)) }

  /* ------------------------------ wallet ------------------------------- */

  predicate BelongsTo(sales: seq<Sale>, p: Payment, c: nat) {
    p.sale < |sales| && sales[p.sale].customer == c
  }

  /** One of the five per-table sums of wallet payments. */
  function WalletSpend(sales: seq<Sale>, c: nat, kind: SaleKind): Payment -> int {
    (p: Payment) => if p.fromWallet && BelongsTo(sales, p, c) && sales[p.sale].price.Kind() == kind then p.amount else 0
  }

  function SpentOn(db: Db, c: nat, kind: SaleKind): int { Sum(db.payments, WalletSpend(db.sales, c, kind)) }

  function UsedUp(db: Db, c: nat): int {
    SpentOn(db, c, Ticket) + SpentOn(db, c, Visa) + SpentOn(db, c, Hajj) + SpentOn(db, c, Tour) + SpentOn(db, c, Hotel)
  }

  function ReceivedFrom(c: nat): Receipt -> int { (r: Receipt) => if r.customer == c then r.amount1 + r.amount2 else 0 }

  function PaidIn(receipts: seq<Receipt>, c: nat): int { Sum(receipts, ReceivedFrom(c)) }

  function WalletBalance(db: Db, c: nat): int { PaidIn(db.receipts, c) - UsedUp(db, c) }

  /* ----------------------------- accounts ------------------------------ */

  function Signed(p: Posting): int { if p.direction == In then p.amount else -p.amount }

  function MovedOn(account: nat): Posting -> int { (p: Posting) => if p.account == account then Signed(p) else 0 }

  function Balance(postings: seq<Posting>, account: nat): int { Sum(postings, MovedOn(account)) }

  /* ---------------------------- customer due --------------------------- */

  function BilledTo(c: nat): Sale -> int { (s: Sale) => if s.customer == c && !s.deleted then s.price.Billed() else 0 }

  /** A cash payment on a sale that still exists; a wallet payment credits nothing. */
  function CreditTo(sales: seq<Sale>, c: nat): Payment -> int {
    (p: Payment) => if !p.fromWallet && BelongsTo(sales, p, c) && !sales[p.sale].deleted then p.amount else 0
  }

  function DiscountTo(c: nat): Receipt -> int { (r: Receipt) => if r.customer == c then r.discount else 0 }

  function TotalPurchase(db: Db, c: nat): int { Sum(db.sales, BilledTo(c)) }

  function Collections(db: Db, c: nat): int { Sum(db.payments, CreditTo(db.sales, c)) + PaidIn(db.receipts, c) }

  function TotalDiscount(db: Db, c: nat): int { Sum(db.receipts, DiscountTo(c)) }

  function CurrentDue(db: Db, c: nat): int
    requires c < |db.customers|
  {
    db.customers[c].openingDue + TotalPurchase(db, c) - Collections(db, c) - TotalDiscount(db, c)
  }
}
