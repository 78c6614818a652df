/**
 * Payments and transfers as statement-by-statement transactions under READ
 * COMMITTED.
 *
 * Every statement reads the rows committed at that moment. A transaction's own
 * inserts stay in the transaction until it commits, and `lockRow` holds its lock
 * until the transaction ends. Any number of transactions interleave, together
 * with whole calls of every other kind. New rows get their id when they are
 * committed: nobody can see a UUID before that.
 */
module Protocol {
  import opened Wrappers
  import opened Books
  import opened Calls

  datatype Lock = CustomerLock(customer: nat) | SaleLock(sale: nat) | AccountLock(account: nat)

  /** The six statements of `balanceOf`, sent together and answered in any order. */
  datatype Query = Receipts | Spend(kind: SaleKind)

  const WALLET_QUERIES: set<Query> :=
    {Receipts, Spend(Ticket), Spend(Visa), Spend(Hajj), Spend(Tour), Spend(Hotel)}

  /** The statement a payment sends next, with what it has read so far. */
  datatype PayStep =
    | ReadOwner
    | LockCustomer(owner: nat)
    | LockSale(payer: Option<nat>)
    | ReRead(payer: Option<nat>)
    | SumWallet(payee: nat, charge: int, todo: set<Query>, paidIn: int, usedUp: int)
    | CheckAccount(charge: int)
    | SumPaid(charge: int)
    | InsertPayment
    | PostPayment
    | CommitPayment
    | Settled
    | Refused(error: Error)

  datatype MoveStep =
    | LockSource
    | ReadBalance
    | CheckSource
    | CheckTarget
    | InsertTransfer
    | PostOut
    | PostIn
    | CommitTransfer
    | Moved
    | Declined(error: Error)

  datatype Txn = Paying(pay: PayRequest, at: PayStep) | Moving(move: TransferRequest, next: MoveStep) {
    predicate Finished() {
      match this
      case Paying(_, at) => at.Settled? || at.Refused?
      case Moving(_, next) => next.Moved? || next.Declined?
    }

    predicate Committing() {
      match this
      case Paying(_, at) => at.CommitPayment?
      case Moving(_, next) => next.CommitTransfer?
    }
  }

  /** Everything up to the first statement: request validation and the checks before the transaction. */
  function StartPayment(r: PayRequest): Txn {
    if r.amount <= 0 then Paying(r, Refused(Invalid))
    else if !r.fromWallet && r.account.None? then Paying(r, Refused(AccountRequired))
    else Paying(r, if r.fromWallet then ReadOwner else LockSale(None))
  }

  function StartTransfer(r: TransferRequest): Txn {
    if r.amount <= 0 then Moving(r, Declined(Invalid))
    else if r.source == r.target then Moving(r, Declined(SameAccount))
    else Moving(r, LockSource)
  }

  /** The row lock the next statement asks for; a missing or deleted row is not waited for. */
  function Wants(db: Db, txn: Txn): Option<Lock> {
    match txn
    case Paying(_, LockCustomer(c)) => if LiveCustomer(db, c) then Some(CustomerLock(c)) else None
    case Paying(r, LockSale(_)) => if LiveSale(db, r.sale) then Some(SaleLock(r.sale)) else None
    case Moving(r, LockSource) => if LiveAccount(db, r.source) then Some(AccountLock(r.source)) else None
    case _ => None
  }

  function NextPayStep(db: Db, r: PayRequest, at: PayStep): PayStep {
    match at
    case ReadOwner =>
      if LiveSale(db, r.sale) then LockCustomer(db.sales[r.sale].customer) else Refused(NotFound)
    case LockCustomer(c) =>
      if LiveCustomer(db, c) then LockSale(Some(c)) else Refused(NotFound)
    case LockSale(payer) =>
      if LiveSale(db, r.sale) then ReRead(payer) else Refused(NotFound)
    case ReRead(payer) =>
      if !LiveSale(db, r.sale) then Refused(NotFound)
      else if payer.Some? && payer.value != db.sales[r.sale].customer then Refused(OwnerChanged)
      else
        var charge := db.sales[r.sale].price.Charge();
        if r.fromWallet then SumWallet(db.sales[r.sale].customer, charge, WALLET_QUERIES, 0, 0) else CheckAccount(charge)
    case SumWallet(_, charge, _, paidIn, usedUp) =>
      if r.amount > paidIn - usedUp then Refused(WalletShort) else SumPaid(charge)
    case CheckAccount(charge) =>
      if r.account.None? then Refused(AccountRequired)
      else if !Postable(db, r.account.value) then Refused(NotPostable(db, r.account.value).value)
      else SumPaid(charge)
    case SumPaid(charge) =>
      if r.amount > charge - Paid(db.payments, r.sale) then Refused(Overpaid) else InsertPayment
    case InsertPayment => if r.fromWallet then CommitPayment else PostPayment
    case PostPayment =>
      if r.account.None? then Refused(AccountRequired)
      else if !Postable(db, r.account.value) then Refused(NotPostable(db, r.account.value).value)
      else CommitPayment
    case CommitPayment => Settled
    case Settled => Settled
    case Refused(e) => Refused(e)
  }

  function NextMoveStep(db: Db, r: TransferRequest, next: MoveStep): MoveStep {
    var checked := (a: nat, then_: MoveStep) =>
      if Postable(db, a) then then_ else Declined(NotPostable(db, a).value);
    match next
    case LockSource => if LiveAccount(db, r.source) then ReadBalance else Declined(NotFound)
    case ReadBalance =>
      if !LiveAccount(db, r.source) then Declined(NotFound)
      else if Balance(db.postings, r.source) < r.amount then Declined(Insufficient)
      else CheckSource
    case CheckSource => checked(r.source, CheckTarget)
    case CheckTarget => checked(r.target, InsertTransfer)
    case InsertTransfer => PostOut
    case PostOut => checked(r.source, PostIn)
    case PostIn => checked(r.target, CommitTransfer)
    case CommitTransfer => Moved
    case Moved => Moved
    case Declined(e) => Declined(e)
  }

  function NextStep(db: Db, txn: Txn): Txn {
    match txn
    case Paying(r, at) => Paying(r, NextPayStep(db, r, at))
    case Moving(r, next) => Moving(r, NextMoveStep(db, r, next))
  }

  /** COMMIT publishes the buffered rows all at once. */
  function Publish(db: Db, txn: Txn): Db {
    match txn
    case Paying(r, CommitPayment) => AddPayment(db, NewPayment(db, r))
    case Moving(r, CommitTransfer) => AddTransfer(db, Transfer(db.nextId, r.source, r.target, r.amount))
    case _ => db
  }

  datatype State = State(db: Db, txns: seq<Txn>, locks: map<Lock, nat>)

  datatype Event =
    | BeginPayment(pay: PayRequest)
    | BeginTransfer(move: TransferRequest)
    | Advance(txn: nat)
    | Answer(txn: nat, query: Query)
    | Outside(op: Op)
    | WritePrice(priced: nat, sell: int)   // the UPDATE of a price edit, which checked what was paid some time before

  /** Every call but payments and transfers, which go statement by statement. */
  predicate IsWhole(op: Op) { !op.Pay? && !op.Move? }

  /** The calls that leave every charge, every owner, every usable account and every receipt's money standing. */
  predicate Quiet(op: Op) {
    || op.NewSale? || op.SetStatus? || op.RemoveSale? || op.Unpay? || op.Unmove?
    || op.Collect? || op.Recollect? || op.Enter? || op.Unenter?
    || op.NewCustomer? || op.ChangeCustomer? || op.NewAccount? || (op.ChangeAccount? && op.active != Some(false))
  }

  predicate QuietEvent(e: Event) { !e.WritePrice? && (e.Outside? ==> Quiet(e.op)) }

  predicate AllQuiet(events: seq<Event>) { forall e :: e in events ==> QuietEvent(e) }

  /** A call's own UPDATE of a row waits for whoever holds that row. */
  predicate Blocked(s: State, op: Op) {
    match op
    case RemoveSale(sale) => SaleLock(sale) in s.locks
    case Edit(sale, _) => SaleLock(sale) in s.locks
    case Amend(sale, _) => SaleLock(sale) in s.locks
    case SetStatus(sale, _) => SaleLock(sale) in s.locks
    case CloseAccount(a) => AccountLock(a) in s.locks
    case ChangeAccount(a, _) => AccountLock(a) in s.locks
    case RemoveCustomer(c) => CustomerLock(c) in s.locks
    case ChangeCustomer(c, _) => CustomerLock(c) in s.locks
    case _ => false
  }

  /** Waiting for the six wallet sums: `Answer` events, not `Advance`, move it on. */
  predicate Summing(txn: Txn) { txn.Paying? && txn.at.SumWallet? && txn.at.todo != {} }

  predicate CanAdvance(s: State, t: nat) {
    && t < |s.txns| && !s.txns[t].Finished() && !Summing(s.txns[t])
    && (Wants(s.db, s.txns[t]).Some? ==> Wants(s.db, s.txns[t]).value !in s.locks)
  }

  predicate CanAnswer(s: State, t: nat, q: Query) {
    t < |s.txns| && Summing(s.txns[t]) && q in s.txns[t].at.todo
  }

  function AnswerWallet(db: Db, at: PayStep, q: Query): PayStep
    requires at.SumWallet?
  {
    match q
    case Receipts => at.(todo := at.todo - {q}, paidIn := at.paidIn + PaidIn(db.receipts, at.payee))
    case Spend(kind) => at.(todo := at.todo - {q}, usedUp := at.usedUp + SpentOn(db, at.payee, kind))
  }

  /** All of a finished transaction's locks go at once. */
  function Release(locks: map<Lock, nat>, t: nat): map<Lock, nat> { map l | l in locks && locks[l] != t :: locks[l] }

  function AdvanceTo(s: State, t: nat): State
    requires t < |s.txns|
  {
    var txn := s.txns[t];
    var moved := NextStep(s.db, txn);
    var wanted := Wants(s.db, txn);
    var locks := if wanted.Some? then s.locks[wanted.value := t] else s.locks;
    State(Publish(s.db, txn), s.txns[t := moved], if moved.Finished() then Release(locks, t) else locks)
  }

  /** A booking whose price has been overwritten. */
  function Rewritten(db: Db, sale: nat, sell: int): Db
    requires sale < |db.sales| && db.sales[sale].price.Kind() in {Tour, Hotel}
  {
    db.(sales := db.sales[sale := db.sales[sale].(price := Resell(db.sales[sale].price, sell))])
  }

  /** One event, or `None` when it cannot happen now. */
  function Next(s: State, e: Event): Option<State> {
    match e
    case BeginPayment(r) => Some(s.(txns := s.txns + [StartPayment(r)]))
    case BeginTransfer(r) => Some(s.(txns := s.txns + [StartTransfer(r)]))
    case Advance(t) => if CanAdvance(s, t) then Some(AdvanceTo(s, t)) else None
    case Answer(t, q) =>
      if CanAnswer(s, t, q)
      then Some(s.(txns := s.txns[t := Paying(s.txns[t].pay, AnswerWallet(s.db, s.txns[t].at, q))]))
      else None
    case Outside(op) =>
      if IsWhole(op) && !Blocked(s, op) && Apply(s.db, op).Ok?
      then Some(s.(db := Apply(s.db, op).value)) else None
    case WritePrice(sale, sell) =>
      if sell >= 0 && sale < |s.db.sales| && s.db.sales[sale].price.Kind() in {Tour, Hotel} && SaleLock(sale) !in s.locks
      then Some(s.(db := Rewritten(s.db, sale, sell))) else None
  }

  /** `s'` is reached from `s` by these events, each possible when it happens. */
  predicate Reaches(s: State, events: seq<Event>, s': State)
    decreases |events|
  {
    if events == [] then s' == s
    else Next(s, events[0]).Some? && Reaches(Next(s, events[0]).value, events[1..], s')
  }

  function Start(db: Db): State { State(db, [], map[]) }
}
