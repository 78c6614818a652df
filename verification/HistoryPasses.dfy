/** What each pass of the trading-history import does to the books, as state changes. */
module HistoryPasses {
  import opened Wrappers
  import opened Rows
  import opened Books
  import opened Calls
  import opened History

  datatype Entity = TicketRecord | TicketPaymentRecord | MovementRecord(tab: Tab) | CategoryRecord

  datatype Failure =
    | Refused(error: Error)          // a service refused the row: inactive account, deleted customer, overpayment
    | NameTaken                      // a category with this name exists, possibly deleted
    | DateChangeRefused
    | StatusRefused
    | NoAccounts

  type Recorded = seq<(Entity, nat)>

  /** Everything the import writes to. */
  datatype Tables = Tables(db: Db, tickets: seq<Ticket>, movements: seq<(nat, Movement)>, categories: seq<Category>)

  type Passed = Result<Tables, Failure>

  function TicketKeyOf(text: Text, t: Ticket): TicketKey {
    TicketKey(text.normalise(t.pnr), if t.issueDate.Some? then Some(Day(t.issueDate.value)) else None)
  }

  function TicketKeys(text: Text, db: Db, tickets: seq<Ticket>): set<TicketKey> {
    set t | t in tickets && LiveSale(db, t.sale) :: TicketKeyOf(text, t)
  }

  function ReceiptKey(r: Receipt): Key { PartyKey(Collections, r.customer, Day(r.date), r.amount1, r.account1) }

  /** The keys of the rows one tab's loop reads before it starts. */
  function Keys(text: Text, t: Tables, tab: Tab): set<Key> {
    if tab == Collections then set r | r in t.db.receipts :: ReceiptKey(r)
    else set m | m in t.movements && m.1.Tab() == tab :: KeyOf(text, m.1)
  }

  /** Foreign keys, and the stored profit that only `persistProfit` writes. */
  predicate Valid(t: Tables) {
    && (forall p :: p in t.db.payments ==> p.sale < |t.db.sales|)
    && (forall k :: k in t.tickets ==> k.sale < |t.db.sales| && t.db.sales[k.sale].price.TicketPrice?)
    && (forall i, j :: 0 <= i < j < |t.tickets| ==> t.tickets[i].sale != t.tickets[j].sale)
    && (forall k :: k in t.tickets ==> k.profit == t.db.sales[k.sale].price.Charge() - k.cost - k.changeCost)
  }

  /** The flow a row of a single-posting tab is. */
  function FlowOf(m: Movement): FlowKind
    requires !m.Collection?
  {
    match m
    case SupplierPayment(_, _, _, _) => SupplierPaid
    case Expense(_, _, _, _) => Spent
    case CapitalFlow(invested, _, _, _, _) => if invested then Invested else CapitalTaken
    case ProfitWithdrawal(_, _, _, _) => ProfitTaken
  }

  /** `createDueReceived`, or one of the single-posting create calls, with the columns the import looks at. */
  function Create(t: Tables, m: Movement): Passed {
    match m
    case Collection(c, date, amount, account) =>
      (match CreateReceipt(t.db, ReceiptRequest(c, account, amount, None, None, None, date))
       case Ok(db) => Ok(t.(db := db))
       case Err(e) => Err(Refused(e)))
    case _ =>
      match EnterFlow(t.db, m.account, FlowOf(m), m.amount)
      case Ok(db) => Ok(t.(db := db, movements := t.movements + [(t.db.nextId, m)]))
      case Err(e) => Err(Refused(e))
  }

  lemma CreateAddsKey(text: Text, t: Tables, m: Movement)
    requires Create(t, m).Ok?
    ensures var t' := Create(t, m).value;
            && Keys(text, t', m.Tab()) == Keys(text, t, m.Tab()) + {KeyOf(text, m)}
            && (forall tab :: tab != m.Tab() ==> Keys(text, t', tab) == Keys(text, t, tab))
            && t'.tickets == t.tickets && t'.categories == t.categories
            && t'.db.sales == t.db.sales && t'.db.payments == t.db.payments
  {
    var t' := Create(t, m).value;
    if m.Collection? {
      var r := t'.db.receipts[|t'.db.receipts| - 1];
      assert t'.db.receipts == t.db.receipts + [r] && ReceiptKey(r) == KeyOf(text, m);
      assert Keys(text, t', Collections) == Keys(text, t, Collections) + {KeyOf(text, m)} by {
        assert forall q :: q in t'.db.receipts <==> q in t.db.receipts || q == r;
      }
    } else {
      assert forall q :: q in t'.movements <==> q in t.movements || q == (t.db.nextId, m);
    }
  }

  lemma CreateKeys(text: Text, t: Tables, m: Movement)
    ensures Create(t, m).Ok? ==> Keys(text, Create(t, m).value, m.Tab()) == Keys(text, t, m.Tab()) + {KeyOf(text, m)}
  {
    if Create(t, m).Ok? {
      CreateAddsKey(text, t, m);
    }
  }

  /* -------------------- the rollback list is exact --------------------- */

  function TicketId(): Ticket -> seq<nat> { (k: Ticket) => [k.sale] }
  function PaymentId(): Payment -> seq<nat> { (p: Payment) => [p.id] }
  function ReceiptId(): Receipt -> seq<nat> { (r: Receipt) => [r.id] }
  function CategoryId(): Category -> seq<nat> { (c: Category) => [c.id] }
  function MovementId(tab: Tab): ((nat, Movement)) -> seq<nat> {
    (m: (nat, Movement)) => if m.1.Tab() == tab then [m.0] else []
  }

  /** The ids of the rows of one kind, oldest first. */
  function Ids(t: Tables, e: Entity): seq<nat> {
    match e
    case TicketRecord => FlatMap(t.tickets, TicketId())
    case TicketPaymentRecord => FlatMap(t.db.payments, PaymentId())
    case CategoryRecord => FlatMap(t.categories, CategoryId())
    case MovementRecord(tab) =>
      if tab == Collections then FlatMap(t.db.receipts, ReceiptId()) else FlatMap(t.movements, MovementId(tab))
  }

  function OfEntity(e: Entity): ((Entity, nat)) -> seq<nat> { (r: (Entity, nat)) => if r.0 == e then [r.1] else [] }

  /** `recorded` lists the rows added since `start`, all of them and no others, kind by kind in order. */
  ghost predicate RecordsExactly(start: Tables, t: Tables, recorded: Recorded) {
    forall e :: Ids(t, e) == Ids(start, e) + FlatMap(recorded, OfEntity(e))
  }

  /** The kind of row whose id a posting of this source carries. */
  function PostedBy(source: Source): Option<Entity> {
    match source
    case SalesPayment => Some(TicketPaymentRecord)
    case DueReceived => Some(MovementRecord(Collections))
    case Investment => Some(MovementRecord(Capital))
    case CapitalOut => Some(MovementRecord(Capital))
    case ProfitOut => Some(MovementRecord(ProfitWithdrawals))
    case SupplierOut => Some(MovementRecord(SupplierPayments))
    case ExpenseOut => Some(MovementRecord(Expenses))
    case _ => None
  }

  /** The postings written since `start`. */
  function Posted(start: Tables, t: Tables): seq<Posting> {
    if |start.db.postings| <= |t.db.postings| then t.db.postings[|start.db.postings|..] else []
  }

  /** The ledger only grew, and every posting written since `start` carries the id of a recorded row. */
  ghost predicate PostsRecorded(start: Tables, t: Tables, recorded: Recorded) {
    && start.db.postings <= t.db.postings
    && forall p :: p in Posted(start, t) ==> PostedBy(p.source).Some? && (PostedBy(p.source).value, p.sourceId) in recorded
  }

  /** One kind of row grew by one; the other kinds did not; whatever was posted carries the new row's id. */
  ghost predicate AddsOne(t: Tables, t': Tables, e: Entity, id: nat) {
    && Ids(t', e) == Ids(t, e) + [id]
    && (forall other :: other != e ==> Ids(t', other) == Ids(t, other))
    && PostsRecorded(t, t', [(e, id)])
  }

  lemma RecordOne(start: Tables, t: Tables, t': Tables, recorded: Recorded, e: Entity, id: nat)
    requires RecordsExactly(start, t, recorded) && AddsOne(t, t', e, id)
    ensures RecordsExactly(start, t', recorded + [(e, id)])
  {
    forall k ensures Ids(t', k) == Ids(start, k) + FlatMap(recorded + [(e, id)], OfEntity(k)) {
      FlatMapAppend(recorded, (e, id), OfEntity(k));
      assert Ids(t, k) == Ids(start, k) + FlatMap(recorded, OfEntity(k));
      var more: seq<nat> := if k == e then [id] else [];
      assert OfEntity(k)((e, id)) == more;
      Regrouped(Ids(start, k), FlatMap(recorded, OfEntity(k)), more);
      assert Ids(t', k) == Ids(t, k) + more;
    }
  }

  lemma PostOne(start: Tables, t: Tables, t': Tables, recorded: Recorded, e: Entity, id: nat)
    requires PostsRecorded(start, t, recorded) && AddsOne(t, t', e, id)
    ensures PostsRecorded(start, t', recorded + [(e, id)])
  {
    assert Posted(start, t') == Posted(start, t) + Posted(t, t');
  }

  lemma Regrouped(a: seq<nat>, b: seq<nat>, c: seq<nat>)
    ensures (a + b) + c == a + (b + c)
  {
  }

  lemma CreatePosts(t: Tables, m: Movement)
    requires Create(t, m).Ok?
    ensures PostsRecorded(t, Create(t, m).value, [(MovementRecord(m.Tab()), t.db.nextId)])
  {
    var t' := Create(t, m).value;
    if m.Collection? {
      var r := t'.db.receipts[|t.db.receipts|];
      assert Posted(t, t') == ReceiptPostings(r);
    } else {
      var f := t'.db.flows[|t.db.flows|];
      assert Posted(t, t') == FlowPostings(f) && f.id == t.db.nextId;
    }
  }

  lemma CreateAddsOne(t: Tables, m: Movement)
    requires Create(t, m).Ok?
    ensures AddsOne(t, Create(t, m).value, MovementRecord(m.Tab()), t.db.nextId)
  {
    var t', id := Create(t, m).value, t.db.nextId;
    forall e: Entity ensures Ids(t', e) == Ids(t, e) + if e == MovementRecord(m.Tab()) then [id] else [] {
      CreateAddsRow(t, m, e);
    }
    CreatePosts(t, m);
  }

  lemma CreateAddsRow(t: Tables, m: Movement, e: Entity)
    requires Create(t, m).Ok?
    ensures Ids(Create(t, m).value, e) == Ids(t, e) + if e == MovementRecord(m.Tab()) then [t.db.nextId] else []
  {
    var t', id := Create(t, m).value, t.db.nextId;
    if e.MovementRecord? {
      if m.Collection? && e.tab == Collections {
        FlatMapAppend(t.db.receipts, t'.db.receipts[|t.db.receipts|], ReceiptId());
      } else if !m.Collection? {
        FlatMapAppend(t.movements, (id, m), MovementId(e.tab));
      }
    }
  }

  /* -------------------- one pass, as a state change -------------------- */

  /** One row of a money tab: skipped when it asks for nothing or its key is already there. */
  function MovementRow(text: Text, lists: Lists, t: Tables, tab: Tab, line: Line): Passed {
    var plan := Plan(lists, tab, line);
    if plan.None? || KeyOf(text, plan.value) in Keys(text, t, tab) then Ok(t) else Create(t, plan.value)
  }

  function MovementPass(text: Text, lists: Lists, t: Tables, tab: Tab, lines: seq<Line>): Passed {
    if lines == [] then Ok(t)
    else
      var before := MovementPass(text, lists, t, tab, lines[..|lines| - 1]);
      if before.Err? then before else MovementRow(text, lists, before.value, tab, lines[|lines| - 1])
  }

  function WithCategory(t: Tables, name: string): Tables {
    t.(categories := t.categories + [Category(t.db.nextId, name, false)], db := t.db.(nextId := t.db.nextId + 1))
  }

  /** `createCategory`: the name must be free among deleted categories too. */
  function CreateCategory(text: Text, t: Tables, name: string): Passed {
    if exists c :: c in t.categories && text.sameName(c.name, name) then Err(NameTaken)
    else Ok(WithCategory(t, name))
  }

  function ExpenseOf(lists: Lists, l: Line, category: nat): Movement
    requires CompleteExpense(lists, l)
  {
    Expense(category, l.date.value, l.amount.value, lists.account(l.account).value)
  }

  /** One expense row, once its category exists. */
  function ExpenseIn(text: Text, lists: Lists, t: Tables, l: Line, category: nat): Passed
    requires CompleteExpense(lists, l)
  {
    var m := ExpenseOf(lists, l, category);
    if KeyOf(text, m) in Keys(text, t, Expenses) then Ok(t) else Create(t, m)
  }

  /** One expense row: its category is made first if no live one has the name. */
  function ExpenseRow(text: Text, lists: Lists, t: Tables, l: Line): Passed {
    if !CompleteExpense(lists, l) then Ok(t)
    else
      var byName := ByName(text, t.categories);
      var name := text.normalise(l.name.value);
      if name in byName then ExpenseIn(text, lists, t, l, byName[name])
      else
        match CreateCategory(text, t, l.name.value)
        case Err(e) => Err(e)
        case Ok(t') => ExpenseIn(text, lists, t', l, t.db.nextId)
  }

  function ExpensePass(text: Text, lists: Lists, t: Tables, lines: seq<Line>): Passed {
    if lines == [] then Ok(t)
    else
      var before := ExpensePass(text, lists, t, lines[..|lines| - 1]);
      if before.Err? then before else ExpenseRow(text, lists, before.value, lines[|lines| - 1])
  }

  /* ------------------------------ tickets ------------------------------ */

  /** `createTicket`: the PNR is stored upper-cased. */
  function CreateTicket(text: Text, t: Tables, customer: nat, r: TicketRow): Passed
    requires Complete(r)
  {
    if !LiveCustomer(t.db, customer) then Err(Refused(NotFound))
    else
      var sale := Sale(customer, TicketPrice(r.fare.value, 0, 0), r.issueDate.value, false);
      var ticket := History.Ticket.Ticket(|t.db.sales|, text.upper(r.pnr.value), r.issueDate, Issued,
                                          r.cost.value, 0, r.fare.value - r.cost.value);
      Ok(t.(db := t.db.(sales := t.db.sales + [sale]), tickets := t.tickets + [ticket]))
  }

  /** Ticket number `k` is a live one. */
  predicate Found(t: Tables, k: nat) {
    k < |t.tickets| && LiveSale(t.db, t.tickets[k].sale) && t.db.sales[t.tickets[k].sale].price.TicketPrice?
  }

  /** Writes the ticket and its price, then `persistProfit`. */
  function Update(t: Tables, k: nat, ticket: Ticket, price: Price): Tables
    requires Found(t, k) && ticket.sale == t.tickets[k].sale
  {
    var sale := t.db.sales[ticket.sale];
    var profit := price.Charge() - (ticket.cost + ticket.changeCost);
    t.(db := t.db.(sales := t.db.sales[ticket.sale := sale.(price := price)]),
       tickets := t.tickets[k := ticket.(profit := profit)])
  }

  function RecordDateChange(t: Tables, k: nat, cost: int, fee: int): Passed {
    if !Found(t, k) then Err(Refused(NotFound))
    else if t.tickets[k].status == Refunded || t.tickets[k].status == Void then Err(DateChangeRefused)
    else Ok(Update(t, k, t.tickets[k].(changeCost := cost), t.db.sales[t.tickets[k].sale].price.(dateChangeFee := fee)))
  }

  function ChangeStatus(t: Tables, k: nat, to: TicketStatus, refund: Option<int>): Passed {
    if !Found(t, k) then Err(Refused(NotFound))
    else if !Allowed(t.tickets[k].status, to) || (to == Refunded && refund.None?) then Err(StatusRefused)
    else
      var price := t.db.sales[t.tickets[k].sale].price;
      Ok(Update(t, k, t.tickets[k].(status := to), if refund.Some? then price.(refundAmount := refund.value) else price))
  }

  function PayTicket(t: Tables, sale: nat, taken: Taken): Passed {
    match RecordPayment(t.db, PayRequest(sale, taken.amount, false, Some(taken.account), taken.paidAt))
    case Ok(db) => Ok(t.(db := db))
    case Err(e) => Err(Refused(e))
  }

  function Owed(r: TicketRow): int { r.fare.GetOr(0) + ChangeFee(r) }

  function FirstTake(lists: Lists, r: TicketRow): Option<Taken> {
    Take(Owed(r), r.paid, lists.account(r.paidInto), r.issueDate.GetOr(0))
  }

  function SecondTake(lists: Lists, r: TicketRow): Option<Taken> {
    Take(History.After(Owed(r), FirstTake(lists, r)), r.changePaid, lists.account(r.changePaidInto),
         r.changedAt.GetOr(r.issueDate.GetOr(0)))
  }

  function Dated(t: Tables, k: nat, r: TicketRow): Passed {
    if ChangesDate(r) then RecordDateChange(t, k, ChangeCost(r), ChangeFee(r)) else Ok(t)
  }

  function Settled(t: Tables, sale: nat, taken: Option<Taken>): Passed {
    if taken.Some? then PayTicket(t, sale, taken.value) else Ok(t)
  }

  function SheetStatus(text: Text, r: TicketRow): Option<TicketStatus> { StatusWord(text.normalise(r.status.GetOr(""))) }

  function Statused(text: Text, t: Tables, k: nat, r: TicketRow): Passed {
    var to := SheetStatus(text, r);
    if to.None? || to == Some(Issued) then Ok(t)
    else ChangeStatus(t, k, to.value, if to.value == Refunded then Some(Owed(r)) else None)
  }

  /** What follows the date change: the two payments, then the sheet's word for the ticket's state. */
  function Finish(text: Text, lists: Lists, t: Tables, k: nat, sale: nat, r: TicketRow): Passed {
    var first := Settled(t, sale, FirstTake(lists, r));
    if first.Err? then first
    else
      var second := Settled(first.value, sale, SecondTake(lists, r));
      if second.Err? then second else Statused(text, second.value, k, r)
  }

  /** A ticket row: the ticket, its date change, the two payments, then the status. */
  function WriteTicket(text: Text, lists: Lists, t: Tables, r: TicketRow): Passed
    requires Importable(lists, r)
  {
    var k, sale := |t.tickets|, |t.db.sales|;
    var made := CreateTicket(text, t, lists.customer(r.phone, r.passenger.value).value, r);
    if made.Err? then made
    else
      var dated := Dated(made.value, k, r);
      if dated.Err? then dated else Finish(text, lists, dated.value, k, sale, r)
  }

  function WriteTickets(text: Text, lists: Lists, t: Tables, rows: seq<TicketRow>): Passed
    requires forall r :: r in rows ==> Importable(lists, r)
  {
    if rows == [] then Ok(t)
    else
      var before := WriteTickets(text, lists, t, rows[..|rows| - 1]);
      if before.Err? then before else WriteTicket(text, lists, before.value, rows[|rows| - 1])
  }

  /** The sales tab: every row whose key is neither in the books nor on an earlier row of the tab. */
  function TicketPass(text: Text, lists: Lists, t: Tables, rows: seq<TicketRow>): Passed {
    WriteTickets(text, lists, t, Fresh(text, lists, rows, TicketKeys(text, t.db, t.tickets)))
  }

  /* ---------------------------- whole history -------------------------- */

  /** The tabs of the workbook; a tab the file does not have is empty. */
  datatype Workbook = Workbook(
    capital: seq<Line>, sales: seq<TicketRow>, collections: seq<Line>, supplierPayments: seq<Line>,
    expenses: seq<Line>, profitWithdrawals: seq<Line>)

  /** The four tabs after the sales. */
  function LaterTabs(text: Text, lists: Lists, t: Tables, book: Workbook): Passed {
    var collections := MovementPass(text, lists, t, Collections, book.collections);
    if collections.Err? then collections
    else
      var suppliers := MovementPass(text, lists, collections.value, SupplierPayments, book.supplierPayments);
      if suppliers.Err? then suppliers
      else
        var expenses := ExpensePass(text, lists, suppliers.value, book.expenses);
        if expenses.Err? then expenses
        else MovementPass(text, lists, expenses.value, ProfitWithdrawals, book.profitWithdrawals)
  }

  /** `importHistory`: the six passes one after another. */
  function HistoryPass(text: Text, lists: Lists, t: Tables, book: Workbook): Passed {
    if |t.db.accounts| == 0 then Err(NoAccounts)
    else
      var capital := MovementPass(text, lists, t, Capital, book.capital);
      if capital.Err? then capital
      else
        var sales := TicketPass(text, lists, capital.value, book.sales);
        if sales.Err? then sales else LaterTabs(text, lists, sales.value, book)
  }
}
