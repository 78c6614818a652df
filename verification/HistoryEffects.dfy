/** What one row of a history workbook leaves in the books, said in the row's own columns. */
module HistoryEffects {
  import opened Wrappers
  import opened Rows
  import opened Books
  import opened Calls
  import opened History
  import opened HistoryPasses
  import opened HistorySafety
  import Acceptance
  import Effects

  /* ------------------------------ sales tab ----------------------------- */

  /** A figure of the row counts when it is there, above zero, and its account is known. */
  function Figure(amount: Option<int>, account: Option<nat>): int {
    if amount.Some? && account.Some? && amount.value > 0 then amount.value else 0
  }

  /** As much of a figure as is still owed. */
  function Part(figure: int, owed: int): int {
    if figure <= 0 || owed <= 0 then 0 else if figure <= owed then figure else owed
  }

  /** What the row charges: fare and change fee. */
  function Price(r: TicketRow): int
    requires Complete(r)
  {
    r.fare.value + r.changeFee.GetOr(0)
  }

  function FirstPart(lists: Lists, r: TicketRow): int
    requires Complete(r)
  {
    Part(Figure(r.paid, lists.account(r.paidInto)), Price(r))
  }

  function SecondPart(lists: Lists, r: TicketRow): int
    requires Complete(r)
  {
    Part(Figure(r.changePaid, lists.account(r.changePaidInto)), Price(r) - FirstPart(lists, r))
  }

  /** A part paid, as a payment row. */
  function PaymentOf(id: nat, sale: nat, part: int, account: Option<nat>, paidAt: int): seq<Payment> {
    if part > 0 then [Payment(id, sale, part, false, account, paidAt)] else []
  }

  /** The books of `t0` with one ticket and its sale added, and these payments and postings instead. */
  function WithTicket(t0: Tables, sold: Sale, ticket: History.Ticket, payments: seq<Payment>, postings: seq<Posting>, nextId: nat): Tables {
    t0.(db := t0.db.(sales := t0.db.sales + [sold], payments := payments, postings := postings, nextId := nextId),
        tickets := t0.tickets + [ticket])
  }

  /** The state the row's last column names, in any of its words; a word not known leaves the ticket issued. */
  function StateNamed(text: Text, r: TicketRow): TicketStatus {
    var word := text.normalise(if r.status.Some? then r.status.value else "");
    if word == "reissued" || word == "date changed" then Reissued
    else if word == "refunded" || word == "refund" then Refunded
    else if word == "cancelled" || word == "canceled" || word == "void" then Void
    else Issued
  }

  lemma StateIsNamed(text: Text, r: TicketRow)
    ensures SheetStatus(text, r).GetOr(Issued) == StateNamed(text, r)
  {
  }

  /** The sale the row comes to, for its customer. */
  function SoldAs(r: TicketRow, c: nat, fee: int, refund: int): Sale
    requires Complete(r)
  {
    Sale(c, TicketPrice(r.fare.value, fee, refund), r.issueDate.value, false)
  }

  function TicketAs(text: Text, r: TicketRow, sale: nat, status: TicketStatus, changeCost: int, charge: int): History.Ticket
    requires Complete(r)
  {
    History.Ticket.Ticket(sale, text.upper(r.pnr.value), r.issueDate, status, r.cost.value, changeCost,
                          charge - r.cost.value - changeCost)
  }

  lemma LastRewritten<T>(rows: seq<T>, was: T, now: T)
    ensures (rows + [was])[|rows| := now] == rows + [now]
  {
  }

  lemma Created(text: Text, t: Tables, c: nat, r: TicketRow)
    requires Complete(r)
    ensures match CreateTicket(text, t, c, r)
            case Ok(after) =>
              && Acceptance.Known(t.db, c)
              && after == WithTicket(t, SoldAs(r, c, 0, 0), TicketAs(text, r, |t.db.sales|, Issued, 0, r.fare.value),
                                     t.db.payments, t.db.postings, t.db.nextId)
            case Err(_) => !Acceptance.Known(t.db, c)
  {
  }

  lemma DatedAs(text: Text, t0: Tables, c: nat, r: TicketRow)
    requires Complete(r)
    ensures var sale := |t0.db.sales|;
            var t := WithTicket(t0, SoldAs(r, c, 0, 0), TicketAs(text, r, sale, Issued, 0, r.fare.value),
                                t0.db.payments, t0.db.postings, t0.db.nextId);
            Dated(t, |t0.tickets|, r)
            == Ok(WithTicket(t0, SoldAs(r, c, r.changeFee.GetOr(0), 0), TicketAs(text, r, sale, Issued, r.changeCost.GetOr(0), Price(r)),
                             t0.db.payments, t0.db.postings, t0.db.nextId))
  {
    var sale := |t0.db.sales|;
    var was, now := TicketAs(text, r, sale, Issued, 0, r.fare.value), TicketAs(text, r, sale, Issued, r.changeCost.GetOr(0), Price(r));
    LastRewritten(t0.db.sales, SoldAs(r, c, 0, 0), SoldAs(r, c, r.changeFee.GetOr(0), 0));
    LastRewritten(t0.tickets, was, now);
  }

  /** The sheet's state, and the whole charge handed back when that is a refund. */
  lemma StatusedAs(text: Text, t0: Tables, c: nat, r: TicketRow, payments: seq<Payment>, postings: seq<Posting>, nextId: nat)
    requires Complete(r)
    ensures var sale, status := |t0.db.sales|, StateNamed(text, r);
            var fee, cost := r.changeFee.GetOr(0), r.changeCost.GetOr(0);
            var refund := if status == Refunded then Price(r) else 0;
            var t := WithTicket(t0, SoldAs(r, c, fee, 0), TicketAs(text, r, sale, Issued, cost, Price(r)), payments, postings, nextId);
            Statused(text, t, |t0.tickets|, r)
            == Ok(WithTicket(t0, SoldAs(r, c, fee, refund), TicketAs(text, r, sale, status, cost, Price(r) - refund),
                             payments, postings, nextId))
  {
    StateIsNamed(text, r);
    var sale, status := |t0.db.sales|, StateNamed(text, r);
    var fee, cost := r.changeFee.GetOr(0), r.changeCost.GetOr(0);
    var refund := if status == Refunded then Price(r) else 0;
    LastRewritten(t0.db.sales, SoldAs(r, c, fee, 0), SoldAs(r, c, fee, refund));
    LastRewritten(t0.tickets, TicketAs(text, r, sale, Issued, cost, Price(r)), TicketAs(text, r, sale, status, cost, Price(r) - refund));
  }

  /** `take`: the part of the figure still owed, or nothing. */
  lemma TakeIsPart(owed: int, amount: Option<int>, account: Option<nat>, paidAt: int)
    ensures var part := Part(Figure(amount, account), owed);
            Take(owed, amount, account, paidAt) == if part > 0 then Some(Taken(account.value, part, paidAt)) else None
  {
  }

  /** The row's payments, as their postings. */
  function PostingOf(id: nat, part: int, account: Option<nat>): seq<Posting> {
    if part > 0 && account.Some? then [Posting(account.value, In, part, SalesPayment, id)] else []
  }

  /** A part that the sale has room for is refused by its account only, and otherwise stored and posted. */
  lemma SettledAs(t: Tables, sale: nat, part: int, account: Option<nat>, paidAt: int)
    requires LiveSale(t.db, sale)
    requires part > 0 ==> account.Some? && part <= t.db.sales[sale].price.Charge() - Paid(t.db.payments, sale)
    ensures var id := t.db.nextId;
            match Settled(t, sale, if part > 0 then Some(Taken(account.value, part, paidAt)) else None)
            case Ok(after) =>
              && (part > 0 ==> Acceptance.Usable(t.db, account.value))
              && after == t.(db := t.db.(payments := t.db.payments + PaymentOf(id, sale, part, account, paidAt),
                                         postings := t.db.postings + PostingOf(id, part, account),
                                         nextId := if part > 0 then id + 1 else id))
            case Err(_) => part > 0 && !Acceptance.Usable(t.db, account.value)
  {
    if part > 0 {
      Acceptance.AcceptedExactlyWhen(t.db, Pay(PayRequest(sale, part, false, account, paidAt)));
      Acceptance.DueIsLeft(t.db, sale);
    }
  }

  predicate FirstUsable(lists: Lists, t: Tables, r: TicketRow)
    requires Complete(r)
  {
    FirstPart(lists, r) > 0 ==> lists.account(r.paidInto).Some? && Acceptance.Usable(t.db, lists.account(r.paidInto).value)
  }

  predicate SecondUsable(lists: Lists, t: Tables, r: TicketRow)
    requires Complete(r)
  {
    SecondPart(lists, r) > 0 ==> lists.account(r.changePaidInto).Some? && Acceptance.Usable(t.db, lists.account(r.changePaidInto).value)
  }

  /** Nothing but the row's customer and accounts can be in its way. */
  predicate RowAccepted(lists: Lists, t: Tables, r: TicketRow)
    requires Importable(lists, r)
  {
    && Acceptance.Known(t.db, lists.customer(r.phone, r.passenger.value).value)
    && FirstUsable(lists, t, r) && SecondUsable(lists, t, r)
  }

  /** The books with the row in: one ticket, one sale, a payment for each part, and their postings. */
  function RowWritten(text: Text, lists: Lists, t: Tables, r: TicketRow): Tables
    requires Importable(lists, r)
  {
    var c, sale, id := lists.customer(r.phone, r.passenger.value).value, |t.db.sales|, t.db.nextId;
    var status := StateNamed(text, r);
    var refund := if status == Refunded then Price(r) else 0;
    var first, second := FirstPart(lists, r), SecondPart(lists, r);
    var next := if first > 0 then id + 1 else id;
    WithTicket(t, SoldAs(r, c, r.changeFee.GetOr(0), refund),
               TicketAs(text, r, sale, status, r.changeCost.GetOr(0), Price(r) - refund),
               t.db.payments + PaymentOf(id, sale, first, lists.account(r.paidInto), r.issueDate.value)
                 + PaymentOf(next, sale, second, lists.account(r.changePaidInto), r.changedAt.GetOr(r.issueDate.value)),
               t.db.postings + PostingOf(id, first, lists.account(r.paidInto)) + PostingOf(next, second, lists.account(r.changePaidInto)),
               if second > 0 then next + 1 else next)
  }

  lemma PartsFit(lists: Lists, r: TicketRow)
    requires Complete(r)
    ensures var first, second := FirstPart(lists, r), SecondPart(lists, r);
            && 0 <= first && 0 <= second
            && (first > 0 ==> lists.account(r.paidInto).Some? && first <= Price(r))
            && (second > 0 ==> lists.account(r.changePaidInto).Some? && first + second <= Price(r))
  {
  }

  lemma PaidNext(payments: seq<Payment>, sale: nat, id: nat, part: int, account: Option<nat>, paidAt: int)
    requires part >= 0
    ensures Paid(payments + PaymentOf(id, sale, part, account, paidAt), sale) == Paid(payments, sale) + part
  {
    if part > 0 {
      SumAppend(payments, PaymentOf(id, sale, part, account, paidAt)[0], AmountOn(sale));
    } else {
      assert payments + [] == payments;
    }
  }

  /* The row's books between its pieces: the ticket with its date changed, then one part paid, then both. */

  function Unpaid(text: Text, lists: Lists, t: Tables, r: TicketRow): Tables
    requires Importable(lists, r)
  {
    WithTicket(t, SoldAs(r, lists.customer(r.phone, r.passenger.value).value, r.changeFee.GetOr(0), 0),
               TicketAs(text, r, |t.db.sales|, Issued, r.changeCost.GetOr(0), Price(r)), t.db.payments, t.db.postings, t.db.nextId)
  }

  function WithPart(t: Tables, sale: nat, part: int, account: Option<nat>, paidAt: int): Tables {
    t.(db := t.db.(payments := t.db.payments + PaymentOf(t.db.nextId, sale, part, account, paidAt),
                   postings := t.db.postings + PostingOf(t.db.nextId, part, account),
                   nextId := if part > 0 then t.db.nextId + 1 else t.db.nextId))
  }

  function OncePaid(text: Text, lists: Lists, t: Tables, r: TicketRow): Tables
    requires Importable(lists, r)
  {
    WithPart(Unpaid(text, lists, t, r), |t.db.sales|, FirstPart(lists, r), lists.account(r.paidInto), r.issueDate.value)
  }

  function TwicePaid(text: Text, lists: Lists, t: Tables, r: TicketRow): Tables
    requires Importable(lists, r)
  {
    WithPart(OncePaid(text, lists, t, r), |t.db.sales|, SecondPart(lists, r), lists.account(r.changePaidInto),
             r.changedAt.GetOr(r.issueDate.value))
  }

  lemma UnpaidOwesAll(text: Text, lists: Lists, t: Tables, r: TicketRow)
    requires Valid(t) && Importable(lists, r)
    ensures var db, sale := Unpaid(text, lists, t, r).db, |t.db.sales|;
            LiveSale(db, sale) && db.sales[sale].price.Charge() == Price(r) && Paid(db.payments, sale) == 0
  {
    NothingPaidYet(t.db.payments, |t.db.sales|);
  }

  lemma OncePaidOwesRest(text: Text, lists: Lists, t: Tables, r: TicketRow)
    requires Valid(t) && Importable(lists, r)
    ensures var db, sale := OncePaid(text, lists, t, r).db, |t.db.sales|;
            LiveSale(db, sale) && db.sales[sale].price.Charge() == Price(r) && Paid(db.payments, sale) == FirstPart(lists, r)
  {
    UnpaidOwesAll(text, lists, t, r);
    PartsFit(lists, r);
    PaidNext(t.db.payments, |t.db.sales|, t.db.nextId, FirstPart(lists, r), lists.account(r.paidInto), r.issueDate.value);
  }

  lemma FirstSettled(text: Text, lists: Lists, t: Tables, r: TicketRow)
    requires Valid(t) && Importable(lists, r)
    ensures match Settled(Unpaid(text, lists, t, r), |t.db.sales|, FirstTake(lists, r))
            case Ok(after) => FirstUsable(lists, t, r) && after == OncePaid(text, lists, t, r)
            case Err(_) => !FirstUsable(lists, t, r)
  {
    UnpaidOwesAll(text, lists, t, r);
    PartsFit(lists, r);
    TakeIsPart(Owed(r), r.paid, lists.account(r.paidInto), r.issueDate.value);
    SettledAs(Unpaid(text, lists, t, r), |t.db.sales|, FirstPart(lists, r), lists.account(r.paidInto), r.issueDate.value);
  }

  lemma SecondSettled(text: Text, lists: Lists, t: Tables, r: TicketRow)
    requires Valid(t) && Importable(lists, r)
    ensures match Settled(OncePaid(text, lists, t, r), |t.db.sales|, SecondTake(lists, r))
            case Ok(after) => SecondUsable(lists, t, r) && after == TwicePaid(text, lists, t, r)
            case Err(_) => !SecondUsable(lists, t, r)
  {
    var changedAt := r.changedAt.GetOr(r.issueDate.value);
    OncePaidOwesRest(text, lists, t, r);
    PartsFit(lists, r);
    TakeIsPart(Owed(r), r.paid, lists.account(r.paidInto), r.issueDate.value);
    TakeIsPart(Price(r) - FirstPart(lists, r), r.changePaid, lists.account(r.changePaidInto), changedAt);
    SettledAs(OncePaid(text, lists, t, r), |t.db.sales|, SecondPart(lists, r), lists.account(r.changePaidInto), changedAt);
  }

  lemma TwicePaidStatused(text: Text, lists: Lists, t: Tables, r: TicketRow)
    requires Importable(lists, r)
    ensures Statused(text, TwicePaid(text, lists, t, r), |t.tickets|, r) == Ok(RowWritten(text, lists, t, r))
  {
    var db := TwicePaid(text, lists, t, r).db;
    StatusedAs(text, t, lists.customer(r.phone, r.passenger.value).value, r, db.payments, db.postings, db.nextId);
  }

  /** From the ticket with its date changed to the whole row: both parts, then the state. */
  lemma FinishedAs(text: Text, lists: Lists, t: Tables, r: TicketRow)
    requires Valid(t) && Importable(lists, r)
    ensures match Finish(text, lists, Unpaid(text, lists, t, r), |t.tickets|, |t.db.sales|, r)
            case Ok(after) => FirstUsable(lists, t, r) && SecondUsable(lists, t, r) && after == RowWritten(text, lists, t, r)
            case Err(_) => !FirstUsable(lists, t, r) || !SecondUsable(lists, t, r)
  {
    FirstSettled(text, lists, t, r);
    if FirstUsable(lists, t, r) {
      SecondSettled(text, lists, t, r);
      TwicePaidStatused(text, lists, t, r);
    }
  }

  /**
   * A row of the sales tab, all of it: it is written exactly when its customer is known and
   * the accounts its money went into can be used, and then the books gain just this.
   */
  lemma TicketRowWritten(text: Text, lists: Lists, t: Tables, r: TicketRow)
    requires Valid(t) && Importable(lists, r)
    ensures WriteTicket(text, lists, t, r).Ok? <==> RowAccepted(lists, t, r)
    ensures WriteTicket(text, lists, t, r).Ok? ==> WriteTicket(text, lists, t, r).value == RowWritten(text, lists, t, r)
  {
    var c := lists.customer(r.phone, r.passenger.value).value;
    Created(text, t, c, r);
    if Acceptance.Known(t.db, c) {
      DatedAs(text, t, c, r);
      FinishedAs(text, lists, t, r);
    }
  }

  /** So the new sale has both parts taken on it, and each account has risen by the parts that went into it. */
  lemma TicketRowMovesMoney(text: Text, lists: Lists, t: Tables, r: TicketRow, a: nat)
    requires Valid(t) && Importable(lists, r) && WriteTicket(text, lists, t, r).Ok?
    ensures var db, sale := WriteTicket(text, lists, t, r).value.db, |t.db.sales|;
            && Paid(db.payments, sale) == FirstPart(lists, r) + SecondPart(lists, r)
            && Balance(db.postings, a)
               == Balance(t.db.postings, a) + (if lists.account(r.paidInto) == Some(a) then FirstPart(lists, r) else 0)
                  + (if lists.account(r.changePaidInto) == Some(a) then SecondPart(lists, r) else 0)
  {
    var first, second, id := FirstPart(lists, r), SecondPart(lists, r), t.db.nextId;
    var next := if first > 0 then id + 1 else id;
    var payments := t.db.payments + PaymentOf(id, |t.db.sales|, first, lists.account(r.paidInto), r.issueDate.value);
    TicketRowWritten(text, lists, t, r);
    PartsFit(lists, r);
    NothingPaidYet(t.db.payments, |t.db.sales|);
    PaidNext(t.db.payments, |t.db.sales|, id, first, lists.account(r.paidInto), r.issueDate.value);
    PaidNext(payments, |t.db.sales|, next, second, lists.account(r.changePaidInto), r.changedAt.GetOr(r.issueDate.value));
    Effects.PostedMoves(t.db.postings, PostingOf(id, first, lists.account(r.paidInto)), a);
    Effects.PostedMoves(t.db.postings + PostingOf(id, first, lists.account(r.paidInto)),
                        PostingOf(next, second, lists.account(r.changePaidInto)), a);
  }

  /* ------------------------------ money tabs ---------------------------- */

  function AboveZero(amount: Option<int>): int { if amount.Some? && amount.value > 0 then amount.value else 0 }

  /** What a row brings into its account: collections and investments come in, everything else goes out. */
  function Money(tab: Tab, line: Line): int {
    if tab == Collections then AboveZero(line.amount)
    else if tab == Capital && AboveZero(line.amount) > 0 then AboveZero(line.amount)
    else if tab == Capital then -AboveZero(line.withdrawn)
    else -AboveZero(line.amount)
  }

  /** The row has a day, a name, money and a known account, and names a party the lists know where one is needed. */
  predicate Wanted(lists: Lists, tab: Tab, line: Line) {
    && line.date.Some? && line.name.Some? && Money(tab, line) != 0 && lists.account(line.account).Some?
    && (tab == Collections ==> lists.customer(line.phone, line.name.value).Some?)
    && (tab == SupplierPayments ==> lists.supplier(line.name.value).Some?)
  }

  /** The movement a wanted row of a single-posting tab is. */
  function MovementOf(lists: Lists, tab: Tab, line: Line): Movement
    requires Wanted(lists, tab, line) && tab in {Capital, SupplierPayments, ProfitWithdrawals}
  {
    var date, money, account := line.date.value, Money(tab, line), lists.account(line.account).value;
    if tab == Capital then CapitalFlow(money > 0, line.name.value, date, if money > 0 then money else -money, account)
    else if tab == SupplierPayments then SupplierPayment(lists.supplier(line.name.value).value, date, -money, account)
    else ProfitWithdrawal(line.name.value, date, -money, account)
  }

  /** Two movements are taken for the same one: same kind and party, same day, amount and account. */
  predicate SameMovement(text: Text, m: Movement, n: Movement) {
    && m.Tab() == n.Tab() && Day(m.date) == Day(n.date) && m.amount == n.amount && m.account == n.account
    && match m
       case Collection(c, _, _, _) => c == n.customer
       case SupplierPayment(s, _, _, _) => s == n.supplier
       case Expense(c, _, _, _) => c == n.category
       case CapitalFlow(invested, owner, _, _, _) => invested == n.invested && text.normalise(owner) == text.normalise(n.owner)
       case ProfitWithdrawal(who, _, _, _) => text.normalise(who) == text.normalise(n.receivedBy)
  }

  lemma SameKeySameMovement(text: Text, m: Movement, n: Movement)
    ensures KeyOf(text, m) == KeyOf(text, n) <==> SameMovement(text, m, n)
  {
  }

  /** The books already hold such a movement. */
  ghost predicate Booked(text: Text, t: Tables, m: Movement) {
    if m.Collection? then exists r :: r in t.db.receipts && SameMovement(text, m, Collection(r.customer, r.date, r.amount1, r.account1))
    else exists k :: k in t.movements && SameMovement(text, m, k.1)
  }

  lemma KeyedWhenBooked(text: Text, t: Tables, m: Movement)
    ensures KeyOf(text, m) in Keys(text, t, m.Tab()) <==> Booked(text, t, m)
  {
    if m.Collection? {
      forall r ensures ReceiptKey(r) == KeyOf(text, m) <==> SameMovement(text, m, Collection(r.customer, r.date, r.amount1, r.account1)) {
        SameKeySameMovement(text, m, Collection(r.customer, r.date, r.amount1, r.account1));
      }
    } else {
      forall k: (nat, Movement) ensures KeyOf(text, k.1) == KeyOf(text, m) <==> SameMovement(text, m, k.1) {
        SameKeySameMovement(text, m, k.1);
      }
    }
  }

  /** What one movement brings into an account. */
  function Brings(m: Movement, a: nat): int {
    if m.account != a then 0
    else if m.Collection? || (m.CapitalFlow? && m.invested) then m.amount
    else -m.amount
  }

  /** The books with a movement in: its row with its own columns, and its account moved. */
  ghost predicate MovementWritten(t: Tables, m: Movement, after: Tables) {
    && (forall a: nat :: Balance(after.db.postings, a) == Balance(t.db.postings, a) + Brings(m, a))
    && (if m.Collection?
        then after.db.receipts == t.db.receipts + [Receipt(t.db.nextId, m.customer, m.account, m.amount, None, 0, 0, m.date)]
             && after.movements == t.movements
        else after.movements == t.movements + [(t.db.nextId, m)] && after.db.receipts == t.db.receipts)
    && after.tickets == t.tickets && after.categories == t.categories
    && after.db.sales == t.db.sales && after.db.payments == t.db.payments
  }

  lemma CollectionWrites(t: Tables, m: Movement)
    requires m.Collection? && m.amount > 0
    ensures Create(t, m).Ok? <==> Acceptance.Usable(t.db, m.account) && Acceptance.Known(t.db, m.customer)
    ensures Create(t, m).Ok? ==> MovementWritten(t, m, Create(t, m).value)
  {
    var r := ReceiptRequest(m.customer, m.account, m.amount, None, None, None, m.date);
    Acceptance.AcceptedExactlyWhen(t.db, Collect(r));
    if Create(t, m).Ok? {
      Effects.CallWritesItsRow(t.db, Collect(r));
      forall a: nat ensures Balance(Create(t, m).value.db.postings, a) == Balance(t.db.postings, a) + Brings(m, a) {
        Effects.CollectMovesBalance(t.db, r, a);
      }
    }
  }

  lemma FlowBrings(m: Movement, id: nat, a: nat)
    requires !m.Collection?
    ensures var posted := FlowPostings(Flow(id, m.account, FlowOf(m), m.amount));
            |posted| == 1 && MovedOn(a)(posted[0]) == Brings(m, a)
  {
  }

  lemma FlowMoves(t: Tables, m: Movement, a: nat)
    requires !m.Collection? && Create(t, m).Ok?
    ensures Balance(Create(t, m).value.db.postings, a) == Balance(t.db.postings, a) + Brings(m, a)
  {
    FlowBrings(m, t.db.nextId, a);
    Effects.PostedMoves(t.db.postings, FlowPostings(Flow(t.db.nextId, m.account, FlowOf(m), m.amount)), a);
  }

  lemma FlowWrites(t: Tables, m: Movement)
    requires !m.Collection? && m.amount > 0
    ensures Create(t, m).Ok? <==> Acceptance.Usable(t.db, m.account)
    ensures Create(t, m).Ok? ==> MovementWritten(t, m, Create(t, m).value)
  {
    Acceptance.AcceptedExactlyWhen(t.db, Enter(m.account, FlowOf(m), m.amount));
    if Create(t, m).Ok? {
      forall a: nat ensures Balance(Create(t, m).value.db.postings, a) == Balance(t.db.postings, a) + Brings(m, a) {
        FlowMoves(t, m, a);
      }
    }
  }

  lemma CreateWrites(t: Tables, m: Movement)
    requires m.amount > 0
    ensures Create(t, m).Ok? <==> Acceptance.Usable(t.db, m.account) && (m.Collection? ==> Acceptance.Known(t.db, m.customer))
    ensures Create(t, m).Ok? ==> MovementWritten(t, m, Create(t, m).value)
  {
    if m.Collection? { CollectionWrites(t, m); } else { FlowWrites(t, m); }
  }

  /** The movement a wanted row asks for. */
  function Asked(lists: Lists, tab: Tab, line: Line): Movement
    requires Wanted(lists, tab, line) && tab != Expenses
  {
    if tab == Collections
    then Collection(lists.customer(line.phone, line.name.value).value, line.date.value, Money(tab, line), lists.account(line.account).value)
    else MovementOf(lists, tab, line)
  }

  lemma PlanIsAsked(lists: Lists, tab: Tab, line: Line)
    requires tab != Expenses
    ensures Plan(lists, tab, line) == if Wanted(lists, tab, line) then Some(Asked(lists, tab, line)) else None
    ensures Wanted(lists, tab, line) ==> Brings(Asked(lists, tab, line), lists.account(line.account).value) == Money(tab, line)
  {
  }

  /**
   * A row of a money tab other than expenses: skipped when it asks for nothing or the books
   * already hold it, refused when its account or customer cannot be used, and otherwise
   * stored with its own columns, its account moved by its money and no other account moved.
   */
  lemma MoneyRowWritten(text: Text, lists: Lists, t: Tables, tab: Tab, line: Line)
    requires tab != Expenses
    ensures var o := MovementRow(text, lists, t, tab, line);
            if !Wanted(lists, tab, line) || Booked(text, t, Asked(lists, tab, line)) then o == Ok(t)
            else
              var m := Asked(lists, tab, line);
              && (o.Ok? <==> Acceptance.Usable(t.db, m.account) && (tab == Collections ==> Acceptance.Known(t.db, m.customer)))
              && (o.Ok? ==> MovementWritten(t, m, o.value))
  {
    PlanIsAsked(lists, tab, line);
    if Wanted(lists, tab, line) {
      var m := Asked(lists, tab, line);
      KeyedWhenBooked(text, t, m);
      CreateWrites(t, m);
    }
  }

  /* ------------------------------- expenses ----------------------------- */

  /** The name look-up finds a live category of that name whenever there is one. */
  lemma {:induction false} ByNameFinds(text: Text, categories: seq<Category>, name: string)
    ensures name in ByName(text, categories) <==> exists c :: c in categories && !c.deleted && text.normalise(c.name) == name
    ensures name in ByName(text, categories) ==>
              exists c :: c in categories && !c.deleted && text.normalise(c.name) == name && c.id == ByName(text, categories)[name]
  {
    if categories != [] {
      var init, last := categories[..|categories| - 1], categories[|categories| - 1];
      assert categories == init + [last];
      ByNameFinds(text, init, name);
      if !last.deleted && text.normalise(last.name) == name {
        assert last in categories;
      } else if name in ByName(text, init) {
        var c :| c in init && !c.deleted && text.normalise(c.name) == name && c.id == ByName(text, init)[name];
        assert c in categories;
      }
    }
  }

  /** A live category of that name. */
  ghost predicate Names(text: Text, categories: seq<Category>, name: string, id: nat) {
    exists c :: c in categories && !c.deleted && text.normalise(c.name) == text.normalise(name) && c.id == id
  }

  /** A complete expense row that is written or found: its category is there, made if there was none, and its account has paid. */
  lemma ExpenseRowWritten(text: Text, lists: Lists, t: Tables, line: Line) returns (category: nat, from: Tables)
    requires CompleteExpense(lists, line) && ExpenseRow(text, lists, t, line).Ok?
    ensures var after := ExpenseRow(text, lists, t, line).value;
            Names(text, after.categories, line.name.value, category)
    ensures if exists c :: c in t.categories && !c.deleted && text.normalise(c.name) == text.normalise(line.name.value) then from == t
            else from == WithCategory(t, line.name.value) && category == t.db.nextId
    ensures var m := Expense(category, line.date.value, line.amount.value, lists.account(line.account).value);
            if Booked(text, from, m) then ExpenseRow(text, lists, t, line) == Ok(from)
            else MovementWritten(from, m, ExpenseRow(text, lists, t, line).value)
  {
    var name := text.normalise(line.name.value);
    ByNameFinds(text, t.categories, name);
    if name in ByName(text, t.categories) {
      category, from := ByName(text, t.categories)[name], t;
    } else {
      category, from := t.db.nextId, WithCategory(t, line.name.value);
      assert from.categories[|t.categories|] in from.categories;
    }
    var m := Expense(category, line.date.value, line.amount.value, lists.account(line.account).value);
    KeyedWhenBooked(text, from, m);
    CreateWrites(from, m);
  }
}
