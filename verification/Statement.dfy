/** The chronological statement of one customer, and why it ends on the headline figure. */
module Statement {
  import opened Wrappers
  import opened Rows
  import opened Books
  import opened Calls
  import opened CustomerLedger
  import opened Sorting

  datatype Event = Event(date: int, debit: int, credit: int)
  datatype LedgerRow = OpeningRow(runningDue: int) | EventRow(event: Event, runningDue: int)

  /** Earlier dates first; under one date, the larger debit first. */
  function ChargeFirst(): (Event, Event) -> bool {
    (a: Event, b: Event) => a.date < b.date || (a.date == b.date && a.debit >= b.debit)
  }

  /* ----------------------- what belongs on it -------------------------- */

  function PaymentEvent(sale: nat): Payment -> seq<Event> {
    (p: Payment) => if p.sale == sale then [Event(p.paidAt, 0, if p.fromWallet then 0 else p.amount)] else []
  }

  function SaleEvents(db: Db, s: nat): seq<Event>
    requires s < |db.sales|
  {
    [Event(db.sales[s].date, db.sales[s].price.Billed(), 0)] + FlatMap(db.payments, PaymentEvent(s))
  }

  predicate Listed(s: Sale, c: nat, kind: SaleKind) { s.customer == c && !s.deleted && s.price.Kind() == kind }

  /** The events of this customer's first `n` sales rows of one kind. */
  function KindEvents(db: Db, c: nat, kind: SaleKind, n: nat): seq<Event>
    requires n <= |db.sales|
  {
    if n == 0 then []
    else KindEvents(db, c, kind, n - 1) + if Listed(db.sales[n - 1], c, kind) then SaleEvents(db, n - 1) else []
  }

  function ReceiptEvents(c: nat): Receipt -> seq<Event> {
    (r: Receipt) =>
      if r.customer != c then []
      else [Event(r.date, 0, r.amount1 + r.amount2)] + if r.discount > 0 then [Event(r.date, 0, r.discount)] else []
  }

  function Events(db: Db, c: nat): seq<Event> {
    var n := |db.sales|;
    KindEvents(db, c, Ticket, n) + KindEvents(db, c, Visa, n) + KindEvents(db, c, Hajj, n) + KindEvents(db, c, Tour, n)
    + KindEvents(db, c, Hotel, n) + FlatMap(db.receipts, ReceiptEvents(c))
  }

  function Net(): Event -> int { (e: Event) => e.debit - e.credit }

  /** The statement for events already in order: each row carries the due after it. */
  function RunningRows(openingDue: int, events: seq<Event>): seq<LedgerRow> {
    if events == [] then [OpeningRow(openingDue)]
    else RunningRows(openingDue, events[..|events| - 1]) + [EventRow(events[|events| - 1], openingDue + Sum(events, Net()))]
  }

  /* ----------------------------- the loops ----------------------------- */

  method PushPayments(db: Db, s: nat, events: seq<Event>) returns (more: seq<Event>)
    ensures more == events + FlatMap(db.payments, PaymentEvent(s))
  {
    more := events;
    for i := 0 to |db.payments|
      invariant more == events + FlatMap(db.payments[..i], PaymentEvent(s))
    {
      assert db.payments[..i + 1] == db.payments[..i] + [db.payments[i]];
      FlatMapAppend(db.payments[..i], db.payments[i], PaymentEvent(s));
      var p := db.payments[i];
      if p.sale == s {
        more := more + [Event(p.paidAt, 0, if p.fromWallet then 0 else p.amount)];
      }
    }
    assert db.payments[..|db.payments|] == db.payments;
  }

  /** A sale's own line, nothing billed if it was cancelled, then its payments. */
  method PushSale(db: Db, s: nat, events: seq<Event>) returns (more: seq<Event>)
    requires s < |db.sales|
    ensures more == events + SaleEvents(db, s)
  {
    var sale := db.sales[s];
    var own := Event(sale.date, if IsCancelled(sale.price) then 0 else sale.price.Charge(), 0);
    more := events + [own];
    more := PushPayments(db, s, more);
  }

  method PushSales(db: Db, c: nat, kind: SaleKind, events: seq<Event>) returns (more: seq<Event>)
    ensures more == events + KindEvents(db, c, kind, |db.sales|)
  {
    more := events;
    ghost var pushed := [];
    for s := 0 to |db.sales|
      invariant more == events + pushed && pushed == KindEvents(db, c, kind, s)
    {
      if Listed(db.sales[s], c, kind) {
        more := PushSale(db, s, more);
        pushed := pushed + SaleEvents(db, s);
      }
    }
  }

  method PushReceipt(r: Receipt, c: nat, events: seq<Event>) returns (more: seq<Event>)
    ensures more == events + ReceiptEvents(c)(r)
  {
    more := events;
    if r.customer == c {
      more := more + [Event(r.date, 0, r.amount1 + r.amount2)];
      if r.discount > 0 {
        more := more + [Event(r.date, 0, r.discount)];
      }
    }
  }

  method PushReceipts(db: Db, c: nat, events: seq<Event>) returns (more: seq<Event>)
    ensures more == events + FlatMap(db.receipts, ReceiptEvents(c))
  {
    more := events;
    ghost var pushed := [];
    for i := 0 to |db.receipts|
      invariant more == events + pushed && pushed == FlatMap(db.receipts[..i], ReceiptEvents(c))
    {
      assert db.receipts[..i + 1] == db.receipts[..i] + [db.receipts[i]];
      FlatMapAppend(db.receipts[..i], db.receipts[i], ReceiptEvents(c));
      more := PushReceipt(db.receipts[i], c, more);
      pushed := pushed + ReceiptEvents(c)(db.receipts[i]);
    }
    assert db.receipts[..|db.receipts|] == db.receipts;
  }

  method PushAll(db: Db, c: nat) returns (events: seq<Event>)
    ensures events == Events(db, c)
  {
    events := PushSales(db, c, Ticket, []);
    assert events == KindEvents(db, c, Ticket, |db.sales|);
    events := PushSales(db, c, Visa, events);
    events := PushSales(db, c, Hajj, events);
    events := PushSales(db, c, Tour, events);
    events := PushSales(db, c, Hotel, events);
    events := PushReceipts(db, c, events);
  }

  method PushRows(openingDue: int, events: seq<Event>) returns (rows: seq<LedgerRow>)
    ensures rows == RunningRows(openingDue, events)
  {
    var running := openingDue;
    rows := [OpeningRow(running)];
    for i := 0 to |events|
      invariant rows == RunningRows(openingDue, events[..i])
      invariant running == openingDue + Sum(events[..i], Net())
    {
      SumNext(events, i, Net());
      assert events[..i + 1][..i] == events[..i];
      running := running + events[i].debit - events[i].credit;
      rows := rows + [EventRow(events[i], running)];
    }
    assert events[..|events|] == events;
  }

  /* ------------------- what a statement has to show -------------------- */

  /* How many lines a row of each table has that read like this one. */

  function SaleLine(c: nat, e: Event): Sale -> int {
    (s: Sale) =>
      if s.customer == c && !s.deleted && e == Event(s.date, if StatusOf(s.price) == Some(Cancelled) then 0 else s.price.Charge(), 0)
      then 1 else 0
  }

  function PaymentLine(sales: seq<Sale>, c: nat, e: Event): Payment -> int {
    (p: Payment) =>
      if p.sale < |sales| && sales[p.sale].customer == c && !sales[p.sale].deleted
         && e.date == p.paidAt && e.debit == 0 && e.credit == (if p.fromWallet then 0 else p.amount)
      then 1 else 0
  }

  function ReceiptLine(c: nat, e: Event): Receipt -> int {
    (r: Receipt) => if r.customer == c && e.date == r.date && e.debit == 0 && e.credit == r.amount1 + r.amount2 then 1 else 0
  }

  function DiscountLine(c: nat, e: Event): Receipt -> int {
    (r: Receipt) => if r.customer == c && r.discount > 0 && e.date == r.date && e.debit == 0 && e.credit == r.discount then 1 else 0
  }

  function Reads(e: Event): Event -> int { (other: Event) => if other == e then 1 else 0 }

  /** An opening row, then event rows that each carry the due before them on. */
  predicate Runs(openingDue: int, rows: seq<LedgerRow>) {
    && rows != [] && rows[0] == OpeningRow(openingDue)
    && forall i :: 0 < i < |rows| ==>
         rows[i].EventRow? && rows[i].runningDue == rows[i - 1].runningDue + rows[i].event.debit - rows[i].event.credit
  }

  function Lines(rows: seq<LedgerRow>): seq<Event>
    requires rows != [] && forall i :: 0 < i < |rows| ==> rows[i].EventRow?
  {
    seq(|rows| - 1, i requires 0 <= i < |rows| - 1 => rows[i + 1].event)
  }

  /**
   * The statement: it runs from the opening due, oldest line first and charges before
   * money, and has one line for each standing sale, each payment on one, each receipt and
   * each discount, with that row's own date and money, and no other line.
   */
  ghost predicate IsStatement(db: Db, c: nat, rows: seq<LedgerRow>)
    requires c < |db.customers|
  {
    && Runs(db.customers[c].openingDue, rows)
    && (forall i, j :: 0 <= i < j < |Lines(rows)| ==>
          Lines(rows)[i].date < Lines(rows)[j].date
          || (Lines(rows)[i].date == Lines(rows)[j].date && Lines(rows)[i].debit >= Lines(rows)[j].debit))
    && forall e: Event ::
         Sum(Lines(rows), Reads(e))
         == Sum(db.sales, SaleLine(c, e)) + Sum(db.payments, PaymentLine(db.sales, c, e))
            + Sum(db.receipts, ReceiptLine(c, e)) + Sum(db.receipts, DiscountLine(c, e))
  }

  /* What was billed, taken and given by the end of a moment. */

  function BilledBy(c: nat, d: int): Sale -> int {
    (s: Sale) => if s.customer == c && !s.deleted && s.date <= d && StatusOf(s.price) != Some(Cancelled) then s.price.Charge() else 0
  }

  function CashBy(sales: seq<Sale>, c: nat, d: int): Payment -> int {
    (p: Payment) =>
      if !p.fromWallet && p.sale < |sales| && sales[p.sale].customer == c && !sales[p.sale].deleted && p.paidAt <= d then p.amount else 0
  }

  function GivenBy(c: nat, d: int): Receipt -> int {
    (r: Receipt) => if r.customer == c && r.date <= d then r.amount1 + r.amount2 + (if r.discount > 0 then r.discount else 0) else 0
  }

  /** What the customer owed then, from the tables alone. */
  function DueBy(db: Db, c: nat, d: int): int
    requires c < |db.customers|
  {
    db.customers[c].openingDue + Sum(db.sales, BilledBy(c, d)) - Sum(db.payments, CashBy(db.sales, c, d)) - Sum(db.receipts, GivenBy(c, d))
  }

  /** Row `n` is the last one up to this moment. */
  predicate LastBy(rows: seq<LedgerRow>, n: nat, d: int) {
    && n < |rows|
    && forall i :: 0 < i < |rows| ==> rows[i].EventRow? && (rows[i].event.date <= d <==> i <= n)
  }

  /** At any moment, the last row up to it shows what was owed then. */
  ghost predicate ShowsDueBy(db: Db, c: nat, rows: seq<LedgerRow>, d: int)
    requires c < |db.customers|
  {
    exists n: nat :: LastBy(rows, n, d) && rows[n].runningDue == DueBy(db, c, d)
  }

  /** No receipt's discount is below zero. */
  ghost predicate DiscountsReduce(db: Db) { forall r :: r in db.receipts ==> r.discount >= 0 }

  /**
   * `getCustomerLedger`: every listed event once, oldest first, charges before
   * money, each with the due after it; and the last due is the headline figure.
   */
  method GetCustomerLedger(db: Db, c: nat) returns (r: Result<seq<LedgerRow>, Error>)
    ensures !LiveCustomer(db, c) ==> r == Err(NotFound)
    ensures LiveCustomer(db, c) ==>
      r == Ok(RunningRows(db.customers[c].openingDue, Sort(Events(db, c), ChargeFirst())))
    ensures LiveCustomer(db, c) ==> r.Ok? && IsStatement(db, c, r.value)
    ensures LiveCustomer(db, c) ==> forall d: int :: ShowsDueBy(db, c, r.value, d)
    ensures LiveCustomer(db, c) && DiscountsReduce(db) ==>
      r.Ok? && r.value != [] && r.value[|r.value| - 1].runningDue == CurrentDue(db, c)
  {
    if !LiveCustomer(db, c) {
      return Err(NotFound);
    }
    var events := PushAll(db, c);
    events := Sort(events, ChargeFirst());
    var rows := PushRows(db.customers[c].openingDue, events);
    StatementIsInOrder(db, c);
    StatementShows(db, c, events, rows);
    forall d: int ensures ShowsDueBy(db, c, rows, d) { StatementShowsDueBy(db, c, events, rows, d); }
    StatementEndsOnDue(db, c, events, rows);
    if DiscountsReduce(db) { NoNegativeDiscount(db, c); }
    return Ok(rows);
  }

  /* -------------------- what the events add up to ---------------------- */

  /* Any figure of events, over the tables: each standing sale, each payment on one, each receipt and each discount. */

  function SaleShare(c: nat, f: Event -> int): Sale -> int {
    (s: Sale) => if s.customer == c && !s.deleted then f(Event(s.date, s.price.Billed(), 0)) else 0
  }

  function PaymentShare(sales: seq<Sale>, c: nat, f: Event -> int): Payment -> int {
    (p: Payment) =>
      if p.sale < |sales| && sales[p.sale].customer == c && !sales[p.sale].deleted
      then f(Event(p.paidAt, 0, if p.fromWallet then 0 else p.amount)) else 0
  }

  function ReceiptShare(c: nat, f: Event -> int): Receipt -> int {
    (r: Receipt) =>
      if r.customer != c then 0
      else f(Event(r.date, 0, r.amount1 + r.amount2)) + if r.discount > 0 then f(Event(r.date, 0, r.discount)) else 0
  }

  /** The same for the sales of one kind. */
  function SaleShareOf(c: nat, kind: SaleKind, f: Event -> int): Sale -> int {
    (s: Sale) => if s.price.Kind() == kind then SaleShare(c, f)(s) else 0
  }

  function PaymentShareOf(sales: seq<Sale>, c: nat, kind: SaleKind, n: nat, f: Event -> int): Payment -> int {
    (p: Payment) => if p.sale < n && p.sale < |sales| && sales[p.sale].price.Kind() == kind then PaymentShare(sales, c, f)(p) else 0
  }

  function OnSale(s: nat, f: Event -> int): Payment -> int {
    (p: Payment) => if p.sale == s then f(Event(p.paidAt, 0, if p.fromWallet then 0 else p.amount)) else 0
  }

  lemma SaleEventsFold(db: Db, s: nat, f: Event -> int)
    requires s < |db.sales|
    ensures Sum(SaleEvents(db, s), f) == f(Event(db.sales[s].date, db.sales[s].price.Billed(), 0)) + Sum(db.payments, OnSale(s, f))
  {
    var head := Event(db.sales[s].date, db.sales[s].price.Billed(), 0);
    SumConcat([head], FlatMap(db.payments, PaymentEvent(s)), f);
    SumOne(head, f);
    forall p | p in db.payments ensures OnSale(s, f)(p) == Sum(PaymentEvent(s)(p), f) {
      if p.sale == s { SumOne(PaymentEvent(s)(p)[0], f); }
    }
    SumFlatMap(db.payments, PaymentEvent(s), f, OnSale(s, f));
  }

  lemma ShareNext(sales: seq<Sale>, c: nat, kind: SaleKind, s: nat, p: Payment, f: Event -> int)
    requires s < |sales|
    ensures PaymentShareOf(sales, c, kind, s + 1, f)(p)
         == PaymentShareOf(sales, c, kind, s, f)(p) + if Listed(sales[s], c, kind) then OnSale(s, f)(p) else 0
  {
    if p.sale == s {
      assert PaymentShareOf(sales, c, kind, s + 1, f)(p) == if sales[s].price.Kind() == kind then PaymentShare(sales, c, f)(p) else 0;
    }
  }

  lemma SaleShareIs(sale: Sale, c: nat, kind: SaleKind, f: Event -> int)
    ensures SaleShareOf(c, kind, f)(sale) == if Listed(sale, c, kind) then f(Event(sale.date, sale.price.Billed(), 0)) else 0
  {
    assert SaleShareOf(c, kind, f)(sale) == if sale.price.Kind() == kind then SaleShare(c, f)(sale) else 0;
  }

  lemma {:induction false} KindFold(db: Db, c: nat, kind: SaleKind, n: nat, f: Event -> int)
    requires n <= |db.sales|
    ensures Sum(KindEvents(db, c, kind, n), f)
         == Sum(db.sales[..n], SaleShareOf(c, kind, f)) + Sum(db.payments, PaymentShareOf(db.sales, c, kind, n, f))
  {
    if n == 0 {
      forall p | p in db.payments ensures PaymentShareOf(db.sales, c, kind, 0, f)(p) == 0 {
        assert p.sale >= 0;
      }
      SumZero(db.payments, PaymentShareOf(db.sales, c, kind, 0, f));
    } else {
      var s := n - 1;
      var upTo, more := PaymentShareOf(db.sales, c, kind, s, f), PaymentShareOf(db.sales, c, kind, n, f);
      KindFold(db, c, kind, s, f);
      SumNext(db.sales, s, SaleShareOf(c, kind, f));
      SaleShareIs(db.sales[s], c, kind, f);
      if Listed(db.sales[s], c, kind) {
        SumConcat(KindEvents(db, c, kind, s), SaleEvents(db, s), f);
        SaleEventsFold(db, s, f);
        forall p | p in db.payments ensures more(p) == upTo(p) + OnSale(s, f)(p) { ShareNext(db.sales, c, kind, s, p, f); }
        SumAdd(db.payments, upTo, OnSale(s, f), more);
      } else {
        assert KindEvents(db, c, kind, n) == KindEvents(db, c, kind, s) + [] == KindEvents(db, c, kind, s);
        forall p | p in db.payments ensures more(p) == upTo(p) { ShareNext(db.sales, c, kind, s, p, f); }
        SumEq(db.payments, upTo, more);
      }
    }
  }

  lemma WholeKindFold(db: Db, c: nat, kind: SaleKind, f: Event -> int)
    ensures Sum(KindEvents(db, c, kind, |db.sales|), f)
         == Sum(db.sales, SaleShareOf(c, kind, f)) + Sum(db.payments, PaymentShareOf(db.sales, c, kind, |db.sales|, f))
  {
    KindFold(db, c, kind, |db.sales|, f);
    assert db.sales[..|db.sales|] == db.sales;
  }

  lemma ReceiptsFold(db: Db, c: nat, f: Event -> int)
    ensures Sum(FlatMap(db.receipts, ReceiptEvents(c)), f) == Sum(db.receipts, ReceiptShare(c, f))
  {
    forall r | r in db.receipts ensures ReceiptShare(c, f)(r) == Sum(ReceiptEvents(c)(r), f) {
      var events := ReceiptEvents(c)(r);
      if |events| == 2 {
        SumTwo(events[0], events[1], f);
      } else if |events| == 1 {
        SumOne(events[0], f);
      }
    }
    SumFlatMap(db.receipts, ReceiptEvents(c), f, ReceiptShare(c, f));
  }

  lemma SumOverParts(db: Db, c: nat, f: Event -> int)
    ensures var n := |db.sales|;
            Sum(Events(db, c), f)
            == Sum(KindEvents(db, c, Ticket, n), f) + Sum(KindEvents(db, c, Visa, n), f) + Sum(KindEvents(db, c, Hajj, n), f)
               + Sum(KindEvents(db, c, Tour, n), f) + Sum(KindEvents(db, c, Hotel, n), f) + Sum(FlatMap(db.receipts, ReceiptEvents(c)), f)
  {
    var n := |db.sales|;
    var t, v, h, o, l := KindEvents(db, c, Ticket, n), KindEvents(db, c, Visa, n), KindEvents(db, c, Hajj, n),
      KindEvents(db, c, Tour, n), KindEvents(db, c, Hotel, n);
    SumConcat(t, v, f);
    SumConcat(t + v, h, f);
    SumConcat(t + v + h, o, f);
    SumConcat(t + v + h + o, l, f);
    SumConcat(t + v + h + o + l, FlatMap(db.receipts, ReceiptEvents(c)), f);
  }

  /** Any figure of the listed events is that figure of the tables' own rows. */
  lemma EventsFold(db: Db, c: nat, f: Event -> int)
    ensures Sum(Events(db, c), f)
         == Sum(db.sales, SaleShare(c, f)) + Sum(db.payments, PaymentShare(db.sales, c, f)) + Sum(db.receipts, ReceiptShare(c, f))
  {
    SumOverParts(db, c, f);
    WholeKindFold(db, c, Ticket, f);
    WholeKindFold(db, c, Visa, f);
    WholeKindFold(db, c, Hajj, f);
    WholeKindFold(db, c, Tour, f);
    WholeKindFold(db, c, Hotel, f);
    ReceiptsFold(db, c, f);
    SumFive(db.sales, SaleShare(c, f), (k: SaleKind) => SaleShareOf(c, k, f));
    SumFive(db.payments, PaymentShare(db.sales, c, f), (k: SaleKind) => PaymentShareOf(db.sales, c, k, |db.sales|, f));
  }

  /** A discount below zero, which the request schema refuses, would not be listed. */
  function NegativeDiscount(c: nat): Receipt -> int {
    (r: Receipt) => if r.customer == c && r.discount < 0 then r.discount else 0
  }

  lemma EventsSum(db: Db, c: nat)
    ensures Sum(Events(db, c), Net())
         == TotalPurchase(db, c) - Collections(db, c) - TotalDiscount(db, c) + Sum(db.receipts, NegativeDiscount(c))
  {
    EventsFold(db, c, Net());
    SumEq(db.sales, SaleShare(c, Net()), BilledTo(c));
    SumNegate(db.payments, CreditTo(db.sales, c), PaymentShare(db.sales, c, Net()));
    var credit := (r: Receipt) => ReceivedFrom(c)(r) + DiscountTo(c)(r);
    SumAdd(db.receipts, ReceivedFrom(c), DiscountTo(c), credit);
    SumAdd(db.receipts, ReceiptShare(c, Net()), credit, NegativeDiscount(c));
  }

  /** The rows are the listed events, in date order, charges ahead of money on the same instant. */
  lemma StatementIsInOrder(db: Db, c: nat)
    ensures var events := Sort(Events(db, c), ChargeFirst());
            multiset(events) == multiset(Events(db, c)) && Ordered(events, ChargeFirst())
  {
    assert TotalPreorder(ChargeFirst());
    SortOrders(Events(db, c), ChargeFirst());
  }

  lemma RowsEndOnSum(openingDue: int, events: seq<Event>)
    ensures var rows := RunningRows(openingDue, events);
            rows != [] && rows[|rows| - 1].runningDue == openingDue + Sum(events, Net())
  {
  }

  lemma NoNegativeDiscount(db: Db, c: nat)
    requires DiscountsReduce(db)
    ensures Sum(db.receipts, NegativeDiscount(c)) == 0
  {
    SumZero(db.receipts, NegativeDiscount(c));
  }

  lemma StatementSum(db: Db, c: nat, events: seq<Event>)
    requires c < |db.customers| && multiset(events) == multiset(Events(db, c))
    ensures db.customers[c].openingDue + Sum(events, Net()) == CurrentDue(db, c) + Sum(db.receipts, NegativeDiscount(c))
  {
    SumPermuted(events, Events(db, c), Net());
    EventsSum(db, c);
  }

  /**
   * Whatever order the events are in, the statement ends on `CurrentDue`, short
   * only of discounts that are below zero.
   */
  lemma StatementEndsOnDue(db: Db, c: nat, events: seq<Event>, rows: seq<LedgerRow>)
    requires c < |db.customers| && multiset(events) == multiset(Events(db, c))
    requires rows == RunningRows(db.customers[c].openingDue, events)
    ensures rows != [] && rows[|rows| - 1].runningDue == CurrentDue(db, c) + Sum(db.receipts, NegativeDiscount(c))
  {
    RowsEndOnSum(db.customers[c].openingDue, events);
    StatementSum(db, c, events);
  }

  /* --------------------- the statement shows them ---------------------- */

  lemma {:induction false} RowsRun(openingDue: int, events: seq<Event>)
    ensures var rows := RunningRows(openingDue, events);
            && |rows| == |events| + 1 && rows[0] == OpeningRow(openingDue)
            && forall i :: 0 <= i < |events| ==> rows[i + 1] == EventRow(events[i], openingDue + Sum(events[..i + 1], Net()))
  {
    if events != [] {
      var init := events[..|events| - 1];
      RowsRun(openingDue, init);
      forall i | 0 <= i < |events|
        ensures RunningRows(openingDue, events)[i + 1] == EventRow(events[i], openingDue + Sum(events[..i + 1], Net()))
      {
        if i < |init| {
          assert init[..i + 1] == events[..i + 1];
        } else {
          assert events[..i + 1] == events;
        }
      }
    }
  }

  lemma RowsAreRun(openingDue: int, events: seq<Event>, rows: seq<LedgerRow>)
    requires rows == RunningRows(openingDue, events)
    ensures Runs(openingDue, rows) && Lines(rows) == events
  {
    RowsRun(openingDue, events);
    forall i | 0 < i < |rows|
      ensures rows[i].EventRow? && rows[i].runningDue == rows[i - 1].runningDue + rows[i].event.debit - rows[i].event.credit
    {
      SumNext(events, i - 1, Net());
      assert rows[(i - 1) + 1] == EventRow(events[i - 1], openingDue + Sum(events[..i], Net()));
      if i == 1 {
        assert events[..0] == [];
      } else {
        assert rows[(i - 2) + 1] == EventRow(events[i - 2], openingDue + Sum(events[..i - 1], Net()));
      }
    }
  }

  lemma BilledIs(s: Sale)
    ensures s.price.Billed() == if StatusOf(s.price) == Some(Cancelled) then 0 else s.price.Charge()
  {
  }

  lemma SaleLines(sales: seq<Sale>, c: nat, e: Event)
    ensures Sum(sales, SaleShare(c, Reads(e))) == Sum(sales, SaleLine(c, e))
  {
    forall s | s in sales ensures SaleShare(c, Reads(e))(s) == SaleLine(c, e)(s) { BilledIs(s); }
    SumEq(sales, SaleShare(c, Reads(e)), SaleLine(c, e));
  }

  lemma PaymentReads(sales: seq<Sale>, c: nat, e: Event, p: Payment)
    ensures PaymentShare(sales, c, Reads(e))(p) == PaymentLine(sales, c, e)(p)
  {
    var own := Event(p.paidAt, 0, if p.fromWallet then 0 else p.amount);
    assert Reads(e)(own) == if own == e then 1 else 0;
  }

  lemma PaymentLines(sales: seq<Sale>, payments: seq<Payment>, c: nat, e: Event)
    ensures Sum(payments, PaymentShare(sales, c, Reads(e))) == Sum(payments, PaymentLine(sales, c, e))
  {
    forall p | p in payments ensures PaymentShare(sales, c, Reads(e))(p) == PaymentLine(sales, c, e)(p) { PaymentReads(sales, c, e, p); }
    SumEq(payments, PaymentShare(sales, c, Reads(e)), PaymentLine(sales, c, e));
  }

  lemma ReceiptReads(c: nat, e: Event, r: Receipt)
    ensures ReceiptShare(c, Reads(e))(r) == ReceiptLine(c, e)(r) + DiscountLine(c, e)(r)
  {
    var own, off := Event(r.date, 0, r.amount1 + r.amount2), Event(r.date, 0, r.discount);
    assert Reads(e)(own) == if own == e then 1 else 0;
    assert Reads(e)(off) == if off == e then 1 else 0;
  }

  lemma ReceiptLines(receipts: seq<Receipt>, c: nat, e: Event)
    ensures Sum(receipts, ReceiptShare(c, Reads(e))) == Sum(receipts, ReceiptLine(c, e)) + Sum(receipts, DiscountLine(c, e))
  {
    forall r | r in receipts ensures ReceiptShare(c, Reads(e))(r) == ReceiptLine(c, e)(r) + DiscountLine(c, e)(r) { ReceiptReads(c, e, r); }
    SumAdd(receipts, ReceiptLine(c, e), DiscountLine(c, e), ReceiptShare(c, Reads(e)));
  }

  lemma LinesAreTheTables(db: Db, c: nat, events: seq<Event>, e: Event)
    requires multiset(events) == multiset(Events(db, c))
    ensures Sum(events, Reads(e))
         == Sum(db.sales, SaleLine(c, e)) + Sum(db.payments, PaymentLine(db.sales, c, e))
            + Sum(db.receipts, ReceiptLine(c, e)) + Sum(db.receipts, DiscountLine(c, e))
  {
    SumPermuted(events, Events(db, c), Reads(e));
    EventsFold(db, c, Reads(e));
    SaleLines(db.sales, c, e);
    PaymentLines(db.sales, db.payments, c, e);
    ReceiptLines(db.receipts, c, e);
  }

  /** The events in order, with their running dues, are the statement. */
  lemma StatementShows(db: Db, c: nat, events: seq<Event>, rows: seq<LedgerRow>)
    requires c < |db.customers| && multiset(events) == multiset(Events(db, c)) && Ordered(events, ChargeFirst())
    requires rows == RunningRows(db.customers[c].openingDue, events)
    ensures IsStatement(db, c, rows)
  {
    RowsAreRun(db.customers[c].openingDue, events, rows);
    forall e: Event
      ensures Sum(events, Reads(e))
           == Sum(db.sales, SaleLine(c, e)) + Sum(db.payments, PaymentLine(db.sales, c, e))
              + Sum(db.receipts, ReceiptLine(c, e)) + Sum(db.receipts, DiscountLine(c, e))
    {
      LinesAreTheTables(db, c, events, e);
    }
    forall i, j | 0 <= i < j < |events|
      ensures events[i].date < events[j].date || (events[i].date == events[j].date && events[i].debit >= events[j].debit)
    {
      assert ChargeFirst()(events[i], events[j]);
    }
  }

  function NetBy(d: int): Event -> int { (e: Event) => if e.date <= d then e.debit - e.credit else 0 }

  lemma SalesBilledBy(sales: seq<Sale>, c: nat, d: int)
    ensures Sum(sales, SaleShare(c, NetBy(d))) == Sum(sales, BilledBy(c, d))
  {
    forall s | s in sales ensures SaleShare(c, NetBy(d))(s) == BilledBy(c, d)(s) { BilledIs(s); }
    SumEq(sales, SaleShare(c, NetBy(d)), BilledBy(c, d));
  }

  lemma CashTakenBy(sales: seq<Sale>, payments: seq<Payment>, c: nat, d: int)
    ensures Sum(payments, PaymentShare(sales, c, NetBy(d))) == -Sum(payments, CashBy(sales, c, d))
  {
    forall p | p in payments ensures PaymentShare(sales, c, NetBy(d))(p) == -CashBy(sales, c, d)(p) {
      assert NetBy(d)(Event(p.paidAt, 0, 0)) == 0;
    }
    SumNegate(payments, CashBy(sales, c, d), PaymentShare(sales, c, NetBy(d)));
  }

  lemma ReceiptsGivenBy(receipts: seq<Receipt>, c: nat, d: int)
    ensures Sum(receipts, ReceiptShare(c, NetBy(d))) == -Sum(receipts, GivenBy(c, d))
  {
    forall r | r in receipts ensures ReceiptShare(c, NetBy(d))(r) == -GivenBy(c, d)(r) {
      assert NetBy(d)(Event(r.date, 0, r.discount)) == if r.date <= d then -r.discount else 0;
    }
    SumNegate(receipts, GivenBy(c, d), ReceiptShare(c, NetBy(d)));
  }

  lemma NetByIsDue(db: Db, c: nat, events: seq<Event>, d: int)
    requires c < |db.customers| && multiset(events) == multiset(Events(db, c))
    ensures db.customers[c].openingDue + Sum(events, NetBy(d)) == DueBy(db, c, d)
  {
    SumPermuted(events, Events(db, c), NetBy(d));
    EventsFold(db, c, NetBy(d));
    SalesBilledBy(db.sales, c, d);
    CashTakenBy(db.sales, db.payments, c, d);
    ReceiptsGivenBy(db.receipts, c, d);
  }

  lemma RowAt(openingDue: int, events: seq<Event>, rows: seq<LedgerRow>, n: nat)
    requires rows == RunningRows(openingDue, events) && n <= |events|
    ensures n < |rows| && rows[n].runningDue == openingDue + Sum(events[..n], Net())
    ensures n > 0 ==> rows[n].EventRow? && rows[n].event == events[n - 1]
  {
    RowsRun(openingDue, events);
    if n == 0 {
      assert events[..0] == [];
    } else {
      assert rows[(n - 1) + 1] == EventRow(events[n - 1], openingDue + Sum(events[..n], Net()));
    }
  }

  lemma FirstRowsBy(events: seq<Event>, d: int) returns (n: nat)
    requires Ordered(events, ChargeFirst())
    ensures n <= |events| && (forall i :: 0 <= i < |events| ==> (events[i].date <= d <==> i < n))
    ensures Sum(events[..n], Net()) == Sum(events, NetBy(d))
  {
    var date := (e: Event) => e.date;
    forall i, j | 0 <= i < j < |events| ensures date(events[i]) <= date(events[j]) {
      assert ChargeFirst()(events[i], events[j]);
    }
    n := PrefixBy(events, date, d);
    forall i | 0 <= i < |events| ensures events[i].date <= d <==> i < n {
      assert date(events[i]) <= d <==> i < n;
    }
    SumPrefix(events, n, Net(), NetBy(d));
  }

  lemma StatementShowsDueBy(db: Db, c: nat, events: seq<Event>, rows: seq<LedgerRow>, d: int)
    requires c < |db.customers| && multiset(events) == multiset(Events(db, c)) && Ordered(events, ChargeFirst())
    requires rows == RunningRows(db.customers[c].openingDue, events)
    ensures ShowsDueBy(db, c, rows, d)
  {
    var n := FirstRowsBy(events, d);
    NetByIsDue(db, c, events, d);
    RowsRun(db.customers[c].openingDue, events);
    forall i | 0 < i < |rows| ensures rows[i].EventRow? && (rows[i].event.date <= d <==> i <= n) {
      RowAt(db.customers[c].openingDue, events, rows, i);
    }
    RowAt(db.customers[c].openingDue, events, rows, n);
    assert LastBy(rows, n, d) && rows[n].runningDue == DueBy(db, c, d);
  }
}
