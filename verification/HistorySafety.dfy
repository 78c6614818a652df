/**
 * The import never trips the services' own guards, and a completed import run
 * again over the same rows adds nothing.
 */
module HistorySafety {
  import opened Wrappers
  import opened Rows
  import opened Books
  import opened Calls
  import opened History
  import opened HistoryPasses

  /* ----------------- imported payments never trip the guard ------------- */

  /**
   * Partway through a row: the row's ticket and sale are the last rows of their
   * tables, all earlier ones are as they were, and `paid` has been taken on it.
   */
  ghost predicate Writing(text: Text, t0: Tables, t: Tables, r: TicketRow, charge: int, paid: int) {
    var k, sale := |t0.tickets|, |t0.db.sales|;
    && Complete(r) && Valid(t)
    && |t.tickets| == k + 1 && t.tickets[..k] == t0.tickets
    && |t.db.sales| == sale + 1 && t.db.sales[..sale] == t0.db.sales
    && t.db.customers == t0.db.customers && t.db.accounts == t0.db.accounts && t.categories == t0.categories
    && t.movements == t0.movements && t.db.receipts == t0.db.receipts
    && Found(t, k) && t.tickets[k].sale == sale && t.tickets[k].status == Issued
    && t.tickets[k].pnr == text.upper(r.pnr.value) && t.tickets[k].issueDate == r.issueDate
    && t.db.sales[sale].price.Charge() == charge
    && Paid(t.db.payments, sale) == paid
  }

  predicate OnlyAccountTrouble(o: Passed) { o.Err? ==> o.error == Refused(NotFound) || o.error == Refused(Inactive) }

  lemma NothingPaidYet(payments: seq<Payment>, sale: nat)
    requires forall p :: p in payments ==> p.sale < sale
    ensures Paid(payments, sale) == 0
  {
    SumZero(payments, AmountOn(sale));
  }

  lemma CreateStartsWriting(text: Text, t: Tables, c: nat, r: TicketRow)
    requires Valid(t) && Complete(r)
    ensures OnlyAccountTrouble(CreateTicket(text, t, c, r))
    ensures CreateTicket(text, t, c, r).Ok? ==>
              var t' := CreateTicket(text, t, c, r).value;
              Writing(text, t, t', r, r.fare.value, 0) && t'.db.sales[|t.db.sales|].price.dateChangeFee == 0
  {
    NothingPaidYet(t.db.payments, |t.db.sales|);
  }

  lemma UpdateKeepsValid(t: Tables, k: nat, ticket: History.Ticket, price: Price)
    requires Valid(t) && Found(t, k) && ticket.sale == t.tickets[k].sale && price.TicketPrice?
    ensures Valid(Update(t, k, ticket, price))
    ensures forall j :: 0 <= j < |t.tickets| && j != k ==> Update(t, k, ticket, price).tickets[j] == t.tickets[j]
  {
    var t' := Update(t, k, ticket, price);
    forall j | 0 <= j < |t'.tickets|
      ensures t'.tickets[j].sale == t.tickets[j].sale
      ensures var one := t'.tickets[j]; one.profit == t'.db.sales[one.sale].price.Charge() - one.cost - one.changeCost
    {
      if j != k {
        assert t'.tickets[j] == t.tickets[j] && t.tickets[j] in t.tickets;
        assert t.tickets[j].sale != t.tickets[k].sale;
      }
    }
  }

  lemma DateChangeIsAllowed(text: Text, t0: Tables, t: Tables, r: TicketRow, charge: int)
    requires Writing(text, t0, t, r, charge, 0) && t.db.sales[|t0.db.sales|].price.dateChangeFee == 0
    ensures Dated(t, |t0.tickets|, r).Ok?
    ensures Writing(text, t0, Dated(t, |t0.tickets|, r).value, r, charge + ChangeFee(r), 0)
  {
    if ChangesDate(r) {
      var k, price := |t0.tickets|, t.db.sales[|t0.db.sales|].price;
      UpdateKeepsValid(t, k, t.tickets[k].(changeCost := ChangeCost(r)), price.(dateChangeFee := ChangeFee(r)));
    }
  }

  /** `take` bounded the amount by what is owed, so the overpayment guard passes. */
  lemma PaymentIsAllowed(text: Text, t0: Tables, t: Tables, r: TicketRow, charge: int, paid: int, taken: Option<Taken>)
    requires Writing(text, t0, t, r, charge, paid)
    requires taken.Some? ==> 0 < taken.value.amount <= charge - paid
    ensures OnlyAccountTrouble(Settled(t, |t0.db.sales|, taken))
    ensures Settled(t, |t0.db.sales|, taken).Ok? ==>
              Writing(text, t0, Settled(t, |t0.db.sales|, taken).value, r, charge,
                      paid + if taken.Some? then taken.value.amount else 0)
  {
    var sale := |t0.db.sales|;
    if taken.Some? && Settled(t, sale, taken).Ok? {
      var t' := Settled(t, sale, taken).value;
      var p := t'.db.payments[|t.db.payments|];
      assert t'.db.payments == t.db.payments + [p];
    }
  }

  /** Any state the sheet names can be reached from a ticket that was just issued. */
  lemma StatusIsAllowed(text: Text, t0: Tables, t: Tables, r: TicketRow, charge: int, paid: int)
    requires Writing(text, t0, t, r, charge, paid)
    ensures Statused(text, t, |t0.tickets|, r).Ok?
    ensures Written(text, t0, Statused(text, t, |t0.tickets|, r).value, r, paid)
  {
    var k, to := |t0.tickets|, SheetStatus(text, r);
    if to.Some? && to.value != Issued {
      var price := t.db.sales[|t0.db.sales|].price;
      UpdateKeepsValid(t, k, t.tickets[k].(status := to.value),
                       if to.value == Refunded then price.(refundAmount := Owed(r)) else price);
    }
  }

  /** The row is in: one new ticket with one new sale, nothing else about earlier ones changed. */
  ghost predicate Written(text: Text, t0: Tables, t: Tables, r: TicketRow, paid: int) {
    var k, sale := |t0.tickets|, |t0.db.sales|;
    && Complete(r) && Valid(t)
    && |t.tickets| == k + 1 && t.tickets[..k] == t0.tickets
    && |t.db.sales| == sale + 1 && t.db.sales[..sale] == t0.db.sales
    && t.db.accounts == t0.db.accounts && t.categories == t0.categories && t.movements == t0.movements
    && t.db.receipts == t0.db.receipts
    && Found(t, k) && t.tickets[k].sale == sale
    && t.tickets[k].pnr == text.upper(r.pnr.value) && t.tickets[k].issueDate == r.issueDate
    && t.tickets[k].status == SheetStatus(text, r).GetOr(Issued)
    && Paid(t.db.payments, sale) == paid
  }

  /** What `take` let through on the row, both payments together. */
  function TakenOn(lists: Lists, r: TicketRow): (total: int)
    ensures 0 <= total && (total > 0 ==> total <= Owed(r))
  {
    Owed(r) - History.After(History.After(Owed(r), FirstTake(lists, r)), SecondTake(lists, r))
  }

  /**
   * A row can only be stopped by its customer or its accounts: the date change, both
   * payments and the move to the sheet's state are never refused, and what is taken
   * is at most fare plus change fee.
   */
  lemma ImportNeverOverpays(text: Text, lists: Lists, t: Tables, r: TicketRow)
    requires Valid(t) && Importable(lists, r)
    ensures OnlyAccountTrouble(WriteTicket(text, lists, t, r))
    ensures WriteTicket(text, lists, t, r).Ok? ==>
              Written(text, t, WriteTicket(text, lists, t, r).value, r, TakenOn(lists, r))
  {
    var made := CreateTicket(text, t, lists.customer(r.phone, r.passenger.value).value, r);
    CreateStartsWriting(text, t, lists.customer(r.phone, r.passenger.value).value, r);
    if made.Ok? {
      DateChangeIsAllowed(text, t, made.value, r, r.fare.value);
      PaidAndStatused(text, lists, t, Dated(made.value, |t.tickets|, r).value, r);
    }
  }

  lemma PaidAndStatused(text: Text, lists: Lists, t0: Tables, t: Tables, r: TicketRow)
    requires Writing(text, t0, t, r, Owed(r), 0)
    ensures var done := Finish(text, lists, t, |t0.tickets|, |t0.db.sales|, r);
            OnlyAccountTrouble(done) && (done.Ok? ==> Written(text, t0, done.value, r, TakenOn(lists, r)))
  {
    PaymentIsAllowed(text, t0, t, r, Owed(r), 0, FirstTake(lists, r));
    var first := Settled(t, |t0.db.sales|, FirstTake(lists, r));
    if first.Ok? {
      var paid := Owed(r) - History.After(Owed(r), FirstTake(lists, r));
      PaymentIsAllowed(text, t0, first.value, r, Owed(r), paid, SecondTake(lists, r));
      var second := Settled(first.value, |t0.db.sales|, SecondTake(lists, r));
      if second.Ok? {
        StatusIsAllowed(text, t0, second.value, r, Owed(r), TakenOn(lists, r));
      }
    }
  }
}
