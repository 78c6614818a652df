/**
 * The import as it runs: row loops that change the books, the keys seen so far, the
 * counts and the rollback list. Each loop does what its pass in HistoryPasses says,
 * and the rollback list is exactly the rows added.
 */
module HistoryImport {
  import opened Wrappers
  import opened Rows
  import opened Books
  import opened Calls
  import opened History
  import opened HistoryPasses
  import opened HistorySafety
  import opened HistoryRerun
  import HistoryEffects

  lemma {:induction false} StaysFailed(text: Text, lists: Lists, t: Tables, tab: Tab, lines: seq<Line>, n: nat)
    requires n <= |lines| && MovementPass(text, lists, t, tab, lines[..n]).Err?
    ensures MovementPass(text, lists, t, tab, lines) == MovementPass(text, lists, t, tab, lines[..n])
    decreases |lines|
  {
    if n == |lines| {
      assert lines[..n] == lines;
    } else {
      assert lines[..|lines| - 1][..n] == lines[..n];
      StaysFailed(text, lists, t, tab, lines[..|lines| - 1], n);
    }
  }

  /** Reading one more row of a money tab. */
  lemma PassNext(text: Text, lists: Lists, t0: Tables, tab: Tab, lines: seq<Line>, i: nat, t: Tables)
    requires i < |lines| && MovementPass(text, lists, t0, tab, lines[..i]) == Ok(t)
    ensures MovementPass(text, lists, t0, tab, lines[..i + 1]) == MovementRow(text, lists, t, tab, lines[i])
  {
    assert lines[..i + 1][..i] == lines[..i];
  }

  /** Reading one more row of the expenses. */
  lemma ExpensesNext(text: Text, lists: Lists, t0: Tables, lines: seq<Line>, i: nat, t: Tables)
    requires i < |lines| && ExpensePass(text, lists, t0, lines[..i]) == Ok(t)
    ensures ExpensePass(text, lists, t0, lines[..i + 1]) == ExpenseRow(text, lists, t, lines[i])
  {
    assert lines[..i + 1][..i] == lines[..i];
  }

  lemma {:induction false} ExpensesStayFailed(text: Text, lists: Lists, t: Tables, lines: seq<Line>, n: nat)
    requires n <= |lines| && ExpensePass(text, lists, t, lines[..n]).Err?
    ensures ExpensePass(text, lists, t, lines) == ExpensePass(text, lists, t, lines[..n])
    decreases |lines|
  {
    if n == |lines| {
      assert lines[..n] == lines;
    } else {
      assert lines[..|lines| - 1][..n] == lines[..n];
      ExpensesStayFailed(text, lists, t, lines[..|lines| - 1], n);
    }
  }

  lemma CategoryAddsOne(text: Text, t: Tables, name: string)
    ensures var t', id := WithCategory(t, name), t.db.nextId;
            && AddsOne(t, t', CategoryRecord, id) && (Valid(t) ==> Valid(t'))
            && ByName(text, t'.categories) == ByName(text, t.categories)[text.normalise(name) := id]
  {
    var t', id := WithCategory(t, name), t.db.nextId;
    assert t'.categories[..|t.categories|] == t.categories;
    forall e: Entity ensures Ids(t', e) == Ids(t, e) + if e == CategoryRecord then [id] else [] {
      if e == CategoryRecord {
        FlatMapAppend(t.categories, Category(id, name, false), CategoryId());
      } else {
        assert Ids(t', e) == Ids(t, e);
      }
    }
  }

  lemma FreshPrefix(text: Text, lists: Lists, rows: seq<TicketRow>, seen: set<TicketKey>, n: nat)
    requires n <= |rows|
    ensures Fresh(text, lists, rows[..n], seen) <= Fresh(text, lists, rows, seen)
    decreases |rows|
  {
    if n == |rows| {
      assert rows[..n] == rows;
    } else {
      assert rows[..|rows| - 1][..n] == rows[..n];
      FreshPrefix(text, lists, rows[..|rows| - 1], seen, n);
    }
  }

  lemma {:induction false} TicketsStayFailed(text: Text, lists: Lists, t: Tables, rows: seq<TicketRow>, n: nat)
    requires n <= |rows| && (forall r :: r in rows ==> Importable(lists, r))
    requires WriteTickets(text, lists, t, rows[..n]).Err?
    ensures WriteTickets(text, lists, t, rows) == WriteTickets(text, lists, t, rows[..n])
    decreases |rows|
  {
    if n == |rows| {
      assert rows[..n] == rows;
    } else {
      assert rows[..|rows| - 1][..n] == rows[..n];
      TicketsStayFailed(text, lists, t, rows[..|rows| - 1], n);
    }
  }

  lemma PassStaysFailed(text: Text, lists: Lists, t: Tables, rows: seq<TicketRow>, books: set<TicketKey>, n: nat)
    requires n <= |rows| && WriteTickets(text, lists, t, Fresh(text, lists, rows[..n], books)).Err?
    ensures WriteTickets(text, lists, t, Fresh(text, lists, rows, books))
         == WriteTickets(text, lists, t, Fresh(text, lists, rows[..n], books))
  {
    var some, all := Fresh(text, lists, rows[..n], books), Fresh(text, lists, rows, books);
    FreshPrefix(text, lists, rows, books, n);
    assert all[..|some|] == some;
    TicketsStayFailed(text, lists, t, all, |some|);
  }

  /** What reading one more row of the sales tab adds to the rows written. */
  lemma FreshNext(text: Text, lists: Lists, rows: seq<TicketRow>, books: set<TicketKey>, i: nat, t0: Tables, t: Tables)
    requires i < |rows| && WriteTickets(text, lists, t0, Fresh(text, lists, rows[..i], books)) == Ok(t)
    ensures var before, after := Fresh(text, lists, rows[..i], books), Fresh(text, lists, rows[..i + 1], books);
            var seen := books + RowKeys(text, before);
            if Creates(text, lists, rows[i], seen)
            then RowKeys(text, after) == RowKeys(text, before) + {RowKey(text, rows[i])}
                 && WriteTickets(text, lists, t0, after) == WriteTicket(text, lists, t, rows[i])
            else after == before
  {
    assert rows[..i + 1][..i] == rows[..i];
    var before, r := Fresh(text, lists, rows[..i], books), rows[i];
    if Creates(text, lists, r, books + RowKeys(text, before)) {
      assert (before + [r])[..|before|] == before;
    }
  }

  lemma OnlyAccountsRefuse(text: Text, lists: Lists, t: Tables, r: TicketRow)
    requires Valid(t) && Importable(lists, r)
    ensures OnlyAccountTrouble(WriteTicket(text, lists, t, r))
  {
    ImportNeverOverpays(text, lists, t, r);
  }

  lemma CreateKeeps(t: Tables, m: Movement)
    requires Create(t, m).Ok?
    ensures var t' := Create(t, m).value;
            (Valid(t) ==> Valid(t')) && t'.categories == t.categories && AddsOne(t, t', MovementRecord(m.Tab()), t.db.nextId)
  {
    CreateAddsOne(t, m);
  }

  lemma SeenNext(books: set<TicketKey>, keys: set<TicketKey>, k: TicketKey)
    ensures (books + keys) + {k} == books + (keys + {k})
  {
  }

  lemma TicketAddsOne(text: Text, t: Tables, c: nat, r: TicketRow)
    requires Valid(t) && Complete(r) && CreateTicket(text, t, c, r).Ok?
    ensures var t' := CreateTicket(text, t, c, r).value;
            Valid(t') && t'.categories == t.categories && AddsOne(t, t', TicketRecord, |t.db.sales|)
  {
    CreateStartsWriting(text, t, c, r);
    FlatMapAppend(t.tickets, CreateTicket(text, t, c, r).value.tickets[|t.tickets|], TicketId());
  }

  lemma PaymentAddsOne(t: Tables, sale: nat, taken: Taken)
    requires Valid(t) && PayTicket(t, sale, taken).Ok?
    ensures var t' := PayTicket(t, sale, taken).value;
            && Valid(t') && t'.categories == t.categories
            && AddsOne(t, t', TicketPaymentRecord, t.db.nextId)
            && t'.db.payments != [] && t'.db.payments[|t'.db.payments| - 1].id == t.db.nextId
  {
    var t' := PayTicket(t, sale, taken).value;
    FlatMapAppend(t.db.payments, t'.db.payments[|t.db.payments|], PaymentId());
  }

  /** `t'` is `t` with ticket `k`'s own columns and price rewritten. */
  ghost predicate Revised(t: Tables, t': Tables, k: nat) {
    exists ticket: History.Ticket, price: Price ::
      Found(t, k) && ticket.sale == t.tickets[k].sale && price.TicketPrice? && t' == Update(t, k, ticket, price)
  }

  lemma {:induction false} SameTicketIds(a: seq<History.Ticket>, b: seq<History.Ticket>)
    requires |a| == |b| && forall i :: 0 <= i < |a| ==> a[i].sale == b[i].sale
    ensures FlatMap(a, TicketId()) == FlatMap(b, TicketId())
  {
    if a != [] {
      SameTicketIds(a[..|a| - 1], b[..|b| - 1]);
    }
  }

  lemma RevisedKeeps(t: Tables, t': Tables, k: nat)
    requires Valid(t) && Revised(t, t', k)
    ensures Valid(t') && t'.categories == t.categories
    ensures (forall e :: Ids(t', e) == Ids(t, e)) && t'.db.postings == t.db.postings
  {
    var ticket: History.Ticket, price: Price :|
      Found(t, k) && ticket.sale == t.tickets[k].sale && price.TicketPrice? && t' == Update(t, k, ticket, price);
    UpdateKeepsValid(t, k, ticket, price);
    SameTicketIds(t.tickets, t'.tickets);
  }

  lemma NothingRecorded(t: Tables, recorded: Recorded)
    requires RecordsExactly(t, t, recorded)
    ensures recorded == []
  {
    if recorded != [] {
      var (e, id) := recorded[0];
      assert Ids(t, e) == Ids(t, e) + FlatMap(recorded, OfEntity(e));
      assert |FlatMap(recorded, OfEntity(e))| == 0;
      FlatMapHolds(recorded, e, id);
    }
  }

  lemma {:induction false} FlatMapHolds(recorded: Recorded, e: Entity, id: nat)
    requires (e, id) in recorded
    ensures id in FlatMap(recorded, OfEntity(e))
  {
    var init, last := recorded[..|recorded| - 1], recorded[|recorded| - 1];
    assert recorded == init + [last];
    if last != (e, id) {
      FlatMapHolds(init, e, id);
    }
  }

  class Run {
    const text: Text
    const lists: Lists
    ghost const start: Tables
    var tables: Tables
    var categoryByName: map<string, nat>
    var recorded: Recorded
    var counts: map<Entity, nat>

    /**
     * Rows are well formed, the rollback list is exactly the rows added since the start, and
     * every posting since then carries the id of one of them.
     */
    ghost predicate Tracked() reads this {
      Valid(tables) && RecordsExactly(start, tables, recorded) && PostsRecorded(start, tables, recorded)
    }

    ghost predicate Good() reads this { Tracked() && categoryByName == ByName(text, tables.categories) }

    constructor (text: Text, lists: Lists, tables: Tables)
      requires Valid(tables)
      ensures Good() && this.text == text && this.lists == lists && this.tables == tables && start == tables && recorded == []
    {
      this.text, this.lists, this.tables, this.start := text, lists, tables, tables;
      categoryByName := ByName(text, tables.categories);
      recorded := [];
      counts := map[];
    }

    /** The new state taken over, with the row it added counted and put on the rollback list. */
    method Log(after: Tables, e: Entity, id: nat)
      requires Tracked() && Valid(after) && AddsOne(tables, after, e, id)
      modifies `tables, `recorded, `counts
      ensures Tracked() && tables == after && recorded == old(recorded) + [(e, id)]
      ensures forall k :: Get(counts, k, 0) == old(Get(counts, k, 0)) + if k == e then 1 else 0
    {
      RecordOne(start, tables, after, recorded, e, id);
      PostOne(start, tables, after, recorded, e, id);
      tables := after;
      Tally(e);
      recorded := recorded + [(e, id)];
    }

    /** One row written through its service. */
    method Write(m: Movement) returns (failure: Option<Failure>)
      requires Good()
      modifies this
      ensures failure.None? ==> Good()
      ensures Did(Create(old(tables), m), failure)
    {
      var created := Create(tables, m);
      if created.Err? {
        return Some(created.error);
      }
      CreateKeeps(tables, m);
      Log(created.value, MovementRecord(m.Tab()), tables.db.nextId);
      return None;
    }

    method Tally(e: Entity)
      modifies this`counts
      ensures forall k :: Get(counts, k, 0) == old(Get(counts, k, 0)) + if k == e then 1 else 0
    {
      counts := counts[e := Get(counts, e, 0) + 1];
    }

    /** The method ended as the state change says. */
    ghost predicate Did(outcome: Passed, failure: Option<Failure>) reads this {
      match outcome
      case Ok(t) => failure.None? && tables == t
      case Err(e) => failure == Some(e)
    }

    /** The loop of one money tab: `seen` starts as the keys in the books and grows with every row written. */
    method ImportMovements(tab: Tab, lines: seq<Line>) returns (failure: Option<Failure>)
      requires tab != Expenses && Good()
      modifies this
      ensures failure.None? ==> Good()
      ensures Did(MovementPass(text, lists, old(tables), tab, lines), failure)
    {
      var seen := Keys(text, tables, tab);
      for i := 0 to |lines|
        invariant Good() && seen == Keys(text, tables, tab)
        invariant MovementPass(text, lists, old(tables), tab, lines[..i]) == Ok(tables)
      {
        PassNext(text, lists, old(tables), tab, lines, i, tables);
        var plan := Plan(lists, tab, lines[i]);
        if plan.None? || KeyOf(text, plan.value) in seen {
          continue;
        }
        CreateKeys(text, tables, plan.value);
        failure := Write(plan.value);
        if failure.Some? {
          StaysFailed(text, lists, old(tables), tab, lines, i + 1);
          return;
        }
        seen := seen + {KeyOf(text, plan.value)};
      }
      assert lines[..|lines|] == lines;
      return None;
    }

    /** A category a row invented, made once and known by name from then on. */
    method MakeCategory(name: string) returns (failure: Option<Failure>, id: nat)
      requires Good() && text.normalise(name) !in categoryByName
      modifies this
      ensures failure.None? ==> Good() && id == old(tables.db.nextId)
      ensures Did(CreateCategory(text, old(tables), name), failure)
    {
      var created := CreateCategory(text, tables, name);
      id := tables.db.nextId;
      if created.Err? {
        return Some(created.error), id;
      }
      CategoryAddsOne(text, tables, name);
      var byName := categoryByName[text.normalise(name) := id];
      assert byName == ByName(text, created.value.categories);
      Log(created.value, CategoryRecord, id);
      categoryByName := byName;
      return None, id;
    }

    method ImportExpenses(lines: seq<Line>) returns (failure: Option<Failure>)
      requires Good()
      modifies this
      ensures failure.None? ==> Good()
      ensures Did(ExpensePass(text, lists, old(tables), lines), failure)
    {
      var seen := Keys(text, tables, Expenses);
      for i := 0 to |lines|
        invariant Good() && seen == Keys(text, tables, Expenses)
        invariant ExpensePass(text, lists, old(tables), lines[..i]) == Ok(tables)
      {
        ExpensesNext(text, lists, old(tables), lines, i, tables);
        var line := lines[i];
        if !CompleteExpense(lists, line) {
          continue;
        }
        ghost var before := tables;
        var category: nat;
        var name := text.normalise(line.name.value);
        if name in categoryByName {
          category := categoryByName[name];
        } else {
          failure, category := MakeCategory(line.name.value);
          if failure.Some? {
            ExpensesStayFailed(text, lists, old(tables), lines, i + 1);
            return;
          }
        }
        assert ExpenseRow(text, lists, before, line) == ExpenseIn(text, lists, tables, line, category);
        var m := ExpenseOf(lists, line, category);
        if KeyOf(text, m) in seen {
          continue;
        }
        CreateKeys(text, tables, m);
        failure := Write(m);
        if failure.Some? {
          ExpensesStayFailed(text, lists, old(tables), lines, i + 1);
          return;
        }
        seen := seen + {KeyOf(text, m)};
      }
      assert lines[..|lines|] == lines;
      return None;
    }

    method NewTicket(r: TicketRow) returns (failure: Option<Failure>)
      requires Good() && Importable(lists, r)
      modifies this
      ensures failure.None? ==> Good()
      ensures Did(CreateTicket(text, old(tables), lists.customer(r.phone, r.passenger.value).value, r), failure)
    {
      var customer := lists.customer(r.phone, r.passenger.value).value;
      var created := CreateTicket(text, tables, customer, r);
      if created.Err? {
        return Some(created.error);
      }
      TicketAddsOne(text, tables, customer, r);
      Log(created.value, TicketRecord, |tables.db.sales|);
      return None;
    }

    /** A date change or a move to another state: no row is added, so nothing is put on the list. */
    method Revise(k: nat, revised: Passed) returns (failure: Option<Failure>)
      requires Good()
      requires revised.Ok? ==> revised.value == tables || Revised(tables, revised.value, k)
      modifies this
      ensures failure.None? ==> Good()
      ensures Did(revised, failure)
    {
      if revised.Err? {
        return Some(revised.error);
      }
      if Revised(tables, revised.value, k) {
        RevisedKeeps(tables, revised.value, k);
      }
      tables := revised.value;
      return None;
    }

    method PayOn(sale: nat, taken: Taken) returns (failure: Option<Failure>)
      requires Good()
      modifies this
      ensures failure.None? ==> Good()
      ensures Did(PayTicket(old(tables), sale, taken), failure)
    {
      var paid := PayTicket(tables, sale, taken);
      if paid.Err? {
        return Some(paid.error);
      }
      PaymentAddsOne(tables, sale, taken);
      // The rollback list needs the payment's own id: the newest payment's.
      var written := paid.value.db.payments[|paid.value.db.payments| - 1].id;
      Log(paid.value, TicketPaymentRecord, written);
      return None;
    }

    method ChangeDate(k: nat, r: TicketRow) returns (failure: Option<Failure>)
      requires Good()
      modifies this
      ensures failure.None? ==> Good()
      ensures Did(Dated(old(tables), k, r), failure)
    {
      if ChangesDate(r) {
        failure := Revise(k, RecordDateChange(tables, k, ChangeCost(r), ChangeFee(r)));
      } else {
        failure := None;
      }
    }

    method SetStatus(k: nat, r: TicketRow) returns (failure: Option<Failure>)
      requires Good()
      modifies this
      ensures failure.None? ==> Good()
      ensures Did(Statused(text, old(tables), k, r), failure)
    {
      var to := SheetStatus(text, r);
      if to.Some? && to.value != Issued {
        failure := Revise(k, ChangeStatus(tables, k, to.value, if to.value == Refunded then Some(Owed(r)) else None));
      } else {
        failure := None;
      }
    }

    method PayIfTaken(sale: nat, taken: Option<Taken>) returns (failure: Option<Failure>)
      requires Good()
      modifies this
      ensures failure.None? ==> Good()
      ensures Did(Settled(old(tables), sale, taken), failure)
    {
      if taken.Some? {
        failure := PayOn(sale, taken.value);
      } else {
        failure := None;
      }
    }

    /** One row of the sales tab, in the order the pieces depend on each other. */
    method ImportTicket(r: TicketRow) returns (failure: Option<Failure>)
      requires Good() && Importable(lists, r)
      modifies this
      ensures failure.None? ==> Good()
      ensures Did(WriteTicket(text, lists, old(tables), r), failure)
      ensures failure.Some? ==> failure.value == Refused(NotFound) || failure.value == Refused(Inactive)
      // What the books gain, in the row's own columns.
      ensures failure.None? <==> HistoryEffects.RowAccepted(lists, old(tables), r)
      ensures failure.None? ==> tables == HistoryEffects.RowWritten(text, lists, old(tables), r)
    {
      HistoryEffects.TicketRowWritten(text, lists, tables, r);
      OnlyAccountsRefuse(text, lists, tables, r);
      var k, sale := |tables.tickets|, |tables.db.sales|;
      failure := NewTicket(r);
      if failure.Some? {
        return;
      }
      failure := ChangeDate(k, r);
      if failure.Some? {
        return;
      }
      // What the first payment takes, the second no longer finds owed.
      var owed := Owed(r);
      var first := Take(owed, r.paid, lists.account(r.paidInto), r.issueDate.value);
      owed := History.After(owed, first);
      var second := Take(owed, r.changePaid, lists.account(r.changePaidInto), r.changedAt.GetOr(r.issueDate.value));
      failure := PayIfTaken(sale, first);
      if failure.Some? {
        return;
      }
      failure := PayIfTaken(sale, second);
      if failure.Some? {
        return;
      }
      failure := SetStatus(k, r);
    }

    /** The loop of the sales tab; `seen` grows with the key each row was looked up under. */
    method ImportTickets(rows: seq<TicketRow>) returns (failure: Option<Failure>)
      requires Good()
      modifies this
      ensures failure.None? ==> Good()
      ensures Did(TicketPass(text, lists, old(tables), rows), failure)
      ensures failure.Some? ==> failure.value == Refused(NotFound) || failure.value == Refused(Inactive)
    {
      var seen := TicketKeys(text, tables.db, tables.tickets);
      ghost var books, added := seen, [];
      for i := 0 to |rows|
        invariant Good() && seen == books + RowKeys(text, added) && added == Fresh(text, lists, rows[..i], books)
        invariant WriteTickets(text, lists, old(tables), added) == Ok(tables)
      {
        FreshNext(text, lists, rows, books, i, old(tables), tables);
        ghost var before := added;
        added := Fresh(text, lists, rows[..i + 1], books);
        if Creates(text, lists, rows[i], seen) {
          failure := ImportTicket(rows[i]);
          if failure.Some? {
            PassStaysFailed(text, lists, old(tables), rows, books, i + 1);
            return;
          }
          SeenNext(books, RowKeys(text, before), RowKey(text, rows[i]));
          seen := seen + {RowKey(text, rows[i])};
        }
      }
      assert rows[..|rows|] == rows;
      return None;
    }

    /** `importHistory`: six tabs one after another, up to the first that fails. */
    method ImportHistory(book: Workbook) returns (failure: Option<Failure>)
      requires Good()
      modifies this
      ensures failure.None? ==> Good()
      ensures Did(HistoryPass(text, lists, old(tables), book), failure)
    {
      if |tables.db.accounts| == 0 {
        return Some(NoAccounts);
      }
      failure := ImportMovements(Capital, book.capital);
      if failure.Some? { return; }
      failure := ImportTickets(book.sales);
      if failure.Some? { return; }
      failure := ImportMovements(Collections, book.collections);
      if failure.Some? { return; }
      failure := ImportMovements(SupplierPayments, book.supplierPayments);
      if failure.Some? { return; }
      failure := ImportExpenses(book.expenses);
      if failure.Some? { return; }
      failure := ImportMovements(ProfitWithdrawals, book.profitWithdrawals);
    }
  }

  /** Two uploads of one corrected file: the second writes nothing and has nothing to roll back. */
  method ImportTwice(text: Text, lists: Lists, tables: Tables, book: Workbook) returns (first: Run, second: Option<Run>)
    requires Valid(tables)
    ensures fresh(first)
    ensures second.Some? ==> fresh(second.value)
    ensures second.Some? && (forall r :: r in book.sales && Importable(lists, r) ==> Stable(text, r)) ==>
              second.value.tables == first.tables && second.value.recorded == []
  {
    first := new Run(text, lists, tables);
    var failure := first.ImportHistory(book);
    if failure.Some? {
      return first, None;
    }
    ghost var stable := forall r :: r in book.sales && Importable(lists, r) ==> Stable(text, r);
    if stable {
      StableReimportAddsNothing(text, lists, tables, book);
    }
    var again := new Run(text, lists, first.tables);
    var refused := again.ImportHistory(book);
    if refused.Some? {
      return first, None;
    }
    if stable {
      NothingRecorded(again.start, again.recorded);
    }
    return first, Some(again);
  }
}
