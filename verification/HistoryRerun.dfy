/** A completed import, run again over the same rows with the same name lookups. */
module HistoryRerun {
  import opened Wrappers
  import opened History
  import opened HistoryPasses
  import opened HistorySafety

  /* ---------------------------- money tabs ----------------------------- */

  /** Every row of the tab that asks for something finds its key in the books. */
  ghost predicate Planned(text: Text, lists: Lists, t: Tables, tab: Tab, lines: seq<Line>) {
    forall l :: l in lines && Plan(lists, tab, l).Some? ==> KeyOf(text, Plan(lists, tab, l).value) in Keys(text, t, tab)
  }

  /** Later state with no row taken away, and with tickets and categories as they were. */
  ghost predicate Grown(text: Text, t: Tables, t': Tables) {
    && (forall tab :: Keys(text, t, tab) <= Keys(text, t', tab))
    && t'.tickets == t.tickets && t'.db.sales == t.db.sales && t'.db.payments == t.db.payments
    && t'.db.accounts == t.db.accounts
  }

  lemma RowGrows(text: Text, lists: Lists, t: Tables, tab: Tab, l: Line)
    requires MovementRow(text, lists, t, tab, l).Ok?
    ensures var t' := MovementRow(text, lists, t, tab, l).value;
            Grown(text, t, t') && t'.categories == t.categories
            && (forall other :: other != tab ==> Keys(text, t', other) == Keys(text, t, other))
            && (Plan(lists, tab, l).Some? ==> KeyOf(text, Plan(lists, tab, l).value) in Keys(text, t', tab))
  {
    var plan := Plan(lists, tab, l);
    if plan.Some? && KeyOf(text, plan.value) !in Keys(text, t, tab) {
      CreateAddsKey(text, t, plan.value);
    }
  }

  lemma {:induction false} PassGrows(text: Text, lists: Lists, t: Tables, tab: Tab, lines: seq<Line>)
    requires MovementPass(text, lists, t, tab, lines).Ok?
    ensures var t' := MovementPass(text, lists, t, tab, lines).value;
            Grown(text, t, t') && t'.categories == t.categories && Planned(text, lists, t', tab, lines)
            && (forall other :: other != tab ==> Keys(text, t', other) == Keys(text, t, other))
  {
    if lines != [] {
      var init, last := lines[..|lines| - 1], lines[|lines| - 1];
      assert lines == init + [last];
      PassGrows(text, lists, t, tab, init);
      RowGrows(text, lists, MovementPass(text, lists, t, tab, init).value, tab, last);
    }
  }

  lemma {:induction false} PlannedPassIsIdle(text: Text, lists: Lists, t: Tables, tab: Tab, lines: seq<Line>)
    requires Planned(text, lists, t, tab, lines)
    ensures MovementPass(text, lists, t, tab, lines) == Ok(t)
  {
    if lines != [] {
      var init, last := lines[..|lines| - 1], lines[|lines| - 1];
      assert lines == init + [last];
      PlannedPassIsIdle(text, lists, t, tab, init);
    }
  }

  /** A money tab imported twice is imported once. */
  lemma MovementsOnce(text: Text, lists: Lists, t: Tables, tab: Tab, lines: seq<Line>)
    requires MovementPass(text, lists, t, tab, lines).Ok?
    ensures var t' := MovementPass(text, lists, t, tab, lines).value;
            MovementPass(text, lists, t', tab, lines) == Ok(t')
  {
    PassGrows(text, lists, t, tab, lines);
    PlannedPassIsIdle(text, lists, MovementPass(text, lists, t, tab, lines).value, tab, lines);
  }

  /* ------------------------------ expenses ----------------------------- */

  ghost predicate KnownExpense(text: Text, lists: Lists, t: Tables, l: Line) {
    CompleteExpense(lists, l) ==>
      var byName, name := ByName(text, t.categories), text.normalise(l.name.value);
      name in byName && KeyOf(text, ExpenseOf(lists, l, byName[name])) in Keys(text, t, Expenses)
  }

  ghost predicate KnownExpenses(text: Text, lists: Lists, t: Tables, lines: seq<Line>) {
    forall l :: l in lines ==> KnownExpense(text, lists, t, l)
  }

  /** Later state in which every category name found before still means the same category. */
  ghost predicate NamesKept(text: Text, t: Tables, t': Tables) {
    var before, after := ByName(text, t.categories), ByName(text, t'.categories);
    forall name :: name in before ==> name in after && after[name] == before[name]
  }

  lemma ExpenseRowGrows(text: Text, lists: Lists, t: Tables, l: Line)
    requires ExpenseRow(text, lists, t, l).Ok?
    ensures var t' := ExpenseRow(text, lists, t, l).value;
            Grown(text, t, t') && NamesKept(text, t, t') && KnownExpense(text, lists, t', l)
            && (forall other :: other != Expenses ==> Keys(text, t', other) == Keys(text, t, other))
  {
    if CompleteExpense(lists, l) {
      var byName, name := ByName(text, t.categories), text.normalise(l.name.value);
      if name in byName {
      } else {
        var made := CreateCategory(text, t, l.name.value).value;
        assert made.categories[..|t.categories|] == t.categories;
      }
    }
  }

  lemma {:induction false} ExpensePassGrows(text: Text, lists: Lists, t: Tables, lines: seq<Line>)
    requires ExpensePass(text, lists, t, lines).Ok?
    ensures var t' := ExpensePass(text, lists, t, lines).value;
            Grown(text, t, t') && NamesKept(text, t, t') && KnownExpenses(text, lists, t', lines)
            && (forall other :: other != Expenses ==> Keys(text, t', other) == Keys(text, t, other))
  {
    if lines != [] {
      var init, last := lines[..|lines| - 1], lines[|lines| - 1];
      assert lines == init + [last];
      ExpensePassGrows(text, lists, t, init);
      var mid := ExpensePass(text, lists, t, init).value;
      ExpenseRowGrows(text, lists, mid, last);
      var t' := ExpenseRow(text, lists, mid, last).value;
      forall l | l in lines ensures KnownExpense(text, lists, t', l) {
        if l in init {
        }
      }
    }
  }

  lemma {:induction false} KnownExpensesAreIdle(text: Text, lists: Lists, t: Tables, lines: seq<Line>)
    requires KnownExpenses(text, lists, t, lines)
    ensures ExpensePass(text, lists, t, lines) == Ok(t)
  {
    if lines != [] {
      var init, last := lines[..|lines| - 1], lines[|lines| - 1];
      assert lines == init + [last];
      KnownExpensesAreIdle(text, lists, t, init);
      assert KnownExpense(text, lists, t, last);
    }
  }

  /** The expenses imported twice make no second expense and no second category. */
  lemma ExpensesOnce(text: Text, lists: Lists, t: Tables, lines: seq<Line>)
    requires ExpensePass(text, lists, t, lines).Ok?
    ensures var t' := ExpensePass(text, lists, t, lines).value;
            ExpensePass(text, lists, t', lines) == Ok(t')
  {
    ExpensePassGrows(text, lists, t, lines);
    KnownExpensesAreIdle(text, lists, ExpensePass(text, lists, t, lines).value, lines);
  }

  /* ------------------------------ tickets ------------------------------ */

  ghost predicate OnlyTicketsGrew(t: Tables, t': Tables) {
    && t'.categories == t.categories && t'.movements == t.movements
    && t'.db.receipts == t.db.receipts && t'.db.accounts == t.db.accounts
  }

  lemma {:induction false} WriteTicketsKeys(text: Text, lists: Lists, t: Tables, rows: seq<TicketRow>)
    requires Valid(t) && (forall r :: r in rows ==> Importable(lists, r))
    requires WriteTickets(text, lists, t, rows).Ok?
    ensures var t' := WriteTickets(text, lists, t, rows).value;
            Valid(t') && |t'.tickets| == |t.tickets| + |rows|
            && TicketKeys(text, t'.db, t'.tickets) == TicketKeys(text, t.db, t.tickets) + StoredKeys(text, rows)
            && OnlyTicketsGrew(t, t')
  {
    if rows == [] {
      assert StoredKeys(text, rows) == {};
    } else {
      var init, last := rows[..|rows| - 1], rows[|rows| - 1];
      assert rows == init + [last];
      WriteTicketsKeys(text, lists, t, init);
      WriteTicketAddsKey(text, lists, WriteTickets(text, lists, t, init).value, last);
      assert StoredKeys(text, rows) == StoredKeys(text, init) + {StoredKey(text, last)};
    }
  }

  lemma WriteTicketAddsKey(text: Text, lists: Lists, t: Tables, r: TicketRow)
    requires Valid(t) && Importable(lists, r) && WriteTicket(text, lists, t, r).Ok?
    ensures var t' := WriteTicket(text, lists, t, r).value;
            && Valid(t') && |t'.tickets| == |t.tickets| + 1 && OnlyTicketsGrew(t, t')
            && TicketKeys(text, t'.db, t'.tickets) == TicketKeys(text, t.db, t.tickets) + {StoredKey(text, r)}
  {
    ImportNeverOverpays(text, lists, t, r);
  }

  /** What the sales tab leaves as the ticket keys. */
  lemma TicketPassKeys(text: Text, lists: Lists, t: Tables, rows: seq<TicketRow>)
    requires Valid(t) && TicketPass(text, lists, t, rows).Ok?
    ensures var t' := TicketPass(text, lists, t, rows).value;
            && Valid(t') && OnlyTicketsGrew(t, t')
            && TicketKeys(text, t'.db, t'.tickets) == KeysAfter(text, lists, rows, TicketKeys(text, t.db, t.tickets))
  {
    WriteTicketsKeys(text, lists, t, Fresh(text, lists, rows, TicketKeys(text, t.db, t.tickets)));
  }

  lemma TicketPassIdleIff(text: Text, lists: Lists, t: Tables, rows: seq<TicketRow>)
    requires Valid(t)
    ensures var seen := TicketKeys(text, t.db, t.tickets);
            && (AllSeen(text, lists, rows, seen) ==> TicketPass(text, lists, t, rows) == Ok(t))
            && (!AllSeen(text, lists, rows, seen) && TicketPass(text, lists, t, rows).Ok? ==>
                  |TicketPass(text, lists, t, rows).value.tickets| > |t.tickets|)
  {
    var seen := TicketKeys(text, t.db, t.tickets);
    NothingFreshIff(text, lists, rows, seen);
    if TicketPass(text, lists, t, rows).Ok? {
      WriteTicketsKeys(text, lists, t, Fresh(text, lists, rows, seen));
    }
  }

  /* --------------------------- whole history --------------------------- */

  ghost predicate LaterKnown(text: Text, lists: Lists, t: Tables, book: Workbook) {
    && Planned(text, lists, t, Collections, book.collections)
    && Planned(text, lists, t, SupplierPayments, book.supplierPayments)
    && KnownExpenses(text, lists, t, book.expenses)
    && Planned(text, lists, t, ProfitWithdrawals, book.profitWithdrawals)
  }

  lemma LaterTabsGrow(text: Text, lists: Lists, b: Tables, book: Workbook)
    requires LaterTabs(text, lists, b, book).Ok?
    ensures var t' := LaterTabs(text, lists, b, book).value;
            Grown(text, b, t') && LaterKnown(text, lists, t', book)
  {
    var c := MovementPass(text, lists, b, Collections, book.collections).value;
    PassGrows(text, lists, b, Collections, book.collections);
    var d := MovementPass(text, lists, c, SupplierPayments, book.supplierPayments).value;
    PassGrows(text, lists, c, SupplierPayments, book.supplierPayments);
    var e := ExpensePass(text, lists, d, book.expenses).value;
    ExpensePassGrows(text, lists, d, book.expenses);
    var f := MovementPass(text, lists, e, ProfitWithdrawals, book.profitWithdrawals).value;
    PassGrows(text, lists, e, ProfitWithdrawals, book.profitWithdrawals);
    forall l | l in book.expenses ensures KnownExpense(text, lists, f, l) {
    }
  }

  lemma GrownKeepsTickets(text: Text, t: Tables, t': Tables)
    requires Grown(text, t, t')
    ensures Valid(t) ==> Valid(t')
    ensures TicketKeys(text, t'.db, t'.tickets) == TicketKeys(text, t.db, t.tickets)
  {
  }

  lemma CapitalThenSales(text: Text, lists: Lists, t: Tables, a: Tables, b: Tables, book: Workbook)
    requires Valid(t) && MovementPass(text, lists, t, Capital, book.capital) == Ok(a)
    requires TicketPass(text, lists, a, book.sales) == Ok(b)
    ensures Valid(b) && b.db.accounts == t.db.accounts && Planned(text, lists, b, Capital, book.capital)
    ensures TicketKeys(text, b.db, b.tickets) == KeysAfter(text, lists, book.sales, TicketKeys(text, t.db, t.tickets))
  {
    PassGrows(text, lists, t, Capital, book.capital);
    GrownKeepsTickets(text, t, a);
    TicketPassKeys(text, lists, a, book.sales);
  }

  /** After the last tab, the ticket keys are what the sales tab made them, and every money row is in. */
  lemma CompletedImport(text: Text, lists: Lists, t: Tables, book: Workbook)
    requires Valid(t) && HistoryPass(text, lists, t, book).Ok?
    ensures var t' := HistoryPass(text, lists, t, book).value;
            && Valid(t') && t'.db.accounts == t.db.accounts
            && Planned(text, lists, t', Capital, book.capital) && LaterKnown(text, lists, t', book)
            && TicketKeys(text, t'.db, t'.tickets) == KeysAfter(text, lists, book.sales, TicketKeys(text, t.db, t.tickets))
  {
    var a := MovementPass(text, lists, t, Capital, book.capital).value;
    var b := TicketPass(text, lists, a, book.sales).value;
    var t' := LaterTabs(text, lists, b, book).value;
    CapitalThenSales(text, lists, t, a, b, book);
    LaterTabsGrow(text, lists, b, book);
    GrownKeepsTickets(text, b, t');
  }

  lemma LaterTabsIdle(text: Text, lists: Lists, t: Tables, book: Workbook)
    requires LaterKnown(text, lists, t, book)
    ensures LaterTabs(text, lists, t, book) == Ok(t)
  {
    PlannedPassIsIdle(text, lists, t, Collections, book.collections);
    PlannedPassIsIdle(text, lists, t, SupplierPayments, book.supplierPayments);
    KnownExpensesAreIdle(text, lists, t, book.expenses);
    PlannedPassIsIdle(text, lists, t, ProfitWithdrawals, book.profitWithdrawals);
  }

  /**
   * Running a completed import again over the same workbook leaves the books exactly
   * as they are if and only if each importable sales row's key is one the first pass
   * left behind. No money row is ever doubled.
   */
  lemma ReimportAddsNothingIff(text: Text, lists: Lists, t: Tables, book: Workbook)
    requires Valid(t) && HistoryPass(text, lists, t, book).Ok?
    ensures var t' := HistoryPass(text, lists, t, book).value;
            HistoryPass(text, lists, t', book) == Ok(t') <==>
            AllSeen(text, lists, book.sales, KeysAfter(text, lists, book.sales, TicketKeys(text, t.db, t.tickets)))
  {
    var t' := HistoryPass(text, lists, t, book).value;
    CompletedImport(text, lists, t, book);
    PlannedPassIsIdle(text, lists, t', Capital, book.capital);
    LaterTabsIdle(text, lists, t', book);
    TicketPassIdleIff(text, lists, t', book.sales);
    var again := TicketPass(text, lists, t', book.sales);
    if again.Ok? && LaterTabs(text, lists, again.value, book).Ok? {
      LaterTabsGrow(text, lists, again.value, book);
    }
  }

  /** In particular, when upper-casing changes no importable PNR beyond its letter case. */
  lemma StableReimportAddsNothing(text: Text, lists: Lists, t: Tables, book: Workbook)
    requires Valid(t) && HistoryPass(text, lists, t, book).Ok?
    requires forall r :: r in book.sales && Importable(lists, r) ==> Stable(text, r)
    ensures var t' := HistoryPass(text, lists, t, book).value;
            HistoryPass(text, lists, t', book) == Ok(t')
  {
    StableRowsAreAllSeen(text, lists, book.sales, TicketKeys(text, t.db, t.tickets));
    NothingFreshIff(text, lists, book.sales, KeysAfter(text, lists, book.sales, TicketKeys(text, t.db, t.tickets)));
    ReimportAddsNothingIff(text, lists, t, book);
  }
}
