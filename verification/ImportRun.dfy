/**
 * Undoing an import: the rows a run recorded are deleted kind by kind under the
 * database's own foreign keys, and their ledger entries with them.
 *
 * Rows of every table share one id space and keep only what matters here: their
 * kind and the rows they refer to.
 */
module ImportRun {
  import opened Wrappers
  import opened Rows

  /** The thirteen kinds an import records, then the other kinds that may refer to them. */
  datatype Kind =
    | TicketPayment | DueReceived | SupplierTransaction | Expense | CapitalFlow | ProfitWithdrawal | Ticket
    | Route | Customer | Supplier | Airline | ExpenseCategory | CashAccount
    | TicketChild       // documents and status history of a ticket
    | OtherSale         // visa cases, Hajj, tour and hotel bookings
    | OtherMoney        // their payments, transfers, payouts

  datatype Source =
    | SalesPayment | DueReceivedSource | SupplierPayment | ExpenseSource | Investment | InvestmentWithdrawal
    | ProfitWithdrawalSource | DateChangeFee | Opening | OtherSource

  datatype Row = Row(kind: Kind, refs: set<nat>)
  datatype Entry = Entry(account: nat, amount: int, source: Source, sourceId: nat)
  datatype Store = Store(rows: map<nat, Row>, entries: seq<Entry>)

  const KINDS := 13

  /** A kind's place in the delete order; the kinds an import does not record come after it. */
  function Rank(kind: Kind): nat {
    match kind
    case TicketPayment => 0
    case DueReceived => 1
    case SupplierTransaction => 2
    case Expense => 3
    case CapitalFlow => 4
    case ProfitWithdrawal => 5
    case Ticket => 6
    case Route => 7
    case Customer => 8
    case Supplier => 9
    case Airline => 10
    case ExpenseCategory => 11
    case CashAccount => 12
    case TicketChild => 13
    case OtherSale => 14
    case OtherMoney => 15
  }

  /** `DELETE_ORDER[n].entity`. */
  function DeleteOrder(n: nat): (kind: Kind)
    requires n < KINDS
    ensures Rank(kind) == n
  {
    if n == 0 then TicketPayment else if n == 1 then DueReceived else if n == 2 then SupplierTransaction
    else if n == 3 then Expense else if n == 4 then CapitalFlow else if n == 5 then ProfitWithdrawal
    else if n == 6 then Ticket else if n == 7 then Route else if n == 8 then Customer
    else if n == 9 then Supplier else if n == 10 then Airline else if n == 11 then ExpenseCategory else CashAccount
  }

  /** The kind whose `sources` list this source: no two kinds share one. */
  function Owner(source: Source): Option<Kind> {
    match source
    case SalesPayment => Some(TicketPayment)
    case DueReceivedSource => Some(DueReceived)
    case SupplierPayment => Some(SupplierTransaction)
    case ExpenseSource => Some(Expense)
    case Investment => Some(CapitalFlow)
    case InvestmentWithdrawal => Some(CapitalFlow)
    case ProfitWithdrawalSource => Some(ProfitWithdrawal)
    case DateChangeFee => Some(Ticket)
    case Opening => Some(CashAccount)
    case OtherSource => None
  }

  datatype Action = Restrict | Cascade | SetNull

  /** ON DELETE of the foreign key from a row of kind `child` to one of kind `parent`. */
  function OnDelete(child: Kind, parent: Kind): Option<Action> {
    match parent
    case CashAccount =>
      if child in {TicketPayment, DueReceived, SupplierTransaction, Expense, CapitalFlow, ProfitWithdrawal, OtherMoney}
      then Some(Restrict) else None
    case Customer => if child in {DueReceived, Ticket, OtherSale} then Some(Restrict) else None
    case Supplier => if child == SupplierTransaction then Some(Restrict) else if child == Ticket then Some(SetNull) else None
    case Airline => if child == Ticket then Some(SetNull) else None
    case Route => if child == Ticket then Some(SetNull) else None
    case ExpenseCategory => if child == Expense then Some(Restrict) else None
    case Ticket => if child in {TicketPayment, TicketChild} then Some(Cascade) else None
    case OtherSale => if child == OtherMoney then Some(Cascade) else None
    case _ => None
  }

  /** Every reference leads to a row, along a foreign key the schema has. */
  predicate WellFormed(s: Store) {
    && (forall i, t :: i in s.rows && t in s.rows[i].refs ==> t in s.rows && OnDelete(s.rows[i].kind, s.rows[t].kind).Some?)
    && (forall e :: e in s.entries ==> e.account in s.rows && s.rows[e.account].kind == CashAccount)
  }

  /* ------------------------ one DELETE statement ----------------------- */

  predicate Refers(s: Store, i: nat, parents: set<nat>, action: Action)
    requires i in s.rows
  {
    exists t :: t in s.rows[i].refs && t in parents && t in s.rows && OnDelete(s.rows[i].kind, s.rows[t].kind) == Some(action)
  }

  function Targets(s: Store, kind: Kind, ids: set<nat>): set<nat> { set i | i in ids && i in s.rows && s.rows[i].kind == kind }

  /** The rows a delete takes with it: none of these kinds has cascading children of its own. */
  function Doomed(s: Store, kind: Kind, ids: set<nat>): set<nat> {
    var targets := Targets(s, kind, ids);
    targets + set i | i in s.rows && Refers(s, i, targets, Cascade)
  }

  /** Some row or ledger entry that would survive still needs one of the doomed rows. */
  predicate Restricted(s: Store, doomed: set<nat>) {
    || (exists i :: i in s.rows && i !in doomed && Refers(s, i, doomed, Restrict))
    || (exists e :: e in s.entries && e.account in doomed)
  }

  /** The rows left, with references to the deleted ones set to null. */
  function Without(rows: map<nat, Row>, gone: set<nat>): map<nat, Row> {
    map i | i in rows && i !in gone :: rows[i].(refs := rows[i].refs - gone)
  }

  datatype Failure = NotFound | AlreadyUndone | StillRunning | InUse(kind: Kind)

  type Outcome = Result<Store, Failure>

  function Delete(s: Store, kind: Kind, ids: set<nat>): Outcome {
    var doomed := Doomed(s, kind, ids);
    if Restricted(s, doomed) then Err(InUse(kind)) else Ok(s.(rows := Without(s.rows, doomed)))
  }

  function NotOwned(kind: Kind, ids: set<nat>): Entry -> bool {
    (e: Entry) => !(Owner(e.source) == Some(kind) && e.sourceId in ids)
  }

  /** One kind of the delete order: its ledger entries first, then its rows. */
  function Step(s: Store, run: map<Kind, set<nat>>, kind: Kind): Outcome {
    var ids := Get(run, kind, {});
    if ids == {} then Ok(s) else Delete(s.(entries := Where(s.entries, NotOwned(kind, ids))), kind, ids)
  }

  /** The first `n` kinds of the delete order. */
  function Steps(s: Store, run: map<Kind, set<nat>>, n: nat): Outcome
    requires n <= KINDS
  {
    if n == 0 then Ok(s)
    else
      var before := Steps(s, run, n - 1);
      if before.Err? then before else Step(before.value, run, DeleteOrder(n - 1))
  }

  function Revert(s: Store, run: map<Kind, set<nat>>): Outcome { Steps(s, run, KINDS) }

  /* ----------------------------- exactness ----------------------------- */

  /** The run lists rows of its thirteen kinds, under their right kind if they still exist. */
  predicate Recorded(s: Store, run: map<Kind, set<nat>>) {
    && (forall k :: k in run ==> Rank(k) < KINDS)
    && (forall k, i :: k in run && i in run[k] && i in s.rows ==> s.rows[i].kind == k)
  }

  predicate Listed(s: Store, run: map<Kind, set<nat>>, i: nat) { i in s.rows && i in Get(run, s.rows[i].kind, {}) }

  /** The row refers by ON DELETE CASCADE to a listed row of one of the first `n` kinds. */
  predicate Hangs(s: Store, run: map<Kind, set<nat>>, n: nat, i: nat)
    requires i in s.rows
  {
    exists t :: t in s.rows[i].refs && Listed(s, run, t) && Rank(s.rows[t].kind) < n
                && OnDelete(s.rows[i].kind, s.rows[t].kind) == Some(Cascade)
  }

  /**
   * A run's rows: those it lists, and the documents and status history of its tickets,
   * which no run lists and which exist only as part of their ticket.
   */
  predicate InRun(s: Store, run: map<Kind, set<nat>>, i: nat) {
    i in s.rows && (Listed(s, run, i) || (Rank(s.rows[i].kind) >= KINDS && Hangs(s, run, KINDS, i)))
  }

  predicate OwnedBy(run: map<Kind, set<nat>>, n: nat, e: Entry)
    requires n <= KINDS
  {
    var owner := Owner(e.source);
    owner.Some? && Rank(owner.value) < n && e.sourceId in Get(run, owner.value, {})
  }

  function Kept(run: map<Kind, set<nat>>, n: nat): Entry -> bool
    requires n <= KINDS
  {
    (e: Entry) => !OwnedBy(run, n, e)
  }

  /** The store with exactly the run's rows and their ledger entries taken out. */
  function Exact(s: Store, run: map<Kind, set<nat>>): Store {
    Store(map i | i in s.rows && !InRun(s, run, i) :: s.rows[i], Where(s.entries, Kept(run, KINDS)))
  }

  /** Nothing outside the run refers to its rows. */
  ghost predicate Undisturbed(s: Store, run: map<Kind, set<nat>>) {
    && (forall i, t :: i in s.rows && !InRun(s, run, i) && t in s.rows[i].refs ==> !InRun(s, run, t))
    && (forall e :: e in s.entries && !OwnedBy(run, KINDS, e) ==> !InRun(s, run, e.account))
  }

  /** The delete order takes every child kind before the kind it refers to. */
  lemma OrderIsTopological(child: Kind, parent: Kind)
    requires Rank(child) < KINDS && OnDelete(child, parent).Some?
    ensures Rank(child) < Rank(parent)
  {
  }

  lemma EntriesStep(s: Store, run: map<Kind, set<nat>>, n: nat)
    requires n < KINDS
    ensures var k := DeleteOrder(n);
            Where(Where(s.entries, Kept(run, n)), NotOwned(k, Get(run, k, {}))) == Where(s.entries, Kept(run, n + 1))
  {
    var k := DeleteOrder(n);
    forall e | e in s.entries ensures Kept(run, n + 1)(e) == (Kept(run, n)(e) && NotOwned(k, Get(run, k, {}))(e)) {
    }
    WhereTwice(s.entries, Kept(run, n), NotOwned(k, Get(run, k, {})), Kept(run, n + 1));
  }

  /* ----------------------- what undoing leaves -------------------------- */

  /** What the first `n` kinds take: their listed rows, and everything that hangs on one. */
  predicate Goes(s: Store, run: map<Kind, set<nat>>, n: nat, i: nat)
    requires i in s.rows
  {
    (Listed(s, run, i) && Rank(s.rows[i].kind) < n) || Hangs(s, run, n, i)
  }

  function Gone(s: Store, run: map<Kind, set<nat>>, n: nat): set<nat> { set i | i in s.rows && Goes(s, run, n, i) }

  function LeftAfter(s: Store, run: map<Kind, set<nat>>, n: nat): Store
    requires n <= KINDS
  {
    Store(Without(s.rows, Gone(s, run, n)), Where(s.entries, Kept(run, n)))
  }

  /** A row that stays needs a listed row of the first `n` kinds. */
  predicate RowInTheWay(s: Store, run: map<Kind, set<nat>>, n: nat, i: nat, t: nat) {
    && i in s.rows && t in s.rows[i].refs && !Goes(s, run, n, i)
    && Listed(s, run, t) && Rank(s.rows[t].kind) < n
    && OnDelete(s.rows[i].kind, s.rows[t].kind) == Some(Restrict)
  }

  /** A ledger entry that stays is on a listed account. */
  predicate EntryInTheWay(s: Store, run: map<Kind, set<nat>>, n: nat, e: Entry)
    requires n <= KINDS
  {
    e in s.entries && Kept(run, n)(e) && Listed(s, run, e.account) && Rank(s.rows[e.account].kind) < n
  }

  ghost predicate Obstructed(s: Store, run: map<Kind, set<nat>>, n: nat)
    requires n <= KINDS
  {
    (exists i, t :: RowInTheWay(s, run, n, i, t)) || (exists e :: EntryInTheWay(s, run, n, e))
  }

  /** Whatever is in the way of the first kinds stays in the way. */
  lemma RowStaysInTheWay(s: Store, run: map<Kind, set<nat>>, n: nat, i: nat, t: nat)
    requires WellFormed(s) && Recorded(s, run) && n < KINDS && RowInTheWay(s, run, n, i, t)
    ensures RowInTheWay(s, run, n + 1, i, t)
  {
    if Rank(s.rows[i].kind) < KINDS {
      OrderIsTopological(s.rows[i].kind, s.rows[t].kind);
    }
    if Hangs(s, run, n + 1, i) {
    }
  }

  lemma ObstructionStays(s: Store, run: map<Kind, set<nat>>, n: nat)
    requires WellFormed(s) && Recorded(s, run) && n < KINDS && Obstructed(s, run, n)
    ensures Obstructed(s, run, n + 1)
  {
    var i, t :| RowInTheWay(s, run, n, i, t);
    RowStaysInTheWay(s, run, n, i, t);
  }

  /** The rows the next kind lists. */
  function Next(s: Store, run: map<Kind, set<nat>>, n: nat): set<nat>
    requires n < KINDS
  {
    set i | i in s.rows && Listed(s, run, i) && s.rows[i].kind == DeleteOrder(n)
  }

  /** The store the next kind's rows are deleted from. */
  function Before(s: Store, run: map<Kind, set<nat>>, n: nat): Store
    requires n < KINDS
  {
    Store(Without(s.rows, Gone(s, run, n)), Where(s.entries, Kept(run, n + 1)))
  }

  /** A row goes with the next kind if it is listed in it or hangs on one that is. */
  lemma GoesNext(s: Store, run: map<Kind, set<nat>>, n: nat, i: nat)
    requires i in s.rows && n < KINDS
    ensures Goes(s, run, n + 1, i) <==>
      Goes(s, run, n, i) || i in Next(s, run, n)
      || exists t :: t in s.rows[i].refs && t in Next(s, run, n) && OnDelete(s.rows[i].kind, s.rows[t].kind) == Some(Cascade)
  {
    if Goes(s, run, n, i) {
    } else if t :| t in s.rows[i].refs && Listed(s, run, t) && Rank(s.rows[t].kind) < n + 1
                   && OnDelete(s.rows[i].kind, s.rows[t].kind) == Some(Cascade) {
      assert t in Next(s, run, n);
    } else if Listed(s, run, i) && Rank(s.rows[i].kind) == n {
    }
  }

  /** While the next kind is there, a row refers to it before exactly as it did at the start. */
  lemma RefersBefore(s: Store, run: map<Kind, set<nat>>, n: nat, i: nat, action: Action)
    requires WellFormed(s) && Recorded(s, run) && n < KINDS && i in Before(s, run, n).rows
    ensures Refers(Before(s, run, n), i, Next(s, run, n), action)
       <==> exists t :: t in s.rows[i].refs && t in Next(s, run, n) && OnDelete(s.rows[i].kind, s.rows[t].kind) == Some(action)
  {
    var y := Before(s, run, n);
    assert forall t :: t in Next(s, run, n) ==> t in y.rows && t !in Gone(s, run, n);
  }

  lemma DoomedAreNext(s: Store, run: map<Kind, set<nat>>, n: nat)
    requires WellFormed(s) && Recorded(s, run) && n < KINDS
    ensures Doomed(Before(s, run, n), DeleteOrder(n), Get(run, DeleteOrder(n), {})) == Gone(s, run, n + 1) - Gone(s, run, n)
  {
    var y := Before(s, run, n);
    forall i | i in s.rows
      ensures i in Doomed(y, DeleteOrder(n), Get(run, DeleteOrder(n), {})) <==> i in Gone(s, run, n + 1) && i !in Gone(s, run, n)
    {
      GoesNext(s, run, n, i);
      if i in Next(s, run, n) {
      } else if i in y.rows {
        RefersBefore(s, run, n, i, Cascade);
      }
    }
  }

  lemma BlockedByRow(s: Store, run: map<Kind, set<nat>>, n: nat, i: nat, t: nat)
    requires WellFormed(s) && Recorded(s, run) && n < KINDS
    requires i in s.rows && !Goes(s, run, n + 1, i) && t in s.rows[i].refs
    requires Goes(s, run, n + 1, t) && !Goes(s, run, n, t) && OnDelete(s.rows[i].kind, s.rows[t].kind) == Some(Restrict)
    ensures RowInTheWay(s, run, n + 1, i, t)
  {
  }

  lemma BlockedByEntry(s: Store, run: map<Kind, set<nat>>, n: nat, e: Entry)
    requires WellFormed(s) && Recorded(s, run) && n < KINDS
    requires e in s.entries && Kept(run, n + 1)(e) && Goes(s, run, n + 1, e.account) && !Goes(s, run, n, e.account)
    ensures EntryInTheWay(s, run, n + 1, e)
  {
  }

  lemma RestrictedIsInTheWay(s: Store, run: map<Kind, set<nat>>, n: nat)
    requires WellFormed(s) && Recorded(s, run) && n < KINDS
    requires Restricted(Before(s, run, n), Gone(s, run, n + 1) - Gone(s, run, n))
    ensures Obstructed(s, run, n + 1)
  {
    var y, doomed := Before(s, run, n), Gone(s, run, n + 1) - Gone(s, run, n);
    if i :| i in y.rows && i !in doomed && Refers(y, i, doomed, Restrict) {
      var t :| t in y.rows[i].refs && t in doomed && t in y.rows && OnDelete(y.rows[i].kind, y.rows[t].kind) == Some(Restrict);
      BlockedByRow(s, run, n, i, t);
    } else {
      var e :| e in y.entries && e.account in doomed;
      BlockedByEntry(s, run, n, e);
    }
  }

  lemma InTheWayIsRestricted(s: Store, run: map<Kind, set<nat>>, n: nat)
    requires WellFormed(s) && Recorded(s, run) && n < KINDS
    requires !Obstructed(s, run, n) && Obstructed(s, run, n + 1)
    ensures Restricted(Before(s, run, n), Gone(s, run, n + 1) - Gone(s, run, n))
  {
    var y, doomed := Before(s, run, n), Gone(s, run, n + 1) - Gone(s, run, n);
    var next := n + 1;
    if i, t :| RowInTheWay(s, run, next, i, t) {
      RowBlocksNext(s, run, n, i, t);
    } else {
      var e :| EntryInTheWay(s, run, next, e);
      EntryBlocksNext(s, run, n, e);
    }
  }

  lemma EntryBlocksNext(s: Store, run: map<Kind, set<nat>>, n: nat, e: Entry)
    requires WellFormed(s) && Recorded(s, run) && n < KINDS
    requires !Obstructed(s, run, n) && EntryInTheWay(s, run, n + 1, e)
    ensures e in Before(s, run, n).entries && e.account in Gone(s, run, n + 1) - Gone(s, run, n)
  {
    assert !EntryInTheWay(s, run, n, e);
  }

  lemma RowBlocksNext(s: Store, run: map<Kind, set<nat>>, n: nat, i: nat, t: nat)
    requires WellFormed(s) && Recorded(s, run) && n < KINDS
    requires !Obstructed(s, run, n) && RowInTheWay(s, run, n + 1, i, t)
    ensures i in Before(s, run, n).rows && i !in Gone(s, run, n + 1)
    ensures Refers(Before(s, run, n), i, Gone(s, run, n + 1) - Gone(s, run, n), Restrict)
  {
    GoesNext(s, run, n, i);
    assert !RowInTheWay(s, run, n, i, t);
    RefersBefore(s, run, n, i, Restrict);
  }

  lemma WithoutTwice(rows: map<nat, Row>, gone: set<nat>, more: set<nat>)
    ensures Without(Without(rows, gone), more) == Without(rows, gone + more)
  {
    assert forall i :: i in rows ==> rows[i].refs - gone - more == rows[i].refs - (gone + more);
  }

  lemma GoneGrows(s: Store, run: map<Kind, set<nat>>, n: nat)
    requires n < KINDS
    ensures Gone(s, run, n) + (Gone(s, run, n + 1) - Gone(s, run, n)) == Gone(s, run, n + 1)
  {
    assert forall i :: i in Gone(s, run, n) ==> i in Gone(s, run, n + 1);
  }

  lemma EmptyKindTakesNothing(s: Store, run: map<Kind, set<nat>>, n: nat)
    requires WellFormed(s) && Recorded(s, run) && n < KINDS && Get(run, DeleteOrder(n), {}) == {}
    ensures Gone(s, run, n + 1) == Gone(s, run, n)
    ensures Where(s.entries, Kept(run, n + 1)) == Where(s.entries, Kept(run, n))
  {
    assert Next(s, run, n) == {};
    forall i | i in s.rows ensures Goes(s, run, n + 1, i) <==> Goes(s, run, n, i) { GoesNext(s, run, n, i); }
    EntriesStep(s, run, n);
    WhereAll(Where(s.entries, Kept(run, n)), NotOwned(DeleteOrder(n), {}));
  }

  /** One kind: refused exactly when something that stays needs one of its rows. */
  lemma StepLeaves(s: Store, run: map<Kind, set<nat>>, n: nat)
    requires WellFormed(s) && Recorded(s, run) && n < KINDS && !Obstructed(s, run, n)
    ensures var after := Step(LeftAfter(s, run, n), run, DeleteOrder(n));
            if Obstructed(s, run, n + 1) then after.Err? else after == Ok(LeftAfter(s, run, n + 1))
  {
    var k, ids := DeleteOrder(n), Get(run, DeleteOrder(n), {});
    if Obstructed(s, run, n + 1) {
      InTheWayIsRestricted(s, run, n);
    } else if Restricted(Before(s, run, n), Gone(s, run, n + 1) - Gone(s, run, n)) {
      RestrictedIsInTheWay(s, run, n);
    }
    if ids == {} {
      EmptyKindTakesNothing(s, run, n);
    } else {
      EntriesStep(s, run, n);
      DoomedAreNext(s, run, n);
      WithoutTwice(s.rows, Gone(s, run, n), Gone(s, run, n + 1) - Gone(s, run, n));
      GoneGrows(s, run, n);
    }
  }

  lemma NothingGoesAtFirst(s: Store, run: map<Kind, set<nat>>)
    ensures LeftAfter(s, run, 0) == s && !Obstructed(s, run, 0)
  {
    WhereAll(s.entries, Kept(run, 0));
    assert Gone(s, run, 0) == {};
    assert forall i :: i in s.rows ==> s.rows[i].refs - {} == s.rows[i].refs;
    assert Without(s.rows, {}) == s.rows;
  }

  /** The first `n` kinds got through, leaving this, unless something was in the way. */
  ghost predicate Leaves(s: Store, run: map<Kind, set<nat>>, n: nat, after: Outcome)
    requires n <= KINDS
  {
    if Obstructed(s, run, n) then after.Err? else after == Ok(LeftAfter(s, run, n))
  }

  lemma OneMoreKind(s: Store, run: map<Kind, set<nat>>, n: nat, before: Outcome, after: Outcome)
    requires WellFormed(s) && Recorded(s, run) && n < KINDS && Leaves(s, run, n, before)
    requires after == if before.Err? then before else Step(before.value, run, DeleteOrder(n))
    ensures Leaves(s, run, n + 1, after)
  {
    if before.Err? {
      ObstructionStays(s, run, n);
    } else {
      StepLeaves(s, run, n);
    }
  }

  lemma StepsNext(s: Store, run: map<Kind, set<nat>>, n: nat)
    requires 0 < n <= KINDS
    ensures var before := Steps(s, run, n - 1);
            Steps(s, run, n) == if before.Err? then before else Step(before.value, run, DeleteOrder(n - 1))
  {
  }

  lemma {:induction false} StepsLeave(s: Store, run: map<Kind, set<nat>>, n: nat)
    requires WellFormed(s) && Recorded(s, run) && n <= KINDS
    ensures Leaves(s, run, n, Steps(s, run, n))
  {
    if n == 0 {
      NothingGoesAtFirst(s, run);
    } else {
      StepsLeave(s, run, n - 1);
      StepsNext(s, run, n);
      OneMoreKind(s, run, n - 1, Steps(s, run, n - 1), Steps(s, run, n));
    }
  }

  /**
   * The whole of what undoing does, on any books. It is refused exactly when a row that
   * would stay needs a listed one or a ledger entry that would stay is on a listed
   * account; otherwise the listed rows go, with every payment, document and history row
   * of a listed ticket, whoever wrote it, and optional references to them are emptied.
   */
  lemma RevertLeaves(s: Store, run: map<Kind, set<nat>>)
    requires WellFormed(s) && Recorded(s, run)
    ensures Revert(s, run).Err? <==> Obstructed(s, run, KINDS)
    ensures Revert(s, run).Ok? ==> Revert(s, run).value == LeftAfter(s, run, KINDS)
  {
    StepsLeave(s, run, KINDS);
  }

  lemma StepKeepsWellFormed(s: Store, run: map<Kind, set<nat>>, kind: Kind)
    requires WellFormed(s) && Step(s, run, kind).Ok?
    ensures WellFormed(Step(s, run, kind).value)
  {
    var ids := Get(run, kind, {});
    if ids != {} {
      var x := s.(entries := Where(s.entries, NotOwned(kind, ids)));
      DeleteKeepsWellFormed(x, Doomed(x, kind, ids));
    }
  }

  lemma DeleteKeepsWellFormed(x: Store, doomed: set<nat>)
    requires WellFormed(x) && !Restricted(x, doomed)
    ensures WellFormed(x.(rows := Without(x.rows, doomed)))
  {
    var y := x.(rows := Without(x.rows, doomed));
    forall i, t | i in y.rows && t in y.rows[i].refs
      ensures t in y.rows && OnDelete(y.rows[i].kind, y.rows[t].kind).Some?
    {
      assert i in x.rows && t in x.rows[i].refs && t !in doomed;
    }
    forall e | e in y.entries ensures e.account in y.rows && y.rows[e.account].kind == CashAccount {
      assert e in x.entries && e.account !in doomed;
    }
  }

  lemma {:induction false} StepsKeepWellFormed(s: Store, run: map<Kind, set<nat>>, n: nat)
    requires WellFormed(s) && n <= KINDS && Steps(s, run, n).Ok?
    ensures WellFormed(Steps(s, run, n).value)
  {
    if n > 0 {
      var before := Steps(s, run, n - 1);
      StepsKeepWellFormed(s, run, n - 1);
      assert Steps(s, run, n) == Step(before.value, run, DeleteOrder(n - 1));
      StepKeepsWellFormed(before.value, run, DeleteOrder(n - 1));
    }
  }

  lemma ExactMeansUndisturbed(s: Store, run: map<Kind, set<nat>>)
    requires Recorded(s, run) && WellFormed(s) && WellFormed(Exact(s, run))
    ensures Undisturbed(s, run)
  {
    forall i, t | i in s.rows && !InRun(s, run, i) && t in s.rows[i].refs ensures !InRun(s, run, t) {
      ExactKeepsReferred(s, run, i, t);
    }
    forall e | e in s.entries && !OwnedBy(run, KINDS, e) ensures !InRun(s, run, e.account) {
    }
  }

  lemma ExactKeepsReferred(s: Store, run: map<Kind, set<nat>>, i: nat, t: nat)
    requires WellFormed(Exact(s, run)) && i in s.rows && !InRun(s, run, i) && t in s.rows[i].refs
    ensures !InRun(s, run, t)
  {
    assert i in Exact(s, run).rows && t in Exact(s, run).rows[i].refs;
    assert t in Exact(s, run).rows;
  }

  /** In an undisturbed run what goes is the run. */
  lemma UndisturbedGoes(s: Store, run: map<Kind, set<nat>>, i: nat)
    requires WellFormed(s) && Recorded(s, run) && Undisturbed(s, run) && i in s.rows
    ensures Goes(s, run, KINDS, i) <==> InRun(s, run, i)
  {
    if Listed(s, run, i) {
      assert s.rows[i].kind in run;
    } else if Hangs(s, run, KINDS, i) && !InRun(s, run, i) {
      var t :| t in s.rows[i].refs && Listed(s, run, t) && Rank(s.rows[t].kind) < KINDS
               && OnDelete(s.rows[i].kind, s.rows[t].kind) == Some(Cascade);
      assert InRun(s, run, t);
      assert false;
    }
  }

  lemma UndisturbedIsExact(s: Store, run: map<Kind, set<nat>>)
    requires WellFormed(s) && Recorded(s, run) && Undisturbed(s, run)
    ensures !Obstructed(s, run, KINDS) && LeftAfter(s, run, KINDS) == Exact(s, run)
  {
    forall i | i in s.rows ensures Goes(s, run, KINDS, i) <==> InRun(s, run, i) { UndisturbedGoes(s, run, i); }
    forall i, t | i in s.rows && t in s.rows[i].refs && Listed(s, run, t) ensures Goes(s, run, KINDS, i) {
      assert InRun(s, run, t);
    }
    forall i | i in s.rows && i !in Gone(s, run, KINDS) ensures s.rows[i].refs - Gone(s, run, KINDS) == s.rows[i].refs {
      assert !InRun(s, run, i);
    }
    assert LeftAfter(s, run, KINDS).rows == Exact(s, run).rows;
  }

  /**
   * Undoing a run removes exactly its rows and their ledger entries, and nothing else
   * changes, if and only if nothing outside the run refers to its rows.
   */
  lemma RevertIsExactIff(s: Store, run: map<Kind, set<nat>>)
    requires WellFormed(s) && Recorded(s, run)
    ensures Revert(s, run) == Ok(Exact(s, run)) <==> Undisturbed(s, run)
  {
    RevertLeaves(s, run);
    if Undisturbed(s, run) {
      UndisturbedIsExact(s, run);
    }
    if Revert(s, run) == Ok(Exact(s, run)) {
      StepsKeepWellFormed(s, run, KINDS);
      ExactMeansUndisturbed(s, run);
    }
  }

  /* ---------------- what undoing says, kind by kind --------------------- */

  /** A row of the first kind cannot be without the row of the second kind it names. */
  predicate Needs(child: Kind, parent: Kind) {
    match child
    case TicketPayment => parent.CashAccount?
    case DueReceived => parent.CashAccount? || parent.Customer?
    case SupplierTransaction => parent.CashAccount? || parent.Supplier?
    case Expense => parent.CashAccount? || parent.ExpenseCategory?
    case CapitalFlow => parent.CashAccount?
    case ProfitWithdrawal => parent.CashAccount?
    case Ticket => parent.Customer?
    case OtherSale => parent.Customer?
    case OtherMoney => parent.CashAccount?
    case _ => false
  }

  /** A row of the first kind can do without, and then names none. */
  predicate MayLose(child: Kind, parent: Kind) {
    child.Ticket? && (parent.Supplier? || parent.Airline? || parent.Route?)
  }

  /** A row of the first kind is part of the row of the second. */
  predicate PartOf(child: Kind, parent: Kind) {
    (parent.Ticket? && (child.TicketPayment? || child.TicketChild?)) || (parent.OtherSale? && child.OtherMoney?)
  }

  /** The kinds of row a ledger entry of each source is written for. */
  predicate WrittenFor(source: Source, kind: Kind) {
    match kind
    case TicketPayment => source.SalesPayment?
    case DueReceived => source.DueReceivedSource?
    case SupplierTransaction => source.SupplierPayment?
    case Expense => source.ExpenseSource?
    case CapitalFlow => source.Investment? || source.InvestmentWithdrawal?
    case ProfitWithdrawal => source.ProfitWithdrawalSource?
    case Ticket => source.DateChangeFee?
    case CashAccount => source.Opening?
    case _ => false
  }

  /** Those are the schema's foreign keys, each with its ON DELETE. */
  lemma ForeignKeys(child: Kind, parent: Kind)
    ensures Needs(child, parent) <==> OnDelete(child, parent) == Some(Restrict)
    ensures PartOf(child, parent) <==> OnDelete(child, parent) == Some(Cascade)
    ensures MayLose(child, parent) <==> OnDelete(child, parent) == Some(SetNull)
  {
  }

  /**
   * A row that stays stops the undoing if it needs a listed row, goes with a listed ticket
   * it is part of, and loses its reference to a listed row it can do without.
   */
  lemma UndoneByKind(s: Store, run: map<Kind, set<nat>>, i: nat, t: nat)
    requires WellFormed(s) && Recorded(s, run) && i in s.rows && t in s.rows[i].refs && Listed(s, run, t)
    ensures Needs(s.rows[i].kind, s.rows[t].kind) && !Goes(s, run, KINDS, i) ==> Revert(s, run).Err?
    ensures PartOf(s.rows[i].kind, s.rows[t].kind) && Revert(s, run).Ok? ==> i !in Revert(s, run).value.rows
    ensures MayLose(s.rows[i].kind, s.rows[t].kind) && Revert(s, run).Ok? && i in Revert(s, run).value.rows ==>
              t !in Revert(s, run).value.rows[i].refs
  {
    RevertLeaves(s, run);
    ForeignKeys(s.rows[i].kind, s.rows[t].kind);
    if Needs(s.rows[i].kind, s.rows[t].kind) && !Goes(s, run, KINDS, i) {
      assert RowInTheWay(s, run, KINDS, i, t);
    }
    if PartOf(s.rows[i].kind, s.rows[t].kind) {
      assert Hangs(s, run, KINDS, i);
    }
    assert t in Gone(s, run, KINDS);
  }

  /** The ledger entries of listed rows go, whichever source they were written under, and no others. */
  lemma EntriesUndone(s: Store, run: map<Kind, set<nat>>, e: Entry)
    requires WellFormed(s) && Recorded(s, run) && Revert(s, run).Ok?
    ensures e in Revert(s, run).value.entries <==>
            e in s.entries && !(exists kind :: WrittenFor(e.source, kind) && e.sourceId in Get(run, kind, {}))
  {
    RevertLeaves(s, run);
    assert forall kind :: WrittenFor(e.source, kind) <==> Owner(e.source) == Some(kind);
  }

  /* ------------------ undoing what was just brought in ------------------ */

  /** The rows and entries an import adds to a store. */
  function WithImport(s: Store, rows: map<nat, Row>, entries: seq<Entry>): Store {
    Store(s.rows + rows, s.entries + entries)
  }

  /**
   * The run lists exactly the new rows of its kinds, each under its kind; any other new
   * row is a document or a history row of one of them.
   */
  ghost predicate Lists(run: map<Kind, set<nat>>, rows: map<nat, Row>) {
    && (forall i :: i in rows && Rank(rows[i].kind) < KINDS ==> i in Get(run, rows[i].kind, {}))
    && (forall i :: i in rows && Rank(rows[i].kind) >= KINDS ==> Belongs(rows, i))
    && (forall k :: k in run ==> Rank(k) < KINDS)
    && (forall k, i :: k in run && i in run[k] ==> i in rows && rows[i].kind == k)
  }

  /** The row hangs on another new row. */
  predicate Belongs(rows: map<nat, Row>, i: nat)
    requires i in rows
  {
    exists t :: t in rows[i].refs && t in rows && Rank(rows[t].kind) < KINDS
                && OnDelete(rows[i].kind, rows[t].kind) == Some(Cascade)
  }

  /** No id is reused. */
  ghost predicate NewIds(s: Store, rows: map<nat, Row>) {
    && (forall i :: i in rows ==> i !in s.rows)
    && (forall e :: e in s.entries ==> e.sourceId !in rows)
  }

  lemma ListedIsNew(run: map<Kind, set<nat>>, s: Store, rows: map<nat, Row>, entries: seq<Entry>, i: nat)
    requires Lists(run, rows) && NewIds(s, rows)
    ensures Listed(WithImport(s, rows, entries), run, i) <==> i in rows && Rank(rows[i].kind) < KINDS
  {
    var x := WithImport(s, rows, entries);
    if i in rows {
      assert x.rows[i] == rows[i];
    } else if i in s.rows {
      assert i !in Get(run, x.rows[i].kind, {});
    }
  }

  lemma RunIsNew(run: map<Kind, set<nat>>, s: Store, rows: map<nat, Row>, entries: seq<Entry>, i: nat)
    requires WellFormed(s) && Lists(run, rows) && NewIds(s, rows)
    ensures InRun(WithImport(s, rows, entries), run, i) <==> i in rows
  {
    var x := WithImport(s, rows, entries);
    ListedIsNew(run, s, rows, entries, i);
    if i in rows && Rank(rows[i].kind) >= KINDS {
      var t :| t in rows[i].refs && t in rows && Rank(rows[t].kind) < KINDS
               && OnDelete(rows[i].kind, rows[t].kind) == Some(Cascade);
      ListedIsNew(run, s, rows, entries, t);
      assert x.rows[i] == rows[i] && x.rows[t] == rows[t];
    } else if i in s.rows && Hangs(x, run, KINDS, i) {
      var t :| t in x.rows[i].refs && Listed(x, run, t);
      ListedIsNew(run, s, rows, entries, t);
      OldRefersToOld(s, rows, entries, i, t);
      assert false;
    }
  }

  lemma OldRefersToOld(s: Store, rows: map<nat, Row>, entries: seq<Entry>, i: nat, t: nat)
    requires WellFormed(s) && NewIds(s, rows) && i in s.rows && t in WithImport(s, rows, entries).rows[i].refs
    ensures t !in rows
  {
    assert WithImport(s, rows, entries).rows[i] == s.rows[i];
  }

  lemma OwnedIsNew(run: map<Kind, set<nat>>, rows: map<nat, Row>, e: Entry)
    requires Lists(run, rows) && OwnedBy(run, KINDS, e)
    ensures e.sourceId in rows
  {
    assert Owner(e.source).value in run;
  }

  lemma ImportIsRecorded(s: Store, rows: map<nat, Row>, entries: seq<Entry>, run: map<Kind, set<nat>>)
    requires Lists(run, rows) && NewIds(s, rows)
    ensures Recorded(WithImport(s, rows, entries), run)
  {
    forall k, i | k in run && i in run[k] ensures i in rows && WithImport(s, rows, entries).rows[i] == rows[i] {
    }
  }

  lemma ImportIsUndisturbed(s: Store, rows: map<nat, Row>, entries: seq<Entry>, run: map<Kind, set<nat>>)
    requires WellFormed(s) && Lists(run, rows) && NewIds(s, rows)
    requires forall e :: e in entries ==> OwnedBy(run, KINDS, e)
    ensures Undisturbed(WithImport(s, rows, entries), run)
  {
    var x := WithImport(s, rows, entries);
    forall i, t | i in x.rows && !InRun(x, run, i) && t in x.rows[i].refs ensures !InRun(x, run, t) {
      RunIsNew(run, s, rows, entries, i);
      RunIsNew(run, s, rows, entries, t);
      assert i in s.rows && x.rows[i] == s.rows[i];
      assert t in s.rows;
    }
    forall e | e in x.entries && !OwnedBy(run, KINDS, e) ensures !InRun(x, run, e.account) {
      RunIsNew(run, s, rows, entries, e.account);
      assert e in s.entries;
      assert e.account in s.rows;
    }
  }

  lemma ExactIsBefore(s: Store, rows: map<nat, Row>, entries: seq<Entry>, run: map<Kind, set<nat>>)
    requires WellFormed(s) && Lists(run, rows) && NewIds(s, rows)
    requires forall e :: e in entries ==> OwnedBy(run, KINDS, e)
    ensures Exact(WithImport(s, rows, entries), run) == s
  {
    var x := WithImport(s, rows, entries);
    forall e | e in s.entries ensures Kept(run, KINDS)(e) {
      if OwnedBy(run, KINDS, e) {
        OwnedIsNew(run, rows, e);
      }
    }
    WhereDropsNew(s.entries, entries, Kept(run, KINDS));
    forall i | i in x.rows ensures InRun(x, run, i) <==> i in rows { RunIsNew(run, s, rows, entries, i); }
    assert Exact(x, run).rows == s.rows;
  }

  /** An import followed by its undoing is nothing: every row, entry and so every balance is as before. */
  lemma RevertUndoesImport(s: Store, rows: map<nat, Row>, entries: seq<Entry>, run: map<Kind, set<nat>>)
    requires WellFormed(s) && WellFormed(WithImport(s, rows, entries))
    requires Lists(run, rows) && NewIds(s, rows)
    requires forall e :: e in entries ==> OwnedBy(run, KINDS, e)
    ensures Revert(WithImport(s, rows, entries), run) == Ok(s)
  {
    ImportIsRecorded(s, rows, entries, run);
    ImportIsUndisturbed(s, rows, entries, run);
    RevertIsExactIff(WithImport(s, rows, entries), run);
    ExactIsBefore(s, rows, entries, run);
  }

  /** A ticket as the import writes it: the row, what it refers to, and its first history row, which no run lists. */
  function IssuedTicket(t: nat, refs: set<nat>, h: nat): map<nat, Row> {
    map[t := Row(Ticket, refs), h := Row(TicketChild, {t})]
  }

  lemma IssuedTicketFits(s: Store, t: nat, refs: set<nat>, h: nat)
    requires WellFormed(s) && t != h && NewIds(s, IssuedTicket(t, refs, h))
    requires forall r :: r in refs ==> r in s.rows && OnDelete(Ticket, s.rows[r].kind).Some?
    ensures WellFormed(WithImport(s, IssuedTicket(t, refs, h), []))
  {
    var x := WithImport(s, IssuedTicket(t, refs, h), []);
    forall i, r | i in x.rows && r in x.rows[i].refs ensures r in x.rows && OnDelete(x.rows[i].kind, x.rows[r].kind).Some? {
    }
    assert x.entries == s.entries;
  }

  lemma IssuedTicketIsListed(t: nat, refs: set<nat>, h: nat)
    requires t != h
    ensures Lists(map[Ticket := {t}], IssuedTicket(t, refs, h))
  {
    var rows := IssuedTicket(t, refs, h);
    assert t in rows[h].refs && Belongs(rows, h);
  }

  /** Undoing the import of one ticket takes its history row with it and leaves the books as they were. */
  lemma RevertUndoesTicket(s: Store, t: nat, refs: set<nat>, h: nat)
    requires WellFormed(s) && t != h && NewIds(s, IssuedTicket(t, refs, h))
    requires forall r :: r in refs ==> r in s.rows && OnDelete(Ticket, s.rows[r].kind).Some?
    ensures Revert(WithImport(s, IssuedTicket(t, refs, h), []), map[Ticket := {t}]) == Ok(s)
  {
    IssuedTicketFits(s, t, refs, h);
    IssuedTicketIsListed(t, refs, h);
    RevertUndoesImport(s, IssuedTicket(t, refs, h), [], map[Ticket := {t}]);
  }

  /* --------------------- what an outside row can lose ------------------- */

  /**
   * A payment taken on an imported ticket after the import is never in the way: it goes with
   * the ticket, and whatever it had posted stays in the ledger with no row behind it.
   */
  lemma LaterPaymentsAreLost(s: Store, run: map<Kind, set<nat>>, t: nat, p: nat)
    requires WellFormed(s) && Recorded(s, run) && Revert(s, run).Ok?
    requires Listed(s, run, t) && s.rows[t].kind == Ticket
    requires p in s.rows && s.rows[p].kind == TicketPayment && t in s.rows[p].refs && !Listed(s, run, p)
    ensures p !in Revert(s, run).value.rows
    ensures forall e :: e in s.entries && e.source == SalesPayment && e.sourceId == p ==> e in Revert(s, run).value.entries
  {
    RevertLeaves(s, run);
    assert Hangs(s, run, KINDS, p);
    forall e | e in s.entries && e.source == SalesPayment && e.sourceId == p ensures Kept(run, KINDS)(e) {
      assert p !in Get(run, TicketPayment, {});
    }
  }

  lemma {:induction false} OneKindRun(s: Store, kind: nat, ids: set<nat>, n: nat)
    requires kind < KINDS && n <= KINDS
    ensures var run := map[DeleteOrder(kind) := ids];
            Steps(s, run, n) == if n <= kind then Ok(s) else Step(s, run, DeleteOrder(kind))
  {
    if n > 0 {
      OneKindRun(s, kind, ids, n - 1);
      var run := map[DeleteOrder(kind) := ids];
      if n - 1 != kind {
        assert Rank(DeleteOrder(n - 1)) != Rank(DeleteOrder(kind));
        assert Get(run, DeleteOrder(n - 1), {}) == {};
      }
    }
  }

  const ACCOUNT := Row(CashAccount, {})
  const BUYER := Row(Customer, {})

  function PaidLater(): Store {
    Store(map[0 := ACCOUNT, 1 := BUYER, 2 := Row(Ticket, {1}), 3 := Row(TicketPayment, {0, 2})],
          [Entry(0, 500, SalesPayment, 3)])
  }

  lemma TicketTakesItsPayments()
    ensures Delete(PaidLater(), Ticket, {2}) == Ok(Store(map[0 := ACCOUNT, 1 := BUYER], PaidLater().entries))
  {
    var s := PaidLater();
    assert Targets(s, Ticket, {2}) == {2};
    assert Refers(s, 3, {2}, Cascade) by { assert 2 in s.rows[3].refs; }
    assert Doomed(s, Ticket, {2}) == {2, 3};
    var left := Without(s.rows, {2, 3});
    assert left.Keys == {0, 1};
    assert left[0].refs == {} && left[1].refs == {};
    assert left == map[0 := ACCOUNT, 1 := BUYER];
  }

  lemma PaidLaterReverted()
    ensures Revert(PaidLater(), map[Ticket := {2}]) == Delete(PaidLater(), Ticket, {2})
  {
    assert DeleteOrder(6) == Ticket;
    OneKindRun(PaidLater(), 6, {2}, KINDS);
    WhereAll(PaidLater().entries, NotOwned(Ticket, {2}));
  }

  lemma PaidLaterIsWellFormed()
    ensures WellFormed(PaidLater())
  {
    var s := PaidLater();
    assert s.rows.Keys == {0, 1, 2, 3};
    forall i, t | i in s.rows && t in s.rows[i].refs
      ensures t in s.rows && OnDelete(s.rows[i].kind, s.rows[t].kind).Some?
    {
      assert i == 2 || i == 3;
    }
  }

  /** The run that imported the ticket, and nothing else. */
  function TicketRun(): map<Kind, set<nat>> { map[Ticket := {2}] }

  lemma PaymentIsOutside()
    ensures Recorded(PaidLater(), TicketRun())
    ensures 3 in PaidLater().rows && !InRun(PaidLater(), TicketRun(), 3)
  {
    var run := TicketRun();
    assert run.Keys == {Ticket} && Rank(Ticket) < KINDS;
    assert PaidLater().rows[3].kind == TicketPayment;
    assert Get(run, TicketPayment, {}) == {};
  }

  /** And it happens: a run that imported one ticket, a payment of 500 taken on it since, and the undoing. */
  lemma LaterPaymentIsLost()
    ensures WellFormed(PaidLater()) && Recorded(PaidLater(), TicketRun())
    ensures 3 in PaidLater().rows && !InRun(PaidLater(), TicketRun(), 3)
    ensures Revert(PaidLater(), TicketRun()) == Ok(Store(map[0 := ACCOUNT, 1 := BUYER], [Entry(0, 500, SalesPayment, 3)]))
  {
    PaidLaterIsWellFormed();
    PaymentIsOutside();
    PaidLaterReverted();
    TicketTakesItsPayments();
  }

  /* ------------------------------ the call ----------------------------- */

  datatype RunStatus = Running | Completed | Failed | Reverted
  datatype ImportedRecord = ImportedRecord(importId: nat, kind: Kind, id: nat)

  /** What `byEntity` holds for one run. */
  function ByEntity(records: seq<ImportedRecord>, importId: nat): map<Kind, set<nat>> {
    if records == [] then map[]
    else
      var before, last := ByEntity(records[..|records| - 1], importId), records[|records| - 1];
      if last.importId == importId then before[last.kind := Get(before, last.kind, {}) + {last.id}] else before
  }

  function OtherRuns(importId: nat): ImportedRecord -> bool { (r: ImportedRecord) => r.importId != importId }

  class Imports {
    var store: Store
    var runs: map<nat, RunStatus>
    var records: seq<ImportedRecord>

    /** `revertRun`: all of it or nothing. */
    method RevertRun(importId: nat) returns (failure: Option<Failure>)
      modifies this
      ensures importId !in old(runs) ==> failure == Some(NotFound)
      ensures importId in old(runs) && old(runs[importId]) == Reverted ==> failure == Some(AlreadyUndone)
      ensures importId in old(runs) && old(runs[importId]) == Running ==> failure == Some(StillRunning)
      ensures importId in old(runs) && old(runs[importId]) in {Completed, Failed} ==>
        match Revert(old(store), ByEntity(old(records), importId))
        case Ok(after) => failure.None? && store == after
        case Err(e) => failure == Some(e)
      ensures failure.None? ==> runs == old(runs)[importId := Reverted] && records == Where(old(records), OtherRuns(importId))
      ensures failure.Some? ==> store == old(store) && runs == old(runs) && records == old(records)
    {
      if importId !in runs {
        return Some(NotFound);
      }
      if runs[importId] == Reverted {
        return Some(AlreadyUndone);
      }
      if runs[importId] == Running {
        return Some(StillRunning);
      }
      var byEntity: map<Kind, set<nat>> := map[];
      for i := 0 to |records|
        invariant byEntity == ByEntity(records[..i], importId)
      {
        assert records[..i + 1][..i] == records[..i];
        var record := records[i];
        if record.importId == importId {
          byEntity := byEntity[record.kind := Get(byEntity, record.kind, {}) + {record.id}];
        }
      }
      assert records[..|records|] == records;
      var tx := store;
      for n := 0 to KINDS
        invariant Steps(store, byEntity, n) == Ok(tx)
      {
        var kind := DeleteOrder(n);
        if kind in byEntity && byEntity[kind] != {} {
          var ids := byEntity[kind];
          tx := tx.(entries := Where(tx.entries, NotOwned(kind, ids)));
          var deleted := Delete(tx, kind, ids);
          if deleted.Err? {
            StepsStayFailed(store, byEntity, n + 1, KINDS);
            return Some(deleted.error);
          }
          tx := deleted.value;
        }
      }
      store := tx;
      records := Where(records, OtherRuns(importId));
      runs := runs[importId := Reverted];
      return None;
    }
  }

  lemma {:induction false} StepsStayFailed(s: Store, run: map<Kind, set<nat>>, n: nat, m: nat)
    requires n <= m <= KINDS && Steps(s, run, n).Err?
    ensures Steps(s, run, m) == Steps(s, run, n)
    decreases m
  {
    if n < m {
      StepsStayFailed(s, run, n, m - 1);
    }
  }
}
