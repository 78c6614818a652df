/**
 * Undoing a history import: the rollback list the import kept is the list its undoing
 * needs, so undoing right after importing leaves the books as they were.
 *
 * The import numbers its rows table by table and the undoing sees one id space, so a
 * row's place is its number and its kind together.
 */
module HistoryUndo {
  import opened Wrappers
  import opened Rows
  import opened Books
  import opened HistoryPasses
  import ImportRun

  function KindOf(e: Entity): ImportRun.Kind {
    match e
    case TicketRecord => ImportRun.Ticket
    case TicketPaymentRecord => ImportRun.TicketPayment
    case CategoryRecord => ImportRun.ExpenseCategory
    case MovementRecord(Capital) => ImportRun.CapitalFlow
    case MovementRecord(Collections) => ImportRun.DueReceived
    case MovementRecord(SupplierPayments) => ImportRun.SupplierTransaction
    case MovementRecord(Expenses) => ImportRun.Expense
    case MovementRecord(ProfitWithdrawals) => ImportRun.ProfitWithdrawal
  }

  function Place(e: Entity, id: nat): nat { 16 * id + ImportRun.Rank(KindOf(e)) }

  /** The rows `attachRecords` writes for a run. */
  function Records(recorded: Recorded, importId: nat): seq<ImportRun.ImportedRecord> {
    seq(|recorded|, i requires 0 <= i < |recorded| =>
      ImportRun.ImportedRecord(importId, KindOf(recorded[i].0), Place(recorded[i].0, recorded[i].1)))
  }

  function Run(recorded: Recorded, importId: nat): map<ImportRun.Kind, set<nat>> {
    ImportRun.ByEntity(Records(recorded, importId), importId)
  }

  ghost predicate Holds(recorded: Recorded, k: ImportRun.Kind, i: nat) {
    exists r :: r in recorded && KindOf(r.0) == k && Place(r.0, r.1) == i
  }

  /** Sorting the list by kind keeps every row on it and adds none. */
  lemma {:induction false} RunHolds(recorded: Recorded, importId: nat, k: ImportRun.Kind, i: nat)
    ensures i in Get(Run(recorded, importId), k, {}) <==> Holds(recorded, k, i)
    ensures k in Run(recorded, importId) ==> ImportRun.Rank(k) < ImportRun.KINDS
  {
    if recorded != [] {
      var init, last := recorded[..|recorded| - 1], recorded[|recorded| - 1];
      assert recorded == init + [last];
      assert Records(recorded, importId)[..|recorded| - 1] == Records(init, importId);
      RunHolds(init, importId, k, i);
    }
  }

  /** Row `n` of a kind is one the tables have gained. */
  predicate Gained(start: Tables, after: Tables, e: Entity, n: nat) { |Ids(start, e)| <= n < |Ids(after, e)| }

  /** `rows` are what the tables gained, each at its place and of its kind, and what hangs on those. */
  ghost predicate AreGained(start: Tables, after: Tables, rows: map<nat, ImportRun.Row>) {
    && (forall e, n: nat :: Gained(start, after, e, n) ==>
          Place(e, Ids(after, e)[n]) in rows && rows[Place(e, Ids(after, e)[n])].kind == KindOf(e))
    && (forall i :: i in rows && ImportRun.Rank(rows[i].kind) < ImportRun.KINDS ==>
          exists e, n: nat :: Gained(start, after, e, n) && Place(e, Ids(after, e)[n]) == i)
    && (forall i :: i in rows && ImportRun.Rank(rows[i].kind) >= ImportRun.KINDS ==> ImportRun.Belongs(rows, i))
  }

  lemma {:induction false} OfEntityHolds(recorded: Recorded, e: Entity, id: nat)
    ensures id in FlatMap(recorded, OfEntity(e)) <==> (e, id) in recorded
  {
    if recorded != [] {
      var init, last := recorded[..|recorded| - 1], recorded[|recorded| - 1];
      assert recorded == init + [last];
      OfEntityHolds(init, e, id);
    }
  }

  lemma TailHolds(head: seq<nat>, tail: seq<nat>, all: seq<nat>, n: nat)
    requires all == head + tail && |head| <= n < |all|
    ensures all[n] in tail
  {
    assert all[n] == tail[n - |head|];
  }

  lemma GainedIsRecorded(start: Tables, after: Tables, recorded: Recorded, e: Entity, n: nat)
    requires RecordsExactly(start, after, recorded) && Gained(start, after, e, n)
    ensures (e, Ids(after, e)[n]) in recorded
  {
    TailHolds(Ids(start, e), FlatMap(recorded, OfEntity(e)), Ids(after, e), n);
    OfEntityHolds(recorded, e, Ids(after, e)[n]);
  }

  lemma RecordedIsGained(start: Tables, after: Tables, recorded: Recorded, e: Entity, id: nat) returns (n: nat)
    requires RecordsExactly(start, after, recorded) && (e, id) in recorded
    ensures Gained(start, after, e, n) && Ids(after, e)[n] == id
  {
    var more := FlatMap(recorded, OfEntity(e));
    OfEntityHolds(recorded, e, id);
    var m :| 0 <= m < |more| && more[m] == id;
    assert Ids(after, e) == Ids(start, e) + more;
    n := |Ids(start, e)| + m;
  }

  lemma RowIsListed(start: Tables, after: Tables, recorded: Recorded, rows: map<nat, ImportRun.Row>, importId: nat, i: nat)
    requires RecordsExactly(start, after, recorded) && AreGained(start, after, rows)
    requires i in rows && ImportRun.Rank(rows[i].kind) < ImportRun.KINDS
    ensures i in Get(Run(recorded, importId), rows[i].kind, {})
  {
    var e, n: nat :| Gained(start, after, e, n) && Place(e, Ids(after, e)[n]) == i;
    GainedIsRecorded(start, after, recorded, e, n);
    RunHolds(recorded, importId, KindOf(e), i);
  }

  lemma ListedIsRow(start: Tables, after: Tables, recorded: Recorded, rows: map<nat, ImportRun.Row>, importId: nat,
                    k: ImportRun.Kind, i: nat)
    requires RecordsExactly(start, after, recorded) && AreGained(start, after, rows)
    requires i in Get(Run(recorded, importId), k, {})
    ensures i in rows && rows[i].kind == k
  {
    RunHolds(recorded, importId, k, i);
    var r :| r in recorded && KindOf(r.0) == k && Place(r.0, r.1) == i;
    var n := RecordedIsGained(start, after, recorded, r.0, r.1);
  }

  lemma ListsByClauses(run: map<ImportRun.Kind, set<nat>>, rows: map<nat, ImportRun.Row>)
    requires forall i :: i in rows && ImportRun.Rank(rows[i].kind) < ImportRun.KINDS ==> i in Get(run, rows[i].kind, {})
    requires forall i :: i in rows && ImportRun.Rank(rows[i].kind) >= ImportRun.KINDS ==> ImportRun.Belongs(rows, i)
    requires forall k :: k in run ==> ImportRun.Rank(k) < ImportRun.KINDS
    requires forall k, i :: i in Get(run, k, {}) ==> i in rows && rows[i].kind == k
    ensures ImportRun.Lists(run, rows)
  {
    forall k, i | k in run && i in run[k] ensures i in rows && rows[i].kind == k {
      assert i in Get(run, k, {});
    }
  }

  /** A list that is exactly the rows added is what the undoing asks of a run. */
  lemma RecordedIsListed(start: Tables, after: Tables, recorded: Recorded, rows: map<nat, ImportRun.Row>, importId: nat)
    requires RecordsExactly(start, after, recorded) && AreGained(start, after, rows)
    ensures ImportRun.Lists(Run(recorded, importId), rows)
  {
    forall i | i in rows && ImportRun.Rank(rows[i].kind) < ImportRun.KINDS
      ensures i in Get(Run(recorded, importId), rows[i].kind, {})
    {
      RowIsListed(start, after, recorded, rows, importId, i);
    }
    forall k | k in Run(recorded, importId) ensures ImportRun.Rank(k) < ImportRun.KINDS { RunHolds(recorded, importId, k, 0); }
    forall k, i | i in Get(Run(recorded, importId), k, {}) ensures i in rows && rows[i].kind == k {
      ListedIsRow(start, after, recorded, rows, importId, k, i);
    }
    ListsByClauses(Run(recorded, importId), rows);
  }

  /* ---------------------------- ledger entries ------------------------- */

  function SourceOf(source: Source): ImportRun.Source {
    match source
    case SalesPayment => ImportRun.SalesPayment
    case DueReceived => ImportRun.DueReceivedSource
    case Investment => ImportRun.Investment
    case CapitalOut => ImportRun.InvestmentWithdrawal
    case ProfitOut => ImportRun.ProfitWithdrawalSource
    case SupplierOut => ImportRun.SupplierPayment
    case ExpenseOut => ImportRun.ExpenseSource
    case Opening => ImportRun.Opening
    case _ => ImportRun.OtherSource
  }

  /** A posting as the undoing sees it, its account and its row at their places. */
  function EntryOf(p: Posting): ImportRun.Entry {
    ImportRun.Entry(16 * p.account + ImportRun.Rank(ImportRun.CashAccount), Signed(p), SourceOf(p.source),
                    match PostedBy(p.source) case Some(e) => Place(e, p.sourceId) case None => p.sourceId)
  }

  /** The ledger entries the import wrote. */
  function Entries(start: Tables, after: Tables): seq<ImportRun.Entry> {
    var posted := Posted(start, after);
    seq(|posted|, i requires 0 <= i < |posted| => EntryOf(posted[i]))
  }

  lemma EntryIsOwned(start: Tables, after: Tables, recorded: Recorded, importId: nat, e: ImportRun.Entry)
    requires PostsRecorded(start, after, recorded) && e in Entries(start, after)
    ensures ImportRun.OwnedBy(Run(recorded, importId), ImportRun.KINDS, e)
  {
    var posted := Posted(start, after);
    var i :| 0 <= i < |posted| && EntryOf(posted[i]) == e;
    var p := posted[i];
    assert p in posted;
    var kind := PostedBy(p.source).value;
    assert (kind, p.sourceId) in recorded;
    assert Holds(recorded, KindOf(kind), Place(kind, p.sourceId));
    assert ImportRun.Owner(SourceOf(p.source)) == Some(KindOf(kind));
    RunHolds(recorded, importId, KindOf(kind), Place(kind, p.sourceId));
  }

  /**
   * From the import's own rollback list to its undoing: with that list, whatever rows the
   * import added, with the history rows of its tickets, and every ledger entry it wrote
   * are gone again, and everything else is as it was.
   */
  lemma ImportIsUndone(start: Tables, after: Tables, recorded: Recorded, importId: nat,
                       s: ImportRun.Store, rows: map<nat, ImportRun.Row>)
    requires RecordsExactly(start, after, recorded) && PostsRecorded(start, after, recorded)
    requires AreGained(start, after, rows)
    requires ImportRun.WellFormed(s) && ImportRun.WellFormed(ImportRun.WithImport(s, rows, Entries(start, after)))
    requires ImportRun.NewIds(s, rows)
    ensures ImportRun.Revert(ImportRun.WithImport(s, rows, Entries(start, after)), Run(recorded, importId)) == Ok(s)
  {
    RecordedIsListed(start, after, recorded, rows, importId);
    forall e | e in Entries(start, after) ensures ImportRun.OwnedBy(Run(recorded, importId), ImportRun.KINDS, e) {
      EntryIsOwned(start, after, recorded, importId, e);
    }
    ImportRun.RevertUndoesImport(s, rows, Entries(start, after), Run(recorded, importId));
  }
}
