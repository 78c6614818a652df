/**
 * The posting ledger explains every balance, and undoing a cause undoes exactly
 * its postings.
 */
module Ledger {
  import opened Wrappers
  import opened Rows
  import opened Books
  import opened Calls

  /* --------------------- what the ledger should hold ------------------- */

  /** What an account still starts from: a deleted one starts from nothing. */
  function OpeningOf(account: Account): int { if account.deleted then 0 else account.opening }

  function Openings(accounts: seq<Account>): seq<Posting> {
    if accounts == [] then []
    else Openings(accounts[..|accounts| - 1]) + OpeningPostings(|accounts| - 1, OpeningOf(accounts[|accounts| - 1]))
  }

  /** One posting per opening, cash payment, receipt half, transfer half and flow. */
  function Expected(db: Db): seq<Posting> {
    Openings(db.accounts) + FlatMap(db.payments, PaymentPostings) + FlatMap(db.receipts, ReceiptPostings)
    + FlatMap(db.transfers, TransferPostings) + FlatMap(db.flows, FlowPostings)
  }

  /** The same rows, each as often, in any order. */
  ghost predicate SameRows(a: seq<Posting>, b: seq<Posting>) { forall x: Posting :: Count(a, x) == Count(b, x) }

  ghost predicate Explained(db: Db) { SameRows(db.postings, Expected(db)) }

  function PaymentId(): Payment -> nat { (p: Payment) => p.id }
  function ReceiptId(): Receipt -> nat { (r: Receipt) => r.id }
  function TransferId(): Transfer -> nat { (t: Transfer) => t.id }
  function FlowId(): Flow -> nat { (f: Flow) => f.id }

  /** No two rows of a table share an id. */
  ghost predicate UniqueIds(db: Db) {
    && Unique(db.payments, PaymentId()) && Unique(db.receipts, ReceiptId())
    && Unique(db.transfers, TransferId()) && Unique(db.flows, FlowId())
  }

  /** Ids not yet drawn are unused. */
  predicate DrawnIds(db: Db) {
    && (forall p :: p in db.payments ==> p.id < db.nextId)
    && (forall r :: r in db.receipts ==> r.id < db.nextId)
    && (forall t :: t in db.transfers ==> t.id < db.nextId)
    && (forall f :: f in db.flows ==> f.id < db.nextId)
    && (forall u :: u in db.postings && u.source != Opening ==> u.sourceId < db.nextId)
  }

  ghost predicate FreshIds(db: Db) { UniqueIds(db) && DrawnIds(db) }

  ghost predicate Sound(db: Db) { Explained(db) && FreshIds(db) }

  /* -------------------------- inserting causes ------------------------- */

  lemma {:induction false} OpeningsAreOpening(accounts: seq<Account>, u: Posting)
    requires u in Openings(accounts)
    ensures u.source == Opening && u.account == u.sourceId < |accounts|
  {
    if u in Openings(accounts[..|accounts| - 1]) {
      OpeningsAreOpening(accounts[..|accounts| - 1], u);
    }
  }

  lemma CountExpected(db: Db, x: Posting)
    ensures Count(Expected(db), x)
         == Count(Openings(db.accounts), x) + Count(FlatMap(db.payments, PaymentPostings), x)
            + Count(FlatMap(db.receipts, ReceiptPostings), x) + Count(FlatMap(db.transfers, TransferPostings), x)
            + Count(FlatMap(db.flows, FlowPostings), x)
  {
    var a, b, c := Openings(db.accounts), FlatMap(db.payments, PaymentPostings), FlatMap(db.receipts, ReceiptPostings);
    var d, e := FlatMap(db.transfers, TransferPostings), FlatMap(db.flows, FlowPostings);
    CountConcat(a, b, x);
    CountConcat(a + b, c, x);
    CountConcat(a + b + c, d, x);
    CountConcat(a + b + c + d, e, x);
  }

  /** A call that appends `more` to one table's postings and to the ledger. */
  lemma InsertKeepsExplained(db: Db, db': Db, part: seq<Posting>, more: seq<Posting>)
    requires Explained(db) && db'.postings == db.postings + more
    requires forall x :: Count(Expected(db'), x) == Count(Expected(db), x) - Count(part, x) + Count(part + more, x)
    ensures Explained(db')
  {
    forall x: Posting ensures Count(db'.postings, x) == Count(Expected(db'), x) {
      CountConcat(db.postings, more, x);
      CountConcat(part, more, x);
    }
  }

  lemma PayKeepsExplained(db: Db, p: Payment)
    requires Explained(db)
    ensures Explained(AddPayment(db, p))
  {
    var db' := AddPayment(db, p);
    FlatMapAppend(db.payments, p, PaymentPostings);
    forall x ensures Count(Expected(db'), x) == Count(Expected(db), x)
        - Count(FlatMap(db.payments, PaymentPostings), x) + Count(FlatMap(db'.payments, PaymentPostings), x)
    {
      CountExpected(db, x);
      CountExpected(db', x);
    }
    InsertKeepsExplained(db, db', FlatMap(db.payments, PaymentPostings), PaymentPostings(p));
  }

  lemma CollectKeepsExplained(db: Db, r: Receipt)
    requires Explained(db)
    ensures Explained(AddReceipt(db, r))
  {
    var db' := AddReceipt(db, r);
    FlatMapAppend(db.receipts, r, ReceiptPostings);
    forall x ensures Count(Expected(db'), x) == Count(Expected(db), x)
        - Count(FlatMap(db.receipts, ReceiptPostings), x) + Count(FlatMap(db'.receipts, ReceiptPostings), x)
    {
      CountExpected(db, x);
      CountExpected(db', x);
    }
    InsertKeepsExplained(db, db', FlatMap(db.receipts, ReceiptPostings), ReceiptPostings(r));
  }

  lemma MoveKeepsExplained(db: Db, t: Transfer)
    requires Explained(db)
    ensures Explained(AddTransfer(db, t))
  {
    var db' := AddTransfer(db, t);
    FlatMapAppend(db.transfers, t, TransferPostings);
    forall x ensures Count(Expected(db'), x) == Count(Expected(db), x)
        - Count(FlatMap(db.transfers, TransferPostings), x) + Count(FlatMap(db'.transfers, TransferPostings), x)
    {
      CountExpected(db, x);
      CountExpected(db', x);
    }
    InsertKeepsExplained(db, db', FlatMap(db.transfers, TransferPostings), TransferPostings(t));
  }

  lemma EnterKeepsExplained(db: Db, f: Flow)
    requires Explained(db)
    ensures Explained(AddFlow(db, f))
  {
    var db' := AddFlow(db, f);
    FlatMapAppend(db.flows, f, FlowPostings);
    forall x ensures Count(Expected(db'), x) == Count(Expected(db), x)
        - Count(FlatMap(db.flows, FlowPostings), x) + Count(FlatMap(db'.flows, FlowPostings), x)
    {
      CountExpected(db, x);
      CountExpected(db', x);
    }
    InsertKeepsExplained(db, db', FlatMap(db.flows, FlowPostings), FlowPostings(f));
  }

  lemma OpenKeepsExplained(db: Db, opening: int, active: bool)
    requires Explained(db)
    ensures Explained(Apply(db, NewAccount(opening, active)).value)
  {
    var db' := Apply(db, NewAccount(opening, active)).value;
    assert db'.accounts[..|db'.accounts| - 1] == db.accounts;
    forall x ensures Count(Expected(db'), x) == Count(Expected(db), x)
        - Count(Openings(db.accounts), x) + Count(Openings(db'.accounts), x)
    {
      CountExpected(db, x);
      CountExpected(db', x);
    }
    InsertKeepsExplained(db, db', Openings(db.accounts), OpeningPostings(|db.accounts|, opening));
  }

  /* --------------------------- deleting causes ------------------------- */

  /** Filtering the ledger filters each part of what explains it. */
  lemma WhereExpected(db: Db, keep: Posting -> bool)
    ensures Where(Expected(db), keep)
         == Where(Openings(db.accounts), keep) + Where(FlatMap(db.payments, PaymentPostings), keep)
            + Where(FlatMap(db.receipts, ReceiptPostings), keep) + Where(FlatMap(db.transfers, TransferPostings), keep)
            + Where(FlatMap(db.flows, FlowPostings), keep)
  {
    var a, b, c := Openings(db.accounts), FlatMap(db.payments, PaymentPostings), FlatMap(db.receipts, ReceiptPostings);
    var d, e := FlatMap(db.transfers, TransferPostings), FlatMap(db.flows, FlowPostings);
    WhereConcat(a, b, keep);
    WhereConcat(a + b, c, keep);
    WhereConcat(a + b + c, d, keep);
    WhereConcat(a + b + c + d, e, keep);
  }

  lemma DropKeepsExplained(db: Db, db': Db, keep: Posting -> bool)
    requires Explained(db) && db'.postings == Where(db.postings, keep) && Expected(db') == Where(Expected(db), keep)
    ensures Explained(db')
  {
    forall x: Posting ensures Count(db'.postings, x) == Count(Expected(db'), x) {
      CountWhere(db.postings, keep, x);
      CountWhere(Expected(db), keep, x);
    }
  }

  /** Filtering the ledger and each part of what explains it alike keeps it explained. */
  lemma DropPartsKeepsExplained(db: Db, db': Db, keep: Posting -> bool)
    requires Explained(db) && db'.postings == Where(db.postings, keep)
    requires Where(Openings(db.accounts), keep) == Openings(db'.accounts)
    requires Where(FlatMap(db.payments, PaymentPostings), keep) == FlatMap(db'.payments, PaymentPostings)
    requires Where(FlatMap(db.receipts, ReceiptPostings), keep) == FlatMap(db'.receipts, ReceiptPostings)
    requires Where(FlatMap(db.transfers, TransferPostings), keep) == FlatMap(db'.transfers, TransferPostings)
    requires Where(FlatMap(db.flows, FlowPostings), keep) == FlatMap(db'.flows, FlowPostings)
    ensures Explained(db')
  {
    WhereExpected(db, keep);
    DropKeepsExplained(db, db', keep);
  }

  /** A filter that can only drop postings of these sources. */
  ghost predicate OnlyDrops(keep: Posting -> bool, sources: set<Source>) {
    forall u: Posting :: u.source !in sources ==> keep(u)
  }

  lemma OpeningsSpared(db: Db, keep: Posting -> bool, sources: set<Source>)
    requires OnlyDrops(keep, sources) && Opening !in sources
    ensures Where(Openings(db.accounts), keep) == Openings(db.accounts)
  {
    forall u | u in Openings(db.accounts) ensures keep(u) { OpeningsAreOpening(db.accounts, u); }
    WhereAll(Openings(db.accounts), keep);
  }

  lemma {:induction false} FlatMapSpared<T(!new)>(rows: seq<T>, f: T -> seq<Posting>, keep: Posting -> bool)
    requires forall r, u :: r in rows && u in f(r) ==> keep(u)
    ensures Where(FlatMap(rows, f), keep) == FlatMap(rows, f)
  {
    FlatMapWhere(rows, f, (r: T) => true, keep);
    WhereAll(rows, (r: T) => true);
  }

  lemma PaymentsSpared(db: Db, keep: Posting -> bool, sources: set<Source>)
    requires OnlyDrops(keep, sources) && SalesPayment !in sources
    ensures Where(FlatMap(db.payments, PaymentPostings), keep) == FlatMap(db.payments, PaymentPostings)
  {
    FlatMapSpared(db.payments, PaymentPostings, keep);
  }

  lemma ReceiptsSpared(db: Db, keep: Posting -> bool, sources: set<Source>)
    requires OnlyDrops(keep, sources) && DueReceived !in sources
    ensures Where(FlatMap(db.receipts, ReceiptPostings), keep) == FlatMap(db.receipts, ReceiptPostings)
  {
    assert forall r, u :: r in db.receipts && u in ReceiptPostings(r) ==> keep(u);
    FlatMapSpared(db.receipts, ReceiptPostings, keep);
  }

  lemma TransfersSpared(db: Db, keep: Posting -> bool, sources: set<Source>)
    requires OnlyDrops(keep, sources) && TransferOut !in sources && TransferIn !in sources
    ensures Where(FlatMap(db.transfers, TransferPostings), keep) == FlatMap(db.transfers, TransferPostings)
  {
    FlatMapSpared(db.transfers, TransferPostings, keep);
  }

  lemma FlowsSpared(db: Db, keep: Posting -> bool, sources: set<Source>)
    requires OnlyDrops(keep, sources) && forall kind: FlowKind :: SourceOf(kind) !in sources
    ensures Where(FlatMap(db.flows, FlowPostings), keep) == FlatMap(db.flows, FlowPostings)
  {
    FlatMapSpared(db.flows, FlowPostings, keep);
  }

  lemma PaymentsGo(payments: seq<Payment>, rows: Payment -> bool, keep: Posting -> bool)
    requires forall r, u :: r in payments && u in PaymentPostings(r) ==> keep(u) == rows(r)
    ensures Where(FlatMap(payments, PaymentPostings), keep) == FlatMap(Where(payments, rows), PaymentPostings)
  {
    FlatMapWhere(payments, PaymentPostings, rows, keep);
  }

  lemma AllButPaymentsSpared(db: Db, keep: Posting -> bool)
    requires OnlyDrops(keep, {SalesPayment})
    ensures Where(Openings(db.accounts), keep) == Openings(db.accounts)
    ensures Where(FlatMap(db.receipts, ReceiptPostings), keep) == FlatMap(db.receipts, ReceiptPostings)
    ensures Where(FlatMap(db.transfers, TransferPostings), keep) == FlatMap(db.transfers, TransferPostings)
    ensures Where(FlatMap(db.flows, FlowPostings), keep) == FlatMap(db.flows, FlowPostings)
  {
    OpeningsSpared(db, keep, {SalesPayment});
    ReceiptsSpared(db, keep, {SalesPayment});
    TransfersSpared(db, keep, {SalesPayment});
    FlowsSpared(db, keep, {SalesPayment});
  }

  lemma DropPayments(db: Db, db': Db, rows: Payment -> bool, keep: Posting -> bool)
    requires Explained(db) && db'.postings == Where(db.postings, keep) && db'.payments == Where(db.payments, rows)
    requires db'.accounts == db.accounts && db'.receipts == db.receipts
    requires db'.transfers == db.transfers && db'.flows == db.flows
    requires forall r, u :: r in db.payments && u in PaymentPostings(r) ==> keep(u) == rows(r)
    requires OnlyDrops(keep, {SalesPayment})
    ensures Explained(db')
  {
    PaymentsGo(db.payments, rows, keep);
    AllButPaymentsSpared(db, keep);
    DropPartsKeepsExplained(db, db', keep);
  }

  lemma ReceiptsGo(receipts: seq<Receipt>, id: nat)
    ensures Where(FlatMap(receipts, ReceiptPostings), NotFrom(DueReceived, id))
         == FlatMap(Where(receipts, OtherReceipts(id)), ReceiptPostings)
  {
    forall r, u | r in receipts && u in ReceiptPostings(r) ensures NotFrom(DueReceived, id)(u) == OtherReceipts(id)(r) {
    }
    FlatMapWhere(receipts, ReceiptPostings, OtherReceipts(id), NotFrom(DueReceived, id));
  }

  lemma DropReceipts(db: Db, db': Db, id: nat)
    requires Explained(db)
    requires db' == db.(receipts := Where(db.receipts, OtherReceipts(id)), postings := Reverse(db.postings, DueReceived, id))
    ensures Explained(db')
  {
    var keep := NotFrom(DueReceived, id);
    ReceiptsGo(db.receipts, id);
    OpeningsSpared(db, keep, {DueReceived});
    PaymentsSpared(db, keep, {DueReceived});
    TransfersSpared(db, keep, {DueReceived});
    FlowsSpared(db, keep, {DueReceived});
    DropPartsKeepsExplained(db, db', keep);
  }

  function NotEitherHalf(id: nat): Posting -> bool {
    (p: Posting) => !((p.source == TransferOut || p.source == TransferIn) && p.sourceId == id)
  }

  lemma TransfersGo(transfers: seq<Transfer>, id: nat)
    ensures Where(FlatMap(transfers, TransferPostings), NotEitherHalf(id))
         == FlatMap(Where(transfers, OtherTransfers(id)), TransferPostings)
  {
    forall t, u | t in transfers && u in TransferPostings(t) ensures NotEitherHalf(id)(u) == OtherTransfers(id)(t) {
      assert u == TransferPostings(t)[0] || u == TransferPostings(t)[1];
    }
    FlatMapWhere(transfers, TransferPostings, OtherTransfers(id), NotEitherHalf(id));
  }

  lemma DropTransfers(db: Db, db': Db, id: nat)
    requires Explained(db)
    requires db' == db.(transfers := Where(db.transfers, OtherTransfers(id)), postings := Where(db.postings, NotEitherHalf(id)))
    ensures Explained(db')
  {
    var keep, halves := NotEitherHalf(id), {TransferOut, TransferIn};
    TransfersGo(db.transfers, id);
    OpeningsSpared(db, keep, halves);
    PaymentsSpared(db, keep, halves);
    ReceiptsSpared(db, keep, halves);
    FlowsSpared(db, keep, halves);
    DropPartsKeepsExplained(db, db', keep);
  }

  lemma FlowsGo(flows: seq<Flow>, kind: FlowKind, id: nat)
    ensures Where(FlatMap(flows, FlowPostings), NotFromFlow(kind, id)) == FlatMap(Where(flows, OtherFlows(kind, id)), FlowPostings)
  {
    FlatMapWhere(flows, FlowPostings, OtherFlows(kind, id), NotFromFlow(kind, id));
  }

  lemma DropFlows(db: Db, db': Db, kind: FlowKind, id: nat)
    requires Explained(db)
    requires db' == db.(flows := Where(db.flows, OtherFlows(kind, id)), postings := Where(db.postings, NotFromFlow(kind, id)))
    ensures Explained(db')
  {
    var keep, sources := NotFromFlow(kind, id), SourcesOf(kind);
    FlowsGo(db.flows, kind, id);
    OpeningsSpared(db, keep, sources);
    PaymentsSpared(db, keep, sources);
    ReceiptsSpared(db, keep, sources);
    TransfersSpared(db, keep, sources);
    DropPartsKeepsExplained(db, db', keep);
  }

  predicate Records(op: Op) { op.Pay? || op.Collect? || op.Move? || op.Enter? }

  lemma RecordKeepsDrawnIds(db: Db, op: Op)
    requires DrawnIds(db) && Apply(db, op).Ok? && Records(op)
    ensures DrawnIds(Apply(db, op).value)
  {
    match op {
      case Pay(r) => assert Apply(db, op).value == AddPayment(db, NewPayment(db, r));
      case Collect(r) => assert Apply(db, op).value == AddReceipt(db, NewReceipt(db, r));
      case Move(r) => assert Apply(db, op).value == AddTransfer(db, Transfer(db.nextId, r.source, r.target, r.amount));
      case Enter(a, kind, amount) => assert Apply(db, op).value == AddFlow(db, Flow(db.nextId, a, kind, amount));
    }
  }

  lemma CallKeepsDrawnIds(db: Db, op: Op)
    requires DrawnIds(db) && Apply(db, op).Ok?
    ensures DrawnIds(Apply(db, op).value)
  {
    if Records(op) {
      RecordKeepsDrawnIds(db, op);
    }
  }

  lemma RecordKeepsUniqueIds(db: Db, op: Op)
    requires FreshIds(db) && Apply(db, op).Ok? && Records(op)
    ensures UniqueIds(Apply(db, op).value)
  {
    match op {
      case Pay(r) => UniqueAppend(db.payments, NewPayment(db, r), PaymentId());
      case Collect(r) => UniqueAppend(db.receipts, NewReceipt(db, r), ReceiptId());
      case Move(r) => UniqueAppend(db.transfers, Transfer(db.nextId, r.source, r.target, r.amount), TransferId());
      case Enter(a, kind, amount) => UniqueAppend(db.flows, Flow(db.nextId, a, kind, amount), FlowId());
    }
  }

  lemma OtherCallsKeepUniqueIds(db: Db, op: Op)
    requires UniqueIds(db) && Apply(db, op).Ok? && !Records(op)
    ensures UniqueIds(Apply(db, op).value)
  {
    match op {
      case Unpay(sale, id) => UniqueWhere(db.payments, OtherPayments(id), PaymentId());
      case RemoveSale(sale) => UniqueWhere(db.payments, OnOtherSales(sale), PaymentId());
      case Uncollect(id) => UniqueWhere(db.receipts, OtherReceipts(id), ReceiptId());
      case Unmove(id) => UniqueWhere(db.transfers, OtherTransfers(id), TransferId());
      case Unenter(kind, id) => UniqueWhere(db.flows, OtherFlows(kind, id), FlowId());
      case Recollect(id, discount, date) => UniqueMap(db.receipts, EditedReceipt(id, discount, date), ReceiptId());
      case _ =>
    }
  }

  lemma CallKeepsUniqueIds(db: Db, op: Op)
    requires FreshIds(db) && Apply(db, op).Ok?
    ensures UniqueIds(Apply(db, op).value)
  {
    if Records(op) {
      RecordKeepsUniqueIds(db, op);
    } else {
      OtherCallsKeepUniqueIds(db, op);
    }
  }

  lemma CallKeepsFreshIds(db: Db, op: Op)
    requires FreshIds(db) && Apply(db, op).Ok?
    ensures FreshIds(Apply(db, op).value)
  {
    CallKeepsDrawnIds(db, op);
    CallKeepsUniqueIds(db, op);
  }

  lemma UnpayExplained(db: Db, sale: nat, id: nat)
    requires Explained(db) && DeletePayment(db, sale, id).Ok?
    ensures Explained(DeletePayment(db, sale, id).value)
  {
    DropPayments(db, DeletePayment(db, sale, id).value, OtherPayments(id), NotFrom(SalesPayment, id));
  }

  lemma RemoveSaleExplained(db: Db, sale: nat)
    requires Explained(db) && UniqueIds(db) && DeleteSale(db, sale).Ok?
    ensures Explained(DeleteSale(db, sale).value)
  {
    forall p, q | p in db.payments && q in db.payments && p.id == q.id ensures p.sale == q.sale {
    }
    DropPayments(db, DeleteSale(db, sale).value, OnOtherSales(sale), NotPaidFor(db.payments, sale));
  }

  lemma UncollectExplained(db: Db, id: nat)
    requires Explained(db) && DeleteReceipt(db, id).Ok?
    ensures Explained(DeleteReceipt(db, id).value)
  {
    DropReceipts(db, DeleteReceipt(db, id).value, id);
  }

  lemma UnmoveExplained(db: Db, id: nat)
    requires Explained(db) && DeleteTransfer(db, id).Ok?
    ensures Explained(DeleteTransfer(db, id).value)
  {
    WhereTwice(db.postings, NotFrom(TransferOut, id), NotFrom(TransferIn, id), NotEitherHalf(id));
    DropTransfers(db, DeleteTransfer(db, id).value, id);
  }

  lemma UnenterExplained(db: Db, kind: FlowKind, id: nat)
    requires Explained(db) && DeleteFlow(db, kind, id).Ok?
    ensures Explained(DeleteFlow(db, kind, id).value)
  {
    DropFlows(db, DeleteFlow(db, kind, id).value, kind, id);
  }

  /* --------------------------- editing in place ------------------------- */

  /** Causes rewritten so that each would be posted as before. */
  lemma SamePartsExplained(db: Db, db': Db)
    requires Explained(db) && db'.postings == db.postings && Openings(db'.accounts) == Openings(db.accounts)
    requires FlatMap(db'.receipts, ReceiptPostings) == FlatMap(db.receipts, ReceiptPostings)
    requires db'.payments == db.payments && db'.transfers == db.transfers && db'.flows == db.flows
    ensures Explained(db')
  {
  }

  lemma RecollectExplained(db: Db, id: nat, discount: Option<int>, date: Option<int>)
    requires Explained(db) && EditReceipt(db, id, discount, date).Ok?
    ensures Explained(EditReceipt(db, id, discount, date).value)
  {
    FlatMapMap(db.receipts, EditedReceipt(id, discount, date), ReceiptPostings);
    SamePartsExplained(db, EditReceipt(db, id, discount, date).value);
  }

  lemma {:induction false} SameOpenings(accounts: seq<Account>, after: seq<Account>)
    requires |after| == |accounts| && forall i :: 0 <= i < |accounts| ==> OpeningOf(after[i]) == OpeningOf(accounts[i])
    ensures Openings(after) == Openings(accounts)
  {
    if accounts != [] {
      SameOpenings(accounts[..|accounts| - 1], after[..|after| - 1]);
    }
  }

  lemma ChangeAccountExplained(db: Db, a: nat, active: Option<bool>)
    requires Explained(db) && EditAccount(db, a, active).Ok?
    ensures Explained(EditAccount(db, a, active).value)
  {
    SameOpenings(db.accounts, EditAccount(db, a, active).value.accounts);
    SamePartsExplained(db, EditAccount(db, a, active).value);
  }

  /* -------------------------- closing an account ----------------------- */

  lemma OthersOpened(accounts: seq<Account>, a: nat)
    requires |accounts| <= a
    ensures Where(Openings(accounts), OffAccount(a)) == Openings(accounts)
  {
    forall u | u in Openings(accounts) ensures OffAccount(a)(u) { OpeningsAreOpening(accounts, u); }
    WhereAll(Openings(accounts), OffAccount(a));
  }

  lemma OpeningsWithout(init: seq<Account>, last: Account, a: nat)
    ensures Where(Openings(init + [last]), OffAccount(a))
         == Where(Openings(init), OffAccount(a)) + if |init| == a then [] else OpeningPostings(|init|, OpeningOf(last))
  {
    WhereConcat(Openings(init), OpeningPostings(|init|, OpeningOf(last)), OffAccount(a));
  }

  lemma CloseLast(init: seq<Account>, last: Account, closed: Account)
    requires closed.deleted
    ensures Where(Openings(init + [last]), OffAccount(|init|)) == Openings(init + [closed])
  {
    OpeningsWithout(init, last, |init|);
    OthersOpened(init, |init|);
  }

  lemma CloseEarlier(init: seq<Account>, closed: seq<Account>, last: Account, a: nat)
    requires |closed| == |init| && a < |init|
    requires Where(Openings(init), OffAccount(a)) == Openings(closed)
    ensures Where(Openings(init + [last]), OffAccount(a)) == Openings(closed + [last])
  {
    OpeningsWithout(init, last, a);
  }

  /** Only an account's own opening entry can go with it. */
  lemma {:induction false} OpeningsClose(before: seq<Account>, account: Account, after: seq<Account>, closed: Account)
    requires closed.deleted
    ensures Where(Openings(before + [account] + after), OffAccount(|before|)) == Openings(before + [closed] + after)
  {
    if after == [] {
      assert before + [account] + after == before + [account] && before + [closed] + after == before + [closed];
      CloseLast(before, account, closed);
    } else {
      var init, last := after[..|after| - 1], after[|after| - 1];
      assert after == init + [last];
      assert before + [account] + after == (before + [account] + init) + [last];
      assert before + [closed] + after == (before + [closed] + init) + [last];
      OpeningsClose(before, account, init, closed);
      CloseEarlier(before + [account] + init, before + [closed] + init, last, |before|);
    }
  }

  /** An account with no movement but its opening is named by no cause. */
  lemma NoCauseNames(db: Db, a: nat, u: Posting)
    requires Explained(db) && u in Expected(db) && u.source != Opening
    requires forall v :: v in db.postings && v.account == a ==> v.source == Opening
    ensures u.account != a
  {
    SameCountsSameRows(db.postings, Expected(db), u);
  }

  lemma {:induction false} MemberOfFlatMap<T>(rows: seq<T>, f: T -> seq<Posting>, r: T, u: Posting)
    requires r in rows && u in f(r)
    ensures u in FlatMap(rows, f)
  {
    var init, last := rows[..|rows| - 1], rows[|rows| - 1];
    assert rows == init + [last];
    if r != last { MemberOfFlatMap(init, f, r, u); }
  }

  lemma CausesSpareClosed<T(!new)>(db: Db, a: nat, rows: seq<T>, f: T -> seq<Posting>)
    requires Explained(db) && forall u :: u in FlatMap(rows, f) ==> u in Expected(db)
    requires forall v :: v in db.postings && v.account == a ==> v.source == Opening
    requires forall r, u :: r in rows && u in f(r) ==> u.source != Opening
    ensures Where(FlatMap(rows, f), OffAccount(a)) == FlatMap(rows, f)
  {
    forall r, u | r in rows && u in f(r) ensures OffAccount(a)(u) {
      MemberOfFlatMap(rows, f, r, u);
      NoCauseNames(db, a, u);
    }
    FlatMapSpared(rows, f, OffAccount(a));
  }

  lemma ReceiptsSpareClosed(db: Db, a: nat)
    requires Explained(db) && forall v :: v in db.postings && v.account == a ==> v.source == Opening
    ensures Where(FlatMap(db.receipts, ReceiptPostings), OffAccount(a)) == FlatMap(db.receipts, ReceiptPostings)
  {
    assert forall r, u :: r in db.receipts && u in ReceiptPostings(r) ==> u.source != Opening;
    CausesSpareClosed(db, a, db.receipts, ReceiptPostings);
  }

  lemma CausesSpare(db: Db, a: nat)
    requires Explained(db) && forall v :: v in db.postings && v.account == a ==> v.source == Opening
    ensures Where(FlatMap(db.payments, PaymentPostings), OffAccount(a)) == FlatMap(db.payments, PaymentPostings)
    ensures Where(FlatMap(db.receipts, ReceiptPostings), OffAccount(a)) == FlatMap(db.receipts, ReceiptPostings)
    ensures Where(FlatMap(db.transfers, TransferPostings), OffAccount(a)) == FlatMap(db.transfers, TransferPostings)
    ensures Where(FlatMap(db.flows, FlowPostings), OffAccount(a)) == FlatMap(db.flows, FlowPostings)
  {
    CausesSpareClosed(db, a, db.payments, PaymentPostings);
    ReceiptsSpareClosed(db, a);
    CausesSpareClosed(db, a, db.transfers, TransferPostings);
    CausesSpareClosed(db, a, db.flows, FlowPostings);
  }

  lemma CloseExplained(db: Db, a: nat)
    requires Explained(db) && DeleteAccount(db, a).Ok?
    ensures Explained(DeleteAccount(db, a).value)
  {
    var db' := DeleteAccount(db, a).value;
    CausesSpare(db, a);
    SplitAt(db.accounts, a);
    assert db'.accounts == db.accounts[..a] + [db'.accounts[a]] + db.accounts[a + 1..];
    OpeningsClose(db.accounts[..a], db.accounts[a], db.accounts[a + 1..], db'.accounts[a]);
    DropPartsKeepsExplained(db, db', OffAccount(a));
  }

  lemma PayExplained(db: Db, r: PayRequest)
    requires Explained(db) && RecordPayment(db, r).Ok?
    ensures Explained(RecordPayment(db, r).value)
  {
    PayKeepsExplained(db, NewPayment(db, r));
  }

  lemma CollectExplained(db: Db, r: ReceiptRequest)
    requires Explained(db) && CreateReceipt(db, r).Ok?
    ensures Explained(CreateReceipt(db, r).value)
  {
    CollectKeepsExplained(db, NewReceipt(db, r));
  }

  lemma MoveExplained(db: Db, r: TransferRequest)
    requires Explained(db) && CreateTransfer(db, r).Ok?
    ensures Explained(CreateTransfer(db, r).value)
  {
    MoveKeepsExplained(db, Transfer(db.nextId, r.source, r.target, r.amount));
  }

  lemma EnterExplained(db: Db, a: nat, kind: FlowKind, amount: int)
    requires Explained(db) && EnterFlow(db, a, kind, amount).Ok?
    ensures Explained(EnterFlow(db, a, kind, amount).value)
  {
    EnterKeepsExplained(db, Flow(db.nextId, a, kind, amount));
  }

  /** The calls that touch neither a cause nor a posting. */
  predicate OnlyParties(op: Op) {
    || op.NewCustomer? || op.ChangeCustomer? || op.RemoveCustomer?
    || op.NewSale? || op.Edit? || op.Amend? || op.SetStatus?
  }

  lemma PartiesExplained(db: Db, op: Op)
    requires Explained(db) && Apply(db, op).Ok? && OnlyParties(op)
    ensures Explained(Apply(db, op).value)
  {
    var db' := Apply(db, op).value;
    assert db'.postings == db.postings && db'.accounts == db.accounts && db'.payments == db.payments;
    assert db'.receipts == db.receipts && db'.transfers == db.transfers && db'.flows == db.flows;
  }

  lemma RecordExplained(db: Db, op: Op)
    requires Explained(db) && Apply(db, op).Ok? && Records(op)
    ensures Explained(Apply(db, op).value)
  {
    match op {
      case Pay(r) => PayExplained(db, r);
      case Collect(r) => CollectExplained(db, r);
      case Move(r) => MoveExplained(db, r);
      case Enter(a, kind, amount) => EnterExplained(db, a, kind, amount);
    }
  }

  /** The calls that delete a cause. */
  predicate Undoes(op: Op) { op.Unpay? || op.RemoveSale? || op.Uncollect? || op.Unmove? || op.Unenter? }

  lemma UndoExplained(db: Db, op: Op)
    requires Explained(db) && UniqueIds(db) && Apply(db, op).Ok? && Undoes(op)
    ensures Explained(Apply(db, op).value)
  {
    match op {
      case Unpay(sale, id) => UnpayExplained(db, sale, id);
      case RemoveSale(sale) => RemoveSaleExplained(db, sale);
      case Uncollect(id) => UncollectExplained(db, id);
      case Unmove(id) => UnmoveExplained(db, id);
      case Unenter(kind, id) => UnenterExplained(db, kind, id);
    }
  }

  lemma CallKeepsExplained(db: Db, op: Op)
    requires Explained(db) && FreshIds(db) && Apply(db, op).Ok?
    ensures Explained(Apply(db, op).value)
  {
    if Records(op) {
      RecordExplained(db, op);
    } else if Undoes(op) {
      UndoExplained(db, op);
    } else {
      match op {
        case Recollect(id, discount, date) => RecollectExplained(db, id, discount, date);
        case ChangeAccount(a, active) => ChangeAccountExplained(db, a, active);
        case NewAccount(opening, active) => OpenKeepsExplained(db, opening, active);
        case CloseAccount(a) => CloseExplained(db, a);
        case _ => PartiesExplained(db, op);
      }
    }
  }

  /** Each call keeps the ledger explained, whatever it is and whether or not it is refused. */
  lemma CallKeepsSound(db: Db, op: Op)
    requires Sound(db)
    ensures Sound(After(db, op))
  {
    if Apply(db, op).Ok? {
      CallKeepsFreshIds(db, op);
      CallKeepsExplained(db, op);
    }
  }

  /** Over any run of calls, the postings are one for one with the live causes. */
  lemma {:induction false} LedgerIsExplained(db: Db, ops: seq<Op>)
    requires Sound(db)
    ensures Sound(Run(db, ops))
  {
    if ops != [] {
      LedgerIsExplained(db, ops[..|ops| - 1]);
      CallKeepsSound(Run(db, ops[..|ops| - 1]), ops[|ops| - 1]);
    }
  }

  /* ------------------------ balances from causes ----------------------- */

  function CashInto(a: nat): Payment -> int {
    (p: Payment) => if !p.fromWallet && p.account == Some(a) then p.amount else 0
  }

  function HalvesInto(a: nat): Receipt -> int {
    (r: Receipt) => (if r.account1 == a then r.amount1 else 0)
                    + if r.account2 == Some(a) && r.amount2 > 0 then r.amount2 else 0
  }

  function NetInto(a: nat): Transfer -> int {
    (t: Transfer) => (if t.target == a then t.amount else 0) - if t.source == a then t.amount else 0
  }

  function FlowInto(a: nat): Flow -> int {
    (f: Flow) => if f.account != a then 0 else if f.kind == Invested then f.amount else -f.amount
  }

  function FromCauses(db: Db, a: nat): int {
    (if LiveAccount(db, a) then db.accounts[a].opening else 0)
    + Sum(db.payments, CashInto(a)) + Sum(db.receipts, HalvesInto(a))
    + Sum(db.transfers, NetInto(a)) + Sum(db.flows, FlowInto(a))
  }

  lemma ReceiptPostingsSum(r: Receipt, a: nat)
    ensures Sum(ReceiptPostings(r), MovedOn(a)) == HalvesInto(a)(r)
  {
    if |ReceiptPostings(r)| == 2 {
      SumTwo(ReceiptPostings(r)[0], ReceiptPostings(r)[1], MovedOn(a));
    } else {
      SumOne(ReceiptPostings(r)[0], MovedOn(a));
    }
  }

  lemma OpeningsAppend(init: seq<Account>, last: Account)
    ensures Openings(init + [last]) == Openings(init) + OpeningPostings(|init|, OpeningOf(last))
  {
    assert (init + [last])[..|init|] == init;
  }

  lemma OpeningMoves(n: nat, opening: int, a: nat)
    ensures Sum(OpeningPostings(n, opening), MovedOn(a)) == if a == n then opening else 0
  {
    if opening != 0 { SumOne(OpeningPostings(n, opening)[0], MovedOn(a)); }
  }

  lemma OpeningsSumAppend(init: seq<Account>, last: Account, a: nat)
    ensures Sum(Openings(init + [last]), MovedOn(a))
         == Sum(Openings(init), MovedOn(a)) + if a == |init| then OpeningOf(last) else 0
  {
    OpeningsAppend(init, last);
    SumConcat(Openings(init), OpeningPostings(|init|, OpeningOf(last)), MovedOn(a));
    OpeningMoves(|init|, OpeningOf(last), a);
  }

  lemma {:induction false} OpeningsSum(accounts: seq<Account>, a: nat)
    ensures Sum(Openings(accounts), MovedOn(a)) == if a < |accounts| then OpeningOf(accounts[a]) else 0
  {
    if accounts != [] {
      var init, last := accounts[..|accounts| - 1], accounts[|accounts| - 1];
      assert accounts == init + [last];
      OpeningsSum(init, a);
      OpeningsSumAppend(init, last, a);
    }
  }

  lemma SumExpected(db: Db, g: Posting -> int)
    ensures Sum(Expected(db), g)
         == Sum(Openings(db.accounts), g) + Sum(FlatMap(db.payments, PaymentPostings), g)
            + Sum(FlatMap(db.receipts, ReceiptPostings), g) + Sum(FlatMap(db.transfers, TransferPostings), g)
            + Sum(FlatMap(db.flows, FlowPostings), g)
  {
    var a, b, c := Openings(db.accounts), FlatMap(db.payments, PaymentPostings), FlatMap(db.receipts, ReceiptPostings);
    var d, e := FlatMap(db.transfers, TransferPostings), FlatMap(db.flows, FlowPostings);
    SumConcat(a, b, g);
    SumConcat(a + b, c, g);
    SumConcat(a + b + c, d, g);
    SumConcat(a + b + c + d, e, g);
  }

  lemma PaymentsMove(payments: seq<Payment>, a: nat)
    ensures Sum(FlatMap(payments, PaymentPostings), MovedOn(a)) == Sum(payments, CashInto(a))
  {
    assert forall x :: x in payments ==> CashInto(a)(x) == Sum(PaymentPostings(x), MovedOn(a));
    SumFlatMap(payments, PaymentPostings, MovedOn(a), CashInto(a));
  }

  lemma ReceiptsMove(receipts: seq<Receipt>, a: nat)
    ensures Sum(FlatMap(receipts, ReceiptPostings), MovedOn(a)) == Sum(receipts, HalvesInto(a))
  {
    forall x | x in receipts ensures HalvesInto(a)(x) == Sum(ReceiptPostings(x), MovedOn(a)) { ReceiptPostingsSum(x, a); }
    SumFlatMap(receipts, ReceiptPostings, MovedOn(a), HalvesInto(a));
  }

  lemma TransfersMove(transfers: seq<Transfer>, a: nat)
    ensures Sum(FlatMap(transfers, TransferPostings), MovedOn(a)) == Sum(transfers, NetInto(a))
  {
    forall x | x in transfers ensures NetInto(a)(x) == Sum(TransferPostings(x), MovedOn(a)) {
      SumTwo(TransferPostings(x)[0], TransferPostings(x)[1], MovedOn(a));
    }
    SumFlatMap(transfers, TransferPostings, MovedOn(a), NetInto(a));
  }

  lemma FlowsMove(flows: seq<Flow>, a: nat)
    ensures Sum(FlatMap(flows, FlowPostings), MovedOn(a)) == Sum(flows, FlowInto(a))
  {
    forall x | x in flows ensures FlowInto(a)(x) == Sum(FlowPostings(x), MovedOn(a)) {
      SumOne(FlowPostings(x)[0], MovedOn(a));
    }
    SumFlatMap(flows, FlowPostings, MovedOn(a), FlowInto(a));
  }

  /** `getBalances` is the sum over the causes: nothing is counted twice or missing. */
  lemma BalanceIsItsCauses(db: Db, a: nat)
    requires Explained(db)
    ensures Balance(db.postings, a) == FromCauses(db, a)
  {
    SumSameCounts(db.postings, Expected(db), MovedOn(a));
    SumExpected(db, MovedOn(a));
    OpeningsSum(db.accounts, a);
    PaymentsMove(db.payments, a);
    ReceiptsMove(db.receipts, a);
    TransfersMove(db.transfers, a);
    FlowsMove(db.flows, a);
  }
}
