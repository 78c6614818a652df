/** A page of Hajj bookings: what each owes, and how far its papers have come, from two grouped queries. */
module BookingList {
  import opened Wrappers
  import opened Rows
  import opened Books
  import opened CustomerLedger

  datatype DocumentStatus = Pending | Received | Verified
  datatype Document = Document(booking: nat, status: DocumentStatus)
  datatype Progress = Progress(received: int, total: int)
  datatype BookingRow = BookingRow(booking: nat, totalPaid: int, dueAmount: int, progress: Progress)

  function DocumentKey(): Document -> (nat, DocumentStatus) { (d: Document) => (d.booking, d.status) }
  function One(): Document -> int { (d: Document) => 1 }
  function InHand(b: nat): Document -> int { (d: Document) => if d.booking == b && d.status != Pending then 1 else 0 }
  function Wanted(b: nat): Document -> int { (d: Document) => if d.booking == b then 1 else 0 }

  function ProgressOf(documents: seq<Document>, b: nat): Progress {
    Progress(Sum(documents, InHand(b)), Sum(documents, Wanted(b)))
  }

  function OfBookings(ids: seq<nat>): Document -> bool { (d: Document) => d.booking in ids }
  function PaidOn(ids: seq<nat>): Payment -> bool { (p: Payment) => p.sale in ids }

  function ForBooking(b: nat): ((nat, DocumentStatus)) -> bool { (k: (nat, DocumentStatus)) => k.0 == b }
  function NotPending(b: nat): ((nat, DocumentStatus)) -> bool { (k: (nat, DocumentStatus)) => k.0 == b && k.1 != Pending }

  /** The loop that adds each (booking, status) count to its booking's progress. */
  method FoldProgress(groups: seq<((nat, DocumentStatus), int)>) returns (progress: map<nat, Progress>)
    ensures forall b :: Get(progress, b, Progress(0, 0))
                     == Progress(Sum(groups, PickedGroup(NotPending(b))), Sum(groups, PickedGroup(ForBooking(b))))
  {
    progress := map[];
    for i := 0 to |groups|
      invariant forall b :: Get(progress, b, Progress(0, 0))
                         == Progress(Sum(groups[..i], PickedGroup(NotPending(b))), Sum(groups[..i], PickedGroup(ForBooking(b))))
    {
      forall b: nat
        ensures Sum(groups[..i + 1], PickedGroup(NotPending(b)))
             == Sum(groups[..i], PickedGroup(NotPending(b))) + PickedGroup(NotPending(b))(groups[i])
        ensures Sum(groups[..i + 1], PickedGroup(ForBooking(b)))
             == Sum(groups[..i], PickedGroup(ForBooking(b))) + PickedGroup(ForBooking(b))(groups[i])
      {
        SumNext(groups, i, PickedGroup(NotPending(b)));
        SumNext(groups, i, PickedGroup(ForBooking(b)));
      }
      var ((booking, status), count) := groups[i];
      var before := Get(progress, booking, Progress(0, 0));
      progress := progress[booking := Progress(before.received + (if status != Pending then count else 0), before.total + count)];
    }
    assert groups[..|groups|] == groups;
  }

  lemma ProgressFromGroups(groups: seq<((nat, DocumentStatus), int)>, documents: seq<Document>, ids: seq<nat>, b: nat)
    requires GroupedBy(groups, Where(documents, OfBookings(ids)), DocumentKey(), One()) && b in ids
    ensures Progress(Sum(groups, PickedGroup(NotPending(b))), Sum(groups, PickedGroup(ForBooking(b)))) == ProgressOf(documents, b)
  {
    var rows := Where(documents, OfBookings(ids));
    Regroup(groups, rows, DocumentKey(), One(), NotPending(b));
    SumWhere(documents, OfBookings(ids), Picked(DocumentKey(), One(), NotPending(b)), InHand(b));
    Regroup(groups, rows, DocumentKey(), One(), ForBooking(b));
    SumWhere(documents, OfBookings(ids), Picked(DocumentKey(), One(), ForBooking(b)), Wanted(b));
  }

  function PaperOf(b: nat): Document -> bool { (d: Document) => d.booking == b }

  /** A paper is there once it has been received, verified or not. */
  function PaperThere(b: nat): Document -> bool { (d: Document) => d.booking == b && (d.status == Received || d.status == Verified) }

  /** All of a booking's papers, and those of them that are there. */
  predicate ProgressCounts(documents: seq<Document>, b: nat, progress: Progress) {
    progress.total == |Where(documents, PaperOf(b))| && progress.received == |Where(documents, PaperThere(b))|
  }

  lemma PapersCounted(documents: seq<Document>, b: nat)
    ensures ProgressCounts(documents, b, ProgressOf(documents, b))
  {
    SumIsCount(documents, Wanted(b), PaperOf(b));
    SumIsCount(documents, InHand(b), PaperThere(b));
  }

  function RowOf(db: Db, documents: seq<Document>, b: nat): BookingRow
    requires b < |db.sales|
  {
    BookingRow(b, Paid(db.payments, b), db.sales[b].price.Charge() - Paid(db.payments, b), ProgressOf(documents, b))
  }

  /** `decorateMany`: each booking of the page gets its own due and progress, however many are asked for. */
  method DecorateMany(db: Db, documents: seq<Document>, ids: seq<nat>,
                      paid: seq<(nat, int)>, papers: seq<((nat, DocumentStatus), int)>)
    returns (rows: seq<BookingRow>)
    requires forall i :: 0 <= i < |ids| ==> ids[i] < |db.sales|
    requires GroupedBy(paid, Where(db.payments, PaidOn(ids)), PaidSale(), AmountOf())
    requires GroupedBy(papers, Where(documents, OfBookings(ids)), DocumentKey(), One())
    ensures |rows| == |ids|
    ensures forall i :: 0 <= i < |ids| ==> rows[i] == RowOf(db, documents, ids[i])
    // Each row's own booking, what has been taken and is left on it, and how many of its papers are there.
    ensures forall i :: 0 <= i < |ids| ==>
      && rows[i].booking == ids[i] && rows[i].totalPaid == Paid(db.payments, ids[i])
      && rows[i].totalPaid + rows[i].dueAmount == db.sales[ids[i]].price.Charge()
      && ProgressCounts(documents, ids[i], rows[i].progress)
  {
    var progress := FoldProgress(papers);
    forall i | 0 <= i < |ids|
      ensures GroupSum(paid, ids[i]) == Paid(db.payments, ids[i])
      ensures Get(progress, ids[i], Progress(0, 0)) == ProgressOf(documents, ids[i])
    {
      GroupSumIsSum(paid, Where(db.payments, PaidOn(ids)), PaidSale(), AmountOf(), ids[i]);
      SumWhere(db.payments, PaidOn(ids), OfKey(PaidSale(), AmountOf(), ids[i]), AmountOn(ids[i]));
      ProgressFromGroups(papers, documents, ids, ids[i]);
    }
    rows := [];
    for i := 0 to |ids|
      invariant |rows| == i
      invariant forall k :: 0 <= k < i ==> rows[k] == RowOf(db, documents, ids[k])
    {
      var totalPaid := GroupSum(paid, ids[i]);
      rows := rows + [BookingRow(ids[i], totalPaid, db.sales[ids[i]].price.Charge() - totalPaid,
                                 Get(progress, ids[i], Progress(0, 0)))];
    }
    forall i | 0 <= i < |ids| ensures ProgressCounts(documents, ids[i], rows[i].progress) {
      PapersCounted(documents, ids[i]);
    }
  }
}
