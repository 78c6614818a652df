/**
 * What a customer owes, twice over: the grouped query behind every list, and the
 * chronological statement. Both come out as `CurrentDue`.
 */
module CustomerLedger {
  import opened Wrappers
  import opened Rows
  import opened Books

  /* ------------------------- the grouped queries ----------------------- */

  datatype Totals = Totals(
    customer: nat, openingDue: int, totalPurchase: int, collectionsAmount: int, totalDiscount: int, currentDue: int)

  function TotalsOf(db: Db, c: nat): Totals
    requires c < |db.customers|
  {
    Totals(c, db.customers[c].openingDue, TotalPurchase(db, c), Collections(db, c), TotalDiscount(db, c), CurrentDue(db, c))
  }

  /** The sales one of the five sale queries reads: live, not cancelled, of these customers. */
  function Billable(ids: seq<nat>, kind: SaleKind): Sale -> bool {
    (s: Sale) => !s.deleted && s.customer in ids && s.price.Kind() == kind && !IsCancelled(s.price)
  }

  predicate IsCancelled(price: Price) {
    match price
    case HajjPrice(_, status) => status == Cancelled
    case TourPrice(_, status) => status == Cancelled
    case HotelPrice(_, status) => status == Cancelled
    case _ => false
  }

  /** The payments one of the five payment queries reads: cash, on live sales of these customers. */
  function Collected(sales: seq<Sale>, ids: seq<nat>, kind: SaleKind): Payment -> bool {
    (p: Payment) => !p.fromWallet && p.sale < |sales| && !sales[p.sale].deleted && sales[p.sale].customer in ids
                    && sales[p.sale].price.Kind() == kind
  }

  function OfCustomers(ids: seq<nat>): Receipt -> bool { (r: Receipt) => r.customer in ids }

  function Buyer(): Sale -> nat { (s: Sale) => s.customer }
  function ChargeOf(): Sale -> int { (s: Sale) => s.price.Charge() }
  function PaidSale(): Payment -> nat { (p: Payment) => p.sale }
  function AmountOf(): Payment -> int { (p: Payment) => p.amount }
  function Payer(): Receipt -> nat { (r: Receipt) => r.customer }
  function ReceivedOf(): Receipt -> int { (r: Receipt) => r.amount1 + r.amount2 }
  function DiscountOf(): Receipt -> int { (r: Receipt) => r.discount }

  /** The answers to the GROUP BY queries, each in whatever order the database chose. */
  datatype Answers = Answers(
    charged: SaleKind -> seq<(nat, int)>, paid: SaleKind -> seq<(nat, int)>,
    received: seq<(nat, int)>, discounted: seq<(nat, int)>)

  ghost predicate AnswersKind(a: Answers, db: Db, ids: seq<nat>, kind: SaleKind) {
    && GroupedBy(a.charged(kind), Where(db.sales, Billable(ids, kind)), Buyer(), ChargeOf())
    && GroupedBy(a.paid(kind), Where(db.payments, Collected(db.sales, ids, kind)), PaidSale(), AmountOf())
  }

  ghost predicate Answer(a: Answers, db: Db, ids: seq<nat>) {
    && AnswersKind(a, db, ids, Ticket) && AnswersKind(a, db, ids, Visa) && AnswersKind(a, db, ids, Hajj)
    && AnswersKind(a, db, ids, Tour) && AnswersKind(a, db, ids, Hotel)
    && GroupedBy(a.received, Where(db.receipts, OfCustomers(ids)), Payer(), ReceivedOf())
    && GroupedBy(a.discounted, Where(db.receipts, OfCustomers(ids)), Payer(), DiscountOf())
  }

  /** The owner lookup built for one kind of sale. */
  function Owners(sales: seq<Sale>, ids: seq<nat>, kind: SaleKind): map<nat, nat> {
    map s: nat | s < |sales| && !sales[s].deleted && sales[s].customer in ids && sales[s].price.Kind() == kind
      :: sales[s].customer
  }

  function OwnedBy(owners: map<nat, nat>, c: nat): ((nat, int)) -> int {
    (g: (nat, int)) => if g.0 in owners && owners[g.0] == c then g.1 else 0
  }

  /** Per-sale payment totals folded back onto the customer each sale belongs to. */
  method FoldByOwner(owners: map<nat, nat>, groups: seq<(nat, int)>) returns (totals: map<nat, int>)
    ensures forall c :: Get(totals, c, 0) == Sum(groups, OwnedBy(owners, c))
  {
    totals := map[];
    for i := 0 to |groups|
      invariant forall c :: Get(totals, c, 0) == Sum(groups[..i], OwnedBy(owners, c))
    {
      var (sale, amount) := groups[i];
      forall c ensures Sum(groups[..i + 1], OwnedBy(owners, c))
                       == Sum(groups[..i], OwnedBy(owners, c)) + OwnedBy(owners, c)(groups[i])
      {
        SumNext(groups, i, OwnedBy(owners, c));
      }
      if sale in owners {
        totals := totals[owners[sale] := Get(totals, owners[sale], 0) + amount];
      }
    }
    assert groups[..|groups|] == groups;
  }

  /* -------------- grouping twice is grouping once over rows ------------ */

  function InFirst<T, K(==)>(groups: seq<(K, int)>, key: T -> K, f: T -> int, q: K -> bool): T -> int {
    (r: T) => if q(key(r)) && (exists i :: 0 <= i < |groups| && groups[i].0 == key(r)) then f(r) else 0
  }

  function Picked<T, K>(key: T -> K, f: T -> int, q: K -> bool): T -> int { (r: T) => if q(key(r)) then f(r) else 0 }

  function PickedGroup<K>(q: K -> bool): ((K, int)) -> int { (g: (K, int)) => if q(g.0) then g.1 else 0 }

  lemma {:induction false} SumOfGroups<T(!new), K(!new)>(
    groups: seq<(K, int)>, rows: seq<T>, key: T -> K, f: T -> int, q: K -> bool)
    requires forall i, j :: 0 <= i < j < |groups| ==> groups[i].0 != groups[j].0
    requires forall i :: 0 <= i < |groups| ==> groups[i].1 == Sum(rows, OfKey(key, f, groups[i].0))
    ensures Sum(groups, PickedGroup(q)) == Sum(rows, InFirst(groups, key, f, q))
  {
    if groups == [] {
      SumZero(rows, InFirst(groups, key, f, q));
    } else {
      var init, last := groups[..|groups| - 1], groups[|groups| - 1];
      SumOfGroups(init, rows, key, f, q);
      var mine := (r: T) => if q(last.0) then OfKey(key, f, last.0)(r) else 0;
      if q(last.0) {
        SumEq(rows, mine, OfKey(key, f, last.0));
      } else {
        SumZero(rows, mine);
      }
      forall r | r in rows
        ensures InFirst(groups, key, f, q)(r) == InFirst(init, key, f, q)(r) + mine(r)
      {
        LastGroup(groups, key(r));
      }
      SumAdd(rows, InFirst(init, key, f, q), mine, InFirst(groups, key, f, q));
    }
  }

  lemma LastGroup<K(!new)>(groups: seq<(K, int)>, k: K)
    requires groups != []
    requires forall i, j :: 0 <= i < j < |groups| ==> groups[i].0 != groups[j].0
    ensures var init := groups[..|groups| - 1];
            var inInit := exists i :: 0 <= i < |init| && init[i].0 == k;
            (exists i :: 0 <= i < |groups| && groups[i].0 == k) == (inInit || groups[|groups| - 1].0 == k)
            && !(inInit && groups[|groups| - 1].0 == k)
  {
    var init := groups[..|groups| - 1];
    if i :| 0 <= i < |groups| && groups[i].0 == k {
      assert i < |init| ==> init[i].0 == k;
    }
    if i :| 0 <= i < |init| && init[i].0 == k {
      assert groups[i].0 == k;
    }
  }

  /** Summing chosen groups is summing the chosen rows. */
  lemma Regroup<T(!new), K(!new)>(groups: seq<(K, int)>, rows: seq<T>, key: T -> K, f: T -> int, q: K -> bool)
    requires GroupedBy(groups, rows, key, f)
    ensures Sum(groups, PickedGroup(q)) == Sum(rows, Picked(key, f, q))
  {
    SumOfGroups(groups, rows, key, f, q);
    SumEq(rows, InFirst(groups, key, f, q), Picked(key, f, q));
  }

  /* ------------------- the batch gives the true figures ---------------- */

  function BilledKind(c: nat, kind: SaleKind): Sale -> int {
    (s: Sale) => if s.price.Kind() == kind then BilledTo(c)(s) else 0
  }

  function CreditKind(sales: seq<Sale>, c: nat, kind: SaleKind): Payment -> int {
    (p: Payment) => if p.sale < |sales| && sales[p.sale].price.Kind() == kind then CreditTo(sales, c)(p) else 0
  }

  lemma SumFive<T(!new)>(rows: seq<T>, h: T -> int, part: SaleKind -> T -> int)
    requires forall r :: r in rows ==>
      h(r) == part(Ticket)(r) + part(Visa)(r) + part(Hajj)(r) + part(Tour)(r) + part(Hotel)(r)
    ensures Sum(rows, h) == Sum(rows, part(Ticket)) + Sum(rows, part(Visa)) + Sum(rows, part(Hajj))
                            + Sum(rows, part(Tour)) + Sum(rows, part(Hotel))
  {
    var two := (r: T) => part(Ticket)(r) + part(Visa)(r);
    var three := (r: T) => two(r) + part(Hajj)(r);
    var four := (r: T) => three(r) + part(Tour)(r);
    SumAdd(rows, part(Ticket), part(Visa), two);
    SumAdd(rows, two, part(Hajj), three);
    SumAdd(rows, three, part(Tour), four);
    SumAdd(rows, four, part(Hotel), h);
  }

  lemma PurchaseByKind(db: Db, c: nat)
    ensures TotalPurchase(db, c)
         == Sum(db.sales, BilledKind(c, Ticket)) + Sum(db.sales, BilledKind(c, Visa)) + Sum(db.sales, BilledKind(c, Hajj))
            + Sum(db.sales, BilledKind(c, Tour)) + Sum(db.sales, BilledKind(c, Hotel))
  {
    SumFive(db.sales, BilledTo(c), (k: SaleKind) => BilledKind(c, k));
  }

  lemma CreditByKind(db: Db, c: nat)
    ensures Sum(db.payments, CreditTo(db.sales, c))
         == Sum(db.payments, CreditKind(db.sales, c, Ticket)) + Sum(db.payments, CreditKind(db.sales, c, Visa))
            + Sum(db.payments, CreditKind(db.sales, c, Hajj)) + Sum(db.payments, CreditKind(db.sales, c, Tour))
            + Sum(db.payments, CreditKind(db.sales, c, Hotel))
  {
    SumFive(db.payments, CreditTo(db.sales, c), (k: SaleKind) => CreditKind(db.sales, c, k));
  }

  lemma BilledRow(ids: seq<nat>, c: nat, kind: SaleKind, s: Sale)
    requires c in ids
    ensures BilledKind(c, kind)(s) == if Billable(ids, kind)(s) then OfKey(Buyer(), ChargeOf(), c)(s) else 0
  {
    assert Buyer()(s) == s.customer && ChargeOf()(s) == s.price.Charge();
    assert BilledTo(c)(s) == if s.customer == c && !s.deleted then s.price.Billed() else 0;
  }

  function OwnedByCustomer(owners: map<nat, nat>, c: nat): nat -> bool { (s: nat) => s in owners && owners[s] == c }

  lemma PaidRow(sales: seq<Sale>, ids: seq<nat>, c: nat, kind: SaleKind, p: Payment)
    requires c in ids
    ensures var mine := OwnedByCustomer(Owners(sales, ids, kind), c);
            CreditKind(sales, c, kind)(p)
            == if Collected(sales, ids, kind)(p) then Picked(PaidSale(), AmountOf(), mine)(p) else 0
  {
    var owners := Owners(sales, ids, kind);
    var mine := OwnedByCustomer(owners, c);
    assert PaidSale()(p) == p.sale && AmountOf()(p) == p.amount;
    assert Picked(PaidSale(), AmountOf(), mine)(p) == if mine(p.sale) then p.amount else 0;
    if Collected(sales, ids, kind)(p) {
      assert p.sale in owners && mine(p.sale) == (sales[p.sale].customer == c);
      assert CreditTo(sales, c)(p) == if sales[p.sale].customer == c then p.amount else 0;
    } else if BelongsTo(sales, p, c) {
      assert sales[p.sale].customer in ids;
      assert p.fromWallet || sales[p.sale].deleted || sales[p.sale].price.Kind() != kind;
      assert CreditKind(sales, c, kind)(p) == if sales[p.sale].price.Kind() == kind then CreditTo(sales, c)(p) else 0;
    } else {
      assert CreditTo(sales, c)(p) == 0;
    }
  }

  lemma ChargedGroup(a: Answers, db: Db, ids: seq<nat>, c: nat, kind: SaleKind)
    requires AnswersKind(a, db, ids, kind) && c in ids
    ensures GroupSum(a.charged(kind), c) == Sum(db.sales, BilledKind(c, kind))
  {
    var rows := Where(db.sales, Billable(ids, kind));
    GroupSumIsSum(a.charged(kind), rows, Buyer(), ChargeOf(), c);
    forall r | r in db.sales
      ensures BilledKind(c, kind)(r) == if Billable(ids, kind)(r) then OfKey(Buyer(), ChargeOf(), c)(r) else 0
    {
      BilledRow(ids, c, kind, r);
    }
    SumWhere(db.sales, Billable(ids, kind), OfKey(Buyer(), ChargeOf(), c), BilledKind(c, kind));
  }

  lemma PaidGroup(a: Answers, db: Db, ids: seq<nat>, c: nat, kind: SaleKind)
    requires AnswersKind(a, db, ids, kind) && c in ids
    ensures Sum(a.paid(kind), OwnedBy(Owners(db.sales, ids, kind), c)) == Sum(db.payments, CreditKind(db.sales, c, kind))
  {
    var owners := Owners(db.sales, ids, kind);
    var mine := OwnedByCustomer(owners, c);
    Regroup(a.paid(kind), Where(db.payments, Collected(db.sales, ids, kind)), PaidSale(), AmountOf(), mine);
    SumEq(a.paid(kind), OwnedBy(owners, c), PickedGroup(mine));
    forall r | r in db.payments
      ensures CreditKind(db.sales, c, kind)(r)
           == if Collected(db.sales, ids, kind)(r) then Picked(PaidSale(), AmountOf(), mine)(r) else 0
    {
      PaidRow(db.sales, ids, c, kind, r);
    }
    SumWhere(db.payments, Collected(db.sales, ids, kind), Picked(PaidSale(), AmountOf(), mine), CreditKind(db.sales, c, kind));
  }

  lemma ReceiptGroups(a: Answers, db: Db, ids: seq<nat>, c: nat)
    requires Answer(a, db, ids) && c in ids
    ensures GroupSum(a.received, c) == PaidIn(db.receipts, c)
    ensures GroupSum(a.discounted, c) == TotalDiscount(db, c)
  {
    var rows := Where(db.receipts, OfCustomers(ids));
    GroupSumIsSum(a.received, rows, Payer(), ReceivedOf(), c);
    SumWhere(db.receipts, OfCustomers(ids), OfKey(Payer(), ReceivedOf(), c), ReceivedFrom(c));
    GroupSumIsSum(a.discounted, rows, Payer(), DiscountOf(), c);
    SumWhere(db.receipts, OfCustomers(ids), OfKey(Payer(), DiscountOf(), c), DiscountTo(c));
  }

  /** What the ten per-kind lookups add up to for one customer of the batch. */
  lemma LookupsAddUp(a: Answers, db: Db, ids: seq<nat>, c: nat)
    requires Answer(a, db, ids) && c in ids
    ensures GroupSum(a.charged(Ticket), c) + GroupSum(a.charged(Visa), c) + GroupSum(a.charged(Hajj), c)
            + GroupSum(a.charged(Tour), c) + GroupSum(a.charged(Hotel), c) == TotalPurchase(db, c)
    ensures Sum(a.paid(Ticket), OwnedBy(Owners(db.sales, ids, Ticket), c))
            + Sum(a.paid(Visa), OwnedBy(Owners(db.sales, ids, Visa), c))
            + Sum(a.paid(Hajj), OwnedBy(Owners(db.sales, ids, Hajj), c))
            + Sum(a.paid(Tour), OwnedBy(Owners(db.sales, ids, Tour), c))
            + Sum(a.paid(Hotel), OwnedBy(Owners(db.sales, ids, Hotel), c)) == Sum(db.payments, CreditTo(db.sales, c))
  {
    PurchaseByKind(db, c);
    CreditByKind(db, c);
    ChargedGroup(a, db, ids, c, Ticket);
    PaidGroup(a, db, ids, c, Ticket);
    ChargedGroup(a, db, ids, c, Visa);
    PaidGroup(a, db, ids, c, Visa);
    ChargedGroup(a, db, ids, c, Hajj);
    PaidGroup(a, db, ids, c, Hajj);
    ChargedGroup(a, db, ids, c, Tour);
    PaidGroup(a, db, ids, c, Tour);
    ChargedGroup(a, db, ids, c, Hotel);
    PaidGroup(a, db, ids, c, Hotel);
  }

  lemma RowIsTotals(a: Answers, db: Db, ids: seq<nat>, c: nat)
    requires Answer(a, db, ids) && c in ids && c < |db.customers|
    ensures LookupsAreTotals(a, db, ids, c)
  {
    LookupsAddUp(a, db, ids, c);
    ReceiptGroups(a, db, ids, c);
  }

  ghost predicate LookupsAreTotals(a: Answers, db: Db, ids: seq<nat>, c: nat)
    requires c < |db.customers|
  {
    Row(db, c, a, ModulePayments(a, db.sales, ids, c)) == TotalsOf(db, c)
  }

  ghost function ModulePayments(a: Answers, sales: seq<Sale>, ids: seq<nat>, c: nat): int {
    Sum(a.paid(Ticket), OwnedBy(Owners(sales, ids, Ticket), c)) + Sum(a.paid(Visa), OwnedBy(Owners(sales, ids, Visa), c))
    + Sum(a.paid(Hajj), OwnedBy(Owners(sales, ids, Hajj), c)) + Sum(a.paid(Tour), OwnedBy(Owners(sales, ids, Tour), c))
    + Sum(a.paid(Hotel), OwnedBy(Owners(sales, ids, Hotel), c))
  }

  /** One customer's row, put together from the lookups. */
  function Row(db: Db, c: nat, a: Answers, modulePayments: int): Totals
    requires c < |db.customers|
  {
    var openingDue := db.customers[c].openingDue;
    var totalPurchase := GroupSum(a.charged(Ticket), c) + GroupSum(a.charged(Visa), c) + GroupSum(a.charged(Hajj), c)
                         + GroupSum(a.charged(Tour), c) + GroupSum(a.charged(Hotel), c);
    var received, discount := GroupSum(a.received, c), GroupSum(a.discounted, c);
    var collections := modulePayments + received;
    Totals(c, openingDue, totalPurchase, collections, discount, openingDue + totalPurchase - collections - discount)
  }

  ghost predicate Folded(paid: map<nat, int>, a: Answers, sales: seq<Sale>, ids: seq<nat>, kind: SaleKind) {
    forall c :: Get(paid, c, 0) == Sum(a.paid(kind), OwnedBy(Owners(sales, ids, kind), c))
  }

  method FoldPayments(sales: seq<Sale>, ids: seq<nat>, a: Answers) returns (paid: SaleKind -> map<nat, int>)
    ensures forall kind :: Folded(paid(kind), a, sales, ids, kind)
  {
    var ticketPaid := FoldByOwner(Owners(sales, ids, Ticket), a.paid(Ticket));
    var visaPaid := FoldByOwner(Owners(sales, ids, Visa), a.paid(Visa));
    var hajjPaid := FoldByOwner(Owners(sales, ids, Hajj), a.paid(Hajj));
    var tourPaid := FoldByOwner(Owners(sales, ids, Tour), a.paid(Tour));
    var hotelPaid := FoldByOwner(Owners(sales, ids, Hotel), a.paid(Hotel));
    paid := (kind: SaleKind) =>
      match kind
      case Ticket => ticketPaid
      case Visa => visaPaid
      case Hajj => hajjPaid
      case Tour => tourPaid
      case Hotel => hotelPaid;
    assert Folded(ticketPaid, a, sales, ids, Ticket) && Folded(visaPaid, a, sales, ids, Visa);
    assert Folded(hajjPaid, a, sales, ids, Hajj) && Folded(tourPaid, a, sales, ids, Tour);
    assert Folded(hotelPaid, a, sales, ids, Hotel);
    forall kind: SaleKind ensures Folded(paid(kind), a, sales, ids, kind) {
      match kind
      case Ticket =>
      case Visa =>
      case Hajj =>
      case Tour =>
      case Hotel =>
    }
  }

  /** The final `customers.map`, once every lookup table is built. */
  method Decorate(db: Db, ids: seq<nat>, a: Answers, paid: SaleKind -> map<nat, int>) returns (result: seq<Totals>)
    requires forall i :: 0 <= i < |ids| ==> ids[i] < |db.customers|
    requires forall i :: 0 <= i < |ids| ==> LookupsAreTotals(a, db, ids, ids[i])
    requires forall kind :: Folded(paid(kind), a, db.sales, ids, kind)
    ensures |result| == |ids|
    ensures forall i :: 0 <= i < |ids| ==> result[i] == TotalsOf(db, ids[i])
  {
    result := [];
    for i := 0 to |ids|
      invariant |result| == i
      invariant forall k :: 0 <= k < i ==> result[k] == TotalsOf(db, ids[k])
    {
      var c := ids[i];
      assert Folded(paid(Ticket), a, db.sales, ids, Ticket) && Folded(paid(Visa), a, db.sales, ids, Visa);
      assert Folded(paid(Hajj), a, db.sales, ids, Hajj) && Folded(paid(Tour), a, db.sales, ids, Tour);
      var modulePayments := Get(paid(Ticket), c, 0) + Get(paid(Visa), c, 0) + Get(paid(Hajj), c, 0)
                            + Get(paid(Tour), c, 0) + Get(paid(Hotel), c, 0);
      assert LookupsAreTotals(a, db, ids, c);
      result := result + [Row(db, c, a, modulePayments)];
    }
  }

  /**
   * The list endpoint: one batch of grouped queries for any number of customers.
   * Each customer's figures are the same as in a batch of one.
   */
  method AttachLedgerTotals(db: Db, ids: seq<nat>, a: Answers) returns (result: seq<Totals>)
    requires forall i :: 0 <= i < |ids| ==> ids[i] < |db.customers|
    requires Answer(a, db, ids)
    ensures |result| == |ids|
    ensures forall i :: 0 <= i < |ids| ==> result[i] == TotalsOf(db, ids[i])
  {
    if |ids| == 0 {
      return [];
    }
    var paid := FoldPayments(db.sales, ids, a);
    forall i | 0 <= i < |ids| ensures LookupsAreTotals(a, db, ids, ids[i]) {
      RowIsTotals(a, db, ids, ids[i]);
    }
    result := Decorate(db, ids, a, paid);
  }
}
