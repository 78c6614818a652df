/**
 * One customer's wallet, derived three ways: per-table sums (`WalletBalance`),
 * the maps behind the list of holders, and the running balance of the statement.
 */
module Wallet {
  import opened Wrappers
  import opened Rows
  import opened Books
  import opened Calls
  import opened CustomerLedger
  import opened Sorting

  function SpentBy(sales: seq<Sale>, c: nat): Payment -> int {
    (p: Payment) => if p.fromWallet && BelongsTo(sales, p, c) then p.amount else 0
  }

  /** The five per-table sums are one sum over all wallet payments. */
  lemma UsedUpIsOneSum(db: Db, c: nat)
    ensures UsedUp(db, c) == Sum(db.payments, SpentBy(db.sales, c))
  {
    var part := (k: SaleKind) => WalletSpend(db.sales, c, k);
    SumFive(db.payments, SpentBy(db.sales, c), part);
  }

  /* ------------------------------- holders ----------------------------- */

  datatype Holder = Holder(customer: nat, paidIn: int, usedUp: int, balance: int)

  function LargestFirst(): (Holder, Holder) -> bool { (a: Holder, b: Holder) => a.balance >= b.balance }

  function HolderOf(db: Db, c: nat): Holder { Holder(c, PaidIn(db.receipts, c), UsedUp(db, c), WalletBalance(db, c)) }

  /** `addSpend`, over the wallet payments on one kind of sale. */
  method AddSpend(db: Db, kind: SaleKind, before: map<nat, int>) returns (usedUp: map<nat, int>)
    requires forall p :: p in db.payments ==> p.sale < |db.sales|
    ensures forall c :: Get(usedUp, c, 0) == Get(before, c, 0) + SpentOn(db, c, kind)
  {
    usedUp := before;
    for i := 0 to |db.payments|
      invariant forall c :: Get(usedUp, c, 0) == Get(before, c, 0) + Sum(db.payments[..i], WalletSpend(db.sales, c, kind))
    {
      var p := db.payments[i];
      assert p in db.payments;
      forall c: nat ensures Sum(db.payments[..i + 1], WalletSpend(db.sales, c, kind))
                            == Sum(db.payments[..i], WalletSpend(db.sales, c, kind)) + WalletSpend(db.sales, c, kind)(p)
      {
        SumNext(db.payments, i, WalletSpend(db.sales, c, kind));
      }
      if p.fromWallet && db.sales[p.sale].price.Kind() == kind {
        var owner := db.sales[p.sale].customer;
        usedUp := usedUp[owner := Get(usedUp, owner, 0) + p.amount];
      }
    }
    assert db.payments[..|db.payments|] == db.payments;
  }

  method PaidInMap(groups: seq<(nat, int)>, receipts: seq<Receipt>) returns (paidIn: map<nat, int>)
    requires GroupedBy(groups, receipts, Payer(), ReceivedOf())
    ensures forall c :: Get(paidIn, c, 0) == PaidIn(receipts, c)
  {
    paidIn := map[];
    for i := 0 to |groups|
      invariant forall c :: Get(paidIn, c, 0) == GroupSum(groups[..i], c)
    {
      assert groups[..i + 1][..i] == groups[..i];
      paidIn := paidIn[groups[i].0 := groups[i].1];
    }
    assert groups[..|groups|] == groups;
    forall c ensures Get(paidIn, c, 0) == PaidIn(receipts, c) {
      GroupSumIsSum(groups, receipts, Payer(), ReceivedOf(), c);
      SumEq(receipts, OfKey(Payer(), ReceivedOf(), c), ReceivedFrom(c));
    }
  }

  method UsedUpMap(db: Db) returns (usedUp: map<nat, int>)
    requires forall p :: p in db.payments ==> p.sale < |db.sales|
    ensures forall c :: Get(usedUp, c, 0) == UsedUp(db, c)
  {
    usedUp := AddSpend(db, Ticket, map[]);
    usedUp := AddSpend(db, Visa, usedUp);
    usedUp := AddSpend(db, Hajj, usedUp);
    usedUp := AddSpend(db, Tour, usedUp);
    usedUp := AddSpend(db, Hotel, usedUp);
  }

  /** Half a paisa, the threshold the code compares against, written in whole numbers. */
  predicate HoldsMoney(h: Holder) { 2 * h.balance > 1 }

  predicate IsHolder(db: Db, h: Holder) {
    LiveCustomer(db, h.customer) && h == HolderOf(db, h.customer) && h.balance > 0
  }

  /** A live customer's own figures: what was received, what was spent from the wallet, and what is left. */
  predicate HasRightFigures(db: Db, h: Holder) {
    && h.customer < |db.customers| && !db.customers[h.customer].deleted && h.balance > 0
    && h.paidIn == PaidIn(db.receipts, h.customer) && h.usedUp == Sum(db.payments, SpentBy(db.sales, h.customer))
    && h.balance == h.paidIn - h.usedUp
  }

  lemma HolderFigures(db: Db, h: Holder)
    requires IsHolder(db, h)
    ensures HasRightFigures(db, h)
  {
    UsedUpIsOneSum(db, h.customer);
  }

  ghost predicate DistinctCustomers(rows: seq<Holder>) {
    forall i, j :: 0 <= i < j < |rows| ==> rows[i].customer != rows[j].customer
  }

  /** The customer lookup, `map` and `filter`, over the two maps. */
  method HolderRows(db: Db, paidIn: map<nat, int>, usedUp: map<nat, int>) returns (rows: seq<Holder>)
    requires forall c :: Get(paidIn, c, 0) == PaidIn(db.receipts, c)
    requires forall c :: Get(usedUp, c, 0) == UsedUp(db, c)
    ensures forall h :: h in rows <==> IsHolder(db, h)
    ensures DistinctCustomers(rows)
  {
    rows := [];
    for c := 0 to |db.customers|
      invariant forall h :: h in rows <==> h.customer < c && IsHolder(db, h)
      invariant DistinctCustomers(rows)
    {
      var paid, used := Get(paidIn, c, 0), Get(usedUp, c, 0);
      var holder := Holder(c, paid, used, paid - used);
      assert holder == HolderOf(db, c);
      if (c in paidIn || c in usedUp) && !db.customers[c].deleted && HoldsMoney(holder) {
        assert forall h :: h in rows + [holder] <==> h in rows || h == holder;
        rows := rows + [holder];
      }
    }
  }

  /**
   * `getHolders`: exactly the live customers whose wallet holds money, each once
   * and with the same figures as `balanceOf`, largest balance first.
   */
  method GetHolders(db: Db, receiptGroups: seq<(nat, int)>) returns (holders: seq<Holder>)
    requires forall p :: p in db.payments ==> p.sale < |db.sales|
    requires GroupedBy(receiptGroups, db.receipts, Payer(), ReceivedOf())
    ensures forall h :: h in holders <==> IsHolder(db, h)
    ensures forall h :: h in holders ==> HasRightFigures(db, h)
    ensures forall c: nat :: LiveCustomer(db, c) && WalletBalance(db, c) > 0 ==> HolderOf(db, c) in holders
    ensures DistinctCustomers(holders)
    ensures Ordered(holders, LargestFirst())
  {
    var paidIn := PaidInMap(receiptGroups, db.receipts);
    var usedUp := UsedUpMap(db);
    var rows := HolderRows(db, paidIn, usedUp);
    holders := Sort(rows, LargestFirst());
    assert TotalPreorder(LargestFirst());
    SortOrders(rows, LargestFirst());
    SameMembers(holders, rows);
    forall h | h in holders ensures HasRightFigures(db, h) { HolderFigures(db, h); }
    forall c: nat | LiveCustomer(db, c) && WalletBalance(db, c) > 0 ensures HolderOf(db, c) in holders {
      assert IsHolder(db, HolderOf(db, c));
    }
    SortKeepsDistinct(rows, holders);
  }

  lemma SortKeepsDistinct(rows: seq<Holder>, sorted: seq<Holder>)
    requires multiset(rows) == multiset(sorted) && DistinctCustomers(rows)
    ensures DistinctCustomers(sorted)
  {
    forall i, j | 0 <= i < j < |sorted| ensures sorted[i].customer != sorted[j].customer {
      SameMembers(rows, sorted);
      assert sorted[i] in rows && sorted[j] in rows;
      OnceOnly(rows, sorted[i]);
      if sorted[i] == sorted[j] {
        TwiceInPlace(sorted, i, j);
      }
    }
  }

  lemma {:induction false} OnceOnly(rows: seq<Holder>, h: Holder)
    requires DistinctCustomers(rows)
    ensures multiset(rows)[h] <= 1
  {
    if rows != [] {
      var init, last := rows[..|rows| - 1], rows[|rows| - 1];
      assert rows == init + [last];
      OnceOnly(init, h);
      assert last == h ==> h !in init;
    }
  }

  lemma TwiceInPlace(rows: seq<Holder>, i: nat, j: nat)
    requires i < j < |rows| && rows[i] == rows[j]
    ensures multiset(rows)[rows[i]] >= 2
  {
    assert rows == rows[..j] + [rows[j]] + rows[j + 1..];
    assert rows[i] in rows[..j];
    assert multiset(rows) == multiset(rows[..j]) + multiset{rows[j]} + multiset(rows[j + 1..]);
  }

  /* ------------------------------ statement ---------------------------- */

  datatype Movement = Movement(date: int, paidIn: bool, amount: int)
  datatype MovementRow = MovementRow(movement: Movement, balance: int)
  datatype WalletStatement = WalletStatement(paidIn: int, usedUp: int, balance: int, movements: seq<MovementRow>)

  function ByDate(): (Movement, Movement) -> bool { (a: Movement, b: Movement) => a.date <= b.date }

  function SignedAmount(): Movement -> int { (m: Movement) => if m.paidIn then m.amount else -m.amount }

  function PaidInAmount(): Movement -> int { (m: Movement) => if m.paidIn then m.amount else 0 }

  function PaidInMovement(c: nat): Receipt -> seq<Movement> {
    (r: Receipt) => if r.customer == c then [Movement(r.date, true, r.amount1 + r.amount2)] else []
  }

  function SpentMovement(sales: seq<Sale>, c: nat, kind: SaleKind): Payment -> seq<Movement> {
    (p: Payment) => if p.fromWallet && BelongsTo(sales, p, c) && sales[p.sale].price.Kind() == kind
                    then [Movement(p.paidAt, false, p.amount)] else []
  }

  function Movements(db: Db, c: nat): seq<Movement> {
    FlatMap(db.receipts, PaidInMovement(c)) + FlatMap(db.payments, SpentMovement(db.sales, c, Ticket))
    + FlatMap(db.payments, SpentMovement(db.sales, c, Visa)) + FlatMap(db.payments, SpentMovement(db.sales, c, Hajj))
    + FlatMap(db.payments, SpentMovement(db.sales, c, Tour)) + FlatMap(db.payments, SpentMovement(db.sales, c, Hotel))
  }

  /* Any figure of movements, over the tables: each receipt of the customer's and each wallet payment on a sale of theirs. */

  function PaidInShare(c: nat, f: Movement -> int): Receipt -> int {
    (r: Receipt) => if r.customer == c then f(Movement(r.date, true, r.amount1 + r.amount2)) else 0
  }

  function SpentShare(sales: seq<Sale>, c: nat, f: Movement -> int): Payment -> int {
    (p: Payment) => if p.fromWallet && BelongsTo(sales, p, c) then f(Movement(p.paidAt, false, p.amount)) else 0
  }

  function SpentShareOf(sales: seq<Sale>, c: nat, kind: SaleKind, f: Movement -> int): Payment -> int {
    (p: Payment) =>
      if p.fromWallet && BelongsTo(sales, p, c) && sales[p.sale].price.Kind() == kind then f(Movement(p.paidAt, false, p.amount)) else 0
  }

  lemma PaidInFold(db: Db, c: nat, f: Movement -> int)
    ensures Sum(FlatMap(db.receipts, PaidInMovement(c)), f) == Sum(db.receipts, PaidInShare(c, f))
  {
    forall r | r in db.receipts ensures PaidInShare(c, f)(r) == Sum(PaidInMovement(c)(r), f) {
      if r.customer == c { SumOne(PaidInMovement(c)(r)[0], f); }
    }
    SumFlatMap(db.receipts, PaidInMovement(c), f, PaidInShare(c, f));
  }

  lemma SpentFold(db: Db, c: nat, kind: SaleKind, f: Movement -> int)
    ensures Sum(FlatMap(db.payments, SpentMovement(db.sales, c, kind)), f) == Sum(db.payments, SpentShareOf(db.sales, c, kind, f))
  {
    forall p | p in db.payments ensures SpentShareOf(db.sales, c, kind, f)(p) == Sum(SpentMovement(db.sales, c, kind)(p), f) {
      var rows := SpentMovement(db.sales, c, kind)(p);
      assert SpentShareOf(db.sales, c, kind, f)(p) == if rows != [] then f(Movement(p.paidAt, false, p.amount)) else 0;
      if rows != [] { SumOne(rows[0], f); }
    }
    SumFlatMap(db.payments, SpentMovement(db.sales, c, kind), f, SpentShareOf(db.sales, c, kind, f));
  }

  lemma SpentShareByKind(db: Db, c: nat, f: Movement -> int)
    ensures Sum(db.payments, SpentShare(db.sales, c, f))
         == Sum(db.payments, SpentShareOf(db.sales, c, Ticket, f)) + Sum(db.payments, SpentShareOf(db.sales, c, Visa, f))
            + Sum(db.payments, SpentShareOf(db.sales, c, Hajj, f)) + Sum(db.payments, SpentShareOf(db.sales, c, Tour, f))
            + Sum(db.payments, SpentShareOf(db.sales, c, Hotel, f))
  {
    var whole, part := SpentShare(db.sales, c, f), (k: SaleKind) => SpentShareOf(db.sales, c, k, f);
    forall p | p in db.payments ensures whole(p) == part(Ticket)(p) + part(Visa)(p) + part(Hajj)(p) + part(Tour)(p) + part(Hotel)(p) {
      assert BelongsTo(db.sales, p, c) ==> whole(p) == part(db.sales[p.sale].price.Kind())(p);
    }
    SumFive(db.payments, whole, part);
  }

  /** Any figure of the movements is that figure of the tables' own rows. */
  lemma MovementsFold(db: Db, c: nat, f: Movement -> int)
    ensures Sum(Movements(db, c), f) == Sum(db.receipts, PaidInShare(c, f)) + Sum(db.payments, SpentShare(db.sales, c, f))
  {
    var r := FlatMap(db.receipts, PaidInMovement(c));
    var t, v, h, o, l := FlatMap(db.payments, SpentMovement(db.sales, c, Ticket)),
      FlatMap(db.payments, SpentMovement(db.sales, c, Visa)), FlatMap(db.payments, SpentMovement(db.sales, c, Hajj)),
      FlatMap(db.payments, SpentMovement(db.sales, c, Tour)), FlatMap(db.payments, SpentMovement(db.sales, c, Hotel));
    SumConcat(r, t, f);
    SumConcat(r + t, v, f);
    SumConcat(r + t + v, h, f);
    SumConcat(r + t + v + h, o, f);
    SumConcat(r + t + v + h + o, l, f);
    PaidInFold(db, c, f);
    SpentFold(db, c, Ticket, f);
    SpentFold(db, c, Visa, f);
    SpentFold(db, c, Hajj, f);
    SpentFold(db, c, Tour, f);
    SpentFold(db, c, Hotel, f);
    SpentShareByKind(db, c, f);
  }

  lemma MovementsSum(db: Db, c: nat)
    ensures Sum(Movements(db, c), SignedAmount()) == WalletBalance(db, c)
    ensures Sum(Movements(db, c), PaidInAmount()) == PaidIn(db.receipts, c)
  {
    MovementsFold(db, c, SignedAmount());
    MovementsFold(db, c, PaidInAmount());
    UsedUpIsOneSum(db, c);
    SumEq(db.receipts, PaidInShare(c, SignedAmount()), ReceivedFrom(c));
    SumNegate(db.payments, SpentBy(db.sales, c), SpentShare(db.sales, c, SignedAmount()));
    SumEq(db.receipts, PaidInShare(c, PaidInAmount()), ReceivedFrom(c));
    SumZero(db.payments, SpentShare(db.sales, c, PaidInAmount()));
  }

  /* ------------------- what a statement has to show -------------------- */

  function ReceiptLine(c: nat, m: Movement): Receipt -> int {
    (r: Receipt) => if r.customer == c && m == Movement(r.date, true, r.amount1 + r.amount2) then 1 else 0
  }

  function PaymentLine(sales: seq<Sale>, c: nat, m: Movement): Payment -> int {
    (p: Payment) =>
      if p.fromWallet && p.sale < |sales| && sales[p.sale].customer == c && m == Movement(p.paidAt, false, p.amount) then 1 else 0
  }

  function Reads(m: Movement): Movement -> int { (other: Movement) => if other == m then 1 else 0 }

  function Lines(rows: seq<MovementRow>): seq<Movement> {
    seq(|rows|, i requires 0 <= i < |rows| => rows[i].movement)
  }

  /** Oldest line first, each with the balance after it. */
  predicate Runs(rows: seq<MovementRow>) {
    && (forall i :: 0 <= i < |rows| ==>
          rows[i].balance == (if i == 0 then 0 else rows[i - 1].balance)
                             + if rows[i].movement.paidIn then rows[i].movement.amount else -rows[i].movement.amount)
    && forall i, j :: 0 <= i < j < |rows| ==> rows[i].movement.date <= rows[j].movement.date
  }

  /**
   * The statement: it runs, and has one line for each receipt and each wallet payment,
   * with that row's own date and money, and no other.
   */
  ghost predicate IsStatement(db: Db, c: nat, rows: seq<MovementRow>) {
    && Runs(rows)
    && forall m: Movement ::
         Sum(Lines(rows), Reads(m)) == Sum(db.receipts, ReceiptLine(c, m)) + Sum(db.payments, PaymentLine(db.sales, c, m))
  }

  function ReceivedBy(c: nat, d: int): Receipt -> int {
    (r: Receipt) => if r.customer == c && r.date <= d then r.amount1 + r.amount2 else 0
  }

  function SpentByThen(sales: seq<Sale>, c: nat, d: int): Payment -> int {
    (p: Payment) => if p.fromWallet && p.sale < |sales| && sales[p.sale].customer == c && p.paidAt <= d then p.amount else 0
  }

  /** What was in the wallet at a moment, from the tables alone. */
  function HeldBy(db: Db, c: nat, d: int): int {
    Sum(db.receipts, ReceivedBy(c, d)) - Sum(db.payments, SpentByThen(db.sales, c, d))
  }

  /** The first `n` rows are those up to this moment. */
  predicate FirstBy(rows: seq<MovementRow>, n: nat, d: int) {
    n <= |rows| && forall i :: 0 <= i < |rows| ==> (rows[i].movement.date <= d <==> i < n)
  }

  /** The last row up to this moment shows what was held then. */
  ghost predicate ShowsHeldBy(db: Db, c: nat, rows: seq<MovementRow>, d: int) {
    exists n: nat :: FirstBy(rows, n, d) && (if n == 0 then 0 else rows[n - 1].balance) == HeldBy(db, c, d)
  }

  function MovementRows(movements: seq<Movement>): seq<MovementRow> {
    if movements == [] then []
    else MovementRows(movements[..|movements| - 1])
         + [MovementRow(movements[|movements| - 1], Sum(movements, SignedAmount()))]
  }

  method RunMovements(movements: seq<Movement>) returns (rows: seq<MovementRow>, running: int, paidIn: int)
    ensures rows == MovementRows(movements)
    ensures running == Sum(movements, SignedAmount()) && paidIn == Sum(movements, PaidInAmount())
    ensures rows != [] ==> rows[|rows| - 1].balance == running
  {
    running, paidIn, rows := 0, 0, [];
    for i := 0 to |movements|
      invariant rows == MovementRows(movements[..i])
      invariant running == Sum(movements[..i], SignedAmount()) && paidIn == Sum(movements[..i], PaidInAmount())
      invariant rows != [] ==> rows[|rows| - 1].balance == running
    {
      SumNext(movements, i, SignedAmount());
      SumNext(movements, i, PaidInAmount());
      assert movements[..i + 1][..i] == movements[..i];
      running := running + if movements[i].paidIn then movements[i].amount else -movements[i].amount;
      paidIn := paidIn + if movements[i].paidIn then movements[i].amount else 0;
      rows := rows + [MovementRow(movements[i], running)];
    }
    assert movements[..|movements|] == movements;
  }

  /** The movements oldest first. */
  function InOrder(db: Db, c: nat): (movements: seq<Movement>)
    ensures Ordered(movements, ByDate()) && multiset(movements) == multiset(Movements(db, c))
  {
    assert TotalPreorder(ByDate());
    SortOrders(Movements(db, c), ByDate());
    Sort(Movements(db, c), ByDate())
  }

  lemma InOrderSums(db: Db, c: nat)
    ensures Sum(InOrder(db, c), SignedAmount()) == WalletBalance(db, c)
    ensures Sum(InOrder(db, c), PaidInAmount()) == PaidIn(db.receipts, c)
  {
    SumPermuted(InOrder(db, c), Movements(db, c), SignedAmount());
    SumPermuted(InOrder(db, c), Movements(db, c), PaidInAmount());
    MovementsSum(db, c);
  }

  lemma {:induction false} RowsRun(movements: seq<Movement>)
    ensures var rows := MovementRows(movements);
            |rows| == |movements|
            && forall i :: 0 <= i < |movements| ==> rows[i] == MovementRow(movements[i], Sum(movements[..i + 1], SignedAmount()))
  {
    if movements != [] {
      var init := movements[..|movements| - 1];
      RowsRun(init);
      forall i | 0 <= i < |movements|
        ensures MovementRows(movements)[i] == MovementRow(movements[i], Sum(movements[..i + 1], SignedAmount()))
      {
        if i < |init| {
          assert init[..i + 1] == movements[..i + 1];
        } else {
          assert movements[..i + 1] == movements;
        }
      }
    }
  }

  lemma ReceiptLines(receipts: seq<Receipt>, c: nat, m: Movement)
    ensures Sum(receipts, PaidInShare(c, Reads(m))) == Sum(receipts, ReceiptLine(c, m))
  {
    forall r | r in receipts ensures PaidInShare(c, Reads(m))(r) == ReceiptLine(c, m)(r) {
      assert Reads(m)(Movement(r.date, true, r.amount1 + r.amount2)) == if Movement(r.date, true, r.amount1 + r.amount2) == m then 1 else 0;
    }
    SumEq(receipts, PaidInShare(c, Reads(m)), ReceiptLine(c, m));
  }

  lemma PaymentLines(sales: seq<Sale>, payments: seq<Payment>, c: nat, m: Movement)
    ensures Sum(payments, SpentShare(sales, c, Reads(m))) == Sum(payments, PaymentLine(sales, c, m))
  {
    forall p | p in payments ensures SpentShare(sales, c, Reads(m))(p) == PaymentLine(sales, c, m)(p) {
      assert Reads(m)(Movement(p.paidAt, false, p.amount)) == if Movement(p.paidAt, false, p.amount) == m then 1 else 0;
    }
    SumEq(payments, SpentShare(sales, c, Reads(m)), PaymentLine(sales, c, m));
  }

  lemma LinesAreTheTables(db: Db, c: nat, m: Movement)
    ensures Sum(InOrder(db, c), Reads(m)) == Sum(db.receipts, ReceiptLine(c, m)) + Sum(db.payments, PaymentLine(db.sales, c, m))
  {
    SumPermuted(InOrder(db, c), Movements(db, c), Reads(m));
    MovementsFold(db, c, Reads(m));
    ReceiptLines(db.receipts, c, m);
    PaymentLines(db.sales, db.payments, c, m);
  }

  lemma BalanceRuns(movements: seq<Movement>, rows: seq<MovementRow>, i: nat)
    requires rows == MovementRows(movements) && i < |movements|
    ensures |rows| == |movements| && rows[i].movement == movements[i]
    ensures rows[i].balance == (if i == 0 then 0 else rows[i - 1].balance) + SignedAmount()(movements[i])
  {
    RowsRun(movements);
    SumNext(movements, i, SignedAmount());
    if i == 0 {
      assert movements[..0] == [];
    } else {
      assert rows[i - 1] == MovementRow(movements[i - 1], Sum(movements[..(i - 1) + 1], SignedAmount()));
    }
  }

  lemma RowsAreRun(movements: seq<Movement>, rows: seq<MovementRow>)
    requires rows == MovementRows(movements) && Ordered(movements, ByDate())
    ensures Runs(rows) && Lines(rows) == movements
  {
    RowsRun(movements);
    forall i | 0 <= i < |rows|
      ensures rows[i].movement == movements[i]
      ensures rows[i].balance == (if i == 0 then 0 else rows[i - 1].balance)
                                 + if rows[i].movement.paidIn then rows[i].movement.amount else -rows[i].movement.amount
    {
      BalanceRuns(movements, rows, i);
    }
    forall i, j | 0 <= i < j < |rows| ensures rows[i].movement.date <= rows[j].movement.date {
      assert ByDate()(movements[i], movements[j]);
    }
  }

  lemma StatementShows(db: Db, c: nat, rows: seq<MovementRow>)
    requires rows == MovementRows(InOrder(db, c))
    ensures IsStatement(db, c, rows)
  {
    RowsAreRun(InOrder(db, c), rows);
    forall m: Movement
      ensures Sum(Lines(rows), Reads(m)) == Sum(db.receipts, ReceiptLine(c, m)) + Sum(db.payments, PaymentLine(db.sales, c, m))
    {
      LinesAreTheTables(db, c, m);
    }
  }

  function SignedBy(d: int): Movement -> int {
    (m: Movement) => if m.date <= d then (if m.paidIn then m.amount else -m.amount) else 0
  }

  lemma ReceivedShare(receipts: seq<Receipt>, c: nat, d: int)
    ensures Sum(receipts, PaidInShare(c, SignedBy(d))) == Sum(receipts, ReceivedBy(c, d))
  {
    SumEq(receipts, PaidInShare(c, SignedBy(d)), ReceivedBy(c, d));
  }

  lemma SpentThenShare(sales: seq<Sale>, payments: seq<Payment>, c: nat, d: int)
    ensures Sum(payments, SpentShare(sales, c, SignedBy(d))) == -Sum(payments, SpentByThen(sales, c, d))
  {
    forall p | p in payments ensures SpentShare(sales, c, SignedBy(d))(p) == -SpentByThen(sales, c, d)(p) {
      assert SignedBy(d)(Movement(p.paidAt, false, p.amount)) == if p.paidAt <= d then -p.amount else 0;
    }
    SumNegate(payments, SpentByThen(sales, c, d), SpentShare(sales, c, SignedBy(d)));
  }

  lemma SignedByIsHeld(db: Db, c: nat, d: int)
    ensures Sum(InOrder(db, c), SignedBy(d)) == HeldBy(db, c, d)
  {
    SumPermuted(InOrder(db, c), Movements(db, c), SignedBy(d));
    MovementsFold(db, c, SignedBy(d));
    ReceivedShare(db.receipts, c, d);
    SpentThenShare(db.sales, db.payments, c, d);
  }

  lemma FirstMovementsBy(movements: seq<Movement>, d: int) returns (n: nat)
    requires Ordered(movements, ByDate())
    ensures n <= |movements| && (forall i :: 0 <= i < |movements| ==> (movements[i].date <= d <==> i < n))
    ensures Sum(movements[..n], SignedAmount()) == Sum(movements, SignedBy(d))
  {
    var date := (m: Movement) => m.date;
    forall i, j | 0 <= i < j < |movements| ensures date(movements[i]) <= date(movements[j]) {
      assert ByDate()(movements[i], movements[j]);
    }
    n := PrefixBy(movements, date, d);
    forall i | 0 <= i < |movements| ensures movements[i].date <= d <==> i < n {
      assert date(movements[i]) <= d <==> i < n;
    }
    SumPrefix(movements, n, SignedAmount(), SignedBy(d));
  }

  lemma StatementShowsHeldBy(db: Db, c: nat, rows: seq<MovementRow>, d: int)
    requires rows == MovementRows(InOrder(db, c))
    ensures ShowsHeldBy(db, c, rows, d)
  {
    var movements := InOrder(db, c);
    var n := FirstMovementsBy(movements, d);
    RowsRun(movements);
    SignedByIsHeld(db, c, d);
    forall i | 0 <= i < |rows| ensures rows[i].movement.date <= d <==> i < n {
      assert rows[i].movement == movements[i];
    }
    if n == 0 {
      assert movements[..0] == [];
    } else {
      assert rows[n - 1] == MovementRow(movements[n - 1], Sum(movements[..(n - 1) + 1], SignedAmount()));
    }
    assert FirstBy(rows, n, d);
  }

  /** `getStatement`: the running balance ends on what `balanceOf` sums, and so do the totals. */
  method GetStatement(db: Db, c: nat) returns (r: Result<WalletStatement, Error>)
    ensures !LiveCustomer(db, c) ==> r == Err(NotFound)
    ensures LiveCustomer(db, c) ==>
      && r.Ok? && r.value.movements == MovementRows(InOrder(db, c))
      && r.value.balance == WalletBalance(db, c)
      && (r.value.movements != [] ==> r.value.movements[|r.value.movements| - 1].balance == WalletBalance(db, c))
      && r.value.paidIn == PaidIn(db.receipts, c) && r.value.usedUp == UsedUp(db, c)
    ensures LiveCustomer(db, c) ==> IsStatement(db, c, r.value.movements) && forall d: int :: ShowsHeldBy(db, c, r.value.movements, d)
  {
    if !LiveCustomer(db, c) {
      return Err(NotFound);
    }
    var movements := InOrder(db, c);
    var rows, running, paidIn := RunMovements(movements);
    InOrderSums(db, c);
    StatementShows(db, c, rows);
    forall d: int ensures ShowsHeldBy(db, c, rows, d) { StatementShowsHeldBy(db, c, rows, d); }
    return Ok(WalletStatement(paidIn, paidIn - running, running, rows));
  }
}
