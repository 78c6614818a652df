/**
 * Total assets on the cash-flow page: account balances plus what customers owe.
 *
 * Collecting money moves it from one term to the other. The identity below says
 * what total assets come to once every payment, receipt and transfer has
 * cancelled: only write-offs are left, and cash taken on a booking whose customer
 * has been deleted, which no due had counted.
 */
module Assets {
  import opened Wrappers
  import opened Rows
  import opened Books
  import opened Calls
  import opened Ledger

  /* ----------------------- sums over parties --------------------------- */

  function Over(n: nat, f: nat -> int): int { if n == 0 then 0 else Over(n - 1, f) + f(n - 1) }

  lemma {:induction false} OverEq(n: nat, f: nat -> int, g: nat -> int)
    requires forall i :: 0 <= i < n ==> f(i) == g(i)
    ensures Over(n, f) == Over(n, g)
  {
    if n > 0 { OverEq(n - 1, f, g); }
  }

  lemma {:induction false} OverAdd(n: nat, f: nat -> int, g: nat -> int, h: nat -> int)
    requires forall i :: 0 <= i < n ==> h(i) == f(i) + g(i)
    ensures Over(n, h) == Over(n, f) + Over(n, g)
  {
    if n > 0 { OverAdd(n - 1, f, g, h); }
  }

  lemma {:induction false} OverPoint(n: nat, f: nat -> int, k: nat)
    requires forall i :: 0 <= i < n && i != k ==> f(i) == 0
    ensures Over(n, f) == if k < n then f(k) else 0
  {
    if n > 0 { OverPoint(n - 1, f, k); }
  }

  function At<T>(share: nat -> (T -> int), r: T): nat -> int { (i: nat) => share(i)(r) }
  function Across<T>(n: nat, share: nat -> (T -> int)): T -> int { (r: T) => Over(n, At(share, r)) }
  function Totals<T>(rows: seq<T>, share: nat -> (T -> int)): nat -> int { (i: nat) => Sum(rows, share(i)) }

  /** Adding up every party's share of a table is adding up the table. */
  lemma {:induction false} SharesAddUp<T(!new)>(n: nat, rows: seq<T>, share: nat -> (T -> int), whole: T -> int)
    requires forall r :: r in rows ==> Over(n, At(share, r)) == whole(r)
    ensures Over(n, Totals(rows, share)) == Sum(rows, whole)
  {
    Swap(n, rows, share);
    SumEq(rows, Across(n, share), whole);
  }

  lemma {:induction false} Swap<T(!new)>(n: nat, rows: seq<T>, share: nat -> (T -> int))
    ensures Over(n, Totals(rows, share)) == Sum(rows, Across(n, share))
  {
    if n == 0 {
      SumZero(rows, Across(0, share));
    } else {
      Swap(n - 1, rows, share);
      SumAdd(rows, Across(n - 1, share), share(n - 1), Across(n, share));
    }
  }

  /* --------------------------- total assets ---------------------------- */

  function LiveBalance(db: Db): nat -> int { (a: nat) => if LiveAccount(db, a) then Balance(db.postings, a) else 0 }
  function LiveDue(db: Db): nat -> int { (c: nat) => if LiveCustomer(db, c) then CurrentDue(db, c) else 0 }

  function AccountBalances(db: Db): int { Over(|db.accounts|, LiveBalance(db)) }
  function CustomerDues(db: Db): int { Over(|db.customers|, LiveDue(db)) }
  function TotalAssets(db: Db): int { AccountBalances(db) + CustomerDues(db) }

  /** Rows refer to parties: receipts and movements to live ones, payments to live sales. */
  predicate Tidy(db: Db) {
    && (forall s :: s in db.sales ==> s.customer < |db.customers|)
    && (forall p :: p in db.payments ==> TidyPayment(db, p))
    && (forall r :: r in db.receipts ==> TidyReceipt(db, r))
    && (forall t :: t in db.transfers ==> LiveAccount(db, t.source) && LiveAccount(db, t.target))
    && (forall f :: f in db.flows ==> LiveAccount(db, f.account))
  }

  predicate TidyPayment(db: Db, p: Payment) {
    && LiveSale(db, p.sale)
    && (if p.fromWallet then p.account.None? else p.account.Some? && LiveAccount(db, p.account.value))
  }

  predicate TidyReceipt(db: Db, r: Receipt) {
    && LiveCustomer(db, r.customer) && LiveAccount(db, r.account1) && r.amount2 >= 0 && r.discount >= 0
    && (r.account2.Some? ==> LiveAccount(db, r.account2.value) && r.account2.value != r.account1 && r.amount2 > 0)
  }

  function CashAmount(): Payment -> int { (p: Payment) => if p.fromWallet then 0 else p.amount }

  function Landed(): Receipt -> int { (r: Receipt) => r.amount1 + if r.account2.Some? then r.amount2 else 0 }

  function TakenOff(): Receipt -> int { (r: Receipt) => r.amount1 + r.amount2 + r.discount }

  /** What a receipt takes off the customer's due without any account receiving it. */
  function WriteOff(): Receipt -> int { (r: Receipt) => r.discount + if r.account2.Some? then 0 else r.amount2 }

  /** What a flow brings into the business; every kind but an investment takes out. */
  function Net(): Flow -> int { (f: Flow) => if f.kind == Invested then f.amount else -f.amount }

  predicate Owed(db: Db, s: Sale) { !s.deleted && LiveCustomer(db, s.customer) }

  /** What a sale adds to the dues: nothing once its customer has been deleted. */
  function Bill(db: Db): Sale -> int { (s: Sale) => if Owed(db, s) then s.price.Billed() else 0 }

  /** Cash taken on a sale counted in the dues. */
  function Credited(db: Db): Payment -> int {
    (p: Payment) => if !p.fromWallet && p.sale < |db.sales| && Owed(db, db.sales[p.sale]) then p.amount else 0
  }

  /** Cash taken on a sale whose customer has been deleted: it adds to an account and takes nothing off a due. */
  function Stray(db: Db): Payment -> int {
    (p: Payment) => if !p.fromWallet && !(p.sale < |db.sales| && Owed(db, db.sales[p.sale])) then p.amount else 0
  }

  function OpeningBalanceOf(db: Db): nat -> int { (a: nat) => if LiveAccount(db, a) then db.accounts[a].opening else 0 }
  function OpeningDueOf(db: Db): nat -> int { (c: nat) => if LiveCustomer(db, c) then db.customers[c].openingDue else 0 }

  function ReceivedShare(): nat -> (Receipt -> int) { (c: nat) => ReceivedFrom(c) }
  function DiscountShare(): nat -> (Receipt -> int) { (c: nat) => DiscountTo(c) }
  function CashShare(): nat -> (Payment -> int) { (a: nat) => CashInto(a) }
  function HalfShare(): nat -> (Receipt -> int) { (a: nat) => HalvesInto(a) }
  function NetShare(): nat -> (Transfer -> int) { (a: nat) => NetInto(a) }
  function FlowShare(): nat -> (Flow -> int) { (a: nat) => FlowInto(a) }

  function WrittenOff(db: Db): int { Sum(db.receipts, WriteOff()) }
  function Strayed(db: Db): int { Sum(db.payments, Stray(db)) }

  lemma ReceiptLands(n: nat, r: Receipt)
    requires r.account1 < n && r.amount2 >= 0
    requires r.account2.Some? ==> r.account2.value < n && r.account2.value != r.account1
    ensures Over(n, At(HalfShare(), r)) == Landed()(r)
  {
    var first: nat -> int := (a: nat) => if r.account1 == a then r.amount1 else 0;
    var second: nat -> int := (a: nat) => if r.account2 == Some(a) && r.amount2 > 0 then r.amount2 else 0;
    OverAdd(n, first, second, At(HalfShare(), r));
    OverPoint(n, first, r.account1);
    OverPoint(n, second, r.account2.GetOr(n));
  }

  lemma TransferCancels(n: nat, t: Transfer)
    requires t.source < n && t.target < n
    ensures Over(n, At(NetShare(), t)) == 0
  {
    var got: nat -> int := (a: nat) => if t.target == a then t.amount else 0;
    var gave: nat -> int := (a: nat) => if t.source == a then -t.amount else 0;
    OverAdd(n, got, gave, At(NetShare(), t));
    OverPoint(n, got, t.target);
    OverPoint(n, gave, t.source);
  }

  /** What the accounts hold together is what came in: openings, cash, receipts and investments. */
  lemma AccountsHold(db: Db)
    requires Explained(db) && Tidy(db)
    ensures AccountBalances(db)
         == Over(|db.accounts|, OpeningBalanceOf(db)) + Sum(db.payments, CashAmount()) + Sum(db.receipts, Landed())
            + Sum(db.flows, Net())
  {
    var n := |db.accounts|;
    forall p | p in db.payments ensures Over(n, At(CashShare(), p)) == CashAmount()(p) {
      OverPoint(n, At(CashShare(), p), p.account.GetOr(n));
    }
    SharesAddUp(n, db.payments, CashShare(), CashAmount());
    forall r | r in db.receipts ensures Over(n, At(HalfShare(), r)) == Landed()(r) { ReceiptLands(n, r); }
    SharesAddUp(n, db.receipts, HalfShare(), Landed());
    var nothing: Transfer -> int := (t: Transfer) => 0;
    forall t | t in db.transfers ensures Over(n, At(NetShare(), t)) == nothing(t) { TransferCancels(n, t); }
    SharesAddUp(n, db.transfers, NetShare(), nothing);
    SumZero(db.transfers, nothing);
    forall f | f in db.flows ensures Over(n, At(FlowShare(), f)) == Net()(f) {
      OverPoint(n, At(FlowShare(), f), f.account);
    }
    SharesAddUp(n, db.flows, FlowShare(), Net());
    AddCauses(db);
  }

  lemma LiveBalanceSplits(db: Db, a: nat)
    requires Explained(db) && Tidy(db)
    ensures LiveBalance(db)(a) == OpeningBalanceOf(db)(a) + Sum(db.payments, CashInto(a)) + Sum(db.receipts, HalvesInto(a))
                                  + Sum(db.transfers, NetInto(a)) + Sum(db.flows, FlowInto(a))
  {
    if LiveAccount(db, a) {
      BalanceIsItsCauses(db, a);
    } else {
      SumZero(db.payments, CashInto(a));
      SumZero(db.receipts, HalvesInto(a));
      SumZero(db.transfers, NetInto(a));
      SumZero(db.flows, FlowInto(a));
    }
  }

  lemma AddCauses(db: Db)
    requires Explained(db) && Tidy(db)
    ensures var n := |db.accounts|;
            AccountBalances(db) == Over(n, OpeningBalanceOf(db)) + Over(n, Totals(db.payments, CashShare()))
              + Over(n, Totals(db.receipts, HalfShare())) + Over(n, Totals(db.transfers, NetShare()))
              + Over(n, Totals(db.flows, FlowShare()))
  {
    var n := |db.accounts|;
    var o, p, r := OpeningBalanceOf(db), Totals(db.payments, CashShare()), Totals(db.receipts, HalfShare());
    var t, f := Totals(db.transfers, NetShare()), Totals(db.flows, FlowShare());
    var op: nat -> int := (a: nat) => o(a) + p(a);
    var rt: nat -> int := (a: nat) => r(a) + t(a);
    var rtf: nat -> int := (a: nat) => rt(a) + f(a);
    forall a | 0 <= a < n ensures LiveBalance(db)(a) == op(a) + rtf(a) { LiveBalanceSplits(db, a); }
    OverAdd(n, op, rtf, LiveBalance(db));
    OverAdd(n, o, p, op);
    OverAdd(n, rt, f, rtf);
    OverAdd(n, r, t, rt);
  }

  function DueFrom(db: Db, c: nat): Sale -> int {
    (s: Sale) => if s.customer == c && Owed(db, s) then s.price.Billed() else 0
  }
  function CreditFrom(db: Db, c: nat): Payment -> int {
    (p: Payment) => if !p.fromWallet && BelongsTo(db.sales, p, c) && Owed(db, db.sales[p.sale]) then p.amount else 0
  }
  function DueShareOf(db: Db): nat -> (Sale -> int) { (c: nat) => DueFrom(db, c) }
  function CreditShareOf(db: Db): nat -> (Payment -> int) { (c: nat) => CreditFrom(db, c) }

  /** What live customers owe together: what was billed, less what was paid in cash, received and written off. */
  lemma CustomersOwe(db: Db)
    requires Tidy(db)
    ensures CustomerDues(db)
         == Over(|db.customers|, OpeningDueOf(db)) + Sum(db.sales, Bill(db)) - Sum(db.payments, Credited(db))
            - Sum(db.receipts, TakenOff())
  {
    var n := |db.customers|;
    forall s | s in db.sales ensures Over(n, At(DueShareOf(db), s)) == Bill(db)(s) {
      OverPoint(n, At(DueShareOf(db), s), s.customer);
    }
    SharesAddUp(n, db.sales, DueShareOf(db), Bill(db));
    forall p | p in db.payments ensures Over(n, At(CreditShareOf(db), p)) == Credited(db)(p) {
      assert TidyPayment(db, p) && db.sales[p.sale] in db.sales;
      OverPoint(n, At(CreditShareOf(db), p), db.sales[p.sale].customer);
    }
    SharesAddUp(n, db.payments, CreditShareOf(db), Credited(db));
    ReceiptsTakeOff(db);
    AddDues(db);
  }

  lemma ReceiptsTakeOff(db: Db)
    requires Tidy(db)
    ensures Over(|db.customers|, Totals(db.receipts, ReceivedShare())) + Over(|db.customers|, Totals(db.receipts, DiscountShare()))
         == Sum(db.receipts, TakenOff())
  {
    var n := |db.customers|;
    var received: Receipt -> int := (r: Receipt) => r.amount1 + r.amount2;
    var discount: Receipt -> int := (r: Receipt) => r.discount;
    forall r | r in db.receipts
      ensures Over(n, At(ReceivedShare(), r)) == received(r) && Over(n, At(DiscountShare(), r)) == discount(r)
    {
      OverPoint(n, At(ReceivedShare(), r), r.customer);
      OverPoint(n, At(DiscountShare(), r), r.customer);
    }
    SharesAddUp(n, db.receipts, ReceivedShare(), received);
    SharesAddUp(n, db.receipts, DiscountShare(), discount);
    SumAdd(db.receipts, received, discount, TakenOff());
  }

  lemma AddDues(db: Db)
    requires Tidy(db)
    ensures var n := |db.customers|;
            CustomerDues(db) == Over(n, OpeningDueOf(db)) + Over(n, Totals(db.sales, DueShareOf(db)))
              - Over(n, Totals(db.payments, CreditShareOf(db))) - Over(n, Totals(db.receipts, ReceivedShare()))
              - Over(n, Totals(db.receipts, DiscountShare()))
  {
    var n := |db.customers|;
    var o, b, p := OpeningDueOf(db), Totals(db.sales, DueShareOf(db)), Totals(db.payments, CreditShareOf(db));
    var r, d := Totals(db.receipts, ReceivedShare()), Totals(db.receipts, DiscountShare());
    var ob: nat -> int := (c: nat) => o(c) + b(c);
    var pr: nat -> int := (c: nat) => p(c) + r(c);
    var prd: nat -> int := (c: nat) => pr(c) + d(c);
    forall c | 0 <= c < n ensures ob(c) == LiveDue(db)(c) + prd(c) { DueSplits(db, c); }
    OverAdd(n, LiveDue(db), prd, ob);
    OverAdd(n, o, b, ob);
    OverAdd(n, pr, d, prd);
    OverAdd(n, p, r, pr);
  }

  lemma DueSplits(db: Db, c: nat)
    requires Tidy(db) && c < |db.customers|
    ensures LiveDue(db)(c) == OpeningDueOf(db)(c) + Sum(db.sales, DueShareOf(db)(c)) - Sum(db.payments, CreditShareOf(db)(c))
                              - PaidIn(db.receipts, c) - TotalDiscount(db, c)
  {
    if LiveCustomer(db, c) {
      SumEq(db.sales, DueShareOf(db)(c), BilledTo(c));
      SumEq(db.payments, CreditShareOf(db)(c), CreditTo(db.sales, c));
    } else {
      SumZero(db.sales, DueShareOf(db)(c));
      SumZero(db.payments, CreditShareOf(db)(c));
      SumZero(db.receipts, ReceivedFrom(c));
      SumZero(db.receipts, DiscountTo(c));
    }
  }

  /**
   * Total assets are what the agency started with, what came into the business less
   * what left it, and what it has billed, less what it wrote off. Receipts and transfers appear nowhere,
   * and a payment only when its sale's customer is gone: collecting money makes
   * none and loses none.
   */
  lemma AssetIdentity(db: Db)
    requires Explained(db) && Tidy(db)
    ensures TotalAssets(db)
         == Over(|db.accounts|, OpeningBalanceOf(db)) + Over(|db.customers|, OpeningDueOf(db))
            + Sum(db.flows, Net()) + Sum(db.sales, Bill(db)) + Strayed(db) - WrittenOff(db)
  {
    AccountsHold(db);
    CustomersOwe(db);
    SumAdd(db.payments, Credited(db), Stray(db), CashAmount());
    SumAdd(db.receipts, Landed(), WriteOff(), TakenOff());
  }

  /* ------------------------- over runs of calls ------------------------ */

  /** Rows that stay, and parties that are still live, stay tidy. */
  lemma PartiesKeptStayTidy(db: Db, db': Db)
    requires Tidy(db)
    requires |db.customers| <= |db'.customers|
    requires forall c: nat :: LiveCustomer(db, c) ==> LiveCustomer(db', c)
    requires forall a: nat :: LiveAccount(db, a) ==> LiveAccount(db', a)
    requires forall s :: s in db'.sales ==> s.customer < |db'.customers|
    requires forall p :: p in db'.payments ==> TidyPayment(db, p) && LiveSale(db', p.sale)
    requires forall r :: r in db'.receipts ==> r in db.receipts
    requires forall t :: t in db'.transfers ==> t in db.transfers
    requires forall f :: f in db'.flows ==> f in db.flows
    ensures Tidy(db')
  {
    forall r | r in db'.receipts ensures TidyReceipt(db', r) { assert TidyReceipt(db, r); }
  }

  lemma PayKeepsTidy(db: Db, r: PayRequest)
    requires Tidy(db) && RecordPayment(db, r).Ok?
    ensures Tidy(RecordPayment(db, r).value)
  {
    assert TidyPayment(RecordPayment(db, r).value, NewPayment(db, r));
    forall p | p in db.payments ensures TidyPayment(RecordPayment(db, r).value, p) { assert TidyPayment(db, p); }
  }

  lemma CollectKeepsTidy(db: Db, r: ReceiptRequest)
    requires Tidy(db) && CreateReceipt(db, r).Ok?
    ensures Tidy(CreateReceipt(db, r).value)
  {
    assert TidyReceipt(CreateReceipt(db, r).value, NewReceipt(db, r));
    forall x | x in db.receipts ensures TidyReceipt(CreateReceipt(db, r).value, x) { assert TidyReceipt(db, x); }
  }

  lemma MoveKeepsTidy(db: Db, r: TransferRequest)
    requires Tidy(db) && CreateTransfer(db, r).Ok?
    ensures Tidy(CreateTransfer(db, r).value)
  {
    var db' := CreateTransfer(db, r).value;
    forall p | p in db.payments ensures TidyPayment(db', p) { assert TidyPayment(db, p); }
    forall x | x in db.receipts ensures TidyReceipt(db', x) { assert TidyReceipt(db, x); }
  }

  lemma EnterKeepsTidy(db: Db, a: nat, kind: FlowKind, amount: int)
    requires Tidy(db) && EnterFlow(db, a, kind, amount).Ok?
    ensures Tidy(EnterFlow(db, a, kind, amount).value)
  {
    var db' := EnterFlow(db, a, kind, amount).value;
    forall p | p in db.payments ensures TidyPayment(db', p) { assert TidyPayment(db, p); }
    forall x | x in db.receipts ensures TidyReceipt(db', x) { assert TidyReceipt(db, x); }
  }

  lemma RecollectKeepsTidy(db: Db, id: nat, discount: Option<int>, date: Option<int>)
    requires Tidy(db) && EditReceipt(db, id, discount, date).Ok?
    ensures Tidy(EditReceipt(db, id, discount, date).value)
  {
    var db' := EditReceipt(db, id, discount, date).value;
    forall p | p in db.payments ensures TidyPayment(db', p) { assert TidyPayment(db, p); }
    forall i | 0 <= i < |db.receipts| ensures TidyReceipt(db', db'.receipts[i]) { assert TidyReceipt(db, db.receipts[i]); }
  }

  /** Closing is refused while a cause names the account, so none of them is left naming a deleted one. */
  lemma ClosedIsNamedNowhere(db: Db, a: nat)
    requires Explained(db) && Tidy(db) && DeleteAccount(db, a).Ok?
    ensures forall p :: p in db.payments ==> p.account != Some(a)
    ensures forall r :: r in db.receipts ==> r.account1 != a && r.account2 != Some(a)
    ensures forall t :: t in db.transfers ==> t.source != a && t.target != a
    ensures forall f :: f in db.flows ==> f.account != a
  {
    forall p | p in db.payments && p.account == Some(a) ensures false {
      assert TidyPayment(db, p);
      CauseIsPosted(db, a, db.payments, PaymentPostings, p, PaymentPostings(p)[0]);
    }
    forall r | r in db.receipts ensures r.account1 != a && r.account2 != Some(a) {
      assert TidyReceipt(db, r);
      if r.account1 == a {
        CauseIsPosted(db, a, db.receipts, ReceiptPostings, r, ReceiptPostings(r)[0]);
      }
      if r.account2 == Some(a) {
        CauseIsPosted(db, a, db.receipts, ReceiptPostings, r, ReceiptPostings(r)[1]);
      }
    }
    forall t | t in db.transfers ensures t.source != a && t.target != a {
      if t.source == a {
        CauseIsPosted(db, a, db.transfers, TransferPostings, t, TransferPostings(t)[0]);
      }
      if t.target == a {
        CauseIsPosted(db, a, db.transfers, TransferPostings, t, TransferPostings(t)[1]);
      }
    }
    forall f | f in db.flows && f.account == a ensures false {
      CauseIsPosted(db, a, db.flows, FlowPostings, f, FlowPostings(f)[0]);
    }
  }

  /** A posted cause keeps its account from being closed. */
  lemma CauseIsPosted<T(!new)>(db: Db, a: nat, rows: seq<T>, f: T -> seq<Posting>, r: T, u: Posting)
    requires Explained(db) && forall v :: v in FlatMap(rows, f) ==> v in Expected(db)
    requires r in rows && u in f(r) && u.source != Opening && u.account == a
    ensures DeleteAccount(db, a).Err?
  {
    MemberOfFlatMap(rows, f, r, u);
    SameCountsSameRows(db.postings, Expected(db), u);
  }

  lemma CloseKeepsTidy(db: Db, a: nat)
    requires Explained(db) && Tidy(db) && DeleteAccount(db, a).Ok?
    ensures Tidy(DeleteAccount(db, a).value)
  {
    var db' := DeleteAccount(db, a).value;
    ClosedIsNamedNowhere(db, a);
    assert forall b: nat :: LiveAccount(db, b) && b != a ==> LiveAccount(db', b);
    forall p | p in db.payments ensures TidyPayment(db', p) { assert TidyPayment(db, p); }
    forall r | r in db.receipts ensures TidyReceipt(db', r) { assert TidyReceipt(db, r); }
  }

  lemma RemoveCustomerKeepsTidy(db: Db, c: nat)
    requires Tidy(db) && DeleteCustomer(db, c).Ok?
    ensures Tidy(DeleteCustomer(db, c).value)
  {
    var db' := DeleteCustomer(db, c).value;
    forall p | p in db.payments ensures TidyPayment(db', p) { assert TidyPayment(db, p); }
    forall r | r in db.receipts ensures TidyReceipt(db', r) { assert TidyReceipt(db, r); }
  }

  lemma OtherCallsKeepTidy(db: Db, op: Op)
    requires Tidy(db) && Apply(db, op).Ok?
    requires !op.Pay? && !op.Collect? && !op.Move? && !op.Enter? && !op.Recollect? && !op.CloseAccount? && !op.RemoveCustomer?
    ensures Tidy(Apply(db, op).value)
  {
    var db' := Apply(db, op).value;
    forall p | p in db'.payments ensures TidyPayment(db, p) && LiveSale(db', p.sale) {
      assert p in db.payments && TidyPayment(db, p);
    }
    PartiesKeptStayTidy(db, db');
  }

  lemma CallKeepsTidy(db: Db, op: Op)
    requires Explained(db) && Tidy(db) && Apply(db, op).Ok?
    ensures Tidy(Apply(db, op).value)
  {
    match op {
      case Pay(r) => PayKeepsTidy(db, r);
      case Collect(r) => CollectKeepsTidy(db, r);
      case Move(r) => MoveKeepsTidy(db, r);
      case Enter(a, kind, amount) => EnterKeepsTidy(db, a, kind, amount);
      case Recollect(id, discount, date) => RecollectKeepsTidy(db, id, discount, date);
      case CloseAccount(a) => CloseKeepsTidy(db, a);
      case RemoveCustomer(c) => RemoveCustomerKeepsTidy(db, c);
      case _ => OtherCallsKeepTidy(db, op);
    }
  }

  /** Every run of calls, whatever they are, keeps the rows tidy. */
  lemma {:induction false} RunsStayTidy(db: Db, ops: seq<Op>)
    requires Sound(db) && Tidy(db)
    ensures Sound(Run(db, ops)) && Tidy(Run(db, ops))
  {
    if ops != [] {
      var before, op := Run(db, ops[..|ops| - 1]), ops[|ops| - 1];
      RunsStayTidy(db, ops[..|ops| - 1]);
      CallKeepsSound(before, op);
      if Apply(before, op).Ok? {
        CallKeepsTidy(before, op);
      }
    }
  }

  /** The identity holds after any run of any calls on an agency that starts empty. */
  lemma AssetsOfEveryRun(ops: seq<Op>)
    ensures var db := Run(EMPTY, ops);
            && Sound(db) && Tidy(db)
            && TotalAssets(db)
               == Over(|db.accounts|, OpeningBalanceOf(db)) + Over(|db.customers|, OpeningDueOf(db))
                  + Sum(db.flows, Net()) + Sum(db.sales, Bill(db)) + Strayed(db) - WrittenOff(db)
  {
    RunsStayTidy(EMPTY, ops);
    AssetIdentity(Run(EMPTY, ops));
  }

  /** Taking money in, moving it between accounts, undoing either, and editing what a receipt writes off. */
  predicate Collecting(op: Op) {
    op.Pay? || op.Unpay? || op.Collect? || op.Recollect? || op.Uncollect? || op.Move? || op.Unmove?
  }

  lemma CollectingKeepsParties(db: Db, op: Op)
    requires Collecting(op) && Apply(db, op).Ok?
    ensures var db' := Apply(db, op).value;
            db'.customers == db.customers && db'.accounts == db.accounts && db'.sales == db.sales && db'.flows == db.flows
  {
  }

  /** Total assets with what was written off put back and what came from departed customers taken out. */
  function Worth(db: Db): int { TotalAssets(db) + WrittenOff(db) - Strayed(db) }

  /** One call: total assets move only with write-offs and with cash from departed customers. */
  lemma CollectingConserves(db: Db, op: Op)
    requires Sound(db) && Tidy(db) && Collecting(op)
    ensures Sound(After(db, op)) && Tidy(After(db, op)) && Worth(After(db, op)) == Worth(db)
  {
    if Apply(db, op).Ok? {
      var db' := Apply(db, op).value;
      CallKeepsSound(db, op);
      CallKeepsTidy(db, op);
      CollectingKeepsParties(db, op);
      SamePartiesSameWorth(db, db');
    }
  }

  lemma SamePartiesSameWorth(db: Db, db': Db)
    requires Explained(db) && Tidy(db) && Explained(db') && Tidy(db')
    requires db'.customers == db.customers && db'.accounts == db.accounts && db'.sales == db.sales && db'.flows == db.flows
    ensures Worth(db') == Worth(db)
  {
    AssetIdentity(db);
    AssetIdentity(db');
    OverEq(|db.accounts|, OpeningBalanceOf(db), OpeningBalanceOf(db'));
    OverEq(|db.customers|, OpeningDueOf(db), OpeningDueOf(db'));
    SumEq(db.sales, Bill(db), Bill(db'));
  }

  /** Over any run of such calls, total assets move only by that. */
  lemma {:induction false} AssetsAreConserved(db: Db, ops: seq<Op>)
    requires Sound(db) && Tidy(db) && forall op :: op in ops ==> Collecting(op)
    ensures Sound(Run(db, ops)) && Tidy(Run(db, ops)) && Worth(Run(db, ops)) == Worth(db)
  {
    if ops != [] {
      AssetsAreConserved(db, ops[..|ops| - 1]);
      CollectingConserves(Run(db, ops[..|ops| - 1]), ops[|ops| - 1]);
    }
  }

  /** While every customer with a live booking is there, nothing strays. */
  lemma NothingStrays(db: Db)
    requires Tidy(db) && forall s :: s in db.sales && !s.deleted ==> LiveCustomer(db, s.customer)
    ensures Strayed(db) == 0
  {
    forall p | p in db.payments ensures Stray(db)(p) == 0 {
      assert TidyPayment(db, p) && db.sales[p.sale] in db.sales;
    }
    SumZero(db.payments, Stray(db));
  }

  lemma OverDrop(n: nat, f: nat -> int, g: nat -> int, k: nat)
    requires k < n && g(k) == 0 && forall i :: 0 <= i < n && i != k ==> g(i) == f(i)
    ensures Over(n, g) == Over(n, f) - f(k)
  {
    var gone: nat -> int := (i: nat) => if i == k then f(k) else 0;
    OverAdd(n, g, gone, f);
    OverPoint(n, gone, k);
  }

  /**
   * Deleting a customer drops what they owed from total assets, so it conserves them
   * exactly when nothing was owed: the service looks for history, not at the due.
   */
  lemma RemovingCustomerConservesExactlyWhen(db: Db, c: nat)
    requires DeleteCustomer(db, c).Ok?
    ensures var db' := DeleteCustomer(db, c).value;
            && TotalAssets(db') == TotalAssets(db) - CurrentDue(db, c)
            && (TotalAssets(db') == TotalAssets(db) <==> CurrentDue(db, c) == 0)
  {
    var db' := DeleteCustomer(db, c).value;
    OverEq(|db.accounts|, LiveBalance(db), LiveBalance(db'));
    OverDrop(|db.customers|, LiveDue(db), LiveDue(db'), c);
  }

  /**
   * A receipt conserves total assets exactly when it writes nothing off. The
   * second half matters: the service accepts a second amount with no second
   * account, takes it off the customer's due, and posts it nowhere.
   */
  lemma ReceiptConservesExactlyWhen(db: Db, r: ReceiptRequest)
    requires Sound(db) && Tidy(db) && CreateReceipt(db, r).Ok?
    ensures TotalAssets(CreateReceipt(db, r).value) == TotalAssets(db)
       <==> r.discount.GetOr(0) == 0 && (r.account2.None? ==> r.amount2.GetOr(0) == 0)
  {
    var db' := CreateReceipt(db, r).value;
    CollectConserves(db, r, db');
    ReceiptWriteOff(db, r, db');
  }

  lemma CollectConserves(db: Db, r: ReceiptRequest, db': Db)
    requires Sound(db) && Tidy(db) && CreateReceipt(db, r) == Ok(db')
    ensures TotalAssets(db') + WrittenOff(db') == TotalAssets(db) + WrittenOff(db)
  {
    CollectingConserves(db, Collect(r));
    ReceiptStraysNowhere(db, r, db');
  }

  lemma ReceiptStraysNowhere(db: Db, r: ReceiptRequest, db': Db)
    requires CreateReceipt(db, r) == Ok(db')
    ensures Strayed(db') == Strayed(db) && After(db, Collect(r)) == db'
  {
    SumEq(db.payments, Stray(db), Stray(db'));
  }

  lemma ReceiptWriteOff(db: Db, r: ReceiptRequest, db': Db)
    requires CreateReceipt(db, r) == Ok(db')
    ensures WrittenOff(db') - WrittenOff(db) == r.discount.GetOr(0) + if r.account2.Some? then 0 else r.amount2.GetOr(0)
    ensures r.discount.GetOr(0) >= 0 && r.amount2.GetOr(0) >= 0
  {
  }

  lemma WalletStraysNowhere(db: Db, r: PayRequest, db': Db)
    requires r.fromWallet && RecordPayment(db, r) == Ok(db')
    ensures Strayed(db') == Strayed(db) && WrittenOff(db') == WrittenOff(db)
  {
    SumEq(db.payments, Stray(db), Stray(db'));
  }

  /** A wallet payment moves neither term. */
  lemma WalletPaymentMovesNothing(db: Db, r: PayRequest)
    requires Sound(db) && Tidy(db) && r.fromWallet && RecordPayment(db, r).Ok?
    ensures var db' := RecordPayment(db, r).value;
            AccountBalances(db') == AccountBalances(db) && CustomerDues(db') == CustomerDues(db)
  {
    var db' := RecordPayment(db, r).value;
    assert db'.postings == db.postings;
    OverEq(|db.accounts|, LiveBalance(db), LiveBalance(db'));
    CollectingConserves(db, Pay(r));
    WalletStraysNowhere(db, r, db');
  }

  /** A receipt adds what it brought to the accounts, and takes that and the discount off the dues. */
  lemma ReceiptMovesBothTerms(db: Db, r: ReceiptRequest)
    requires Sound(db) && Tidy(db) && CreateReceipt(db, r).Ok?
    ensures var db' := CreateReceipt(db, r).value;
            && AccountBalances(db') == AccountBalances(db) + r.amount1 + (if r.account2.Some? then r.amount2.GetOr(0) else 0)
            && CustomerDues(db') == CustomerDues(db) - r.amount1 - r.amount2.GetOr(0) - r.discount.GetOr(0)
  {
    var db' := CreateReceipt(db, r).value;
    CollectExplained(db, r);
    CollectKeepsTidy(db, r);
    ReceiptMovesTerms(db, db', NewReceipt(db, r));
  }

  lemma ReceiptMovesTerms(db: Db, db': Db, x: Receipt)
    requires Explained(db) && Tidy(db) && Explained(db') && Tidy(db')
    requires db'.customers == db.customers && db'.accounts == db.accounts && db'.sales == db.sales && db'.flows == db.flows
    requires db'.payments == db.payments && db'.receipts == db.receipts + [x]
    ensures AccountBalances(db') == AccountBalances(db) + Landed()(x)
    ensures CustomerDues(db') == CustomerDues(db) - TakenOff()(x)
  {
    AccountsHold(db);
    AccountsHold(db');
    CustomersOwe(db);
    CustomersOwe(db');
    OverEq(|db.accounts|, OpeningBalanceOf(db), OpeningBalanceOf(db'));
    OverEq(|db.customers|, OpeningDueOf(db), OpeningDueOf(db'));
    SumEq(db.sales, Bill(db), Bill(db'));
    SumEq(db.payments, Credited(db), Credited(db'));
  }
}
