/**
 * One customer's wallet under every interleaving there is: it is never overdrawn while
 * none of that customer's receipts is deleted and no ticket paid from another wallet is
 * moved onto the customer.
 *
 * Prices may be edited, tickets moved away, other receipts deleted, transfers undone,
 * accounts and customers removed, all at any moment: the wallet needs its customer's
 * row lock, and its tickets' own locks against being moved while one is being paid.
 */
module ProtocolWallets {
  import opened Wrappers
  import opened Rows
  import opened Books
  import opened Calls
  import opened Protocol
  import opened ProtocolSafety
  import opened ProtocolLocks
  import opened ProtocolSales

  predicate DeletesReceiptOf(db: Db, e: Event, c: nat) {
    e.Outside? && e.op.Uncollect? && exists r :: r in db.receipts && r.id == e.op.receipt && r.customer == c
  }

  /** A ticket of somebody else's, with wallet payments on it, becomes this customer's. */
  predicate MovesOnto(db: Db, e: Event, c: nat) {
    && e.Outside? && e.op.Amend? && NewOwner(e.op.amendment) == Some(c)
    && e.op.amended < |db.sales| && db.sales[e.op.amended].customer != c
    && exists p :: p in db.payments && p.sale == e.op.amended && p.fromWallet
  }

  predicate Drains(db: Db, e: Event, c: nat) { DeletesReceiptOf(db, e, c) || MovesOnto(db, e, c) }

  /** No event of the run does either. */
  predicate Spares(s: State, events: seq<Event>, c: nat)
    decreases |events|
  {
    events == []
    || (!Drains(s.db, events[0], c)
        && (Next(s, events[0]).Some? ==> Spares(Next(s, events[0]).value, events[1..], c)))
  }

  predicate Solvent(db: Db, c: nat) { UsedUp(db, c) <= PaidIn(db.receipts, c) }

  /** The payment is past its owner check and spends this customer's wallet. */
  predicate Spends(db: Db, txn: Txn, c: nat) {
    txn.Paying? && HasWallet(txn.pay, txn.at) && OwnerOf(db, txn.pay.sale) == c
  }

  /** What it has read of the wallet does not flatter it, and what it has checked still holds. */
  predicate WalletKnown(db: Db, txn: Txn, c: nat)
    requires txn.Paying?
  {
    match txn.at
    case SumWallet(payee, _, todo, paidIn, usedUp) =>
      && payee == c
      && paidIn <= (if Receipts in todo then 0 else PaidIn(db.receipts, c))
      && usedUp >= AnsweredSpend(db, c, todo)
    case SumPaid(_) => txn.pay.amount <= WalletBalance(db, c)
    case InsertPayment => txn.pay.amount <= WalletBalance(db, c)
    case PostPayment => txn.pay.amount <= WalletBalance(db, c)
    case CommitPayment => txn.pay.amount <= WalletBalance(db, c)
    case _ => true
  }

  predicate TxnKnows(db: Db, txn: Txn, c: nat) {
    txn.Paying? ==> UnderWay(db, txn.pay, txn.at) && (Spends(db, txn, c) ==> WalletKnown(db, txn, c))
  }

  ghost predicate WalletInv(s: State, c: nat) {
    && LockInv(s) && WellFormed(s.db) && Solvent(s.db, c)
    && (forall t :: 0 <= t < |s.txns| ==> TxnKnows(s.db, s.txns[t], c))
  }

  /* -------------------------- whole calls beside it --------------------- */

  /** Every payment is still on a sale of the same owner and kind. */
  lemma SpendKeepsKinds(payments: seq<Payment>, db: Db, db': Db, c: nat, kind: SaleKind)
    requires |db.sales| <= |db'.sales| && forall p :: p in payments ==> p.sale < |db.sales|
    requires forall s :: 0 <= s < |db.sales| ==>
      db'.sales[s].customer == db.sales[s].customer && db'.sales[s].price.Kind() == db.sales[s].price.Kind()
    ensures Sum(payments, WalletSpend(db'.sales, c, kind)) == Sum(payments, WalletSpend(db.sales, c, kind))
  {
    SumEq(payments, WalletSpend(db'.sales, c, kind), WalletSpend(db.sales, c, kind));
  }

  lemma OtherReceiptGoes(db: Db, id: nat, c: nat)
    requires forall r :: r in db.receipts && r.id == id ==> r.customer != c
    ensures PaidIn(Where(db.receipts, OtherReceipts(id)), c) == PaidIn(db.receipts, c)
  {
    SumWhere(db.receipts, OtherReceipts(id), ReceivedFrom(c), ReceivedFrom(c));
  }

  /** A moved ticket takes its wallet payments out of its old owner's spending, and brings none into this one's. */
  lemma AmendSpend(db: Db, op: Op, c: nat, kind: SaleKind)
    requires WellFormed(db) && op.Amend? && Apply(db, op).Ok? && !MovesOnto(db, Outside(op), c)
    ensures SpentOn(Apply(db, op).value, c, kind) <= SpentOn(db, c, kind)
  {
    var sales' := Apply(db, op).value.sales;
    forall p | p in db.payments ensures WalletSpend(sales', c, kind)(p) <= WalletSpend(db.sales, c, kind)(p) {
      AmendedSale(db, op.amended, op.amendment, p.sale);
    }
    SumLe(db.payments, WalletSpend(sales', c, kind), WalletSpend(db.sales, c, kind));
  }

  lemma AmendedSale(db: Db, sale: nat, a: Amendment, s: nat)
    requires AmendSale(db, sale, a).Ok? && s < |db.sales|
    ensures var sales' := AmendSale(db, sale, a).value.sales;
            && |sales'| == |db.sales| && sales'[s].price.Kind() == db.sales[s].price.Kind()
            && sales'[s].customer == if s == sale then NewOwner(a).GetOr(db.sales[s].customer) else db.sales[s].customer
  {
  }

  lemma WholeSpend(db: Db, op: Op, c: nat, kind: SaleKind)
    requires WellFormed(db) && IsWhole(op) && Apply(db, op).Ok? && !Drains(db, Outside(op), c)
    ensures SpentOn(Apply(db, op).value, c, kind) <= SpentOn(db, c, kind)
  {
    if Quiet(op) {
      QuietGrows(db, op);
      OutsideSpend(db, op, c, kind);
    } else if op.Amend? {
      AmendSpend(db, op, c, kind);
    } else {
      SpendKeepsKinds(db.payments, db, Apply(db, op).value, c, kind);
    }
  }

  lemma WholePaidIn(db: Db, op: Op, c: nat)
    requires WellFormed(db) && IsWhole(op) && Apply(db, op).Ok? && !Drains(db, Outside(op), c)
    ensures PaidIn(db.receipts, c) <= PaidIn(Apply(db, op).value.receipts, c)
  {
    if Quiet(op) {
      OutsidePaidIn(db, op, c);
    } else if op.Uncollect? {
      OtherReceiptGoes(db, op.receipt, c);
    }
  }

  lemma WholeKeepsWallet(db: Db, op: Op, c: nat)
    requires WellFormed(db) && IsWhole(op) && Apply(db, op).Ok? && !Drains(db, Outside(op), c)
    ensures WalletKept(db, Apply(db, op).value, c)
  {
    WholePaidIn(db, op, c);
    WholeSpend(db, op, c, Ticket);
    WholeSpend(db, op, c, Visa);
    WholeSpend(db, op, c, Hajj);
    WholeSpend(db, op, c, Tour);
    WholeSpend(db, op, c, Hotel);
  }

  /** A wallet that others have only helped leaves everything known of it true. */
  lemma KnownStays(db: Db, db': Db, txn: Txn, c: nat)
    requires Shaped(db, txn) && TxnKnows(db, txn, c) && WalletKept(db, db', c) && |db.sales| <= |db'.sales|
    requires txn.Paying? && HasSale(txn.at) ==> OwnerOf(db', txn.pay.sale) == OwnerOf(db, txn.pay.sale)
    ensures TxnKnows(db', txn, c)
  {
  }

  lemma OutsideKeepsWallet(s: State, op: Op, c: nat)
    requires WalletInv(s, c) && Next(s, Outside(op)).Some? && !Drains(s.db, Outside(op), c)
    ensures WalletInv(Next(s, Outside(op)).value, c)
  {
    var db' := Apply(s.db, op).value;
    OutsideKeepsLocks(s, op);
    WholeKeepsRows(s.db, op);
    WholeKeepsWallet(s.db, op, c);
    OwnersStay(s.db, op, 0);
    forall t | 0 <= t < |s.txns| ensures TxnKnows(db', s.txns[t], c) {
      assert Shaped(s.db, s.txns[t]);
      if s.txns[t].Paying? && HasSale(s.txns[t].at) {
        assert SaleLock(s.txns[t].pay.sale) in Holds(s.db, s.txns[t]);
        OwnersStay(s.db, op, s.txns[t].pay.sale);
      }
      KnownStays(s.db, db', s.txns[t], c);
    }
  }

  lemma WritePriceKeepsWallet(s: State, sale: nat, sell: int, c: nat)
    requires WalletInv(s, c) && Next(s, WritePrice(sale, sell)).Some?
    ensures WalletInv(Next(s, WritePrice(sale, sell)).value, c)
  {
    var db' := Rewritten(s.db, sale, sell);
    WritePriceKeepsLocks(s, sale, sell);
    RewrittenSpend(s.db, sale, sell, c);
    forall t | 0 <= t < |s.txns| ensures TxnKnows(db', s.txns[t], c) {
      assert Shaped(s.db, s.txns[t]);
      KnownStays(s.db, db', s.txns[t], c);
    }
  }

  lemma RewrittenSpend(db: Db, sale: nat, sell: int, c: nat)
    requires WellFormed(db) && sale < |db.sales| && db.sales[sale].price.Kind() in {Tour, Hotel}
    ensures WalletKept(db, Rewritten(db, sale, sell), c)
  {
    var db' := Rewritten(db, sale, sell);
    SpendKeepsKinds(db.payments, db, db', c, Ticket);
    SpendKeepsKinds(db.payments, db, db', c, Visa);
    SpendKeepsKinds(db.payments, db, db', c, Hajj);
    SpendKeepsKinds(db.payments, db, db', c, Tour);
    SpendKeepsKinds(db.payments, db, db', c, Hotel);
  }

  /* ---------------------------- own statements -------------------------- */

  lemma CommitKeepsSolvent(db: Db, r: PayRequest, c: nat)
    requires WellFormed(db) && Solvent(db, c) && r.amount > 0 && r.sale < |db.sales|
    requires r.fromWallet && OwnerOf(db, r.sale) == c ==> r.amount <= WalletBalance(db, c)
    ensures var db' := AddPayment(db, NewPayment(db, r));
            && WellFormed(db') && Solvent(db', c)
            && (!(r.fromWallet && OwnerOf(db, r.sale) == c) ==> WalletKept(db, db', c))
  {
    UsedUpAfter(db, r, c);
    CommitUndisturbed(db, r, r.sale, c);
  }

  /** Whatever a statement publishes, the wallet stays solvent, and only its own payment draws on it. */
  lemma PublishKeepsSolvent(s: State, t: nat, c: nat)
    requires WalletInv(s, c) && CanAdvance(s, t)
    ensures var db' := AdvanceTo(s, t).db;
            && WellFormed(db') && Solvent(db', c) && db'.sales == s.db.sales
            && (!(s.txns[t].Paying? && s.txns[t].Committing() && Spends(s.db, s.txns[t], c)) ==> WalletKept(s.db, db', c))
  {
    if s.txns[t].Paying? && s.txns[t].Committing() {
      assert TxnKnows(s.db, s.txns[t], c);
      CommitKeepsSolvent(s.db, s.txns[t].pay, c);
    }
  }

  lemma OneSpender(s: State, t: nat, u: nat, c: nat)
    requires LockInv(s) && t < |s.txns| && u < |s.txns| && t != u && Spends(s.db, s.txns[t], c)
    ensures !Spends(s.db, s.txns[u], c)
  {
    HeldOnce(s, t, u, CustomerLock(c));
  }

  lemma AdvanceKeepsWallet(s: State, t: nat, c: nat)
    requires WalletInv(s, c) && CanAdvance(s, t)
    ensures WalletInv(AdvanceTo(s, t), c)
  {
    var s' := AdvanceTo(s, t);
    AdvanceKeepsLocks(s, t);
    PublishKeepsSolvent(s, t, c);
    forall u | 0 <= u < |s'.txns| ensures TxnKnows(s'.db, s'.txns[u], c) {
      AdvanceKnows(s, t, u, c);
    }
  }

  lemma AdvanceKnows(s: State, t: nat, u: nat, c: nat)
    requires WalletInv(s, c) && CanAdvance(s, t) && u < |s.txns|
    ensures TxnKnows(AdvanceTo(s, t).db, AdvanceTo(s, t).txns[u], c)
  {
    assert Shaped(s.db, s.txns[u]) && TxnKnows(s.db, s.txns[u], c);
    PublishKeepsSolvent(s, t, c);
    if u == t {
      if !s.txns[t].Committing() {
      }
    } else if Spends(s.db, s.txns[t], c) {
      OneSpender(s, t, u, c);
    } else {
      KnownStays(s.db, AdvanceTo(s, t).db, s.txns[u], c);
    }
  }

  lemma AnswerKnows(db: Db, txn: Txn, q: Query, c: nat)
    requires Summing(txn) && q in txn.at.todo && TxnKnows(db, txn, c)
    ensures TxnKnows(db, Paying(txn.pay, AnswerWallet(db, txn.at, q)), c)
  {
    if Spends(db, txn, c) && q.Spend? {
      AnsweredOneMore(db, c, txn.at.todo, q.kind);
    }
  }

  lemma AnswerKeepsWallet(s: State, t: nat, q: Query, c: nat)
    requires WalletInv(s, c) && CanAnswer(s, t, q)
    ensures WalletInv(Next(s, Answer(t, q)).value, c)
  {
    var s' := Next(s, Answer(t, q)).value;
    AnswerKeepsLocks(s, t, q);
    forall u | 0 <= u < |s'.txns| ensures TxnKnows(s'.db, s'.txns[u], c) {
      assert TxnKnows(s.db, s.txns[u], c);
      if u == t { AnswerKnows(s.db, s.txns[t], q, c); }
    }
  }

  lemma BeginKeepsWallet(s: State, txn: Txn, c: nat)
    requires WalletInv(s, c) && Holds(s.db, txn) == {} && Shaped(s.db, txn) && TxnKnows(s.db, txn, c)
    ensures WalletInv(s.(txns := s.txns + [txn]), c)
  {
    var s' := s.(txns := s.txns + [txn]);
    BeginKeepsLocks(s, txn);
    forall u | 0 <= u < |s'.txns| ensures TxnKnows(s'.db, s'.txns[u], c) {
      assert u < |s.txns| ==> TxnKnows(s.db, s.txns[u], c);
    }
  }

  lemma NextKeepsWallet(s: State, e: Event, c: nat)
    requires WalletInv(s, c) && Next(s, e).Some? && !Drains(s.db, e, c)
    ensures WalletInv(Next(s, e).value, c)
  {
    match e {
      case BeginPayment(r) => BeginKeepsWallet(s, StartPayment(r), c);
      case BeginTransfer(r) => BeginKeepsWallet(s, StartTransfer(r), c);
      case Advance(t) => AdvanceKeepsWallet(s, t, c);
      case Answer(t, q) => AnswerKeepsWallet(s, t, q, c);
      case Outside(op) => OutsideKeepsWallet(s, op, c);
      case WritePrice(sale, sell) => WritePriceKeepsWallet(s, sale, sell, c);
    }
  }

  lemma {:induction false} RunKeepsWallet(s: State, events: seq<Event>, s': State, c: nat)
    requires WalletInv(s, c) && Reaches(s, events, s') && Spares(s, events, c)
    ensures WalletInv(s', c)
    decreases |events|
  {
    if events != [] {
      NextKeepsWallet(s, events[0], c);
      RunKeepsWallet(Next(s, events[0]).value, events[1..], s', c);
    }
  }

  /**
   * A wallet is never spent beyond what was paid in, over every interleaving of any number
   * of payments, transfers and calls of every kind, as long as no receipt of this customer
   * is deleted and no ticket with wallet payments on it is moved onto this customer.
   */
  lemma WalletIsNeverOverdrawn(db: Db, events: seq<Event>, s: State, c: nat)
    requires WellFormed(db) && Solvent(db, c) && Reaches(Start(db), events, s) && Spares(Start(db), events, c)
    ensures UsedUp(s.db, c) <= PaidIn(s.db.receipts, c)
  {
    RunKeepsWallet(Start(db), events, s, c);
  }
}
