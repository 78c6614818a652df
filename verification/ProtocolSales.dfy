/**
 * One sale under every interleaving there is: whatever happens elsewhere, it is never
 * overpaid unless its own charge is put below what has been paid on it.
 *
 * `ProtocolSafety` needs every charge and every receipt left alone, because wallets
 * span sales. The sale's own bound needs only its own row lock, so here receipts may
 * be deleted, transfers undone, accounts and customers removed, tickets moved and
 * every price edited, all at any moment. Of edits of its own price the bound asks
 * exactly what it says: that they leave the charge at or above what is paid.
 */
module ProtocolSales {
  import opened Rows
  import opened Books
  import opened Calls
  import opened Protocol
  import opened ProtocolSafety

  /** The event puts this sale's charge below what has been paid on it. */
  predicate CutsBelow(db: Db, e: Event, sale: nat) {
    match e
    case Outside(Amend(k, a)) =>
      k == sale && sale < |db.sales| && Amended(db.sales[sale].price, a).Some?
      && Amended(db.sales[sale].price, a).value.Charge() < Paid(db.payments, sale)
    case WritePrice(k, sell) => k == sale && sell < Paid(db.payments, sale)
    case _ => false
  }

  /** No event of the run does that when it happens. */
  predicate NeverCut(s: State, events: seq<Event>, sale: nat)
    decreases |events|
  {
    events == []
    || (!CutsBelow(s.db, events[0], sale)
        && (Next(s, events[0]).Some? ==> NeverCut(Next(s, events[0]).value, events[1..], sale)))
  }

  predicate Covered(db: Db, sale: nat) {
    sale < |db.sales| ==> Paid(db.payments, sale) <= db.sales[sale].price.Charge()
  }

  /** What holds of a payment in progress, on whatever sale. */
  predicate UnderWay(db: Db, r: PayRequest, at: PayStep) {
    at.Settled? || at.Refused? || (r.amount > 0 && (HasSale(at) ==> r.sale < |db.sales|))
  }

  /** What a payment with its sale locked has read of it, and checked, still stands. */
  predicate ChargeKnown(db: Db, r: PayRequest, at: PayStep)
    requires r.sale < |db.sales|
  {
    var charge := db.sales[r.sale].price.Charge();
    match at
    case SumWallet(_, read, _, _, _) => read == charge
    case CheckAccount(read) => read == charge
    case SumPaid(read) => read == charge
    case InsertPayment => r.amount <= charge - Paid(db.payments, r.sale)
    case PostPayment => r.amount <= charge - Paid(db.payments, r.sale)
    case CommitPayment => r.amount <= charge - Paid(db.payments, r.sale)
    case _ => true
  }

  predicate OnSale(txn: Txn, sale: nat) { txn.Paying? && txn.pay.sale == sale && HasSale(txn.at) }

  predicate SaleInv(s: State, sale: nat) {
    && WellFormed(s.db) && Covered(s.db, sale)
    && (forall t :: 0 <= t < |s.txns| && s.txns[t].Paying? ==> UnderWay(s.db, s.txns[t].pay, s.txns[t].at))
    && (forall t :: 0 <= t < |s.txns| && OnSale(s.txns[t], sale) ==> Owns(s, t, sale))
  }

  /** Holding the sale's lock, with what was read of it still true. */
  predicate Owns(s: State, t: nat, sale: nat) {
    && t < |s.txns| && s.txns[t].Paying? && sale < |s.db.sales| && s.txns[t].pay.sale == sale
    && SaleLock(sale) in s.locks && s.locks[SaleLock(sale)] == t
    && ChargeKnown(s.db, s.txns[t].pay, s.txns[t].at)
  }

  /* -------------------------- whole calls beside it --------------------- */

  /** The sale keeps its charge, and nobody else has taken money on it. */
  predicate SaleStands(db: Db, db': Db, sale: nat) {
    && |db.sales| <= |db'.sales|
    && Paid(db'.payments, sale) <= Paid(db.payments, sale)
    && (sale < |db.sales| ==> db'.sales[sale].price.Charge() == db.sales[sale].price.Charge())
  }

  predicate Reprices(op: Op, sale: nat) { (op.Edit? && op.edited == sale) || (op.Amend? && op.amended == sale) }

  lemma WholeKeepsRows(db: Db, op: Op)
    requires WellFormed(db) && IsWhole(op) && Apply(db, op).Ok?
    ensures WellFormed(Apply(db, op).value)
  {
    if Quiet(op) {
      QuietKeepsRows(db, op);
    } else {
      var db' := Apply(db, op).value;
      assert forall p :: p in db'.payments ==> p in db.payments;
      assert forall r :: r in db'.receipts ==> r in db.receipts;
      assert |db'.sales| == |db.sales|;
    }
  }

  lemma WholeLeavesSale(db: Db, op: Op, sale: nat)
    requires WellFormed(db) && IsWhole(op) && Apply(db, op).Ok? && !Reprices(op, sale)
    ensures SaleStands(db, Apply(db, op).value, sale)
  {
    if Quiet(op) {
      OutsidePaid(db, op, sale);
      QuietGrows(db, op);
    }
  }

  lemma WholeKeepsCovered(db: Db, op: Op, sale: nat)
    requires WellFormed(db) && Covered(db, sale) && IsWhole(op) && Apply(db, op).Ok? && !CutsBelow(db, Outside(op), sale)
    ensures Covered(Apply(db, op).value, sale)
  {
    if Reprices(op, sale) {
      assert Apply(db, op).value.payments == db.payments;
    } else {
      WholeLeavesSale(db, op, sale);
      if |db.sales| <= sale {
        SumZero(db.payments, AmountOn(sale));
      }
    }
  }

  lemma OutsideKeepsSale(s: State, op: Op, sale: nat)
    requires SaleInv(s, sale) && Next(s, Outside(op)).Some? && !CutsBelow(s.db, Outside(op), sale)
    ensures SaleInv(Next(s, Outside(op)).value, sale)
  {
    var s' := Next(s, Outside(op)).value;
    WholeKeepsRows(s.db, op);
    WholeKeepsCovered(s.db, op, sale);
    forall t | 0 <= t < |s'.txns| && OnSale(s'.txns[t], sale) ensures Owns(s', t, sale) {
      assert Owns(s, t, sale);
      WholeLeavesSale(s.db, op, sale);
    }
    SalesOnlyAdded(s.db, op);
  }

  lemma SalesOnlyAdded(db: Db, op: Op)
    requires IsWhole(op) && Apply(db, op).Ok?
    ensures |db.sales| <= |Apply(db, op).value.sales|
  {
  }

  lemma WritePriceKeepsSale(s: State, priced: nat, sell: int, sale: nat)
    requires SaleInv(s, sale) && Next(s, WritePrice(priced, sell)).Some? && !CutsBelow(s.db, WritePrice(priced, sell), sale)
    ensures SaleInv(Next(s, WritePrice(priced, sell)).value, sale)
  {
    var s' := Next(s, WritePrice(priced, sell)).value;
    forall t | 0 <= t < |s'.txns| && OnSale(s'.txns[t], sale) ensures Owns(s', t, sale) {
      assert Owns(s, t, sale);
    }
  }

  /* ---------------------------- own statements -------------------------- */

  lemma CommitKeepsSale(db: Db, r: PayRequest, sale: nat)
    requires WellFormed(db) && Covered(db, sale) && r.amount > 0 && r.sale < |db.sales|
    requires r.sale == sale ==> r.amount <= db.sales[sale].price.Charge() - Paid(db.payments, sale)
    ensures var db' := AddPayment(db, NewPayment(db, r));
            WellFormed(db') && Covered(db', sale) && (r.sale != sale ==> Paid(db'.payments, sale) == Paid(db.payments, sale))
  {
  }

  /** Whatever a statement publishes, the sale stays covered, and stands unless it was the sale's own payment. */
  lemma PublishKeepsSale(s: State, t: nat, sale: nat)
    requires SaleInv(s, sale) && CanAdvance(s, t)
    ensures var db' := AdvanceTo(s, t).db;
            && WellFormed(db') && Covered(db', sale) && db'.sales == s.db.sales
            && (!(OnSale(s.txns[t], sale) && s.txns[t].Committing()) ==> Paid(db'.payments, sale) == Paid(s.db.payments, sale))
  {
    if s.txns[t].Committing() && s.txns[t].Paying? {
      assert UnderWay(s.db, s.txns[t].pay, s.txns[t].at);
      assert s.txns[t].pay.sale == sale ==> Owns(s, t, sale);
      CommitKeepsSale(s.db, s.txns[t].pay, sale);
    }
  }

  lemma StepKeepsUnderWay(db: Db, r: PayRequest, at: PayStep)
    requires UnderWay(db, r, at)
    ensures UnderWay(db, r, NextPayStep(db, r, at))
  {
  }

  /** A statement that does not end the payment either takes the lock or had it, and reads the charge as it is. */
  lemma StepKeepsOwns(s: State, t: nat, sale: nat)
    requires SaleInv(s, sale) && CanAdvance(s, t) && OnSale(AdvanceTo(s, t).txns[t], sale)
    ensures Owns(AdvanceTo(s, t), t, sale)
  {
    var s' := AdvanceTo(s, t);
    var at := s.txns[t].at;
    PublishKeepsSale(s, t, sale);
    assert at.LockSale? || Owns(s, t, sale);
  }

  lemma OthersKeepOwns(s: State, t: nat, u: nat, sale: nat)
    requires SaleInv(s, sale) && CanAdvance(s, t) && u < |s.txns| && u != t && OnSale(s.txns[u], sale)
    ensures Owns(AdvanceTo(s, t), u, sale)
  {
    assert Owns(s, u, sale);
    assert OnSale(s.txns[t], sale) ==> Owns(s, t, sale);
    PublishKeepsSale(s, t, sale);
  }

  lemma AdvanceKeepsSale(s: State, t: nat, sale: nat)
    requires SaleInv(s, sale) && CanAdvance(s, t)
    ensures SaleInv(AdvanceTo(s, t), sale)
  {
    var s' := AdvanceTo(s, t);
    PublishKeepsSale(s, t, sale);
    forall u | 0 <= u < |s'.txns| && s'.txns[u].Paying? ensures UnderWay(s'.db, s'.txns[u].pay, s'.txns[u].at) {
      assert UnderWay(s.db, s.txns[u].pay, s.txns[u].at);
      if u == t { StepKeepsUnderWay(s.db, s.txns[u].pay, s.txns[u].at); }
    }
    forall u | 0 <= u < |s'.txns| && OnSale(s'.txns[u], sale) ensures Owns(s', u, sale) {
      if u == t {
        StepKeepsOwns(s, t, sale);
      } else {
        OthersKeepOwns(s, t, u, sale);
      }
    }
  }

  lemma AnswerKeepsSale(s: State, t: nat, q: Query, sale: nat)
    requires SaleInv(s, sale) && CanAnswer(s, t, q)
    ensures SaleInv(Next(s, Answer(t, q)).value, sale)
  {
    var s' := Next(s, Answer(t, q)).value;
    forall u | 0 <= u < |s'.txns| && s'.txns[u].Paying? ensures UnderWay(s'.db, s'.txns[u].pay, s'.txns[u].at) {
      assert UnderWay(s.db, s.txns[u].pay, s.txns[u].at);
    }
    forall u | 0 <= u < |s'.txns| && OnSale(s'.txns[u], sale) ensures Owns(s', u, sale) {
      assert Owns(s, u, sale);
    }
  }

  lemma BeginKeepsSale(s: State, txn: Txn, sale: nat)
    requires SaleInv(s, sale) && !OnSale(txn, sale) && (txn.Paying? ==> UnderWay(s.db, txn.pay, txn.at))
    ensures SaleInv(s.(txns := s.txns + [txn]), sale)
  {
    var s' := s.(txns := s.txns + [txn]);
    forall u | 0 <= u < |s'.txns| && OnSale(s'.txns[u], sale) ensures Owns(s', u, sale) {
      assert Owns(s, u, sale);
    }
  }

  lemma NextKeepsSale(s: State, e: Event, sale: nat)
    requires SaleInv(s, sale) && Next(s, e).Some? && !CutsBelow(s.db, e, sale)
    ensures SaleInv(Next(s, e).value, sale)
  {
    match e {
      case BeginPayment(r) => BeginKeepsSale(s, StartPayment(r), sale);
      case BeginTransfer(r) => BeginKeepsSale(s, StartTransfer(r), sale);
      case Advance(t) => AdvanceKeepsSale(s, t, sale);
      case Answer(t, q) => AnswerKeepsSale(s, t, q, sale);
      case Outside(op) => OutsideKeepsSale(s, op, sale);
      case WritePrice(priced, sell) => WritePriceKeepsSale(s, priced, sell, sale);
    }
  }

  lemma {:induction false} RunKeepsSale(s: State, events: seq<Event>, s': State, sale: nat)
    requires SaleInv(s, sale) && Reaches(s, events, s') && NeverCut(s, events, sale)
    ensures SaleInv(s', sale)
    decreases |events|
  {
    if events != [] {
      NextKeepsSale(s, events[0], sale);
      RunKeepsSale(Next(s, events[0]).value, events[1..], s', sale);
    }
  }

  /**
   * A sale is never overpaid, over every interleaving of any number of payments,
   * transfers and calls of every kind, as long as no edit puts its own charge below
   * what has been paid on it by then.
   */
  lemma SaleIsNeverOverpaid(db: Db, events: seq<Event>, s: State, sale: nat)
    requires WellFormed(db) && Covered(db, sale) && Reaches(Start(db), events, s) && NeverCut(Start(db), events, sale)
    ensures sale < |s.db.sales| ==> Paid(s.db.payments, sale) <= s.db.sales[sale].price.Charge()
  {
    RunKeepsSale(Start(db), events, s, sale);
  }

  /** And an edit that does is the one thing that overpays it: the event leaves it overpaid if and only if it cuts below. */
  lemma EventOverpaysIff(s: State, e: Event, sale: nat)
    requires SaleInv(s, sale) && sale < |s.db.sales| && Next(s, e).Some?
    ensures !Covered(Next(s, e).value.db, sale) <==> CutsBelow(s.db, e, sale)
  {
    if !CutsBelow(s.db, e, sale) {
      NextKeepsSale(s, e, sale);
    } else if e.Outside? {
      assert Next(s, e).value.db.payments == s.db.payments;
    }
  }

  /* -------------------------------- Hajj -------------------------------- */

  predicate IsHajj(db: Db, sale: nat) { sale < |db.sales| && db.sales[sale].price.HajjPrice? }

  lemma CallKeepsKinds(db: Db, op: Op, sale: nat)
    requires Apply(db, op).Ok? && sale < |db.sales|
    ensures sale < |Apply(db, op).value.sales| && (IsHajj(Apply(db, op).value, sale) <==> IsHajj(db, sale))
  {
  }

  /** No call and no statement changes what kind of sale a sale is. */
  lemma KindsStay(s: State, e: Event, sale: nat)
    requires Next(s, e).Some? && sale < |s.db.sales|
    ensures sale < |Next(s, e).value.db.sales|
    ensures IsHajj(Next(s, e).value.db, sale) <==> IsHajj(s.db, sale)
  {
    if e.Outside? {
      CallKeepsKinds(s.db, e.op, sale);
    }
  }

  lemma {:induction false} HajjAllAlong(s: State, events: seq<Event>, s': State, sale: nat)
    requires Reaches(s, events, s') && IsHajj(s'.db, sale) && sale < |s.db.sales|
    ensures IsHajj(s.db, sale)
    decreases |events|
  {
    if events != [] {
      KindsStay(s, events[0], sale);
      HajjAllAlong(Next(s, events[0]).value, events[1..], s', sale);
    }
  }

  /** Nothing edits a Hajj price, so none is ever cut. */
  lemma {:induction false} HajjIsNeverCut(s: State, events: seq<Event>, s': State, sale: nat)
    requires Reaches(s, events, s') && IsHajj(s'.db, sale)
    ensures NeverCut(s, events, sale)
    decreases |events|
  {
    if events != [] {
      HajjIsNeverCut(Next(s, events[0]).value, events[1..], s', sale);
      if sale < |s.db.sales| {
        HajjAllAlong(s, events, s', sale);
      }
    }
  }

  /**
   * A Hajj booking is never overpaid in its whole life, over every interleaving there is:
   * what was taken for it stays within its package price, whatever else is done.
   */
  lemma HajjIsNeverOverpaid(db: Db, events: seq<Event>, s: State)
    requires WellFormed(db) && Reaches(Start(db), events, s)
    requires forall sale: nat :: IsHajj(db, sale) ==> Covered(db, sale)
    ensures forall sale: nat :: IsHajj(s.db, sale) ==> Paid(s.db.payments, sale) <= s.db.sales[sale].price.packagePrice
  {
    forall sale: nat | IsHajj(s.db, sale) ensures Paid(s.db.payments, sale) <= s.db.sales[sale].price.packagePrice {
      HajjIsNeverCut(Start(db), events, s, sale);
      if sale < |db.sales| {
        HajjAllAlong(Start(db), events, s, sale);
      }
      SaleIsNeverOverpaid(db, events, s, sale);
    }
  }
}
