/**
 * What every interleaving keeps: no sale is overpaid, no wallet overdrawn, and
 * every commit is one whole call made at that instant.
 *
 * The argument is rely/guarantee. `PayOk` says what a payment may still count on
 * at each step; `Undisturbed` is what every other party's step leaves standing
 * for it, because that party cannot hold the same lock.
 */
module ProtocolSafety {
  import opened Wrappers
  import opened Rows
  import opened Books
  import opened Calls
  import opened Protocol

  /* ---------------------------- invariants ----------------------------- */

  /** Rows refer to rows that exist, and money recorded is positive. */
  predicate WellFormed(db: Db) {
    && (forall p :: p in db.payments ==> p.sale < |db.sales| && p.amount > 0)
    && (forall r :: r in db.receipts ==> r.amount1 > 0 && r.amount2 >= 0)
  }

  predicate NoneOverpaid(db: Db) {
    forall s :: 0 <= s < |db.sales| ==> Paid(db.payments, s) <= db.sales[s].price.Charge()
  }

  ghost predicate NoneOverdrawn(db: Db) { forall c: nat :: UsedUp(db, c) <= PaidIn(db.receipts, c) }

  function OwnerOf(db: Db, sale: nat): nat { if sale < |db.sales| then db.sales[sale].customer else 0 }

  /** The sale is live under our lock and the charge read from it is still its charge. */
  predicate Priced(db: Db, r: PayRequest, charge: int) {
    LiveSale(db, r.sale) && charge == db.sales[r.sale].price.Charge()
  }

  function Answered(db: Db, c: nat, todo: set<Query>, kind: SaleKind): int {
    if Spend(kind) in todo then 0 else SpentOn(db, c, kind)
  }

  function AnsweredSpend(db: Db, c: nat, todo: set<Query>): int {
    Answered(db, c, todo, Ticket) + Answered(db, c, todo, Visa) + Answered(db, c, todo, Hajj)
    + Answered(db, c, todo, Tour) + Answered(db, c, todo, Hotel)
  }

  /** The money for the payment exists: in the wallet, or arriving in a usable account. */
  predicate Funded(db: Db, r: PayRequest) {
    if r.fromWallet then LiveCustomer(db, OwnerOf(db, r.sale)) && r.amount <= WalletBalance(db, OwnerOf(db, r.sale))
    else r.account.Some? && Postable(db, r.account.value)
  }

  predicate PayOk(db: Db, r: PayRequest, at: PayStep) {
    match at
    case ReadOwner => r.amount > 0 && r.fromWallet
    case LockCustomer(c) => r.amount > 0 && r.fromWallet
    case LockSale(payer) => r.amount > 0 && PayerOk(db, r, payer)
    case ReRead(payer) => r.amount > 0 && PayerOk(db, r, payer) && LiveSale(db, r.sale)
    case SumWallet(c, charge, todo, paidIn, usedUp) =>
      && r.amount > 0 && Priced(db, r, charge) && r.fromWallet
      && c == OwnerOf(db, r.sale) && LiveCustomer(db, c)
      // A receipt can only be added and spending only undone while we hold the
      // customer, so what was read can only under-estimate what is there.
      && paidIn <= (if Receipts in todo then 0 else PaidIn(db.receipts, c))
      && usedUp >= AnsweredSpend(db, c, todo)
    case CheckAccount(charge) => r.amount > 0 && Priced(db, r, charge) && !r.fromWallet
    case SumPaid(charge) => r.amount > 0 && Priced(db, r, charge) && Funded(db, r)
    case InsertPayment => Cleared(db, r)
    case PostPayment => Cleared(db, r)
    case CommitPayment => Cleared(db, r)
    case Settled => true
    case Refused(_) => true
  }

  predicate PayerOk(db: Db, r: PayRequest, payer: Option<nat>) {
    r.fromWallet == payer.Some? && (payer.Some? ==> LiveCustomer(db, payer.value))
  }

  /** Both guards have passed and still hold. */
  predicate Cleared(db: Db, r: PayRequest) {
    && r.amount > 0 && LiveSale(db, r.sale) && Funded(db, r)
    && r.amount <= db.sales[r.sale].price.Charge() - Paid(db.payments, r.sale)
  }

  /** The row locks a transaction holds at each step. */
  function Holds(db: Db, txn: Txn): set<Lock> {
    match txn
    case Paying(r, LockSale(payer)) => if payer.Some? then {CustomerLock(payer.value)} else {}
    case Paying(r, ReRead(payer)) =>
      {SaleLock(r.sale)} + if payer.Some? then {CustomerLock(payer.value)} else {}
    case Paying(r, at) =>
      if HasSale(at)
      then {SaleLock(r.sale)} + if r.fromWallet then {CustomerLock(OwnerOf(db, r.sale))} else {}
      else {}
    case Moving(r, next) => if next.LockSource? || txn.Finished() then {} else {AccountLock(r.source)}
  }

  /** The steps a payment takes with its sale locked. */
  predicate HasSale(at: PayStep) {
    !(at.ReadOwner? || at.LockCustomer? || at.LockSale? || at.Settled? || at.Refused?)
  }

  /** The steps a payment takes with its owner's wallet known to be the one locked. */
  predicate HasWallet(r: PayRequest, at: PayStep) { r.fromWallet && HasSale(at) && !at.ReRead? }

  ghost predicate LocksMatch(s: State) {
    && (forall l :: l in s.locks ==> s.locks[l] < |s.txns| && l in Holds(s.db, s.txns[s.locks[l]]))
    && (forall t, l :: 0 <= t < |s.txns| && l in Holds(s.db, s.txns[t]) ==> l in s.locks && s.locks[l] == t)
  }

  /** What a payment's program point alone says of its request: the locks held follow from it. */
  predicate Shaped(db: Db, txn: Txn) {
    match txn
    case Moving(_, _) => true
    case Paying(r, ReadOwner) => r.fromWallet
    case Paying(r, LockCustomer(_)) => r.fromWallet
    case Paying(r, LockSale(payer)) => r.fromWallet == payer.Some?
    case Paying(r, ReRead(payer)) => r.fromWallet == payer.Some? && r.sale < |db.sales|
    case Paying(r, SumWallet(_, _, _, _, _)) => r.fromWallet && r.sale < |db.sales|
    case Paying(r, CheckAccount(_)) => !r.fromWallet && r.sale < |db.sales|
    case Paying(r, at) => HasSale(at) ==> r.sale < |db.sales|
  }

  /** The lock table is right; nothing about the rows is needed for that. */
  ghost predicate LockInv(s: State) { LocksMatch(s) && forall t :: 0 <= t < |s.txns| ==> Shaped(s.db, s.txns[t]) }

  predicate TxnOk(db: Db, txn: Txn) { txn.Paying? ==> PayOk(db, txn.pay, txn.at) }

  ghost predicate Guarded(db: Db) { NoneOverpaid(db) && NoneOverdrawn(db) }

  ghost predicate Inv(s: State) {
    && WellFormed(s.db) && LocksMatch(s)
    && (forall t :: 0 <= t < |s.txns| ==> TxnOk(s.db, s.txns[t]))
  }

  /* ------------------------- what others may do ------------------------ */

  /** Live customers and accounts stay so, usable accounts stay usable; a sale's owner, kind and charge never change. */
  ghost predicate Grows(db: Db, db': Db) {
    && (forall c: nat :: LiveCustomer(db, c) ==> LiveCustomer(db', c))
    && (forall a: nat :: LiveAccount(db, a) ==> LiveAccount(db', a))
    && (forall a: nat :: Postable(db, a) ==> Postable(db', a))
    && |db.sales| <= |db'.sales|
    && (forall s :: 0 <= s < |db.sales| ==> SameTerms(db.sales[s], db'.sales[s]))
  }

  predicate SameTerms(s: Sale, s': Sale) {
    s'.customer == s.customer && s'.price.Charge() == s.price.Charge() && s'.price.Kind() == s.price.Kind()
  }

  /** Nobody else took money on our sale. */
  predicate SaleKept(db: Db, db': Db, s: nat) {
    (LiveSale(db, s) ==> LiveSale(db', s)) && Paid(db'.payments, s) <= Paid(db.payments, s)
  }

  /** Nobody else spent from this customer's wallet. */
  predicate WalletKept(db: Db, db': Db, c: nat) {
    && SpentOn(db', c, Ticket) <= SpentOn(db, c, Ticket)
    && SpentOn(db', c, Visa) <= SpentOn(db, c, Visa)
    && SpentOn(db', c, Hajj) <= SpentOn(db, c, Hajj)
    && SpentOn(db', c, Tour) <= SpentOn(db, c, Tour)
    && SpentOn(db', c, Hotel) <= SpentOn(db, c, Hotel)
    && PaidIn(db.receipts, c) <= PaidIn(db'.receipts, c)
  }

  lemma PayOkStable(db: Db, db': Db, r: PayRequest, at: PayStep)
    requires PayOk(db, r, at) && Grows(db, db')
    requires HasSale(at) ==> SaleKept(db, db', r.sale)
    requires HasWallet(r, at) ==> WalletKept(db, db', OwnerOf(db, r.sale))
    ensures PayOk(db', r, at)
  {
  }

  /* --------------------- how each writer moves sums -------------------- */

  lemma SpentAfter(db: Db, q: PayRequest, c: nat, kind: SaleKind)
    requires q.sale < |db.sales|
    ensures SpentOn(AddPayment(db, NewPayment(db, q)), c, kind)
         == SpentOn(db, c, kind)
            + if q.fromWallet && OwnerOf(db, q.sale) == c && db.sales[q.sale].price.Kind() == kind then q.amount else 0
  {
  }

  lemma UsedUpAfter(db: Db, q: PayRequest, c: nat)
    requires q.sale < |db.sales|
    ensures UsedUp(AddPayment(db, NewPayment(db, q)), c)
         == UsedUp(db, c) + if q.fromWallet && OwnerOf(db, q.sale) == c then q.amount else 0
  {
    SpentAfter(db, q, c, Ticket);
    SpentAfter(db, q, c, Visa);
    SpentAfter(db, q, c, Hajj);
    SpentAfter(db, q, c, Tour);
    SpentAfter(db, q, c, Hotel);
  }

  /** Adding sales, or marking one deleted, does not move a payment to another wallet. */
  lemma SpendKeepsOwner(payments: seq<Payment>, db: Db, db': Db, c: nat, kind: SaleKind)
    requires Grows(db, db')
    requires forall p :: p in payments ==> p.sale < |db.sales|
    ensures Sum(payments, WalletSpend(db'.sales, c, kind)) == Sum(payments, WalletSpend(db.sales, c, kind))
  {
    SumEq(payments, WalletSpend(db'.sales, c, kind), WalletSpend(db.sales, c, kind));
  }

  /** A filtered payment table can only spend less. */
  lemma FewerPayments(db: Db, db': Db, keep: Payment -> bool, c: nat, kind: SaleKind)
    requires WellFormed(db) && Grows(db, db') && db'.payments == Where(db.payments, keep)
    ensures SpentOn(db', c, kind) <= SpentOn(db, c, kind)
  {
    SpendKeepsOwner(db'.payments, db, db', c, kind);
    SumWhereLe(db.payments, keep, WalletSpend(db.sales, c, kind));
  }

  lemma QuietKeepsTerms(db: Db, op: Op)
    requires Quiet(op) && Apply(db, op).Ok?
    ensures |db.sales| <= |Apply(db, op).value.sales|
    ensures forall s :: 0 <= s < |db.sales| ==> SameTerms(db.sales[s], Apply(db, op).value.sales[s])
  {
  }

  lemma QuietKeepsCustomers(db: Db, op: Op, c: nat)
    requires Quiet(op) && Apply(db, op).Ok? && LiveCustomer(db, c)
    ensures LiveCustomer(Apply(db, op).value, c)
  {
  }

  lemma QuietKeepsAccounts(db: Db, op: Op, a: nat)
    requires Quiet(op) && Apply(db, op).Ok? && LiveAccount(db, a)
    ensures LiveAccount(Apply(db, op).value, a) && (Postable(db, a) ==> Postable(Apply(db, op).value, a))
  {
  }

  lemma QuietGrows(db: Db, op: Op)
    requires Quiet(op) && Apply(db, op).Ok?
    ensures Grows(db, Apply(db, op).value)
  {
    var db' := Apply(db, op).value;
    QuietKeepsTerms(db, op);
    forall c: nat | LiveCustomer(db, c) ensures LiveCustomer(db', c) { QuietKeepsCustomers(db, op, c); }
    forall a: nat | LiveAccount(db, a) ensures LiveAccount(db', a) && (Postable(db, a) ==> Postable(db', a)) {
      QuietKeepsAccounts(db, op, a);
    }
  }

  lemma QuietKeepsRows(db: Db, op: Op)
    requires WellFormed(db) && Quiet(op) && Apply(db, op).Ok?
    ensures WellFormed(Apply(db, op).value)
  {
  }

  lemma OutsideSpend(db: Db, op: Op, c: nat, kind: SaleKind)
    requires WellFormed(db) && Quiet(op) && Apply(db, op).Ok?
    requires Grows(db, Apply(db, op).value)
    ensures SpentOn(Apply(db, op).value, c, kind) <= SpentOn(db, c, kind)
  {
    var db' := Apply(db, op).value;
    match op {
      case Unpay(sale, id) => FewerPayments(db, db', OtherPayments(id), c, kind);
      case RemoveSale(sale) => FewerPayments(db, db', OnOtherSales(sale), c, kind);
      case _ => SpendKeepsOwner(db.payments, db, db', c, kind);
    }
  }

  lemma OutsidePaidIn(db: Db, op: Op, c: nat)
    requires WellFormed(db) && Quiet(op) && Apply(db, op).Ok?
    ensures PaidIn(db.receipts, c) <= PaidIn(Apply(db, op).value.receipts, c)
  {
    if op.Recollect? {
      SumMap(db.receipts, EditedReceipt(op.changed, op.discount, op.dated), ReceivedFrom(c), ReceivedFrom(c));
    }
  }

  lemma OutsidePaid(db: Db, op: Op, s: nat)
    requires WellFormed(db) && Quiet(op) && Apply(db, op).Ok?
    ensures Paid(Apply(db, op).value.payments, s) <= Paid(db.payments, s)
  {
    match op {
      case Unpay(sale, id) => SumWhereLe(db.payments, OtherPayments(id), AmountOn(s));
      case RemoveSale(sale) => SumWhereLe(db.payments, OnOtherSales(sale), AmountOn(s));
      case _ =>
    }
  }

  /** The guarantee of every writer without a lock, towards any payment in progress. */
  lemma OutsideUndisturbed(db: Db, op: Op, s: nat, c: nat)
    requires WellFormed(db) && Quiet(op) && Apply(db, op).Ok?
    requires op.RemoveSale? ==> op.removed != s
    ensures var db' := Apply(db, op).value; Grows(db, db') && SaleKept(db, db', s) && WalletKept(db, db', c)
  {
    QuietGrows(db, op);
    OutsidePaid(db, op, s);
    QuietKeepsWallet(db, op, c);
  }

  lemma QuietKeepsWallet(db: Db, op: Op, c: nat)
    requires WellFormed(db) && Quiet(op) && Apply(db, op).Ok? && Grows(db, Apply(db, op).value)
    ensures WalletKept(db, Apply(db, op).value, c)
  {
    OutsidePaidIn(db, op, c);
    OutsideSpend(db, op, c, Ticket);
    OutsideSpend(db, op, c, Visa);
    OutsideSpend(db, op, c, Hajj);
    OutsideSpend(db, op, c, Tour);
    OutsideSpend(db, op, c, Hotel);
  }

  lemma NewSaleUnpaid(db: Db)
    requires WellFormed(db)
    ensures Paid(db.payments, |db.sales|) == 0
  {
    SumZero(db.payments, AmountOn(|db.sales|));
  }

  lemma OutsideKeepsBooks(db: Db, op: Op)
    requires WellFormed(db) && Quiet(op) && Apply(db, op).Ok?
    ensures var db' := Apply(db, op).value;
            && WellFormed(db') && Grows(db, db')
            && (NoneOverpaid(db) ==> NoneOverpaid(db')) && (NoneOverdrawn(db) ==> NoneOverdrawn(db'))
  {
    var db' := Apply(db, op).value;
    QuietKeepsRows(db, op);
    QuietGrows(db, op);
    NewSaleUnpaid(db);
    forall s | 0 <= s < |db'.sales| && NoneOverpaid(db) ensures Paid(db'.payments, s) <= db'.sales[s].price.Charge() {
      OutsidePaid(db, op, s);
      assert s < |db.sales| ==> SameTerms(db.sales[s], db'.sales[s]);
    }
    forall c: nat | NoneOverdrawn(db) ensures UsedUp(db', c) <= PaidIn(db'.receipts, c) {
      QuietKeepsWallet(db, op, c);
    }
  }

  /* ------------------------------ commits ------------------------------ */

  lemma CommitGrows(db: Db, q: PayRequest)
    ensures Grows(db, AddPayment(db, NewPayment(db, q)))
  {
  }

  lemma CommitLeavesWallet(db: Db, q: PayRequest, c: nat)
    requires q.sale < |db.sales| && !(q.fromWallet && OwnerOf(db, q.sale) == c)
    ensures WalletKept(db, AddPayment(db, NewPayment(db, q)), c)
  {
    SpentAfter(db, q, c, Ticket);
    SpentAfter(db, q, c, Visa);
    SpentAfter(db, q, c, Hajj);
    SpentAfter(db, q, c, Tour);
    SpentAfter(db, q, c, Hotel);
  }

  /** A committing payment leaves alone everyone who can be running beside it. */
  lemma CommitUndisturbed(db: Db, q: PayRequest, s: nat, c: nat)
    requires q.sale < |db.sales| && q.amount > 0
    ensures var db' := AddPayment(db, NewPayment(db, q));
            && Grows(db, db')
            && (q.sale != s ==> SaleKept(db, db', s))
            && (!(q.fromWallet && OwnerOf(db, q.sale) == c) ==> WalletKept(db, db', c))
  {
    CommitGrows(db, q);
    if !(q.fromWallet && OwnerOf(db, q.sale) == c) { CommitLeavesWallet(db, q, c); }
  }

  lemma CommitKeepsBooks(db: Db, q: PayRequest)
    requires WellFormed(db) && Cleared(db, q)
    ensures var db' := AddPayment(db, NewPayment(db, q));
            WellFormed(db') && (NoneOverpaid(db) ==> NoneOverpaid(db')) && (NoneOverdrawn(db) ==> NoneOverdrawn(db'))
  {
    var db' := AddPayment(db, NewPayment(db, q));
    forall s | 0 <= s < |db'.sales| && NoneOverpaid(db) ensures Paid(db'.payments, s) <= db'.sales[s].price.Charge() {
    }
    forall c: nat | NoneOverdrawn(db) ensures UsedUp(db', c) <= PaidIn(db'.receipts, c) {
      UsedUpAfter(db, q, c);
    }
  }

  /* ------------------------------ one event ---------------------------- */

  lemma AnsweredOneMore(db: Db, c: nat, todo: set<Query>, kind: SaleKind)
    requires Spend(kind) in todo
    ensures AnsweredSpend(db, c, todo - {Spend(kind)}) == AnsweredSpend(db, c, todo) + SpentOn(db, c, kind)
  {
    match kind {
      case Ticket =>
      case Visa =>
      case Hajj =>
      case Tour =>
      case Hotel =>
    }
  }

  lemma AnswerKeepsPayOk(db: Db, r: PayRequest, at: PayStep, q: Query)
    requires at.SumWallet? && q in at.todo && PayOk(db, r, at)
    ensures PayOk(db, r, AnswerWallet(db, at, q))
  {
    if q.Spend? {
      AnsweredOneMore(db, at.payee, at.todo, q.kind);
    }
  }

  /** Each statement hands the next one what it may rely on. */
  lemma StepKeepsPayOk(db: Db, r: PayRequest, at: PayStep)
    requires PayOk(db, r, at) && WellFormed(db)
    requires at.SumWallet? ==> at.todo == {}
    ensures PayOk(db, r, NextPayStep(db, r, at))
  {
  }

  /** A statement adds the lock it asked for, and ending gives all of them up. */
  lemma StepLocks(db: Db, txn: Txn)
    requires Shaped(db, txn) && !txn.Finished() && !Summing(txn)
    ensures Shaped(db, NextStep(db, txn))
    ensures var moved := NextStep(db, txn);
            if moved.Finished() then Holds(db, moved) == {}
            else Holds(db, moved) == Holds(db, txn) + if Wants(db, txn).Some? then {Wants(db, txn).value} else {}
  {
  }

  /** The lock table and what each transaction holds say the same. */
  ghost predicate Match(locks: map<Lock, nat>, held: seq<set<Lock>>) {
    && (forall l :: l in locks ==> locks[l] < |held| && l in held[locks[l]])
    && (forall t, l :: 0 <= t < |held| && l in held[t] ==> l in locks && locks[l] == t)
  }

  ghost function Held(s: State): seq<set<Lock>> {
    seq(|s.txns|, t requires 0 <= t < |s.txns| => Holds(s.db, s.txns[t]))
  }

  lemma HeldAt(s: State)
    ensures |Held(s)| == |s.txns| && forall t :: 0 <= t < |s.txns| ==> Held(s)[t] == Holds(s.db, s.txns[t])
  {
  }

  lemma LocksMatchHeld(s: State)
    requires LocksMatch(s)
    ensures Match(s.locks, Held(s))
  {
    HeldAt(s);
    forall l | l in s.locks ensures s.locks[l] < |Held(s)| && l in Held(s)[s.locks[l]] {
      assert l in Holds(s.db, s.txns[s.locks[l]]);
    }
  }

  lemma HeldLocksMatch(s: State)
    requires Match(s.locks, Held(s))
    ensures LocksMatch(s)
  {
    HeldAt(s);
    forall l | l in s.locks ensures s.locks[l] < |s.txns| && l in Holds(s.db, s.txns[s.locks[l]]) {
      assert l in Held(s)[s.locks[l]];
    }
    forall t, l | 0 <= t < |s.txns| && l in Holds(s.db, s.txns[t]) ensures l in s.locks && s.locks[l] == t {
      assert l in Held(s)[t];
    }
  }

  /** What is held after a step: the wanted lock as well, or nothing once the transaction is over. */
  ghost function HeldAfter(held: seq<set<Lock>>, t: nat, wanted: Option<Lock>, over: bool): seq<set<Lock>>
    requires t < |held|
  {
    held[t := if over then {} else held[t] + if wanted.Some? then {wanted.value} else {}]
  }

  lemma StepKeepsMatch(locks: map<Lock, nat>, held: seq<set<Lock>>, t: nat, wanted: Option<Lock>, over: bool)
    requires Match(locks, held) && t < |held| && (wanted.Some? ==> wanted.value !in locks)
    ensures var taken := if wanted.Some? then locks[wanted.value := t] else locks;
            Match(if over then Release(taken, t) else taken, HeldAfter(held, t, wanted, over))
  {
    var taken, now := locks, held;
    if wanted.Some? {
      taken, now := locks[wanted.value := t], held[t := held[t] + {wanted.value}];
    }
    if over {
      assert now[t := {}] == HeldAfter(held, t, wanted, over);
    } else {
      assert held[t] + {} == held[t];
      assert now == HeldAfter(held, t, wanted, over);
    }
  }

  lemma InvIsLockInv(s: State)
    requires Inv(s)
    ensures LockInv(s)
  {
    forall t | 0 <= t < |s.txns| ensures Shaped(s.db, s.txns[t]) {
      assert TxnOk(s.db, s.txns[t]);
    }
  }

  lemma AdvanceHolds(s: State, t: nat)
    requires LockInv(s) && CanAdvance(s, t)
    ensures var s' := AdvanceTo(s, t);
            Held(s') == HeldAfter(Held(s), t, Wants(s.db, s.txns[t]), s'.txns[t].Finished())
  {
    var s' := AdvanceTo(s, t);
    StepLocks(s.db, s.txns[t]);
    forall u | 0 <= u < |s.txns| ensures Holds(s'.db, s'.txns[u]) == Holds(s.db, s'.txns[u]) {
    }
  }

  lemma AdvanceLocks(s: State, t: nat)
    requires LockInv(s) && CanAdvance(s, t)
    ensures LocksMatch(AdvanceTo(s, t))
  {
    var s' := AdvanceTo(s, t);
    LocksMatchHeld(s);
    StepKeepsMatch(s.locks, Held(s), t, Wants(s.db, s.txns[t]), s'.txns[t].Finished());
    AdvanceHolds(s, t);
    HeldLocksMatch(s');
  }

  /** A statement of one transaction leaves every other payment what it counts on. */
  lemma AdvanceKeepsOther(s: State, t: nat, u: nat)
    requires Inv(s) && CanAdvance(s, t) && u < |s.txns| && u != t
    ensures TxnOk(AdvanceTo(s, t).db, s.txns[u])
  {
    assert TxnOk(s.db, s.txns[u]) && TxnOk(s.db, s.txns[t]);
    if s.txns[u].Paying? && s.txns[t].Committing() {
      var r := s.txns[u].pay;
      if s.txns[t].Paying? {
        if HasSale(s.txns[u].at) { MutualExclusion(s, t, u); }
        CommitUndisturbed(s.db, s.txns[t].pay, r.sale, OwnerOf(s.db, r.sale));
      }
      PayOkStable(s.db, AdvanceTo(s, t).db, r, s.txns[u].at);
    }
  }

  lemma AdvanceKeepsOwn(s: State, t: nat)
    requires Inv(s) && CanAdvance(s, t)
    ensures TxnOk(AdvanceTo(s, t).db, AdvanceTo(s, t).txns[t])
  {
    assert TxnOk(s.db, s.txns[t]);
    if s.txns[t].Paying? && !s.txns[t].Committing() { StepKeepsPayOk(s.db, s.txns[t].pay, s.txns[t].at); }
  }

  lemma AdvanceKeepsBooks(s: State, t: nat)
    requires Inv(s) && CanAdvance(s, t)
    ensures WellFormed(AdvanceTo(s, t).db) && (Guarded(s.db) ==> Guarded(AdvanceTo(s, t).db))
  {
    assert TxnOk(s.db, s.txns[t]);
    if s.txns[t].Paying? && s.txns[t].Committing() {
      CommitKeepsBooks(s.db, s.txns[t].pay);
    }
  }

  lemma AdvanceKeeps(s: State, t: nat)
    requires Inv(s) && CanAdvance(s, t)
    ensures Inv(AdvanceTo(s, t)) && (Guarded(s.db) ==> Guarded(AdvanceTo(s, t).db))
  {
    var s' := AdvanceTo(s, t);
    InvIsLockInv(s);
    AdvanceLocks(s, t);
    AdvanceKeepsBooks(s, t);
    forall u | 0 <= u < |s'.txns| ensures TxnOk(s'.db, s'.txns[u]) {
      if u == t {
        AdvanceKeepsOwn(s, t);
      } else {
        AdvanceKeepsOther(s, t, u);
      }
    }
  }

  lemma HeldOnce(s: State, t: nat, u: nat, l: Lock)
    requires LocksMatch(s) && t < |s.txns| && u < |s.txns| && t != u
    ensures !(l in Holds(s.db, s.txns[t]) && l in Holds(s.db, s.txns[u]))
  {
    var holder := Get(s.locks, l, 0);
  }

  /** Two payments past their locks are on different sales, and spend different wallets. */
  lemma MutualExclusion(s: State, t: nat, u: nat)
    requires LocksMatch(s) && t < |s.txns| && u < |s.txns| && t != u
    requires s.txns[t].Paying? && s.txns[u].Paying? && HasSale(s.txns[t].at) && HasSale(s.txns[u].at)
    ensures s.txns[t].pay.sale != s.txns[u].pay.sale
    ensures HasWallet(s.txns[t].pay, s.txns[t].at) && HasWallet(s.txns[u].pay, s.txns[u].at) ==>
              OwnerOf(s.db, s.txns[t].pay.sale) != OwnerOf(s.db, s.txns[u].pay.sale)
  {
    var a, b := s.txns[t], s.txns[u];
    HeldOnce(s, t, u, SaleLock(a.pay.sale));
    HeldOnce(s, t, u, CustomerLock(OwnerOf(s.db, a.pay.sale)));
  }

  lemma AnswerKeeps(s: State, t: nat, q: Query)
    requires Inv(s) && CanAnswer(s, t, q)
    ensures Inv(Next(s, Answer(t, q)).value)
  {
    var s' := Next(s, Answer(t, q)).value;
    assert TxnOk(s.db, s.txns[t]);
    AnswerKeepsPayOk(s.db, s.txns[t].pay, s.txns[t].at, q);
    AnswerLocks(s, t, q);
  }

  lemma AnswerLocks(s: State, t: nat, q: Query)
    requires LocksMatch(s) && CanAnswer(s, t, q)
    ensures LocksMatch(Next(s, Answer(t, q)).value)
  {
    var s' := Next(s, Answer(t, q)).value;
    LocksMatchHeld(s);
    assert Held(s') == Held(s);
    HeldLocksMatch(s');
  }

  lemma OutsideKeeps(s: State, op: Op)
    requires Inv(s) && Next(s, Outside(op)).Some? && Quiet(op)
    ensures Inv(Next(s, Outside(op)).value) && (Guarded(s.db) ==> Guarded(Next(s, Outside(op)).value.db))
  {
    var db' := Apply(s.db, op).value;
    OutsideKeepsBooks(s.db, op);
    forall u | 0 <= u < |s.txns| ensures TxnOk(db', s.txns[u]) && Holds(db', s.txns[u]) == Holds(s.db, s.txns[u]) {
      OutsideKeepsTxn(s, op, u);
    }
    SameHoldsSameLocks(s, db');
  }

  lemma SameHoldsSameLocks(s: State, db': Db)
    requires LocksMatch(s) && forall u :: 0 <= u < |s.txns| ==> Holds(db', s.txns[u]) == Holds(s.db, s.txns[u])
    ensures LocksMatch(s.(db := db'))
  {
  }

  lemma OutsideKeepsTxn(s: State, op: Op, u: nat)
    requires WellFormed(s.db) && LocksMatch(s) && u < |s.txns| && TxnOk(s.db, s.txns[u])
    requires Next(s, Outside(op)).Some? && Quiet(op) && Grows(s.db, Apply(s.db, op).value)
    ensures var db' := Apply(s.db, op).value;
            TxnOk(db', s.txns[u]) && Holds(db', s.txns[u]) == Holds(s.db, s.txns[u])
  {
    var txn := s.txns[u];
    if txn.Paying? {
      if HasSale(txn.at) {
        assert SaleLock(txn.pay.sale) in Holds(s.db, s.txns[u]);
        OutsideUndisturbed(s.db, op, txn.pay.sale, OwnerOf(s.db, txn.pay.sale));
      }
      PayOkStable(s.db, Apply(s.db, op).value, txn.pay, txn.at);
    }
  }

  lemma BeginKeeps(s: State, txn: Txn)
    requires Inv(s) && Holds(s.db, txn) == {} && TxnOk(s.db, txn)
    ensures Inv(s.(txns := s.txns + [txn]))
  {
    var s' := s.(txns := s.txns + [txn]);
    assert forall u :: 0 <= u < |s.txns| ==> s'.txns[u] == s.txns[u];
  }

  lemma NextKeeps(s: State, e: Event)
    requires Inv(s) && Next(s, e).Some? && QuietEvent(e)
    ensures Inv(Next(s, e).value) && (Guarded(s.db) ==> Guarded(Next(s, e).value.db))
  {
    match e {
      case BeginPayment(r) => BeginKeeps(s, StartPayment(r));
      case BeginTransfer(r) => BeginKeeps(s, StartTransfer(r));
      case Advance(t) => AdvanceKeeps(s, t);
      case Answer(t, q) => AnswerKeeps(s, t, q);
      case Outside(op) => OutsideKeeps(s, op);
    }
  }

  lemma {:induction false} RunKeeps(s: State, events: seq<Event>, s': State)
    requires Inv(s) && Reaches(s, events, s') && AllQuiet(events)
    ensures Inv(s') && (Guarded(s.db) ==> Guarded(s'.db))
    decreases |events|
  {
    if events != [] {
      NextKeeps(s, events[0]);
      RunKeeps(Next(s, events[0]).value, events[1..], s');
    }
  }

  /* --------------------------- main results ---------------------------- */

  /**
   * No overpayment and no overdraft: over every interleaving of any number of
   * payments, transfers and quiet calls, from books where both guards held.
   */
  lemma PaymentsAreSafe(db: Db, events: seq<Event>, s: State)
    requires WellFormed(db) && Guarded(db) && Reaches(Start(db), events, s) && AllQuiet(events)
    ensures forall sale :: 0 <= sale < |s.db.sales| ==>
              Paid(s.db.payments, sale) <= s.db.sales[sale].price.Charge()
    ensures forall c: nat :: UsedUp(s.db, c) <= PaidIn(s.db.receipts, c)
  {
    RunKeeps(Start(db), events, s);
  }

  /**
   * Every event either leaves the committed rows alone or is exactly one whole
   * call made on them at that moment: interleaved statements never show.
   */
  lemma EveryCommitIsOneCall(s: State, e: Event)
    requires Inv(s) && Next(s, e).Some? && !e.WritePrice? && !(e.Advance? && s.txns[e.txn].Moving?)
    ensures var s' := Next(s, e).value;
            s'.db == s.db || exists op :: Apply(s.db, op) == Ok(s'.db)
  {
    if e.Advance? && s.txns[e.txn].Committing() {
      var r := s.txns[e.txn].pay;
      assert TxnOk(s.db, s.txns[e.txn]);
      assert Apply(s.db, Pay(r)) == Ok(Next(s, e).value.db);
    } else if e.Outside? {
      assert Apply(s.db, e.op) == Ok(Next(s, e).value.db);
    }
  }
}
