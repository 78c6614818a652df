/**
 * The same guards over whole calls: exactly which calls get past them.
 *
 * Nothing looks at what was paid when a ticket's or a visa case's figures are edited,
 * and nothing looks at a wallet when a receipt is deleted or a ticket changes hands.
 * Every other call keeps both guards.
 */
module CallSafety {
  import opened Wrappers
  import opened Rows
  import opened Books
  import opened Calls
  import opened Protocol
  import opened ProtocolSafety
  import opened ProtocolSales
  import opened ProtocolWallets

  /* ------------------------------ overpayment --------------------------- */

  /** An accepted edit of a ticket or a visa case that leaves it charging less than was paid on it. */
  predicate Undercuts(db: Db, op: Op) { op.Amend? && Apply(db, op).Ok? && CutsBelow(db, Outside(op), op.amended) }

  lemma AmendKeepsOthersPaid(db: Db, op: Op)
    requires NoneOverpaid(db) && op.Amend? && Apply(db, op).Ok?
    ensures NoneOverpaid(Apply(db, op).value) <==> !Undercuts(db, op)
  {
    var db' := Apply(db, op).value;
    if !Undercuts(db, op) {
      forall s | 0 <= s < |db'.sales| ensures Paid(db'.payments, s) <= db'.sales[s].price.Charge() {
        assert s != op.amended ==> db'.sales[s] == db.sales[s];
      }
    }
  }

  lemma RepriceKeepsPaid(db: Db, sale: nat, sell: int)
    requires NoneOverpaid(db) && Reprice(db, sale, sell).Ok?
    ensures NoneOverpaid(Reprice(db, sale, sell).value)
  {
    var db' := Reprice(db, sale, sell).value;
    forall s | 0 <= s < |db'.sales| ensures Paid(db'.payments, s) <= db'.sales[s].price.Charge() {
      assert s != sale ==> db'.sales[s] == db.sales[s];
    }
  }

  lemma OthersKeepPaid(db: Db, op: Op)
    requires NoneOverpaid(db) && Apply(db, op).Ok? && !Quiet(op) && !op.Pay? && !op.Edit? && !op.Amend?
    ensures NoneOverpaid(Apply(db, op).value)
  {
  }

  lemma CallKeepsRows(db: Db, op: Op)
    requires WellFormed(db)
    ensures WellFormed(After(db, op))
  {
    if Apply(db, op).Ok? && IsWhole(op) {
      WholeKeepsRows(db, op);
    }
  }

  /** One call: it leaves some sale overpaid if and only if it is such an edit. */
  lemma CallOverpaysIff(db: Db, op: Op)
    requires WellFormed(db) && NoneOverpaid(db)
    ensures NoneOverpaid(After(db, op)) <==> !Undercuts(db, op)
  {
    if Apply(db, op).Ok? {
      if Quiet(op) {
        OutsideKeepsBooks(db, op);
      } else if op.Pay? {
        CommitKeepsBooks(db, op.pay);
      } else if op.Edit? {
        RepriceKeepsPaid(db, op.edited, op.sell);
      } else if op.Amend? {
        AmendKeepsOthersPaid(db, op);
      } else {
        OthersKeepPaid(db, op);
      }
    }
  }

  /** Nothing is overpaid now, nor was after any of the calls so far. */
  predicate AlwaysPaidRight(db: Db, ops: seq<Op>) {
    NoneOverpaid(Run(db, ops)) && (ops != [] ==> AlwaysPaidRight(db, ops[..|ops| - 1]))
  }

  predicate NeverUndercut(db: Db, ops: seq<Op>) {
    ops == [] || (NeverUndercut(db, ops[..|ops| - 1]) && !Undercuts(Run(db, ops[..|ops| - 1]), ops[|ops| - 1]))
  }

  lemma {:induction false} RunsKeepRows(db: Db, ops: seq<Op>)
    requires WellFormed(db)
    ensures WellFormed(Run(db, ops))
  {
    if ops != [] {
      RunsKeepRows(db, ops[..|ops| - 1]);
      CallKeepsRows(Run(db, ops[..|ops| - 1]), ops[|ops| - 1]);
    }
  }

  /**
   * Over any run of whole calls of every kind, no sale ever has more taken for it than it
   * costs, if and only if no call edits a ticket or visa case to charge less than was
   * paid on it by then.
   */
  lemma {:induction false} WholeCallsOverpayIff(db: Db, ops: seq<Op>)
    requires WellFormed(db) && NoneOverpaid(db)
    ensures AlwaysPaidRight(db, ops) <==> NeverUndercut(db, ops)
  {
    if ops != [] {
      var init := ops[..|ops| - 1];
      WholeCallsOverpayIff(db, init);
      if AlwaysPaidRight(db, init) {
        RunsKeepRows(db, init);
        CallOverpaysIff(Run(db, init), ops[|ops| - 1]);
      }
    }
  }

  /* ------------------------------- overdraft ---------------------------- */

  /** What one receipt number brought into a wallet. */
  function Brought(db: Db, id: nat, c: nat): int { Sum(db.receipts, OfReceipt(id, c)) }

  function OfReceipt(id: nat, c: nat): Receipt -> int {
    (r: Receipt) => if r.id == id then ReceivedFrom(c)(r) else 0
  }

  /**
   * Nothing guards the deletion of a receipt: it leaves a wallet overdrawn exactly when
   * the wallet held less than that receipt brought in.
   */
  lemma UncollectOverdrawsIff(db: Db, id: nat, c: nat)
    requires DeleteReceipt(db, id).Ok?
    ensures !Solvent(DeleteReceipt(db, id).value, c) <==> WalletBalance(db, c) < Brought(db, id, c)
  {
    var db' := DeleteReceipt(db, id).value;
    var kept := (r: Receipt) => if OtherReceipts(id)(r) then ReceivedFrom(c)(r) else 0;
    SumWhere(db.receipts, OtherReceipts(id), ReceivedFrom(c), kept);
    SumAdd(db.receipts, kept, OfReceipt(id, c), ReceivedFrom(c));
    assert UsedUp(db', c) == UsedUp(db, c);
  }

  /** Wallet money taken on one sale. */
  function FromWalletOn(sale: nat): Payment -> int { (p: Payment) => if p.fromWallet && p.sale == sale then p.amount else 0 }

  function WalletTaken(db: Db, sale: nat): int { Sum(db.payments, FromWalletOn(sale)) }

  /** The call makes a ticket this customer's, and it was another's. */
  predicate HandsOver(db: Db, op: Op, c: nat) {
    && op.Amend? && Apply(db, op).Ok? && NewOwner(op.amendment) == Some(c) && db.sales[op.amended].customer != c
  }

  /** The ticket's wallet payments become this customer's spending; what other kinds of sale took stays. */
  lemma HandedSpend(db: Db, op: Op, c: nat, kind: SaleKind)
    requires WellFormed(db) && HandsOver(db, op, c)
    ensures SpentOn(Apply(db, op).value, c, kind)
         == SpentOn(db, c, kind) + if kind == Ticket then WalletTaken(db, op.amended) else 0
  {
    var sales' := Apply(db, op).value.sales;
    forall p | p in db.payments
      ensures WalletSpend(sales', c, kind)(p)
           == WalletSpend(db.sales, c, kind)(p) + if kind == Ticket then FromWalletOn(op.amended)(p) else 0
    {
      AmendedSale(db, op.amended, op.amendment, p.sale);
    }
    if kind == Ticket {
      SumAdd(db.payments, WalletSpend(db.sales, c, kind), FromWalletOn(op.amended), WalletSpend(sales', c, kind));
    } else {
      SumEq(db.payments, WalletSpend(sales', c, kind), WalletSpend(db.sales, c, kind));
    }
  }

  /**
   * Nor does anything guard a ticket's change of hands: it leaves its new owner's wallet
   * overdrawn exactly when that wallet held less than was paid for the ticket from wallets.
   */
  lemma HandOverOverdrawsIff(db: Db, op: Op, c: nat)
    requires WellFormed(db) && HandsOver(db, op, c)
    ensures !Solvent(Apply(db, op).value, c) <==> WalletBalance(db, c) < WalletTaken(db, op.amended)
  {
    HandedSpend(db, op, c, Ticket);
    HandedSpend(db, op, c, Visa);
    HandedSpend(db, op, c, Hajj);
    HandedSpend(db, op, c, Tour);
    HandedSpend(db, op, c, Hotel);
  }

  /** The two calls that can, when they do. */
  predicate Overdraws(db: Db, op: Op, c: nat) {
    || (op.Uncollect? && Apply(db, op).Ok? && WalletBalance(db, c) < Brought(db, op.receipt, c))
    || (HandsOver(db, op, c) && WalletBalance(db, c) < WalletTaken(db, op.amended))
  }

  lemma PayKeepsSolvent(db: Db, r: PayRequest, c: nat)
    requires WellFormed(db) && Solvent(db, c) && RecordPayment(db, r).Ok?
    ensures Solvent(RecordPayment(db, r).value, c)
  {
    CommitKeepsSolvent(db, r, c);
  }

  lemma OthersKeepSolvent(db: Db, op: Op, c: nat)
    requires WellFormed(db) && Solvent(db, c) && IsWhole(op) && Apply(db, op).Ok? && !op.Uncollect? && !HandsOver(db, op, c)
    ensures Solvent(Apply(db, op).value, c)
  {
    WholeKeepsWallet(db, op, c);
  }

  /** One call: it leaves a wallet overdrawn if and only if it is one of those two at such a moment. */
  lemma CallOverdrawsIff(db: Db, op: Op, c: nat)
    requires WellFormed(db) && Solvent(db, c)
    ensures Solvent(After(db, op), c) <==> !Overdraws(db, op, c)
  {
    if Apply(db, op).Ok? {
      if op.Uncollect? {
        UncollectOverdrawsIff(db, op.receipt, c);
      } else if HandsOver(db, op, c) {
        HandOverOverdrawsIff(db, op, c);
      } else if op.Pay? {
        PayKeepsSolvent(db, op.pay, c);
      } else if IsWhole(op) {
        OthersKeepSolvent(db, op, c);
      }
    }
  }

  predicate AlwaysSolvent(db: Db, ops: seq<Op>, c: nat) {
    Solvent(Run(db, ops), c) && (ops != [] ==> AlwaysSolvent(db, ops[..|ops| - 1], c))
  }

  predicate NeverOverdraws(db: Db, ops: seq<Op>, c: nat) {
    ops == [] || (NeverOverdraws(db, ops[..|ops| - 1], c) && !Overdraws(Run(db, ops[..|ops| - 1]), ops[|ops| - 1], c))
  }

  /**
   * Over any run of whole calls of every kind, a wallet is never spent beyond what was paid
   * in, if and only if no call deletes a receipt it cannot spare or hands its customer a
   * ticket it cannot cover.
   */
  lemma {:induction false} WholeCallsOverdrawIff(db: Db, ops: seq<Op>, c: nat)
    requires WellFormed(db) && Solvent(db, c)
    ensures AlwaysSolvent(db, ops, c) <==> NeverOverdraws(db, ops, c)
  {
    if ops != [] {
      var init := ops[..|ops| - 1];
      WholeCallsOverdrawIff(db, init, c);
      if AlwaysSolvent(db, init, c) {
        RunsKeepRows(db, init);
        CallOverdrawsIff(Run(db, init), ops[|ops| - 1], c);
      }
    }
  }
}
