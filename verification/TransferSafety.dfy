/**
 * Transfers under the same interleaving: an account never goes negative although
 * only the source is locked.
 *
 * Money coming in can only help a check already made, and money going out needs
 * the source's lock, unless it goes out by a call that asks nothing. No run here has
 * one of those: `Undo.DeletePaymentTakesBack` and its neighbours say exactly when a
 * deletion leaves an account below zero, and an expense may on purpose.
 */
module TransferSafety {
  import opened Wrappers
  import opened Rows
  import opened Books
  import opened Calls
  import opened Protocol
  import opened ProtocolSafety
  import opened ProtocolLocks

  /** The calls that take money out of an account without asking what it holds. */
  predicate TakesOut(op: Op) {
    op.Unpay? || op.RemoveSale? || op.Uncollect? || op.Unmove? || (op.Enter? && op.kind != Invested) || op.Unenter?
  }

  /** Events that take nothing out of an account except through a transfer's own check. */
  predicate TakesNothingOut(e: Event) { e.Outside? ==> !TakesOut(e.op) }

  predicate Over(next: MoveStep) { next.Moved? || next.Declined? }

  /** From its balance check on, a transfer may count on the money still being there. */
  predicate MoveFunded(db: Db, r: TransferRequest, next: MoveStep) {
    Over(next) || (
      && r.amount > 0 && r.source != r.target
      && (!next.LockSource? ==> r.source < |db.accounts|)
      && (!next.LockSource? && !next.ReadBalance? ==> r.amount <= Balance(db.postings, r.source)))
  }

  /** And, while nobody switches an account off or deletes one, on both accounts taking it. */
  predicate MoveUsable(db: Db, r: TransferRequest, next: MoveStep) {
    Over(next) || (
      && (!next.LockSource? ==> LiveAccount(db, r.source))
      && (next.CheckTarget? || next.InsertTransfer? || next.PostOut? || next.PostIn? || next.CommitTransfer? ==>
            Postable(db, r.source))
      && (next.InsertTransfer? || next.PostOut? || next.PostIn? || next.CommitTransfer? ==> Postable(db, r.target)))
  }

  /** Locks are right, and no payment under way is of nothing or less. */
  ghost predicate Sane(s: State) {
    LockInv(s) && forall t :: 0 <= t < |s.txns| && s.txns[t].Paying? && !s.txns[t].Finished() ==> s.txns[t].pay.amount > 0
  }

  lemma NextKeepsSane(s: State, e: Event)
    requires Sane(s) && Next(s, e).Some?
    ensures Sane(Next(s, e).value)
  {
    NextKeepsLocks(s, e);
  }

  ghost predicate MovesFunded(s: State) {
    forall t :: 0 <= t < |s.txns| && s.txns[t].Moving? ==> MoveFunded(s.db, s.txns[t].move, s.txns[t].next)
  }

  ghost predicate MovesUsable(s: State) {
    forall t :: 0 <= t < |s.txns| && s.txns[t].Moving? ==> MoveUsable(s.db, s.txns[t].move, s.txns[t].next)
  }

  /** No account row goes away, and this account has at least what it had. */
  predicate Richer(db: Db, db': Db, a: nat) {
    |db.accounts| <= |db'.accounts| && Balance(db.postings, a) <= Balance(db'.postings, a)
  }

  lemma PostingsMove(postings: seq<Posting>, more: seq<Posting>, a: nat)
    ensures Balance(postings + more, a) == Balance(postings, a) + Sum(more, MovedOn(a))
  {
    SumConcat(postings, more, MovedOn(a));
  }

  lemma PaymentMoves(db: Db, p: Payment, a: nat)
    ensures Balance(AddPayment(db, p).postings, a)
         == Balance(db.postings, a) + if !p.fromWallet && p.account == Some(a) then p.amount else 0
  {
    PostingsMove(db.postings, PaymentPostings(p), a);
    if PaymentPostings(p) != [] {
      SumOne(PaymentPostings(p)[0], MovedOn(a));
    }
  }

  lemma TransferMoves(db: Db, t: Transfer, a: nat)
    ensures Balance(AddTransfer(db, t).postings, a)
         == Balance(db.postings, a) + (if t.target == a then t.amount else 0) - (if t.source == a then t.amount else 0)
  {
    PostingsMove(db.postings, TransferPostings(t), a);
    SumTwo(TransferPostings(t)[0], TransferPostings(t)[1], MovedOn(a));
  }

  lemma ReceiptMoves(r: Receipt, a: nat)
    ensures Sum(ReceiptPostings(r), MovedOn(a))
         == (if r.account1 == a then r.amount1 else 0)
          + (if r.account2 == Some(a) && r.amount2 > 0 then r.amount2 else 0)
  {
    if |ReceiptPostings(r)| == 2 {
      SumTwo(ReceiptPostings(r)[0], ReceiptPostings(r)[1], MovedOn(a));
    } else {
      SumOne(ReceiptPostings(r)[0], MovedOn(a));
    }
  }

  /** Deleting an account leaves nothing posted on it, and every other account as it was. */
  lemma CloseMoves(postings: seq<Posting>, closed: nat, a: nat)
    ensures Balance(Where(postings, OffAccount(closed)), a) == if a == closed then 0 else Balance(postings, a)
  {
    var kept: Posting -> int := (p: Posting) => if p.account != closed then MovedOn(a)(p) else 0;
    SumWhere(postings, OffAccount(closed), MovedOn(a), kept);
    if a == closed {
      SumZero(postings, kept);
    } else {
      SumEq(postings, kept, MovedOn(a));
    }
  }

  lemma OutsideEnriches(db: Db, op: Op, a: nat)
    requires IsWhole(op) && !TakesOut(op) && Apply(db, op).Ok? && a < |db.accounts| && !(op.CloseAccount? && op.closed == a)
    ensures Richer(db, Apply(db, op).value, a)
  {
    match op {
      case Collect(r) =>
        PostingsMove(db.postings, ReceiptPostings(NewReceipt(db, r)), a);
        ReceiptMoves(NewReceipt(db, r), a);
      case Enter(b, kind, amount) =>
        PostingsMove(db.postings, FlowPostings(Flow(db.nextId, b, kind, amount)), a);
        SumOne(FlowPostings(Flow(db.nextId, b, kind, amount))[0], MovedOn(a));
      case NewAccount(opening, active) =>
        PostingsMove(db.postings, OpeningPostings(|db.accounts|, opening), a);
        SumZero(OpeningPostings(|db.accounts|, opening), MovedOn(a));
      case CloseAccount(b) => CloseMoves(db.postings, b, a);
      case _ =>
    }
  }

  lemma FundedStable(db: Db, db': Db, r: TransferRequest, next: MoveStep)
    requires MoveFunded(db, r, next)
    requires !next.LockSource? && !Over(next) ==> Richer(db, db', r.source)
    ensures MoveFunded(db', r, next)
  {
  }

  /** A commit enriches every account except the source it locked. */
  lemma CommitEnriches(s: State, t: nat, a: nat)
    requires Sane(s) && MovesFunded(s) && CanAdvance(s, t) && a < |s.db.accounts|
    requires !(s.txns[t].Moving? && s.txns[t].Committing() && s.txns[t].move.source == a)
    ensures Richer(s.db, AdvanceTo(s, t).db, a)
  {
    if s.txns[t].Committing() {
      if s.txns[t].Paying? {
        PaymentMoves(s.db, NewPayment(s.db, s.txns[t].pay), a);
      } else {
        var r := s.txns[t].move;
        TransferMoves(s.db, Transfer(s.db.nextId, r.source, r.target, r.amount), a);
      }
    }
  }

  lemma OthersKeepFunded(s: State, t: nat, u: nat)
    requires Sane(s) && MovesFunded(s) && CanAdvance(s, t) && u < |s.txns| && u != t && s.txns[u].Moving?
    ensures MoveFunded(AdvanceTo(s, t).db, s.txns[u].move, s.txns[u].next)
  {
    var r, next := s.txns[u].move, s.txns[u].next;
    assert MoveFunded(s.db, r, next);
    if !next.LockSource? && !Over(next) {
      assert AccountLock(r.source) in Holds(s.db, s.txns[u]);
      HeldOnce(s, t, u, AccountLock(r.source));
      CommitEnriches(s, t, r.source);
    }
    FundedStable(s.db, AdvanceTo(s, t).db, r, next);
  }

  lemma OwnStepFunded(db: Db, r: TransferRequest, next: MoveStep)
    requires MoveFunded(db, r, next) && !next.CommitTransfer?
    ensures MoveFunded(db, r, NextMoveStep(db, r, next))
  {
  }

  lemma AdvanceKeepsFunded(s: State, t: nat)
    requires Sane(s) && MovesFunded(s) && CanAdvance(s, t)
    ensures MovesFunded(AdvanceTo(s, t))
  {
    var s' := AdvanceTo(s, t);
    forall u | 0 <= u < |s'.txns| && s'.txns[u].Moving? ensures MoveFunded(s'.db, s'.txns[u].move, s'.txns[u].next) {
      if u != t {
        OthersKeepFunded(s, t, u);
      } else if !s.txns[t].Committing() {
        assert MoveFunded(s.db, s.txns[t].move, s.txns[t].next);
        OwnStepFunded(s.db, s.txns[t].move, s.txns[t].next);
      }
    }
  }

  lemma OutsideKeepsFunded(s: State, op: Op, u: nat)
    requires Sane(s) && MovesFunded(s) && Next(s, Outside(op)).Some? && !TakesOut(op) && u < |s.txns| && s.txns[u].Moving?
    ensures MoveFunded(Next(s, Outside(op)).value.db, s.txns[u].move, s.txns[u].next)
  {
    var r, next := s.txns[u].move, s.txns[u].next;
    assert MoveFunded(s.db, r, next);
    if !next.LockSource? && !Over(next) {
      // A deletion of the source waits for us: we hold its row.
      assert AccountLock(r.source) in Holds(s.db, s.txns[u]);
      OutsideEnriches(s.db, op, r.source);
    }
    FundedStable(s.db, Next(s, Outside(op)).value.db, r, next);
  }

  lemma NextKeepsFunded(s: State, e: Event)
    requires Sane(s) && MovesFunded(s) && Next(s, e).Some? && TakesNothingOut(e)
    ensures MovesFunded(Next(s, e).value)
  {
    match e {
      case Advance(t) => AdvanceKeepsFunded(s, t);
      case Outside(op) =>
        forall u | 0 <= u < |s.txns| && s.txns[u].Moving?
          ensures MoveFunded(Next(s, e).value.db, s.txns[u].move, s.txns[u].next)
        {
          OutsideKeepsFunded(s, op, u);
        }
      case _ =>
    }
  }

  /** One event keeps a non-negative account non-negative. */
  lemma NextKeepsNonNegative(s: State, e: Event, a: nat)
    requires Sane(s) && MovesFunded(s) && Next(s, e).Some? && TakesNothingOut(e)
    requires a < |s.db.accounts| && Balance(s.db.postings, a) >= 0
    ensures a < |Next(s, e).value.db.accounts| && Balance(Next(s, e).value.db.postings, a) >= 0
  {
    match e {
      case Advance(t) =>
        if s.txns[t].Moving? && s.txns[t].Committing() && s.txns[t].move.source == a {
          var r := s.txns[t].move;
          assert MoveFunded(s.db, r, s.txns[t].next);
          TransferMoves(s.db, Transfer(s.db.nextId, r.source, r.target, r.amount), a);
        } else {
          CommitEnriches(s, t, a);
        }
      case Outside(op) =>
        if op.CloseAccount? && op.closed == a {
          CloseMoves(s.db.postings, a, a);
        } else {
          OutsideEnriches(s.db, op, a);
        }
      case _ =>
    }
  }

  lemma {:induction false} RunKeepsNonNegative(s: State, events: seq<Event>, s': State, a: nat)
    requires Sane(s) && MovesFunded(s) && Reaches(s, events, s')
    requires forall e :: e in events ==> TakesNothingOut(e)
    requires a < |s.db.accounts| && Balance(s.db.postings, a) >= 0
    ensures Balance(s'.db.postings, a) >= 0
    decreases |events|
  {
    if events != [] {
      assert TakesNothingOut(events[0]);
      NextKeepsSane(s, events[0]);
      NextKeepsFunded(s, events[0]);
      NextKeepsNonNegative(s, events[0], a);
      RunKeepsNonNegative(Next(s, events[0]).value, events[1..], s', a);
    }
  }

  /**
   * Over every interleaving of transfers, payments and calls that take nothing out,
   * an account that starts non-negative stays non-negative, whatever the rows.
   */
  lemma TransfersNeverOverdraw(db: Db, events: seq<Event>, s: State, a: nat)
    requires Reaches(Start(db), events, s)
    requires forall e :: e in events ==> TakesNothingOut(e)
    requires a < |db.accounts| && Balance(db.postings, a) >= 0
    ensures Balance(s.db.postings, a) >= 0
  {
    RunKeepsNonNegative(Start(db), events, s, a);
  }

  /** A quiet event leaves every transfer its accounts. */
  lemma NextKeepsUsable(s: State, e: Event)
    requires MovesUsable(s) && Next(s, e).Some? && QuietEvent(e)
    ensures MovesUsable(Next(s, e).value)
  {
    var s' := Next(s, e).value;
    if e.Outside? {
      QuietGrows(s.db, e.op);
    }
    forall u | 0 <= u < |s'.txns| && s'.txns[u].Moving? ensures MoveUsable(s'.db, s'.txns[u].move, s'.txns[u].next) {
      assert u < |s.txns| && s.txns[u].Moving? ==> MoveUsable(s.db, s.txns[u].move, s.txns[u].next);
    }
  }

  /** A transfer's commit is the whole call made at that instant. */
  lemma TransferCommitIsOneCall(s: State, t: nat)
    requires MovesFunded(s) && MovesUsable(s) && CanAdvance(s, t) && s.txns[t].Moving? && s.txns[t].Committing()
    ensures Apply(s.db, Move(s.txns[t].move)) == Ok(AdvanceTo(s, t).db)
  {
    assert MoveFunded(s.db, s.txns[t].move, s.txns[t].next) && MoveUsable(s.db, s.txns[t].move, s.txns[t].next);
  }
}
