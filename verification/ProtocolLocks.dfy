/**
 * The explicit row locks cannot deadlock, and nobody is ever stuck for good.
 *
 * A transaction asks for a lock while holding at most one other, and then only
 * the customer's before the sale's; so a chain of waits ends after two.
 */
module ProtocolLocks {
  import opened Books
  import opened Calls
  import opened Protocol
  import opened ProtocolSafety

  /* --------------------- the lock table stays right --------------------- */

  lemma AdvanceKeepsLocks(s: State, t: nat)
    requires LockInv(s) && CanAdvance(s, t)
    ensures LockInv(AdvanceTo(s, t))
  {
    var s' := AdvanceTo(s, t);
    AdvanceLocks(s, t);
    forall u | 0 <= u < |s'.txns| ensures Shaped(s'.db, s'.txns[u]) {
      assert Shaped(s.db, s.txns[u]);
      if u == t { StepLocks(s.db, s.txns[t]); }
    }
  }

  lemma AnswerKeepsLocks(s: State, t: nat, q: Query)
    requires LockInv(s) && CanAnswer(s, t, q)
    ensures LockInv(Next(s, Answer(t, q)).value)
  {
    var s' := Next(s, Answer(t, q)).value;
    AnswerLocks(s, t, q);
    forall u | 0 <= u < |s'.txns| ensures Shaped(s'.db, s'.txns[u]) {
      assert Shaped(s.db, s.txns[u]);
    }
  }

  lemma BeginKeepsLocks(s: State, txn: Txn)
    requires LockInv(s) && Holds(s.db, txn) == {} && Shaped(s.db, txn)
    ensures LockInv(s.(txns := s.txns + [txn]))
  {
    var s' := s.(txns := s.txns + [txn]);
    assert forall u :: 0 <= u < |s.txns| ==> s'.txns[u] == s.txns[u];
  }

  /** No call removes a sale, and only an amendment of the sale itself gives it another owner. */
  lemma OwnersStay(db: Db, op: Op, sale: nat)
    requires IsWhole(op) && Apply(db, op).Ok?
    ensures |db.sales| <= |Apply(db, op).value.sales|
    ensures sale < |db.sales| && !(op.Amend? && op.amended == sale) ==> OwnerOf(Apply(db, op).value, sale) == OwnerOf(db, sale)
  {
  }

  /** What a transaction holds does not change under it: its sale's own lock keeps an amendment away. */
  lemma SameOwnersSameHolds(db: Db, db': Db, txn: Txn)
    requires Shaped(db, txn) && |db.sales| <= |db'.sales|
    requires txn.Paying? && HasSale(txn.at) ==> OwnerOf(db', txn.pay.sale) == OwnerOf(db, txn.pay.sale)
    ensures Shaped(db', txn) && Holds(db', txn) == Holds(db, txn)
  {
  }

  lemma OutsideKeepsLocks(s: State, op: Op)
    requires LockInv(s) && Next(s, Outside(op)).Some?
    ensures LockInv(Next(s, Outside(op)).value)
  {
    var db' := Apply(s.db, op).value;
    OwnersStay(s.db, op, 0);
    forall u | 0 <= u < |s.txns| ensures Shaped(db', s.txns[u]) && Holds(db', s.txns[u]) == Holds(s.db, s.txns[u]) {
      assert Shaped(s.db, s.txns[u]);
      if s.txns[u].Paying? && HasSale(s.txns[u].at) {
        assert SaleLock(s.txns[u].pay.sale) in Holds(s.db, s.txns[u]);
        OwnersStay(s.db, op, s.txns[u].pay.sale);
      }
      SameOwnersSameHolds(s.db, db', s.txns[u]);
    }
    SameHoldsSameLocks(s, db');
  }

  lemma WritePriceKeepsLocks(s: State, sale: nat, sell: int)
    requires LockInv(s) && Next(s, WritePrice(sale, sell)).Some?
    ensures LockInv(Next(s, WritePrice(sale, sell)).value)
  {
    var db' := Rewritten(s.db, sale, sell);
    forall u | 0 <= u < |s.txns| ensures Shaped(db', s.txns[u]) && Holds(db', s.txns[u]) == Holds(s.db, s.txns[u]) {
      assert Shaped(s.db, s.txns[u]);
      SameOwnersSameHolds(s.db, db', s.txns[u]);
    }
    SameHoldsSameLocks(s, db');
  }

  lemma NextKeepsLocks(s: State, e: Event)
    requires LockInv(s) && Next(s, e).Some?
    ensures LockInv(Next(s, e).value)
  {
    match e {
      case BeginPayment(r) => BeginKeepsLocks(s, StartPayment(r));
      case BeginTransfer(r) => BeginKeepsLocks(s, StartTransfer(r));
      case Advance(t) => AdvanceKeepsLocks(s, t);
      case Answer(t, q) => AnswerKeepsLocks(s, t, q);
      case Outside(op) => OutsideKeepsLocks(s, op);
      case WritePrice(sale, sell) => WritePriceKeepsLocks(s, sale, sell);
    }
  }

  lemma {:induction false} RunKeepsLocks(s: State, events: seq<Event>, s': State)
    requires LockInv(s) && Reaches(s, events, s')
    ensures LockInv(s')
    decreases |events|
  {
    if events != [] {
      NextKeepsLocks(s, events[0]);
      RunKeepsLocks(Next(s, events[0]).value, events[1..], s');
    }
  }

  /* ------------------------------- waiting ------------------------------ */

  predicate WaitsFor(s: State, t: nat, u: nat) {
    && t < |s.txns| && u < |s.txns|
    && Wants(s.db, s.txns[t]).Some?
    && Wants(s.db, s.txns[t]).value in s.locks
    && s.locks[Wants(s.db, s.txns[t]).value] == u
  }

  /** Consecutive transactions, each waiting for the next. */
  predicate WaitChain(s: State, path: seq<nat>) { forall i :: 0 <= i < |path| - 1 ==> WaitsFor(s, path[i], path[i + 1]) }

  /** Whoever holds what a payment holding a lock waits for holds its sale, and waits for nobody. */
  lemma HolderOfSecondLockWaitsForNobody(s: State, t: nat, u: nat)
    requires LockInv(s) && WaitsFor(s, t, u) && Holds(s.db, s.txns[t]) != {}
    ensures forall v :: !WaitsFor(s, u, v)
  {
    assert SaleLock(s.txns[t].pay.sale) in Holds(s.db, s.txns[u]);
  }

  lemma WaitChainsEndAfterTwo(s: State, path: seq<nat>)
    requires LockInv(s) && WaitChain(s, path)
    ensures |path| <= 3
  {
    if |path| > 3 {
      assert WaitsFor(s, path[0], path[1]);
      assert WaitsFor(s, path[1], path[2]);
      assert WaitsFor(s, path[2], path[3]);
      HolderOfSecondLockWaitsForNobody(s, path[1], path[2]);
    }
  }

  lemma NoWaitCycle(s: State, path: seq<nat>)
    requires LockInv(s) && |path| >= 2 && WaitChain(s, path)
    ensures path[0] != path[|path| - 1]
  {
    WaitChainsEndAfterTwo(s, path);
    assert WaitsFor(s, path[0], path[1]);
    assert |path| == 3 ==> WaitsFor(s, path[1], path[2]);
  }

  ghost predicate CanStep(s: State, t: nat) { CanAdvance(s, t) || exists q :: CanAnswer(s, t, q) }

  lemma UnblockedCanStep(s: State, t: nat)
    requires t < |s.txns| && !s.txns[t].Finished()
    requires forall u :: !WaitsFor(s, t, u)
    requires LockInv(s)
    ensures CanStep(s, t)
  {
    if Summing(s.txns[t]) {
      var q :| q in s.txns[t].at.todo;
      assert CanAnswer(s, t, q);
    } else if Wants(s.db, s.txns[t]).Some? && Wants(s.db, s.txns[t]).value in s.locks {
      assert WaitsFor(s, t, s.locks[Wants(s.db, s.txns[t]).value]);
      assert false;
    }
  }

  /** Follow the waits from any unfinished transaction: at most two hops away somebody can move. */
  lemma SomeoneCanStep(s: State, t: nat) returns (u: nat)
    requires LockInv(s) && t < |s.txns| && !s.txns[t].Finished()
    ensures u < |s.txns| && !s.txns[u].Finished() && CanStep(s, u)
    ensures u == t || WaitsFor(s, t, u) || exists v :: WaitsFor(s, t, v) && WaitsFor(s, v, u)
  {
    u := t;
    if v: nat :| WaitsFor(s, t, v) {
      u := v;
      if w: nat :| WaitsFor(s, v, w) {
        u := w;
        assert Holds(s.db, s.txns[v]) != {};
        HolderOfSecondLockWaitsForNobody(s, v, w);
      }
    }
    UnblockedCanStep(s, u);
  }

  /** How many statements a transaction has left at most. */
  function StepsLeft(txn: Txn): nat {
    match txn
    case Paying(_, ReadOwner) => 15
    case Paying(_, LockCustomer(_)) => 14
    case Paying(_, LockSale(_)) => 13
    case Paying(_, ReRead(_)) => 12
    case Paying(_, SumWallet(_, _, todo, _, _)) => 5 + |todo|
    case Paying(_, CheckAccount(_)) => 5
    case Paying(_, SumPaid(_)) => 4
    case Paying(_, InsertPayment) => 3
    case Paying(_, PostPayment) => 2
    case Paying(_, CommitPayment) => 1
    case Moving(_, LockSource) => 8
    case Moving(_, ReadBalance) => 7
    case Moving(_, CheckSource) => 6
    case Moving(_, CheckTarget) => 5
    case Moving(_, InsertTransfer) => 4
    case Moving(_, PostOut) => 3
    case Moving(_, PostIn) => 2
    case Moving(_, CommitTransfer) => 1
    case _ => 0
  }

  lemma StatementUsesOneUp(db: Db, txn: Txn)
    requires !txn.Finished() && !Summing(txn)
    ensures StepsLeft(NextStep(db, txn)) < StepsLeft(txn)
  {
    assert |WALLET_QUERIES| == 6;
  }

  /** Every step a transaction takes uses one up and leaves every other transaction where it was. */
  lemma StepsRunOut(s: State, e: Event)
    requires (e.Advance? || e.Answer?) && Next(s, e).Some?
    ensures var s' := Next(s, e).value;
            && |s'.txns| == |s.txns|
            && StepsLeft(s'.txns[e.txn]) < StepsLeft(s.txns[e.txn])
            && forall t :: 0 <= t < |s.txns| && t != e.txn ==> s'.txns[t] == s.txns[t]
  {
    if e.Advance? {
      StatementUsesOneUp(s.db, s.txns[e.txn]);
    } else {
      assert |s.txns[e.txn].at.todo - {e.query}| == |s.txns[e.txn].at.todo| - 1;
    }
  }

  /**
   * Deadlock freedom and progress, in every reachable state of any number of
   * payments and transfers, with calls of any kind in between and whatever the rows.
   */
  lemma LocksNeverDeadlock(db: Db, events: seq<Event>, s: State)
    requires Reaches(Start(db), events, s)
    ensures forall path :: WaitChain(s, path) ==> |path| <= 3
    ensures forall path :: |path| >= 2 && WaitChain(s, path) ==> path[0] != path[|path| - 1]
    ensures (exists t :: 0 <= t < |s.txns| && !s.txns[t].Finished())
        ==> exists u :: 0 <= u < |s.txns| && !s.txns[u].Finished() && CanStep(s, u)
  {
    RunKeepsLocks(Start(db), events, s);
    forall path | WaitChain(s, path) ensures |path| <= 3 {
      WaitChainsEndAfterTwo(s, path);
    }
    forall path | |path| >= 2 && WaitChain(s, path) ensures path[0] != path[|path| - 1] {
      NoWaitCycle(s, path);
    }
    if t :| 0 <= t < |s.txns| && !s.txns[t].Finished() {
      var u := SomeoneCanStep(s, t);
    }
  }
}
