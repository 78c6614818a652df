/**
 * A payment that nothing comes between: its statements, one after another, end exactly
 * as the whole call does, in its rows or in its error.
 */
module ProtocolAlone {
  import opened Wrappers
  import opened Books
  import opened Calls
  import opened Protocol
  import opened ProtocolSafety
  import opened ProtocolLocks

  /** One payment with its locks, and nobody else. */
  function Alone(db: Db, r: PayRequest, at: PayStep, locks: map<Lock, nat>): State { State(db, [Paying(r, at)], locks) }

  /** Where the whole call leaves the books and the payment. */
  function Ends(db: Db, r: PayRequest): State {
    match RecordPayment(db, r)
    case Ok(after) => State(after, [Paying(r, PayStep.Settled)], map[])
    case Err(e) => State(db, [Paying(r, Refused(e))], map[])
  }

  predicate Payer(db: Db, r: PayRequest, payer: Option<nat>) {
    if r.fromWallet then LiveSale(db, r.sale) && payer == Some(db.sales[r.sale].customer) && LiveCustomer(db, db.sales[r.sale].customer)
    else payer.None?
  }

  /** Everything checked so far is so, and everything read so far is what the rows say. */
  predicate InStep(db: Db, r: PayRequest, at: PayStep) {
    && r.amount > 0 && (r.fromWallet || r.account.Some?)
    && match at
       case ReadOwner => r.fromWallet
       case LockCustomer(c) => r.fromWallet && LiveSale(db, r.sale) && c == db.sales[r.sale].customer
       case LockSale(payer) => Payer(db, r, payer)
       case ReRead(payer) => LiveSale(db, r.sale) && Payer(db, r, payer)
       case SumWallet(payee, charge, todo, paidIn, usedUp) =>
         && Payer(db, r, Some(payee)) && charge == db.sales[r.sale].price.Charge() && todo <= WALLET_QUERIES
         && paidIn == (if Receipts in todo then 0 else PaidIn(db.receipts, payee)) && usedUp == AnsweredSpend(db, payee, todo)
       case CheckAccount(charge) => !r.fromWallet && LiveSale(db, r.sale) && charge == db.sales[r.sale].price.Charge()
       case SumPaid(charge) => LiveSale(db, r.sale) && charge == db.sales[r.sale].price.Charge() && Funded(db, r)
       case InsertPayment => RecordPayment(db, r).Ok?
       case PostPayment => !r.fromWallet && RecordPayment(db, r).Ok?
       case CommitPayment => RecordPayment(db, r).Ok?
       case _ => false
  }

  /** The locks it holds at this point, all its own. */
  predicate Holding(at: PayStep, locks: map<Lock, nat>) {
    && (forall l :: l in locks ==> locks[l] == 0)
    && (at.ReadOwner? || at.LockCustomer? ==> locks == map[])
    && (at.LockSale? ==> forall l :: l in locks ==> l.CustomerLock?)
  }

  /** The locks after the statement. */
  function LocksAfter(db: Db, r: PayRequest, at: PayStep, locks: map<Lock, nat>): map<Lock, nat> {
    var wanted := Wants(db, Paying(r, at));
    if wanted.Some? then locks[wanted.value := 0] else locks
  }

  lemma StepIsRight(db: Db, r: PayRequest, at: PayStep)
    requires InStep(db, r, at) && (at.SumWallet? ==> at.todo == {})
    ensures var next := NextPayStep(db, r, at);
            match next
            case Refused(e) => RecordPayment(db, r) == Err(e)
            case Settled => at.CommitPayment?
            case _ => InStep(db, r, next)
  {
  }

  /** One statement: to the next point, or to the end. */
  lemma StepAlone(db: Db, r: PayRequest, at: PayStep, locks: map<Lock, nat>)
    requires InStep(db, r, at) && Holding(at, locks) && (at.SumWallet? ==> at.todo == {})
    ensures CanAdvance(Alone(db, r, at, locks), 0)
    ensures var s, next := AdvanceTo(Alone(db, r, at, locks), 0), NextPayStep(db, r, at);
            if next.Refused? || next.Settled? then s == Ends(db, r)
            else s == Alone(db, r, next, LocksAfter(db, r, at, locks)) && InStep(db, r, next) && Holding(next, LocksAfter(db, r, at, locks))
  {
    var next, after := NextPayStep(db, r, at), LocksAfter(db, r, at, locks);
    StepIsRight(db, r, at);
    assert [Paying(r, at)][0 := Paying(r, next)] == [Paying(r, next)];
    assert Release(after, 0) == map[];
  }

  /** One of the wallet's sums answered. */
  lemma AnswerAlone(db: Db, r: PayRequest, at: PayStep, locks: map<Lock, nat>, q: Query)
    requires InStep(db, r, at) && Holding(at, locks) && at.SumWallet? && q in at.todo
    ensures Next(Alone(db, r, at, locks), Answer(0, q)) == Some(Alone(db, r, AnswerWallet(db, at, q), locks))
    ensures InStep(db, r, AnswerWallet(db, at, q)) && Holding(AnswerWallet(db, at, q), locks)
  {
    assert [Paying(r, at)][0 := Paying(r, AnswerWallet(db, at, q))] == [Paying(r, AnswerWallet(db, at, q))];
    if q.Spend? {
      AnsweredOneMore(db, at.payee, at.todo, q.kind);
    }
  }

  lemma Onward(s: State, e: Event, s1: State, events: seq<Event>, end: State)
    requires Next(s, e) == Some(s1) && Reaches(s1, events, end)
    ensures Reaches(s, [e] + events, end)
  {
    assert ([e] + events)[1..] == events;
  }

  lemma {:induction false} FinishesAlone(db: Db, r: PayRequest, at: PayStep, locks: map<Lock, nat>) returns (events: seq<Event>)
    requires InStep(db, r, at) && Holding(at, locks)
    ensures Reaches(Alone(db, r, at, locks), events, Ends(db, r))
    decreases StepsLeft(Paying(r, at))
  {
    var s := Alone(db, r, at, locks);
    if at.SumWallet? && at.todo != {} {
      var q :| q in at.todo;
      AnswerAlone(db, r, at, locks, q);
      assert |at.todo - {q}| == |at.todo| - 1;
      events := FinishesAlone(db, r, AnswerWallet(db, at, q), locks);
      Onward(s, Answer(0, q), Alone(db, r, AnswerWallet(db, at, q), locks), events, Ends(db, r));
      events := [Answer(0, q)] + events;
    } else {
      var next := NextPayStep(db, r, at);
      StepAlone(db, r, at, locks);
      StatementUsesOneUp(db, Paying(r, at));
      if next.Refused? || next.Settled? {
        events := [];
      } else {
        events := FinishesAlone(db, r, next, LocksAfter(db, r, at, locks));
      }
      Onward(s, Advance(0), AdvanceTo(s, 0), events, Ends(db, r));
      events := [Advance(0)] + events;
    }
  }

  /** A payment left alone comes to its end, and that is what the whole call answers and leaves. */
  lemma PaymentAlone(db: Db, r: PayRequest) returns (events: seq<Event>)
    ensures Reaches(Start(db), events, Ends(db, r))
  {
    var begun := StartPayment(r);
    assert [] + [begun] == [begun];
    if begun.Finished() {
      events := [];
    } else {
      events := FinishesAlone(db, r, begun.at, map[]);
    }
    Onward(Start(db), BeginPayment(r), State(db, [begun], map[]), events, Ends(db, r));
    events := [BeginPayment(r)] + events;
  }

  /* ------------------------------ transfers ----------------------------- */

  /** Everything a transfer has checked so far is so. */
  predicate MoveInStep(db: Db, r: TransferRequest, next: MoveStep) {
    && r.amount > 0 && r.source != r.target && !next.Moved? && !next.Declined?
    && (!next.LockSource? ==> LiveAccount(db, r.source))
    && (!next.LockSource? && !next.ReadBalance? ==> Balance(db.postings, r.source) >= r.amount)
    && (!next.LockSource? && !next.ReadBalance? && !next.CheckSource? ==> Postable(db, r.source))
    && (next.InsertTransfer? || next.PostOut? || next.PostIn? || next.CommitTransfer? ==> Postable(db, r.target))
  }

  function MoveEnds(db: Db, r: TransferRequest): State {
    match CreateTransfer(db, r)
    case Ok(after) => State(after, [Moving(r, Moved)], map[])
    case Err(e) => State(db, [Moving(r, Declined(e))], map[])
  }

  lemma MoveStepAlone(db: Db, r: TransferRequest, at: MoveStep, locks: map<Lock, nat>)
    requires MoveInStep(db, r, at) && (forall l :: l in locks ==> locks[l] == 0) && (at.LockSource? ==> locks == map[])
    ensures var s, next := State(db, [Moving(r, at)], locks), NextMoveStep(db, r, at);
            && CanAdvance(s, 0)
            && if next.Declined? || next.Moved? then AdvanceTo(s, 0) == MoveEnds(db, r)
               else AdvanceTo(s, 0) == State(db, [Moving(r, next)], AdvanceTo(s, 0).locks) && MoveInStep(db, r, next)
                    && forall l :: l in AdvanceTo(s, 0).locks ==> AdvanceTo(s, 0).locks[l] == 0
  {
    var next := NextMoveStep(db, r, at);
    assert [Moving(r, at)][0 := Moving(r, next)] == [Moving(r, next)];
    if next.Declined? || next.Moved? {
      assert AdvanceTo(State(db, [Moving(r, at)], locks), 0).locks == map[];
    }
  }

  lemma {:induction false} MoveFinishesAlone(db: Db, r: TransferRequest, at: MoveStep, locks: map<Lock, nat>) returns (events: seq<Event>)
    requires MoveInStep(db, r, at) && (forall l :: l in locks ==> locks[l] == 0) && (at.LockSource? ==> locks == map[])
    ensures Reaches(State(db, [Moving(r, at)], locks), events, MoveEnds(db, r))
    decreases StepsLeft(Moving(r, at))
  {
    var s, next := State(db, [Moving(r, at)], locks), NextMoveStep(db, r, at);
    MoveStepAlone(db, r, at, locks);
    if next.Declined? || next.Moved? {
      events := [];
    } else {
      StatementUsesOneUp(db, Moving(r, at));
      events := MoveFinishesAlone(db, r, next, AdvanceTo(s, 0).locks);
    }
    Onward(s, Advance(0), AdvanceTo(s, 0), events, MoveEnds(db, r));
    events := [Advance(0)] + events;
  }

  /** A transfer left alone likewise. */
  lemma TransferAlone(db: Db, r: TransferRequest) returns (events: seq<Event>)
    ensures Reaches(Start(db), events, MoveEnds(db, r))
  {
    var begun := StartTransfer(r);
    assert [] + [begun] == [begun];
    if begun.Finished() {
      events := [];
    } else {
      events := MoveFinishesAlone(db, r, begun.next, map[]);
    }
    Onward(Start(db), BeginTransfer(r), State(db, [begun], map[]), events, MoveEnds(db, r));
    events := [BeginTransfer(r)] + events;
  }

  /** One more event after a run. */
  lemma {:induction false} ReachesThen(s: State, events: seq<Event>, s1: State, e: Event)
    requires Reaches(s, events, s1) && Next(s1, e).Some?
    ensures Reaches(s, events + [e], Next(s1, e).value)
    decreases |events|
  {
    if events == [] {
      assert events + [e] == [e];
    } else {
      assert (events + [e])[1..] == events[1..] + [e];
      ReachesThen(Next(s, events[0]).value, events[1..], s1, e);
    }
  }
}
