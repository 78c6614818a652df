/**
 * Interleaved transactions leave the books as the committed calls, made whole and
 * one after another in commit order, would: and each of those calls is accepted.
 */
module ProtocolSerial {
  import opened Wrappers
  import opened Books
  import opened Calls
  import opened Protocol
  import opened ProtocolSafety
  import opened TransferSafety

  /** The call an event commits, if it commits one. */
  function CommittedBy(s: State, e: Event): seq<Op> {
    match e
    case Advance(t) =>
      if t < |s.txns| && s.txns[t].Committing()
      then [if s.txns[t].Paying? then Pay(s.txns[t].pay) else Move(s.txns[t].move)] else []
    case Outside(op) => [op]
    case _ => []
  }

  /** The calls these events commit, in commit order. */
  function Committed(s: State, events: seq<Event>): seq<Op>
    decreases |events|
  {
    if events == [] then []
    else CommittedBy(s, events[0]) + if Next(s, events[0]).Some? then Committed(Next(s, events[0]).value, events[1..]) else []
  }

  /** These calls, made one after another, are all accepted and end here. */
  predicate Replays(db: Db, ops: seq<Op>, db': Db)
    decreases |ops|
  {
    if ops == [] then db' == db else Apply(db, ops[0]).Ok? && Replays(Apply(db, ops[0]).value, ops[1..], db')
  }

  lemma {:induction false} ReplaysIsRun(db: Db, ops: seq<Op>, db': Db)
    requires Replays(db, ops, db')
    ensures Run(db, ops) == db'
    decreases |ops|
  {
    if ops != [] {
      ReplaysIsRun(Apply(db, ops[0]).value, ops[1..], db');
      RunConcat(db, [ops[0]], ops[1..]);
      assert ops == [ops[0]] + ops[1..];
    }
  }

  predicate OnlyPayments(s: State) { forall t :: 0 <= t < |s.txns| ==> s.txns[t].Paying? }

  /** One event's commit is the call `CommittedBy` names, accepted on the rows of that moment. */
  lemma CommitIsItsCall(s: State, e: Event)
    requires Inv(s) && Next(s, e).Some? && !e.WritePrice? && (OnlyPayments(s) || (MovesFunded(s) && MovesUsable(s)))
    ensures var s' := Next(s, e).value;
            if CommittedBy(s, e) == [] then s'.db == s.db
            else |CommittedBy(s, e)| == 1 && Apply(s.db, CommittedBy(s, e)[0]) == Ok(s'.db)
  {
    if e.Advance? && s.txns[e.txn].Committing() {
      if s.txns[e.txn].Paying? {
        assert TxnOk(s.db, s.txns[e.txn]);
      } else {
        TransferCommitIsOneCall(s, e.txn);
      }
    }
  }

  lemma PrependCommit(s: State, e: Event, ops: seq<Op>, db': Db)
    requires Inv(s) && Next(s, e).Some? && !e.WritePrice? && (OnlyPayments(s) || (MovesFunded(s) && MovesUsable(s)))
    requires Replays(Next(s, e).value.db, ops, db')
    ensures Replays(s.db, CommittedBy(s, e) + ops, db')
  {
    CommitIsItsCall(s, e);
    if CommittedBy(s, e) == [] {
      assert [] + ops == ops;
    } else {
      assert (CommittedBy(s, e) + ops)[1..] == ops;
    }
  }

  lemma {:induction false} PaymentsReplay(s: State, events: seq<Event>, s': State)
    requires Inv(s) && OnlyPayments(s) && Reaches(s, events, s') && AllQuiet(events)
    requires forall e :: e in events ==> !e.BeginTransfer?
    ensures Replays(s.db, Committed(s, events), s'.db)
    decreases |events|
  {
    if events != [] {
      var next := Next(s, events[0]).value;
      assert QuietEvent(events[0]) && forall x :: x in events[1..] ==> x in events;
      NextKeeps(s, events[0]);
      PaymentsReplay(next, events[1..], s');
      PrependCommit(s, events[0], Committed(next, events[1..]), s'.db);
    }
  }

  lemma {:induction false} EverythingReplays(s: State, events: seq<Event>, s': State)
    requires Inv(s) && Sane(s) && MovesFunded(s) && MovesUsable(s) && Reaches(s, events, s') && AllQuiet(events)
    requires forall e :: e in events ==> TakesNothingOut(e)
    ensures Replays(s.db, Committed(s, events), s'.db)
    decreases |events|
  {
    if events != [] {
      var next := Next(s, events[0]).value;
      assert QuietEvent(events[0]) && TakesNothingOut(events[0]) && forall x :: x in events[1..] ==> x in events;
      NextKeeps(s, events[0]);
      NextKeepsSane(s, events[0]);
      NextKeepsFunded(s, events[0]);
      NextKeepsUsable(s, events[0]);
      EverythingReplays(next, events[1..], s');
      PrependCommit(s, events[0], Committed(next, events[1..]), s'.db);
    }
  }

  /**
   * Over every interleaving of payments with quiet calls, the committed rows at the end
   * are those of the committed calls made whole, one after another, in commit order.
   */
  lemma PaymentsAreSerial(db: Db, events: seq<Event>, s: State)
    requires WellFormed(db) && Reaches(Start(db), events, s) && AllQuiet(events)
    requires forall e :: e in events ==> !e.BeginTransfer?
    ensures Replays(db, Committed(Start(db), events), s.db)
    ensures Run(db, Committed(Start(db), events)) == s.db
  {
    PaymentsReplay(Start(db), events, s);
    ReplaysIsRun(db, Committed(Start(db), events), s.db);
  }

  /** With transfers in it too, as long as no call takes money out of an account. */
  lemma TransfersAreSerial(db: Db, events: seq<Event>, s: State)
    requires WellFormed(db) && Reaches(Start(db), events, s) && AllQuiet(events)
    requires forall e :: e in events ==> TakesNothingOut(e)
    ensures Replays(db, Committed(Start(db), events), s.db)
    ensures Run(db, Committed(Start(db), events)) == s.db
  {
    EverythingReplays(Start(db), events, s);
    ReplaysIsRun(db, Committed(Start(db), events), s.db);
  }
}
