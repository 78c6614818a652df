/**
 * Subscription orders under any interleaving of gateway notifications, retries,
 * checkouts and operators' reviews.
 *
 * A call is a thread that reads an order in one statement and writes it in a
 * later one; other threads run in between. The conditional claim and the renewal
 * it pays for commit together.
 */
module Billing {
  import opened Wrappers
  import opened Rows

  datatype Channel = Gateway | Bkash
  datatype Status = Pending | Success | Failed | Cancelled

  datatype Order = Order(agency: nat, plan: nat, channel: Channel, status: Status, reference: Option<string>)

  /**
   * What has happened to an order: it was claimed as paid, by a review or a notification,
   * and renewed its agency if the plan was found; or its payment was overwritten with a
   * lesser status.
   */
  datatype Fact = Claimed(order: nat, reviewed: bool, renewed: bool) | Overwritten(order: nat)

  /** Where a call stands between two statements. */
  datatype Thread =
    | ReviewRead(order: nat, approve: bool)
    | ReviewClaim(order: nat, approve: bool)
    | IpnRead(order: nat, valid: bool)     // `valid`: the body said so
    | IpnValidate(order: nat)
    | IpnFail(order: nat)
    | IpnClaim(order: nat)
    | RetryRead(order: nat)
    | RetryCancel(order: nat)
    | CheckoutFail(order: nat)             // the gateway could not be reached
    | Done

  /** The validator's answer: unreachable, about no such order, a rejection, or a confirmed payment. */
  datatype Answer = Unreachable | Untied | Rejected | Confirmed

  datatype State = State(orders: seq<Order>, threads: map<nat, Thread>, facts: seq<Fact>)

  datatype Event =
    | NewOrder(order: Order)
    | Begin(id: nat, call: Thread)
    | Step(id: nat, answer: Answer, planFound: bool)

  const START := State([], map[], [])

  /** An unconditional status update, as FAILED and CANCELLED are written. */
  function Write(s: State, o: nat, status: Status): State
    requires o < |s.orders|
  {
    s.(orders := s.orders[o := s.orders[o].(status := status)],
       facts := if s.orders[o].status == Success && status != Success then s.facts + [Overwritten(o)] else s.facts)
  }

  /** `updateMany where status = PENDING`, then the renewal if it was approved. */
  function Review(s: State, o: nat, approve: bool): State
    requires o < |s.orders|
  {
    if s.orders[o].status != Pending then s
    else s.(orders := s.orders[o := s.orders[o].(status := if approve then Success else Failed)],
            facts := if approve then s.facts + [Claimed(o, true, true)] else s.facts)
  }

  /** `updateMany where status <> SUCCESS`, then the renewal if the plan is still there. */
  function Claim(s: State, o: nat, planFound: bool): State
    requires o < |s.orders|
  {
    if s.orders[o].status == Success then s
    else s.(orders := s.orders[o := s.orders[o].(status := Success)],
            facts := s.facts + [Claimed(o, false, planFound)])
  }

  function Park(s: State, id: nat, t: Thread): State { s.(threads := s.threads[id := t]) }

  function Advance(s: State, id: nat, t: Thread, answer: Answer, planFound: bool): State
    requires !t.Done? && t.order < |s.orders|
  {
    var order := s.orders[t.order];
    match t
    case ReviewRead(o, approve) =>
      Park(s, id, if order.channel == Bkash && order.status == Pending then ReviewClaim(o, approve) else Done)
    case ReviewClaim(o, approve) => Park(Review(s, o, approve), id, Done)
    case IpnRead(o, valid) =>
      Park(s, id, if order.status == Success then Done else if valid then IpnValidate(o) else IpnFail(o))
    case IpnValidate(o) =>
      Park(s, id, match answer
                  case Unreachable => IpnFail(o)
                  case Untied => Done
                  case Rejected => IpnFail(o)
                  case Confirmed => IpnClaim(o))
    case IpnFail(o) => Park(Write(s, o, Failed), id, Done)
    case IpnClaim(o) => Park(Claim(s, o, planFound), id, Done)
    case RetryRead(o) =>
      Park(s, id, if order.status == Success || order.status == Cancelled then Done else RetryCancel(o))
    case RetryCancel(o) => Park(Write(s, o, Cancelled), id, Done)
    case CheckoutFail(o) => Park(Write(s, o, Failed), id, Done)
  }

  predicate Opening(t: Thread) { t.ReviewRead? || t.IpnRead? || t.RetryRead? || t.CheckoutFail? }

  function Next(s: State, e: Event): State {
    match e
    case NewOrder(order) => if order.status == Pending then s.(orders := s.orders + [order]) else s
    case Begin(id, call) => if id !in s.threads && Opening(call) && call.order < |s.orders| then Park(s, id, call) else s
    case Step(id, answer, planFound) =>
      if id in s.threads && !s.threads[id].Done? && s.threads[id].order < |s.orders|
      then Advance(s, id, s.threads[id], answer, planFound) else s
  }

  function Run(s: State, events: seq<Event>): State {
    if events == [] then s else Next(Run(s, events[..|events| - 1]), events[|events| - 1])
  }

  /* ---------------------------- the bounds ----------------------------- */

  function ClaimOf(o: nat): Fact -> int { (f: Fact) => if f.Claimed? && f.order == o then 1 else 0 }
  function RenewalOf(o: nat): Fact -> int { (f: Fact) => if f.Claimed? && f.renewed && f.order == o then 1 else 0 }
  function ReviewOf(o: nat): Fact -> int { (f: Fact) => if f.Claimed? && f.reviewed && f.order == o then 1 else 0 }
  function OverwriteOf(o: nat): Fact -> int { (f: Fact) => if f.Overwritten? && f.order == o then 1 else 0 }

  function Claims(facts: seq<Fact>, o: nat): int { Sum(facts, ClaimOf(o)) }
  function Renewals(facts: seq<Fact>, o: nat): int { Sum(facts, RenewalOf(o)) }
  function ReviewClaims(facts: seq<Fact>, o: nat): int { Sum(facts, ReviewOf(o)) }
  function Overwrites(facts: seq<Fact>, o: nat): int { Sum(facts, OverwriteOf(o)) }

  predicate OrderGood(status: Status, facts: seq<Fact>, o: nat) {
    && Claims(facts, o) == Overwrites(facts, o) + (if status == Success then 1 else 0)
    && ReviewClaims(facts, o) <= (if status == Pending then 0 else 1)
  }

  ghost predicate Good(s: State) {
    && (forall o :: 0 <= o < |s.orders| ==> OrderGood(s.orders[o].status, s.facts, o))
    && (forall f :: f in s.facts ==> f.order < |s.orders|)
  }

  lemma FactAdds(facts: seq<Fact>, f: Fact, o: nat)
    ensures Claims(facts + [f], o) == Claims(facts, o) + ClaimOf(o)(f)
    ensures ReviewClaims(facts + [f], o) == ReviewClaims(facts, o) + ReviewOf(o)(f)
    ensures Overwrites(facts + [f], o) == Overwrites(facts, o) + OverwriteOf(o)(f)
  {
    SumAppend(facts, f, ClaimOf(o));
    SumAppend(facts, f, ReviewOf(o));
    SumAppend(facts, f, OverwriteOf(o));
  }

  lemma NewOrderKeepsGood(s: State, order: Order)
    requires Good(s) && order.status == Pending
    ensures Good(s.(orders := s.orders + [order]))
  {
    var s', n := s.(orders := s.orders + [order]), |s.orders|;
    forall o | 0 <= o < |s'.orders| ensures OrderGood(s'.orders[o].status, s'.facts, o) {
      if o == n {
        assert forall f :: f in s.facts ==> f.order != n;
        SumZero(s.facts, ClaimOf(n));
        SumZero(s.facts, ReviewOf(n));
        SumZero(s.facts, OverwriteOf(n));
      } else {
        assert OrderGood(s.orders[o].status, s.facts, o);
      }
    }
  }

  /** A write to one order that adds at most one fact about it. */
  lemma UpdateKeepsGood(s: State, s': State, o: nat, status: Status, f: Option<Fact>)
    requires Good(s) && o < |s.orders|
    requires s'.orders == s.orders[o := s.orders[o].(status := status)]
    requires s'.facts == (if f.Some? then s.facts + [f.value] else s.facts) && (f.Some? ==> f.value.order == o)
    requires OrderGood(s'.orders[o].status, s'.facts, o)
    ensures Good(s')
  {
    forall k | 0 <= k < |s'.orders| ensures OrderGood(s'.orders[k].status, s'.facts, k) {
      if k != o {
        assert OrderGood(s.orders[k].status, s.facts, k);
        if f.Some? {
          FactAdds(s.facts, f.value, k);
        }
      }
    }
  }

  lemma OverwriteKeepsOrder(status: Status, to: Status, facts: seq<Fact>, o: nat)
    requires OrderGood(status, facts, o) && (to == Failed || to == Cancelled)
    ensures OrderGood(to, if status == Success then facts + [Overwritten(o)] else facts, o)
  {
    FactAdds(facts, Overwritten(o), o);
  }

  lemma ClaimKeepsOrder(status: Status, facts: seq<Fact>, o: nat, reviewed: bool, renewed: bool)
    requires OrderGood(status, facts, o) && status != Success && (reviewed ==> status == Pending)
    ensures OrderGood(Success, facts + [Claimed(o, reviewed, renewed)], o)
  {
    FactAdds(facts, Claimed(o, reviewed, renewed), o);
  }

  lemma WriteKeepsGood(s: State, o: nat, status: Status)
    requires Good(s) && o < |s.orders| && (status == Failed || status == Cancelled)
    ensures Good(Write(s, o, status))
  {
    var before := s.orders[o].status;
    OverwriteKeepsOrder(before, status, s.facts, o);
    UpdateKeepsGood(s, Write(s, o, status), o, status, if before == Success then Some(Overwritten(o)) else None);
  }

  lemma ClaimKeepsGood(s: State, o: nat, planFound: bool)
    requires Good(s) && o < |s.orders|
    ensures Good(Claim(s, o, planFound))
  {
    if s.orders[o].status != Success {
      ClaimKeepsOrder(s.orders[o].status, s.facts, o, false, planFound);
      UpdateKeepsGood(s, Claim(s, o, planFound), o, Success, Some(Claimed(o, false, planFound)));
    }
  }

  lemma ReviewKeepsGood(s: State, o: nat, approve: bool)
    requires Good(s) && o < |s.orders|
    ensures Good(Review(s, o, approve))
  {
    if s.orders[o].status == Pending {
      ClaimKeepsOrder(Pending, s.facts, o, true, true);
      UpdateKeepsGood(s, Review(s, o, approve), o, if approve then Success else Failed,
                      if approve then Some(Claimed(o, true, true)) else None);
    }
  }

  lemma SameOrdersGood(s: State, s': State)
    requires Good(s) && s'.orders == s.orders && s'.facts == s.facts
    ensures Good(s')
  {
    forall o | 0 <= o < |s'.orders| ensures OrderGood(s'.orders[o].status, s'.facts, o) {
      assert OrderGood(s.orders[o].status, s.facts, o);
    }
  }

  lemma NextKeepsGood(s: State, e: Event)
    requires Good(s)
    ensures Good(Next(s, e))
  {
    match e
    case NewOrder(order) => if order.status == Pending { NewOrderKeepsGood(s, order); }
    case Begin(_, _) => SameOrdersGood(s, Next(s, e));
    case Step(id, answer, planFound) =>
      if id in s.threads && !s.threads[id].Done? && s.threads[id].order < |s.orders| {
        var t := s.threads[id];
        match t
        case ReviewClaim(o, approve) => ReviewKeepsGood(s, o, approve); SameOrdersGood(Review(s, o, approve), Next(s, e));
        case IpnFail(o) => WriteKeepsGood(s, o, Failed); SameOrdersGood(Write(s, o, Failed), Next(s, e));
        case IpnClaim(o) => ClaimKeepsGood(s, o, planFound); SameOrdersGood(Claim(s, o, planFound), Next(s, e));
        case RetryCancel(o) => WriteKeepsGood(s, o, Cancelled); SameOrdersGood(Write(s, o, Cancelled), Next(s, e));
        case CheckoutFail(o) => WriteKeepsGood(s, o, Failed); SameOrdersGood(Write(s, o, Failed), Next(s, e));
        case _ => SameOrdersGood(s, Next(s, e));
      }
  }

  lemma {:induction false} RunsAreGood(events: seq<Event>)
    ensures Good(Run(START, events))
  {
    if events != [] {
      RunsAreGood(events[..|events| - 1]);
      NextKeepsGood(Run(START, events[..|events| - 1]), events[|events| - 1]);
    }
  }

  /** Claims that found no plan, and so renewed nothing. */
  function MissOf(o: nat): Fact -> int { (f: Fact) => if f.Claimed? && !f.renewed && f.order == o then 1 else 0 }
  function Misses(facts: seq<Fact>, o: nat): int { Sum(facts, MissOf(o)) }

  lemma ClaimsSplit(facts: seq<Fact>, o: nat)
    ensures Claims(facts, o) == Renewals(facts, o) + Misses(facts, o)
    ensures Renewals(facts, o) >= 0 && Misses(facts, o) >= 0 && Overwrites(facts, o) >= 0
  {
    SumAdd(facts, RenewalOf(o), MissOf(o), ClaimOf(o));
    SumNonNegative(facts, RenewalOf(o));
    SumNonNegative(facts, MissOf(o));
    SumNonNegative(facts, OverwriteOf(o));
  }

  /**
   * Under any interleaving, an order has been claimed exactly once for each time its payment
   * was overwritten, and once more if it stands paid. Each claim renews, unless the plan is
   * gone. Reviews claim at most once whatever happens: nothing returns an order to PENDING.
   */
  lemma RenewalsAreExact(events: seq<Event>, o: nat)
    requires o < |Run(START, events).orders|
    ensures var s := Run(START, events);
            && Renewals(s.facts, o) + Misses(s.facts, o)
               == Overwrites(s.facts, o) + (if s.orders[o].status == Success then 1 else 0)
            && Renewals(s.facts, o) <= 1 + Overwrites(s.facts, o)
            && ReviewClaims(s.facts, o) <= 1
  {
    RunsAreGood(events);
    var s := Run(START, events);
    assert OrderGood(s.orders[o].status, s.facts, o);
    ClaimsSplit(s.facts, o);
  }

  /** An order is claimed more than once exactly when a payment of it was overwritten and the order claimed again. */
  lemma ClaimedAgainIff(events: seq<Event>, o: nat)
    requires o < |Run(START, events).orders|
    ensures var s := Run(START, events);
            Claims(s.facts, o) > 1
            <==> Overwrites(s.facts, o) >= 2 || (Overwrites(s.facts, o) == 1 && s.orders[o].status == Success)
  {
    RunsAreGood(events);
    var s := Run(START, events);
    assert OrderGood(s.orders[o].status, s.facts, o);
    ClaimsSplit(s.facts, o);
  }

  /** A step about to write FAILED or CANCELLED whatever the order has become. */
  predicate WritesBlindly(t: Thread) { t.IpnFail? || t.RetryCancel? || t.CheckoutFail? }

  /** The event is this thread's next statement, and it can run. */
  predicate Runs(s: State, e: Event, o: nat) {
    e.Step? && e.id in s.threads && !s.threads[e.id].Done? && s.threads[e.id].order == o && o < |s.orders|
  }

  /** What an event adds to the record. */
  function Noted(s: State, e: Event): Option<Fact> {
    if !e.Step? || e.id !in s.threads || s.threads[e.id].Done? || s.threads[e.id].order >= |s.orders| then None
    else
      var t, status := s.threads[e.id], s.orders[s.threads[e.id].order].status;
      if t.IpnClaim? && status != Success then Some(Claimed(t.order, false, e.planFound))
      else if t.ReviewClaim? && t.approve && status == Pending then Some(Claimed(t.order, true, true))
      else if WritesBlindly(t) && status == Success then Some(Overwritten(t.order))
      else None
  }

  lemma NextRecords(s: State, e: Event)
    ensures Next(s, e).facts == if Noted(s, e).Some? then s.facts + [Noted(s, e).value] else s.facts
  {
  }

  /** A payment is overwritten by one kind of step only: a FAILED or CANCELLED write that finds the order paid. */
  lemma OverwrittenExactlyWhen(s: State, e: Event, o: nat)
    ensures Overwrites(Next(s, e).facts, o)
         == Overwrites(s.facts, o)
            + if Runs(s, e, o) && WritesBlindly(s.threads[e.id]) && s.orders[o].status == Success then 1 else 0
  {
    NextRecords(s, e);
    if Noted(s, e).Some? {
      FactAdds(s.facts, Noted(s, e).value, o);
    }
  }

  /** And claimed by two: a confirmed notification that finds it unpaid, an approval that finds it waiting. */
  lemma ClaimedExactlyWhen(s: State, e: Event, o: nat)
    ensures Claims(Next(s, e).facts, o)
         == Claims(s.facts, o)
            + if Runs(s, e, o)
                 && ((s.threads[e.id].IpnClaim? && s.orders[o].status != Success)
                     || (s.threads[e.id].ReviewClaim? && s.threads[e.id].approve && s.orders[o].status == Pending))
              then 1 else 0
  {
    NextRecords(s, e);
    if Noted(s, e).Some? {
      FactAdds(s.facts, Noted(s, e).value, o);
    }
  }

  /* -------------------- runs of valid notifications --------------------- */

  /** The call can still only claim: it is a review, or a notification the gateway stands behind. */
  predicate Harmless(t: Thread) {
    t.Done? || t.ReviewRead? || t.ReviewClaim? || (t.IpnRead? && t.valid) || t.IpnValidate? || t.IpnClaim?
  }

  /** New orders, reviews, and valid notifications whose validation the gateway answers. */
  predicate OnlyValid(e: Event) {
    match e
    case NewOrder(_) => true
    case Begin(_, call) => Harmless(call)
    case Step(_, answer, _) => answer == Untied || answer == Confirmed
  }

  ghost predicate Quiet(s: State) {
    && (forall id :: id in s.threads ==> Harmless(s.threads[id]))
    && (forall f :: f in s.facts ==> f.Claimed?)
  }

  lemma {:induction false} ValidRunsAreQuiet(events: seq<Event>)
    requires forall e :: e in events ==> OnlyValid(e)
    ensures Quiet(Run(START, events))
  {
    if events != [] {
      var init, last := events[..|events| - 1], events[|events| - 1];
      assert last in events && forall e :: e in init ==> e in events;
      ValidRunsAreQuiet(init);
      var s := Run(START, init);
      assert OnlyValid(last);
    }
  }

  /**
   * However valid notifications for an order interleave, with each other and with reviews, a paid
   * order has been claimed exactly once, and any other order not at all.
   */
  lemma ValidNotificationsRenewOnce(events: seq<Event>, o: nat)
    requires (forall e :: e in events ==> OnlyValid(e)) && o < |Run(START, events).orders|
    ensures var s := Run(START, events);
            Renewals(s.facts, o) <= Claims(s.facts, o) == if s.orders[o].status == Success then 1 else 0
  {
    ValidRunsAreQuiet(events);
    RunsAreGood(events);
    var s := Run(START, events);
    SumZero(s.facts, OverwriteOf(o));
    assert OrderGood(s.orders[o].status, s.facts, o);
    ClaimsSplit(s.facts, o);
  }

  /* ------------------------- calls left alone -------------------------- */

  /** `handleIpn` with nothing in between. */
  function HandleIpn(s: State, o: nat, valid: bool, answer: Answer, planFound: bool): State
    requires o < |s.orders|
  {
    if s.orders[o].status == Success then s
    else if !valid then Write(s, o, Failed)
    else
      match answer
      case Unreachable => Write(s, o, Failed)
      case Untied => s
      case Rejected => Write(s, o, Failed)
      case Confirmed => Claim(s, o, planFound)
  }

  /** `retryOrder` up to its cancellation, with nothing in between. */
  function CancelForRetry(s: State, o: nat): State
    requires o < |s.orders|
  {
    if s.orders[o].status == Success || s.orders[o].status == Cancelled then s else Write(s, o, Cancelled)
  }

  /** `review` with nothing in between. */
  function ReviewOrder(s: State, o: nat, approve: bool): State
    requires o < |s.orders|
  {
    if s.orders[o].channel == Bkash then Review(s, o, approve) else s
  }

  /** A thread begun under an unused id and run to its end. */
  function Alone(s: State, id: nat, call: Thread, answer: Answer, planFound: bool): State {
    var step := Step(id, answer, planFound);
    Next(Next(Next(Next(s, Begin(id, call)), step), step), step)
  }

  lemma IpnAlone(s: State, id: nat, o: nat, valid: bool, answer: Answer, planFound: bool)
    requires id !in s.threads && o < |s.orders|
    ensures Alone(s, id, IpnRead(o, valid), answer, planFound) == Park(HandleIpn(s, o, valid, answer, planFound), id, Done)
  {
    var step := Step(id, answer, planFound);
    var s1 := Next(s, Begin(id, IpnRead(o, valid)));
    var s2 := Next(s1, step);
    var s3 := Next(s2, step);
    assert s1 == Park(s, id, IpnRead(o, valid));
    var done := Next(s3, step);
    assert done.threads == s.threads[id := Done];
  }

  lemma RetryAlone(s: State, id: nat, o: nat, answer: Answer, planFound: bool)
    requires id !in s.threads && o < |s.orders|
    ensures Alone(s, id, RetryRead(o), answer, planFound) == Park(CancelForRetry(s, o), id, Done)
  {
    var s1 := Next(s, Begin(id, RetryRead(o)));
    assert s1 == Park(s, id, RetryRead(o));
    var s2 := Next(s1, Step(id, answer, planFound));
    var s3 := Next(s2, Step(id, answer, planFound));
    assert s3.threads == s.threads[id := Done];
  }

  lemma ReviewAlone(s: State, id: nat, o: nat, approve: bool, answer: Answer, planFound: bool)
    requires id !in s.threads && o < |s.orders|
    ensures Alone(s, id, ReviewRead(o, approve), answer, planFound) == Park(ReviewOrder(s, o, approve), id, Done)
  {
    var s1 := Next(s, Begin(id, ReviewRead(o, approve)));
    assert s1 == Park(s, id, ReviewRead(o, approve));
    var s2 := Next(s1, Step(id, answer, planFound));
    var s3 := Next(s2, Step(id, answer, planFound));
    assert s3.threads == s.threads[id := Done];
  }

  /** SUCCESS is absorbing for calls that run alone, and none of them overwrites a payment. */
  ghost predicate KeepsSuccess(s: State, s': State) {
    && (forall o :: 0 <= o < |s.orders| && s.orders[o].status == Success ==> o < |s'.orders| && s'.orders[o] == s.orders[o])
    && (forall o :: Overwrites(s'.facts, o) == Overwrites(s.facts, o))
  }

  lemma WriteKeepsSuccess(s: State, o: nat, status: Status)
    requires o < |s.orders| && s.orders[o].status != Success
    ensures KeepsSuccess(s, Write(s, o, status))
  {
  }

  lemma ClaimKeepsOverwrites(s: State, s': State, f: Fact)
    requires f.Claimed? && (s'.facts == s.facts || s'.facts == s.facts + [f])
    ensures forall o :: Overwrites(s'.facts, o) == Overwrites(s.facts, o)
  {
    forall o ensures Overwrites(s'.facts, o) == Overwrites(s.facts, o) {
      FactAdds(s.facts, f, o);
    }
  }

  lemma WholeCallsKeepSuccess(s: State, o: nat, valid: bool, approve: bool, answer: Answer, planFound: bool)
    requires o < |s.orders|
    ensures KeepsSuccess(s, HandleIpn(s, o, valid, answer, planFound))
    ensures KeepsSuccess(s, CancelForRetry(s, o))
    ensures KeepsSuccess(s, ReviewOrder(s, o, approve))
  {
    if s.orders[o].status != Success {
      WriteKeepsSuccess(s, o, Failed);
      WriteKeepsSuccess(s, o, Cancelled);
      ClaimKeepsOverwrites(s, Claim(s, o, planFound), Claimed(o, false, planFound));
    }
    ClaimKeepsOverwrites(s, Review(s, o, approve), Claimed(o, true, true));
  }

  const ORDER := Order(0, 0, Gateway, Pending, None)

  /** A notification that reads the order as unpaid and is about to record a failure. */
  function StaleRead(): seq<Event> {
    [] + [NewOrder(ORDER)] + [Begin(1, IpnRead(0, false))] + [Step(1, Untied, true)]
  }

  /** A valid notification, start to finish. */
  function Paid(id: nat): seq<Event> {
    [Begin(id, IpnRead(0, true)), Step(id, Confirmed, true), Step(id, Confirmed, true), Step(id, Confirmed, true)]
  }

  function StaleRun(): seq<Event> { StaleRead() + Paid(2) + [Step(1, Untied, true)] + Paid(3) }

  lemma AfterStaleRead()
    ensures Run(START, StaleRead()) == State([ORDER], map[1 := IpnFail(0)], [])
  {
    RunMore(START, [], NewOrder(ORDER));
    RunMore(START, [] + [NewOrder(ORDER)], Begin(1, IpnRead(0, false)));
    RunMore(START, [] + [NewOrder(ORDER)] + [Begin(1, IpnRead(0, false))], Step(1, Untied, true));
  }

  lemma AfterPaid(events: seq<Event>, id: nat)
    requires var s := Run(START, events); id !in s.threads && |s.orders| == 1 && s.orders[0].status != Success
    ensures var s, s' := Run(START, events), Run(START, events + Paid(id));
            && s'.orders == [s.orders[0].(status := Success)]
            && s'.facts == s.facts + [Claimed(0, false, true)] && s'.threads == s.threads[id := Done]
  {
    RunAlone(START, events, id, IpnRead(0, true), Confirmed, true);
    IpnAlone(Run(START, events), id, 0, true, Confirmed, true);
  }

  lemma StaleRunFacts()
    ensures Run(START, StaleRun()).facts == [Claimed(0, false, true), Overwritten(0)] + [Claimed(0, false, true)]
  {
    AfterStaleRead();
    AfterPaid(StaleRead(), 2);
    var paid := StaleRead() + Paid(2);
    RunMore(START, paid, Step(1, Untied, true));
    var s := Run(START, paid + [Step(1, Untied, true)]);
    assert s == Park(Write(Run(START, paid), 0, Failed), 1, Done);
    AfterPaid(paid + [Step(1, Untied, true)], 3);
  }

  /**
   * Interleaved, a failing notification that read the order before it was paid writes
   * FAILED over SUCCESS, and the next valid notification renews a second time.
   */
  lemma StaleFailureRenewsTwice()
    ensures Renewals(Run(START, StaleRun()).facts, 0) == 2 && Overwrites(Run(START, StaleRun()).facts, 0) == 1
  {
    StaleRunFacts();
    var two := [Claimed(0, false, true), Overwritten(0)];
    SumTwo(Claimed(0, false, true), Overwritten(0), RenewalOf(0));
    SumTwo(Claimed(0, false, true), Overwritten(0), OverwriteOf(0));
    SumAppend(two, Claimed(0, false, true), RenewalOf(0));
    SumAppend(two, Claimed(0, false, true), OverwriteOf(0));
  }

  lemma RunMore(s: State, events: seq<Event>, e: Event)
    ensures Run(s, events + [e]) == Next(Run(s, events), e)
  {
    assert (events + [e])[..|events|] == events;
  }

  lemma RunAlone(s: State, events: seq<Event>, id: nat, call: Thread, answer: Answer, planFound: bool)
    ensures var step := Step(id, answer, planFound);
            Run(s, events + [Begin(id, call), step, step, step]) == Alone(Run(s, events), id, call, answer, planFound)
  {
    var step := Step(id, answer, planFound);
    var e1 := events + [Begin(id, call)];
    RunMore(s, events, Begin(id, call));
    RunThree(s, e1, step);
    assert events + [Begin(id, call), step, step, step] == e1 + [step, step, step];
  }

  lemma RunThree(s: State, events: seq<Event>, e: Event)
    ensures Run(s, events + [e, e, e]) == Next(Next(Next(Run(s, events), e), e), e)
  {
    var e1 := events + [e];
    var e2 := e1 + [e];
    RunMore(s, events, e);
    RunMore(s, e1, e);
    RunMore(s, e2, e);
    assert events + [e, e, e] == e2 + [e];
  }
}
