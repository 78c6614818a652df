/** The billing services as whole calls over order rows and agencies. */
module BillingDesk {
  import opened Wrappers
  import opened Billing
  import opened Renewal

  datatype Plan = Plan(days: nat, offered: bool)

  datatype Refusal = NotFound | PlanNotAvailable | AlreadyPaid | AlreadyCancelled | GatewayDown | AlreadyReviewed
                   | NotSetUp | Malformed | Waiting | ReceiptUsed

  class Desk {
    var orders: seq<Order>
    var agencies: map<nat, Agency>
    const plans: map<nat, Plan>
    ghost var facts: seq<Fact>

    ghost function Tables(): State reads this { State(orders, map[], facts) }

    /** One waiting bKash claim an agency, and no receipt on two orders. */
    ghost predicate Valid() reads this {
      && (forall i, j :: 0 <= i < j < |orders| && AwaitsReview(orders[i]) && AwaitsReview(orders[j]) ==>
            orders[i].agency != orders[j].agency)
      && (forall i, j :: 0 <= i < j < |orders| && orders[i].reference.Some? ==> orders[i].reference != orders[j].reference)
      && (forall o :: o in orders ==> o.agency in agencies)
    }

    static predicate AwaitsReview(o: Order) { o.channel == Bkash && o.status == Pending }

    constructor (plans: map<nat, Plan>, agencies: map<nat, Agency>)
      ensures Valid() && this.plans == plans && this.agencies == agencies && Tables() == START
    {
      this.plans, this.agencies := plans, agencies;
      orders := [];
      facts := [];
    }

    /** What the renewal behind an order makes of its agency. */
    function RenewedFor(o: nat, compared: int, started: int): map<nat, Agency>
      requires o < |orders| && orders[o].agency in agencies
      reads this
    {
      if orders[o].plan !in plans then agencies
      else agencies[orders[o].agency :=
                      Extend(agencies[orders[o].agency], Grant(orders[o].plan, plans[orders[o].plan].days, compared, started))]
    }

    /** `renewSubscription`, for the plan an order paid for. */
    method RenewSubscription(o: nat, compared: int, started: int)
      requires o < |orders| && orders[o].agency in agencies && orders[o].plan in plans
      modifies `agencies
      ensures agencies.Keys == old(agencies.Keys)
      ensures forall a :: a in agencies && a != orders[o].agency ==> agencies[a] == old(agencies[a])
      ensures var before, after := old(agencies[orders[o].agency]), agencies[orders[o].agency];
              && after.active && after.plan == Some(orders[o].plan) && after.endsAt.Some?
              // Time already paid for is kept whole, and what was bought comes on top of it.
              && (before.endsAt.Some? && before.endsAt.value > compared ==>
                    after.endsAt.value == before.endsAt.value + plans[orders[o].plan].days * MS_PER_DAY)
              && (before.endsAt.None? || before.endsAt.value <= compared ==>
                    after.endsAt.value == started + plans[orders[o].plan].days * MS_PER_DAY)
              && (before.endsAt.Some? && compared <= started ==> after.endsAt.value >= before.endsAt.value)
      ensures agencies == old(RenewedFor(o, compared, started))
    {
      var order := orders[o];
      var agency := agencies[order.agency];
      var base := if agency.endsAt.Some? && agency.endsAt.value > compared then agency.endsAt.value else started;
      agencies := agencies[order.agency := Agency(Some(base + plans[order.plan].days * MS_PER_DAY), Some(order.plan), true)];
    }

    method SetStatus(o: nat, status: Status)
      requires o < |orders|
      modifies `orders, `facts
      ensures Tables() == Write(old(Tables()), o, status)
    {
      if orders[o].status == Success && status != Success {
        facts := facts + [Overwritten(o)];
      }
      orders := orders[o := orders[o].(status := status)];
    }

    /** `handleIpn`: an order once SUCCESS stays so, and its agency is renewed only by the call that claimed it. */
    method HandleIpn(o: nat, valid: bool, answer: Answer, compared: int, started: int)
      requires Valid()
      modifies this
      ensures Valid()
      ensures o >= |old(orders)| ==> Tables() == old(Tables()) && agencies == old(agencies)
      ensures o < |old(orders)| ==> Tables() == Billing.HandleIpn(old(Tables()), o, valid, answer, old(orders[o].plan) in plans)
      ensures o < |old(orders)| ==>
        agencies == if |facts| > |old(facts)| then old(RenewedFor(o, compared, started)) else old(agencies)
      // An order not yet paid for fails on a bad body, an unreachable validator or a rejection, and is paid on a confirmation.
      ensures o < |old(orders)| ==> orders == old(orders)[o := old(orders[o]).(status :=
        if old(orders[o].status) == Success then Success
        else if !valid || answer == Unreachable || answer == Rejected then Failed
        else if answer == Confirmed then Success else old(orders[o].status))]
      ensures o < |old(orders)| && old(orders[o].status) != Success && valid && answer == Confirmed ==>
        agencies == old(RenewedFor(o, compared, started))
    {
      if o >= |orders| {
        return;
      }
      assert orders[o] in orders;
      if orders[o].status == Success {
        return;
      }
      if !valid || answer == Unreachable || answer == Rejected {
        SetStatus(o, Failed);
        return;
      }
      if answer == Untied {
        return;
      }
      if orders[o].plan in plans {
        RenewSubscription(o, compared, started);
      }
      facts := facts + [Claimed(o, false, orders[o].plan in plans)];
      orders := orders[o := orders[o].(status := Success)];
    }

    /** `review`: approving renews, and a second review of the order is refused. */
    method Review(o: nat, approve: bool, compared: int, started: int) returns (refusal: Option<Refusal>)
      requires Valid() && (forall k :: k in orders ==> k.plan in plans)
      modifies this
      ensures Valid()
      ensures refusal.Some? <==> o >= |old(orders)| || !AwaitsReview(old(orders[o]))
      ensures refusal.Some? ==> Tables() == old(Tables()) && agencies == old(agencies)
      ensures refusal.None? ==> Tables() == ReviewOrder(old(Tables()), o, approve)
      ensures refusal.None? ==> agencies == if approve then old(RenewedFor(o, compared, started)) else old(agencies)
      // An approved order stands paid; a refused one stands failed, which leaves a retry open to it.
      ensures refusal.None? ==>
        orders == old(orders)[o := old(orders[o]).(status := if approve then Success else Failed)]
    {
      if o >= |orders| || orders[o].channel != Bkash {
        return Some(NotFound);
      }
      assert orders[o] in orders;
      if orders[o].status != Pending {
        return Some(AlreadyReviewed);
      }
      if approve {
        RenewSubscription(o, compared, started);
        facts := facts + [Claimed(o, true, true)];
      }
      orders := orders[o := orders[o].(status := if approve then Success else Failed)];
      return None;
    }

    /** `startCheckout`: an unreachable gateway turns the order already written into a failed one. */
    method StartCheckout(agency: nat, plan: nat, gatewayAnswers: bool) returns (refusal: Option<Refusal>)
      requires Valid()
      modifies this
      ensures Valid() && agencies == old(agencies) && facts == old(facts)
      ensures refusal == (if agency !in agencies then Some(NotFound)
                          else if plan !in plans || !plans[plan].offered then Some(PlanNotAvailable)
                          else if !gatewayAnswers then Some(GatewayDown) else None)
      ensures orders == if refusal == Some(NotFound) || refusal == Some(PlanNotAvailable) then old(orders)
                        else old(orders) + [Order(agency, plan, Gateway, if gatewayAnswers then Pending else Failed, None)]
    {
      if agency !in agencies {
        return Some(NotFound);
      }
      if plan !in plans || !plans[plan].offered {
        return Some(PlanNotAvailable);
      }
      var o := |orders|;
      orders := orders + [Order(agency, plan, Gateway, Pending, None)];
      if !gatewayAnswers {
        orders := orders[o := orders[o].(status := Failed)];
        return Some(GatewayDown);
      }
      return None;
    }

    /** `retryOrder`: an attempt that is neither paid nor cancelled is cancelled, and its plan checked out again. */
    method RetryOrder(o: nat, gatewayAnswers: bool) returns (refusal: Option<Refusal>)
      requires Valid()
      modifies this
      ensures Valid() && agencies == old(agencies)
      ensures |orders| >= |old(orders)|
      ensures o < |old(orders)| ==> orders[..|old(orders)|] == CancelForRetry(old(Tables()), o).orders
      ensures o < |old(orders)| ==> facts == CancelForRetry(old(Tables()), o).facts
      ensures o < |old(orders)| ==> orders[..|old(orders)|] == old(orders)[o := old(orders[o]).(status :=
        if old(orders[o].status) == Success then Success else Cancelled)]
      // Then a fresh attempt for the same agency and plan, paid for by nobody yet.
      ensures var attempt := orders[|old(orders)|..];
              if refusal.None? || refusal == Some(GatewayDown)
              then o < |old(orders)| && attempt == [Order(old(orders[o].agency), old(orders[o].plan), Gateway,
                                                         if gatewayAnswers then Pending else Failed, None)]
              else attempt == []
      ensures refusal == (if o >= |old(orders)| then Some(NotFound)
                          else if old(orders[o].status) == Success then Some(AlreadyPaid)
                          else if old(orders[o].status) == Cancelled then Some(AlreadyCancelled)
                          else if old(orders[o].plan) !in plans || !plans[old(orders[o].plan)].offered then Some(PlanNotAvailable)
                          else if !gatewayAnswers then Some(GatewayDown) else None)
      ensures o >= |old(orders)| ==> Tables() == old(Tables())
    {
      if o >= |orders| {
        return Some(NotFound);
      }
      if orders[o].status == Success {
        return Some(AlreadyPaid);
      }
      if orders[o].status == Cancelled {
        return Some(AlreadyCancelled);
      }
      assert orders[o] in orders;
      SetStatus(o, Cancelled);
      refusal := StartCheckout(orders[o].agency, orders[o].plan, gatewayAnswers);
    }

    /** `submit`: a claim that waits for a person; one at a time, and a receipt is spent once. */
    method Submit(agency: nat, plan: nat, reference: string, setUp: bool, wellFormed: bool) returns (refusal: Option<Refusal>)
      requires Valid() && agency in agencies
      modifies `orders
      ensures Valid()
      ensures refusal.Some? ==> orders == old(orders)
      ensures refusal.None? ==> orders == old(orders) + [Order(agency, plan, Bkash, Pending, Some(reference))]
      ensures refusal.None? <==>
        && setUp && wellFormed && plan in plans && plans[plan].offered
        && (forall k :: k in old(orders) ==> !(AwaitsReview(k) && k.agency == agency))
        && (forall k :: k in old(orders) ==> k.reference != Some(reference))
    {
      if !setUp {
        return Some(NotSetUp);
      }
      if !wellFormed {
        return Some(Malformed);
      }
      if plan !in plans || !plans[plan].offered {
        return Some(PlanNotAvailable);
      }
      if exists k :: k in orders && AwaitsReview(k) && k.agency == agency {
        return Some(Waiting);
      }
      if exists k :: k in orders && k.reference == Some(reference) {
        return Some(ReceiptUsed);
      }
      orders := orders + [Order(agency, plan, Bkash, Pending, Some(reference))];
      return None;
    }
  }
}
