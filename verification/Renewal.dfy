/** The one renewal path: paid time is stacked, never overlapped and never lost. */
module Renewal {
  import opened Wrappers
  import opened Rows

  const MS_PER_DAY := 86_400_000

  datatype Agency = Agency(endsAt: Option<int>, plan: Option<nat>, active: bool)

  /** One renewal with its two clock reads: one to compare, one to start from. */
  datatype Grant = Grant(plan: nat, days: nat, compared: int, started: int)

  datatype Interval = Interval(from: int, to: int)

  /** The later of now and the current end. */
  function Base(endsAt: Option<int>, g: Grant): int {
    if endsAt.Some? && endsAt.value > g.compared then endsAt.value else g.started
  }

  function Paid(endsAt: Option<int>, g: Grant): Interval { Interval(Base(endsAt, g), Base(endsAt, g) + g.days * MS_PER_DAY) }

  function Extend(agency: Agency, g: Grant): Agency { Agency(Some(Paid(agency.endsAt, g).to), Some(g.plan), true) }

  function EndAfter(endsAt: Option<int>, grants: seq<Grant>): Option<int> {
    if grants == [] then endsAt
    else Some(Paid(EndAfter(endsAt, grants[..|grants| - 1]), grants[|grants| - 1]).to)
  }

  /** The periods bought by renewals one after another. */
  function Periods(endsAt: Option<int>, grants: seq<Grant>): (periods: seq<Interval>)
    ensures |periods| == |grants|
  {
    if grants == [] then []
    else Periods(endsAt, grants[..|grants| - 1]) + [Paid(EndAfter(endsAt, grants[..|grants| - 1]), grants[|grants| - 1])]
  }

  /** The clock did not go back between a renewal's two reads. */
  ghost predicate Forward(grants: seq<Grant>) { forall g :: g in grants ==> g.compared <= g.started }

  /** A period starts before the time already paid for ends exactly when the clock went back over that end. */
  lemma OverlapsIff(end: int, g: Grant)
    ensures Paid(Some(end), g).from < end <==> g.started < end <= g.compared
  {
  }

  function Length(): Interval -> int { (i: Interval) => i.to - i.from }
  function Duration(): Grant -> int { (g: Grant) => g.days * MS_PER_DAY }

  lemma {:induction false} PeriodsFollow(endsAt: Option<int>, grants: seq<Grant>)
    requires Forward(grants)
    ensures var periods := Periods(endsAt, grants);
            && (forall i :: 0 <= i < |periods| ==> periods[i].from <= periods[i].to)
            && (forall i, j :: 0 <= i < j < |periods| ==> periods[i].to <= periods[j].from)
            && (forall i :: 0 <= i < |periods| && endsAt.Some? ==> endsAt.value <= periods[i].from)
            && (grants != [] ==> EndAfter(endsAt, grants) == Some(periods[|periods| - 1].to))
  {
    if grants != [] {
      var init, last := grants[..|grants| - 1], grants[|grants| - 1];
      assert last in grants && forall g :: g in init ==> g in grants;
      PeriodsFollow(endsAt, init);
    }
  }

  lemma {:induction false} LengthsAddUp(endsAt: Option<int>, grants: seq<Grant>)
    ensures Sum(Periods(endsAt, grants), Length()) == Sum(grants, Duration())
  {
    if grants != [] {
      var init, last := grants[..|grants| - 1], grants[|grants| - 1];
      LengthsAddUp(endsAt, init);
    }
  }

  /**
   * Paid periods never overlap each other or the time the agency already had, so the
   * paid time is exactly the sum of what was bought; and a renewal made while time is
   * left starts at the very end of it.
   */
  lemma PaidTimeIsExact(endsAt: Option<int>, grants: seq<Grant>)
    requires Forward(grants)
    ensures var periods := Periods(endsAt, grants);
            && (forall i, j :: 0 <= i < j < |periods| ==> periods[i].to <= periods[j].from)
            && (forall i :: 0 <= i < |periods| && endsAt.Some? ==> endsAt.value <= periods[i].from)
            && Sum(periods, Length()) == Sum(grants, Duration())
    ensures forall i :: 0 <= i < |grants| ==>
              var before := EndAfter(endsAt, grants[..i]);
              before.Some? && before.value > grants[i].compared ==> Periods(endsAt, grants)[i].from == before.value
  {
    PeriodsFollow(endsAt, grants);
    LengthsAddUp(endsAt, grants);
    forall i | 0 <= i < |grants|
      ensures Periods(endsAt, grants)[i] == Paid(EndAfter(endsAt, grants[..i]), grants[i])
    {
      PeriodAt(endsAt, grants, i);
    }
  }

  lemma {:induction false} PeriodAt(endsAt: Option<int>, grants: seq<Grant>, i: nat)
    requires i < |grants|
    ensures Periods(endsAt, grants)[i] == Paid(EndAfter(endsAt, grants[..i]), grants[i])
  {
    if i < |grants| - 1 {
      PeriodAt(endsAt, grants[..|grants| - 1], i);
      assert grants[..|grants| - 1][..i] == grants[..i];
    }
  }
}
