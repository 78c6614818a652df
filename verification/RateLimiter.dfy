/**
 * The in-memory fixed-window limiter: what its lazy sweep may not change, and how
 * many requests it lets through.
 */
module RateLimiter {
  import opened Wrappers

  datatype Window = Window(count: nat, resetAt: int)
  type Windows = map<string, Window>

  /** One request with the options of the limiter it went through; a key belongs to one limiter. */
  datatype Request = Request(key: string, windowMs: nat, max: nat, now: int)

  const SWEEP_THRESHOLD := 10_000

  /** The windows still running. */
  function Running(windows: Windows, now: int): Windows {
    map k | k in windows && windows[k].resetAt > now :: windows[k]
  }

  /** `incrementInMemory` without its sweep. */
  function Bump(windows: Windows, r: Request): (next: (Windows, nat)) {
    if r.key in windows && windows[r.key].resetAt > r.now then
      var current := windows[r.key];
      (windows[r.key := current.(count := current.count + 1)], current.count + 1)
    else
      (windows[r.key := Window(1, r.now + r.windowMs)], 1)
  }

  /** `incrementInMemory`: expired windows are dropped first, once the map is large. */
  function Increment(windows: Windows, r: Request): (Windows, nat) {
    Bump(if |windows| > SWEEP_THRESHOLD then Running(windows, r.now) else windows, r)
  }

  class Limiter {
    var windows: Windows

    constructor ()
      ensures windows == map[]
    {
      windows := map[];
    }

    method IncrementInMemory(key: string, windowMs: nat, now: int) returns (count: nat)
      modifies this
      ensures (windows, count) == Increment(old(windows), Request(key, windowMs, 0, now))
      // A running window counts on to its own end; an expired or missing one starts again at one, for its whole length.
      ensures key in windows && windows[key].count == count
      ensures if key in old(windows) && old(windows)[key].resetAt > now
              then count == old(windows)[key].count + 1 && windows[key].resetAt == old(windows)[key].resetAt
              else count == 1 && windows[key].resetAt == now + windowMs
      ensures forall k :: k != key && k in windows ==> k in old(windows) && windows[k] == old(windows)[k]
      ensures forall k :: k != key && k in old(windows) && old(windows)[k].resetAt > now ==> k in windows
    {
      if |windows| > SWEEP_THRESHOLD {
        var stored := windows.Keys;
        while stored != {}
          invariant stored <= old(windows).Keys
          invariant windows == map k | k in old(windows) && (k in stored || old(windows)[k].resetAt > now) :: old(windows)[k]
          decreases |stored|
        {
          var storedKey :| storedKey in stored;
          stored := stored - {storedKey};
          if windows[storedKey].resetAt <= now {
            windows := windows - {storedKey};
          }
        }
        assert windows == Running(old(windows), now);
      }
      if key !in windows || windows[key].resetAt <= now {
        windows := windows[key := Window(1, now + windowMs)];
        return 1;
      }
      var current := windows[key];
      windows := windows[key := current.(count := current.count + 1)];
      return current.count + 1;
    }

    /** `rateLimit`'s handler when Redis cannot count; a request without a subject is not counted. */
    method Handle(scope: string, subject: Option<string>, windowSeconds: nat, max: nat, now: int) returns (allowed: bool)
      modifies this
      ensures subject.None? ==> allowed && windows == old(windows)
      ensures subject.Some? ==>
        var key := "ratelimit:" + scope + ":" + subject.value;
        var (after, count) := Increment(old(windows), Request(key, windowSeconds * 1000, max, now));
        windows == after && (allowed <==> count <= max)
      ensures subject.Some? ==>
        var key := "ratelimit:" + scope + ":" + subject.value;
        key in windows && (allowed <==> windows[key].count <= max)
    {
      if subject.None? {
        return true;
      }
      var key := "ratelimit:" + scope + ":" + subject.value;
      var count := IncrementInMemory(key, windowSeconds * 1000, now);
      return count <= max;
    }
  }

  /* ------------------------ the sweep is invisible --------------------- */

  function Swept(requests: seq<Request>): (Windows, nat) {
    if requests == [] then (map[], 0) else Increment(Swept(requests[..|requests| - 1]).0, requests[|requests| - 1])
  }

  function Bare(requests: seq<Request>): (Windows, nat) {
    if requests == [] then (map[], 0) else Bump(Bare(requests[..|requests| - 1]).0, requests[|requests| - 1])
  }

  /** The clock never goes back. */
  ghost predicate Forward(requests: seq<Request>) {
    forall i, j :: 0 <= i < j < |requests| ==> requests[i].now <= requests[j].now
  }

  lemma BumpSeesRunning(a: Windows, b: Windows, r: Request)
    requires Running(a, r.now) == Running(b, r.now)
    ensures Bump(a, r).1 == Bump(b, r).1
    ensures Running(Bump(a, r).0, r.now) == Running(Bump(b, r).0, r.now)
  {
    assert r.key in Running(a, r.now) <==> r.key in a && a[r.key].resetAt > r.now;
    assert r.key in Running(b, r.now) <==> r.key in b && b[r.key].resetAt > r.now;
    var x, y := Bump(a, r).0, Bump(b, r).0;
    assert x[r.key] == y[r.key];
    forall k ensures (k in Running(x, r.now) <==> k in Running(y, r.now))
                     && (k in Running(x, r.now) ==> Running(x, r.now)[k] == Running(y, r.now)[k])
    {
      if k != r.key {
        assert k in Running(x, r.now) <==> k in Running(a, r.now);
        assert k in Running(y, r.now) <==> k in Running(b, r.now);
      }
    }
  }

  lemma RunningLater(a: Windows, b: Windows, now: int, later: int)
    requires Running(a, now) == Running(b, now) && now <= later
    ensures Running(a, later) == Running(b, later)
  {
    forall k ensures (k in Running(a, later) <==> k in Running(b, later))
                     && (k in Running(a, later) ==> Running(a, later)[k] == Running(b, later)[k])
    {
      assert k in Running(a, later) ==> k in Running(a, now) && Running(a, now)[k] == a[k];
      assert k in Running(b, later) ==> k in Running(b, now) && Running(b, now)[k] == b[k];
    }
  }

  /** With a clock that never goes back, sweeping never changes a count, so it never changes a decision. */
  lemma {:induction false} SweepIsInvisible(requests: seq<Request>)
    requires Forward(requests)
    ensures Swept(requests).1 == Bare(requests).1
    ensures requests != [] ==>
              var now := requests[|requests| - 1].now; Running(Swept(requests).0, now) == Running(Bare(requests).0, now)
  {
    if requests != [] {
      var init, r := requests[..|requests| - 1], requests[|requests| - 1];
      SweepIsInvisible(init);
      var a, b := Swept(init).0, Bare(init).0;
      if init != [] {
        RunningLater(a, b, init[|init| - 1].now, r.now);
      }
      var swept := if |a| > SWEEP_THRESHOLD then Running(a, r.now) else a;
      assert Running(swept, r.now) == Running(a, r.now);
      BumpSeesRunning(swept, b, r);
    }
  }

  /* ------------------------------ the bounds --------------------------- */

  /** The last request was let through. */
  predicate Admitted(requests: seq<Request>)
    requires requests != []
  {
    Bare(requests).1 <= requests[|requests| - 1].max
  }

  /** Requests under `key` let through between two instants, both included. */
  function AdmittedIn(requests: seq<Request>, key: string, from: int, to: int): nat {
    if requests == [] then 0
    else
      var last := requests[|requests| - 1];
      AdmittedIn(requests[..|requests| - 1], key, from, to)
      + if last.key == key && from <= last.now <= to && Admitted(requests) then 1 else 0
  }

  /** Requests under `key` let through in the window that ends at `resetAt`. */
  function AdmittedUnder(requests: seq<Request>, key: string, resetAt: int): nat {
    if requests == [] then 0
    else
      AdmittedUnder(requests[..|requests| - 1], key, resetAt)
      + if requests[|requests| - 1].key == key && Admitted(requests) && Bare(requests).0[key].resetAt == resetAt then 1 else 0
  }

  /** Every request under the key went through the same limiter. */
  ghost predicate OneLimiter(requests: seq<Request>, key: string, windowMs: nat, max: nat) {
    forall r :: r in requests && r.key == key ==> r.windowMs == windowMs && r.max == max
  }

  function Min(a: nat, b: nat): nat { if a <= b then a else b }

  lemma {:induction false} WindowCount(requests: seq<Request>, key: string, resetAt: int, windowMs: nat, max: nat)
    requires Forward(requests) && OneLimiter(requests, key, windowMs, max) && windowMs > 0
    ensures var windows := Bare(requests).0;
            if key !in windows || windows[key].resetAt < resetAt then AdmittedUnder(requests, key, resetAt) == 0
            else if windows[key].resetAt == resetAt then AdmittedUnder(requests, key, resetAt) == Min(windows[key].count, max)
            else AdmittedUnder(requests, key, resetAt) <= max
  {
    if requests != [] {
      var init, r := requests[..|requests| - 1], requests[|requests| - 1];
      assert r in requests && forall x :: x in init ==> x in requests;
      WindowCount(init, key, resetAt, windowMs, max);
    }
  }

  /** A request is refused only once its window has let through `max`: the limit is used to the full. */
  lemma RefusedOnlyWhenFull(requests: seq<Request>, windowMs: nat, max: nat)
    requires requests != [] && Forward(requests) && windowMs > 0
    requires OneLimiter(requests, requests[|requests| - 1].key, windowMs, max) && !Admitted(requests)
    ensures var key := requests[|requests| - 1].key;
            AdmittedUnder(requests, key, Bare(requests).0[key].resetAt) == max
  {
    var r := requests[|requests| - 1];
    assert r in requests;
    WindowCount(requests, r.key, Bare(requests).0[r.key].resetAt, windowMs, max);
  }

  /** Each window lets through at most `max` requests of a key. */
  lemma WindowAdmitsAtMostMax(requests: seq<Request>, key: string, resetAt: int, windowMs: nat, max: nat)
    requires Forward(requests) && OneLimiter(requests, key, windowMs, max) && windowMs > 0
    ensures AdmittedUnder(requests, key, resetAt) <= max
  {
    WindowCount(requests, key, resetAt, windowMs, max);
  }

  /**
   * What a span no longer than a window has let through so far, split between the
   * running window and the one before it, which can only have contributed if the
   * running one started inside the span.
   */
  lemma {:induction false} SpanSplits(requests: seq<Request>, key: string, from: int, to: int, windowMs: nat, max: nat)
    returns (before: nat, current: nat)
    requires Forward(requests) && OneLimiter(requests, key, windowMs, max) && windowMs > 0 && to <= from + windowMs
    requires requests != [] ==> requests[|requests| - 1].now <= to
    ensures AdmittedIn(requests, key, from, to) == before + current
    ensures var windows := Bare(requests).0;
            if key !in windows then before == current == 0
            else && before <= max && current <= Min(windows[key].count, max)
                 && (before > 0 ==> windows[key].resetAt - windowMs > from)
                 && (current > 0 ==> windows[key].resetAt > from)
  {
    if requests == [] {
      before, current := 0, 0;
    } else {
      var init, r := requests[..|requests| - 1], requests[|requests| - 1];
      assert r in requests && forall x :: x in init ==> x in requests;
      if init != [] {
        assert requests[|init| - 1].now <= r.now;
      }
      before, current := SpanSplits(init, key, from, to, windowMs, max);
      var windows := Bare(init).0;
      if r.key == key {
        var opens := key !in windows || windows[key].resetAt <= r.now;
        var counted := if from <= r.now && Admitted(requests) then 1 else 0;
        if opens {
          before, current := before + current, counted;
        } else {
          current := current + counted;
        }
      }
    }
  }

  /** Any span as long as a window, ends included, lets through at most twice `max` requests of a key. */
  lemma {:induction false} SpanAdmitsAtMostTwice(requests: seq<Request>, key: string, from: int, to: int, windowMs: nat, max: nat)
    requires Forward(requests) && OneLimiter(requests, key, windowMs, max) && windowMs > 0 && to <= from + windowMs
    ensures AdmittedIn(requests, key, from, to) <= 2 * max
  {
    if requests != [] {
      var init, r := requests[..|requests| - 1], requests[|requests| - 1];
      if r.now <= to {
        var before, current := SpanSplits(requests, key, from, to, windowMs, max);
      } else {
        assert forall x :: x in init ==> x in requests;
        SpanAdmitsAtMostTwice(init, key, from, to, windowMs, max);
      }
    }
  }
}
