/**
 The sliding-window rate limiter: per key, the times of admitted requests still inside the
 window. Times are exact reals and never go back.
 */
module RateLimiter {
  import opened Wrappers

  type Key = string

  // ----- one key on values -----

  /** Drop the leading events at or before the cutoff. */
  function Prune(events: seq<real>, cutoff: real): seq<real> {
    if events != [] && events[0] <= cutoff then Prune(events[1..], cutoff) else events
  }

  function RetryAfter(oldest: real, now: real, window: int): int {
    var rest := (window as real - (now - oldest)).Floor;
    if rest < 1 then 1 else rest
  }

  /** The events after a check, and the hint given when it is refused. */
  function CheckOne(events: seq<real>, now: real, requests: nat, window: int): (seq<real>, Option<int>)
    requires requests > 0
  {
    var live := Prune(events, now - window as real);
    if |live| >= requests then (live, Some(RetryAfter(live[0], now, window))) else (live + [now], None)
  }

  /** The events after checks at the given times, and the times that were admitted. */
  function Replay(times: seq<real>, requests: nat, window: int): (seq<real>, seq<real>)
    requires requests > 0
  {
    if times == [] then ([], [])
    else
      var last := |times| - 1;
      var (events, admitted) := Replay(times[..last], requests, window);
      var (after, hint) := CheckOne(events, times[last], requests, window);
      (after, if hint == None then admitted + [times[last]] else admitted)
  }

  predicate Sorted(s: seq<real>) {
    forall i, j | 0 <= i < j < |s| :: s[i] <= s[j]
  }

  /** How many events lie in the interval (lo, hi]. */
  function CountIn(s: seq<real>, lo: real, hi: real): nat {
    if s == [] then 0
    else CountIn(s[..|s| - 1], lo, hi) + if lo < s[|s| - 1] <= hi then 1 else 0
  }

  // ----- pruning -----

  lemma {:induction false} PruneIsSuffix(s: seq<real>, cutoff: real) returns (k: nat)
    requires Sorted(s)
    ensures k <= |s| && Prune(s, cutoff) == s[k..]
    ensures forall i | 0 <= i < k :: s[i] <= cutoff
    ensures forall i | k <= i < |s| :: s[i] > cutoff
  {
    if s != [] && s[0] <= cutoff {
      var rest := PruneIsSuffix(s[1..], cutoff);
      k := rest + 1;
      assert s[1..][rest..] == s[k..];
      assert forall i | 0 <= i < rest :: s[1..][i] == s[i + 1];
      assert forall i | rest <= i < |s| - 1 :: s[1..][i] == s[i + 1];
    } else {
      k := 0;
    }
  }

  lemma {:induction false} PruneSorted(s: seq<real>, cutoff: real)
    requires Sorted(s)
    ensures Sorted(Prune(s, cutoff)) && forall i | 0 <= i < |Prune(s, cutoff)| :: Prune(s, cutoff)[i] > cutoff
  {
    if s != [] && s[0] <= cutoff {
      PruneSorted(s[1..], cutoff);
    }
  }

  /** Pruning again at a later cutoff is pruning once. */
  lemma {:induction false} PruneTwice(s: seq<real>, early: real, late: real)
    requires early <= late
    ensures Prune(Prune(s, early), late) == Prune(s, late)
  {
    if s != [] && s[0] <= early {
      PruneTwice(s[1..], early, late);
    }
  }

  lemma {:induction false} PruneAppend(s: seq<real>, x: real, cutoff: real)
    requires x > cutoff
    ensures Prune(s + [x], cutoff) == Prune(s, cutoff) + [x]
  {
    if s == [] {
    } else {
      assert (s + [x])[1..] == s[1..] + [x];
      if s[0] <= cutoff {
        PruneAppend(s[1..], x, cutoff);
      }
    }
  }

  /** On sorted events up to `hi`, pruning keeps exactly the events of the window. */
  lemma {:induction false} PruneCounts(s: seq<real>, lo: real, hi: real)
    requires Sorted(s) && forall i | 0 <= i < |s| :: s[i] <= hi
    ensures |Prune(s, lo)| == CountIn(s, lo, hi)
  {
    if s != [] {
      var last := |s| - 1;
      PruneCounts(s[..last], lo, hi);
      assert s == s[..last] + [s[last]];
      if s[last] > lo {
        PruneAppend(s[..last], s[last], lo);
      } else {
        var k := PruneIsSuffix(s, lo);
        var j := PruneIsSuffix(s[..last], lo);
      }
    }
  }

  // ----- what replaying keeps -----

  /** Admissions `requests` apart are a whole window apart. */
  predicate SpacedOut(s: seq<real>, requests: nat, window: int) {
    forall i | requests <= i < |s| :: s[i] - s[i - requests] >= window as real
  }

  ghost predicate LiveAt(events: seq<real>, admitted: seq<real>, now: real, requests: nat, window: int) {
    && Sorted(admitted) && (forall i | 0 <= i < |admitted| :: admitted[i] <= now)
    && SpacedOut(admitted, requests, window)
    && events == Prune(admitted, now - window as real)
  }

  /** The stored events stay the admissions of the last window, and admissions stay spaced out. */
  lemma CheckKeepsLive(events: seq<real>, admitted: seq<real>, before: real, now: real, requests: nat, window: int)
    requires requests > 0 && window > 0 && before <= now
    requires LiveAt(events, admitted, before, requests, window)
    ensures var (after, hint) := CheckOne(events, now, requests, window);
            LiveAt(after, if hint == None then admitted + [now] else admitted, now, requests, window)
  {
    var cutoff := now - window as real;
    PruneTwice(admitted, before - window as real, cutoff);
    var live := Prune(events, cutoff);
    if |live| < requests {
      PruneAppend(admitted, now, cutoff);
      AppendKeepsSpacing(admitted, now, requests, window);
    }
  }

  lemma AppendKeepsSpacing(admitted: seq<real>, now: real, requests: nat, window: int)
    requires requests > 0 && Sorted(admitted) && SpacedOut(admitted, requests, window)
    requires |Prune(admitted, now - window as real)| < requests
    ensures SpacedOut(admitted + [now], requests, window)
  {
    var more := admitted + [now];
    var k := PruneIsSuffix(admitted, now - window as real);
    forall i | requests <= i < |more| ensures more[i] - more[i - requests] >= window as real {
      if i < |admitted| {
        assert admitted[i] - admitted[i - requests] >= window as real;
      } else {
        assert i - requests < k;
      }
    }
  }

  lemma {:induction false} ReplayInvariant(times: seq<real>, requests: nat, window: int, now: real)
    requires requests > 0 && window > 0 && Sorted(times) && forall i | 0 <= i < |times| :: times[i] <= now
    ensures var (events, admitted) := Replay(times, requests, window);
            var last := if times == [] then now else times[|times| - 1];
            LiveAt(events, admitted, last, requests, window)
    decreases |times|
  {
    if times != [] {
      var last := |times| - 1;
      var (events, admitted) := Replay(times[..last], requests, window);
      ReplayInvariant(times[..last], requests, window, times[last]);
      CheckKeepsLive(events, admitted, if last == 0 then times[0] else times[last - 1], times[last], requests, window);
    }
  }

  /** In sorted, spaced-out events no interval as long as the window holds more than `requests`. */
  lemma {:induction false} WindowCount(s: seq<real>, requests: nat, window: int, lo: real, hi: real)
    requires requests > 0 && Sorted(s) && SpacedOut(s, requests, window) && hi - lo <= window as real
    ensures CountIn(s, lo, hi) <= requests
  {
    if s != [] {
      var last := |s| - 1;
      WindowCount(s[..last], requests, window, lo, hi);
      if |s| <= requests {
        CountAtMost(s, lo, hi, 0);
      } else if lo < s[last] <= hi {
        assert s[last] - s[last - requests] >= window as real;
        CountAtMost(s, lo, hi, |s| - requests);
      }
    }
  }

  lemma {:induction false} CountAtMost(s: seq<real>, lo: real, hi: real, k: nat)
    requires k <= |s| && forall i | 0 <= i < k :: s[i] <= lo
    ensures CountIn(s, lo, hi) <= |s| - k
  {
    if s != [] {
      var last := |s| - 1;
      CountAtMost(s[..last], lo, hi, if k > last then last else k);
    }
  }

  // ----- the main results -----

  function Admitted(times: seq<real>, requests: nat, window: int): seq<real>
    requires requests > 0
  {
    Replay(times, requests, window).1
  }

  /** Whatever the check times, every interval (t - window, t] holds at most `requests` admissions. */
  lemma WindowBound(times: seq<real>, requests: nat, window: int, t: real)
    requires requests > 0 && window > 0 && Sorted(times)
    ensures CountIn(Admitted(times, requests, window), t - window as real, t) <= requests
  {
    if times != [] {
      ReplayInvariant(times, requests, window, times[|times| - 1]);
    }
    WindowCount(Admitted(times, requests, window), requests, window, t - window as real, t);
  }

  /** The live events at the time of the next check are the admissions of its window, at most `requests`. */
  lemma LiveNow(times: seq<real>, now: real, requests: nat, window: int)
    requires requests > 0 && window > 0 && Sorted(times) && forall i | 0 <= i < |times| :: times[i] <= now
    ensures var live := Prune(Replay(times, requests, window).0, now - window as real);
            && live == Prune(Admitted(times, requests, window), now - window as real)
            && |live| == CountIn(Admitted(times, requests, window), now - window as real, now) <= requests
            && Sorted(live) && forall i | 0 <= i < |live| :: live[i] > now - window as real
  {
    var (events, admitted) := Replay(times, requests, window);
    ReplayInvariant(times, requests, window, now);
    LiveLater(events, admitted, if times == [] then now else times[|times| - 1], now, requests, window);
  }

  lemma LiveLater(events: seq<real>, admitted: seq<real>, last: real, now: real, requests: nat, window: int)
    requires requests > 0 && window > 0 && last <= now && LiveAt(events, admitted, last, requests, window)
    ensures var live := Prune(events, now - window as real);
            && live == Prune(admitted, now - window as real)
            && |live| == CountIn(admitted, now - window as real, now) <= requests
            && Sorted(live) && forall i | 0 <= i < |live| :: live[i] > now - window as real
  {
    PruneTwice(admitted, last - window as real, now - window as real);
    PruneCounts(admitted, now - window as real, now);
    WindowCount(admitted, requests, window, now - window as real, now);
    PruneSorted(admitted, now - window as real);
  }

  /** A check is refused exactly when the window ending now already holds `requests` admissions. */
  lemma RefusedIffWindowFull(times: seq<real>, now: real, requests: nat, window: int)
    requires requests > 0 && window > 0 && Sorted(times) && forall i | 0 <= i < |times| :: times[i] <= now
    ensures CheckOne(Replay(times, requests, window).0, now, requests, window).1.Some?
       <==> CountIn(Admitted(times, requests, window), now - window as real, now) == requests
  {
    LiveNow(times, now, requests, window);
  }

  /**
   The hint of a refused check: waiting that long is enough exactly when the exact rest of
   the window is at most one second or a whole number of seconds, because the hint is rounded
   down; waiting one second more is always enough.
   */
  lemma RetryHint(times: seq<real>, now: real, requests: nat, window: int)
    requires requests > 0 && window > 0 && Sorted(times) && forall i | 0 <= i < |times| :: times[i] <= now
    requires CheckOne(Replay(times, requests, window).0, now, requests, window).1.Some?
    ensures var (live, hint) := CheckOne(Replay(times, requests, window).0, now, requests, window);
            && live != [] && window as real - (now - live[0]) > 0.0
            && var rest := window as real - (now - live[0]);
            && (CheckOne(live, now + hint.value as real, requests, window).1 == None
                <==> rest <= 1.0 || rest == rest.Floor as real)
            && CheckOne(live, now + (hint.value + 1) as real, requests, window).1 == None
  {
    LiveNow(times, now, requests, window);
    var live := Prune(Replay(times, requests, window).0, now - window as real);
    var hint := RetryAfter(live[0], now, window);
    WaitEnough(live, now, hint, requests, window);
    WaitEnough(live, now, hint + 1, requests, window);
  }

  /** A full window admits again once its oldest event has left it. */
  lemma WaitEnough(live: seq<real>, now: real, wait: int, requests: nat, window: int)
    requires requests > 0 && |live| == requests && Sorted(live)
    ensures CheckOne(live, now + wait as real, requests, window).1 == None
       <==> wait as real >= window as real - (now - live[0])
  {
    var k := PruneIsSuffix(live, now + wait as real - window as real);
  }

  /** One request a minute, admitted at 0.5, refused at 1.0 with the hint 59: still refused at 60.0. */
  lemma RetryHintTooShort()
    ensures CheckOne([0.5], 1.0, 1, 60).1 == Some(59)
    ensures CheckOne([0.5], 60.0, 1, 60).1 == Some(1)
  {
  }

  // ----- many keys -----

  datatype Attempt = Attempt(key: Key, now: real)

  function EventsIn(events: map<Key, seq<real>>, key: Key): seq<real> {
    if key in events then events[key] else []
  }

  /** The stored events after the checks, whatever their keys, and the answers. */
  function ReplayAll(checks: seq<Attempt>, requests: nat, window: int): (map<Key, seq<real>>, seq<Option<int>>)
    requires requests > 0
  {
    if checks == [] then (map[], [])
    else
      var last := checks[|checks| - 1];
      var (events, hints) := ReplayAll(checks[..|checks| - 1], requests, window);
      var (after, hint) := CheckOne(EventsIn(events, last.key), last.now, requests, window);
      (events[last.key := after], hints + [hint])
  }

  /** When one key was checked. */
  function TimesOf(checks: seq<Attempt>, key: Key): seq<real> {
    if checks == [] then []
    else
      var last := checks[|checks| - 1];
      TimesOf(checks[..|checks| - 1], key) + if last.key == key then [last.now] else []
  }

  /** When one key was admitted, according to the answers. */
  function AdmittedOf(checks: seq<Attempt>, hints: seq<Option<int>>, key: Key): seq<real>
    requires |hints| == |checks|
  {
    if checks == [] then []
    else
      var n := |checks| - 1;
      AdmittedOf(checks[..n], hints[..n], key)
      + if checks[n].key == key && hints[n] == None then [checks[n].now] else []
  }

  /** The window ending at `t` holds at most `requests` of these admissions. */
  predicate Holds(admitted: seq<real>, t: real, requests: nat, window: int) {
    CountIn(admitted, t - window as real, t) <= requests
  }

  predicate InTimeOrder(checks: seq<Attempt>) {
    forall i, j | 0 <= i < j < |checks| :: checks[i].now <= checks[j].now
  }

  /** Each key meets exactly the limiter it would meet alone: no check of another key matters to it. */
  lemma {:induction false} KeysAreIndependent(checks: seq<Attempt>, key: Key, requests: nat, window: int)
    requires requests > 0
    ensures var (events, hints) := ReplayAll(checks, requests, window);
            && |hints| == |checks|
            && EventsIn(events, key) == Replay(TimesOf(checks, key), requests, window).0
            && AdmittedOf(checks, hints, key) == Admitted(TimesOf(checks, key), requests, window)
  {
    if checks != [] {
      var front, last := checks[..|checks| - 1], checks[|checks| - 1];
      KeysAreIndependent(front, key, requests, window);
      var (before, hints) := ReplayAll(front, requests, window);
      var (after, hint) := CheckOne(EventsIn(before, last.key), last.now, requests, window);
      assert ReplayAll(checks, requests, window) == (before[last.key := after], hints + [hint]);
      assert (hints + [hint])[..|front|] == hints;
      var times := TimesOf(front, key);
      ReplayNext(times, last.now, requests, window);
      hide CheckOne, Replay, ReplayAll;
      assert times + [] == times;
    }
  }

  lemma ReplayNext(times: seq<real>, now: real, requests: nat, window: int)
    requires requests > 0
    ensures var (events, admitted) := Replay(times, requests, window);
            var (after, hint) := CheckOne(events, now, requests, window);
            Replay(times + [now], requests, window) == (after, if hint == None then admitted + [now] else admitted)
  {
    assert (times + [now])[..|times|] == times;
  }

  lemma {:induction false} TimesAreOrdered(checks: seq<Attempt>, key: Key)
    requires InTimeOrder(checks)
    ensures Sorted(TimesOf(checks, key))
    ensures checks != [] ==> forall i | 0 <= i < |TimesOf(checks, key)| ::
      TimesOf(checks, key)[i] <= checks[|checks| - 1].now
  {
    if checks != [] {
      var front := checks[..|checks| - 1];
      TimesAreOrdered(front, key);
      assert front != [] ==> front[|front| - 1].now <= checks[|checks| - 1].now;
    }
  }

  /** However the checks of many keys interleave, no window of any key holds too many admissions. */
  lemma EveryKeyIsBounded(checks: seq<Attempt>, key: Key, requests: nat, window: int, t: real)
    requires requests > 0 && window > 0 && InTimeOrder(checks)
    ensures var hints := ReplayAll(checks, requests, window).1;
            && |hints| == |checks|
            && Holds(AdmittedOf(checks, hints, key), t, requests, window)
  {
    KeysAreIndependent(checks, key, requests, window);
    TimesAreOrdered(checks, key);
    WindowBound(TimesOf(checks, key), requests, window, t);
  }

  // ----- the class -----

  class FixedWindowRateLimiter {
    const requests: nat
    const windowSeconds: int
    var events: map<Key, seq<real>>

    constructor (requests: nat, windowSeconds: int)
      ensures this.requests == requests && this.windowSeconds == windowSeconds && events == map[]
    {
      this.requests, this.windowSeconds, events := requests, windowSeconds, map[];
    }

    function EventsOf(key: Key): seq<real>
      reads this
    {
      EventsIn(events, key)
    }

    /** Any sequence of checks on a fresh limiter gives the specified answers, so each key keeps its bound. */
    method CheckAll(checks: seq<Attempt>) returns (hints: seq<Option<int>>)
      requires requests > 0 && windowSeconds > 0 && events == map[] && InTimeOrder(checks)
      modifies this
      ensures (events, hints) == ReplayAll(checks, requests, windowSeconds) && |hints| == |checks|
      ensures forall key, t: real :: Holds(AdmittedOf(checks, hints, key), t, requests, windowSeconds)
    {
      hints := [];
      for i := 0 to |checks|
        invariant (events, hints) == ReplayAll(checks[..i], requests, windowSeconds) && |hints| == i
      {
        assert checks[..i + 1][..i] == checks[..i];
        var hint := Check(checks[i].key, checks[i].now);
        hints := hints + [hint];
      }
      assert checks[..|checks|] == checks;
      forall key, t: real ensures Holds(AdmittedOf(checks, hints, key), t, requests, windowSeconds) {
        EveryKeyIsBounded(checks, key, requests, windowSeconds, t);
      }
    }

    method Check(key: Key, now: real) returns (retryAfter: Option<int>)
      requires requests > 0
      modifies this
      ensures var (after, hint) := CheckOne(old(EventsOf(key)), now, requests, windowSeconds);
              events == old(events)[key := after] && retryAfter == hint
    {
      var cutoff := now - windowSeconds as real;
      var live := EventsOf(key);
      while live != [] && live[0] <= cutoff
        invariant Prune(live, cutoff) == Prune(old(EventsOf(key)), cutoff)
        decreases |live|
      {
        live := live[1..];
      }
      if |live| >= requests {
        events := events[key := live];
        var rest := (windowSeconds as real - (now - live[0])).Floor;
        return Some(if rest < 1 then 1 else rest);
      }
      events := events[key := live + [now]];
      return None;
    }
  }
}
