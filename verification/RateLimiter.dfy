/**
  Crash report intake limits (src/crash-reports/crash-reports.service.ts, enforceRateLimit): two sliding
  windows over lists that are pruned as they are used. Times are milliseconds of a clock that never runs
  backwards.
 */
module RateLimiter {
  const HOUR := 60 * 60 * 1000
  const DAY := 24 * 60 * 60 * 1000
  const MAX_PER_HOUR := 1000
  const MAX_PER_DAY := 12

  datatype Entry = Entry(fingerprint: string, at: int)
  datatype Decision = Accept | Busy | Duplicate

  // ---------------------------------------------------------------- the limiter that forgets nothing

  /** The times that are less than a window old. */
  function Recent(ts: seq<int>, now: int, window: int): (r: seq<int>)
    ensures forall t <- r :: now - t < window
  {
    if ts == [] then []
    else
      var n := |ts| - 1;
      Recent(ts[..n], now, window) + if now - ts[n] < window then [ts[n]] else []
  }

  function Times(h: seq<Entry>): (ts: seq<int>) {
    if h == [] then [] else Times(h[..|h| - 1]) + [h[|h| - 1].at]
  }

  function TimesOf(h: seq<Entry>, fingerprint: string): (ts: seq<int>) {
    if h == [] then []
    else
      var last := h[|h| - 1];
      TimesOf(h[..|h| - 1], fingerprint) + if last.fingerprint == fingerprint then [last.at] else []
  }

  /** The decision taken by counting every submission accepted so far. */
  function Decide(h: seq<Entry>, fingerprint: string, now: int): (d: Decision) {
    if |Recent(Times(h), now, HOUR)| >= MAX_PER_HOUR then Busy
    else if |Recent(TimesOf(h, fingerprint), now, DAY)| >= MAX_PER_DAY then Duplicate
    else Accept
  }

  /** The submissions accepted less than one hour before `now`. */
  function LastHour(h: seq<Entry>, now: int): (ks: set<nat>) {
    set i: nat | i < |h| && now - h[i].at < 3_600_000
  }

  /** Those of one fingerprint accepted less than 24 hours before. */
  function LastDay(h: seq<Entry>, fingerprint: string, now: int): (ks: set<nat>) {
    set i: nat | i < |h| && h[i].fingerprint == fingerprint && now - h[i].at < 86_400_000
  }

  lemma {:induction false} CountsLastHour(h: seq<Entry>, now: int)
    ensures |Recent(Times(h), now, HOUR)| == |LastHour(h, now)|
  {
    if h != [] {
      var n: nat := |h| - 1;
      CountsLastHour(h[..n], now);
      RecentSnoc(Times(h[..n]), h[n].at, now, HOUR);
      assert LastHour(h, now) == LastHour(h[..n], now) + if now - h[n].at < HOUR then {n} else {};
    }
  }

  lemma {:induction false} CountsLastDay(h: seq<Entry>, fingerprint: string, now: int)
    ensures |Recent(TimesOf(h, fingerprint), now, DAY)| == |LastDay(h, fingerprint, now)|
  {
    if h != [] {
      var n: nat := |h| - 1;
      CountsLastDay(h[..n], fingerprint, now);
      if h[n].fingerprint == fingerprint {
        RecentSnoc(TimesOf(h[..n], fingerprint), h[n].at, now, DAY);
      } else {
        assert TimesOf(h, fingerprint) == TimesOf(h[..n], fingerprint);
      }
      assert LastDay(h, fingerprint, now) == LastDay(h[..n], fingerprint, now)
             + if h[n].fingerprint == fingerprint && now - h[n].at < DAY then {n} else {};
    }
  }

  /** Exactly the thousand-and-first submission within an hour is turned away as busy, and of the others exactly
      the thirteenth of one fingerprint within 24 hours as a duplicate. */
  lemma DecideExactly(h: seq<Entry>, fingerprint: string, now: int)
    ensures Decide(h, fingerprint, now) == Busy <==> |LastHour(h, now)| >= 1000
    ensures Decide(h, fingerprint, now) == Duplicate <==>
              |LastHour(h, now)| < 1000 && |LastDay(h, fingerprint, now)| >= 12
    ensures Decide(h, fingerprint, now) == Accept <==>
              |LastHour(h, now)| < 1000 && |LastDay(h, fingerprint, now)| < 12
  {
    CountsLastHour(h, now);
    CountsLastDay(h, fingerprint, now);
  }

  /** A history every entry of which was accepted by that rule. */
  ghost predicate Accepted(h: seq<Entry>) {
    h == [] || (
      var n := |h| - 1;
      Accepted(h[..n]) && Decide(h[..n], h[n].fingerprint, h[n].at) == Accept)
  }

  // ---------------------------------------------------------------- what the limits guarantee

  function Within(ts: seq<int>, from: int, window: int): (r: seq<int>) {
    if ts == [] then []
    else
      var n := |ts| - 1;
      Within(ts[..n], from, window) + if from <= ts[n] < from + window then [ts[n]] else []
  }

  lemma {:induction false} WithinIsRecent(ts: seq<int>, from: int, now: int, window: int)
    requires from <= now < from + window
    ensures |Within(ts, from, window)| <= |Recent(ts, now, window)|
  {
    if ts != [] { WithinIsRecent(ts[..|ts| - 1], from, now, window); }
  }

  /** No period of one hour, wherever it starts, has more than 1000 accepted submissions. */
  lemma {:induction false} HourlyLimitHolds(h: seq<Entry>, from: int)
    requires Accepted(h)
    ensures |Within(Times(h), from, HOUR)| <= MAX_PER_HOUR
  {
    if h != [] {
      var n := |h| - 1;
      HourlyLimitHolds(h[..n], from);
      assert Times(h)[..|Times(h)| - 1] == Times(h[..n]);
      if from <= h[n].at < from + HOUR { WithinIsRecent(Times(h[..n]), from, h[n].at, HOUR); }
    }
  }

  /** No period of 24 hours has more than 12 accepted submissions of one fingerprint. */
  lemma {:induction false} DailyLimitHolds(h: seq<Entry>, fingerprint: string, from: int)
    requires Accepted(h)
    ensures |Within(TimesOf(h, fingerprint), from, DAY)| <= MAX_PER_DAY
  {
    if h != [] {
      var n := |h| - 1;
      DailyLimitHolds(h[..n], fingerprint, from);
      if h[n].fingerprint == fingerprint {
        var ts := TimesOf(h, fingerprint);
        assert ts[..|ts| - 1] == TimesOf(h[..n], fingerprint);
        if from <= h[n].at < from + DAY { WithinIsRecent(TimesOf(h[..n], fingerprint), from, h[n].at, DAY); }
      } else {
        assert TimesOf(h, fingerprint) == TimesOf(h[..n], fingerprint);
      }
    }
  }

  // ---------------------------------------------------------------- pruned lists

  /** From now on the pruned list answers as the full one does. */
  ghost predicate Mirrors(pruned: seq<int>, full: seq<int>, clock: int, window: int) {
    forall now {:trigger Recent(pruned, now, window)} | now >= clock ::
      Recent(pruned, now, window) == Recent(full, now, window)
  }

  lemma {:induction false} RecentSnoc(ts: seq<int>, t: int, now: int, window: int)
    ensures Recent(ts + [t], now, window) == Recent(ts, now, window) + if now - t < window then [t] else []
  {
    assert (ts + [t])[..|ts|] == ts;
  }

  lemma {:induction false} RecentOfRecent(ts: seq<int>, now: int, later: int, window: int)
    requires now <= later
    ensures Recent(Recent(ts, now, window), later, window) == Recent(ts, later, window)
  {
    if ts != [] {
      var n := |ts| - 1;
      RecentOfRecent(ts[..n], now, later, window);
      RecentSnoc(Recent(ts[..n], now, window), ts[n], later, window);
      if now - ts[n] >= window { assert Recent(ts, now, window) == Recent(ts[..n], now, window); }
    }
  }

  lemma {:induction false} PruneMirrors(pruned: seq<int>, full: seq<int>, clock: int, now: int, window: int)
    requires Mirrors(pruned, full, clock, window) && clock <= now
    ensures Mirrors(Recent(pruned, now, window), full, now, window)
  {
    forall later | later >= now
      ensures Recent(Recent(pruned, now, window), later, window) == Recent(full, later, window)
    {
      RecentOfRecent(pruned, now, later, window);
    }
  }

  lemma PushMirrors(pruned: seq<int>, full: seq<int>, clock: int, window: int, t: int)
    requires Mirrors(pruned, full, clock, window)
    ensures Mirrors(pruned + [t], full + [t], clock, window)
  {
    forall now | now >= clock ensures Recent(pruned + [t], now, window) == Recent(full + [t], now, window) {
      RecentSnoc(pruned, t, now, window);
      RecentSnoc(full, t, now, window);
    }
  }

  function Get(m: map<string, seq<int>>, k: string): (ts: seq<int>) {
    if k in m then m[k] else []
  }

  ghost predicate AllMirror(m: map<string, seq<int>>, h: seq<Entry>, clock: int) {
    forall f {:trigger TimesOf(h, f)} :: Mirrors(Get(m, f), TimesOf(h, f), clock, DAY)
  }

  lemma AllMirrorLater(m: map<string, seq<int>>, h: seq<Entry>, clock: int, now: int)
    requires AllMirror(m, h, clock) && clock <= now
    ensures AllMirror(m, h, now)
  {
    forall f ensures Mirrors(Get(m, f), TimesOf(h, f), now, DAY) {
      assert Mirrors(Get(m, f), TimesOf(h, f), clock, DAY);
    }
  }

  lemma AllMirrorPush(m: map<string, seq<int>>, h: seq<Entry>, clock: int, e: Entry)
    requires AllMirror(m, h, clock) && clock <= e.at
    ensures AllMirror(m[e.fingerprint := Recent(Get(m, e.fingerprint), e.at, DAY) + [e.at]], h + [e], e.at)
  {
    var recent := Recent(Get(m, e.fingerprint), e.at, DAY);
    var m' := m[e.fingerprint := recent + [e.at]];
    assert (h + [e])[..|h|] == h;
    AllMirrorLater(m, h, clock, e.at);
    forall f ensures Mirrors(Get(m', f), TimesOf(h + [e], f), e.at, DAY) {
      assert Mirrors(Get(m, f), TimesOf(h, f), e.at, DAY);
      if f == e.fingerprint {
        PruneMirrors(Get(m, f), TimesOf(h, f), e.at, e.at, DAY);
        PushMirrors(recent, TimesOf(h, f), e.at, DAY, e.at);
      } else {
        assert TimesOf(h + [e], f) == TimesOf(h, f);
      }
    }
  }

  class Limiter {
    var globalSubmissions: seq<int>
    var fingerprintSubmissions: map<string, seq<int>>
    var lastCleanup: int

    /** Every submission accepted so far, and the latest time seen. */
    ghost var history: seq<Entry>
    ghost var clock: int

    ghost predicate Valid() reads this {
      && Accepted(history)
      && Mirrors(globalSubmissions, Times(history), clock, HOUR)
      && AllMirror(fingerprintSubmissions, history, clock)
    }

    constructor ()
      ensures Valid() && history == [] && clock == 0
    {
      globalSubmissions, fingerprintSubmissions, lastCleanup := [], map[], 0;
      history, clock := [], 0;
    }

    /** The pruned limiter decides as the full-history one does, at every call. */
    method EnforceRateLimit(fingerprint: string, now: int) returns (d: Decision)
      requires Valid() && now >= clock
      modifies this
      ensures Valid() && clock == now
      ensures d == Decide(old(history), fingerprint, now)
      ensures d.Accept? <==> |LastHour(old(history), now)| < 1000 && |LastDay(old(history), fingerprint, now)| < 12
      ensures d.Busy? <==> |LastHour(old(history), now)| >= 1000
      ensures forall t <- globalSubmissions :: now - t < 3_600_000
      ensures d.Accept? && now - old(lastCleanup) >= 3_600_000 ==>
                && lastCleanup == now
                && forall f <- fingerprintSubmissions ::
                     fingerprintSubmissions[f] != [] && forall t <- fingerprintSubmissions[f] :: now - t < 86_400_000
      ensures !d.Accept? || now - old(lastCleanup) < 3_600_000 ==> lastCleanup == old(lastCleanup)
      ensures history == if d.Accept? then old(history) + [Entry(fingerprint, now)] else old(history)
    {
      DecideExactly(history, fingerprint, now);
      PruneMirrors(globalSubmissions, Times(history), clock, now, HOUR);
      AllMirrorLater(fingerprintSubmissions, history, clock, now);
      assert Mirrors(Get(fingerprintSubmissions, fingerprint), TimesOf(history, fingerprint), now, DAY);
      globalSubmissions := Recent(globalSubmissions, now, HOUR);
      clock := now;
      if |globalSubmissions| >= MAX_PER_HOUR { return Busy; }
      var recent := Recent(Get(fingerprintSubmissions, fingerprint), now, DAY);
      if |recent| >= MAX_PER_DAY { return Duplicate; }
      Record(fingerprint, now, recent);
      if now - lastCleanup >= HOUR {
        Cleanup(now);
        lastCleanup := now;
      }
      return Accept;
    }

    /** An accepted submission is entered in both lists. */
    method Record(fingerprint: string, now: int, recent: seq<int>)
      requires Valid() && now == clock && recent == Recent(Get(fingerprintSubmissions, fingerprint), now, DAY)
      requires Decide(history, fingerprint, now) == Accept
      modifies this
      ensures Valid() && clock == now && lastCleanup == old(lastCleanup)
      ensures globalSubmissions == old(globalSubmissions) + [now]
      ensures history == old(history) + [Entry(fingerprint, now)]
    {
      var e := Entry(fingerprint, now);
      assert (history + [e])[..|history|] == history;
      PushMirrors(globalSubmissions, Times(history), clock, HOUR, now);
      AllMirrorPush(fingerprintSubmissions, history, clock, e);
      globalSubmissions := globalSubmissions + [now];
      fingerprintSubmissions := fingerprintSubmissions[fingerprint := recent + [now]];
      history := history + [e];
    }

    /** Drop what is too old, and the keys that are left with nothing. */
    method Cleanup(now: int)
      requires Valid() && now == clock
      modifies this`fingerprintSubmissions
      ensures Valid()
      ensures forall f <- fingerprintSubmissions ::
                fingerprintSubmissions[f] != [] && forall t <- fingerprintSubmissions[f] :: now - t < DAY
    {
      var todo := fingerprintSubmissions.Keys;
      while todo != {}
        invariant todo <= fingerprintSubmissions.Keys
        invariant AllMirror(fingerprintSubmissions, history, now)
        invariant forall f <- fingerprintSubmissions.Keys - todo ::
                    fingerprintSubmissions[f] != [] && forall t <- fingerprintSubmissions[f] :: now - t < DAY
        decreases |todo|
      {
        var key :| key in todo;
        var active := Recent(fingerprintSubmissions[key], now, DAY);
        assert Mirrors(Get(fingerprintSubmissions, key), TimesOf(history, key), now, DAY);
        PruneMirrors(fingerprintSubmissions[key], TimesOf(history, key), now, now, DAY);
        ghost var before := fingerprintSubmissions;
        if |active| > 0 {
          fingerprintSubmissions := fingerprintSubmissions[key := active];
        } else {
          fingerprintSubmissions := fingerprintSubmissions - {key};
        }
        todo := todo - {key};
        forall f ensures Mirrors(Get(fingerprintSubmissions, f), TimesOf(history, f), now, DAY) {
          assert Mirrors(Get(before, f), TimesOf(history, f), now, DAY);
          assert f != key ==> Get(fingerprintSubmissions, f) == Get(before, f);
        }
      }
    }
  }
}
