/** Counting events in time windows. Times are real numbers, windows are half-open. */
module Windows {

  predicate Sorted(a: seq<real>) {
    forall i, j | 0 <= i <= j < |a| :: a[i] <= a[j]
  }

  /** Any two events that are `n` or more positions apart are `len` or more apart in time. */
  predicate Spaced(a: seq<real>, n: nat, len: real) {
    forall i, j | 0 <= i && i + n <= j < |a| :: a[i] + len <= a[j]
  }

  /** Number of events in `[lo, hi)`. */
  function Count(a: seq<real>, lo: real, hi: real): nat {
    if a == [] then 0
    else Count(a[..|a| - 1], lo, hi) + if lo <= a[|a| - 1] < hi then 1 else 0
  }

  /** The events of a window, by position. */
  function Positions(a: seq<real>, lo: real, hi: real): set<nat> {
    set i: nat | i < |a| && lo <= a[i] < hi
  }

  lemma {:induction false} CountMeans(a: seq<real>, lo: real, hi: real)
    ensures Count(a, lo, hi) == |Positions(a, lo, hi)|
  {
    if a == [] {
      assert Positions(a, lo, hi) == {};
    } else {
      var n := |a| - 1;
      CountMeans(a[..n], lo, hi);
      assert Positions(a, lo, hi) == Positions(a[..n], lo, hi) + if lo <= a[n] < hi then {n} else {};
    }
  }

  /** In a sorted sequence the events of a window are consecutive. */
  lemma {:induction false} CountIsStretch(a: seq<real>, lo: real, hi: real) returns (i: nat, j: nat)
    requires Sorted(a)
    ensures i <= j <= |a| && Count(a, lo, hi) == j - i
    ensures forall k | i <= k < j :: lo <= a[k] < hi
    ensures forall k | j <= k < |a| :: i < j ==> hi <= a[k]
  {
    if a == [] {
      i, j := 0, 0;
    } else {
      var n := |a| - 1;
      i, j := CountIsStretch(a[..n], lo, hi);
      if lo <= a[n] < hi {
        if i == j {
          i := n;
        }
        j := n + 1;
      }
    }
  }

  /** A stretch of events that fits into less than `len` has at most `n` of them. */
  lemma StretchFits(a: seq<real>, n: nat, len: real, i: nat, j: nat)
    requires i <= j <= |a| && Spaced(a, n, len)
    requires forall k | i <= k < j :: a[k] < a[i] + len
    ensures j - i <= n
  {
    if i < j && i + n < |a| {
      assert a[i] + len <= a[i + n];
    }
  }

  lemma WindowBound(a: seq<real>, n: nat, len: real, t: real)
    requires Sorted(a) && Spaced(a, n, len)
    ensures Count(a, t, t + len) <= n
  {
    var i, j := CountIsStretch(a, t, t + len);
    StretchFits(a, n, len, i, j);
  }

  lemma {:induction false} CountSplit(a: seq<real>, lo: real, mid: real, hi: real)
    requires lo <= mid <= hi
    ensures Count(a, lo, hi) == Count(a, lo, mid) + Count(a, mid, hi)
  {
    if a != [] {
      CountSplit(a[..|a| - 1], lo, mid, hi);
    }
  }

  lemma {:induction false} CountMonotone(a: seq<real>, lo: real, hi: real, hi': real)
    requires hi <= hi'
    ensures Count(a, lo, hi) <= Count(a, lo, hi')
  {
    if a != [] {
      CountMonotone(a[..|a| - 1], lo, hi, hi');
    }
  }

  /** `k + 1` windows of length `len` put together. */
  function Span(len: real, k: nat): real {
    if k == 0 then len else len + Span(len, k - 1)
  }

  lemma {:induction false} SpanIs(len: real, k: nat)
    ensures Span(len, k) == len * (k as real + 1.0)
  {
    if k > 0 {
      SpanIs(len, k - 1);
      assert len + len * ((k - 1) as real + 1.0) == len * (k as real + 1.0);
    }
  }

  lemma {:induction false} ManyWindows(a: seq<real>, n: nat, len: real, t: real, k: nat)
    requires Sorted(a) && Spaced(a, n, len) && len > 0.0
    ensures len <= Span(len, k) && Count(a, t, t + Span(len, k)) <= n * (k + 1)
    decreases k
  {
    WindowBound(a, n, len, t);
    if k > 0 {
      ManyWindows(a, n, len, t + len, k - 1);
      var rest := Span(len, k - 1);
      assert Span(len, k) == len + rest;
      CountSplit(a, t, t + len, t + len + rest);
      assert t + (len + rest) == t + len + rest;
      assert n * (k + 1) == n + n * (k - 1 + 1);
    }
  }

  lemma Scale(x: real, y: real, len: real)
    requires x < y && len > 0.0
    ensures len * x < len * y
  {
  }

  lemma SpanCovers(T: real, len: real)
    requires len > 0.0 && T >= 0.0
    ensures (T / len).Floor >= 0 && T < Span(len, (T / len).Floor)
  {
    var q := T / len;
    assert len * q == T;
    Scale(q, q.Floor as real + 1.0, len);
    SpanIs(len, q.Floor);
  }

  /** A window of any length `T` holds at most `n * (floor(T / len) + 1)` events. */
  lemma LongWindowBound(a: seq<real>, n: nat, len: real, t: real, T: real)
    requires Sorted(a) && Spaced(a, n, len) && len > 0.0 && T >= 0.0
    ensures Count(a, t, t + T) <= n * ((T / len).Floor + 1)
  {
    var k := (T / len).Floor;
    SpanCovers(T, len);
    var span := Span(len, k);
    CountMonotone(a, t, t + T, t + span);
    ManyWindows(a, n, len, t, k);
  }
}

/** The sliding-window rate limiter, one window of 60 seconds per key. */
module RateLimiting {
  import opened Windows

  const WINDOW: real := 60.0

  datatype Call = Call(key: string, at: real)

  /** The clock does not run backwards. */
  predicate Ordered(calls: seq<Call>) {
    forall i, j | 0 <= i <= j < |calls| :: calls[i].at <= calls[j].at
  }

  /** The entries of `a` that are younger than the window. */
  function Recent(a: seq<real>, now: real): seq<real> {
    if a == [] || a[0] > now - WINDOW then a else Recent(a[1..], now)
  }

  /** A call at time `t` would be accepted after the accepted calls `a`. */
  predicate Admits(n: nat, a: seq<real>, t: real) {
    |Recent(a, t)| < n
  }

  /** The accepted calls of one key: a call passes when fewer than `n` accepted ones are recent. */
  function Accepted(n: nat, calls: seq<Call>, key: string): seq<real> {
    if calls == [] then []
    else
      var before, c := Accepted(n, calls[..|calls| - 1], key), calls[|calls| - 1];
      if c.key == key && Admits(n, before, c.at) then before + [c.at] else before
  }

  lemma {:induction false} RecentIsSuffix(a: seq<real>, now: real) returns (d: nat)
    requires Sorted(a)
    ensures d <= |a| && Recent(a, now) == a[d..]
    ensures forall i | 0 <= i < d :: a[i] <= now - WINDOW
    ensures forall i | d <= i < |a| :: a[i] > now - WINDOW
  {
    if a == [] || a[0] > now - WINDOW {
      d := 0;
    } else {
      var d' := RecentIsSuffix(a[1..], now);
      d := d' + 1;
      assert a[1..][d'..] == a[d..];
      assert forall i | 1 <= i < |a| :: a[i] == a[1..][i - 1];
    }
  }

  lemma {:induction false} RecentSkips(a: seq<real>, now: real, k: nat)
    requires k <= |a| && forall i | 0 <= i < k :: a[i] <= now - WINDOW
    ensures Recent(a, now) == Recent(a[k..], now)
  {
    if k == 0 {
      assert a[0..] == a;
    } else {
      RecentSkips(a[1..], now, k - 1);
      assert a[1..][k - 1..] == a[k..];
    }
  }

  lemma {:induction false} AcceptedSpaced(n: nat, calls: seq<Call>, key: string)
    requires n > 0 && Ordered(calls)
    ensures var a := Accepted(n, calls, key);
            && Sorted(a) && Spaced(a, n, WINDOW)
            && (a != [] ==> calls != [] && a[|a| - 1] <= calls[|calls| - 1].at)
  {
    if calls != [] {
      var before, c := calls[..|calls| - 1], calls[|calls| - 1];
      AcceptedSpaced(n, before, key);
      var a := Accepted(n, before, key);
      if c.key == key && Admits(n, a, c.at) {
        var d := RecentIsSuffix(a, c.at);
      }
    }
  }

  /** Over any run, every half-open 60 second window holds at most `n` accepted calls of a key. */
  lemma SlidingWindow(n: nat, calls: seq<Call>, key: string, t: real)
    requires n > 0 && Ordered(calls)
    ensures Count(Accepted(n, calls, key), t, t + 60.0) <= n
  {
    AcceptedSpaced(n, calls, key);
    WindowBound(Accepted(n, calls, key), n, WINDOW, t);
  }

  /**
    What a call is decided by: it is accepted exactly if fewer than `n` calls of its key have been,
    or the `n`-th last of those lies at least 60 seconds back.
   */
  lemma AcceptedExactly(n: nat, calls: seq<Call>, c: Call, key: string)
    requires n > 0 && Ordered(calls + [c])
    ensures var a, a' := Accepted(n, calls, key), Accepted(n, calls + [c], key);
            a' == if c.key == key && (|a| < n || a[|a| - n] <= c.at - 60.0) then a + [c.at] else a
  {
    assert (calls + [c])[..|calls|] == calls;
    OrderedBefore(calls, c);
    AcceptedSpaced(n, calls, key);
    var a := Accepted(n, calls, key);
    var d := RecentIsSuffix(a, c.at);
    if |a| >= n {
      assert d <= |a| - n ==> a[|a| - n] > c.at - 60.0;
    }
  }

  /** Waiting `retry` seconds is enough, and no whole second less is. */
  ghost predicate GoodAdvice(n: nat, a: seq<real>, now: real, retry: int) {
    && (forall t: real | t >= now + retry as real :: Admits(n, a, t))
    && (forall t: real | now <= t < now + (retry - 1) as real :: !Admits(n, a, t))
  }

  lemma RetryFits(n: nat, calls: seq<Call>, key: string, now: real, retry: int)
    requires n > 0 && Ordered(calls + [Call(key, now)])
    requires var r := Recent(Accepted(n, calls, key), now);
             |r| >= n && retry == (WINDOW - (now - r[0])).Floor + 1
    ensures 1 <= retry <= 61 && GoodAdvice(n, Accepted(n, calls, key), now, retry)
  {
    var a := Accepted(n, calls, key);
    OrderedBefore(calls, Call(key, now));
    AcceptedSpaced(n, calls, key);
    var d := RecentIsSuffix(a, now);
    StretchFits(a, n, WINDOW, d, |a|);
    forall t | t >= now + retry as real
      ensures Admits(n, a, t)
    {
      var d' := RecentIsSuffix(a, t);
      assert a[d] <= t - WINDOW;
    }
    forall t | now <= t < now + (retry - 1) as real
      ensures !Admits(n, a, t)
    {
      var d' := RecentIsSuffix(a, t);
      assert a[d] > t - WINDOW;
    }
  }

  /** The same advice, for the history in which the refused call is recorded. */
  lemma RefusalFits(n: nat, calls: seq<Call>, key: string, now: real, retry: int)
    requires n > 0 && Ordered(calls + [Call(key, now)])
    requires var r := Recent(Accepted(n, calls, key), now);
             |r| >= n && retry == (WINDOW - (now - r[0])).Floor + 1
    ensures 1 <= retry <= 61 && GoodAdvice(n, Accepted(n, calls + [Call(key, now)], key), now, retry)
  {
    RetryFits(n, calls, key, now, retry);
    assert (calls + [Call(key, now)])[..|calls|] == calls;
  }

  lemma OrderedNext(calls: seq<Call>, c: Call)
    requires Ordered(calls) && (calls != [] ==> calls[|calls| - 1].at <= c.at)
    ensures Ordered(calls + [c])
  {
  }

  lemma OrderedBefore(calls: seq<Call>, c: Call)
    requires Ordered(calls + [c])
    ensures Ordered(calls) && forall i | 0 <= i < |calls| :: calls[i].at <= c.at
  {
    var all := calls + [c];
    assert all[|calls|] == c;
    assert forall i | 0 <= i < |calls| :: all[i] == calls[i];
  }

  /** What is stored for a key is its accepted calls except some that are too old already. */
  predicate Stored(n: nat, calls: seq<Call>, hits: seq<real>, key: string) {
    var a := Accepted(n, calls, key);
    && |hits| <= |a|
    && hits == a[|a| - |hits|..]
    && forall i | 0 <= i < |a| - |hits| :: a[i] <= calls[|calls| - 1].at - WINDOW
  }

  /** Popping old entries from the stored hits gives the recent accepted calls. */
  lemma StoredRecent(n: nat, calls: seq<Call>, hits: seq<real>, key: string, now: real)
    requires Stored(n, calls, hits, key) && (calls != [] ==> calls[|calls| - 1].at <= now)
    ensures Recent(hits, now) == Recent(Accepted(n, calls, key), now)
  {
    var a := Accepted(n, calls, key);
    if calls != [] {
      RecentSkips(a, now, |a| - |hits|);
    }
  }

  function Get(hits: map<string, seq<real>>, key: string): seq<real> {
    if key in hits then hits[key] else []
  }

  lemma StoredOther(n: nat, calls: seq<Call>, hits: seq<real>, key: string, c: Call)
    requires Ordered(calls + [c]) && Stored(n, calls, hits, key) && c.key != key
    ensures Stored(n, calls + [c], hits, key)
  {
    assert (calls + [c])[..|calls|] == calls;
    OrderedBefore(calls, c);
  }

  lemma AcceptedNext(n: nat, calls: seq<Call>, c: Call)
    ensures var a, a' := Accepted(n, calls, c.key), Accepted(n, calls + [c], c.key);
            a' == if |Recent(a, c.at)| < n then a + [c.at] else a
  {
    assert (calls + [c])[..|calls|] == calls;
  }

  lemma SuffixStored(n: nat, calls: seq<Call>, key: string, d: nat)
    requires calls != [] && d <= |Accepted(n, calls, key)|
    requires var a := Accepted(n, calls, key); forall i | 0 <= i < d :: a[i] <= calls[|calls| - 1].at - WINDOW
    ensures Stored(n, calls, Accepted(n, calls, key)[d..], key)
  {
  }

  lemma SuffixPush(a: seq<real>, d: nat, x: real)
    requires d <= |a|
    ensures a[d..] + [x] == (a + [x])[d..]
    ensures forall i | 0 <= i < d :: (a + [x])[i] == a[i]
  {
  }

  lemma StoredSame(n: nat, calls: seq<Call>, c: Call)
    requires n > 0 && Ordered(calls + [c])
    ensures var r := Recent(Accepted(n, calls, c.key), c.at);
            Stored(n, calls + [c], if |r| < n then r + [c.at] else r, c.key)
  {
    OrderedBefore(calls, c);
    var a := Accepted(n, calls, c.key);
    AcceptedSpaced(n, calls, c.key);
    var d := RecentIsSuffix(a, c.at);
    AcceptedNext(n, calls, c);
    SuffixPush(a, d, c.at);
    SuffixStored(n, calls + [c], c.key, d);
  }

  lemma AllStored(n: nat, calls: seq<Call>, hits: map<string, seq<real>>, hits': map<string, seq<real>>,
                  c: Call)
    requires n > 0 && Ordered(calls + [c])
    requires forall k: string :: Stored(n, calls, Get(hits, k), k)
    requires var r := Recent(Accepted(n, calls, c.key), c.at);
             hits' == hits[c.key := if |r| < n then r + [c.at] else r]
    ensures forall k: string :: Stored(n, calls + [c], Get(hits', k), k)
    ensures Accepted(n, calls + [c], c.key) == Accepted(n, calls, c.key) +
              if Admits(n, Accepted(n, calls, c.key), c.at) then [c.at] else []
  {
    assert (calls + [c])[..|calls|] == calls;
    forall k: string
      ensures Stored(n, calls + [c], Get(hits', k), k)
    {
      if k == c.key {
        StoredSame(n, calls, c);
      } else {
        assert Get(hits', k) == Get(hits, k);
        StoredOther(n, calls, Get(hits, k), k, c);
      }
    }
  }

  class RateLimiter {
    const perMinute: nat
    var hits: map<string, seq<real>>

    /** Every call made so far. */
    ghost var calls: seq<Call>

    function Hits(key: string): seq<real>
      reads this
    {
      Get(hits, key)
    }

    ghost predicate Valid()
      reads this
    {
      && perMinute > 0
      && Ordered(calls)
      && (calls == [] ==> hits == map[])
      && forall key: string :: Stored(perMinute, calls, Get(hits, key), key)
    }

    constructor (perMinute: nat)
      requires perMinute > 0
      ensures Valid() && this.perMinute == perMinute && calls == []
    {
      this.perMinute := perMinute;
      hits := map[];
      calls := [];
    }

    /** Drops the stored hits of a key that have left the window. */
    method Expire(key: string, now: real) returns (q: seq<real>)
      modifies this`hits
      ensures q == Recent(old(Hits(key)), now)
      ensures hits == old(hits)[key := q]
    {
      q := Hits(key);
      while q != [] && q[0] <= now - WINDOW
        invariant Recent(q, now) == Recent(Hits(key), now) && hits == old(hits)
        decreases |q|
      {
        q := q[1..];
      }
      hits := hits[key := q];
    }

    /**
      Decides one call. `retry` tells a refused caller when to come back: a call that late is
      accepted unless other calls were accepted meanwhile, and a second earlier is too early.
     */
    method Check(key: string, now: real) returns (ok: bool, retry: int)
      requires Valid() && (calls != [] ==> calls[|calls| - 1].at <= now)
      modifies this
      ensures Valid() && calls == old(calls) + [Call(key, now)]
      ensures ok <==> Admits(perMinute, Accepted(perMinute, old(calls), key), now)
      ensures Accepted(perMinute, calls, key)
           == Accepted(perMinute, old(calls), key) + if ok then [now] else []
      ensures !ok ==> 1 <= retry <= 61
      ensures !ok ==> GoodAdvice(perMinute, Accepted(perMinute, calls, key), now, retry)
    {
      ghost var before := calls;
      OrderedNext(calls, Call(key, now));
      StoredRecent(perMinute, calls, Hits(key), key, now);
      var q := Expire(key, now);
      calls := calls + [Call(key, now)];
      ok := |q| < perMinute;
      if ok {
        hits := hits[key := q + [now]];
        retry := 0;
      } else {
        retry := (WINDOW - (now - q[0])).Floor + 1;
        RefusalFits(perMinute, before, key, now, retry);
        if retry < 1 {
          retry := 1;
        }
      }
      AllStored(perMinute, before, old(hits), hits, Call(key, now));
    }
  }
}

/** The lock that follows repeated password failures. */
module FailureLocking {
  import opened Windows

  /** Failures since the last lock and the end of the current lock (0 when there is none). */
  datatype Lock = Lock(fails: nat, until: real)

  const FRESH := Lock(0, 0.0)

  function Failed(limit: nat, secs: real, l: Lock, now: real): Lock {
    if l.fails + 1 >= limit then Lock(0, now + secs) else Lock(l.fails + 1, l.until)
  }

  /** One serialized attempt with a wrong password: locked? at `checked`, failure at `recorded`. */
  datatype Attempt = Attempt(checked: real, recorded: real)

  predicate Serialized(s: seq<Attempt>) {
    && (forall i | 0 <= i < |s| :: s[i].checked <= s[i].recorded)
    && (forall i, j | 0 <= i < j < |s| :: s[i].recorded <= s[j].checked)
  }

  /** The lock and the times of the failed attempts that were let through. */
  function Run(limit: nat, secs: real, s: seq<Attempt>): (Lock, seq<real>) {
    if s == [] then (FRESH, [])
    else
      var (l, times) := Run(limit, secs, s[..|s| - 1]);
      var a := s[|s| - 1];
      if l.until > a.checked then (l, times)
      else (Failed(limit, secs, l, a.recorded), times + [a.recorded])
  }

  /** All but the last `l.fails` failures lie at least `secs` before the end of the lock. */
  predicate LockInv(limit: nat, secs: real, l: Lock, times: seq<real>) {
    && l.fails < limit && l.fails <= |times|
    && Sorted(times) && Spaced(times, limit, secs)
    && forall i | 0 <= i < |times| - l.fails :: times[i] + secs <= l.until
  }

  lemma {:induction false} RunInv(limit: nat, secs: real, s: seq<Attempt>)
    requires limit > 0 && secs > 0.0 && Serialized(s)
    ensures LockInv(limit, secs, Run(limit, secs, s).0, Run(limit, secs, s).1)
    ensures s != [] ==> forall i | 0 <= i < |Run(limit, secs, s).1| ::
              Run(limit, secs, s).1[i] <= s[|s| - 1].recorded
    ensures s == [] ==> Run(limit, secs, s).1 == []
  {
    if s != [] {
      var before, a := s[..|s| - 1], s[|s| - 1];
      RunInv(limit, secs, before);
      assert before != [] ==> before[|before| - 1].recorded <= a.checked;
    }
  }

  /** Any half-open window of the lock length admits at most `limit` failed attempts. */
  lemma LockWindow(limit: nat, secs: real, s: seq<Attempt>, t: real)
    requires limit > 0 && secs > 0.0 && Serialized(s)
    ensures Count(Run(limit, secs, s).1, t, t + secs) <= limit
  {
    RunInv(limit, secs, s);
    WindowBound(Run(limit, secs, s).1, limit, secs, t);
  }

  /** A longer window admits at most `limit` per started lock length. */
  lemma LockLongWindow(limit: nat, secs: real, s: seq<Attempt>, t: real, T: real)
    requires limit > 0 && secs > 0.0 && Serialized(s) && T >= 0.0
    ensures Count(Run(limit, secs, s).1, t, t + T) <= limit * ((T / secs).Floor + 1)
  {
    RunInv(limit, secs, s);
    LongWindowBound(Run(limit, secs, s).1, limit, secs, t, T);
  }

  /** The first failures are all let through; the one that reaches the limit locks for the lock length, and only it. */
  lemma {:induction false} FirstFailures(limit: nat, secs: real, s: seq<Attempt>)
    requires 0 < |s| <= limit && secs > 0.0 && Serialized(s) && s[0].checked >= 0.0
    ensures var (l, times) := Run(limit, secs, s);
            && |times| == |s| && (forall i | 0 <= i < |s| :: times[i] == s[i].recorded)
            && l == if |s| == limit then Lock(0, s[|s| - 1].recorded + secs) else Lock(|s|, 0.0)
  {
    if |s| > 1 {
      FirstFailures(limit, secs, s[..|s| - 1]);
    } else {
      assert s[..0] == [];
    }
  }

  /** Between, attempts are refused exactly until the lock is over. */
  lemma RefusedWhileLocked(limit: nat, secs: real, s: seq<Attempt>, a: Attempt)
    requires limit > 0
    ensures var (l, times) := Run(limit, secs, s);
            var (l', times') := Run(limit, secs, s + [a]);
            && times' == (if a.checked < l.until then times else times + [a.recorded])
            && l' == if a.checked < l.until then l
                     else if l.fails + 1 >= limit then Lock(0, a.recorded + secs)
                     else Lock(l.fails + 1, l.until)
  {
    assert (s + [a])[..|s|] == s;
  }

  class FailureLock {
    const limit: nat
    const secs: real
    var fails: map<string, nat>
    var lockedUntil: map<string, real>

    function State(key: string): Lock
      reads this
    {
      Lock(if key in fails then fails[key] else 0, if key in lockedUntil then lockedUntil[key] else 0.0)
    }

    constructor (limit: nat, secs: real)
      ensures this.limit == limit && this.secs == secs
      ensures forall key :: State(key) == FRESH
    {
      this.limit, this.secs := limit, secs;
      fails, lockedUntil := map[], map[];
    }

    method IsLocked(key: string, now: real) returns (locked: bool, retry: int)
      ensures locked <==> State(key).until > now
      ensures locked ==> now + (retry - 1) as real <= State(key).until < now + retry as real
      ensures !locked ==> retry == 0
    {
      var until := if key in lockedUntil then lockedUntil[key] else 0.0;
      if until > now {
        return true, (until - now).Floor + 1;
      }
      return false, 0;
    }

    method RecordFailure(key: string, now: real)
      modifies this
      ensures State(key) == Failed(limit, secs, old(State(key)), now)
      ensures State(key) == if old(State(key)).fails + 1 >= limit then Lock(0, now + secs)
                            else Lock(old(State(key)).fails + 1, old(State(key)).until)
      ensures forall k | k != key :: State(k) == old(State(k))
    {
      fails := fails[key := (if key in fails then fails[key] else 0) + 1];
      if fails[key] >= limit {
        lockedUntil := lockedUntil[key := now + secs];
        fails := fails[key := 0];
      }
    }

    method RecordSuccess(key: string)
      modifies this
      ensures State(key) == FRESH
      ensures forall k | k != key :: State(k) == old(State(k))
    {
      fails, lockedUntil := fails - {key}, lockedUntil - {key};
    }

    /** One serialized attempt with a wrong password, as the intercom route makes it. */
    method Attempted(key: string, a: Attempt, ghost s: seq<Attempt>) returns (admitted: bool)
      requires State(key) == Run(limit, secs, s).0
      modifies this
      ensures State(key) == Run(limit, secs, s + [a]).0
      ensures Run(limit, secs, s + [a]).1
           == Run(limit, secs, s).1 + if admitted then [a.recorded] else []
    {
      assert (s + [a])[..|s|] == s;
      var locked, _ := IsLocked(key, a.checked);
      if !locked {
        RecordFailure(key, a.recorded);
      }
      admitted := !locked;
    }
  }
}
