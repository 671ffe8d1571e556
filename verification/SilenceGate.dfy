/**
  The silence gate in front of the translation session.

  The gate is a streaming filter with a hangover, a pre-roll buffer and byte counters.
  Its meaning is stated without any of that state: `Kept` decides for each chunk of the
  whole audio history whether it belongs to the output, and the class is proved to return,
  call by call, exactly the stateless filter `Passed` of everything fed so far.
*/
module SilenceGating {

  newtype Byte = b: int | 0 <= b < 256

  /** One block of PCM audio. */
  type Chunk = seq<Byte>

  /** Gate settings; the two windows are byte counts, loudness is a given predicate. */
  datatype Settings = Settings(enabled: bool, hangover: int, preroll: int, loud: Chunk -> bool)

  /** Bytes of the chunks `h[i..n]`. */
  function Bytes(h: seq<Chunk>, i: nat, n: nat): nat
    requires i <= n <= |h|
  {
    if i == n then 0 else Bytes(h, i, n - 1) + |h[n - 1]|
  }

  function Total(h: seq<Chunk>): nat {
    Bytes(h, 0, |h|)
  }

  /** Bytes of the unbroken quiet run that ends the first `n` chunks (0 when they end loud). */
  function QuietBytes(g: Settings, h: seq<Chunk>, n: nat): nat
    requires n <= |h|
  {
    if n == 0 || g.loud(h[n - 1]) then 0 else QuietBytes(g, h, n - 1) + |h[n - 1]|
  }

  /** The stretch `h[i..e]` is quiet and the loud chunk `e` ends it. */
  ghost predicate RunEndsAt(g: Settings, h: seq<Chunk>, i: nat, e: nat)
    requires i <= e < |h|
  {
    g.loud(h[e]) && forall j | i <= j < e :: !g.loud(h[j])
  }

  /** Chunk `i` lies close enough before the loud chunk that ended its quiet run. */
  ghost predicate PreRoll(g: Settings, h: seq<Chunk>, i: nat)
    requires i < |h|
  {
    exists e | i < e < |h| :: RunEndsAt(g, h, i, e) && Bytes(h, i, e) <= g.preroll
  }

  /** The stateless meaning of the gate for one chunk of the history. */
  ghost predicate Kept(g: Settings, h: seq<Chunk>, i: nat)
    requires i < |h|
  {
    || !g.enabled
    || g.loud(h[i])
    || QuietBytes(g, h, i + 1) < g.hangover
    || PreRoll(g, h, i)
  }

  /** The kept chunks among the first `n`, in order. */
  ghost function KeptUpTo(g: Settings, h: seq<Chunk>, n: nat): seq<Chunk>
    requires n <= |h|
  {
    if n == 0 then []
    else KeptUpTo(g, h, n - 1) + if Kept(g, h, n - 1) then [h[n - 1]] else []
  }

  ghost function Passed(g: Settings, h: seq<Chunk>): seq<Chunk> {
    KeptUpTo(g, h, |h|)
  }

  /** The gate closes at chunk `i`: its quiet run reaches the hangover there and not before. */
  ghost predicate ClosesAt(g: Settings, h: seq<Chunk>, i: nat)
    requires i < |h|
  {
    && g.enabled
    && !g.loud(h[i])
    && QuietBytes(g, h, i + 1) >= g.hangover
    && (i == 0 || g.loud(h[i - 1]) || QuietBytes(g, h, i) < g.hangover)
  }

  ghost function Closings(g: Settings, h: seq<Chunk>, n: nat): nat
    requires n <= |h|
  {
    if n == 0 then 0 else Closings(g, h, n - 1) + if ClosesAt(g, h, n - 1) then 1 else 0
  }

  /** A loud chunk at or after `i` has been seen, so no later audio changes the fate of chunk `i`. */
  ghost predicate Settled(g: Settings, h: seq<Chunk>, i: nat) {
    exists e | i <= e < |h| :: g.loud(h[e])
  }

  // ---- sums over stretches ----

  lemma {:induction false} BytesSame(a: seq<Chunk>, off: nat, b: seq<Chunk>, i: nat, n: nat)
    requires i <= n <= |b| && off + n <= |a|
    requires forall k | i <= k < n :: a[off + k] == b[k]
    ensures Bytes(a, off + i, off + n) == Bytes(b, i, n)
  {
    if i < n {
      assert a[off + (n - 1)] == b[n - 1];
      BytesSame(a, off, b, i, n - 1);
    }
  }

  lemma {:induction false} BytesSplit(h: seq<Chunk>, i: nat, j: nat, n: nat)
    requires i <= j <= n <= |h|
    ensures Bytes(h, i, n) == Bytes(h, i, j) + Bytes(h, j, n)
  {
    if j < n {
      BytesSplit(h, i, j, n - 1);
    }
  }

  lemma {:induction false} TotalPush(h: seq<Chunk>, c: Chunk)
    ensures Total(h + [c]) == Total(h) + |c|
  {
    BytesSame(h + [c], 0, h, 0, |h|);
  }

  lemma {:induction false} TotalAppend(a: seq<Chunk>, b: seq<Chunk>)
    ensures Total(a + b) == Total(a) + Total(b)
  {
    BytesSplit(a + b, 0, |a|, |a + b|);
    BytesSame(a + b, 0, a, 0, |a|);
    BytesSame(a + b, |a|, b, 0, |b|);
  }

  lemma {:induction false} TotalDropFirst(h: seq<Chunk>)
    requires h != []
    ensures Total(h) == |h[0]| + Total(h[1..])
  {
    BytesSplit(h, 0, 1, |h|);
    BytesSame(h, 1, h[1..], 0, |h| - 1);
  }

  lemma {:induction false} QuietSame(g: Settings, h: seq<Chunk>, c: Chunk, n: nat)
    requires n <= |h|
    ensures QuietBytes(g, h + [c], n) == QuietBytes(g, h, n)
  {
    if n > 0 {
      QuietSame(g, h, c, n - 1);
    }
  }

  /** `QuietBytes` weighs a concrete stretch: the longest quiet suffix. */
  lemma {:induction false} QuietRun(g: Settings, h: seq<Chunk>, n: nat) returns (j: nat)
    requires n <= |h|
    ensures j <= n && (j == 0 || g.loud(h[j - 1]))
    ensures forall k | j <= k < n :: !g.loud(h[k])
    ensures QuietBytes(g, h, n) == Bytes(h, j, n)
  {
    if n == 0 || g.loud(h[n - 1]) {
      j := n;
    } else {
      j := QuietRun(g, h, n - 1);
    }
  }

  // ---- the stateless filter ----

  /** A withheld chunk always ends an unbroken quiet stretch of at least the hangover. */
  lemma WithheldNeedsHangover(g: Settings, h: seq<Chunk>, i: nat) returns (j: nat)
    requires i < |h| && !Kept(g, h, i)
    ensures j <= i + 1
    ensures forall k | j <= k <= i :: !g.loud(h[k])
    ensures Bytes(h, j, i + 1) >= g.hangover
  {
    j := QuietRun(g, h, i + 1);
  }

  /** Once chunk `i` is settled, the loud chunk ending its run is the same in any longer history. */
  lemma PreRollStays(g: Settings, h: seq<Chunk>, h': seq<Chunk>, i: nat, e: nat, d: nat)
    requires h <= h' && i < e < |h'| && i <= d < |h| && g.loud(h[d])
    ensures RunEndsAt(g, h', i, e) <==> e < |h| && RunEndsAt(g, h, i, e)
    ensures e < |h| ==> Bytes(h', i, e) == Bytes(h, i, e)
  {
    assert h'[d] == h[d];
    if e < |h| {
      BytesSame(h', 0, h, i, e);
      assert forall j | i <= j <= e :: h'[j] == h[j];
    }
  }

  /** Audio arriving later does not change a settled decision. */
  lemma SettledStays(g: Settings, h: seq<Chunk>, c: Chunk, i: nat)
    requires i < |h| && Settled(g, h, i)
    ensures Kept(g, h + [c], i) == Kept(g, h, i)
    ensures Settled(g, h + [c], i)
  {
    var h' := h + [c];
    QuietSame(g, h, c, i + 1);
    var d :| i <= d < |h| && g.loud(h[d]);
    assert h'[d] == h[d];
    forall e: nat | i < e < |h'|
      ensures RunEndsAt(g, h', i, e) <==> e < |h| && RunEndsAt(g, h, i, e)
      ensures e < |h| ==> Bytes(h', i, e) == Bytes(h, i, e)
    {
      PreRollStays(g, h, h', i, e, d);
    }
  }

  /** Appending a quiet chunk changes no earlier decision. */
  lemma QuietDecidesNothing(g: Settings, h: seq<Chunk>, c: Chunk, i: nat)
    requires i < |h| && !g.loud(c)
    ensures Kept(g, h + [c], i) == Kept(g, h, i)
  {
    if Settled(g, h, i) {
      SettledStays(g, h, c, i);
    } else {
      var h' := h + [c];
      QuietSame(g, h, c, i + 1);
      assert forall e | i <= e < |h| :: h'[e] == h[e] && !g.loud(h[e]);
      assert !PreRoll(g, h', i) && !PreRoll(g, h, i);
    }
  }

  /** A loud chunk releases from the pending quiet run exactly the part that fits the pre-roll. */
  lemma {:induction false} LoudReleases(g: Settings, h: seq<Chunk>, c: Chunk, i: nat)
    requires i < |h| && g.loud(c) && !Settled(g, h, i)
    ensures Kept(g, h + [c], i) <==> Kept(g, h, i) || Bytes(h, i, |h|) <= g.preroll
  {
    var h' := h + [c];
    QuietSame(g, h, c, i + 1);
    BytesSame(h', 0, h, i, |h|);
    assert forall j | i <= j < |h| :: h'[j] == h[j] && !g.loud(h[j]);
    assert RunEndsAt(g, h', i, |h|);
    assert forall e | i < e < |h'| && RunEndsAt(g, h', i, e) :: e == |h|;
    assert !PreRoll(g, h, i);
  }

  lemma {:induction false} KeptUpToSame(g: Settings, h: seq<Chunk>, c: Chunk, n: nat)
    requires n <= |h|
    requires forall i | 0 <= i < n :: Kept(g, h + [c], i) == Kept(g, h, i)
    ensures KeptUpTo(g, h + [c], n) == KeptUpTo(g, h, n)
  {
    if n > 0 {
      KeptUpToSame(g, h, c, n - 1);
    }
  }

  lemma {:induction false} NoneKept(g: Settings, h: seq<Chunk>, p: nat, n: nat)
    requires p <= n <= |h|
    requires forall i | p <= i < n :: !Kept(g, h, i)
    ensures KeptUpTo(g, h, n) == KeptUpTo(g, h, p)
  {
    if p < n {
      NoneKept(g, h, p, n - 1);
    }
  }

  lemma {:induction false} AllKept(g: Settings, h: seq<Chunk>, p: nat, n: nat)
    requires p <= n <= |h|
    requires forall i | p <= i < n :: Kept(g, h, i)
    ensures KeptUpTo(g, h, n) == KeptUpTo(g, h, p) + h[p..n]
  {
    if p < n {
      AllKept(g, h, p, n - 1);
      assert h[p..n] == h[p..n - 1] + [h[n - 1]];
    } else {
      assert h[p..n] == [];
    }
  }

  /** The fate of the first `n` chunks is known: kept already, or settled by a loud chunk. */
  ghost predicate Decided(g: Settings, h: seq<Chunk>, n: nat)
    requires n <= |h|
  {
    forall i | 0 <= i < n :: Kept(g, h, i) || Settled(g, h, i)
  }

  /** Chunk `i` is quiet and its run has reached the hangover. */
  predicate BeyondHangover(g: Settings, h: seq<Chunk>, i: nat)
    requires i < |h|
  {
    !g.loud(h[i]) && QuietBytes(g, h, i + 1) >= g.hangover
  }

  ghost predicate Pending(g: Settings, h: seq<Chunk>, from: nat) {
    forall i | from <= i < |h| :: BeyondHangover(g, h, i)
  }

  lemma DecidedStays(g: Settings, h: seq<Chunk>, c: Chunk, n: nat)
    requires n <= |h| && Decided(g, h, n)
    ensures Decided(g, h + [c], n)
    ensures KeptUpTo(g, h + [c], n) == KeptUpTo(g, h, n)
  {
    forall i | 0 <= i < n
      ensures Kept(g, h + [c], i) == Kept(g, h, i)
      ensures Settled(g, h, i) ==> Settled(g, h + [c], i)
    {
      if Settled(g, h, i) {
        SettledStays(g, h, c, i);
      } else if g.loud(c) {
        LoudReleases(g, h, c, i);
      } else {
        QuietDecidesNothing(g, h, c, i);
      }
    }
    KeptUpToSame(g, h, c, n);
  }

  /** While nothing is pending, a loud chunk passes by itself. */
  lemma LoudPasses(g: Settings, h: seq<Chunk>, c: Chunk)
    requires Decided(g, h, |h|) && (g.loud(c) || !g.enabled)
    ensures Passed(g, h + [c]) == Passed(g, h) + [c]
    ensures Decided(g, h + [c], |h| + 1)
  {
    DecidedStays(g, h, c, |h|);
  }

  /** A quiet chunk passes exactly while its run is below the hangover. */
  lemma QuietPasses(g: Settings, h: seq<Chunk>, c: Chunk)
    requires !g.loud(c) && g.enabled
    ensures QuietBytes(g, h + [c], |h| + 1) == QuietBytes(g, h, |h|) + |c|
    ensures Passed(g, h + [c])
         == Passed(g, h) + if QuietBytes(g, h, |h|) + |c| < g.hangover then [c] else []
  {
    forall i | 0 <= i < |h|
      ensures Kept(g, h + [c], i) == Kept(g, h, i)
    {
      QuietDecidesNothing(g, h, c, i);
    }
    KeptUpToSame(g, h, c, |h|);
    QuietSame(g, h, c, |h|);
    assert !PreRoll(g, h + [c], |h|);
  }

  lemma QuietStaysPending(g: Settings, h: seq<Chunk>, c: Chunk, from: nat)
    requires Pending(g, h, from) && from <= |h| && !g.loud(c)
    requires QuietBytes(g, h, |h|) + |c| >= g.hangover
    ensures Pending(g, h + [c], from)
  {
    var h' := h + [c];
    forall i | from <= i < |h'|
      ensures BeyondHangover(g, h', i)
    {
      assert i < |h| ==> BeyondHangover(g, h, i);
      QuietSame(g, h, c, if i < |h| then i + 1 else i);
    }
  }

  /** The number of closings grows exactly when a quiet run first reaches the hangover. */
  lemma ClosingsStep(g: Settings, h: seq<Chunk>, c: Chunk)
    ensures Closings(g, h + [c], |h| + 1) == Closings(g, h, |h|) +
              if g.enabled && !g.loud(c) && QuietBytes(g, h, |h|) + |c| >= g.hangover
                 && (h == [] || g.loud(h[|h| - 1]) || QuietBytes(g, h, |h|) < g.hangover) then 1 else 0
  {
    ClosingsSame(g, h, c, |h|);
    QuietSame(g, h, c, |h|);
  }

  lemma {:induction false} ClosingsSame(g: Settings, h: seq<Chunk>, c: Chunk, n: nat)
    requires n <= |h|
    ensures Closings(g, h + [c], n) == Closings(g, h, n)
  {
    if n > 0 {
      QuietSame(g, h, c, n);
      QuietSame(g, h, c, n - 1);
      ClosingsSame(g, h, c, n - 1);
    }
  }

  /** While the gate is closed a quiet chunk changes only what is pending. */
  lemma ClosedQuiet(g: Settings, h: seq<Chunk>, c: Chunk, from: nat)
    requires !g.loud(c) && g.enabled && from < |h|
    requires Decided(g, h, from) && Pending(g, h, from)
    ensures Passed(g, h + [c]) == Passed(g, h)
    ensures Decided(g, h + [c], from) && Pending(g, h + [c], from)
    ensures Closings(g, h + [c], |h| + 1) == Closings(g, h, |h|)
  {
    assert BeyondHangover(g, h, |h| - 1);
    QuietPasses(g, h, c);
    DecidedStays(g, h, c, from);
    QuietStaysPending(g, h, c, from);
    ClosingsStep(g, h, c);
  }

  /** `h[p..]` is the longest suffix of `h[at..]` that fits into the pre-roll (empty when none does). */
  predicate LongestFit(g: Settings, h: seq<Chunk>, at: nat, p: nat) {
    && at <= p <= |h|
    && (p == |h| || Bytes(h, p, |h|) <= g.preroll)
    && (p == at || Bytes(h, p - 1, |h|) > g.preroll)
  }

  /** Fitting is decided by position: from `p` on a suffix fits, before `p` it does not. */
  lemma {:induction false} LongestFitDecides(g: Settings, h: seq<Chunk>, at: nat, p: nat, i: nat)
    requires LongestFit(g, h, at, p) && at <= i < |h|
    ensures Bytes(h, i, |h|) <= g.preroll <==> p <= i
  {
    if i < p {
      BytesSplit(h, i, p - 1, |h|);
    } else {
      BytesSplit(h, p, i, |h|);
    }
  }

  /** The chunk that reopens the gate brings back the stored suffix and nothing else. */
  lemma LoudReopens(g: Settings, h: seq<Chunk>, c: Chunk, at: nat, p: nat)
    requires g.loud(c) && g.enabled
    requires LongestFit(g, h, at, p)
    requires Decided(g, h, at) && Pending(g, h, at)
    ensures Passed(g, h + [c]) == Passed(g, h) + h[p..] + [c]
    ensures Decided(g, h + [c], |h| + 1)
  {
    var h' := h + [c];
    forall i | at <= i < |h|
      ensures !Kept(g, h, i)
      ensures Kept(g, h', i) <==> p <= i
    {
      assert BeyondHangover(g, h, i);
      forall e | i <= e < |h|
        ensures !g.loud(h[e])
      {
        assert BeyondHangover(g, h, e);
      }
      assert !PreRoll(g, h, i);
      LoudReleases(g, h, c, i);
      LongestFitDecides(g, h, at, p, i);
    }
    DecidedStays(g, h, c, at);
    NoneKept(g, h, at, |h|);
    NoneKept(g, h', at, p);
    AllKept(g, h', p, |h|);
    assert h'[p..|h|] == h[p..];
    assert g.loud(h'[|h|]);
  }

  // ---- the gate's variables and what they mean ----

  datatype Gate = Gate(
    open: bool, closes: nat, sentBytes: int, gatedBytes: int, silenceBytes: int,
    prebuffer: seq<Chunk>, prebufferBytes: int)

  /**
    The variables agree with the history: `h` is everything fed, `r` everything returned and,
    while the gate is closed, `at` is where it closed and `p` where the stored suffix starts.
   */
  ghost predicate Inv(g: Settings, h: seq<Chunk>, r: seq<Chunk>, at: nat, p: nat, s: Gate) {
    match s
    case Gate(open, closes, sent, gated, silence, stored, storedBytes) =>
      && r == Passed(g, h)
      && sent == Total(r)
      && sent + gated == Total(h)
      && closes == Closings(g, h, |h|)
      && storedBytes == Total(stored)
      && (!g.enabled ==> open)
      && if open then OpenInv(g, h, silence, stored) else ClosedInv(g, h, at, p, stored)
  }

  /** Open: nothing is stored, nothing is pending, and a trailing quiet run is below the hangover. */
  ghost predicate OpenInv(g: Settings, h: seq<Chunk>, silence: int, stored: seq<Chunk>) {
    && stored == []
    && Decided(g, h, |h|)
    && (g.enabled ==> silence == QuietBytes(g, h, |h|))
    && (g.enabled && QuietBytes(g, h, |h|) >= g.hangover ==> h == [] || g.loud(h[|h| - 1]))
  }

  /** Closed: the store is the longest suffix of the audio since closing that fits. */
  ghost predicate ClosedInv(g: Settings, h: seq<Chunk>, at: nat, p: nat, stored: seq<Chunk>) {
    && at < |h|
    && Decided(g, h, at)
    && Pending(g, h, at)
    && LongestFit(g, h, at, p)
    && stored == h[p..]
  }

  lemma InvPassThrough(g: Settings, h: seq<Chunk>, r: seq<Chunk>, at: nat, p: nat, s: Gate, c: Chunk)
    requires Inv(g, h, r, at, p, s) && s.open && (!g.enabled || g.loud(c))
    ensures Inv(g, h + [c], r + [c], at, p,
                s.(silenceBytes := if g.enabled then 0 else s.silenceBytes,
                   sentBytes := s.sentBytes + |c|))
  {
    LoudPasses(g, h, c);
    ClosingsStep(g, h, c);
    TotalPush(h, c);
    TotalPush(r, c);
  }

  lemma InvHangover(g: Settings, h: seq<Chunk>, r: seq<Chunk>, at: nat, p: nat, s: Gate, c: Chunk)
    requires Inv(g, h, r, at, p, s) && s.open && g.enabled && !g.loud(c)
    requires s.silenceBytes + |c| < g.hangover
    ensures Inv(g, h + [c], r + [c], at, p,
                s.(silenceBytes := s.silenceBytes + |c|, sentBytes := s.sentBytes + |c|))
  {
    QuietPasses(g, h, c);
    DecidedStays(g, h, c, |h|);
    ClosingsStep(g, h, c);
    TotalPush(h, c);
    TotalPush(r, c);
    assert Kept(g, h + [c], |h|);
  }

  /** The gate just closed by chunk `c`. */
  function Closed(g: Settings, s: Gate, c: Chunk): Gate {
    var stored := Trimmed([c], g.preroll);
    Gate(false, s.closes + 1, s.sentBytes, s.gatedBytes + |c|, s.silenceBytes + |c|, stored, Total(stored))
  }

  /** The chunk that closes the gate is the first one to be stored. */
  lemma {:induction false} InvCloses(g: Settings, h: seq<Chunk>, r: seq<Chunk>, at: nat, p: nat, s: Gate, c: Chunk)
    returns (p': nat)
    requires Inv(g, h, r, at, p, s) && s.open && g.enabled && !g.loud(c)
    requires s.silenceBytes + |c| >= g.hangover
    ensures Inv(g, h + [c], r, |h|, p', Closed(g, s, c))
  {
    QuietPasses(g, h, c);
    DecidedStays(g, h, c, |h|);
    ClosingsStep(g, h, c);
    TotalPush(h, c);
    QuietStaysPending(g, h, c, |h|);
    var h', all := h + [c], [c];
    assert |all| == 1 && all[0] == h'[|h|];
    var d := TrimmedIsSuffix(all, g.preroll);
    TrimExtends(g, h, h', |h|, |h|, all, d);
    p' := |h| + d;
  }

  /** Trimming the stored suffix after each chunk is the same as trimming the whole stretch. */
  lemma {:induction false} InvStaysClosed(g: Settings, h: seq<Chunk>, r: seq<Chunk>, at: nat, p: nat, s: Gate, c: Chunk)
    returns (p': nat)
    requires Inv(g, h, r, at, p, s) && !s.open && !g.loud(c)
    ensures Inv(g, h + [c], r, at, p',
                s.(gatedBytes := s.gatedBytes + |c|,
                   prebuffer := Trimmed(s.prebuffer + [c], g.preroll),
                   prebufferBytes := Total(Trimmed(s.prebuffer + [c], g.preroll))))
  {
    ClosedQuiet(g, h, c, at);
    TotalPush(h, c);
    var h', all := h + [c], s.prebuffer + [c];
    var d := TrimmedIsSuffix(all, g.preroll);
    assert forall k | 0 <= k < |all| :: h'[p + k] == all[k];
    TrimExtends(g, h, h', at, p, all, d);
    p' := p + d;
  }

  lemma {:induction false} TrimExtends(g: Settings, h: seq<Chunk>, h': seq<Chunk>, at: nat, p: nat,
                                       all: seq<Chunk>, d: nat)
    requires LongestFit(g, h, at, p)
    requires |h'| == |h| + 1 == p + |all| && forall k | 0 <= k < |h| :: h'[k] == h[k]
    requires forall k | 0 <= k < |all| :: h'[p + k] == all[k]
    requires TrimmedBy(all, d, g.preroll)
    ensures LongestFit(g, h', at, p + d)
    ensures all[d..] == h'[p + d..]
  {
    SameTail(h', p, all, d);
    if d > 0 {
      SameTail(h', p, all, d - 1);
    } else if p > at {
      Longer(h, h', p - 1);
    }
  }

  lemma {:induction false} Longer(h: seq<Chunk>, h': seq<Chunk>, i: nat)
    requires i <= |h| && |h'| == |h| + 1 && forall k | 0 <= k < |h| :: h'[k] == h[k]
    ensures Bytes(h', i, |h'|) >= Bytes(h, i, |h|)
  {
    assert Bytes(h', i, |h|) == Bytes(h, i, |h|) by {
      BytesSame(h', 0, h, i, |h|);
    }
    assert Bytes(h', i, |h| + 1) == Bytes(h', i, |h|) + |h'[|h|]|;
  }

  lemma {:induction false} SameTail(h: seq<Chunk>, p: nat, all: seq<Chunk>, d: nat)
    requires |h| == p + |all| && d <= |all| && forall k | 0 <= k < |all| :: h[p + k] == all[k]
    ensures all[d..] == h[p + d..]
    ensures Bytes(h, p + d, |h|) == Bytes(all, d, |all|)
  {
    BytesSame(h, p, all, d, |all|);
  }

  lemma {:induction false} InvResumes(g: Settings, h: seq<Chunk>, r: seq<Chunk>, at: nat, p: nat, s: Gate, c: Chunk)
    requires Inv(g, h, r, at, p, s) && !s.open && g.loud(c)
    ensures Inv(g, h + [c], r + (s.prebuffer + [c]), at, p,
                Gate(true, s.closes, s.sentBytes + s.prebufferBytes + |c|,
                     s.gatedBytes - s.prebufferBytes, 0, [], 0))
  {
    LoudReopens(g, h, c, at, p);
    ClosingsStep(g, h, c);
    TotalPush(h, c);
    TotalPush(s.prebuffer, c);
    TotalAppend(r, s.prebuffer + [c]);
    assert r + (s.prebuffer + [c]) == r + s.prebuffer + [c];
  }

  /** `d` is the least number of chunks to drop from the front so that the rest fits. */
  predicate TrimmedBy(all: seq<Chunk>, d: nat, limit: int) {
    && d <= |all|
    && (d == |all| || Bytes(all, d, |all|) <= limit)
    && (d == 0 || Bytes(all, d - 1, |all|) > limit)
  }

  /** What is left of the stored chunks after dropping from the front until they fit. */
  function Trimmed(all: seq<Chunk>, limit: int): seq<Chunk> {
    if all == [] || Total(all) <= limit then all else Trimmed(all[1..], limit)
  }

  lemma {:induction false} TrimmedIsSuffix(all: seq<Chunk>, limit: int) returns (d: nat)
    ensures TrimmedBy(all, d, limit) && Trimmed(all, limit) == all[d..]
  {
    if all == [] || Total(all) <= limit {
      d := 0;
    } else {
      var rest := all[1..];
      d := TrimmedIsSuffix(rest, limit);
      BytesSame(all, 1, rest, d, |rest|);
      if d > 0 {
        BytesSame(all, 1, rest, d - 1, |rest|);
      }
      assert rest[d..] == all[d + 1..];
      d := d + 1;
    }
  }

  // ---- the streaming implementation ----

  class SilenceGate {
    const g: Settings

    var open: bool
    var closes: nat
    var sentBytes: int
    var gatedBytes: int
    var silenceBytes: int
    var prebuffer: seq<Chunk>
    var prebufferBytes: int

    /** Every non-empty chunk fed so far and every chunk returned so far. */
    ghost var fed: seq<Chunk>
    ghost var returned: seq<Chunk>
    /** Where the gate last closed and where the stored suffix starts. */
    ghost var closedAt: nat
    ghost var keptFrom: nat

    function State(): Gate
      reads this
    {
      Gate(open, closes, sentBytes, gatedBytes, silenceBytes, prebuffer, prebufferBytes)
    }

    ghost predicate Valid()
      reads this
    {
      Inv(g, fed, returned, closedAt, keptFrom, State())
    }

    constructor (g: Settings)
      ensures Valid() && this.g == g
      ensures State() == Gate(true, 0, 0, 0, 0, [], 0)
      ensures fed == [] && returned == []
    {
      this.g := g;
      open, closes, sentBytes, gatedBytes, silenceBytes := true, 0, 0, 0, 0;
      prebuffer, prebufferBytes := [], 0;
      fed, returned, closedAt, keptFrom := [], [], 0, 0;
    }

    /** Stores a gated chunk and drops from the front what exceeds the pre-roll window. */
    method Buffer(pcm: Chunk)
      requires prebufferBytes == Total(prebuffer)
      modifies this`gatedBytes, this`prebuffer, this`prebufferBytes
      ensures gatedBytes == old(gatedBytes) + |pcm|
      ensures prebuffer == Trimmed(old(prebuffer) + [pcm], g.preroll)
      ensures prebufferBytes == Total(prebuffer)
    {
      gatedBytes := gatedBytes + |pcm|;
      TotalPush(prebuffer, pcm);
      prebuffer := prebuffer + [pcm];
      prebufferBytes := prebufferBytes + |pcm|;
      while prebuffer != [] && prebufferBytes > g.preroll
        invariant gatedBytes == old(gatedBytes) + |pcm|
        invariant prebufferBytes == Total(prebuffer)
        invariant Trimmed(prebuffer, g.preroll) == Trimmed(old(prebuffer) + [pcm], g.preroll)
        decreases |prebuffer|
      {
        TotalDropFirst(prebuffer);
        prebufferBytes := prebufferBytes - |prebuffer[0]|;
        prebuffer := prebuffer[1..];
      }
    }

    /** Feeds one chunk and returns the chunks to append to the session now. */
    method Feed(pcm: Chunk) returns (out: seq<Chunk>)
      requires Valid()
      modifies this
      ensures Valid()
      ensures fed == if pcm == [] then old(fed) else old(fed) + [pcm]
      ensures returned == old(returned) + out
      ensures returned == Passed(g, fed)
      ensures sentBytes == Total(returned) && sentBytes + gatedBytes == Total(fed)
    {
      if pcm == [] {
        assert returned + [] == returned;
        return [];
      }
      var loud := g.loud(pcm);
      if !g.enabled || (open && loud) {
        out := Send(pcm);
      } else if open {
        out := FeedQuiet(pcm);
      } else if !loud {
        StoreQuiet(pcm);
        assert returned + [] == returned;
        return [];
      } else {
        out := Resume(pcm);
      }
    }

    /** The gate is off, or open and loud: the chunk passes by itself. */
    method Send(pcm: Chunk) returns (out: seq<Chunk>)
      requires Valid() && (!g.enabled || (open && g.loud(pcm)))
      modifies this
      ensures Valid() && fed == old(fed) + [pcm] && returned == old(returned) + out
      ensures out == [pcm]
    {
      InvPassThrough(g, fed, returned, closedAt, keptFrom, State(), pcm);
      if g.enabled {
        silenceBytes := 0;
      }
      sentBytes := sentBytes + |pcm|;
      fed, returned := fed + [pcm], returned + [pcm];
      return [pcm];
    }

    /** Open and quiet: keep sending within the hangover, then close on this chunk. */
    method FeedQuiet(pcm: Chunk) returns (out: seq<Chunk>)
      requires Valid() && g.enabled && open && !g.loud(pcm)
      modifies this
      ensures Valid() && fed == old(fed) + [pcm] && returned == old(returned) + out
      ensures out == if old(silenceBytes) + |pcm| < g.hangover then [pcm] else []
    {
      if silenceBytes + |pcm| >= g.hangover {
        Close(pcm);
        assert returned + [] == returned;
        return [];
      }
      InvHangover(g, fed, returned, closedAt, keptFrom, State(), pcm);
      fed, returned := fed + [pcm], returned + [pcm];
      silenceBytes := silenceBytes + |pcm|;
      sentBytes := sentBytes + |pcm|;
      return [pcm];
    }

    method BufferAfresh(pcm: Chunk)
      modifies this`gatedBytes, this`prebuffer, this`prebufferBytes
      ensures gatedBytes == old(gatedBytes) + |pcm|
      ensures prebuffer == Trimmed([pcm], g.preroll) && prebufferBytes == Total(prebuffer)
    {
      prebuffer := [];
      prebufferBytes := 0;
      assert prebuffer + [pcm] == [pcm];
      Buffer(pcm);
    }

    /** The quiet run reaches the hangover: the gate closes and stores this chunk first. */
    method Close(pcm: Chunk)
      requires Valid() && g.enabled && open && !g.loud(pcm) && silenceBytes + |pcm| >= g.hangover
      modifies this
      ensures Valid() && fed == old(fed) + [pcm] && returned == old(returned)
    {
      ghost var s := State();
      ghost var p' := InvCloses(g, fed, returned, closedAt, keptFrom, s, pcm);
      silenceBytes := silenceBytes + |pcm|;
      open := false;
      closes := closes + 1;
      BufferAfresh(pcm);
      fed, closedAt, keptFrom := fed + [pcm], |fed|, p';
      assert State() == Closed(g, s, pcm);
    }

    /** Closed and quiet: only the stored suffix changes. */
    method StoreQuiet(pcm: Chunk)
      requires Valid() && !open && !g.loud(pcm)
      modifies this
      ensures Valid() && fed == old(fed) + [pcm] && returned == old(returned)
    {
      ghost var h, r, at, p, s := fed, returned, closedAt, keptFrom, State();
      Buffer(pcm);
      keptFrom := InvStaysClosed(g, h, r, at, p, s, pcm);
      fed := fed + [pcm];
    }

    /** Sound returns: the stored suffix and this chunk are released together. */
    method Resume(pcm: Chunk) returns (out: seq<Chunk>)
      requires Valid() && !open && g.loud(pcm)
      modifies this
      ensures Valid() && fed == old(fed) + [pcm] && returned == old(returned) + out
      ensures out == old(prebuffer) + [pcm]
    {
      InvResumes(g, fed, returned, closedAt, keptFrom, State(), pcm);
      open := true;
      silenceBytes := 0;
      out := prebuffer + [pcm];
      gatedBytes := gatedBytes - prebufferBytes;
      sentBytes := sentBytes + prebufferBytes + |pcm|;
      prebuffer := [];
      prebufferBytes := 0;
      fed, returned := fed + [pcm], returned + out;
    }
  }
}
