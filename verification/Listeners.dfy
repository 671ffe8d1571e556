/**
  Issued listeners, their count per channel, and the heartbeats of those who listen.

  A heartbeat first touches the issued row and then stores the beat; the clock may move in
  between. Both tables are purged lazily, each by its own lifetime.
 */
module Listeners {
  import opened Common

  const ISSUED_TTL: real := 3600.0
  const BEAT_TTL: real := 30.0

  type Id = string

  datatype Issued = Issued(channel: nat, at: real)

  datatype Beat = Beat(channel: nat, expires: real)

  datatype Ledger = Ledger(issued: map<Id, Issued>, counts: map<nat, nat>, beats: map<Id, Beat>, now: real)

  /** The issued rows of one channel. */
  function OfChannel(issued: map<Id, Issued>, c: nat): set<Id> {
    set id | id in issued && issued[id].channel == c
  }

  /** The beats of one channel that have not expired. */
  function Live(l: Ledger, c: nat): set<Id> {
    set id | id in l.beats && l.beats[id].channel == c && l.beats[id].expires > l.now
  }

  /** The reported approximation; a channel without a row counts as none. */
  function Approximation(l: Ledger, c: nat): nat {
    if c in l.counts then l.counts[c] else 0
  }

  datatype Step =
    | Tick(dt: real)
    | Issue(id: Id, channel: nat)
    /** `delay` passes between touching the row and storing the beat; `stored` is false if it is refused. */
    | Heartbeat(id: Id, channel: nat, delay: real, stored: bool)
    | PurgeIssued
    | PurgeBeats

  predicate Enabled(l: Ledger, step: Step) {
    match step
    case Tick(dt) => dt >= 0.0
    case Issue(id, _) => id !in l.issued && id !in l.beats
    case Heartbeat(_, _, delay, _) => delay >= 0.0
    case _ => true
  }

  function Remaining(issued: map<Id, Issued>, now: real): map<Id, Issued> {
    map id | id in issued && issued[id].at > now - ISSUED_TTL :: issued[id]
  }

  function Do(l: Ledger, step: Step): Ledger {
    match step
    case Tick(dt) => l.(now := l.now + dt)
    case Issue(id, c) =>
      l.(issued := l.issued[id := Issued(c, l.now)], counts := l.counts[c := Approximation(l, c) + 1])
    case Heartbeat(id, c, delay, stored) =>
      if id !in l.issued || l.issued[id].channel != c then l
      else
        var l' := l.(issued := l.issued[id := Issued(c, l.now)], now := l.now + delay);
        if stored then l'.(beats := l'.beats[id := Beat(c, l'.now + BEAT_TTL)]) else l'
    case PurgeIssued =>
      var issued := Remaining(l.issued, l.now);
      var channels := set id | id in issued :: issued[id].channel;
      l.(issued := issued, counts := map c | c in channels :: |OfChannel(issued, c)|)
    case PurgeBeats =>
      l.(beats := map id | id in l.beats && l.beats[id].expires > l.now :: l.beats[id])
  }

  // ---- the invariant ----

  predicate CountFits(l: Ledger, c: nat) {
    Approximation(l, c) == |OfChannel(l.issued, c)|
  }

  /** A live beat has its issued row, touched recently enough to outlast the beat. */
  predicate Backed(l: Ledger, id: Id) {
    && (id in l.issued ==> l.issued[id].at <= l.now)
    && (id in l.beats && l.beats[id].expires > l.now ==>
      && id in l.issued && l.issued[id].channel == l.beats[id].channel
      && l.beats[id].expires <= l.issued[id].at + ISSUED_TTL)
  }

  ghost predicate Inv(l: Ledger) {
    && (forall c: nat :: CountFits(l, c))
    && (forall id: Id :: Backed(l, id))
  }

  /** The delay between touch and beat is such that the row outlasts the beat. */
  predicate Prompt(step: Step) {
    step.Heartbeat? && step.stored ==> step.delay + BEAT_TTL <= ISSUED_TTL
  }

  lemma CountIssue(l: Ledger, id: Id, k: nat, c: nat)
    requires CountFits(l, c) && id !in l.issued
    ensures CountFits(Do(l, Issue(id, k)), c)
  {
    var issued := l.issued[id := Issued(k, l.now)];
    assert OfChannel(issued, c) == if k == c then OfChannel(l.issued, c) + {id} else OfChannel(l.issued, c);
  }

  lemma CountPurge(l: Ledger, c: nat)
    ensures CountFits(Do(l, PurgeIssued), c)
  {
    var l' := Do(l, PurgeIssued);
    if c !in l'.counts {
      forall id | id in l'.issued ensures l'.issued[id].channel != c {
        assert l'.issued[id].channel in l'.counts;
      }
      assert OfChannel(l'.issued, c) == {};
    }
  }

  lemma CountStep(l: Ledger, step: Step, c: nat)
    requires CountFits(l, c) && Enabled(l, step)
    ensures CountFits(Do(l, step), c)
  {
    match step
    case Issue(id, k) => CountIssue(l, id, k, c);
    case Heartbeat(id, k, _, _) => assert OfChannel(Do(l, step).issued, c) == OfChannel(l.issued, c);
    case PurgeIssued => CountPurge(l, c);
    case _ =>
  }

  lemma BackedStep(l: Ledger, step: Step, id: Id)
    requires Backed(l, id) && Enabled(l, step) && Prompt(step)
    ensures Backed(Do(l, step), id)
  {
  }

  lemma StepKeepsInv(l: Ledger, step: Step)
    requires Inv(l) && Enabled(l, step) && Prompt(step)
    ensures Inv(Do(l, step))
  {
    forall c: nat ensures CountFits(Do(l, step), c) {
      CountStep(l, step, c);
    }
    forall id: Id ensures Backed(Do(l, step), id) {
      BackedStep(l, step, id);
    }
  }

  /** Never more live listeners than the approximation says. */
  lemma LiveBounded(l: Ledger, c: nat)
    requires Inv(l)
    ensures |Live(l, c)| <= Approximation(l, c)
  {
    assert CountFits(l, c);
    forall id | id in Live(l, c) ensures id in OfChannel(l.issued, c) {
      assert Backed(l, id);
    }
    SubsetSize(Live(l, c), OfChannel(l.issued, c));
  }

  // ---- runs ----

  ghost predicate Legal(l: Ledger, steps: seq<Step>)
    decreases steps
  {
    steps == [] || (Enabled(l, steps[0]) && Legal(Do(l, steps[0]), steps[1..]))
  }

  function Run(l: Ledger, steps: seq<Step>): Ledger
    decreases steps
  {
    if steps == [] then l else Run(Do(l, steps[0]), steps[1..])
  }

  predicate AllPrompt(steps: seq<Step>) {
    forall i | 0 <= i < |steps| :: Prompt(steps[i])
  }

  /** The count is exact in every run. */
  lemma {:induction false} CountsExact(l: Ledger, steps: seq<Step>, c: nat)
    requires CountFits(l, c) && Legal(l, steps)
    ensures Approximation(Run(l, steps), c) == |OfChannel(Run(l, steps).issued, c)|
    decreases steps
  {
    if steps != [] {
      CountStep(l, steps[0], c);
      CountsExact(Do(l, steps[0]), steps[1..], c);
    }
  }

  /** With prompt heartbeats it bounds the live listeners, and they stay issued. */
  lemma {:induction false} ListenersStay(l: Ledger, steps: seq<Step>, c: nat)
    requires Inv(l) && Legal(l, steps) && AllPrompt(steps)
    ensures var l' := Run(l, steps);
            && |Live(l', c)| <= Approximation(l', c)
            && Live(l', c) <= OfChannel(l'.issued, c)
    decreases steps
  {
    if steps == [] {
      LiveBounded(l, c);
      forall id | id in Live(l, c) ensures id in OfChannel(l.issued, c) {
        assert Backed(l, id);
      }
    } else {
      StepKeepsInv(l, steps[0]);
      ListenersStay(Do(l, steps[0]), steps[1..], c);
    }
  }

  lemma FreshIsSound(now: real)
    ensures Inv(Ledger(map[], map[], map[], now))
  {
    forall c: nat ensures CountFits(Ledger(map[], map[], map[], now), c) {
      assert OfChannel(map[], c) == {};
    }
  }

  /** One listener, one beat `delay` after its touch, and a purge `dt` later. */
  function OneBeat(id: Id, c: nat, delay: real, dt: real): Ledger {
    Do(Do(Do(Do(Ledger(map[], map[], map[], 0.0), Issue(id, c)), Heartbeat(id, c, delay, true)), Tick(dt)), PurgeIssued)
  }

  lemma OneBeatCounts(id: Id, c: nat, delay: real, dt: real)
    requires delay >= 0.0 && dt >= 0.0
    ensures var l := OneBeat(id, c, delay, dt);
            |Live(l, c)| > Approximation(l, c) <==> dt < BEAT_TTL && delay + dt >= ISSUED_TTL
  {
    var l1 := Do(Ledger(map[], map[], map[], 0.0), Issue(id, c));
    var l := OneBeat(id, c, delay, dt);
    assert l.beats == map[id := Beat(c, delay + BEAT_TTL)] && l.now == delay + dt;
    assert Live(l, c) == if dt < BEAT_TTL then {id} else {};
    if delay + dt >= ISSUED_TTL {
      assert l.issued == map[];
      assert c !in l.counts;
    } else {
      assert OfChannel(l.issued, c) == {id};
    }
  }

  /** The bound needs prompt heartbeats: a beat can outlive its row exactly if it is not prompt. */
  lemma LateBeat(id: Id, c: nat, delay: real)
    requires delay >= 0.0
    ensures (exists dt: real ::
               dt >= 0.0 && |Live(OneBeat(id, c, delay, dt), c)| > Approximation(OneBeat(id, c, delay, dt), c))
       <==> !Prompt(Heartbeat(id, c, delay, true))
    ensures Prompt(Heartbeat(id, c, delay, true)) <==> delay <= 3570.0
  {
    forall dt: real | dt >= 0.0
      ensures |Live(OneBeat(id, c, delay, dt), c)| > Approximation(OneBeat(id, c, delay, dt), c)
         <==> dt < BEAT_TTL && delay + dt >= ISSUED_TTL
    {
      OneBeatCounts(id, c, delay, dt);
    }
    if !Prompt(Heartbeat(id, c, delay, true)) {
      var dt := if delay >= ISSUED_TTL then 0.0 else ISSUED_TTL - delay;
      assert |Live(OneBeat(id, c, delay, dt), c)| > Approximation(OneBeat(id, c, delay, dt), c);
    }
  }

  // ---- what the steps do ----

  /** A heartbeat counts for an issued listener on its own channel; it renews the row and is kept for 30 seconds. */
  lemma HeartbeatMeans(l: Ledger, id: Id, c: nat, delay: real, stored: bool)
    ensures var l' := Do(l, Heartbeat(id, c, delay, stored));
            if id in l.issued && l.issued[id].channel == c
            then && l'.issued == l.issued[id := Issued(c, l.now)] && l'.counts == l.counts && l'.now == l.now + delay
                 && l'.beats == if stored then l.beats[id := Beat(c, l.now + delay + 30.0)] else l.beats
            else l' == l
  {
  }

  /** An issue adds one row and one to its channel's count. */
  lemma IssueMeans(l: Ledger, id: Id, c: nat)
    ensures var l' := Do(l, Issue(id, c));
            && l' == l.(issued := l.issued[id := Issued(c, l.now)],
                        counts := l.counts[c := (if c in l.counts then l.counts[c] else 0) + 1])
  {
  }

  /** A purge removes exactly the rows not touched for an hour, or exactly the beats that have expired. */
  lemma PurgesMean(l: Ledger, id: Id)
    ensures var l' := Do(l, PurgeIssued);
            && l' == l.(issued := l'.issued, counts := l'.counts)
            && (id in l'.issued <==> id in l.issued && l.issued[id].at > l.now - 3600.0)
            && (id in l'.issued ==> l'.issued[id] == l.issued[id])
    ensures var l' := Do(l, PurgeBeats);
            && l' == l.(beats := l'.beats)
            && (id in l'.beats <==> id in l.beats && l.beats[id].expires > l.now)
            && (id in l'.beats ==> l'.beats[id] == l.beats[id])
  {
  }

  // ---- the store ----

  class ListenerStore {
    var issued: map<Id, Issued>
    var counts: map<nat, nat>
    var beats: map<Id, Beat>

    function At(now: real): Ledger
      reads this
    {
      Ledger(issued, counts, beats, now)
    }

    constructor ()
      ensures forall now: real :: Inv(At(now))
    {
      issued, counts, beats := map[], map[], map[];
      new;
      forall now: real ensures Inv(At(now)) {
        FreshIsSound(now);
      }
    }

    /** One transaction: the row and the count. */
    method IssueListener(id: Id, channel: nat, now: real)
      requires id !in issued && id !in beats
      modifies this`issued, this`counts
      ensures At(now) == Do(old(At(now)), Issue(id, channel))
    {
      issued := issued[id := Issued(channel, now)];
      counts := counts[channel := (if channel in counts then counts[channel] else 0) + 1];
    }

    method TouchIssuedListener(id: Id, channel: nat, now: real) returns (found: bool)
      modifies this`issued
      ensures found <==> id in old(issued) && old(issued)[id].channel == channel
      ensures issued == if found then old(issued)[id := Issued(channel, now)] else old(issued)
    {
      found := id in issued && issued[id].channel == channel;
      if found {
        issued := issued[id := issued[id].(at := now)];
      }
    }

    method RecordHeartbeat(id: Id, channel: nat, ttl: real, now: real)
      modifies this`beats
      ensures beats == old(beats)[id := Beat(channel, now + ttl)]
    {
      beats := beats[id := Beat(channel, now + ttl)];
    }

    /** The route: touch first, then store unless the limiter or the channel table refuses. */
    method OnHeartbeat(id: Id, channel: nat, accepted: bool, now: real, later: real) returns (found: bool)
      requires now <= later
      modifies this
      ensures found <==> id in old(issued) && old(issued)[id].channel == channel
      ensures At(if found then later else now) == Do(old(At(now)), Heartbeat(id, channel, later - now, accepted))
    {
      found := TouchIssuedListener(id, channel, now);
      if found && accepted {
        RecordHeartbeat(id, channel, BEAT_TTL, later);
      }
    }

    method PurgeExpiredHeartbeats(now: real)
      modifies this`beats
      ensures At(now) == Do(old(At(now)), PurgeBeats)
    {
      beats := map id | id in beats && beats[id].expires > now :: beats[id];
    }

    /** Deletes expired rows and counts the rest again. */
    method PurgeExpiredIssuedListeners(now: real)
      modifies this`issued, this`counts
      ensures At(now) == Do(old(At(now)), PurgeIssued)
    {
      issued := map id | id in issued && issued[id].at > now - ISSUED_TTL :: issued[id];
      var channels := set id | id in issued :: issued[id].channel;
      counts := map c | c in channels :: |set id | id in issued && issued[id].channel == c|;
    }
  }
}
