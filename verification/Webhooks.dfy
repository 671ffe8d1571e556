/**
  The webhook processor: events are delivered again until their handler succeeds, so handling
  must be idempotent once an event is committed, and harmless before.

  Each step is what a handler does between two awaits. A handler may be suspended while it lists
  the room or has somebody removed, and other deliveries, also of the same event, run meanwhile.
 */
module Webhooks {
  import opened Common
  import opened Identity
  import opened Leases
  import Protocol = LeaseProtocol

  datatype Kind = Joined | Published | Unpublished | LeftRoom | Aborted | Other

  /** Empty strings stand for what an event does not have. */
  datatype Event = Event(id: string, kind: Kind, room: string, ident: string, track: string)

  /** How identities and room names are read. */
  datatype Reader = Reader(w: Naming, relay: string -> bool, intercom: string -> bool, trackName: nat -> string)

  predicate StartsWith(s: string, p: string) {
    |p| <= |s| && s[..|p|] == p
  }

  predicate Monitor(ident: string) {
    StartsWith(ident, "monitor-")
  }

  predicate Intercom(ident: string) {
    StartsWith(ident, "intercom-")
  }

  predicate Listener(ident: string) {
    StartsWith(ident, "listener-")
  }

  // ---- the audit log and usage ----

  const SOURCE_LENGTH := 128

  /** The id under which an event is logged; the log keeps a prefix only. */
  function Source(e: Event): Option<string> {
    if e.id == "" then None
    else if |e.id| > SOURCE_LENGTH then Some(e.id[..SOURCE_LENGTH])
    else Some(e.id)
  }

  /** Whether an event is one the log keeps. */
  predicate Audited(r: Reader, e: Event) {
    && (e.kind.Joined? || e.kind.LeftRoom? || e.kind.Published? || e.kind.Unpublished?)
    && e.ident != "" && !Monitor(e.ident)
    && if r.relay(e.room)
       then r.w.read(e.ident).Some? || (Listener(e.ident) && (e.kind.Joined? || e.kind.LeftRoom?))
       else r.intercom(e.room) && Intercom(e.ident)
  }

  /** Events logged, and events that opened or closed a usage session. */
  datatype Ledger = Ledger(signals: seq<Event>, usage: seq<Event>)

  predicate Logged(es: seq<Event>, source: Option<string>) {
    exists i | 0 <= i < |es| :: Source(es[i]) == source
  }

  function Record(r: Reader, l: Ledger, e: Event, live: bool): Ledger {
    if !Audited(r, e) || (Source(e).Some? && Logged(l.signals, Source(e))) then l
    else Ledger(l.signals + [e], if e.kind.LeftRoom? || (e.kind.Joined? && live) then l.usage + [e] else l.usage)
  }

  function Count(es: seq<Event>, source: string): nat {
    if es == [] then 0 else Count(es[..|es| - 1], source) + if Source(es[|es| - 1]) == Some(source) then 1 else 0
  }

  /** No source is logged twice, and none has more usage operations than log entries. */
  ghost predicate Once(l: Ledger) {
    forall x: string :: Count(l.usage, x) <= Count(l.signals, x) <= 1
  }

  lemma {:induction false} Unlogged(es: seq<Event>, x: string)
    ensures Count(es, x) == 0 <==> !Logged(es, Some(x))
  {
    if es != [] {
      var es', e := es[..|es| - 1], es[|es| - 1];
      Unlogged(es', x);
      if Logged(es', Some(x)) {
        var i :| 0 <= i < |es'| && Source(es'[i]) == Some(x);
        assert Source(es[i]) == Some(x);
      }
      if Logged(es, Some(x)) && Source(e) != Some(x) {
        var i :| 0 <= i < |es| && Source(es[i]) == Some(x);
        assert Source(es'[i]) == Some(x);
      }
    }
  }

  lemma CountNext(es: seq<Event>, e: Event, x: string)
    ensures Count(es + [e], x) == Count(es, x) + if Source(e) == Some(x) then 1 else 0
  {
    assert (es + [e])[..|es|] == es;
  }

  lemma RecordKeeps(r: Reader, l: Ledger, e: Event, live: bool)
    requires Once(l)
    ensures Once(Record(r, l, e, live))
  {
    var l' := Record(r, l, e, live);
    forall x: string
      ensures Count(l'.usage, x) <= Count(l'.signals, x) <= 1
    {
      Unlogged(l.signals, x);
      CountNext(l.signals, e, x);
      CountNext(l.usage, e, x);
    }
  }

  /** A redelivered event with an id is not logged again and has no second effect on usage. */
  lemma RecordTwice(r: Reader, l: Ledger, e: Event, live: bool, live': bool)
    requires e.id != ""
    ensures Record(r, Record(r, l, e, live), e, live') == Record(r, l, e, live)
  {
    var l' := Record(r, l, e, live);
    if l' != l {
      assert l'.signals[|l.signals|] == e;
    }
  }

  /** Ids that share their first 128 characters are one id to the log: the second event is missed. */
  lemma LongIdsCollide(r: Reader, l: Ledger, e: Event, e': Event, live: bool, live': bool)
    requires |e.id| >= SOURCE_LENGTH && |e'.id| >= SOURCE_LENGTH
    requires Audited(r, e) && Audited(r, e') && !Logged(l.signals, Source(e)) && !Logged(l.signals, Source(e'))
    ensures Record(r, Record(r, l, e, live), e', live') == Record(r, l, e, live)
       <==> e.id[..SOURCE_LENGTH] == e'.id[..SOURCE_LENGTH]
  {
    assert |e.id| == SOURCE_LENGTH ==> e.id[..SOURCE_LENGTH] == e.id;
    assert |e'.id| == SOURCE_LENGTH ==> e'.id[..SOURCE_LENGTH] == e'.id;
    var l' := Record(r, l, e, live);
    assert l'.signals[|l.signals|] == e;
    LoggedNext(l.signals, e, Source(e'));
  }

  lemma LoggedNext(es: seq<Event>, e: Event, source: Option<string>)
    ensures Logged(es + [e], source) <==> Logged(es, source) || Source(e) == source
  {
    if Logged(es, source) {
      var i :| 0 <= i < |es| && Source(es[i]) == source;
      assert Source((es + [e])[i]) == source;
    }
    if Source(e) == source {
      assert Source((es + [e])[|es|]) == source;
    }
  }

  // ---- the handlers ----

  /** What the handlers read and write. */
  datatype Server = Server(
    generation: nat,
    room: string,
    chans: map<nat, Protocol.Chan>,
    leases: Table,
    onAir: set<nat>,
    ledger: Ledger,
    processed: set<string>)

  /** A step ends its handler, with success or not, or suspends it for a removal or a listing of the room. */
  datatype Outcome = Finished | Failed | Removing | Listing

  datatype Result = Result(s: Server, outcome: Outcome)

  function Commit(s: Server, e: Event): Result {
    Result(if e.id == "" then s else s.(processed := s.processed + {e.id}), Finished)
  }

  /** The speaker holds the current lease of a known channel, in this generation and not an older epoch. */
  predicate Rightful(r: Reader, s: Server, id: Speaker, ident: string) {
    && id.channel in s.chans && id.generation == s.generation && s.chans[id.channel].epoch <= id.epoch
    && id.channel in s.leases && r.w.write(s.leases[id.channel].holder) == ident
  }

  function OnJoined(r: Reader, s: Server, e: Event, blocked: bool, now: real): Result {
    if e.ident == "" || Monitor(e.ident) || Intercom(e.ident) then Commit(s, e)
    else if blocked then Result(s, Removing)
    else
      match r.w.read(e.ident)
      case None => if Listener(e.ident) then Commit(s, e) else Result(s, Removing)
      case Some(id) =>
        if !Rightful(r, s, id, e.ident) then Result(s, Removing)
        else Commit(s.(leases := s.leases[id.channel := s.leases[id.channel].(joined := Some(now))]), e)
  }

  function OnPublished(r: Reader, s: Server, e: Event): Result {
    if e.ident == "" || Monitor(e.ident) || Intercom(e.ident) then Commit(s, e)
    else
      match r.w.read(e.ident)
      case None => if Listener(e.ident) then Commit(s, e) else Result(s, Removing)
      case Some(id) =>
        if !Rightful(r, s, id, e.ident) || !s.chans[id.channel].open
           || e.track != r.trackName(id.channel) || e.track == ""
        then Result(s, Removing)
        else Result(s, Listing)
  }

  function OnUnpublished(r: Reader, s: Server, e: Event): Result {
    var id := if e.ident == "" || Monitor(e.ident) then None else r.w.read(e.ident);
    if id.Some? && id.value.channel in s.leases && r.w.write(s.leases[id.value.channel].holder) == e.ident
    then Commit(s.(onAir := s.onAir - {id.value.channel}), e)
    else Commit(s, e)
  }

  function OnLeft(r: Reader, s: Server, e: Event): Result {
    var id := if e.ident == "" || Monitor(e.ident) then None else r.w.read(e.ident);
    if id.Some? && id.value.channel in s.leases && r.w.write(s.leases[id.value.channel].holder) == e.ident
    then Commit(s.(leases := s.leases - {id.value.channel}, onAir := s.onAir - {id.value.channel}), e)
    else Commit(s, e)
  }

  /** A delivery, up to its handler's first await. */
  function Deliver(r: Reader, s: Server, e: Event, blocked: bool, live: bool, now: real): Result {
    if e.id != "" && e.id in s.processed then Result(s, Finished)
    else
      var s := s.(ledger := Record(r, s.ledger, e, live));
      if e.room != "" && e.room != s.room then Commit(s, e)
      else
        match e.kind
        case Joined => OnJoined(r, s, e, blocked, now)
        case Published => OnPublished(r, s, e)
        case Unpublished => OnUnpublished(r, s, e)
        case LeftRoom => OnLeft(r, s, e)
        case Aborted => OnLeft(r, s, e)
        case Other => Commit(s, e)
  }

  /** The listing is there: a publisher with more than one track is removed. */
  function Listed(r: Reader, s: Server, e: Event, crowded: bool): Result {
    if crowded || r.w.read(e.ident).None? then Result(s, Removing)
    else Commit(s.(onAir := s.onAir + {r.w.read(e.ident).value.channel}), e)
  }

  /** The removal is done, or has failed and leaves the event uncommitted. */
  function Removed(s: Server, e: Event, ok: bool): Result {
    if ok then Commit(s, e) else Result(s, Failed)
  }

  // ---- redelivery ----

  /** A committed event changes nothing at all. */
  lemma CommittedIsIgnored(r: Reader, s: Server, e: Event, blocked: bool, live: bool, now: real)
    requires e.id != "" && e.id in s.processed
    ensures Deliver(r, s, e, blocked, live, now) == Result(s, Finished)
  {
  }

  /** No delivery changes a lease that the event's own identity does not hold. */
  lemma OthersKeepLeases(r: Reader, s: Server, e: Event, blocked: bool, live: bool, now: real, k: nat)
    requires k in s.leases && r.w.write(s.leases[k].holder) != e.ident
    ensures var t := Deliver(r, s, e, blocked, live, now).s; k in t.leases && t.leases[k] == s.leases[k]
  {
  }

  /** The leases of `t` are leases of `s`, with the same holders. */
  predicate FewerLeases(s: Table, t: Table) {
    forall k | k in t :: k in s && t[k].holder == s[k].holder
  }

  /** What it means that a speaker's event in the current room was committed right away. */
  lemma CommitMeans(r: Reader, s: Server, e: Event, id: Speaker, blocked: bool, live: bool, now: real)
    requires (e.id == "" || e.id !in s.processed) && (e.room == "" || e.room == s.room)
    requires e.ident != "" && !Monitor(e.ident) && !Intercom(e.ident) && r.w.read(e.ident) == Some(id)
    ensures var t := Deliver(r, s, e, blocked, live, now);
      && (e.kind.LeftRoom? || e.kind.Aborted? ==>
            t.outcome.Finished? && !(id.channel in t.s.leases && r.w.write(t.s.leases[id.channel].holder) == e.ident))
      && (e.kind.Joined? ==>
            (t.outcome.Finished? <==> !blocked && Rightful(r, s, id, e.ident))
            && (t.outcome.Finished? ==> t.s.leases[id.channel] == s.leases[id.channel].(joined := Some(now))))
      && (e.kind.Published? && !t.outcome.Removing? ==> t.outcome.Listing? && Rightful(r, s, id, e.ident))
  {
  }

  // ---- runs ----

  /** A suspended handler, and what it waits for. */
  datatype Waiting = Waiting(e: Event, on: Outcome)

  datatype System = System(s: Server, waiting: multiset<Waiting>)

  /**
    `Restart` forgets the suspended handlers. `Change` is whatever the routes do between two
    webhook steps: rotations, issued, replaced and released leases, channels opened and closed.
   */
  datatype Step =
    | Delivery(e: Event, blocked: bool, live: bool, now: real)
    | ListReply(e: Event, crowded: bool)
    | RemoveReply(e: Event, ok: bool)
    | Restart
    | Change(generation: nat, room: string, chans: map<nat, Protocol.Chan>, leases: Table, onAir: set<nat>)

  predicate Enabled(x: System, step: Step) {
    match step
    case ListReply(e, _) => Waiting(e, Listing) in x.waiting
    case RemoveReply(e, _) => Waiting(e, Removing) in x.waiting
    case _ => true
  }

  /** What a step does to the server, and how it leaves its handler. */
  function Segment(r: Reader, s: Server, step: Step): Result {
    match step
    case Delivery(e, blocked, live, now) => Deliver(r, s, e, blocked, live, now)
    case ListReply(e, crowded) => Listed(r, s, e, crowded)
    case RemoveReply(e, ok) => Removed(s, e, ok)
    case Restart => Result(s, Failed)
    case Change(generation, room, chans, leases, onAir) =>
      Result(s.(generation := generation, room := room, chans := chans, leases := leases, onAir := onAir), Failed)
  }

  /** The handler of the step goes on waiting, or is gone. */
  function Suspended(t: Result, e: Event): multiset<Waiting> {
    if t.outcome.Removing? || t.outcome.Listing? then multiset{Waiting(e, t.outcome)} else multiset{}
  }

  function Do(r: Reader, x: System, step: Step): System
    requires Enabled(x, step)
  {
    var t := Segment(r, x.s, step);
    match step
    case Delivery(e, _, _, _) => System(t.s, x.waiting + Suspended(t, e))
    case ListReply(e, _) => System(t.s, x.waiting - multiset{Waiting(e, Listing)} + Suspended(t, e))
    case RemoveReply(e, _) => System(t.s, x.waiting - multiset{Waiting(e, Removing)})
    case Restart => x.(waiting := multiset{})
    case Change(_, _, _, _, _) => x.(s := t.s)
  }

  predicate Legal(r: Reader, x: System, steps: seq<Step>)
    decreases steps
  {
    steps == [] || (Enabled(x, steps[0]) && Legal(r, Do(r, x, steps[0]), steps[1..]))
  }

  function Run(r: Reader, x: System, steps: seq<Step>): System
    requires Legal(r, x, steps)
    decreases steps
  {
    if steps == [] then x else Run(r, Do(r, x, steps[0]), steps[1..])
  }

  lemma DoServer(r: Reader, x: System, step: Step)
    requires Enabled(x, step)
    ensures Do(r, x, step).s == Segment(r, x.s, step).s
  {
  }

  /** The step ends the handler of an event with this id, with success. */
  predicate Completes(r: Reader, s: Server, step: Step, id: string) {
    !step.Restart? && !step.Change? && step.e.id == id && Segment(r, s, step).outcome.Finished?
  }

  /** Some step of the run does. */
  predicate Completed(r: Reader, x: System, steps: seq<Step>, id: string)
    requires Legal(r, x, steps)
    decreases steps
  {
    && steps != []
    && (Completes(r, x.s, steps[0], id) || Completed(r, Do(r, x, steps[0]), steps[1..], id))
  }

  /** A step commits the event it handles, and only when its handler ends with success. */
  lemma CommitsOnSuccess(r: Reader, s: Server, step: Step, id: string)
    requires id != ""
    ensures id in Segment(r, s, step).s.processed <==> id in s.processed || Completes(r, s, step, id)
  {
  }

  /** In every run the committed ids are those of the handlers that have ended with success. */
  lemma {:induction false} CommittedIffCompleted(r: Reader, x: System, steps: seq<Step>, id: string)
    requires Legal(r, x, steps) && id != ""
    ensures id in Run(r, x, steps).s.processed <==> id in x.s.processed || Completed(r, x, steps, id)
    decreases steps
  {
    if steps != [] {
      DoServer(r, x, steps[0]);
      CommitsOnSuccess(r, x.s, steps[0], id);
      CommittedIffCompleted(r, Do(r, x, steps[0]), steps[1..], id);
    }
  }

  predicate Waits(x: System, id: string) {
    exists w | w in x.waiting :: w.e.id == id
  }

  predicate DeliveredIn(steps: seq<Step>, id: string) {
    exists i | 0 <= i < |steps| :: steps[i].Delivery? && steps[i].e.id == id
  }

  lemma WaitsStep(r: Reader, x: System, step: Step, id: string)
    requires Enabled(x, step) && Waits(Do(r, x, step), id)
    ensures Waits(x, id) || (step.Delivery? && step.e.id == id)
  {
    var w :| w in Do(r, x, step).waiting && w.e.id == id;
    if w !in x.waiting && step.ListReply? {
      assert Waiting(step.e, Listing) in x.waiting;
    }
  }

  /** Nothing is committed that has not been delivered. */
  lemma {:induction false} CommittedWasDelivered(r: Reader, x: System, steps: seq<Step>, id: string)
    requires Legal(r, x, steps) && id != ""
    requires id in Run(r, x, steps).s.processed && id !in x.s.processed
    ensures Waits(x, id) || DeliveredIn(steps, id)
    decreases steps
  {
    var step, x' := steps[0], Do(r, x, steps[0]);
    DoServer(r, x, step);
    CommitsOnSuccess(r, x.s, step, id);
    if id in x'.s.processed {
      if !step.Delivery? {
        var on := if step.ListReply? then Listing else Removing;
        assert Waiting(step.e, on) in x.waiting;
      }
    } else {
      CommittedWasDelivered(r, x', steps[1..], id);
      if Waits(x', id) {
        WaitsStep(r, x, step, id);
      } else {
        var i :| 0 <= i < |steps[1..]| && steps[1..][i].Delivery? && steps[1..][i].e.id == id;
        assert steps[i + 1] == steps[1..][i];
      }
    }
  }

  lemma LedgerAfter(r: Reader, s: Server, step: Step)
    ensures Segment(r, s, step).s.processed >= s.processed
    ensures Segment(r, s, step).s.ledger
         == if step.Delivery? && (step.e.id == "" || step.e.id !in s.processed)
            then Record(r, s.ledger, step.e, step.live) else s.ledger
  {
  }

  /** Over any deliveries, redeliveries and failures every id is logged and has a usage operation at most once. */
  lemma {:induction false} OncePerId(r: Reader, x: System, steps: seq<Step>)
    requires Once(x.s.ledger) && Legal(r, x, steps)
    ensures Once(Run(r, x, steps).s.ledger)
    ensures x.s.processed <= Run(r, x, steps).s.processed
    decreases steps
  {
    if steps != [] {
      DoServer(r, x, steps[0]);
      LedgerAfter(r, x.s, steps[0]);
      if steps[0].Delivery? {
        RecordKeeps(r, x.s.ledger, steps[0].e, steps[0].live);
      }
      OncePerId(r, Do(r, x, steps[0]), steps[1..]);
    }
  }

  /** Once committed, an event stays without effect for ever. */
  lemma {:induction false} CommittedForEver(r: Reader, x: System, steps: seq<Step>, e: Event,
                                            blocked: bool, live: bool, now: real)
    requires e.id != "" && e.id in x.s.processed && Legal(r, x, steps)
    ensures var t := Run(r, x, steps); Do(r, t, Delivery(e, blocked, live, now)) == t
    decreases steps
  {
    if steps == [] {
      CommittedIsIgnored(r, x.s, e, blocked, live, now);
    } else {
      DoServer(r, x, steps[0]);
      LedgerAfter(r, x.s, steps[0]);
      CommittedForEver(r, Do(r, x, steps[0]), steps[1..], e, blocked, live, now);
    }
  }

  /** No route gets a turn. */
  predicate WebhooksOnly(steps: seq<Step>) {
    forall i | 0 <= i < |steps| :: !steps[i].Change?
  }

  /** Through any deliveries of other identities' events a lease stays as it is. */
  lemma {:induction false} LeaseUntouched(r: Reader, x: System, steps: seq<Step>, k: nat)
    requires Legal(r, x, steps) && k in x.s.leases && WebhooksOnly(steps)
    requires forall i | 0 <= i < |steps| && steps[i].Delivery? ::
               steps[i].e.ident != r.w.write(x.s.leases[k].holder)
    ensures var t := Run(r, x, steps).s; k in t.leases && t.leases[k] == x.s.leases[k]
    decreases steps
  {
    if steps != [] {
      DoServer(r, x, steps[0]);
      if steps[0].Delivery? {
        OthersKeepLeases(r, x.s, steps[0].e, steps[0].blocked, steps[0].live, steps[0].now, k);
      }
      LeaseUntouched(r, Do(r, x, steps[0]), steps[1..], k);
    }
  }

  lemma SegmentLeases(r: Reader, s: Server, step: Step)
    requires !step.Change?
    ensures FewerLeases(s.leases, Segment(r, s, step).s.leases)
  {
  }

  /** No delivery sequence creates a lease or gives one to somebody else. */
  lemma {:induction false} NoLeaseFromEvents(r: Reader, x: System, steps: seq<Step>)
    requires Legal(r, x, steps) && WebhooksOnly(steps)
    ensures FewerLeases(x.s.leases, Run(r, x, steps).s.leases)
    decreases steps
  {
    if steps != [] {
      DoServer(r, x, steps[0]);
      SegmentLeases(r, x.s, steps[0]);
      NoLeaseFromEvents(r, Do(r, x, steps[0]), steps[1..]);
    }
  }

  // ---- the lease protocol's handler ----

  /** The two models look at the same channels, leases and generation. */
  predicate Same(s: Server, p: Protocol.State) {
    s.leases == p.leases && s.chans == p.chans && s.generation == p.generation
  }

  /** Speakers' joins and departures are handled as the lease protocol says. */
  lemma RefinesHandle(r: Reader, s: Server, p: Protocol.State, id: Speaker, e: Event, blocked: bool, live: bool)
    requires Same(s, p) && Protocol.Q(p, id) != []
    requires forall k | k in s.leases :: r.w.read(r.w.write(s.leases[k].holder)) == Some(s.leases[k].holder)
    requires e.ident == r.w.write(id) && r.w.read(e.ident) == Some(id)
    requires e.ident != "" && !Monitor(e.ident) && !Intercom(e.ident)
    requires (e.room == "" || e.room == s.room) && (e.id == "" || e.id !in s.processed)
    requires if Protocol.Q(p, id)[0].Joined? then e.kind.Joined? else e.kind.LeftRoom? || e.kind.Aborted?
    ensures var t := Deliver(r, s, e, blocked, live, p.now);
            var p' := Protocol.Handle(p, id, blocked);
            && Same(t.s, p')
            && (t.outcome.Removing? <==> p' == p.(flying := p.flying + {(id, Protocol.Q(p, id)[0])}))
            && (t.outcome.Finished? <==> p'.queue == Protocol.Pop(p, id).queue)
  {
    var q := Protocol.Q(p, id);
    assert Protocol.Pop(p, id).queue[id] == q[1..];
    assert q != q[1..];
  }

  // ---- the processor ----

  class WebhookProcessor {
    const r: Reader
    var generation: nat
    var room: string
    var chans: map<nat, Protocol.Chan>
    var leases: Table
    var onAir: set<nat>
    var processed: set<string>
    var signals: seq<Event>
    var usage: seq<Event>
    /** The handlers suspended at an await. */
    ghost var waiting: multiset<Waiting>

    function Now(): Server
      reads this
    {
      Server(generation, room, chans, leases, onAir, Ledger(signals, usage), processed)
    }

    ghost function State(): System
      reads this
    {
      System(Now(), waiting)
    }

    constructor (r: Reader, generation: nat, room: string, chans: map<nat, Protocol.Chan>, leases: Table)
      ensures this.r == r
      ensures State() == System(Server(generation, room, chans, leases, {}, Ledger([], []), {}), multiset{})
    {
      this.r, this.generation, this.room, this.chans, this.leases := r, generation, room, chans, leases;
      onAir, processed, signals, usage, waiting := {}, {}, [], [], multiset{};
    }

    method MarkProcessed(e: Event)
      modifies this`processed
      ensures Now() == Commit(old(Now()), e).s
    {
      if e.id != "" {
        processed := processed + {e.id};
      }
    }

    method RecordSignalEvent(e: Event, live: bool)
      modifies this`signals, this`usage
      ensures Now() == old(Now()).(ledger := Record(r, old(Now()).ledger, e, live))
    {
      if !Audited(r, e) || (Source(e).Some? && Logged(signals, Source(e))) {
        return;
      }
      signals := signals + [e];
      if e.kind.LeftRoom? || (e.kind.Joined? && live) {
        usage := usage + [e];
      }
    }

    /** Handles one delivery up to the handler's first await. */
    method Handle(e: Event, blocked: bool, live: bool, now: real) returns (outcome: Outcome)
      modifies this
      ensures State() == Do(r, old(State()), Delivery(e, blocked, live, now))
      ensures outcome == Deliver(r, old(Now()), e, blocked, live, now).outcome
    {
      outcome := Begin(e, blocked, live, now);
      waiting := waiting + Suspended(Result(Now(), outcome), e);
    }

    method Begin(e: Event, blocked: bool, live: bool, now: real) returns (outcome: Outcome)
      modifies this`leases, this`onAir, this`processed, this`signals, this`usage
      ensures Result(Now(), outcome) == Deliver(r, old(Now()), e, blocked, live, now)
    {
      if e.id != "" && e.id in processed {
        return Finished;
      }
      RecordSignalEvent(e, live);
      if e.room != "" && e.room != room {
        MarkProcessed(e);
        return Finished;
      }
      match e.kind {
        case Joined => outcome := Join(e, blocked, now);
        case Published => outcome := Publish(e);
        case Unpublished =>
          Unpublish(e);
          outcome := Finished;
        case LeftRoom =>
          Leave(e);
          outcome := Finished;
        case Aborted =>
          Leave(e);
          outcome := Finished;
        case Other =>
          MarkProcessed(e);
          outcome := Finished;
      }
    }

    method Join(e: Event, blocked: bool, now: real) returns (outcome: Outcome)
      modifies this`leases, this`processed
      ensures Result(Now(), outcome) == OnJoined(r, old(Now()), e, blocked, now)
    {
      if e.ident == "" || Monitor(e.ident) || Intercom(e.ident) {
        MarkProcessed(e);
        return Finished;
      }
      if blocked {
        return Removing;
      }
      var parsed := r.w.read(e.ident);
      if parsed.None? {
        if Listener(e.ident) {
          MarkProcessed(e);
          return Finished;
        }
        return Removing;
      }
      var id := parsed.value;
      if id.channel !in chans || id.generation != generation || id.epoch < chans[id.channel].epoch
         || id.channel !in leases || r.w.write(leases[id.channel].holder) != e.ident {
        return Removing;
      }
      leases := leases[id.channel := leases[id.channel].(joined := Some(now))];
      MarkProcessed(e);
      return Finished;
    }

    method Publish(e: Event) returns (outcome: Outcome)
      modifies this`processed
      ensures Result(Now(), outcome) == OnPublished(r, old(Now()), e)
    {
      if e.ident == "" || Monitor(e.ident) || Intercom(e.ident) {
        MarkProcessed(e);
        return Finished;
      }
      var parsed := r.w.read(e.ident);
      if parsed.None? {
        if Listener(e.ident) {
          MarkProcessed(e);
          return Finished;
        }
        return Removing;
      }
      var id := parsed.value;
      if id.channel !in chans || !chans[id.channel].open || id.generation != generation
         || id.epoch < chans[id.channel].epoch
         || id.channel !in leases || r.w.write(leases[id.channel].holder) != e.ident {
        return Removing;
      }
      if e.track == "" || e.track != r.trackName(id.channel) {
        return Removing;
      }
      return Listing;
    }

    method Unpublish(e: Event)
      modifies this`onAir, this`processed
      ensures Now() == OnUnpublished(r, old(Now()), e).s
    {
      if e.ident != "" && !Monitor(e.ident) {
        var parsed := r.w.read(e.ident);
        if parsed.Some? {
          var k := parsed.value.channel;
          if k in leases && r.w.write(leases[k].holder) == e.ident {
            onAir := onAir - {k};
          }
        }
      }
      MarkProcessed(e);
    }

    method Leave(e: Event)
      modifies this`leases, this`onAir, this`processed
      ensures Now() == OnLeft(r, old(Now()), e).s
    {
      if e.ident != "" && !Monitor(e.ident) {
        var parsed := r.w.read(e.ident);
        if parsed.Some? {
          var k := parsed.value.channel;
          if k in leases && r.w.write(leases[k].holder) == e.ident {
            leases := leases - {k};
            onAir := onAir - {k};
          }
        }
      }
      MarkProcessed(e);
    }

    /** The rest of a handler that waited for the listing. */
    method AfterListing(e: Event, crowded: bool) returns (outcome: Outcome)
      requires Waiting(e, Listing) in waiting
      modifies this`onAir, this`processed, this`waiting
      ensures State() == Do(r, old(State()), ListReply(e, crowded))
      ensures outcome == Listed(r, old(Now()), e, crowded).outcome
    {
      outcome := CheckListing(e, crowded);
      waiting := waiting - multiset{Waiting(e, Listing)} + Suspended(Result(Now(), outcome), e);
    }

    method CheckListing(e: Event, crowded: bool) returns (outcome: Outcome)
      modifies this`onAir, this`processed
      ensures Result(Now(), outcome) == Listed(r, old(Now()), e, crowded)
    {
      var parsed := r.w.read(e.ident);
      if crowded || parsed.None? {
        return Removing;
      }
      onAir := onAir + {parsed.value.channel};
      MarkProcessed(e);
      return Finished;
    }

    /** The rest of a handler that waited for a removal. */
    method AfterRemoval(e: Event, ok: bool)
      requires Waiting(e, Removing) in waiting
      modifies this`processed, this`waiting
      ensures State() == Do(r, old(State()), RemoveReply(e, ok))
    {
      waiting := waiting - multiset{Waiting(e, Removing)};
      if ok {
        MarkProcessed(e);
      }
    }
  }
}
