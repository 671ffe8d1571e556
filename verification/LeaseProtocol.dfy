/**
  The lease protocol of the human channels: publish, takeover and close on one side, the room and
  its webhooks on the other.

  A speaker may join the room with any token ever issued. The server learns of joins and
  departures only through webhooks, which are delivered late, one identity's in order and
  different identities' in any order, and are retried while their handler fails. Every step below
  is what happens between two awaits, so replies of the room service may be outdated when the
  waiting route or handler resumes.
 */
module LeaseProtocol {
  import opened Common
  import opened Identity
  import opened Leases

  datatype Chan = Chan(open: bool, epoch: nat)

  /** Webhook events; the number tells redeliveries apart from later events. */
  datatype Event = Joined(no: nat) | Left(no: nat)

  /** The route that holds the rotation lock and the channel lock, and what it waits for. */
  datatype Route =
    | Idle
    | PublishRoom(k: nat)
    | PublishListing(k: nat, id: Speaker)
    | PublishListed(k: nat, id: Speaker, present: bool)
    | TakeoverRoom(k: nat)
    | Removing(k: nat, id: Speaker, takeover: bool)
    | Removed(k: nat, id: Speaker, takeover: bool)

  datatype State = State(
    now: real,
    generation: nat,
    chans: map<nat, Chan>,
    leases: map<nat, Lease>,
    issued: set<Speaker>,
    room: set<Speaker>,
    /** Undelivered events of each identity, oldest first. */
    queue: map<Speaker, seq<Event>>,
    next: nat,
    /** Webhook handlers waiting for a removal, before and after the room service did it. */
    flying: set<(Speaker, Event)>,
    evicted: set<(Speaker, Event)>,
    route: Route)

  function Init(generation: nat): State {
    State(0.0, generation, map[], map[], {}, {}, map[], 0, {}, {}, Idle)
  }

  function Q(s: State, id: Speaker): seq<Event> {
    if id in s.queue then s.queue[id] else []
  }

  function Put(s: State, id: Speaker, q: seq<Event>): State {
    s.(queue := s.queue[id := q])
  }

  function Push(s: State, id: Speaker, e: Event): State {
    Put(s, id, Q(s, id) + [e]).(next := s.next + 1)
  }

  /** `id` leaves the room, of itself or removed; `told` says whether its webhook is sent. */
  function Gone(s: State, id: Speaker, told: bool): State {
    if id !in s.room then s
    else if told then Push(s.(room := s.room - {id}), id, Left(s.next))
    else s.(room := s.room - {id})
  }

  predicate Holds(s: State, id: Speaker) {
    id.channel in s.leases && s.leases[id.channel].holder == id
  }

  predicate HoldsJoined(s: State, id: Speaker) {
    Holds(s, id) && s.leases[id.channel].joined.Some?
  }

  /** What the joined webhook checks. */
  predicate Admissible(s: State, id: Speaker) {
    && id.channel in s.chans && id.generation == s.generation
    && s.chans[id.channel].epoch <= id.epoch
    && Holds(s, id)
  }

  datatype Step =
    | Tick(dt: real)
    | OpenChannel(k: nat)
    | Join(id: Speaker)
    | Leave(id: Speaker, told: bool)
    | Deliver(id: Speaker, blocked: bool)
    | Abort(id: Speaker)
    | HandlerEvicts(id: Speaker, e: Event, told: bool)
    | HandlerReply(id: Speaker, e: Event, ok: bool)
    | PublishBegin(k: nat)
    | PublishLook(nonce: string)
    | PublishList(failed: bool)
    | PublishResume(nonce: string)
    | TakeoverBegin(k: nat)
    | TakeoverLook(nonce: string)
    | CloseBegin(k: nat)
    | RouteEvicts(told: bool)
    | RouteResume(nonce: string)
    | RouteFail
    | Restart(epochBumped: bool)
    | Rotate

  /** The identity a route would print for channel `k` now. */
  function NewId(s: State, k: nat, nonce: string): Speaker {
    Speaker(k, if k in s.chans then s.chans[k].epoch else 1, s.generation, nonce)
  }

  /** Issues a lease if the existing one is not alive; the route ends either way. */
  function Issue(s: State, k: nat, nonce: string): State {
    var id := NewId(s, k, nonce);
    var r := Acquire(s.leases, k, id, s.now, TTL, GRACE);
    if r.None? then s.(route := Idle)
    else s.(leases := r.value, issued := s.issued + {id}, route := Idle)
  }

  /** Takeover: the epoch goes up and the lease is overwritten. */
  function Install(s: State, k: nat, nonce: string): State {
    var s1 := s.(chans := s.chans[k := Chan(true, if k in s.chans then s.chans[k].epoch + 1 else 1)]);
    var id := NewId(s1, k, nonce);
    s1.(leases := Force(s.leases, k, id, s.now, TTL), issued := s.issued + {id}, route := Idle)
  }

  function CloseNow(s: State, k: nat): State {
    s.(chans := if k in s.chans then s.chans[k := s.chans[k].(open := false)] else s.chans,
       leases := s.leases - {k}, route := Idle)
  }

  function Pop(s: State, id: Speaker): State
    requires Q(s, id) != []
  {
    Put(s, id, Q(s, id)[1..])
  }

  /** The webhook handler up to its first await. */
  function Handle(s: State, id: Speaker, blocked: bool): State
    requires Q(s, id) != []
  {
    match Q(s, id)[0]
    case Left(_) => Pop(s, id).(leases := ReleaseIf(s.leases, id.channel, id))
    case Joined(no) =>
      if blocked || !Admissible(s, id) then s.(flying := s.flying + {(id, Joined(no))})
      else Pop(s, id).(leases := MarkJoined(s.leases, id.channel, id, s.now))
  }

  /**
    The process restarts: routes and handlers are forgotten, undelivered events stay, and joined
    leases whose holder is not in the room are released. (A removal of somebody without a lease
    is a `Leave`.)
   */
  function Restarted(s: State, epochBumped: bool): State {
    var leases := map k | k in s.leases
                    && (s.leases[k].joined.None? || s.leases[k].holder in s.room) :: s.leases[k];
    var chans :=
      if epochBumped && s.route.Removed? && s.route.takeover && s.route.k in s.chans
      then s.chans[s.route.k := s.chans[s.route.k].(epoch := s.chans[s.route.k].epoch + 1)]
      else s.chans;
    s.(leases := leases, chans := chans, flying := {}, evicted := {}, route := Idle)
  }

  /**
    The send password changes: a new generation with a room of its own and no leases. Tokens of
    older generations admit to older rooms only, and events of those rooms are skipped.
   */
  function Rotated(s: State): State {
    s.(generation := s.generation + 1, leases := map[], room := {}, queue := map[], flying := {}, evicted := {})
  }

  /** No identity issued so far has this nonce. */
  predicate Fresh(s: State, nonce: string) {
    forall id | id in s.issued :: id.nonce != nonce
  }

  predicate Enabled(s: State, step: Step) {
    match step
    case Tick(dt) => dt >= 0.0
    case OpenChannel(k) => k !in s.chans || !s.chans[k].open
    case Join(id) => id in s.issued && id.generation == s.generation && id !in s.room
    case Leave(id, _) => id in s.room
    case Deliver(id, _) => Q(s, id) != []
    case Abort(id) => id in s.issued && id.generation == s.generation && id !in s.room
    case HandlerEvicts(id, e, _) => (id, e) in s.flying
    case HandlerReply(id, e, ok) => (id, e) in (if ok then s.evicted else s.flying + s.evicted)
    case PublishBegin(k) => s.route.Idle? && k in s.chans && s.chans[k].open
    case PublishLook(nonce) => s.route.PublishRoom? && Fresh(s, nonce)
    case PublishList(_) => s.route.PublishListing?
    case PublishResume(nonce) => s.route.PublishListed? && Fresh(s, nonce)
    case TakeoverBegin(k) => s.route.Idle? && k in s.chans && s.chans[k].open
    case TakeoverLook(nonce) => s.route.TakeoverRoom? && Fresh(s, nonce)
    case CloseBegin(k) => s.route.Idle? && k in s.chans && s.chans[k].open
    case RouteEvicts(_) => s.route.Removing?
    case RouteResume(nonce) => s.route.Removed? && Fresh(s, nonce)
    case RouteFail => !s.route.Idle?
    case Restart(_) => true
    case Rotate => s.route.Idle?
  }

  /** Steps of the routes and the clock do not touch the room, the webhooks or their handlers. */
  predicate AwayFromRoom(step: Step) {
    && !step.Join? && !step.Leave? && !step.Abort? && !step.Deliver? && !step.HandlerEvicts?
    && !step.HandlerReply? && !step.RouteEvicts? && !step.Restart? && !step.Rotate?
  }

  function Do(s: State, step: Step): State
    requires Enabled(s, step)
  {
    if AwayFromRoom(step) then DoAway(s, step) else DoInRoom(s, step)
  }

  function DoInRoom(s: State, step: Step): State
    requires Enabled(s, step) && !AwayFromRoom(step)
  {
    match step
    case Join(id) => Push(s.(room := s.room + {id}), id, Joined(s.next))
    case Leave(id, told) => Gone(s, id, told)
    case Deliver(id, blocked) => Handle(s, id, blocked)
    case Abort(id) => Push(s, id, Left(s.next))
    case HandlerEvicts(id, e, told) =>
      Gone(s, id, told).(flying := s.flying - {(id, e)}, evicted := s.evicted + {(id, e)})
    case HandlerReply(id, e, ok) =>
      var s1 := s.(flying := s.flying - {(id, e)}, evicted := s.evicted - {(id, e)});
      if ok && Q(s, id) != [] && Q(s, id)[0] == e then Pop(s1, id) else s1
    case RouteEvicts(told) =>
      Gone(s, s.route.id, told).(route := Removed(s.route.k, s.route.id, s.route.takeover))
    case Restart(epochBumped) => Restarted(s, epochBumped)
    case Rotate => Rotated(s)
  }

  function DoAway(s: State, step: Step): State
    requires Enabled(s, step) && AwayFromRoom(step)
  {
    match step
    case Tick(dt) => s.(now := s.now + dt)
    case OpenChannel(k) =>
      s.(chans := s.chans[k := Chan(true, if k in s.chans then s.chans[k].epoch else 1)])
    case PublishBegin(k) => s.(route := PublishRoom(k))
    case PublishLook(nonce) =>
      var k := s.route.k;
      if k in s.leases && s.leases[k].joined.Some?
      then s.(route := PublishListing(k, s.leases[k].holder))
      else Issue(s, k, nonce)
    case PublishList(failed) =>
      var id := s.route.id;
      s.(route := PublishListed(s.route.k, id, failed || id in s.room))
    case PublishResume(nonce) =>
      var (k, id) := (s.route.k, s.route.id);
      if s.route.present
      then s.(leases := Extend(s.leases, k, id, s.now, TTL), route := Idle)
      else Issue(s.(leases := ReleaseIf(s.leases, k, id)), k, nonce)
    case TakeoverBegin(k) => s.(route := TakeoverRoom(k))
    case TakeoverLook(nonce) =>
      var k := s.route.k;
      if k in s.leases then s.(route := Removing(k, s.leases[k].holder, true)) else Install(s, k, nonce)
    case CloseBegin(k) =>
      if k in s.leases then s.(route := Removing(k, s.leases[k].holder, false)) else CloseNow(s, k)
    case RouteResume(nonce) =>
      if s.route.takeover then Install(s, s.route.k, nonce) else CloseNow(s, s.route.k)
    case RouteFail => s.(route := Idle)
  }

  // ---- safety ----

  /** The server will still hear of this join. */
  predicate JoinUndelivered(s: State, id: Speaker) {
    exists i | 0 <= i < |Q(s, id)| :: Q(s, id)[i].Joined?
  }

  /** Every speaker in the room holds its channel's lease or has an undelivered joined event. */
  predicate Safe(s: State) {
    forall id | id in s.room :: Holds(s, id) || JoinUndelivered(s, id)
  }

  /**
    The late reply: a route takes the lease of channel `k` away on the strength of an answer that
    is out of date, because the holder is in the room and its join has been processed already.
   */
  predicate Stale(s: State, step: Step) {
    && (step.PublishResume? || step.RouteResume?)
    && (s.route.PublishListed? || s.route.Removed?)
    && (s.route.PublishListed? ==> !s.route.present)
    && s.route.k in s.leases
    && var h := s.leases[s.route.k].holder; h in s.room && !JoinUndelivered(s, h)
  }

  // ---- the invariant ----

  predicate LastIsJoined(q: seq<Event>) {
    q != [] && q[|q| - 1].Joined?
  }

  /** A speaker in the room has its latest event, if undelivered, a join; if none is, it holds a joined lease. */
  predicate RoomInv(s: State, id: Speaker) {
    && id in s.issued
    && (LastIsJoined(Q(s, id)) || (Q(s, id) == [] && HoldsJoined(s, id)))
  }

  /** A handler's event is an old join; after its removal the speaker can only be back with a newer one. */
  predicate HandlerInv(s: State, id: Speaker, e: Event) {
    && e.Joined? && e.no < s.next
    && ((id, e) in s.evicted && id in s.room && Q(s, id) != [] ==> Q(s, id)[|Q(s, id)| - 1] != e)
  }

  predicate QueueInv(s: State, id: Speaker) {
    forall i | 0 <= i < |Q(s, id)| :: Q(s, id)[i].no < s.next
  }

  predicate LeaseInv(s: State, k: nat) {
    k in s.leases ==> s.leases[k].holder.channel == k && s.leases[k].holder in s.issued
  }

  predicate RouteInv(s: State) {
    match s.route
    case PublishListing(k, id) => k in s.leases ==> s.leases[k].holder == id && s.leases[k].joined.Some?
    case PublishListed(k, id, _) => k in s.leases ==> s.leases[k].holder == id && s.leases[k].joined.Some?
    case _ => true
  }

  ghost predicate Inv(s: State) {
    && (forall id | id in s.room :: RoomInv(s, id))
    && (forall p | p in s.flying + s.evicted :: HandlerInv(s, p.0, p.1))
    && (forall id | id in s.queue :: QueueInv(s, id))
    && (forall k | k in s.leases :: LeaseInv(s, k))
    && RouteInv(s)
  }

  lemma InvIsSafe(s: State)
    requires Inv(s)
    ensures Safe(s)
  {
    forall id | id in s.room
      ensures Holds(s, id) || JoinUndelivered(s, id)
    {
      assert RoomInv(s, id);
    }
  }

  /** What a speaker in the room relies on. */
  predicate SameFor(s: State, s': State, id: Speaker) {
    && (id in s.room || Q(s, id) == []) && id in s'.room
    && s.issued <= s'.issued
    && Q(s', id) == Q(s, id)
    && (HoldsJoined(s, id) ==> HoldsJoined(s', id))
  }

  lemma QueueOf(s: State, x: Speaker, e: Event, id: Speaker)
    ensures Q(Push(s, x, e), id) == Q(s, id) + if id == x then [e] else []
    ensures Q(s, x) != [] ==> Q(Pop(s, x), id) == if id == x then Q(s, x)[1..] else Q(s, id)
  {
  }

  lemma RoomGone(s: State, x: Speaker, told: bool, id: Speaker)
    requires RoomInv(s, id) && id in Gone(s, x, told).room
    ensures id in s.room && SameFor(s, Gone(s, x, told), id)
    ensures RoomInv(Gone(s, x, told), id)
  {
  }

  lemma RoomDeliver(s: State, x: Speaker, blocked: bool, id: Speaker)
    requires Q(s, x) != [] && id in s.room && RoomInv(s, id)
    ensures RoomInv(Handle(s, x, blocked), id)
  {
    var q := Q(s, x);
    QueueOf(s, x, Left(0), id);
    if id == x {
      assert |q| > 1 ==> q[1..][|q| - 2] == q[|q| - 1];
    }
  }

  lemma RoomReply(s: State, x: Speaker, e: Event, ok: bool, id: Speaker)
    requires id in s.room && RoomInv(s, id) && HandlerInv(s, x, e)
    requires Enabled(s, HandlerReply(x, e, ok))
    ensures RoomInv(DoInRoom(s, HandlerReply(x, e, ok)), id)
  {
    var q := Q(s, x);
    if id == x && q != [] {
      assert |q| > 1 ==> q[1..][|q| - 2] == q[|q| - 1];
    }
  }

  /** Overwriting a lease whose holder is not an accepted speaker in the room harms nobody. */
  lemma RoomIssue(s: State, k: nat, nonce: string, id: Speaker)
    requires id in s.room && RoomInv(s, id)
    requires k in s.leases ==> s.leases[k].holder.channel == k && s.leases[k].joined.None?
    ensures RoomInv(Issue(s, k, nonce), id)
  {
  }

  lemma RoomInstall(s: State, k: nat, nonce: string, id: Speaker)
    requires id in s.room && RoomInv(s, id)
    requires k in s.leases && s.leases[k].holder == id ==> LastIsJoined(Q(s, id))
    ensures RoomInv(Install(s, k, nonce), id)
    ensures RoomInv(CloseNow(s, k), id)
  {
  }

  lemma NotStale(s: State, step: Step, id: Speaker)
    requires RoomInv(s, id) && id in s.room && !Stale(s, step)
    requires step.PublishResume? || step.RouteResume?
    requires s.route.Removed? || (s.route.PublishListed? && !s.route.present)
    requires s.route.k in s.leases && s.leases[s.route.k].holder == id
    ensures LastIsJoined(Q(s, id))
  {
  }

  lemma RoomPublishResume(s: State, nonce: string, id: Speaker)
    requires Inv(s) && Enabled(s, PublishResume(nonce)) && !Stale(s, PublishResume(nonce))
    requires id in s.room
    ensures RoomInv(Do(s, PublishResume(nonce)), id)
  {
    assert RoomInv(s, id);
    var k := s.route.k;
    assert k in s.leases ==> LeaseInv(s, k);
    if !s.route.present {
      var s1 := s.(leases := ReleaseIf(s.leases, k, s.route.id));
      if k in s.leases && s.leases[k].holder == id {
        NotStale(s, PublishResume(nonce), id);
      }
      assert RoomInv(s1, id);
      RoomIssue(s1, k, nonce, id);
    }
  }

  lemma RoomUntouched(s: State, step: Step)
    requires Enabled(s, step) && AwayFromRoom(step)
    ensures var s' := Do(s, step);
            && s'.room == s.room && s'.queue == s.queue && s'.next == s.next
            && s'.flying == s.flying && s'.evicted == s.evicted
  {
  }

  lemma RoomRouteStep(s: State, step: Step, id: Speaker)
    requires Inv(s) && Enabled(s, step) && !Stale(s, step) && AwayFromRoom(step) && id in s.room
    ensures RoomInv(Do(s, step), id)
  {
    assert RoomInv(s, id);
    match step
    case PublishLook(nonce) =>
      assert s.route.k in s.leases ==> LeaseInv(s, s.route.k);
      if !(s.route.k in s.leases && s.leases[s.route.k].joined.Some?) {
        RoomIssue(s, s.route.k, nonce, id);
      }
    case PublishResume(nonce) => RoomPublishResume(s, nonce, id);
    case TakeoverLook(nonce) =>
      if s.route.k !in s.leases {
        RoomInstall(s, s.route.k, nonce, id);
      }
    case CloseBegin(k) =>
      if k !in s.leases {
        RoomInstall(s, k, "", id);
      }
    case RouteResume(nonce) =>
      if s.route.k in s.leases && s.leases[s.route.k].holder == id {
        NotStale(s, step, id);
      }
      RoomInstall(s, s.route.k, nonce, id);
    case _ =>
  }

  lemma RoomJoin(s: State, x: Speaker, id: Speaker)
    requires Enabled(s, Join(x)) && (id in s.room ==> RoomInv(s, id)) && id in DoInRoom(s, Join(x)).room
    ensures RoomInv(DoInRoom(s, Join(x)), id)
  {
    QueueOf(s, x, Joined(s.next), id);
  }

  lemma ReplyIsToJoin(s: State, step: Step)
    requires Inv(s) && Enabled(s, step)
    ensures step.HandlerReply? ==> HandlerInv(s, step.id, step.e) && step.e.Joined?
  {
    if step.HandlerReply? {
      assert HandlerInv(s, (step.id, step.e).0, (step.id, step.e).1);
    }
  }

  lemma RoomAbort(s: State, x: Speaker, id: Speaker)
    requires Enabled(s, Abort(x)) && id in s.room && RoomInv(s, id)
    ensures RoomInv(DoInRoom(s, Abort(x)), id)
  {
    QueueOf(s, x, Left(s.next), id);
  }

  lemma RoomRestart(s: State, bumped: bool, id: Speaker)
    requires id in s.room && RoomInv(s, id)
    ensures RoomInv(Restarted(s, bumped), id)
  {
    assert Q(Restarted(s, bumped), id) == Q(s, id);
  }

  lemma RoomInRoomStep(s: State, step: Step, id: Speaker)
    requires Enabled(s, step) && !AwayFromRoom(step) && id in DoInRoom(s, step).room
    requires id in s.room ==> RoomInv(s, id)
    requires step.HandlerReply? ==> HandlerInv(s, step.id, step.e)
    ensures RoomInv(DoInRoom(s, step), id)
  {
    match step
    case Join(x) => RoomJoin(s, x, id);
    case Leave(x, told) => RoomGone(s, x, told, id);
    case Abort(x) => RoomAbort(s, x, id);
    case HandlerEvicts(x, e, told) => RoomGone(s, x, told, id);
    case RouteEvicts(told) => RoomGone(s, s.route.id, told, id);
    case Deliver(x, blocked) => RoomDeliver(s, x, blocked, id);
    case HandlerReply(x, e, ok) => RoomReply(s, x, e, ok, id);
    case Restart(bumped) => RoomRestart(s, bumped, id);
    case Rotate =>
  }

  lemma RoomStep(s: State, step: Step, id: Speaker)
    requires Inv(s) && Enabled(s, step) && !Stale(s, step) && id in Do(s, step).room
    ensures RoomInv(Do(s, step), id)
  {
    if AwayFromRoom(step) {
      RoomUntouched(s, step);
      RoomRouteStep(s, step, id);
    } else {
      ReplyIsToJoin(s, step);
      assert id in s.room ==> RoomInv(s, id);
      RoomInRoomStep(s, step, id);
    }
  }

  lemma QueuePush(s: State, s1: State, x: Speaker, e: Event, id: Speaker)
    requires QueueInv(s, id) && s1.queue == s.queue && s1.next == s.next && e.no == s.next
    ensures QueueInv(Push(s1, x, e), id)
  {
    assert Q(s1, id) == Q(s, id);
    QueueOf(s1, x, e, id);
  }

  lemma QueueGone(s: State, x: Speaker, told: bool, id: Speaker)
    requires QueueInv(s, id)
    ensures QueueInv(Gone(s, x, told), id)
  {
    if x in s.room && told {
      QueuePush(s, s.(room := s.room - {x}), x, Left(s.next), id);
    } else {
      assert Q(Gone(s, x, told), id) == Q(s, id);
    }
  }

  lemma QueuePop(s: State, s1: State, x: Speaker, id: Speaker)
    requires QueueInv(s, id) && s1.next == s.next
    requires s1.queue == s.queue || (Q(s, x) != [] && s1.queue == Pop(s, x).queue)
    ensures QueueInv(s1, id)
  {
    if s1.queue == s.queue {
      assert Q(s1, id) == Q(s, id);
    } else {
      QueueOf(s, x, Left(0), id);
      assert Q(s1, id) == Q(Pop(s, x), id);
    }
  }

  lemma QueueStep(s: State, step: Step, id: Speaker)
    requires Enabled(s, step) && QueueInv(s, id)
    ensures QueueInv(Do(s, step), id)
  {
    var s' := Do(s, step);
    if AwayFromRoom(step) {
      RoomUntouched(s, step);
      QueuePop(s, s', id, id);
    } else {
      match step
      case Join(x) => QueuePush(s, s.(room := s.room + {x}), x, Joined(s.next), id);
      case Leave(x, told) => QueueGone(s, x, told, id);
      case Abort(x) => QueuePush(s, s, x, Left(s.next), id);
      case HandlerEvicts(x, _, told) =>
        QueueGone(s, x, told, id);
        QueuePop(Gone(s, x, told), s', x, id);
      case RouteEvicts(told) =>
        QueueGone(s, s.route.id, told, id);
        QueuePop(Gone(s, s.route.id, told), s', id, id);
      case Deliver(x, _) => QueuePop(s, s', x, id);
      case HandlerReply(x, e, _) => QueuePop(s, s', x, id);
      case Restart(_) => QueuePop(s, s', id, id);
      case Rotate =>
    }
  }

  lemma HandlerGone(s: State, x: Speaker, told: bool, id: Speaker, e: Event)
    requires HandlerInv(s, id, e)
    ensures HandlerInv(Gone(s, x, told), id, e)
  {
  }

  lemma HandlerArrives(s: State, x: Speaker, id: Speaker, e: Event)
    requires Enabled(s, Join(x)) && HandlerInv(s, id, e)
    ensures HandlerInv(DoInRoom(s, Join(x)), id, e)
  {
    QueueOf(s, x, Joined(s.next), id);
  }

  lemma HandlerAborts(s: State, x: Speaker, id: Speaker, e: Event)
    requires Enabled(s, Abort(x)) && HandlerInv(s, id, e)
    ensures HandlerInv(DoInRoom(s, Abort(x)), id, e)
  {
    QueueOf(s, x, Left(s.next), id);
  }

  lemma HandlerInRoomStep(s: State, step: Step, id: Speaker, e: Event)
    requires Enabled(s, step) && !AwayFromRoom(step)
    requires (id, e) in s.flying + s.evicted ==> HandlerInv(s, id, e)
    requires step.Deliver? ==> QueueInv(s, step.id)
    requires (id, e) in DoInRoom(s, step).flying + DoInRoom(s, step).evicted
    ensures HandlerInv(DoInRoom(s, step), id, e)
  {
    match step
    case Join(x) => HandlerArrives(s, x, id, e);
    case Leave(x, told) => HandlerGone(s, x, told, id, e);
    case Abort(x) => HandlerAborts(s, x, id, e);
    case RouteEvicts(told) => HandlerGone(s, s.route.id, told, id, e);
    case HandlerEvicts(x, f, told) => HandlerEvicted(s, x, f, told, id, e);
    case Deliver(x, blocked) => HandlerDeliver(s, x, blocked, id, e);
    case HandlerReply(x, f, ok) => HandlerReplied(s, x, f, ok, id, e);
    case Restart(_) =>
    case Rotate =>
  }

  lemma HandlerEvicted(s: State, x: Speaker, f: Event, told: bool, id: Speaker, e: Event)
    requires Enabled(s, HandlerEvicts(x, f, told)) && HandlerInv(s, id, e)
    ensures HandlerInv(DoInRoom(s, HandlerEvicts(x, f, told)), id, e)
  {
    HandlerGone(s, x, told, id, e);
  }

  lemma HandlerStep(s: State, step: Step, id: Speaker, e: Event)
    requires Inv(s) && Enabled(s, step)
    requires (id, e) in Do(s, step).flying + Do(s, step).evicted
    ensures HandlerInv(Do(s, step), id, e)
  {
    var p := (id, e);
    assert p in s.flying + s.evicted ==> HandlerInv(s, p.0, p.1);
    if AwayFromRoom(step) {
      RoomUntouched(s, step);
    } else {
      HandlerInRoomStep(s, step, id, e);
    }
  }

  lemma HandlerDeliver(s: State, x: Speaker, blocked: bool, id: Speaker, e: Event)
    requires Q(s, x) != [] && QueueInv(s, x)
    requires (id, e) in s.flying + s.evicted ==> HandlerInv(s, id, e)
    requires var s' := Handle(s, x, blocked); (id, e) in s'.flying + s'.evicted
    ensures HandlerInv(Handle(s, x, blocked), id, e)
  {
  }

  lemma HandlerReplied(s: State, x: Speaker, f: Event, ok: bool, id: Speaker, e: Event)
    requires Enabled(s, HandlerReply(x, f, ok)) && HandlerInv(s, id, e)
    ensures HandlerInv(DoInRoom(s, HandlerReply(x, f, ok)), id, e)
  {
  }

  lemma LeaseDeliver(s: State, x: Speaker, blocked: bool, k: nat)
    requires Q(s, x) != [] && LeaseInv(s, k)
    ensures LeaseInv(Handle(s, x, blocked), k)
  {
  }

  lemma LeaseIssue(s: State, j: nat, nonce: string, k: nat)
    requires LeaseInv(s, k)
    ensures LeaseInv(Issue(s, j, nonce), k)
    ensures LeaseInv(Install(s, j, nonce), k)
    ensures LeaseInv(CloseNow(s, j), k)
  {
  }

  lemma LeaseStep(s: State, step: Step, k: nat)
    requires k in s.leases ==> LeaseInv(s, k)
    requires Enabled(s, step)
    ensures LeaseInv(Do(s, step), k)
  {
    match step
    case Deliver(x, blocked) => LeaseDeliver(s, x, blocked, k);
    case PublishLook(nonce) => LeaseIssue(s, s.route.k, nonce, k);
    case PublishResume(nonce) =>
      LeaseIssue(s.(leases := ReleaseIf(s.leases, s.route.k, s.route.id)), s.route.k, nonce, k);
    case TakeoverLook(nonce) => LeaseIssue(s, s.route.k, nonce, k);
    case CloseBegin(j) => LeaseIssue(s, j, "", k);
    case RouteResume(nonce) => LeaseIssue(s, s.route.k, nonce, k);
    case _ =>
  }

  lemma RouteDeliver(s: State, x: Speaker, blocked: bool)
    requires Q(s, x) != [] && RouteInv(s)
    ensures RouteInv(Handle(s, x, blocked))
  {
  }

  lemma RouteAway(s: State, step: Step)
    requires RouteInv(s) && Enabled(s, step) && AwayFromRoom(step)
    ensures RouteInv(DoAway(s, step))
  {
  }

  lemma RouteInRoom(s: State, step: Step)
    requires RouteInv(s) && Enabled(s, step) && !AwayFromRoom(step)
    ensures RouteInv(DoInRoom(s, step))
  {
    if step.Deliver? {
      RouteDeliver(s, step.id, step.blocked);
    }
  }

  lemma RouteStep(s: State, step: Step)
    requires RouteInv(s) && Enabled(s, step)
    ensures RouteInv(Do(s, step))
  {
    if AwayFromRoom(step) {
      RouteAway(s, step);
    } else {
      RouteInRoom(s, step);
    }
  }

  lemma StepKeepsInv(s: State, step: Step)
    requires Inv(s) && Enabled(s, step) && !Stale(s, step)
    ensures Inv(Do(s, step))
  {
    var s' := Do(s, step);
    forall id | id in s'.room
      ensures RoomInv(s', id)
    {
      RoomStep(s, step, id);
    }
    forall p | p in s'.flying + s'.evicted
      ensures HandlerInv(s', p.0, p.1)
    {
      HandlerStep(s, step, p.0, p.1);
    }
    forall id | id in s'.queue
      ensures QueueInv(s', id)
    {
      QueueStep(s, step, id);
    }
    forall k | k in s'.leases
      ensures LeaseInv(s', k)
    {
      LeaseStep(s, step, k);
    }
    RouteStep(s, step);
  }

  /** A join that is never notified would be safe exactly if the speaker holds the lease or an older join is to come. */
  lemma LostJoin(s: State, id: Speaker)
    requires Inv(s)
    ensures Safe(s.(room := s.room + {id})) <==> Holds(s, id) || JoinUndelivered(s, id)
  {
    var s' := s.(room := s.room + {id});
    InvIsSafe(s);
    forall x | x in s'.room
      ensures Holds(s', x) == Holds(s, x) && JoinUndelivered(s', x) == JoinUndelivered(s, x)
    {
      assert Q(s', x) == Q(s, x);
    }
  }

  // ---- every step: safe exactly if it is not stale ----

  /** A stale step leaves a speaker in the room without lease and without a join to come. */
  lemma StaleIsUnsafe(s: State, step: Step)
    requires Inv(s) && Enabled(s, step) && Stale(s, step)
    ensures !Safe(Do(s, step))
  {
    var k := s.route.k;
    var h := s.leases[k].holder;
    assert LeaseInv(s, k) && RoomInv(s, h);
    var s' := Do(s, step);
    assert h in s'.room && Q(s', h) == Q(s, h);
    assert !Holds(s', h);
    assert !JoinUndelivered(s', h);
  }

  lemma SafeIffNotStale(s: State, step: Step)
    requires Inv(s) && Enabled(s, step)
    ensures Safe(Do(s, step)) <==> !Stale(s, step)
    ensures !Stale(s, step) ==> Inv(Do(s, step))
  {
    if Stale(s, step) {
      StaleIsUnsafe(s, step);
    } else {
      StepKeepsInv(s, step);
      InvIsSafe(Do(s, step));
    }
  }

  // ---- runs ----

  predicate Legal(s: State, steps: seq<Step>)
    decreases steps
  {
    steps == [] || (Enabled(s, steps[0]) && Legal(Do(s, steps[0]), steps[1..]))
  }

  function Run(s: State, steps: seq<Step>): State
    requires Legal(s, steps)
    decreases steps
  {
    if steps == [] then s else Run(Do(s, steps[0]), steps[1..])
  }

  /** Every state of the run is safe. */
  predicate SafeThroughout(s: State, steps: seq<Step>)
    requires Legal(s, steps)
    decreases steps
  {
    Safe(s) && (steps != [] ==> SafeThroughout(Do(s, steps[0]), steps[1..]))
  }

  predicate NeverStale(s: State, steps: seq<Step>)
    requires Legal(s, steps)
    decreases steps
  {
    steps != [] ==> !Stale(s, steps[0]) && NeverStale(Do(s, steps[0]), steps[1..])
  }

  /** A run is safe throughout exactly if no route ever acts on an outdated answer. */
  lemma {:induction false} SafeRuns(s: State, steps: seq<Step>)
    requires Inv(s) && Legal(s, steps)
    ensures SafeThroughout(s, steps) <==> NeverStale(s, steps)
    ensures NeverStale(s, steps) ==> Inv(Run(s, steps))
    decreases steps
  {
    InvIsSafe(s);
    if steps != [] {
      SafeIffNotStale(s, steps[0]);
      if Stale(s, steps[0]) {
        assert !SafeThroughout(Do(s, steps[0]), steps[1..]);
      } else {
        SafeRuns(Do(s, steps[0]), steps[1..]);
      }
    }
  }

  lemma InitInv(generation: nat)
    ensures Inv(Init(generation))
  {
  }

  lemma SafeFromTheStart(generation: nat, steps: seq<Step>)
    requires Legal(Init(generation), steps)
    ensures SafeThroughout(Init(generation), steps) <==> NeverStale(Init(generation), steps)
  {
    InitInv(generation);
    SafeRuns(Init(generation), steps);
  }

  /** With all joins delivered a channel has at most one speaker in the room: the holder of its lease. */
  lemma OneSpeaker(generation: nat, steps: seq<Step>, a: Speaker, b: Speaker)
    requires Legal(Init(generation), steps) && NeverStale(Init(generation), steps)
    requires var s := Run(Init(generation), steps);
             && a in s.room && b in s.room && a.channel == b.channel
             && !JoinUndelivered(s, a) && !JoinUndelivered(s, b)
    ensures var s := Run(Init(generation), steps);
            a == b && Holds(s, a) && s.leases[a.channel].joined.Some?
  {
    InitInv(generation);
    SafeRuns(Init(generation), steps);
    var s := Run(Init(generation), steps);
    assert RoomInv(s, a) && RoomInv(s, b);
  }

  // ---- when no answer is ever outdated ----

  /** A departure, of itself or by a removal, is notified. */
  predicate Told(step: Step) {
    step.Leave? || step.HandlerEvicts? || step.RouteEvicts? ==> step.told
  }

  /**
    Every departure is notified, and a route gets the answer to its removal before anything else
    happens.
   */
  predicate Orderly(s: State, step: Step) {
    && Told(step)
    && (s.route.Removed? ==> step.RouteResume? || step.RouteFail? || step.Restart?)
  }

  predicate OrderlyRun(s: State, steps: seq<Step>)
    requires Legal(s, steps)
    decreases steps
  {
    steps != [] ==> Orderly(s, steps[0]) && OrderlyRun(Do(s, steps[0]), steps[1..])
  }

  predicate LeftUndelivered(s: State, id: Speaker) {
    exists i | 0 <= i < |Q(s, id)| :: Q(s, id)[i].Left?
  }

  /** Somebody outside the room has its departure as latest undelivered event. */
  predicate AbsentInv(s: State, id: Speaker) {
    id !in s.room && Q(s, id) != [] ==> Q(s, id)[|Q(s, id)| - 1].Left?
  }

  predicate JoinedInv(s: State, k: nat) {
    k in s.leases && s.leases[k].joined.Some? ==>
      s.leases[k].holder in s.room || LeftUndelivered(s, s.leases[k].holder)
  }

  predicate AnswerInv(s: State) {
    match s.route
    case PublishListed(k, id, present) => k in s.leases && !present ==> LeftUndelivered(s, id)
    case Removing(k, id, _) => k in s.leases ==> s.leases[k].holder == id
    case Removed(k, id, _) => (k in s.leases ==> s.leases[k].holder == id) && id !in s.room
    case _ => true
  }

  ghost predicate ToldInv(s: State) {
    && (forall id | id in s.queue :: AbsentInv(s, id))
    && (forall k | k in s.leases :: JoinedInv(s, k))
    && AnswerInv(s)
  }

  lemma ToldIsNotStale(s: State, step: Step)
    requires Inv(s) && ToldInv(s) && Enabled(s, step)
    ensures !Stale(s, step)
  {
    if s.route.PublishListed? && s.route.id in s.room {
      assert RoomInv(s, s.route.id);
    }
  }

  /** What keeps a departure undelivered: nothing, a new event, or the delivery of an older join. */
  predicate QueueMoved(q: seq<Event>, q': seq<Event>) {
    || q' == q
    || (|q'| == |q| + 1 && q'[..|q|] == q)
    || (q != [] && q[0].Joined? && q' == q[1..])
  }

  lemma LeftStays(s: State, s': State, id: Speaker)
    requires QueueMoved(Q(s, id), Q(s', id)) && LeftUndelivered(s, id)
    ensures LeftUndelivered(s', id)
  {
    var i :| 0 <= i < |Q(s, id)| && Q(s, id)[i].Left?;
    if Q(s', id) == Q(s, id) {
      assert Q(s', id)[i].Left?;
    } else if |Q(s', id)| == |Q(s, id)| + 1 {
      assert Q(s', id)[..|Q(s, id)|][i] == Q(s', id)[i];
    } else {
      assert Q(s', id)[i - 1].Left?;
    }
  }

  lemma QueueOfGone(s: State, x: Speaker, told: bool, id: Speaker)
    ensures QueueMoved(Q(s, id), Q(Gone(s, x, told), id))
  {
    QueueOf(s, x, Left(s.next), id);
  }

  lemma QueueOfPop(s: State, x: Speaker, id: Speaker)
    requires Q(s, x) != [] && (x == id ==> Q(s, id)[0].Joined?)
    ensures QueueMoved(Q(s, id), Q(Pop(s, x), id))
  {
    QueueOf(s, x, Left(0), id);
  }

  /** In every step each queue moves so, unless the step delivers that speaker's departure. */
  lemma QueuesMove(s: State, step: Step, id: Speaker)
    requires Enabled(s, step) && !step.Rotate?
    requires step.HandlerReply? ==> step.e.Joined?
    requires step.Deliver? && step.id == id ==> Q(s, id)[0].Joined?
    ensures QueueMoved(Q(s, id), Q(Do(s, step), id))
  {
    if AwayFromRoom(step) {
      RoomUntouched(s, step);
    } else {
      match step
      case Join(x) => QueueOf(s, x, Joined(s.next), id);
      case Leave(x, told) => QueueOfGone(s, x, told, id);
      case Abort(x) => QueueOf(s, x, Left(s.next), id);
      case HandlerEvicts(x, _, told) => QueueOfGone(s, x, told, id);
      case RouteEvicts(told) => QueueOfGone(s, s.route.id, told, id);
      case Deliver(x, _) => QueueOfPop(s, x, id);
      case HandlerReply(x, e, ok) =>
        if ok && Q(s, x) != [] && Q(s, x)[0] == e {
          QueueOfPop(s, x, id);
        }
      case Restart(_) =>
    }
  }

  lemma AbsentGone(s: State, x: Speaker, id: Speaker)
    requires AbsentInv(s, id)
    ensures AbsentInv(Gone(s, x, true), id)
  {
    QueueOf(s, x, Left(s.next), id);
  }

  lemma AbsentPop(s: State, s1: State, x: Speaker, id: Speaker)
    requires AbsentInv(s, id) && s1.room == s.room
    requires s1.queue == s.queue || (Q(s, x) != [] && s1.queue == Pop(s, x).queue)
    ensures AbsentInv(s1, id)
  {
    if s1.queue != s.queue {
      QueueOf(s, x, Left(0), id);
      assert Q(s1, id) == Q(Pop(s, x), id);
    }
  }

  lemma TellAbsent(s: State, step: Step, id: Speaker)
    requires Enabled(s, step) && Told(step)
    requires AbsentInv(s, id)
    ensures AbsentInv(Do(s, step), id)
  {
    if AwayFromRoom(step) {
      RoomUntouched(s, step);
      AbsentPop(s, Do(s, step), id, id);
    } else {
      match step
      case Join(x) => QueueOf(s, x, Joined(s.next), id);
      case Leave(x, _) => AbsentGone(s, x, id);
      case Abort(x) => QueueOf(s, x, Left(s.next), id);
      case HandlerEvicts(x, _, _) => AbsentGone(s, x, id);
      case RouteEvicts(_) => AbsentGone(s, s.route.id, id);
      case Deliver(x, _) => AbsentPop(s, Do(s, step), x, id);
      case HandlerReply(x, e, _) => AbsentPop(s, Do(s, step), x, id);
      case Restart(_) => AbsentPop(s, Do(s, step), id, id);
      case Rotate =>
    }
  }

  lemma JoinedAway(s: State, step: Step, k: nat)
    requires Enabled(s, step) && AwayFromRoom(step)
    requires var t := Do(s, step).leases; k in t && t[k].joined.Some?
    ensures k in s.leases && s.leases[k].joined.Some? && s.leases[k].holder == Do(s, step).leases[k].holder
  {
  }

  lemma JoinedByDelivery(s: State, x: Speaker, blocked: bool, k: nat)
    requires Q(s, x) != [] && LeaseInv(s, k)
    requires var t := Handle(s, x, blocked).leases; k in t && t[k].joined.Some?
    ensures k in s.leases && s.leases[k].holder == Handle(s, x, blocked).leases[k].holder
    ensures s.leases[k].joined.Some? || (x == s.leases[k].holder && Q(s, x)[0].Joined?)
    ensures x == s.leases[k].holder ==> Q(s, x)[0].Joined?
  {
  }

  lemma DepartureTold(s: State, step: Step, id: Speaker)
    requires Enabled(s, step) && !step.Rotate? && Told(step)
    requires id in s.room && id !in Do(s, step).room
    ensures LeftUndelivered(Do(s, step), id)
  {
    var q := Q(Do(s, step), id);
    if AwayFromRoom(step) {
      RoomUntouched(s, step);
    } else {
      assert q[|q| - 1].Left?;
    }
  }

  /** A speaker in the room, or with a departure to come, stays one of the two unless the departure is delivered. */
  lemma StaysOrTells(s: State, step: Step, h: Speaker)
    requires Enabled(s, step) && !step.Rotate? && Told(step)
    requires step.HandlerReply? ==> step.e.Joined?
    requires h in s.room || LeftUndelivered(s, h)
    requires step.Deliver? && step.id == h ==> Q(s, h)[0].Joined?
    ensures h in Do(s, step).room || LeftUndelivered(Do(s, step), h)
  {
    if h in s.room {
      if h !in Do(s, step).room {
        DepartureTold(s, step, h);
      }
    } else {
      QueuesMove(s, step, h);
      LeftStays(s, Do(s, step), h);
    }
  }

  lemma JoinedUntouched(s: State, step: Step)
    requires Enabled(s, step) && !AwayFromRoom(step) && !step.Deliver? && !step.Restart? && !step.Rotate?
    ensures Do(s, step).leases == s.leases
  {
  }

  lemma TellJoined(s: State, step: Step, k: nat)
    requires Enabled(s, step) && !step.Rotate? && Told(step) && (step.HandlerReply? ==> step.e.Joined?)
    requires JoinedInv(s, k) && LeaseInv(s, k) && (step.Deliver? ==> AbsentInv(s, step.id))
    ensures JoinedInv(Do(s, step), k)
  {
    var s' := Do(s, step);
    if k in s'.leases && s'.leases[k].joined.Some? {
      var h := s'.leases[k].holder;
      if step.Deliver? {
        JoinedByDelivery(s, step.id, step.blocked, k);
        if step.id == h && h !in s.room {
          assert Q(s, h)[|Q(s, h)| - 1].Left?;
        }
      } else if AwayFromRoom(step) {
        JoinedAway(s, step, k);
      } else if !step.Restart? {
        JoinedUntouched(s, step);
      }
      StaysOrTells(s, step, h);
    }
  }

  lemma TellAnswerAway(s: State, step: Step)
    requires Enabled(s, step) && AwayFromRoom(step) && RouteInv(s) && AnswerInv(s)
    requires s.route.PublishListing? ==> JoinedInv(s, s.route.k)
    ensures AnswerInv(Do(s, step))
  {
    if (s.route.PublishListing? || s.route.PublishListed?) && LeftUndelivered(s, s.route.id) {
      RoomUntouched(s, step);
      LeftStays(s, Do(s, step), s.route.id);
    }
  }

  /** A waiting publish keeps its speaker's departure in sight. */
  lemma TellListed(s: State, step: Step)
    requires Enabled(s, step) && !AwayFromRoom(step) && !step.Rotate? && !step.RouteEvicts? && !step.Restart?
    requires RouteInv(s) && AnswerInv(s) && s.route.PublishListed? && LeaseInv(s, s.route.k)
    requires step.HandlerReply? ==> step.e.Joined?
    ensures AnswerInv(Do(s, step))
  {
    var s' := Do(s, step);
    if s.route.k in s'.leases && !s.route.present {
      QueuesMove(s, step, s.route.id);
      LeftStays(s, s', s.route.id);
    }
  }

  lemma TellAnswer(s: State, step: Step)
    requires Enabled(s, step) && Orderly(s, step) && RouteInv(s) && AnswerInv(s)
    requires s.route.PublishListing? ==> JoinedInv(s, s.route.k)
    requires s.route.PublishListed? ==> LeaseInv(s, s.route.k)
    requires step.HandlerReply? ==> step.e.Joined?
    ensures AnswerInv(Do(s, step))
  {
    if AwayFromRoom(step) {
      TellAnswerAway(s, step);
    } else if s.route.PublishListed? && !step.Restart? && !step.Rotate? && !step.RouteEvicts? {
      TellListed(s, step);
    }
  }

  lemma ToldStep(s: State, step: Step)
    requires Inv(s) && ToldInv(s) && Enabled(s, step) && Orderly(s, step)
    ensures Inv(Do(s, step)) && ToldInv(Do(s, step)) && !Stale(s, step)
  {
    ToldIsNotStale(s, step);
    StepKeepsInv(s, step);
    ReplyIsToJoin(s, step);
    var s' := Do(s, step);
    forall id | id in s'.queue
      ensures AbsentInv(s', id)
    {
      TellAbsent(s, step, id);
    }
    forall k | k in s'.leases
      ensures JoinedInv(s', k)
    {
      if !step.Rotate? {
        TellJoined(s, step, k);
      }
    }
    if s.route.PublishListing? || s.route.PublishListed? {
      assert s.route.k in s.leases ==> JoinedInv(s, s.route.k) && LeaseInv(s, s.route.k);
    }
    TellAnswer(s, step);
  }

  /**
    If departures are notified and removals answered at once, every run is safe: through failed
    removals and lists, grace-expired overwrites, TTL extension, takeovers, restarts and rejoins.
   */
  lemma {:induction false} OrderlyIsSafe(s: State, steps: seq<Step>)
    requires Inv(s) && ToldInv(s) && Legal(s, steps) && OrderlyRun(s, steps)
    ensures SafeThroughout(s, steps)
    decreases steps
  {
    InvIsSafe(s);
    if steps != [] {
      ToldStep(s, steps[0]);
      OrderlyIsSafe(Do(s, steps[0]), steps[1..]);
    }
  }

  lemma AlwaysSafe(generation: nat, steps: seq<Step>)
    requires Legal(Init(generation), steps) && OrderlyRun(Init(generation), steps)
    ensures SafeThroughout(Init(generation), steps)
  {
    InitInv(generation);
    OrderlyIsSafe(Init(generation), steps);
  }

  // ---- epochs ----

  /** An issued identity names a known channel, and neither its epoch nor its generation is ahead. */
  predicate Dated(s: State, id: Speaker) {
    && id.channel in s.chans && id.epoch <= s.chans[id.channel].epoch && id.generation <= s.generation
  }

  ghost predicate AllDated(s: State) {
    && (forall id | id in s.issued :: Dated(s, id))
    && (!s.route.Idle? ==> s.route.k in s.chans)
  }

  /** Channels stay and epochs and generations only grow. */
  predicate Later(s: State, s': State) {
    && s.generation <= s'.generation
    && forall k | k in s.chans :: k in s'.chans && s.chans[k].epoch <= s'.chans[k].epoch
  }

  /** What a step issues, if anything, carries the epoch and generation of that moment. */
  lemma IssuedNow(s: State, step: Step, id: Speaker)
    requires Enabled(s, step) && (!s.route.Idle? ==> s.route.k in s.chans)
    requires id in Do(s, step).issued && id !in s.issued
    ensures Dated(Do(s, step), id) && Holds(Do(s, step), id)
    ensures id.epoch == Do(s, step).chans[id.channel].epoch && id.generation == Do(s, step).generation
  {
  }

  lemma InRoomKeepsEpochs(s: State, step: Step)
    requires Enabled(s, step) && !AwayFromRoom(step)
    ensures var s' := DoInRoom(s, step);
            && Later(s, s') && s'.issued == s.issued
            && (!s'.route.Idle? ==> !s.route.Idle? && s'.route.k == s.route.k)
  {
  }

  lemma StepIsLater(s: State, step: Step)
    requires Enabled(s, step)
    ensures Later(s, Do(s, step)) && s.issued <= Do(s, step).issued
    ensures (!s.route.Idle? ==> s.route.k in s.chans) ==>
            (!Do(s, step).route.Idle? ==> Do(s, step).route.k in Do(s, step).chans)
  {
    if !AwayFromRoom(step) {
      InRoomKeepsEpochs(s, step);
    }
  }

  lemma DatedStep(s: State, step: Step)
    requires AllDated(s) && Enabled(s, step)
    ensures AllDated(Do(s, step))
  {
    var s' := Do(s, step);
    StepIsLater(s, step);
    forall id | id in s'.issued
      ensures Dated(s', id)
    {
      if id in s.issued {
        assert Dated(s, id);
      } else {
        IssuedNow(s, step, id);
      }
    }
  }

  /** In every run the epochs of issued identities stay behind those of their channels. */
  lemma {:induction false} AlwaysDated(s: State, steps: seq<Step>)
    requires AllDated(s) && Legal(s, steps)
    ensures AllDated(Run(s, steps)) && Later(s, Run(s, steps))
    decreases steps
  {
    if steps != [] {
      DatedStep(s, steps[0]);
      StepIsLater(s, steps[0]);
      AlwaysDated(Do(s, steps[0]), steps[1..]);
    }
  }

  /**
    After a takeover every identity issued before for the channel is of an older epoch, for good:
    only the new one is ever admitted again.
   */
  lemma TakeoverOutdates(s: State, k: nat, nonce: string, steps: seq<Step>, id: Speaker)
    requires AllDated(s) && k in s.chans && Fresh(s, nonce)
    requires Legal(Install(s, k, nonce), steps)
    requires id in s.issued && id.channel == k
    ensures Admissible(Install(s, k, nonce), NewId(Install(s, k, nonce), k, nonce))
    ensures !Admissible(Run(Install(s, k, nonce), steps), id)
  {
    var s1 := Install(s, k, nonce);
    assert Dated(s, id);
    assert s1.chans[k].epoch == s.chans[k].epoch + 1;
    forall x | x in s1.issued
      ensures Dated(s1, x)
    {
      assert x in s.issued ==> Dated(s, x);
    }
    AlwaysDated(s1, steps);
  }

  /** A publish that finds the holder present is refused, and extends the holder's lease. */
  lemma PresentKeepsLease(s: State, nonce: string)
    requires Inv(s) && Enabled(s, PublishResume(nonce)) && s.route.present && s.route.k in s.leases
    ensures var (k, t, s') := (s.route.k, s.leases, Do(s, PublishResume(nonce)));
            && s'.issued == s.issued && s'.leases == t[k := t[k].(expires := s.now + TTL)]
            && s'.leases[k].joined.Some?
            && forall now: real | s.now <= now < s.now + TTL :: Alive(s'.leases[k], now, TTL, GRACE)
  {
  }

  // ---- runs that are not safe ----

  lemma Prepend(s: State, step: Step, steps: seq<Step>)
    requires Enabled(s, step) && Legal(Do(s, step), steps)
    ensures Legal(s, [step] + steps) && Run(s, [step] + steps) == Run(Do(s, step), steps)
    ensures |[step] + steps| == |steps| + 1
  {
    assert ([step] + steps)[1..] == steps;
  }

  lemma Unsafe(s: State, id: Speaker)
    requires id in s.room && !Holds(s, id) && Q(s, id) == []
    ensures !Safe(s)
  {
    assert !JoinUndelivered(s, id);
  }

  lemma {:induction false} Append(s: State, a: seq<Step>, b: seq<Step>)
    requires Legal(s, a) && Legal(Run(s, a), b)
    ensures Legal(s, a + b) && Run(s, a + b) == Run(Run(s, a), b)
    decreases a
  {
    if a == [] {
      assert a + b == b;
    } else {
      Append(Do(s, a[0]), a[1..], b);
      assert a[0] == (a + b)[0] && (a + b)[1..] == a[1..] + b;
    }
  }

  /** Channel 0 is open and its first lease has been issued, to `FIRST`. */
  const FIRST := Speaker(0, 1, 1, "a")

  function Granted(): State {
    State(0.0, 1, map[0 := Chan(true, 1)], map[0 := Lease(FIRST, TTL, None)], {FIRST}, {}, map[], 0, {}, {}, Idle)
  }

  lemma Granting() returns (steps: seq<Step>)
    ensures Legal(Init(1), steps) && Run(Init(1), steps) == Granted()
    ensures forall i | 0 <= i < |steps| :: !steps[i].Leave? && !steps[i].RouteEvicts? && Told(steps[i])
  {
    var s0 := Init(1);
    var s1 := Do(s0, OpenChannel(0));
    var s2 := Do(s1, PublishBegin(0));
    var s3 := Do(s2, PublishLook("a"));
    assert s3 == Granted();
    steps := [];
    Prepend(s2, PublishLook("a"), steps); steps := [PublishLook("a")] + steps;
    Prepend(s1, PublishBegin(0), steps); steps := [PublishBegin(0)] + steps;
    Prepend(s0, OpenChannel(0), steps); steps := [OpenChannel(0)] + steps;
  }

  /** A takeover has had `FIRST` removed; `FIRST` has joined since, and its join was accepted. */
  function Accepted(): State {
    Granted().(leases := map[0 := Lease(FIRST, TTL, Some(0.0))], room := {FIRST},
               queue := map[FIRST := []], next := 1, route := Removed(0, FIRST, true))
  }

  lemma Accepting() returns (steps: seq<Step>)
    ensures Legal(Granted(), steps) && Run(Granted(), steps) == Accepted()
    ensures forall i | 0 <= i < |steps| :: !steps[i].Leave? && Told(steps[i])
  {
    var s3 := Granted();
    var s4 := Do(s3, TakeoverBegin(0));
    assert Fresh(s4, "b");
    var s5 := Do(s4, TakeoverLook("b"));
    var s6 := Do(s5, RouteEvicts(true));
    var s7 := Do(s6, Join(FIRST));
    assert Q(s7, FIRST) == [Joined(0)];
    var s8 := Do(s7, Deliver(FIRST, false));
    assert s8 == Accepted();
    steps := [];
    Prepend(s7, Deliver(FIRST, false), steps); steps := [Deliver(FIRST, false)] + steps;
    Prepend(s6, Join(FIRST), steps); steps := [Join(FIRST)] + steps;
    Prepend(s5, RouteEvicts(true), steps); steps := [RouteEvicts(true)] + steps;
    Prepend(s4, TakeoverLook("b"), steps); steps := [TakeoverLook("b")] + steps;
    Prepend(s3, TakeoverBegin(0), steps); steps := [TakeoverBegin(0)] + steps;
  }

  lemma TakenOver() returns (steps: seq<Step>)
    ensures Legal(Accepted(), steps) && !Safe(Run(Accepted(), steps))
    ensures forall i | 0 <= i < |steps| :: !steps[i].Leave? && Told(steps[i])
  {
    assert Fresh(Accepted(), "b");
    Unsafe(Do(Accepted(), RouteResume("b")), FIRST);
    steps := [];
    Prepend(Accepted(), RouteResume("b"), steps); steps := [RouteResume("b")] + steps;
  }

  /**
    A takeover finds the holder not yet in the room; while the answer to its removal is under
    way, the holder joins and its join is accepted. The takeover then replaces its lease.
   */
  lemma LateRemoval() returns (steps: seq<Step>)
    ensures Legal(Init(1), steps) && !Safe(Run(Init(1), steps))
    ensures forall i | 0 <= i < |steps| :: !steps[i].Leave? && Told(steps[i])
  {
    var a := Granting();
    var b := Accepting();
    var c := TakenOver();
    Append(Init(1), a, b);
    Append(Init(1), a + b, c);
    steps := a + b + c;
  }

  /** `FIRST` has joined, its join was delivered, and it has left without notice. */
  function Lost(): State {
    Granted().(leases := map[0 := Lease(FIRST, TTL, Some(0.0))], queue := map[FIRST := []], next := 1)
  }

  lemma Losing() returns (steps: seq<Step>)
    ensures Legal(Granted(), steps) && Run(Granted(), steps) == Lost()
    ensures forall i | 0 <= i < |steps| :: !steps[i].RouteEvicts?
  {
    var s3 := Granted();
    var s4 := Do(s3, Join(FIRST));
    assert Q(s4, FIRST) == [Joined(0)];
    var s5 := Do(s4, Deliver(FIRST, false));
    var s6 := Do(s5, Leave(FIRST, false));
    assert s6 == Lost();
    steps := [];
    Prepend(s5, Leave(FIRST, false), steps); steps := [Leave(FIRST, false)] + steps;
    Prepend(s4, Deliver(FIRST, false), steps); steps := [Deliver(FIRST, false)] + steps;
    Prepend(s3, Join(FIRST), steps); steps := [Join(FIRST)] + steps;
  }

  /** A publish has listed the room without `FIRST`, who is back since with its join accepted. */
  function Returned(): State {
    Lost().(room := {FIRST}, next := 2, route := PublishListed(0, FIRST, false))
  }

  lemma Returning() returns (steps: seq<Step>)
    ensures Legal(Lost(), steps) && Run(Lost(), steps) == Returned()
    ensures forall i | 0 <= i < |steps| :: !steps[i].RouteEvicts?
  {
    var s6 := Lost();
    var s7 := Do(s6, PublishBegin(0));
    assert Fresh(s7, "b");
    var s8 := Do(s7, PublishLook("b"));
    var s9 := Do(s8, PublishList(false));
    var s10 := Do(s9, Join(FIRST));
    assert Q(s10, FIRST) == [Joined(1)];
    var s11 := Do(s10, Deliver(FIRST, false));
    assert s11 == Returned();
    steps := [];
    Prepend(s10, Deliver(FIRST, false), steps); steps := [Deliver(FIRST, false)] + steps;
    Prepend(s9, Join(FIRST), steps); steps := [Join(FIRST)] + steps;
    Prepend(s8, PublishList(false), steps); steps := [PublishList(false)] + steps;
    Prepend(s7, PublishLook("b"), steps); steps := [PublishLook("b")] + steps;
    Prepend(s6, PublishBegin(0), steps); steps := [PublishBegin(0)] + steps;
  }

  lemma GivenAway() returns (steps: seq<Step>)
    ensures Legal(Returned(), steps) && !Safe(Run(Returned(), steps))
    ensures forall i | 0 <= i < |steps| :: !steps[i].RouteEvicts?
  {
    assert Fresh(Returned(), "b");
    Unsafe(Do(Returned(), PublishResume("b")), FIRST);
    steps := [];
    Prepend(Returned(), PublishResume("b"), steps); steps := [PublishResume("b")] + steps;
  }

  /**
    The holder's departure is never notified. A publish lists the room, and before the list
    arrives the holder is back with its old token and its join accepted; its lease is then given
    to somebody else.
   */
  lemma LostDeparture() returns (steps: seq<Step>)
    ensures Legal(Init(1), steps) && !Safe(Run(Init(1), steps))
    ensures forall i | 0 <= i < |steps| :: !steps[i].RouteEvicts?
  {
    var a := Granting();
    var b := Losing();
    var c := Returning();
    var d := GivenAway();
    Append(Init(1), a, b);
    Append(Init(1), a + b, c);
    Append(Init(1), a + b + c, d);
    steps := a + b + c + d;
  }
}
