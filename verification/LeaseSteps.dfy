/**
  What each step of the lease protocol does, said of the state itself: when it can be taken, what
  it changes and that it changes nothing else.
 */
module LeaseSteps {
  import opened Common
  import opened Identity
  import opened Leases
  import opened LeaseProtocol

  /** A lease that was issued at `t0` and has not been extended. */
  predicate IssuedAt(l: Lease, t0: real) {
    l.expires == t0 + 3600.0
  }

  /** `k` has gone to a new identity of the current epoch and generation, for an hour, not joined yet. */
  predicate GivenTo(s: State, s': State, k: nat, epoch: nat, nonce: string) {
    var id := Speaker(k, epoch, s.generation, nonce);
    && s'.leases == s.leases[k := Lease(id, s.now + 3600.0, None)]
    && s'.issued == s.issued + {id}
  }

  // ---- publish ----

  /**
    A publish that finds no lease issues one. One that finds a lease nobody has joined with issues
    a new one from two minutes after that one was issued, and is refused before; an hour-long
    block takes a join.
   */
  lemma PublishDecides(s: State, k: nat, nonce: string, t0: real)
    requires s.route == PublishRoom(k) && k in s.chans && forall id | id in s.issued :: id.nonce != nonce
    requires k in s.leases ==> s.leases[k].joined.None? && IssuedAt(s.leases[k], t0)
    ensures Enabled(s, PublishLook(nonce))
    ensures var s' := Do(s, PublishLook(nonce));
            && s'.route == Idle && s' == s.(leases := s'.leases, issued := s'.issued, route := Idle)
            && if k !in s.leases || s.now >= t0 + 120.0
               then GivenTo(s, s', k, s.chans[k].epoch, nonce)
               else s'.leases == s.leases && s'.issued == s.issued
  {
  }

  /** A joined lease is looked up in the room first; an error there counts as present. */
  lemma PublishLooksForHolder(s: State, k: nat, nonce: string, failed: bool)
    requires s.route == PublishRoom(k) && forall id | id in s.issued :: id.nonce != nonce
    requires k in s.leases && s.leases[k].joined.Some?
    ensures Enabled(s, PublishLook(nonce))
    ensures var s1 := Do(s, PublishLook(nonce));
            && s1 == s.(route := PublishListing(k, s.leases[k].holder))
            && Enabled(s1, PublishList(failed))
            && Do(s1, PublishList(failed))
            == s.(route := PublishListed(k, s.leases[k].holder, failed || s.leases[k].holder in s.room))
  {
  }

  /** With the holder absent its lease goes and a new one is issued at once; with it present neither happens. */
  lemma PublishAfterListing(s: State, k: nat, id: Speaker, present: bool, nonce: string)
    requires s.route == PublishListed(k, id, present) && k in s.chans
    requires forall x | x in s.issued :: x.nonce != nonce
    requires k in s.leases ==> s.leases[k].holder == id
    ensures Enabled(s, PublishResume(nonce))
    ensures var s' := Do(s, PublishResume(nonce));
            && s' == s.(leases := s'.leases, issued := s'.issued, route := Idle)
            && (!present ==> GivenTo(s, s', k, s.chans[k].epoch, nonce))
            && (present ==> s'.issued == s.issued && s'.leases.Keys == s.leases.Keys)
            && (present && k in s.leases ==>
                  s'.leases == s.leases[k := Lease(id, s.now + 3600.0, s.leases[k].joined)])
  {
    var (t, l) := (s.leases - {k}, Lease(NewId(s, k, nonce), s.now + 3600.0, None));
    assert t[k := l] == s.leases[k := l];
  }

  /** Each route starts on an open channel, while no other one is under way. */
  lemma RoutesStart(s: State, k: nat)
    requires s.route.Idle? && k in s.chans && s.chans[k].open
    ensures Enabled(s, PublishBegin(k)) && Do(s, PublishBegin(k)) == s.(route := PublishRoom(k))
    ensures Enabled(s, TakeoverBegin(k)) && Do(s, TakeoverBegin(k)) == s.(route := TakeoverRoom(k))
    ensures Enabled(s, CloseBegin(k))
  {
  }

  /** A route that fails leaves everything as it is. */
  lemma RouteFails(s: State)
    requires !s.route.Idle?
    ensures Enabled(s, RouteFail) && Do(s, RouteFail) == s.(route := Idle)
  {
  }

  // ---- takeover and close ----

  /** The epoch goes up by one, and the channel to an identity of the new epoch, whatever lease there was. */
  predicate TakenOver(s: State, s': State, k: nat, nonce: string)
    requires k in s.chans
  {
    var epoch := s.chans[k].epoch + 1;
    && GivenTo(s, s', k, epoch, nonce)
    && s' == s.(chans := s.chans[k := Chan(true, epoch)], leases := s'.leases, issued := s'.issued, route := Idle)
  }

  /** A takeover without a lease to remove takes effect at once; else it waits for the holder's removal. */
  lemma TakeoverLooks(s: State, k: nat, nonce: string)
    requires s.route == TakeoverRoom(k) && k in s.chans && forall id | id in s.issued :: id.nonce != nonce
    ensures Enabled(s, TakeoverLook(nonce))
    ensures var s' := Do(s, TakeoverLook(nonce));
            if k in s.leases then s' == s.(route := Removing(k, s.leases[k].holder, true))
            else TakenOver(s, s', k, nonce)
  {
  }

  lemma TakeoverResumes(s: State, k: nat, id: Speaker, nonce: string)
    requires s.route == Removed(k, id, true) && k in s.chans && forall x | x in s.issued :: x.nonce != nonce
    ensures Enabled(s, RouteResume(nonce)) && TakenOver(s, Do(s, RouteResume(nonce)), k, nonce)
  {
  }

  /** The channel is closed, keeps its epoch, and has no lease. */
  predicate Shut(s: State, s': State, k: nat)
    requires k in s.chans
  {
    && s'.chans == s.chans[k := Chan(false, s.chans[k].epoch)]
    && s'.leases == s.leases - {k}
    && s' == s.(chans := s'.chans, leases := s'.leases, route := Idle)
  }

  lemma CloseLooks(s: State, k: nat)
    requires s.route.Idle? && k in s.chans && s.chans[k].open
    ensures Enabled(s, CloseBegin(k))
    ensures var s' := Do(s, CloseBegin(k));
            if k in s.leases then s' == s.(route := Removing(k, s.leases[k].holder, false)) else Shut(s, s', k)
  {
    if k !in s.leases {
      assert s.leases - {k} == s.leases;
    }
  }

  lemma CloseResumes(s: State, k: nat, id: Speaker, nonce: string)
    requires s.route == Removed(k, id, false) && k in s.chans && forall x | x in s.issued :: x.nonce != nonce
    ensures Enabled(s, RouteResume(nonce)) && Shut(s, Do(s, RouteResume(nonce)), k)
  {
  }

  // ---- the room and its webhooks ----

  /** `id`'s queue of undelivered events has grown by `e`. */
  predicate Notified(s: State, s': State, id: Speaker, e: Event) {
    && s'.queue == s.queue[id := (if id in s.queue then s.queue[id] else []) + [e]]
    && e.no == s.next && s'.next == s.next + 1
  }

  /** `id` is out of the room, and if it was in and `told` says so its departure will be delivered. */
  predicate Departed(s: State, s': State, id: Speaker, told: bool) {
    && s'.room == s.room - {id}
    && if id in s.room && told then Notified(s, s', id, Left(s.next)) else s'.queue == s.queue && s'.next == s.next
  }

  /** Any issued identity of the generation may join; a join is queued. */
  lemma Joins(s: State, id: Speaker)
    requires id in s.issued && id.generation == s.generation && id !in s.room
    ensures Enabled(s, Join(id)) && Enabled(s, Abort(id))
    ensures var s' := Do(s, Join(id));
            && s'.room == s.room + {id} && Notified(s, s', id, Joined(s.next))
            && s' == s.(room := s'.room, queue := s'.queue, next := s'.next)
    ensures var s' := Do(s, Abort(id));
            Notified(s, s', id, Left(s.next)) && s' == s.(queue := s'.queue, next := s'.next)
  {
  }

  lemma Leaves(s: State, id: Speaker, told: bool)
    requires id in s.room
    ensures Enabled(s, Leave(id, told))
    ensures var s' := Do(s, Leave(id, told));
            Departed(s, s', id, told) && s' == s.(room := s'.room, queue := s'.queue, next := s'.next)
  {
  }

  lemma RouteRemoves(s: State, k: nat, id: Speaker, takeover: bool, told: bool)
    requires s.route == Removing(k, id, takeover)
    ensures Enabled(s, RouteEvicts(told))
    ensures var s' := Do(s, RouteEvicts(told));
            && Departed(s, s', id, told)
            && s' == s.(room := s'.room, queue := s'.queue, next := s'.next, route := Removed(k, id, takeover))
  {
    if id !in s.room {
      assert s.room - {id} == s.room;
    }
  }

  lemma HandlerRemoves(s: State, id: Speaker, e: Event, told: bool)
    requires (id, e) in s.flying
    ensures Enabled(s, HandlerEvicts(id, e, told))
    ensures var s' := Do(s, HandlerEvicts(id, e, told));
            && Departed(s, s', id, told)
            && s' == s.(room := s'.room, queue := s'.queue, next := s'.next,
                        flying := s.flying - {(id, e)}, evicted := s.evicted + {(id, e)})
  {
    if id !in s.room {
      assert s.room - {id} == s.room;
    }
  }

  /** The oldest event of `id` is delivered; nobody else's queue changes. */
  predicate Delivered(s: State, s': State, id: Speaker)
    requires id in s.queue && s.queue[id] != []
  {
    s'.queue == s.queue[id := s.queue[id][1..]]
  }

  /** A departure releases the lease if this identity holds it, and no other. */
  lemma DepartureDelivered(s: State, id: Speaker, blocked: bool)
    requires id in s.queue && s.queue[id] != [] && s.queue[id][0].Left?
    ensures Enabled(s, Deliver(id, blocked))
    ensures var (s', k) := (Do(s, Deliver(id, blocked)), id.channel);
            && Delivered(s, s', id) && s' == s.(queue := s'.queue, leases := s'.leases)
            && s'.leases == if k in s.leases && s.leases[k].holder == id then s.leases - {k} else s.leases
  {
  }

  /**
    A join is accepted exactly if the identity is not blocked, is of the generation, not of an
    older epoch, and holds the lease; then the lease is joined. Otherwise its removal begins and
    the event stays.
   */
  lemma JoinDelivered(s: State, id: Speaker, blocked: bool)
    requires id in s.queue && s.queue[id] != [] && s.queue[id][0].Joined?
    ensures Enabled(s, Deliver(id, blocked))
    ensures var (s', k) := (Do(s, Deliver(id, blocked)), id.channel);
            if && !blocked && k in s.chans && id.generation == s.generation && id.epoch >= s.chans[k].epoch
               && k in s.leases && s.leases[k].holder == id
            then && Delivered(s, s', id)
                 && s' == s.(queue := s'.queue,
                             leases := s.leases[k := Lease(id, s.leases[k].expires, Some(s.now))])
            else s' == s.(flying := s.flying + {(id, s.queue[id][0])})
  {
  }

  /** A removal that worked has its event done with, if that still is the oldest one; one that failed leaves it. */
  lemma HandlerResumes(s: State, id: Speaker, e: Event, ok: bool)
    requires (id, e) in s.evicted || (!ok && (id, e) in s.flying)
    ensures Enabled(s, HandlerReply(id, e, ok))
    ensures var s' := Do(s, HandlerReply(id, e, ok));
            && s' == s.(queue := s'.queue, flying := s.flying - {(id, e)}, evicted := s.evicted - {(id, e)})
            && s'.queue == if ok && id in s.queue && s.queue[id] != [] && s.queue[id][0] == e
                           then s.queue[id := s.queue[id][1..]] else s.queue
  {
  }

  // ---- the rest ----

  lemma ChannelOpens(s: State, k: nat)
    requires k in s.chans ==> !s.chans[k].open
    ensures Enabled(s, OpenChannel(k))
    ensures Do(s, OpenChannel(k)) == s.(chans := s.chans[k := Chan(true, if k in s.chans then s.chans[k].epoch else 1)])
  {
  }

  /** A rotation starts the next generation with no leases and an empty room; tokens stay issued. */
  lemma Rotates(s: State)
    requires s.route.Idle?
    ensures Enabled(s, Rotate)
    ensures Do(s, Rotate) == s.(generation := s.generation + 1, leases := map[], room := {}, queue := map[],
                                flying := {}, evicted := {})
  {
  }

  /**
    A restart keeps room and events, forgets routes and handlers, and releases the joined leases of
    the absent. A takeover that it interrupts may have raised its channel's epoch already.
   */
  lemma Restarts(s: State, k: nat)
    ensures var s' := Do(s, Restart(false));
            && s' == s.(leases := s'.leases, flying := {}, evicted := {}, route := Idle)
            && (k in s'.leases <==> k in s.leases && (s.leases[k].joined.None? || s.leases[k].holder in s.room))
            && (k in s'.leases ==> s'.leases[k] == s.leases[k])
    ensures Do(s, Restart(true))
         == match s.route
            case Removed(j, _, true) =>
              if j in s.chans
              then Do(s, Restart(false)).(chans := s.chans[j := Chan(s.chans[j].open, s.chans[j].epoch + 1)])
              else Do(s, Restart(false))
            case _ => Do(s, Restart(false))
  {
  }

  /** A second publish, in numbers: refused after 100 seconds, served after 200. */
  lemma SecondPublish()
    ensures var s := Granted().(route := PublishRoom(0));
            && Do(s.(now := 100.0), PublishLook("b")).leases == s.leases
            && Do(s.(now := 200.0), PublishLook("b")).leases
            == map[0 := Lease(Speaker(0, 1, 1, "b"), 3800.0, None)]
  {
    var s := Granted().(route := PublishRoom(0));
    PublishDecides(s.(now := 100.0), 0, "b", 0.0);
    PublishDecides(s.(now := 200.0), 0, "b", 0.0);
  }
}
