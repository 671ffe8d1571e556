/**
  What a webhook does, from its delivery to the end of its handler, said of the server itself:
  who is removed, which leases and on-air states change, what is logged, and what is committed.
 */
module WebhookSteps {
  import opened Common
  import opened Identity
  import opened Leases
  import opened Webhooks

  /** The event concerns the current room, has not been committed, and is about the speaker `id`. */
  predicate Concerns(r: Reader, s: Server, e: Event, id: Speaker) {
    && (e.room == "" || e.room == s.room) && (e.id == "" || e.id !in s.processed)
    && e.ident != "" && r.w.read(e.ident) == Some(id)
    && !(|e.ident| >= 8 && e.ident[..8] == "monitor-") && !(|e.ident| >= 9 && e.ident[..9] == "intercom-")
  }

  /** The lease of the channel that the identity names is written in its name. */
  predicate Owns(r: Reader, s: Server, e: Event, id: Speaker) {
    id.channel in s.leases && r.w.write(s.leases[id.channel].holder) == e.ident
  }

  /** The channel is known, and the identity of this generation and not of an older epoch. */
  predicate Current(s: Server, id: Speaker) {
    id.channel in s.chans && id.generation == s.generation && id.epoch >= s.chans[id.channel].epoch
  }

  function Committed(s: Server, e: Event): set<string> {
    if e.id == "" then s.processed else s.processed + {e.id}
  }

  /** The handler is done, with success, and this is what it has changed besides the ledger. */
  predicate Ends(x: System, x': System, e: Event, leases: Table, onAir: set<nat>) {
    && x'.waiting == x.waiting
    && x'.s == x.s.(ledger := x'.s.ledger, processed := Committed(x.s, e), leases := leases, onAir := onAir)
  }

  /** The handler waits, having changed nothing but the ledger. */
  predicate Waits(x: System, x': System, e: Event, on: Outcome) {
    && x'.waiting == x.waiting + multiset{Waiting(e, on)}
    && x'.s == x.s.(ledger := x'.s.ledger)
  }

  // ---- joins and departures ----

  /** A join is accepted exactly from the unblocked, current holder of the lease; anybody else is removed. */
  lemma JoinEnforced(r: Reader, x: System, e: Event, id: Speaker, blocked: bool, live: bool, now: real)
    requires Concerns(r, x.s, e, id) && e.kind.Joined?
    ensures var (s, x', k) := (x.s, Do(r, x, Delivery(e, blocked, live, now)), id.channel);
            if !blocked && Current(s, id) && Owns(r, s, e, id)
            then Ends(x, x', e, s.leases[k := Lease(s.leases[k].holder, s.leases[k].expires, Some(now))], s.onAir)
            else Waits(x, x', e, Removing)
  {
  }

  /** A departure, or an aborted connection, of the lease's holder releases it and takes the channel off air. */
  lemma DepartureEnforced(r: Reader, x: System, e: Event, id: Speaker, blocked: bool, live: bool, now: real)
    requires Concerns(r, x.s, e, id) && (e.kind.LeftRoom? || e.kind.Aborted?)
    ensures var (s, x', k) := (x.s, Do(r, x, Delivery(e, blocked, live, now)), id.channel);
            if Owns(r, s, e, id) then Ends(x, x', e, s.leases - {k}, s.onAir - {k})
            else Ends(x, x', e, s.leases, s.onAir)
  {
  }

  // ---- tracks ----

  /** The lease holder of an open channel may publish the channel's track, and no other. */
  predicate MayPublish(r: Reader, s: Server, e: Event, id: Speaker) {
    && Current(s, id) && s.chans[id.channel].open && Owns(r, s, e, id)
    && e.track != "" && e.track == r.trackName(id.channel)
  }

  /** A published track goes on to the listing, or its publisher is removed. */
  lemma PublishEnforced(r: Reader, x: System, e: Event, id: Speaker, blocked: bool, live: bool, now: real)
    requires Concerns(r, x.s, e, id) && e.kind.Published?
    ensures Waits(x, Do(r, x, Delivery(e, blocked, live, now)), e,
                  if MayPublish(r, x.s, e, id) then Listing else Removing)
  {
  }

  /** The listing shows one track: the channel is on air and the event is done. It shows more: a removal begins. */
  lemma ListingDecides(r: Reader, x: System, e: Event, id: Speaker, crowded: bool)
    requires r.w.read(e.ident) == Some(id) && Waiting(e, Listing) in x.waiting
    ensures Enabled(x, ListReply(e, crowded))
    ensures var x' := Do(r, x, ListReply(e, crowded));
            if crowded
            then && x'.s == x.s
                 && x'.waiting == x.waiting - multiset{Waiting(e, Listing)} + multiset{Waiting(e, Removing)}
            else && x'.s == x.s.(onAir := x.s.onAir + {id.channel}, processed := Committed(x.s, e))
                 && x'.waiting == x.waiting - multiset{Waiting(e, Listing)}
  {
  }

  /** A removal that worked ends the handler with success, one that failed without; neither changes anything else. */
  lemma RemovalDecides(r: Reader, x: System, e: Event, ok: bool)
    requires Waiting(e, Removing) in x.waiting
    ensures Enabled(x, RemoveReply(e, ok))
    ensures var x' := Do(r, x, RemoveReply(e, ok));
            && x'.waiting == x.waiting - multiset{Waiting(e, Removing)}
            && x'.s == if ok then x.s.(processed := Committed(x.s, e)) else x.s
  {
  }

  /** From delivery to end: the channel goes on air exactly for a rightful publisher of a single track. */
  lemma PublishedToTheEnd(r: Reader, x: System, e: Event, id: Speaker, crowded: bool, ok: bool, live: bool, now: real)
    requires Concerns(r, x.s, e, id) && e.kind.Published?
    ensures var x1 := Do(r, x, Delivery(e, false, live, now));
            if MayPublish(r, x.s, e, id)
            then && Enabled(x1, ListReply(e, crowded))
                 && var x2 := Do(r, x1, ListReply(e, crowded));
                    if !crowded then Ends(x, x2, e, x.s.leases, x.s.onAir + {id.channel})
                    else Waits(x, x2, e, Removing)
            else && Enabled(x1, RemoveReply(e, ok))
                 && var x2 := Do(r, x1, RemoveReply(e, ok));
                    && x2.waiting == x.waiting
                    && x2.s == x.s.(ledger := x2.s.ledger, processed := if ok then Committed(x.s, e) else x.s.processed)
  {
    PublishEnforced(r, x, e, id, false, live, now);
    var x1 := Do(r, x, Delivery(e, false, live, now));
    if MayPublish(r, x.s, e, id) {
      ListingDecides(r, x1, e, id, crowded);
      assert x.waiting + multiset{Waiting(e, Listing)} - multiset{Waiting(e, Listing)} == x.waiting;
    } else {
      RemovalDecides(r, x1, e, ok);
      assert x.waiting + multiset{Waiting(e, Removing)} - multiset{Waiting(e, Removing)} == x.waiting;
    }
  }

  /** An ended track takes the channel off air if it was the lease holder's. */
  lemma UnpublishEnforced(r: Reader, x: System, e: Event, id: Speaker, blocked: bool, live: bool, now: real)
    requires Concerns(r, x.s, e, id) && e.kind.Unpublished?
    ensures Ends(x, Do(r, x, Delivery(e, blocked, live, now)), e, x.s.leases,
                 if Owns(r, x.s, e, id) then x.s.onAir - {id.channel} else x.s.onAir)
  {
  }

  // ---- everybody else ----

  /** An event of another room, of another kind, or about nobody is committed and does nothing else. */
  lemma Ignored(r: Reader, x: System, e: Event, blocked: bool, live: bool, now: real)
    requires e.id == "" || e.id !in x.s.processed
    requires (e.room != "" && e.room != x.s.room) || e.kind.Other? || e.ident == ""
    ensures Ends(x, Do(r, x, Delivery(e, blocked, live, now)), e, x.s.leases, x.s.onAir)
  {
  }

  /** Monitors and intercom participants. */
  predicate Exempt(e: Event) {
    (|e.ident| >= 8 && e.ident[..8] == "monitor-") || (|e.ident| >= 9 && e.ident[..9] == "intercom-")
  }

  predicate Listens(e: Event) {
    |e.ident| >= 9 && e.ident[..9] == "listener-"
  }

  /** Of those who are no speakers the exempt may join, and listeners that are not blocked; others are removed. */
  lemma StrangerJoins(r: Reader, x: System, e: Event, blocked: bool, live: bool, now: real)
    requires (e.room == "" || e.room == x.s.room) && (e.id == "" || e.id !in x.s.processed)
    requires e.ident != "" && r.w.read(e.ident) == None && e.kind.Joined?
    ensures var x' := Do(r, x, Delivery(e, blocked, live, now));
            if Exempt(e) || (Listens(e) && !blocked) then Ends(x, x', e, x.s.leases, x.s.onAir)
            else Waits(x, x', e, Removing)
  {
  }

  /** Nobody but a speaker or somebody exempt may publish; a listener that does is left alone. */
  lemma StrangerPublishes(r: Reader, x: System, e: Event, blocked: bool, live: bool, now: real)
    requires (e.room == "" || e.room == x.s.room) && (e.id == "" || e.id !in x.s.processed)
    requires e.ident != "" && r.w.read(e.ident) == None && e.kind.Published?
    ensures var x' := Do(r, x, Delivery(e, blocked, live, now));
            if Exempt(e) || Listens(e) then Ends(x, x', e, x.s.leases, x.s.onAir)
            else Waits(x, x', e, Removing)
  {
  }

  // ---- the ledger ----

  /** Two events are logged under one id: both have one, and they agree on the first 128 characters. */
  predicate SameSource(a: Event, b: Event) {
    && a.id != "" && b.id != ""
    && (if |a.id| > 128 then a.id[..128] else a.id) == (if |b.id| > 128 then b.id[..128] else b.id)
  }

  /** The events that the log keeps, by room and participant. */
  predicate Kept(r: Reader, e: Event) {
    && e.ident != "" && !(|e.ident| >= 8 && e.ident[..8] == "monitor-")
    && (e.kind.Joined? || e.kind.LeftRoom? || e.kind.Published? || e.kind.Unpublished?)
    && if r.relay(e.room)
       then || r.w.read(e.ident).Some?
            || (|e.ident| >= 9 && e.ident[..9] == "listener-" && (e.kind.Joined? || e.kind.LeftRoom?))
       else r.intercom(e.room) && |e.ident| >= 9 && e.ident[..9] == "intercom-"
  }

  /**
    What a delivery adds to the ledger: the event, if the log keeps its kind and has none under its
    id; and then a departure closes a usage session and a join opens one if a live is under way.
   */
  lemma LedgerGrows(r: Reader, x: System, e: Event, blocked: bool, live: bool, now: real)
    requires e.id == "" || e.id !in x.s.processed
    ensures var (l, l') := (x.s.ledger, Do(r, x, Delivery(e, blocked, live, now)).s.ledger);
            if Kept(r, e) && forall i | 0 <= i < |l.signals| :: !SameSource(l.signals[i], e)
            then && l'.signals == l.signals + [e]
                 && l'.usage == l.usage + if e.kind.LeftRoom? || (e.kind.Joined? && live) then [e] else []
            else l' == l
  {
    var l := x.s.ledger;
    forall i | 0 <= i < |l.signals|
      ensures SameSource(l.signals[i], e) <==> Source(e).Some? && Source(l.signals[i]) == Source(e)
    {
    }
    assert Do(r, x, Delivery(e, blocked, live, now)).s.ledger == Record(r, l, e, live);
  }
}
