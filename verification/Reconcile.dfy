/**
  The reconciliation of leases and room when the server starts: with the room's participants
  listed once, joined leases whose holder is missing are released, then every listed speaker is
  matched with its channel's lease, and the ones without are removed from the room.
 */
module Reconciling {
  import opened Common
  import opened Identity
  import opened Leases
  import Protocol = LeaseProtocol

  datatype Participant = Participant(ident: string, hasTracks: bool)

  predicate IsSpeaker(w: Naming, p: Participant) {
    w.read(p.ident).Some?
  }

  /** The identity of `p` is the one written in the lease of the channel it names. */
  predicate HoldsLease(w: Naming, t: Table, p: Participant) {
    var s := w.read(p.ident);
    s.Some? && s.value.channel in t && w.write(t[s.value.channel].holder) == p.ident
  }

  /** The identities of the speakers among the first `n` listed. */
  function Live(w: Naming, listed: seq<Participant>, n: nat): set<string>
    requires n <= |listed|
  {
    if n == 0 then {}
    else Live(w, listed, n - 1) + if IsSpeaker(w, listed[n - 1]) then {listed[n - 1].ident} else {}
  }

  /** The ones that do not hold their channel's lease. */
  function Orphans(w: Naming, t: Table, listed: seq<Participant>, n: nat): set<string>
    requires n <= |listed|
  {
    if n == 0 then {}
    else
      var p := listed[n - 1];
      Orphans(w, t, listed, n - 1) + if IsSpeaker(w, p) && !HoldsLease(w, t, p) then {p.ident} else {}
  }

  /** The channels of the ones that do and have a track. */
  function Publishing(w: Naming, t: Table, listed: seq<Participant>, n: nat): set<nat>
    requires n <= |listed|
  {
    if n == 0 then {}
    else
      var p := listed[n - 1];
      Publishing(w, t, listed, n - 1)
      + if HoldsLease(w, t, p) && p.hasTracks then {w.read(p.ident).value.channel} else {}
  }

  /** A lease survives if nobody has joined with it yet, or its holder is in the room. */
  predicate Survives(w: Naming, l: Lease, live: set<string>) {
    l.joined.None? || w.write(l.holder) in live
  }

  function Surviving(w: Naming, t: Table, live: set<string>): Table {
    map k | k in t && Survives(w, t[k], live) :: t[k]
  }

  lemma {:induction false} LiveMeans(w: Naming, listed: seq<Participant>, n: nat, ident: string)
    requires n <= |listed|
    ensures ident in Live(w, listed, n)
       <==> exists i | 0 <= i < n :: listed[i].ident == ident && IsSpeaker(w, listed[i])
  {
    if n > 0 {
      LiveMeans(w, listed, n - 1, ident);
    }
  }

  lemma {:induction false} OrphansMeans(w: Naming, t: Table, listed: seq<Participant>, n: nat, ident: string)
    requires n <= |listed|
    ensures ident in Orphans(w, t, listed, n)
       <==> exists i | 0 <= i < n :: listed[i].ident == ident && IsSpeaker(w, listed[i]) && !HoldsLease(w, t, listed[i])
  {
    if n > 0 {
      OrphansMeans(w, t, listed, n - 1, ident);
    }
  }

  lemma {:induction false} PublishingMeans(w: Naming, t: Table, listed: seq<Participant>, n: nat, k: nat)
    requires n <= |listed|
    ensures k in Publishing(w, t, listed, n)
       <==> exists i | 0 <= i < n ::
              HoldsLease(w, t, listed[i]) && listed[i].hasTracks && w.read(listed[i].ident).value.channel == k
  {
    if n > 0 {
      PublishingMeans(w, t, listed, n - 1, k);
    }
  }

  lemma {:induction false} Growing(w: Naming, t: Table, listed: seq<Participant>, m: nat, n: nat)
    requires m <= n <= |listed|
    ensures Orphans(w, t, listed, m) <= Orphans(w, t, listed, n)
    ensures Publishing(w, t, listed, m) <= Publishing(w, t, listed, n)
  {
    if m < n {
      Growing(w, t, listed, m, n - 1);
    }
  }

  class Reconciler {
    const w: Naming
    var leases: Table
    var onAir: set<nat>
    /** Whom the room service was made to remove. */
    ghost var removed: set<string>

    constructor (w: Naming, leases: Table)
      ensures this.w == w && this.leases == leases && onAir == {} && removed == {}
    {
      this.w, this.leases := w, leases;
      onAir, removed := {}, {};
    }

    /** Every row of the channel table is looked at; the database has leases for no others. */
    method ReleaseMissing(channels: seq<nat>, live: set<string>)
      requires forall k | k in leases :: k in channels
      modifies this`leases
      ensures leases == Surviving(w, old(leases), live)
    {
      var n := 0;
      while n < |channels|
        invariant 0 <= n <= |channels|
        invariant leases.Keys <= old(leases).Keys
        invariant forall k | k in leases :: leases[k] == old(leases)[k]
        invariant forall k | k in old(leases) && k !in leases :: !Survives(w, old(leases)[k], live)
        invariant forall i | 0 <= i < n :: channels[i] in leases ==> Survives(w, leases[channels[i]], live)
      {
        var k := channels[n];
        if k in leases && leases[k].joined.Some? && w.write(leases[k].holder) !in live {
          leases := ReleaseIf(leases, k, leases[k].holder);
        }
        n := n + 1;
      }
    }

    /** `fails` tells for whom the room service refuses; the first refusal aborts the start. */
    method MatchSpeakers(listed: seq<Participant>, fails: set<string>) returns (ok: bool)
      requires onAir == {} && removed == {}
      modifies this`onAir, this`removed
      ensures ok <==> Orphans(w, leases, listed, |listed|) !! fails
      ensures ok ==> removed == Orphans(w, leases, listed, |listed|) && onAir == Publishing(w, leases, listed, |listed|)
      ensures removed <= Orphans(w, leases, listed, |listed|) - fails
    {
      var n := 0;
      while n < |listed|
        invariant 0 <= n <= |listed|
        invariant removed == Orphans(w, leases, listed, n) && removed !! fails
        invariant onAir == Publishing(w, leases, listed, n)
      {
        var p := listed[n];
        n := n + 1;
        Growing(w, leases, listed, n, |listed|);
        var s := w.read(p.ident);
        if s.Some? {
          var k := s.value.channel;
          if k in leases && w.write(leases[k].holder) == p.ident {
            if p.hasTracks {
              onAir := onAir + {k};
            }
          } else {
            if p.ident in fails {
              assert p.ident in Orphans(w, leases, listed, n);
              return false;
            }
            removed := removed + {p.ident};
          }
        }
      }
      return true;
    }

    /** The two passes over one listing of the room. */
    method Reconcile(channels: seq<nat>, listed: seq<Participant>, fails: set<string>) returns (ok: bool)
      requires onAir == {} && removed == {}
      requires forall k | k in leases :: k in channels
      modifies this
      ensures leases == Surviving(w, old(leases), Live(w, listed, |listed|))
      ensures ok <==> Orphans(w, leases, listed, |listed|) !! fails
      ensures ok ==> removed == Orphans(w, leases, listed, |listed|) && onAir == Publishing(w, leases, listed, |listed|)
      ensures removed <= Orphans(w, leases, listed, |listed|) - fails
    {
      var live, n := {}, 0;
      while n < |listed|
        invariant 0 <= n <= |listed| && live == Live(w, listed, n)
      {
        if w.read(listed[n].ident).Some? {
          live := live + {listed[n].ident};
        }
        n := n + 1;
      }
      ReleaseMissing(channels, live);
      ok := MatchSpeakers(listed, fails);
    }
  }

  // ---- what that means ----

  /** Listed and not removed. */
  predicate Remains(listed: seq<Participant>, removed: set<string>, i: nat) {
    i < |listed| && listed[i].ident !in removed
  }

  predicate Present(listed: seq<Participant>, removed: set<string>, ident: string) {
    exists i | 0 <= i < |listed| :: listed[i].ident == ident && Remains(listed, removed, i)
  }

  /** Leases are keyed by their holder's channel, and their identities can be read back. */
  predicate Readable(w: Naming, t: Table) {
    forall k | k in t :: t[k].holder.channel == k && w.read(w.write(t[k].holder)) == Some(t[k].holder)
  }

  /** Every speaker left in the room holds its channel's lease; everybody else is left alone. */
  lemma SpeakersHold(w: Naming, t: Table, listed: seq<Participant>, i: nat)
    requires i < |listed|
    ensures Remains(listed, Orphans(w, t, listed, |listed|), i)
       <==> match w.read(listed[i].ident)
            case None => true
            case Some(id) => id.channel in t && w.write(t[id.channel].holder) == listed[i].ident
  {
    OrphansMeans(w, t, listed, |listed|, listed[i].ident);
  }

  /** Joined leases' holders are in the room, and unjoined leases are untouched. */
  lemma JoinedArePresent(w: Naming, before: Table, listed: seq<Participant>, k: nat)
    requires Readable(w, before) && k in before
    ensures var t := Surviving(w, before, Live(w, listed, |listed|));
            var removed := Orphans(w, t, listed, |listed|);
            && (k in t ==> t[k] == before[k])
            && (k in t <==> (before[k].joined.None? || Present(listed, removed, w.write(before[k].holder))))
  {
    var ident := w.write(before[k].holder);
    var t := Surviving(w, before, Live(w, listed, |listed|));
    LiveMeans(w, listed, |listed|, ident);
    OrphansMeans(w, t, listed, |listed|, ident);
    var removed := Orphans(w, t, listed, |listed|);
    if k in t && before[k].joined.Some? {
      var i :| 0 <= i < |listed| && listed[i].ident == ident && IsSpeaker(w, listed[i]);
      assert Remains(listed, removed, i);
    }
    if Present(listed, removed, ident) {
      var i :| 0 <= i < |listed| && listed[i].ident == ident && Remains(listed, removed, i);
      assert IsSpeaker(w, listed[i]);
    }
  }

  /** On air are exactly the channels whose lease holder is in the room with a track. */
  lemma OnAirMeans(w: Naming, t: Table, listed: seq<Participant>, k: nat)
    requires Readable(w, t)
    ensures k in Publishing(w, t, listed, |listed|)
       <==> k in t && exists i | 0 <= i < |listed| :: listed[i].hasTracks && listed[i].ident == w.write(t[k].holder)
  {
    PublishingMeans(w, t, listed, |listed|, k);
  }

  /** Identities of the shape the server issues are readable. */
  lemma IssuedAreReadable(dv: Digits, t: Table)
    requires AsciiDigits(dv)
    requires forall k | k in t ::
               t[k].holder.channel == k && k < 100 && t[k].holder.nonce != [] && AllAlnum(t[k].holder.nonce)
    ensures Readable(Names(dv), t)
  {
    forall k | k in t
      ensures Names(dv).read(Names(dv).write(t[k].holder)) == Some(t[k].holder)
    {
      RoundTrip(dv, t[k].holder);
    }
  }

  /**
    A lease of an older generation, in a room that lists its own generation only: a joined one is
    released at the start, an unjoined one blocks publishing until its join grace is over.
   */
  lemma OlderLeasesGo(w: Naming, before: Table, listed: seq<Participant>, generation: nat, k: nat,
                      id: Speaker, now: real)
    requires Readable(w, before) && k in before && before[k].holder.generation != generation
    requires forall i | 0 <= i < |listed| && IsSpeaker(w, listed[i]) ::
               w.read(listed[i].ident).value.generation == generation
    ensures var t := Surviving(w, before, Live(w, listed, |listed|));
            if before[k].joined.Some? then k !in t
            else Acquire(t, k, id, now, TTL, GRACE).None? <==> now < before[k].expires - TTL + GRACE
  {
    LiveMeans(w, listed, |listed|, w.write(before[k].holder));
  }

  /** The listing shows exactly the speakers in the protocol's room. */
  ghost predicate Shows(w: Naming, listed: seq<Participant>, room: set<Speaker>) {
    && (forall id | id in room :: w.read(w.write(id)) == Some(id))
    && (forall ident :: ident in Live(w, listed, |listed|) <==> exists id | id in room :: w.write(id) == ident)
  }

  /**
    The start-up of the lease protocol is this reconciliation: the same leases survive, and
    whoever is removed is somebody in the room without a lease.
   */
  lemma RefinesRestart(w: Naming, s: Protocol.State, bumped: bool, listed: seq<Participant>)
    requires Readable(w, s.leases) && Shows(w, listed, s.room)
    ensures Surviving(w, s.leases, Live(w, listed, |listed|)) == Protocol.Restarted(s, bumped).leases
    ensures var t := Protocol.Restarted(s, bumped).leases;
            forall id | id in s.room ::
              w.write(id) in Orphans(w, t, listed, |listed|) <==> !Protocol.Holds(Protocol.Restarted(s, bumped), id)
  {
    var live := Live(w, listed, |listed|);
    forall k | k in s.leases
      ensures Survives(w, s.leases[k], live) <==> s.leases[k].joined.None? || s.leases[k].holder in s.room
    {
      var h := s.leases[k].holder;
      if w.write(h) in live {
        var id :| id in s.room && w.write(id) == w.write(h);
        assert w.read(w.write(id)) == Some(id);
      }
    }
    var t := Protocol.Restarted(s, bumped).leases;
    forall id | id in s.room
      ensures w.write(id) in Orphans(w, t, listed, |listed|) <==> !Protocol.Holds(Protocol.Restarted(s, bumped), id)
    {
      OrphansMeans(w, t, listed, |listed|, w.write(id));
      LiveMeans(w, listed, |listed|, w.write(id));
    }
  }
}
