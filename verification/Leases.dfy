/** The lease table of the database: one row per channel. */
module Leases {
  import opened Common
  import opened Identity

  const TTL: real := 3600.0
  const GRACE: real := 120.0

  datatype Lease = Lease(holder: Speaker, expires: real, joined: Option<real>)

  type Table = map<nat, Lease>

  /** Whether an existing lease still blocks a new one. */
  predicate Alive(l: Lease, now: real, ttl: real, grace: real) {
    if l.joined.Some? || grace <= 0.0 then l.expires > now
    else now < l.expires - ttl + grace
  }

  function Acquire(t: Table, k: nat, id: Speaker, now: real, ttl: real, grace: real): Option<Table> {
    if k in t && Alive(t[k], now, ttl, grace) then None
    else Some(Force(t, k, id, now, ttl))
  }

  function Force(t: Table, k: nat, id: Speaker, now: real, ttl: real): Table {
    t[k := Lease(id, now + ttl, None)]
  }

  function ReleaseIf(t: Table, k: nat, id: Speaker): Table {
    if k in t && t[k].holder == id then t - {k} else t
  }

  function MarkJoined(t: Table, k: nat, id: Speaker, now: real): Table {
    if k in t && t[k].holder == id then t[k := t[k].(joined := Some(now))] else t
  }

  function Extend(t: Table, k: nat, id: Speaker, now: real, ttl: real): Table {
    if k in t && t[k].holder == id then t[k := t[k].(expires := now + ttl)] else t
  }

  /**
    A lease issued at `t0` blocks others for the join grace only; once its holder has joined, for
    its whole lifetime, counted from the last extension.
   */
  lemma Lifetime(t: Table, k: nat, id: Speaker, t0: real, joined: real, t1: real, now: real)
    ensures var issued := Force(t, k, id, t0, TTL);
            var accepted := MarkJoined(issued, k, id, joined);
            var extended := Extend(accepted, k, id, t1, TTL);
            && (Acquire(issued, k, id, now, TTL, GRACE).None? <==> now < t0 + 120.0)
            && (Acquire(accepted, k, id, now, TTL, GRACE).None? <==> now < t0 + 3600.0)
            && (Acquire(extended, k, id, now, TTL, GRACE).None? <==> now < t1 + 3600.0)
  {
  }

  /** Who is refused, in terms of the row itself, and what everybody else gets. */
  lemma Acquires(t: Table, k: nat, id: Speaker, now: real, ttl: real, grace: real)
    ensures Acquire(t, k, id, now, ttl, grace).None?
       <==> k in t && if t[k].joined.Some? || grace <= 0.0 then now < t[k].expires
                      else now < t[k].expires - ttl + grace
    ensures Acquire(t, k, id, now, ttl, grace).Some? ==>
              Acquire(t, k, id, now, ttl, grace).value == t[k := Lease(id, now + ttl, None)]
    ensures Force(t, k, id, now, ttl) == t[k := Lease(id, now + ttl, None)]
  {
  }

  /** What its own notification and renewal do to a lease. */
  lemma HolderChanges(t: Table, k: nat, id: Speaker, now: real, ttl: real)
    requires k in t && t[k].holder == id
    ensures ReleaseIf(t, k, id) == t - {k}
    ensures MarkJoined(t, k, id, now) == t[k := Lease(id, t[k].expires, Some(now))]
    ensures Extend(t, k, id, now, ttl) == t[k := Lease(id, now + ttl, t[k].joined)]
  {
  }

  /** What a notification about `id` does, it does to a lease that `id` holds, and to no other. */
  lemma OnlyTheHolder(t: Table, k: nat, id: Speaker, now: real, j: nat)
    requires j in t && (j != k || t[j].holder != id)
    ensures j in ReleaseIf(t, k, id) && ReleaseIf(t, k, id)[j] == t[j]
    ensures j in MarkJoined(t, k, id, now) && MarkJoined(t, k, id, now)[j] == t[j]
    ensures j in Extend(t, k, id, now, TTL) && Extend(t, k, id, now, TTL)[j] == t[j]
  {
  }

  /** The stored table; every method is one transaction. */
  class LeaseTable {
    var rows: Table

    constructor ()
      ensures rows == map[]
    {
      rows := map[];
    }

    method AcquireLease(k: nat, id: Speaker, now: real, ttl: real, grace: real) returns (acquired: bool)
      modifies this
      ensures acquired <==> Acquire(old(rows), k, id, now, ttl, grace).Some?
      ensures rows == Acquire(old(rows), k, id, now, ttl, grace).GetOr(old(rows))
    {
      if k in rows && Alive(rows[k], now, ttl, grace) {
        return false;
      }
      rows := rows[k := Lease(id, now + ttl, None)];
      return true;
    }

    method ForceAcquire(k: nat, id: Speaker, now: real, ttl: real)
      modifies this
      ensures rows == Force(old(rows), k, id, now, ttl)
    {
      rows := rows[k := Lease(id, now + ttl, None)];
    }

    method ReleaseIfIdentity(k: nat, id: Speaker) returns (released: bool)
      modifies this
      ensures released <==> k in old(rows) && old(rows)[k].holder == id
      ensures rows == ReleaseIf(old(rows), k, id)
    {
      if k !in rows || rows[k].holder != id {
        return false;
      }
      rows := rows - {k};
      return true;
    }

    method MarkLeaseJoined(k: nat, id: Speaker, now: real)
      modifies this
      ensures rows == MarkJoined(old(rows), k, id, now)
    {
      if k in rows && rows[k].holder == id {
        rows := rows[k := rows[k].(joined := Some(now))];
      }
    }

    method ExtendIfIdentity(k: nat, id: Speaker, now: real, ttl: real) returns (extended: bool)
      modifies this
      ensures extended <==> k in old(rows) && old(rows)[k].holder == id
      ensures rows == Extend(old(rows), k, id, now, ttl)
    {
      if k !in rows || rows[k].holder != id {
        return false;
      }
      rows := rows[k := rows[k].(expires := now + ttl)];
      return true;
    }
  }
}
