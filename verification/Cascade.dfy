/**
  The routes' loops over the channel table: the cycle check that guards the creation of an AI
  channel, and the cascade that closes what depends on a closed source.
*/
module Cascade {
  import opened Common
  import opened AiGraph

  // ---- the closure that the cascade computes ----

  /** The open AI channels that listen to a member of `sources`. */
  function Dependents(t: Table, sources: set<nat>): set<nat> {
    set c | c in t && OpenAi(t, c) && t[c].source.Some? && t[c].source.value in sources
  }

  lemma {:induction false} FirstEdge(t: Table, c: nat, d: nat, k: nat)
    requires k > 0
    ensures Walk(t, c, k) == match Next(t, c) case None => None case Some(e) => Walk(t, e, k - 1)
  {
    assert Walk(t, c, 1) == Next(t, c) by {
      assert Walk(t, c, 0) == Some(c);
    }
    WalkSplit(t, c, 1, k - 1);
  }

  /** A set that absorbs the dependents of `s` and of its own members contains all that depend on `s`. */
  lemma {:induction false} ClosedUnderDependents(t: Table, s: nat, done: set<nat>, c: nat, k: nat)
    requires k > 0 && Walk(t, c, k) == Some(s)
    requires Dependents(t, done + {s}) <= done
    ensures c in done
    decreases k
  {
    FirstEdge(t, c, s, k);
    var e := Next(t, c).value;
    if k > 1 {
      ClosedUnderDependents(t, s, done, e, k - 1);
    } else {
      assert Walk(t, e, 0) == Some(e);
    }
    assert c in Dependents(t, done + {s});
  }

  /** What listens to `s` or to a channel that depends on `s` depends on `s`. */
  lemma DependentDepends(t: Table, s: nat, d: nat, c: nat)
    requires Next(t, c) == Some(d) && (d == s || DependsOn(t, d, s))
    ensures DependsOn(t, c, s)
  {
    if d == s {
      FirstEdge(t, c, s, 1);
      assert Walk(t, d, 0) == Some(s);
      assert Walk(t, c, 1) == Some(s);
    } else {
      var k: nat :| k > 0 && Walk(t, d, k) == Some(s);
      FirstEdge(t, c, s, k + 1);
      assert Walk(t, c, k + 1) == Some(s);
    }
  }

  /** The set `done` is exactly what depends on `s`. */
  ghost predicate IsClosure(t: Table, s: nat, done: set<nat>) {
    forall c: nat :: c in done <==> DependsOn(t, c, s)
  }

  lemma ClosureByFixpoint(t: Table, s: nat, done: set<nat>)
    requires forall c | c in done :: DependsOn(t, c, s)
    requires Dependents(t, done + {s}) <= done
    ensures IsClosure(t, s, done)
  {
    forall c: nat | DependsOn(t, c, s)
      ensures c in done
    {
      var k: nat :| k > 0 && Walk(t, c, k) == Some(s);
      ClosedUnderDependents(t, s, done, c, k);
    }
  }

  /** After closing the closure no open AI channel listens to the source or to a closed member. */
  lemma NoOrphans(t: Table, s: nat, done: set<nat>)
    requires IsClosure(t, s, done)
    ensures Dependents(CloseSet(t, done), done + {s}) == {}
  {
    forall c | c in Dependents(CloseSet(t, done), done + {s})
      ensures false
    {
      DependentDepends(t, s, t[c].source.value, c);
    }
  }

  /** The channel rows, and the channels that hold a lease. */
  datatype World = World(table: Table, leases: set<nat>)

  /** What the other coroutines make of both while this one waits; the number counts the waits. */
  type Interference = (nat, World) -> World

  ghost predicate Within(env: Interference, slots: set<nat>) {
    forall k: nat, w: World :: env(k, w).table.Keys <= slots
  }

  ghost predicate NoInterference(env: Interference) {
    forall k: nat, w: World :: env(k, w) == w
  }

  /** One closing: its level and that level's frontier, the channel, and the table seen under its lock. */
  datatype Closing = Closing(level: nat, frontier: set<nat>, channel: nat, table: Table)

  datatype Log = Empty | Then(before: Log, last: Closing)

  function ClosedIn(log: Log): set<nat> {
    match log
    case Empty => {}
    case Then(before, last) => ClosedIn(before) + {last.channel}
  }

  function Names(log: Log): seq<nat> {
    match log
    case Empty => []
    case Then(before, last) => Names(before) + [last.channel]
  }

  /** What was closed in the latest level. */
  function LatestLevel(log: Log): set<nat> {
    match log
    case Empty => {}
    case Then(before, last) =>
      (if before.Then? && before.last.level == last.level then LatestLevel(before) else {}) + {last.channel}
  }

  /** A level with this frontier can follow: the first has the source, every other what the one before closed. */
  predicate Starts(log: Log, s: nat, level: nat, frontier: set<nat>) {
    if log.Empty? then level == 0 && frontier == {s}
    else level == log.last.level + 1 && frontier == LatestLevel(log)
  }

  /**
    Each closed channel is new and was, under its lock, an open AI channel listening to a member
    of its level's frontier: the source, or what the level before has closed.
   */
  predicate Justified(log: Log, s: nat) {
    match log
    case Empty => true
    case Then(before, last) =>
      && Justified(before, s)
      && last.channel !in ClosedIn(before)
      && last.channel in Dependents(last.table, last.frontier)
      && (Starts(before, s, last.level, last.frontier)
          || (before.Then? && last.level == before.last.level && last.frontier == before.last.frontier))
  }

  lemma MinusUnion(a: set<nat>, s: set<nat>, n: set<nat>)
    ensures a - s - n == a - (s + n)
    ensures a + s + n == a + (s + n)
  {
  }

  /** The closings of a single level. */
  predicate OneLevel(mine: Log, level: nat, frontier: set<nat>) {
    match mine
    case Empty => true
    case Then(before, last) =>
      && OneLevel(before, level, frontier)
      && last.level == level && last.frontier == frontier
      && last.channel !in ClosedIn(before)
      && last.channel in Dependents(last.table, frontier)
  }

  lemma LevelLogs(mine: Log, level: nat, frontier: set<nat>, c: nat, t: Table)
    requires OneLevel(mine, level, frontier) && c !in ClosedIn(mine) && c in Dependents(t, frontier)
    ensures var mine' := Then(mine, Closing(level, frontier, c, t));
            && OneLevel(mine', level, frontier)
            && ClosedIn(mine') == ClosedIn(mine) + {c} && Names(mine') == Names(mine) + [c]
  {
  }

  function Concat(log: Log, mine: Log): Log {
    match mine
    case Empty => log
    case Then(before, last) => Then(Concat(log, before), last)
  }

  /** The next level's closings, put behind the log. */
  lemma {:induction false} ConcatLevel(log: Log, mine: Log, s: nat, level: nat, frontier: set<nat>)
    requires Justified(log, s) && Starts(log, s, level, frontier)
    requires OneLevel(mine, level, frontier) && ClosedIn(mine) !! ClosedIn(log)
    ensures var all := Concat(log, mine);
            && Justified(all, s)
            && Names(all) == Names(log) + Names(mine) && ClosedIn(all) == ClosedIn(log) + ClosedIn(mine)
            && (mine.Then? ==> all.Then? && all.last == mine.last && LatestLevel(all) == ClosedIn(mine))
  {
    match mine
    case Empty =>
    case Then(before, last) =>
      ConcatLevel(log, before, s, level, frontier);
      assert before.Empty? && log.Then? ==> log.last.level != level;
  }

  lemma OneMore(sources: set<nat>, s: nat, seen0: set<nat>, seen: set<nat>, next: set<nat>, left: set<nat>, c: nat)
    requires seen == seen0 + next && next !! seen0 && left !! seen && c in left && sources <= seen0 + {s}
    ensures seen + {c} == seen0 + (next + {c}) && next + {c} !! seen0
    ensures left - {c} !! seen + {c} && left - {c} !! seen
    ensures sources <= seen + {s} && c !in seen && c !in next
  {
  }

  /** The smallest element, since the source visits candidates in ascending order. */
  method Least(s: set<nat>) returns (m: nat)
    requires s != {}
    ensures m in s && forall x | x in s :: m <= x
  {
    m :| m in s;
    var rest := s - {m};
    while rest != {}
      invariant rest <= s && m in s && forall x | x in s :: x in rest || m <= x
      decreases |rest|
    {
      var x :| x in rest;
      if x < m {
        m := x;
      }
      rest := rest - {x};
    }
  }

  class Channels {
    var table: Table
    /** Channels that hold a lease. */
    var leases: set<nat>

    method CreateChannel(c: nat, ai: bool, source: Option<nat>) returns (created: bool)
      modifies this`table
      ensures created <==> !IsOpen(old(table), c)
      ensures table == if created then Create(old(table), c, ai, source) else old(table)
      ensures created ==>
                table == old(table)[c := Channel(true, if c in old(table) then old(table)[c].epoch else 1, ai, source)]
    {
      if c in table && table[c].open {
        return false;
      }
      table := table[c := Channel(true, if c in table then table[c].epoch else 1, ai, source)];
      created := true;
    }

    method CloseChannel(c: nat)
      modifies this`table, this`leases
      ensures table == Close(old(table), c) && leases == old(leases) - {c}
      ensures c in old(table) ==>
                var row := old(table)[c]; table == old(table)[c := Channel(false, row.epoch, row.ai, row.source)]
    {
      if c in table {
        table := table[c := table[c].(open := false)];
      }
      leases := leases - {c};
    }

    method LowestFreeSlot(max: nat) returns (slot: Option<nat>)
      ensures slot.Some? ==> 1 <= slot.value <= max && !IsOpen(table, slot.value)
      ensures slot.Some? ==> forall c | 1 <= c < slot.value :: IsOpen(table, c)
      ensures slot.None? ==> forall c | 1 <= c <= max :: IsOpen(table, c)
    {
      var c := 1;
      while c <= max
        invariant 1 <= c <= max + 1 && forall d | 1 <= d < c :: IsOpen(table, d)
      {
        if !(c in table && table[c].open) {
          return Some(c);
        }
        c := c + 1;
      }
      slot := None;
    }

    /**
      The cycle check: answers no exactly when the chain from `source`, which the floor ends
      whatever it is, comes to its end without meeting `out`.
     */
    method AiSourceCycle(out: nat, source: nat) returns (cycle: bool)
      ensures cycle <==> Refused(table, source, out)
    {
      ghost var t := Grounded(table);
      var cur: Option<nat> := Some(source);
      var seen: set<nat> := {};
      ghost var k: nat := 0;
      while cur != None && cur != Some(FLOOR)
        invariant cur == Walk(t, source, k) && seen == Visited(t, source, k)
        invariant Clear(table, source, out, k)
        invariant seen <= t.Keys
        decreases |t.Keys - seen|
      {
        var c := cur.value;
        if c == out {
          MetFirst(table, source, out, k);
          return true;
        }
        if c in seen {
          Looping(table, source, out, k);
          return true;
        }
        if !(c in table && table[c].open && table[c].ai) {
          ChainEnds(table, source, out, k);
          return false;
        }
        Smaller(t.Keys - (seen + {c}), t.Keys - seen, c);
        OneFurther(table, source, out, k);
        seen := seen + {c};
        cur := table[c].source;
        k := k + 1;
      }
      ChainEnds(table, source, out, k);
      return false;
    }

    /**
      The guards of an AI creation and its insert, with nothing in between: it succeeds exactly if
      the slot is free, the source is another channel, the floor or an open one, and does not lead
      to the slot.
     */
    method CreateAiChannel(c: nat, source: nat) returns (created: bool)
      requires FloorHuman(table) && Acyclic(table) && c != FLOOR
      modifies this`table
      ensures created
         <==> && !IsOpen(old(table), c) && source != c && (source == FLOOR || IsOpen(old(table), source))
              && !Reaches(old(table), source, c)
      ensures table
           == if created
              then old(table)[c := Channel(true, if c in old(table) then old(table)[c].epoch else 1,
                                           true, Some(source))]
              else old(table)
      ensures FloorHuman(table) && Acyclic(table)
    {
      if source == c || (source != FLOOR && !(source in table && table[source].open)) {
        return false;
      }
      RefusedMeans(table, source, c);
      var cycle := AiSourceCycle(c, source);
      if cycle {
        return false;
      }
      if !IsOpen(table, c) {
        InsertKeepsAcyclic(table, c, source);
      }
      created := CreateChannel(c, true, Some(source));
    }

    function Now(): World
      reads this
    {
      World(table, leases)
    }

    /** A wait, during which other coroutines run. */
    method Wait(env: Interference, tick: nat)
      modifies this
      ensures Now() == env(tick, old(Now()))
    {
      var w := env(tick, Now());
      table, leases := w.table, w.leases;
    }

    /**
      Closes what listens to `source`, level by level. `env` is what happens to table and leases
      during each wait; a closing is logged with the table seen under the channel's lock.
     */
    method CloseDependents(source: nat, env: Interference, ghost slots: set<nat>)
      returns (closed: seq<nat>, ghost log: Log)
      requires table.Keys <= slots && Within(env, slots)
      modifies this
      ensures closed == Names(log) && Justified(log, source)
      ensures NoInterference(env) ==>
                && IsClosure(old(table), source, ClosedIn(log))
                && table == CloseSet(old(table), ClosedIn(log))
                && Dependents(table, ClosedIn(log) + {source}) == {}
      ensures NoInterference(env) ==> leases == old(leases) - ClosedIn(log)
    {
      ghost var calm := NoInterference(env);
      closed, log := [], Empty;
      var seen: set<nat> := {};
      var frontier := {source};
      var tick := 0;
      ghost var level := 0;
      assert CloseSet(table, {}) == table;
      while frontier != {}
        invariant table.Keys <= slots && seen <= slots && frontier <= seen + {source}
        invariant closed == Names(log) && Justified(log, source) && seen == ClosedIn(log)
        invariant frontier != {} ==> Starts(log, source, level, frontier)
        invariant calm ==> leases == old(leases) - seen
        invariant calm ==> LevelDone(old(table), table, source, seen, frontier)
        decreases |slots - seen| + if frontier == {} then 0 else 1
      {
        ghost var before, sources := seen, frontier;
        var names: seq<nat>;
        ghost var mine: Log;
        frontier, names, tick, mine := CloseLevel(frontier, seen, env, tick, source, slots, level, old(table), calm);
        ConcatLevel(log, mine, source, level, sources);
        seen, closed, log, level := seen + frontier, closed + names, Concat(log, mine), level + 1;
        MinusUnion(old(leases), before, frontier);
        SubsetSize(slots - seen, slots - before);
        if frontier != {} {
          ghost var d :| d in frontier;
          Smaller(slots - seen, slots - before, d);
        }
      }
      if calm {
        ClosureByFixpoint(old(table), source, seen);
        NoOrphans(old(table), source, seen);
      }
    }

    /** Under the channel's lock: closes `cid` if it still is an open AI channel of this level. */
    method CloseIfDependent(cid: nat, frontier: set<nat>, env: Interference, tick: nat, ghost slots: set<nat>,
                            ghost calm: bool)
      returns (done: bool, ghost snapshot: Table)
      requires table.Keys <= slots && Within(env, slots) && (calm ==> NoInterference(env))
      modifies this
      ensures table.Keys <= slots
      ensures done <==> cid in Dependents(snapshot, frontier)
      ensures done ==> cid in slots && !IsOpen(table, cid) && cid !in leases
      ensures calm ==>
                snapshot == old(table) && table == if done then Close(old(table), cid) else old(table)
      ensures calm ==> leases == if done then old(leases) - {cid} else old(leases)
    {
      Wait(env, tick);
      snapshot := table;
      done := cid in table && table[cid].open && table[cid].ai
              && table[cid].source.Some? && table[cid].source.value in frontier;
      if done {
        Wait(env, tick + 1);
        CloseChannel(cid);
      }
    }

    /** The same, with the closing logged. */
    method Visit(cid: nat, frontier: set<nat>, env: Interference, tick: nat, ghost slots: set<nat>,
                 ghost calm: bool, ghost level: nat, ghost log: Log)
      returns (done: bool, ghost mine: Log)
      requires table.Keys <= slots && Within(env, slots) && (calm ==> NoInterference(env))
      requires OneLevel(log, level, frontier) && cid !in ClosedIn(log)
      modifies this
      ensures table.Keys <= slots && OneLevel(mine, level, frontier) && (done ==> cid in slots)
      ensures ClosedIn(mine) == if done then ClosedIn(log) + {cid} else ClosedIn(log)
      ensures Names(mine) == if done then Names(log) + [cid] else Names(log)
      ensures calm ==> (done <==> cid in Dependents(old(table), frontier))
      ensures calm ==> table == if done then Close(old(table), cid) else old(table)
      ensures calm ==> leases == if done then old(leases) - {cid} else old(leases)
    {
      ghost var snapshot;
      done, snapshot := CloseIfDependent(cid, frontier, env, tick, slots, calm);
      mine := log;
      if done {
        LevelLogs(log, level, frontier, cid, snapshot);
        mine := Then(log, Closing(level, frontier, cid, snapshot));
      }
    }

    /** One level: visits the candidates in ascending order, each under its own lock. */
    method CloseLevel(frontier: set<nat>, seen0: set<nat>, env: Interference, tick0: nat, ghost source: nat,
                      ghost slots: set<nat>, ghost level: nat, ghost t0: Table, ghost calm: bool)
      returns (next: set<nat>, closed: seq<nat>, tick: nat, ghost mine: Log)
      requires calm ==> NoInterference(env)
      requires table.Keys <= slots && Within(env, slots) && seen0 <= slots && frontier <= seen0 + {source}
      requires calm ==> LevelDone(t0, table, source, seen0, frontier)
      modifies this
      ensures table.Keys <= slots && next <= slots && next !! seen0
      ensures OneLevel(mine, level, frontier) && next == ClosedIn(mine) && closed == Names(mine)
      ensures calm ==> leases == old(leases) - next
      ensures calm ==> LevelDone(t0, table, source, seen0 + next, next)
    {
      next, closed, tick, mine := {}, [], tick0, Empty;
      var seen := seen0;
      var candidates := Dependents(table, frontier) - seen;
      if calm {
        LevelStart(t0, table, source, seen0, frontier);
      }
      while candidates != {}
        invariant table.Keys <= slots && next <= slots
        invariant seen == seen0 + next && next !! seen0 && candidates !! seen
        invariant OneLevel(mine, level, frontier) && next == ClosedIn(mine) && closed == Names(mine)
        invariant calm ==> leases == old(leases) - next
        invariant calm ==>
                    LevelRunning(t0, table, source, seen0, frontier, seen, candidates)
        decreases |candidates|
      {
        var cid := Least(candidates);
        if calm {
          LevelStep(t0, table, source, seen0, frontier, seen, candidates, cid);
        }
        OneMore(frontier, source, seen0, seen, next, candidates, cid);
        candidates := candidates - {cid};
        ghost var before := table;
        var done;
        done, mine := Visit(cid, frontier, env, tick, slots, calm, level, mine);
        tick := tick + 2;
        if done {
          MinusUnion(old(leases), next, {cid});
          closed, seen, next := closed + [cid], seen + {cid}, next + {cid};
        }
        assert calm ==> done && table == Close(before, cid);
      }
      if calm {
        LevelEnd(t0, table, source, seen0, frontier, seen, next);
      }
    }
  }

  // ---- why the cycle check is right ----

  /** The table as the check sees it: the floor ends every chain. */
  function Grounded(t: Table): Table {
    t - {FLOOR}
  }

  ghost predicate Endless(t: Table, src: nat) {
    forall k: nat :: Walk(t, src, k).Some?
  }

  /** The chain does not come to an end, or meets `out` before. */
  ghost predicate Refused(t: Table, src: nat, out: nat) {
    if out == FLOOR then Endless(Grounded(t), src) else !Harmless(Grounded(t), src, out)
  }

  /** The first `k` places of the chain exist and are not `out`. */
  predicate Clear(t: Table, src: nat, out: nat, k: nat) {
    forall j: nat | j < k :: Walk(Grounded(t), src, j).Some? && Walk(Grounded(t), src, j) != Some(out)
  }

  lemma OneFurther(t: Table, src: nat, out: nat, k: nat)
    requires Clear(t, src, out, k) && Walk(Grounded(t), src, k).Some?
    requires var c := Walk(Grounded(t), src, k).value; c != out && c != FLOOR && OpenAi(t, c)
    ensures var c := Walk(Grounded(t), src, k).value;
            && Walk(Grounded(t), src, k + 1) == t[c].source
            && Visited(Grounded(t), src, k + 1) == Visited(Grounded(t), src, k) + {c}
            && Clear(t, src, out, k + 1)
  {
  }

  lemma ChainEnds(t: Table, src: nat, out: nat, k: nat)
    requires Clear(t, src, out, k)
    requires var c := Walk(Grounded(t), src, k);
             (c.Some? ==> Next(Grounded(t), c.value).None?) && (c == Some(out) ==> out == FLOOR)
    ensures !Refused(t, src, out)
  {
    assert Walk(Grounded(t), src, k + 1).None?;
    if out != FLOOR {
      assert EndsWithout(Grounded(t), src, out, k + 1);
    }
  }

  lemma MetFirst(t: Table, src: nat, out: nat, k: nat)
    requires Walk(Grounded(t), src, k) == Some(out) && out != FLOOR
    ensures Refused(t, src, out)
  {
    forall m: nat
      ensures !EndsWithout(Grounded(t), src, out, m)
    {
      if m <= k {
        WalkAlive(Grounded(t), src, m, k);
      }
    }
  }

  lemma Looping(t: Table, src: nat, out: nat, k: nat)
    requires var w := Walk(Grounded(t), src, k); w.Some? && w.value in Visited(Grounded(t), src, k)
    ensures Refused(t, src, out)
  {
    var g := Grounded(t);
    var j := VisitedAt(g, src, k, Walk(g, src, k).value);
    forall m: nat
      ensures !EndsWithout(g, src, out, m) && Walk(g, src, m).Some?
    {
      var i := RepeatNeverEnds(g, src, j, k, m);
    }
  }

  lemma {:induction false} SameWalk(t: Table, c: nat, k: nat)
    requires FloorHuman(t)
    ensures Walk(Grounded(t), c, k) == Walk(t, c, k)
  {
    if k > 0 {
      SameWalk(t, c, k - 1);
    }
  }

  /**
    What the check means for a slot: with a human floor it refuses exactly if the chain does not
    end clear of the slot, and on an acyclic table exactly if the chain meets the slot.
   */
  lemma RefusedMeans(t: Table, src: nat, out: nat)
    requires FloorHuman(t) && out != FLOOR
    ensures Refused(t, src, out) <==> !Harmless(t, src, out)
    ensures Acyclic(t) ==> (Refused(t, src, out) <==> Reaches(t, src, out))
  {
    forall k: nat
      ensures EndsWithout(Grounded(t), src, out, k) <==> EndsWithout(t, src, out, k)
    {
      forall j: nat
        ensures Walk(Grounded(t), src, j) == Walk(t, src, j)
      {
        SameWalk(t, src, j);
      }
    }
    if Acyclic(t) {
      HarmlessMeansUnreachable(t, src, out);
    }
  }

  // ---- why the cascade is right when nothing interferes ----

  /** Between levels: `seen` is closed, and only the frontier can have open dependents left. */
  ghost predicate LevelDone(t0: Table, t: Table, s: nat, seen: set<nat>, frontier: set<nat>) {
    && t == CloseSet(t0, seen)
    && (forall c | c in seen :: DependsOn(t0, c, s))
    && Dependents(t0, (seen + {s}) - frontier) <= seen
  }

  /** Within a level: `seen` is closed so far and `left` is what the level still has to visit. */
  ghost predicate LevelRunning(t0: Table, t: Table, s: nat, seen0: set<nat>, frontier: set<nat>,
                               seen: set<nat>, left: set<nat>) {
    && t == CloseSet(t0, seen)
    && (forall c | c in seen :: DependsOn(t0, c, s))
    && seen0 <= seen
    && Dependents(t0, (seen0 + {s}) - frontier) <= seen0
    && left <= Dependents(t0, frontier) <= seen + left
  }

  lemma LevelStart(t0: Table, t: Table, s: nat, seen0: set<nat>, frontier: set<nat>)
    requires LevelDone(t0, t, s, seen0, frontier)
    ensures LevelRunning(t0, t, s, seen0, frontier, seen0, Dependents(t, frontier) - seen0)
  {
    assert Dependents(t, frontier) == Dependents(t0, frontier) - seen0;
  }

  /** Nothing interferes, so the candidate still passes the check and its closing is logged. */
  lemma LevelStep(t0: Table, t: Table, s: nat, seen0: set<nat>, frontier: set<nat>, seen: set<nat>,
                  left: set<nat>, c: nat)
    requires LevelRunning(t0, t, s, seen0, frontier, seen, left)
    requires frontier <= seen0 + {s} && c in left && c !in seen
    ensures c in Dependents(t, frontier)
    ensures LevelRunning(t0, Close(t, c), s, seen0, frontier, seen + {c}, left - {c})
  {
    assert c in Dependents(t0, frontier);
    DependentDepends(t0, s, t0[c].source.value, c);
    assert Close(t, c) == CloseSet(t0, seen + {c});
  }

  lemma LevelEnd(t0: Table, t: Table, s: nat, seen0: set<nat>, frontier: set<nat>, seen: set<nat>,
                 next: set<nat>)
    requires LevelRunning(t0, t, s, seen0, frontier, seen, {})
    requires frontier <= seen0 + {s} && seen == seen0 + next
    ensures LevelDone(t0, t, s, seen, next)
  {
    forall c | c in Dependents(t0, (seen + {s}) - next)
      ensures c in seen
    {
      if t0[c].source.value in frontier {
        assert c in Dependents(t0, frontier);
      } else {
        assert c in Dependents(t0, (seen0 + {s}) - frontier);
      }
    }
  }
}
