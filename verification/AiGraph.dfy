/**
  The channel table and the dependency graph of its AI channels.

  An open AI channel listens to one source channel. Slots are reused: a closed slot keeps its
  dependents until they are closed too, and may be opened again meanwhile.
*/
module AiGraph {
  import opened Common

  const FLOOR: nat := 0

  /** `source` is the channel an AI channel listens to. */
  datatype Channel = Channel(open: bool, epoch: nat, ai: bool, source: Option<nat>)

  type Table = map<nat, Channel>

  predicate IsOpen(t: Table, c: nat) {
    c in t && t[c].open
  }

  predicate OpenAi(t: Table, c: nat) {
    IsOpen(t, c) && t[c].ai
  }

  /** The edge of the graph: an open AI channel leads to its source. */
  function Next(t: Table, c: nat): Option<nat> {
    if OpenAi(t, c) then t[c].source else None
  }

  /** Where `k` edges lead from `c`. */
  function Walk(t: Table, c: nat, k: nat): Option<nat> {
    if k == 0 then Some(c)
    else match Walk(t, c, k - 1)
         case None => None
         case Some(d) => Next(t, d)
  }

  ghost predicate Reaches(t: Table, c: nat, d: nat) {
    exists k: nat :: Walk(t, c, k) == Some(d)
  }

  /** `c` listens to `d`, directly or through other open AI channels. */
  ghost predicate DependsOn(t: Table, c: nat, d: nat) {
    exists k: nat | k > 0 :: Walk(t, c, k) == Some(d)
  }

  ghost predicate Acyclic(t: Table) {
    forall c: nat :: !DependsOn(t, c, c)
  }

  /** AI channels never occupy the floor. */
  predicate FloorHuman(t: Table) {
    !OpenAi(t, FLOOR)
  }

  // ---- walks ----

  lemma {:induction false} WalkSplit(t: Table, c: nat, a: nat, b: nat)
    ensures Walk(t, c, a + b)
         == match Walk(t, c, a) case None => None case Some(d) => Walk(t, d, b)
  {
    if b > 0 {
      WalkSplit(t, c, a, b - 1);
      assert a + b - 1 == a + (b - 1);
    }
  }

  /** A walk that has ended stays ended, so before a living position every position is alive. */
  lemma {:induction false} WalkAlive(t: Table, c: nat, j: nat, k: nat)
    requires j <= k && Walk(t, c, k).Some?
    ensures Walk(t, c, j).Some?
    decreases k
  {
    if j < k {
      WalkAlive(t, c, j, k - 1);
    }
  }

  /** Two tables agree on a walk that never leaves from `x`, the only place where they differ. */
  lemma {:induction false} WalkAvoids(t: Table, t': Table, x: nat, c: nat, k: nat)
    requires forall d: nat | d != x :: Next(t', d) == Next(t, d)
    requires forall j: nat | j < k :: Walk(t', c, j) != Some(x)
    ensures Walk(t, c, k) == Walk(t', c, k)
  {
    if k > 0 {
      WalkAvoids(t, t', x, c, k - 1);
    }
  }

  /** Removing edges only cuts walks short. */
  lemma {:induction false} WalkShrinks(t: Table, t': Table, c: nat, k: nat)
    requires FewerEdges(t, t') && Walk(t', c, k).Some?
    ensures Walk(t, c, k) == Walk(t', c, k)
  {
    if k > 0 {
      WalkShrinks(t, t', c, k - 1);
    }
  }

  ghost predicate FewerEdges(t: Table, t': Table) {
    forall d: nat :: Next(t', d).None? || Next(t', d) == Next(t, d)
  }

  lemma FewerEdgesKeep(t: Table, t': Table)
    requires FewerEdges(t, t')
    ensures Acyclic(t) ==> Acyclic(t')
    ensures forall c, d :: Reaches(t', c, d) ==> Reaches(t, c, d)
  {
    forall c: nat, d: nat | Reaches(t', c, d)
      ensures Reaches(t, c, d)
    {
      var k: nat :| Walk(t', c, k) == Some(d);
      WalkShrinks(t, t', c, k);
    }
    forall c: nat | DependsOn(t', c, c)
      ensures DependsOn(t, c, c)
    {
      var k: nat :| k > 0 && Walk(t', c, k) == Some(c);
      WalkShrinks(t, t', c, k);
    }
  }

  // ---- the cycle check ----

  /** The chain from `src` comes to an end without meeting `out`. */
  ghost predicate EndsWithout(t: Table, src: nat, out: nat, k: nat) {
    Walk(t, src, k).None? && forall j: nat | j < k :: Walk(t, src, j) != Some(out)
  }

  ghost predicate Harmless(t: Table, src: nat, out: nat) {
    exists k: nat :: EndsWithout(t, src, out, k)
  }

  /** A walk that meets a place again never ends. */
  lemma {:induction false} RepeatNeverEnds(t: Table, c: nat, j: nat, k: nat, m: nat) returns (i: nat)
    requires j < k && Walk(t, c, k).Some? && Walk(t, c, j) == Walk(t, c, k)
    ensures i < k && Walk(t, c, m) == Walk(t, c, i) && Walk(t, c, i).Some?
    decreases m
  {
    if m < k {
      WalkAlive(t, c, m, k);
      i := m;
    } else if m == k {
      i := j;
    } else {
      i := RepeatNeverEnds(t, c, j, k, m - 1);
      WalkAlive(t, c, i + 1, k);
      if i + 1 == k {
        i := j;
      } else {
        i := i + 1;
      }
    }
  }

  /** The places met in the first `k` positions of a walk. */
  function Visited(t: Table, c: nat, k: nat): set<nat> {
    if k == 0 then {}
    else Visited(t, c, k - 1) + match Walk(t, c, k - 1) case None => {} case Some(d) => {d}
  }

  lemma {:induction false} VisitedAt(t: Table, c: nat, k: nat, d: nat) returns (j: nat)
    requires d in Visited(t, c, k)
    ensures j < k && Walk(t, c, j) == Some(d)
  {
    if Walk(t, c, k - 1) == Some(d) {
      j := k - 1;
    } else {
      j := VisitedAt(t, c, k - 1, d);
    }
  }

  /** In an acyclic graph every chain ends. */
  lemma {:induction false} AcyclicEnds(t: Table, c: nat, k: nat) returns (end: nat)
    requires Acyclic(t)
    ensures Walk(t, c, end).None?
    decreases |t.Keys - Visited(t, c, k)|
  {
    match Walk(t, c, k)
    case None => end := k;
    case Some(d) =>
      if d !in t.Keys {
        end := k + 1;
      } else {
        if d in Visited(t, c, k) {
          var j := VisitedAt(t, c, k, d);
          WalkSplit(t, c, j, k - j);
          assert DependsOn(t, d, d);
        }
        Smaller(t.Keys - Visited(t, c, k + 1), t.Keys - Visited(t, c, k), d);
        end := AcyclicEnds(t, c, k + 1);
      }
  }

  /** On an acyclic graph the check answers exactly whether the chain meets the new slot. */
  lemma HarmlessMeansUnreachable(t: Table, src: nat, out: nat)
    requires Acyclic(t)
    ensures Harmless(t, src, out) <==> !Reaches(t, src, out)
  {
    if !Reaches(t, src, out) {
      var k := AcyclicEnds(t, src, 0);
      assert EndsWithout(t, src, out, k);
    }
    if Harmless(t, src, out) && Reaches(t, src, out) {
      var k: nat :| EndsWithout(t, src, out, k);
      var j: nat :| Walk(t, src, j) == Some(out);
      if k <= j {
        WalkAlive(t, src, k, j);
      }
      assert false;
    }
  }

  // ---- table operations ----

  function Create(t: Table, c: nat, ai: bool, source: Option<nat>): Table {
    t[c := Channel(true, if c in t then t[c].epoch else 1, ai, source)]
  }

  function Close(t: Table, c: nat): Table {
    if c in t then t[c := t[c].(open := false)] else t
  }

  function CloseSet(t: Table, cs: set<nat>): (t': Table)
    ensures t'.Keys == t.Keys
  {
    map c | c in t :: if c in cs then t[c].(open := false) else t[c]
  }

  // ---- every reachable table is acyclic ----

  /** The AI creation route between its cycle check and its insert. */
  datatype Route = Idle | Checked(slot: nat, source: nat)

  datatype State = State(table: Table, route: Route)

  /** The steps that touch the table; any of them may happen while a creation waits for the room. */
  datatype Step =
    | HumanCreate(slot: nat)
    | CloseChannel(slot: nat)
    | CloseAllAi
    | BumpEpoch(slot: nat)
    | CheckAi(slot: nat, source: nat)
    | InsertAi
    | AbandonAi

  /**
    The guards of the creation route under its locks. The slot was free when it was chosen, but
    may have been taken since.
   */
  ghost predicate MayCreate(t: Table, slot: nat, source: nat) {
    && slot != FLOOR && source != slot
    && (source != FLOOR ==> IsOpen(t, source))
    && Harmless(t, source, slot)
  }

  ghost function Do(s: State, step: Step): State {
    match step
    case HumanCreate(c) =>
      if IsOpen(s.table, c) then s else s.(table := Create(s.table, c, false, None))
    case CloseChannel(c) => s.(table := Close(s.table, c))
    case CloseAllAi => s.(table := CloseSet(s.table, set c | c in s.table && OpenAi(s.table, c)))
    case BumpEpoch(c) =>
      if c in s.table then s.(table := s.table[c := s.table[c].(epoch := s.table[c].epoch + 1)]) else s
    case CheckAi(c, source) =>
      if s.route.Idle? && MayCreate(s.table, c, source) then s.(route := Checked(c, source)) else s
    case InsertAi =>
      if s.route.Idle? then s
      else if IsOpen(s.table, s.route.slot) then s.(route := Idle)
      else State(Create(s.table, s.route.slot, true, Some(s.route.source)), Idle)
    case AbandonAi => s.(route := Idle)
  }

  ghost function Run(s: State, steps: seq<Step>): State {
    if steps == [] then s else Do(Run(s, steps[..|steps| - 1]), steps[|steps| - 1])
  }

  /** A waiting creation stays harmless. */
  ghost predicate Inv(s: State) {
    && Acyclic(s.table)
    && FloorHuman(s.table)
    && (s.route.Checked? ==>
          && s.route.slot != FLOOR && s.route.slot != s.route.source
          && !Reaches(s.table, s.route.source, s.route.slot))
  }

  /** The new edge `c -> s` closes no cycle when the chain from `s` does not reach `c`. */
  lemma InsertKeepsAcyclic(t: Table, c: nat, s: nat)
    requires Acyclic(t) && Next(t, c).None? && !Reaches(t, s, c)
    ensures Acyclic(Create(t, c, true, Some(s)))
  {
    var t' := Create(t, c, true, Some(s));
    assert Next(t', c) == Some(s);
    assert forall d: nat | d != c :: Next(t', d) == Next(t, d);
    forall x: nat | DependsOn(t', x, x)
      ensures false
    {
      var k: nat :| k > 0 && Walk(t', x, k) == Some(x);
      if forall j: nat | j < k :: Walk(t', x, j) != Some(c) {
        WalkAvoids(t, t', c, x, k);
        assert DependsOn(t, x, x);
      } else {
        var j: nat :| j < k && Walk(t', x, j) == Some(c);
        WalkSplit(t', x, j, k - j);
        WalkSplit(t', c, k - j, j);
        CycleThrough(t, t', c, s, k);
      }
    }
  }

  /** A cycle through `c` in the new table is a walk from `s` to `c` in the old one. */
  lemma {:induction false} CycleThrough(t: Table, t': Table, c: nat, s: nat, k: nat)
    requires Next(t', c) == Some(s) && forall d: nat | d != c :: Next(t', d) == Next(t, d)
    requires k > 0 && Walk(t', c, k) == Some(c)
    ensures Reaches(t, s, c)
    decreases k
  {
    if j: nat :| 0 < j < k && Walk(t', c, j) == Some(c) {
      CycleThrough(t, t', c, s, j);
    } else {
      assert Walk(t', c, 1) == Some(s) by {
        assert Walk(t', c, 0) == Some(c);
      }
      forall j: nat | j < k
        ensures Walk(t', s, j) == Walk(t', c, j + 1)
      {
        WalkSplit(t', c, 1, j);
      }
      WalkAvoids(t, t', c, s, k - 1);
    }
  }

  lemma StepKeepsInv(s: State, step: Step)
    requires Inv(s)
    ensures Inv(Do(s, step))
  {
    var s' := Do(s, step);
    if step.CheckAi? {
      if s' != s {
        HarmlessMeansUnreachable(s.table, step.source, step.slot);
      }
    } else if step.InsertAi? && s.route.Checked? && !IsOpen(s.table, s.route.slot) {
      InsertKeepsAcyclic(s.table, s.route.slot, s.route.source);
    } else {
      assert FewerEdges(s.table, s'.table);
      FewerEdgesKeep(s.table, s'.table);
    }
  }

  /** Every reachable table is acyclic, whatever is interleaved with a waiting creation. */
  lemma {:induction false} AlwaysAcyclic(steps: seq<Step>)
    ensures Inv(Run(State(map[], Idle), steps))
  {
    if steps == [] {
      assert forall c: nat, k: nat | k > 0 :: Walk(map[], c, k) != Some(c) by {
        forall c: nat, k: nat | k > 0
          ensures Walk(map[], c, k).None?
        {
          EmptyWalk(c, k);
        }
      }
    } else {
      AlwaysAcyclic(steps[..|steps| - 1]);
      StepKeepsInv(Run(State(map[], Idle), steps[..|steps| - 1]), steps[|steps| - 1]);
    }
  }

  lemma {:induction false} EmptyWalk(c: nat, k: nat)
    requires k > 0
    ensures Walk(map[], c, k).None?
  {
    if k > 1 {
      EmptyWalk(c, k - 1);
    }
  }

  // ---- what the steps do ----

  /** The channel rows are as before, except that of `c`. */
  predicate OnlyRow(t: Table, t': Table, c: nat, row: Channel) {
    t' == t[c := row]
  }

  /**
    A checked creation that is inserted without anything in between opens the slot as an AI channel
    of its source exactly if the slot is a free one, the source is another channel, the floor or an
    open one, and its chain does not lead to the slot; the epoch of a reused slot is kept.
   */
  lemma CreationExact(s: State, c: nat, src: nat)
    requires Inv(s) && s.route.Idle?
    ensures var s' := Do(Do(s, CheckAi(c, src)), InsertAi);
            && s'.route.Idle?
            && if && c != 0 && !(c in s.table && s.table[c].open)
                  && src != c && (src == 0 || (src in s.table && s.table[src].open))
                  && !Reaches(s.table, src, c)
               then OnlyRow(s.table, s'.table, c,
                            Channel(true, if c in s.table then s.table[c].epoch else 1, true, Some(src)))
               else s'.table == s.table
  {
    HarmlessMeansUnreachable(s.table, src, c);
  }

  /** An answered check is remembered, and only an answered one; giving up forgets it. */
  lemma CheckRemembers(s: State, c: nat, src: nat)
    requires Inv(s) && s.route.Idle?
    ensures Do(s, CheckAi(c, src))
         == if c != 0 && src != c && (src == 0 || (src in s.table && s.table[src].open)) && !Reaches(s.table, src, c)
            then s.(route := Checked(c, src)) else s
    ensures Do(s.(route := Checked(c, src)), AbandonAi) == s
  {
    HarmlessMeansUnreachable(s.table, src, c);
  }

  /** Closing a set closes exactly its channels and changes nothing else. */
  lemma CloseSetMeans(t: Table, cs: set<nat>, c: nat)
    ensures c in CloseSet(t, cs) <==> c in t
    ensures c in t ==> CloseSet(t, cs)[c] == Channel(t[c].open && c !in cs, t[c].epoch, t[c].ai, t[c].source)
  {
  }

  /** The other steps, row by row; a creation under way is not touched by them. */
  lemma OtherSteps(s: State, c: nat)
    ensures Do(s, HumanCreate(c))
         == if c in s.table && s.table[c].open then s
            else s.(table := s.table[c := Channel(true, if c in s.table then s.table[c].epoch else 1, false, None)])
    ensures c in s.table ==>
              var row := s.table[c];
              && Do(s, CloseChannel(c)) == s.(table := s.table[c := Channel(false, row.epoch, row.ai, row.source)])
              && Do(s, BumpEpoch(c))
              == s.(table := s.table[c := Channel(row.open, row.epoch + 1, row.ai, row.source)])
    ensures c !in s.table ==> Do(s, CloseChannel(c)) == s && Do(s, BumpEpoch(c)) == s
    ensures var s' := Do(s, CloseAllAi);
            && s' == s.(table := s'.table) && (c in s'.table <==> c in s.table)
            && (c in s.table ==>
                  var row := s.table[c];
                  s'.table[c] == Channel(row.open && !row.ai, row.epoch, row.ai, row.source))
  {
  }
}
