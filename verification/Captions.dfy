/**
  Numbering of caption utterances: a stream of text deltas per kind, where a delta starts a new
  utterance if the previous one of its kind ended a sentence or lies too far back in time.
 */
module Captions {
  import opened Common

  /** What counts as white space and as a sentence terminator, and the longest pause. */
  datatype Rules = Rules(space: char -> bool, terminators: set<char>, gap: real)

  datatype Delta = Delta(kind: string, text: string, at: real)

  /** Without trailing white space. */
  function Stripped(r: Rules, s: string): string {
    if s != [] && r.space(s[|s| - 1]) then Stripped(r, s[..|s| - 1]) else s
  }

  predicate EndsUtterance(r: Rules, s: string) {
    var t := Stripped(r, s);
    t != [] && t[|t| - 1] in r.terminators
  }

  /** The text ends an utterance exactly if only white space follows its last terminator. */
  lemma {:induction false} EndsAtTerminator(r: Rules, s: string)
    ensures EndsUtterance(r, s)
       <==> exists i | 0 <= i < |s| ::
              s[i] in r.terminators && !r.space(s[i]) && forall j | i < j < |s| :: r.space(s[j])
  {
    if s != [] {
      var n := |s| - 1;
      if r.space(s[n]) {
        var t := s[..n];
        EndsAtTerminator(r, t);
        if EndsUtterance(r, t) {
          var i :| 0 <= i < n && t[i] in r.terminators && !r.space(t[i]) && forall j | i < j < n :: r.space(t[j]);
          assert s[i] == t[i];
          forall j | i < j < |s|
            ensures r.space(s[j])
          {
            if j < n { assert s[j] == t[j]; }
          }
        }
      } else {
        assert EndsUtterance(r, s) <==> s[n] in r.terminators;
      }
    }
  }

  // ---- what the numbers mean ----

  /** The deltas of one kind. */
  function OfKind(log: seq<Delta>, kind: string): seq<Delta> {
    if log == [] then []
    else
      var d := log[|log| - 1];
      OfKind(log[..|log| - 1], kind) + if d.kind == kind then [d] else []
  }

  /** Between `d` and its successor `e` of the same kind a new utterance begins. */
  predicate Break(r: Rules, d: Delta, e: Delta) {
    EndsUtterance(r, d.text) || e.at - d.at >= r.gap
  }

  /** How many breaks there are up to delta `n` of a stream of one kind. */
  function Breaks(r: Rules, ds: seq<Delta>, n: nat): nat
    requires n < |ds|
  {
    if n == 0 then 0 else Breaks(r, ds, n - 1) + if Break(r, ds[n - 1], ds[n]) then 1 else 0
  }

  /** The utterance of delta `n` of its kind. */
  function Number(r: Rules, ds: seq<Delta>, n: nat): nat
    requires n < |ds|
  {
    1 + Breaks(r, ds, n)
  }

  /** Numbers never fall, rise by at most one per delta, and are equal exactly if no break lies between. */
  lemma {:induction false} SameUtterance(r: Rules, ds: seq<Delta>, m: nat, n: nat)
    requires m <= n < |ds|
    ensures Number(r, ds, m) <= Number(r, ds, n) <= Number(r, ds, m) + (n - m)
    ensures Number(r, ds, m) == Number(r, ds, n)
       <==> forall i | m <= i < n :: !EndsUtterance(r, ds[i].text) && ds[i + 1].at - ds[i].at < r.gap
    ensures Number(r, ds, 0) == 1
  {
    if m < n {
      SameUtterance(r, ds, m, n - 1);
      if !Break(r, ds[n - 1], ds[n]) && Number(r, ds, m) == Number(r, ds, n - 1) {
        forall i | m <= i < n
          ensures !EndsUtterance(r, ds[i].text) && ds[i + 1].at - ds[i].at < r.gap
        {
          if i == n - 1 {
            assert !Break(r, ds[i], ds[i + 1]);
          }
        }
      }
    }
  }

  /** A number, once given, does not depend on what comes later. */
  lemma {:induction false} Settled(r: Rules, ds: seq<Delta>, e: Delta, n: nat)
    requires n < |ds|
    ensures Number(r, ds + [e], n) == Number(r, ds, n)
  {
    if n > 0 {
      Settled(r, ds, e, n - 1);
      assert (ds + [e])[n - 1] == ds[n - 1] && (ds + [e])[n] == ds[n];
    }
  }

  /** Kinds are numbered independently: a delta adds to the stream of its own kind only. */
  lemma Independent(log: seq<Delta>, d: Delta, kind: string)
    ensures OfKind(log + [d], kind) == if d.kind == kind then OfKind(log, kind) + [d] else OfKind(log, kind)
  {
    assert (log + [d])[..|log|] == log;
  }

  // ---- the tracker ----

  /** What is remembered per kind: the current number, and time and ending of the latest delta. */
  datatype Entry = Entry(number: nat, at: real, ended: bool)

  predicate Remembers(r: Rules, state: map<string, Entry>, ds: seq<Delta>, kind: string) {
    if ds == [] then kind !in state
    else
      && kind in state
      && state[kind] == Entry(Number(r, ds, |ds| - 1), ds[|ds| - 1].at, EndsUtterance(r, ds[|ds| - 1].text))
  }

  /** The entry after one more delta. */
  function Advance(r: Rules, known: Option<Entry>, d: Delta): Entry {
    var ended := EndsUtterance(r, d.text);
    if known.None? then Entry(1, d.at, ended)
    else
      var e := known.value;
      Entry(if e.ended || d.at - e.at >= r.gap then e.number + 1 else e.number, d.at, ended)
  }

  function Lookup(state: map<string, Entry>, kind: string): Option<Entry> {
    if kind in state then Some(state[kind]) else None
  }

  lemma AdvanceNumbers(r: Rules, state: map<string, Entry>, ds: seq<Delta>, d: Delta)
    requires Remembers(r, state, ds, d.kind)
    ensures Advance(r, Lookup(state, d.kind), d) == Entry(Number(r, ds + [d], |ds|), d.at, EndsUtterance(r, d.text))
  {
    if ds != [] {
      var n := |ds| - 1;
      Settled(r, ds, d, n);
      assert (ds + [d])[n] == ds[n] && (ds + [d])[n + 1] == d;
    }
  }

  lemma RemembersNext(r: Rules, state: map<string, Entry>, log: seq<Delta>, d: Delta, kind: string)
    requires Remembers(r, state, OfKind(log, d.kind), d.kind)
    requires Remembers(r, state, OfKind(log, kind), kind)
    ensures Remembers(r, state[d.kind := Advance(r, Lookup(state, d.kind), d)], OfKind(log + [d], kind), kind)
  {
    Independent(log, d, kind);
    if kind == d.kind {
      AdvanceNumbers(r, state, OfKind(log, kind), d);
    }
  }

  class UtteranceTracker {
    const r: Rules
    var state: map<string, Entry>
    ghost var log: seq<Delta>

    ghost predicate Valid()
      reads this
    {
      forall kind: string :: Remembers(r, state, OfKind(log, kind), kind)
    }

    constructor (r: Rules)
      ensures Valid() && this.r == r && log == []
    {
      this.r := r;
      state := map[];
      log := [];
    }

    /** The number of one delta, which is the one its stream of deltas calls for. */
    method NextId(kind: string, text: string, at: real) returns (id: nat)
      requires Valid()
      modifies this
      ensures Valid() && log == old(log) + [Delta(kind, text, at)]
      ensures var ds := old(OfKind(log, kind)) + [Delta(kind, text, at)];
              OfKind(log, kind) == ds && id == Number(r, ds, |ds| - 1)
    {
      ghost var d := Delta(kind, text, at);
      ghost var next := Advance(r, Lookup(state, kind), d);
      Independent(log, d, kind);
      assert Remembers(r, state, OfKind(log, kind), kind);
      AdvanceNumbers(r, state, OfKind(log, kind), d);
      forall k: string
        ensures Remembers(r, state[kind := next], OfKind(log + [d], k), k)
      {
        assert Remembers(r, state, OfKind(log, k), k);
        RemembersNext(r, state, log, d, k);
      }
      log := log + [d];
      var ended := EndsUtterance(r, text);
      if kind !in state {
        state := state[kind := Entry(1, at, ended)];
        return 1;
      }
      id := state[kind].number;
      if state[kind].ended || at - state[kind].at >= r.gap {
        id := id + 1;
      }
      state := state[kind := Entry(id, at, ended)];
    }
  }
}
