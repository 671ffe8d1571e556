/**
  The nesting of the server's locks, and why no set of coroutines can deadlock.

  A coroutine is what it still has to acquire and release; the awaits in between are left out, as
  they end by themselves. Locks are held as a stack, because every lock is taken by a block that
  releases it on any exit.
 */
module LockOrder {
  import opened Common

  datatype Lock =
    /** One per caller and intercom channel. */
    | PasswordKey(key: string)
    | Scrypt
    | Rotation
    /** One per channel. */
    | Channel(k: nat)
    /** The cache of the live verifier. */
    | VerifierCache

  function Rank(l: Lock): nat {
    match l
    case PasswordKey(_) => 0
    case Scrypt => 1
    case Rotation => 2
    case Channel(_) => 3
    case VerifierCache => 3
  }

  function Capacity(l: Lock): nat {
    if l.Scrypt? then 2 else 1
  }

  datatype Op = Acquire(l: Lock) | Release

  /** From the locks held, the rest of the program takes locks of rising rank only and gives all of them back. */
  predicate Fits(held: seq<Lock>, rest: seq<Op>)
    decreases rest
  {
    if rest == [] then held == []
    else if rest[0].Acquire? then
      && (held != [] ==> Rank(held[|held| - 1]) < Rank(rest[0].l))
      && Fits(held + [rest[0].l], rest[1..])
    else held != [] && Fits(held[..|held| - 1], rest[1..])
  }

  // ---- what the routes do ----

  function With(l: Lock, body: seq<Op>): seq<Op> {
    [Acquire(l)] + body + [Release]
  }

  /** Checking a sender may update the verifier's cache. */
  function Auth(cached: bool): seq<Op> {
    if cached then With(VerifierCache, []) else []
  }

  /** The cascade locks its candidates one after the other. */
  function Cascade(ks: seq<nat>): seq<Op> {
    if ks == [] then [] else With(Channel(ks[0]), []) + Cascade(ks[1..])
  }

  /** Per idle channel, its own lock and then its cascade. */
  function Sweep(idle: seq<(nat, seq<nat>)>): seq<Op> {
    if idle == [] then [] else With(Channel(idle[0].0), []) + Cascade(idle[0].1) + Sweep(idle[1..])
  }

  datatype Route =
    /** Tokens to listen, monitor and talk, password changes, intercom channels. */
    | UnderRotation(cached: bool, again: bool)
    /** Publish and takeover. */
    | OnChannel(cached: bool, again: bool, k: nat)
    /** Closing a human or an AI channel. */
    | Close(cached: bool, again: bool, k: nat, cascade: seq<nat>)
    /** Opening an AI channel; after a failed start it is rolled back. */
    | CreateAi(cached: bool, again: bool, k: nat, rollback: bool, cascade: seq<nat>)
    | EnterIntercom(cached: bool, again: bool, key: string, verify: bool)
    | IdleSweep(idle: seq<(nat, seq<nat>)>)

  function Program(r: Route): seq<Op> {
    match r
    case UnderRotation(c, a) => Auth(c) + With(Rotation, Auth(a))
    case OnChannel(c, a, k) => Auth(c) + With(Rotation, Auth(a) + With(Channel(k), []))
    case Close(c, a, k, ks) => Auth(c) + With(Rotation, Auth(a) + With(Channel(k), []) + Cascade(ks))
    case CreateAi(c, a, k, rollback, ks) =>
      Auth(c) + With(Rotation, Auth(a) + With(Channel(k), []))
      + if rollback then With(Channel(k), []) + Cascade(ks) else []
    case EnterIntercom(c, a, key, verify) =>
      Auth(c) + With(PasswordKey(key), if verify then With(Scrypt, []) else []) + With(Rotation, Auth(a))
    case IdleSweep(idle) => Sweep(idle)
  }

  /** A block may run where no lock of its rank or a higher one is held. */
  ghost predicate Block(body: seq<Op>, rank: nat) {
    forall held: seq<Lock>, more: seq<Op> ::
      (held != [] ==> Rank(held[|held| - 1]) < rank) && Fits(held, more) ==> Fits(held, body + more)
  }

  lemma EmptyBlock(rank: nat)
    ensures Block([], rank)
  {
    forall held: seq<Lock>, more: seq<Op> | Fits(held, more)
      ensures Fits(held, [] + more)
    {
      assert [] + more == more;
    }
  }

  lemma ReleaseFits(held: seq<Lock>, l: Lock, more: seq<Op>)
    requires Fits(held, more)
    ensures Fits(held + [l], [Release] + more)
  {
    assert ([Release] + more)[1..] == more && (held + [l])[..|held|] == held;
  }

  lemma AcquireFits(held: seq<Lock>, l: Lock, more: seq<Op>)
    requires Fits(held + [l], more) && (held != [] ==> Rank(held[|held| - 1]) < Rank(l))
    ensures Fits(held, [Acquire(l)] + more)
  {
    assert ([Acquire(l)] + more)[1..] == more;
  }

  /** Taking a lock, running a block of higher rank and releasing is safe before what fits anyway. */
  lemma WithFits(l: Lock, body: seq<Op>, held: seq<Lock>, more: seq<Op>)
    requires Block(body, Rank(l) + 1) && Fits(held, more)
    requires held != [] ==> Rank(held[|held| - 1]) < Rank(l)
    ensures Fits(held, With(l, body) + more)
  {
    var inner, last := held + [l], [Release] + more;
    ReleaseFits(held, l, more);
    assert inner[|inner| - 1] == l;
    assert Fits(inner, body + last);
    AcquireFits(held, l, body + last);
    Around(l, body, more);
  }

  lemma WithBlock(l: Lock, body: seq<Op>, rank: nat)
    requires Block(body, Rank(l) + 1) && rank <= Rank(l)
    ensures Block(With(l, body), rank)
  {
    forall held: seq<Lock>, more: seq<Op> | (held != [] ==> Rank(held[|held| - 1]) < rank) && Fits(held, more)
      ensures Fits(held, With(l, body) + more)
    {
      WithFits(l, body, held, more);
    }
  }

  lemma SeqBlock(a: seq<Op>, b: seq<Op>, rank: nat)
    requires Block(a, rank) && Block(b, rank)
    ensures Block(a + b, rank)
  {
    forall held: seq<Lock>, more: seq<Op> | (held != [] ==> Rank(held[|held| - 1]) < rank) && Fits(held, more)
      ensures Fits(held, a + b + more)
    {
      assert a + b + more == a + (b + more);
      assert Fits(held, b + more);
    }
  }

  lemma Lower(body: seq<Op>, rank: nat, rank': nat)
    requires Block(body, rank) && rank' <= rank
    ensures Block(body, rank')
  {
  }

  lemma AuthBlock(cached: bool)
    ensures Block(Auth(cached), 3)
  {
    EmptyBlock(3);
    EmptyBlock(4);
    WithBlock(VerifierCache, [], 3);
  }

  lemma ChannelBlock(k: nat)
    ensures Block(With(Channel(k), []), 3)
  {
    EmptyBlock(4);
    WithBlock(Channel(k), [], 3);
  }

  lemma {:induction false} CascadeBlock(ks: seq<nat>)
    ensures Block(Cascade(ks), 3)
  {
    if ks == [] {
      EmptyBlock(3);
    } else {
      ChannelBlock(ks[0]);
      CascadeBlock(ks[1..]);
      SeqBlock(With(Channel(ks[0]), []), Cascade(ks[1..]), 3);
    }
  }

  lemma {:induction false} SweepBlock(idle: seq<(nat, seq<nat>)>)
    ensures Block(Sweep(idle), 3)
  {
    if idle == [] {
      EmptyBlock(3);
    } else {
      ChannelBlock(idle[0].0);
      CascadeBlock(idle[0].1);
      SweepBlock(idle[1..]);
      SeqBlock(With(Channel(idle[0].0), []), Cascade(idle[0].1), 3);
      SeqBlock(With(Channel(idle[0].0), []) + Cascade(idle[0].1), Sweep(idle[1..]), 3);
    }
  }

  /** Every route keeps to the order. */
  lemma RoutesFit(r: Route)
    ensures Fits([], Program(r))
  {
    RouteBlock(r);
    assert Program(r) + [] == Program(r);
  }

  lemma RotationBlock(body: seq<Op>)
    requires Block(body, 3)
    ensures Block(With(Rotation, body), 2) && Block(With(Rotation, body), 0)
  {
    WithBlock(Rotation, body, 2);
    Lower(With(Rotation, body), 2, 0);
  }

  lemma RouteBlock(r: Route)
    ensures Block(Program(r), 0)
  {
    match r
    case UnderRotation(c, a) =>
      AuthFirst(c, With(Rotation, Auth(a))) by { AuthBlock(a); RotationBlock(Auth(a)); }
    case OnChannel(c, a, k) =>
      AuthFirst(c, With(Rotation, Auth(a) + With(Channel(k), []))) by { OneChannel(a, k); }
    case Close(c, a, k, ks) =>
      var body := Auth(a) + With(Channel(k), []) + Cascade(ks);
      AuthFirst(c, With(Rotation, body)) by {
        OneChannel(a, k);
        CascadeBlock(ks);
        SeqBlock(Auth(a) + With(Channel(k), []), Cascade(ks), 3);
        RotationBlock(body);
      }
    case CreateAi(c, a, k, rollback, ks) =>
      var open := With(Rotation, Auth(a) + With(Channel(k), []));
      var undo := if rollback then With(Channel(k), []) + Cascade(ks) else [];
      AuthFirst(c, open) by { OneChannel(a, k); }
      assert Block(undo, 0) by {
        EmptyBlock(3);
        ChannelBlock(k);
        CascadeBlock(ks);
        SeqBlock(With(Channel(k), []), Cascade(ks), 3);
        Lower(undo, 3, 0);
      }
      SeqBlock(Auth(c) + open, undo, 0);
    case EnterIntercom(c, a, key, verify) =>
      var check := With(PasswordKey(key), if verify then With(Scrypt, []) else []);
      AuthFirst(c, check) by { PasswordBlock(key, verify); }
      assert Block(With(Rotation, Auth(a)), 0) by { AuthBlock(a); RotationBlock(Auth(a)); }
      SeqBlock(Auth(c) + check, With(Rotation, Auth(a)), 0);
    case IdleSweep(idle) =>
      SweepBlock(idle);
      Lower(Sweep(idle), 3, 0);
  }

  lemma AuthFirst(c: bool, body: seq<Op>)
    requires Block(body, 0)
    ensures Block(Auth(c) + body, 0)
  {
    AuthBlock(c);
    Lower(Auth(c), 3, 0);
    SeqBlock(Auth(c), body, 0);
  }

  lemma OneChannel(a: bool, k: nat)
    ensures Block(Auth(a) + With(Channel(k), []), 3)
    ensures Block(With(Rotation, Auth(a) + With(Channel(k), [])), 0)
  {
    AuthBlock(a);
    ChannelBlock(k);
    SeqBlock(Auth(a), With(Channel(k), []), 3);
    RotationBlock(Auth(a) + With(Channel(k), []));
  }

  lemma PasswordBlock(key: string, verify: bool)
    ensures Block(With(PasswordKey(key), if verify then With(Scrypt, []) else []), 0)
  {
    EmptyBlock(1);
    EmptyBlock(2);
    WithBlock(Scrypt, [], 1);
    WithBlock(PasswordKey(key), if verify then With(Scrypt, []) else [], 0);
  }

  // ---- leaving early ----

  /** The locks held after the first `n` operations. */
  function HeldAfter(held: seq<Lock>, rest: seq<Op>, n: nat): seq<Lock>
    requires n <= |rest| && Fits(held, rest)
    decreases n
  {
    if n == 0 then held
    else if rest[0].Acquire? then HeldAfter(held + [rest[0].l], rest[1..], n - 1)
    else HeldAfter(held[..|held| - 1], rest[1..], n - 1)
  }

  function Releases(n: nat): seq<Op> {
    if n == 0 then [] else [Release] + Releases(n - 1)
  }

  lemma {:induction false} ReleasesFit(held: seq<Lock>)
    ensures Fits(held, Releases(|held|))
  {
    if held != [] {
      ReleasesFit(held[..|held| - 1]);
    }
  }

  /** A return or an exception at any point, which releases what is held, keeps to the order too. */
  lemma {:induction false} EarlyExit(held: seq<Lock>, rest: seq<Op>, n: nat)
    requires n <= |rest| && Fits(held, rest)
    ensures Fits(held, rest[..n] + Releases(|HeldAfter(held, rest, n)|))
    decreases n
  {
    if n == 0 {
      ReleasesFit(held);
      assert rest[..0] + Releases(|held|) == Releases(|held|);
    } else {
      var next := if rest[0].Acquire? then held + [rest[0].l] else held[..|held| - 1];
      EarlyExit(next, rest[1..], n - 1);
      ExitSlices(rest, n, Releases(|HeldAfter(held, rest, n)|));
    }
  }

  lemma ExitSlices(rest: seq<Op>, n: nat, releases: seq<Op>)
    requires 0 < n <= |rest|
    ensures rest[..n] + releases == [rest[0]] + (rest[1..][..n - 1] + releases)
    ensures (rest[..n] + releases)[0] == rest[0]
    ensures (rest[..n] + releases)[1..] == rest[1..][..n - 1] + releases
  {
    assert rest[..n] == [rest[0]] + rest[1..][..n - 1];
  }

  // ---- all coroutines together ----

  datatype Coroutine = Coroutine(held: seq<Lock>, rest: seq<Op>)

  function Holders(cos: seq<Coroutine>, l: Lock): set<nat> {
    set i | 0 <= i < |cos| && l in cos[i].held
  }

  /** Its next operation is a release, or a lock that is not fully taken. */
  predicate CanStep(cos: seq<Coroutine>, i: nat)
    requires i < |cos|
  {
    var rest := cos[i].rest;
    rest != [] && (rest[0].Acquire? ==> |Holders(cos, rest[0].l)| < Capacity(rest[0].l))
  }

  function Advance(c: Coroutine): Coroutine
    requires c.rest != [] && (c.rest[0].Release? ==> c.held != [])
  {
    match c.rest[0]
    case Acquire(l) => Coroutine(c.held + [l], c.rest[1..])
    case Release => Coroutine(c.held[..|c.held| - 1], c.rest[1..])
  }

  /** Ranks rise from the bottom of the stack to its top. */
  predicate Rising(held: seq<Lock>) {
    forall i, j | 0 <= i < j < |held| :: Rank(held[i]) < Rank(held[j])
  }

  predicate Sound(c: Coroutine) {
    Rising(c.held) && Fits(c.held, c.rest)
  }

  ghost predicate AllSound(cos: seq<Coroutine>) {
    && (forall i | 0 <= i < |cos| :: Sound(cos[i]))
    && (forall l: Lock :: |Holders(cos, l)| <= Capacity(l))
  }

  lemma AdvanceSound(c: Coroutine)
    requires Sound(c) && c.rest != []
    ensures Sound(Advance(c))
  {
  }

  /** Locks are never held by more coroutines than they admit, and the order is kept. */
  lemma StepSound(cos: seq<Coroutine>, i: nat)
    requires AllSound(cos) && i < |cos| && CanStep(cos, i)
    ensures AllSound(cos[i := Advance(cos[i])])
  {
    var c := cos[i];
    assert Sound(c);
    AdvanceSound(c);
    var cos' := cos[i := Advance(c)];
    forall l: Lock
      ensures |Holders(cos', l)| <= Capacity(l)
    {
      var before, after := Holders(cos, l), Holders(cos', l);
      if c.rest[0] == Acquire(l) {
        assert after <= before + {i};
        SubsetSize(after, before + {i});
      } else {
        assert after <= before;
        SubsetSize(after, before);
      }
    }
  }

  /** From `i` to the holder of what it waits for, and so on; ranks rise, so this ends at one that can step. */
  lemma {:induction false} Follow(cos: seq<Coroutine>, i: nat) returns (j: nat)
    requires AllSound(cos) && i < |cos| && cos[i].rest != []
    ensures j < |cos| && CanStep(cos, j)
    decreases if cos[i].rest[0].Acquire? then 4 - Rank(cos[i].rest[0].l) else 5
  {
    if CanStep(cos, i) {
      return i;
    }
    var l := cos[i].rest[0].l;
    assert Holders(cos, l) != {};
    var h :| h in Holders(cos, l);
    var c := cos[h];
    assert Sound(c) && c.rest != [];
    var at :| 0 <= at < |c.held| && c.held[at] == l;
    if c.rest[0].Release? {
      return h;
    }
    assert Rank(l) <= Rank(c.held[|c.held| - 1]) < Rank(c.rest[0].l);
    j := Follow(cos, h);
  }

  // ---- runs ----

  /** Coroutines take steps in the given order, each able to at its time. */
  predicate Schedule(cos: seq<Coroutine>, turns: seq<nat>)
    decreases turns
  {
    turns == [] ||
    (turns[0] < |cos| && CanStep(cos, turns[0])
     && (cos[turns[0]].rest[0].Release? ==> cos[turns[0]].held != [])
     && Schedule(cos[turns[0] := Advance(cos[turns[0]])], turns[1..]))
  }

  function After(cos: seq<Coroutine>, turns: seq<nat>): seq<Coroutine>
    requires Schedule(cos, turns)
    decreases turns
  {
    if turns == [] then cos else After(cos[turns[0] := Advance(cos[turns[0]])], turns[1..])
  }

  function Work(cos: seq<Coroutine>): nat {
    if cos == [] then 0 else |cos[0].rest| + Work(cos[1..])
  }

  predicate Finished(cos: seq<Coroutine>) {
    forall i | 0 <= i < |cos| :: cos[i].rest == []
  }

  lemma {:induction false} WorkDrops(cos: seq<Coroutine>, i: nat)
    requires i < |cos| && cos[i].rest != [] && (cos[i].rest[0].Release? ==> cos[i].held != [])
    ensures Work(cos[i := Advance(cos[i])]) == Work(cos) - 1
  {
    var cos' := cos[i := Advance(cos[i])];
    if i == 0 {
      assert cos'[1..] == cos[1..];
    } else {
      WorkDrops(cos[1..], i - 1);
      assert cos'[1..] == cos[1..][i - 1 := Advance(cos[i])];
    }
  }

  lemma {:induction false} ScheduleSound(cos: seq<Coroutine>, turns: seq<nat>)
    requires AllSound(cos) && Schedule(cos, turns)
    ensures AllSound(After(cos, turns))
    ensures Work(After(cos, turns)) == Work(cos) - |turns|
    decreases turns
  {
    if turns != [] {
      StepSound(cos, turns[0]);
      WorkDrops(cos, turns[0]);
      ScheduleSound(cos[turns[0] := Advance(cos[turns[0]])], turns[1..]);
    }
  }

  lemma {:induction false} NoWork(cos: seq<Coroutine>)
    ensures Work(cos) == 0 <==> Finished(cos)
  {
    if cos != [] {
      NoWork(cos[1..]);
      if Finished(cos) {
        forall i | 0 <= i < |cos[1..]| ensures cos[1..][i].rest == [] {
          assert cos[i + 1].rest == [];
        }
      }
      if Finished(cos[1..]) && cos[0].rest == [] {
        forall i | 0 <= i < |cos| ensures cos[i].rest == [] {
          assert i > 0 ==> cos[1..][i - 1].rest == [];
        }
      }
    }
  }

  /** One execution of a route: to its end, or left early after `leaveAt` operations. */
  datatype Task = Task(route: Route, leaveAt: nat)

  function TaskProgram(t: Task): seq<Op> {
    var p := Program(t.route);
    if t.leaveAt >= |p| then p
    else
      RoutesFit(t.route);
      p[..t.leaveAt] + Releases(|HeldAfter([], p, t.leaveAt)|)
  }

  function Starting(tasks: seq<Task>): seq<Coroutine> {
    seq(|tasks|, i requires 0 <= i < |tasks| => Coroutine([], TaskProgram(tasks[i])))
  }

  lemma StartingSound(tasks: seq<Task>)
    ensures AllSound(Starting(tasks))
  {
    forall i | 0 <= i < |tasks| ensures Sound(Starting(tasks)[i]) {
      var t := tasks[i];
      RoutesFit(t.route);
      if t.leaveAt < |Program(t.route)| {
        EarlyExit([], Program(t.route), t.leaveAt);
      }
    }
    forall l: Lock ensures |Holders(Starting(tasks), l)| <= Capacity(l) {
      assert Holders(Starting(tasks), l) == {};
    }
  }

  /**
    No deadlock: however any number of routes have been scheduled so far, as long as one is
    unfinished some coroutine can step, and every schedule that goes on as long as it can runs
    all of them to their ends.
   */
  lemma NoDeadlock(cos: seq<Coroutine>, turns: seq<nat>)
    requires AllSound(cos) && Schedule(cos, turns)
    ensures var now := After(cos, turns);
            && (Finished(now) <==> forall i | 0 <= i < |now| :: !CanStep(now, i))
            && (Finished(now) <==> |turns| == Work(cos))
  {
    ScheduleSound(cos, turns);
    var now := After(cos, turns);
    NoWork(now);
    if !Finished(now) {
      var i :| 0 <= i < |now| && now[i].rest != [];
      var j := Follow(now, i);
      assert CanStep(now, j);
    }
  }

  /** Any number of the server's routes, with any early exits, in any order of steps. */
  lemma RoutesFinish(tasks: seq<Task>, turns: seq<nat>)
    requires Schedule(Starting(tasks), turns)
    ensures var now := After(Starting(tasks), turns);
            && (forall l: Lock :: |Holders(now, l)| <= Capacity(l))
            && ((exists i | 0 <= i < |now| :: now[i].rest != []) ==> exists j | 0 <= j < |now| :: CanStep(now, j))
            && ((forall j | 0 <= j < |now| :: !CanStep(now, j)) ==> Finished(now))
  {
    StartingSound(tasks);
    ScheduleSound(Starting(tasks), turns);
    NoDeadlock(Starting(tasks), turns);
  }

  /** Mutual exclusion in every schedule: two coroutines share no lock but the semaphore, and that only two do. */
  lemma Exclusive(tasks: seq<Task>, turns: seq<nat>, i: nat, j: nat, l: Lock)
    requires Schedule(Starting(tasks), turns)
    requires var now := After(Starting(tasks), turns);
             i < |now| && j < |now| && l in now[i].held && l in now[j].held
    ensures i == j || l == Scrypt
    ensures |Holders(After(Starting(tasks), turns), Scrypt)| <= 2
  {
    StartingSound(tasks);
    ScheduleSound(Starting(tasks), turns);
    if i != j {
      SharedByTwo(After(Starting(tasks), turns), i, j, l);
    }
  }

  lemma SharedByTwo(cos: seq<Coroutine>, i: nat, j: nat, l: Lock)
    requires i < |cos| && j < |cos| && i != j && l in cos[i].held && l in cos[j].held
    ensures |Holders(cos, l)| >= 2
  {
    SubsetSize({i, j}, Holders(cos, l));
  }

  // ---- what each route holds ----

  lemma AfterAcquire(held: seq<Lock>, l: Lock, rest: seq<Op>, n: nat)
    requires Fits(held, [Acquire(l)] + rest) && n <= |rest|
    ensures Fits(held + [l], rest)
    ensures HeldAfter(held, [Acquire(l)] + rest, n + 1) == HeldAfter(held + [l], rest, n)
  {
    assert ([Acquire(l)] + rest)[1..] == rest;
  }

  lemma AfterAuth(held: seq<Lock>, c: bool, rest: seq<Op>, n: nat)
    requires Fits(held, Auth(c) + rest) && n <= |rest|
    ensures Fits(held, rest) && HeldAfter(held, Auth(c) + rest, |Auth(c)| + n) == HeldAfter(held, rest, n)
  {
    if c {
      assert Auth(c) + rest == [Acquire(VerifierCache)] + ([Release] + rest);
      AfterAcquire(held, VerifierCache, [Release] + rest, n + 1);
      assert ([Release] + rest)[1..] == rest && (held + [VerifierCache])[..|held|] == held;
    } else {
      assert Auth(c) + rest == rest;
    }
  }

  /** A program that takes two locks one within the other, each after a check of the sender. */
  function TwoLocks(c: bool, l: Lock, a: bool, m: Lock, inner: seq<Op>): seq<Op> {
    Auth(c) + ([Acquire(l)] + (Auth(a) + ([Acquire(m)] + inner)))
  }

  lemma BothHeld(c: bool, l: Lock, a: bool, m: Lock, inner: seq<Op>) returns (n: nat)
    requires Fits([], TwoLocks(c, l, a, m, inner))
    ensures n <= |TwoLocks(c, l, a, m, inner)| && HeldAfter([], TwoLocks(c, l, a, m, inner), n) == [l, m]
  {
    var last := [Acquire(m)] + inner;
    var body := Auth(a) + last;
    n := |Auth(c)| + ((|Auth(a)| + (0 + 1)) + 1);
    AfterAuth([], c, [Acquire(l)] + body, (|Auth(a)| + (0 + 1)) + 1);
    AfterAcquire([], l, body, |Auth(a)| + (0 + 1));
    assert [] + [l] == [l] && [l] + [m] == [l, m];
    AfterAuth([l], a, last, 0 + 1);
    AfterAcquire([l], m, inner, 0);
  }

  lemma Regroup(a: seq<Op>, b: seq<Op>, c: seq<Op>)
    ensures a + b + c == a + (b + c)
  {
  }

  lemma Around(l: Lock, body: seq<Op>, x: seq<Op>)
    ensures With(l, body) + x == [Acquire(l)] + (body + ([Release] + x))
  {
    Regroup([Acquire(l)], body, [Release]);
    Regroup([Acquire(l)], body + [Release], x);
    Regroup(body, [Release], x);
  }

  lemma AroundEnd(l: Lock, body: seq<Op>)
    ensures With(l, body) == [Acquire(l)] + (body + [Release])
  {
    Regroup([Acquire(l)], body, [Release]);
  }

  /** A block at the end of `a`, with `x` behind it. */
  lemma Inside(a: seq<Op>, l: Lock, x: seq<Op>)
    ensures a + With(l, []) + x == a + ([Acquire(l)] + ([Release] + x))
  {
    Regroup(a, With(l, []), x);
    Around(l, [], x);
    assert [] + ([Release] + x) == [Release] + x;
  }

  /** Publish and takeover do their work under the rotation lock and, within it, their channel's. */
  lemma ChannelSection(c: bool, a: bool, k: nat) returns (n: nat)
    ensures var p := Program(OnChannel(c, a, k));
            n <= |p| && Fits([], p) && HeldAfter([], p, n) == [Rotation, Channel(k)]
  {
    RoutesFit(OnChannel(c, a, k));
    AroundEnd(Rotation, Auth(a) + With(Channel(k), []));
    Inside(Auth(a), Channel(k), [Release]);
    n := BothHeld(c, Rotation, a, Channel(k), [Release] + [Release]);
  }

  /** So does a close, before its cascade. */
  lemma CloseSection(c: bool, a: bool, k: nat, ks: seq<nat>) returns (n: nat)
    ensures var p := Program(Close(c, a, k, ks));
            n <= |p| && Fits([], p) && HeldAfter([], p, n) == [Rotation, Channel(k)]
  {
    RoutesFit(Close(c, a, k, ks));
    var more := Cascade(ks);
    AroundEnd(Rotation, Auth(a) + With(Channel(k), []) + more);
    Regroup(Auth(a) + With(Channel(k), []), more, [Release]);
    Inside(Auth(a), Channel(k), more + [Release]);
    n := BothHeld(c, Rotation, a, Channel(k), [Release] + (more + [Release]));
  }

  /** And the opening of an AI channel, whether or not it is rolled back later. */
  lemma CreateSection(c: bool, a: bool, k: nat, rollback: bool, ks: seq<nat>) returns (n: nat)
    ensures var p := Program(CreateAi(c, a, k, rollback, ks));
            n <= |p| && Fits([], p) && HeldAfter([], p, n) == [Rotation, Channel(k)]
  {
    RoutesFit(CreateAi(c, a, k, rollback, ks));
    var undo := if rollback then With(Channel(k), []) + Cascade(ks) else [];
    Regroup(Auth(c), With(Rotation, Auth(a) + With(Channel(k), [])), undo);
    Around(Rotation, Auth(a) + With(Channel(k), []), undo);
    Inside(Auth(a), Channel(k), [Release] + undo);
    n := BothHeld(c, Rotation, a, Channel(k), [Release] + ([Release] + undo));
  }

  /** A channel password is checked under its caller's key lock and, for the hashing, the semaphore. */
  lemma PasswordSection(c: bool, a: bool, key: string) returns (n: nat)
    ensures var p := Program(EnterIntercom(c, a, key, true));
            n <= |p| && Fits([], p) && HeldAfter([], p, n) == [PasswordKey(key), Scrypt]
  {
    RoutesFit(EnterIntercom(c, a, key, true));
    var more := With(Rotation, Auth(a));
    Regroup(Auth(c), With(PasswordKey(key), With(Scrypt, [])), more);
    Around(PasswordKey(key), With(Scrypt, []), more);
    Around(Scrypt, [], [Release] + more);
    assert [] + ([Release] + ([Release] + more)) == [Release] + ([Release] + more);
    assert Auth(false) + ([Acquire(Scrypt)] + ([Release] + ([Release] + more)))
        == [Acquire(Scrypt)] + ([Release] + ([Release] + more));
    n := BothHeld(c, PasswordKey(key), false, Scrypt, [Release] + ([Release] + more));
  }

  /** Everything else that hands out tokens or changes passwords does so under the rotation lock. */
  lemma RotationSection(c: bool, a: bool) returns (n: nat)
    ensures var p := Program(UnderRotation(c, a));
            n <= |p| && Fits([], p) && HeldAfter([], p, n) == [Rotation]
  {
    RoutesFit(UnderRotation(c, a));
    AroundEnd(Rotation, Auth(a));
    n := OneHeld(c, Rotation, Auth(a) + [Release]);
  }

  /** A cascade takes its channels' locks one by one, each released before the next. */
  lemma {:induction false} CascadeMeans(ks: seq<nat>, j: nat)
    requires j < |ks|
    ensures |Cascade(ks)| == 2 * |ks|
    ensures Cascade(ks)[2 * j] == Acquire(Channel(ks[j])) && Cascade(ks)[2 * j + 1] == Release
  {
    if j > 0 {
      CascadeMeans(ks[1..], j - 1);
    } else if |ks| > 1 {
      CascadeMeans(ks[1..], 0);
    }
  }

  /** The rollback of an AI channel takes its lock again, alone, and then the cascade's. */
  lemma RollbackMeans(c: bool, a: bool, k: nat, ks: seq<nat>)
    ensures Program(CreateAi(c, a, k, true, ks))
         == Program(CreateAi(c, a, k, false, ks)) + ([Acquire(Channel(k)), Release] + Cascade(ks))
  {
    var undo := With(Channel(k), []) + Cascade(ks);
    assert With(Channel(k), []) == [Acquire(Channel(k)), Release];
    Regroup(Auth(c) + With(Rotation, Auth(a) + With(Channel(k), [])), [], undo);
    assert [] + undo == undo;
  }

  /** The idle sweep takes an idle channel's lock, then its cascade's locks, then goes on. */
  lemma SweepMeans(k: nat, ks: seq<nat>, more: seq<(nat, seq<nat>)>)
    ensures Sweep([(k, ks)] + more) == [Acquire(Channel(k)), Release] + Cascade(ks) + Sweep(more)
  {
    assert ([(k, ks)] + more)[1..] == more;
    assert With(Channel(k), []) == [Acquire(Channel(k)), Release];
  }

  lemma Holds(l: Lock, rest: seq<Op>)
    requires Fits([], [Acquire(l)] + rest)
    ensures HeldAfter([], [Acquire(l)] + rest, 1) == [l]
  {
    AfterAcquire([], l, rest, 0);
    assert [] + [l] == [l];
  }

  lemma OneHeld(c: bool, l: Lock, rest: seq<Op>) returns (n: nat)
    requires Fits([], Auth(c) + ([Acquire(l)] + rest))
    ensures var p := Auth(c) + ([Acquire(l)] + rest); n <= |p| && HeldAfter([], p, n) == [l]
  {
    var taking := [Acquire(l)] + rest;
    AfterAuth([], c, taking, 1);
    Holds(l, rest);
    n := |Auth(c)| + 1;
  }
}
