/**
  Passwords and the room generation, and how they survive crashes.

  The generation row stores a hash of both passwords; a start that finds another hash rotates the
  generation. Steps are single transactions and single assignments to memory, and the process may
  crash between any two of them, or be started again with other configured passwords.
 */
module Credentials {
  import opened Common

  datatype Env = Env(send: string, admin: string)

  /** The digest behind the stored hash. */
  type Digest = string -> string

  function Hash(d: Digest, send: string, admin: string): string {
    d(send + ['\0'] + admin)
  }

  /** The generation row. */
  datatype Row = Row(value: nat, hash: string)

  /** What matters of a channel's lease here. */
  datatype Held = Held(generation: nat, joined: bool)

  datatype Db = Db(send: Option<string>, admin: Option<string>, row: Option<Row>, leases: map<nat, Held>)

  datatype Memory = Memory(send: string, admin: string, generation: nat)

  datatype Process =
    | Off
    | Booting(m: Memory, changed: bool)
    | Up(m: Memory)
    | AdminStored(m: Memory, new_: string)
    | Rotating(m: Memory, new_: string)
    | SendStored(m: Memory, new_: string)

  datatype State = State(db: Db, env: Env, process: Process)

  datatype Step =
    | Boot(env: Env)
    | ClearLeases
    /** The rest of the start, with the channels whose lease holder is listed in the room. */
    | BootDone(present: set<nat>)
    | IssueLease(k: nat)
    | JoinLease(k: nat)
    | ReleaseLease(k: nat)
    | ChangeAdmin(new_: string)
    | ChangeSend(new_: string)
    | RotateRooms(ok: bool)
    | Assign
    | Crash

  /** A stored password overrides the configured one unless it is empty. */
  function Effective(stored: Option<string>, configured: string): string {
    if stored.Some? && stored.value != "" then stored.value else configured
  }

  function Send(s: State): string {
    Effective(s.db.send, s.env.send)
  }

  function Admin(s: State): string {
    Effective(s.db.admin, s.env.admin)
  }

  predicate OfGeneration(s: State, k: nat, generation: nat) {
    k in s.db.leases && s.db.leases[k].generation == generation
  }

  /** A room admits and lists identities of its own generation only, and only their joins are accepted. */
  predicate Enabled(s: State, step: Step) {
    match step
    case Boot(env) => s.process.Off? && env.send != env.admin
    case ClearLeases => s.process.Booting? && s.process.changed
    case BootDone(present) =>
      && s.process.Booting? && !s.process.changed
      && (forall k | k in present :: OfGeneration(s, k, s.process.m.generation))
    case IssueLease(_) => s.process.Up?
    case JoinLease(k) => s.process.Up? && OfGeneration(s, k, s.process.m.generation)
    case ReleaseLease(_) => s.process.Up? || s.process.Rotating?
    case ChangeAdmin(n) => s.process.Up? && n != ""
    case ChangeSend(n) => s.process.Up? && n != ""
    case RotateRooms(_) => s.process.Rotating?
    case Assign => s.process.AdminStored? || s.process.SendStored?
    case Crash => !s.process.Off?
  }

  /** Joined leases whose holder is not in the room are released. */
  function Reconciled(leases: map<nat, Held>, present: set<nat>): map<nat, Held> {
    map k | k in leases && (!leases[k].joined || k in present) :: leases[k]
  }

  function Do(d: Digest, s: State, step: Step): State
    requires Enabled(s, step)
  {
    match step
    case Boot(env) =>
      var send, admin := Effective(s.db.send, env.send), Effective(s.db.admin, env.admin);
      var hash := Hash(d, send, admin);
      var changed := s.db.row.Some? && s.db.row.value.hash != hash;
      var generation :=
        if s.db.row.None? then 1 else if changed then s.db.row.value.value + 1 else s.db.row.value.value;
      State(s.db.(row := Some(Row(generation, hash))), env, Booting(Memory(send, admin, generation), changed))
    case ClearLeases => s.(db := s.db.(leases := map[]), process := s.process.(changed := false))
    case BootDone(present) =>
      s.(db := s.db.(leases := Reconciled(s.db.leases, present)), process := Up(s.process.m))
    case IssueLease(k) => s.(db := s.db.(leases := s.db.leases[k := Held(s.process.m.generation, false)]))
    case JoinLease(k) => s.(db := s.db.(leases := s.db.leases[k := s.db.leases[k].(joined := true)]))
    case ReleaseLease(k) => s.(db := s.db.(leases := s.db.leases - {k}))
    case ChangeAdmin(n) =>
      var m := s.process.m;
      if n == m.send then s
      else s.(db := s.db.(admin := Some(n), row := Some(Row(m.generation, Hash(d, m.send, n)))),
              process := AdminStored(m, n))
    case ChangeSend(n) => if n == s.process.m.admin then s else s.(process := Rotating(s.process.m, n))
    case RotateRooms(ok) =>
      var (m, n) := (s.process.m, s.process.new_);
      if ok
      then s.(db := s.db.(send := Some(n), row := Some(Row(m.generation + 1, Hash(d, n, m.admin))), leases := map[]),
              process := SendStored(m, n))
      else s.(process := Up(m))
    case Assign =>
      var (m, n) := (s.process.m, s.process.new_);
      if s.process.AdminStored? then s.(process := Up(m.(admin := n)))
      else s.(process := Up(Memory(n, m.admin, m.generation + 1)))
    case Crash => s.(process := Off)
  }

  function Fresh(env: Env): State {
    State(Db(None, None, None, map[]), env, Off)
  }

  // ---- consistency ----

  function Generation(s: State): nat {
    if s.db.row.Some? then s.db.row.value.value else 0
  }

  /** The stored hash is the hash of the effective passwords. */
  predicate HashFits(d: Digest, s: State) {
    s.db.row.Some? ==> s.db.row.value.hash == Hash(d, Send(s), Admin(s))
  }

  /** Memory agrees with the database, except between a commit and the assignment after it. */
  predicate InMemory(s: State) {
    match s.process
    case Off => true
    case AdminStored(m, n) => Send(s) == m.send && Admin(s) == n && n != m.send && Generation(s) == m.generation
    case SendStored(m, n) => Send(s) == n && Admin(s) == m.admin && n != m.admin && Generation(s) == m.generation + 1
    case Rotating(m, n) =>
      n != "" && n != m.admin && Send(s) == m.send && Admin(s) == m.admin && Generation(s) == m.generation
    case _ =>
      Send(s) == s.process.m.send && Admin(s) == s.process.m.admin && Generation(s) == s.process.m.generation
  }

  predicate Inv(d: Digest, s: State) {
    && HashFits(d, s) && InMemory(s)
    && (s.db.row.None? ==> s.process.Off? && s.db.send.None? && s.db.admin.None? && s.db.leases == map[])
    && s.db.send != Some("") && s.db.admin != Some("")
    && (s.db.send.Some? && s.db.admin.Some? ==> s.db.send != s.db.admin)
  }

  predicate Distinct(s: State) {
    Send(s) != Admin(s)
  }

  lemma StepKeepsInv(d: Digest, s: State, step: Step)
    requires Inv(d, s) && Enabled(s, step)
    ensures Inv(d, Do(d, s, step))
  {
  }

  // ---- different passwords ----

  /** An override of one password is the configured value of the other, which has no override. */
  predicate Clash(db: Db, env: Env) {
    || (db.send.Some? && db.admin.None? && db.send.value == env.admin)
    || (db.admin.Some? && db.send.None? && db.admin.value == env.send)
  }

  /** The two passwords differ after every step except a start into a clash. */
  lemma DistinctStep(d: Digest, s: State, step: Step)
    requires Inv(d, s) && Distinct(s) && Enabled(s, step)
    ensures Distinct(Do(d, s, step)) <==> !(step.Boot? && Clash(s.db, step.env))
  {
  }

  /** Such a clash exists: the send password is changed, later the same value is configured for the administrator. */
  lemma ClashHappens(d: Digest)
    ensures var a, b := Env("aaaa", "bbbb"), Env("aaaa", "cccc");
            var steps := [Boot(a), BootDone({}), ChangeSend("cccc"), RotateRooms(true), Crash, Boot(b)];
            Legal(d, Fresh(a), steps) && !Distinct(Run(d, Fresh(a), steps))
  {
    var a, b := Env("aaaa", "bbbb"), Env("aaaa", "cccc");
    var s1 := Do(d, Fresh(a), Boot(a));
    var s2 := Do(d, s1, BootDone({}));
    var s3 := Do(d, s2, ChangeSend("cccc"));
    var s4 := Do(d, s3, RotateRooms(true));
    var s5 := Do(d, s4, Crash);
    var s6 := Do(d, s5, Boot(b));
    assert Legal(d, s6, []) && Run(d, s6, []) == s6;
    Prepend(d, s5, Boot(b), []);
    Prepend(d, s4, Crash, [Boot(b)]);
    Prepend(d, s3, RotateRooms(true), [Crash, Boot(b)]);
    Prepend(d, s2, ChangeSend("cccc"), [RotateRooms(true), Crash, Boot(b)]);
    Prepend(d, s1, BootDone({}), [ChangeSend("cccc"), RotateRooms(true), Crash, Boot(b)]);
    Prepend(d, Fresh(a), Boot(a), [BootDone({}), ChangeSend("cccc"), RotateRooms(true), Crash, Boot(b)]);
  }

  lemma Prepend(d: Digest, s: State, step: Step, steps: seq<Step>)
    requires Enabled(s, step) && Legal(d, Do(d, s, step), steps)
    ensures Legal(d, s, [step] + steps) && Run(d, s, [step] + steps) == Run(d, Do(d, s, step), steps)
  {
    assert ([step] + steps)[1..] == steps;
  }

  // ---- the generation ----

  /** A committed change of the send password. */
  predicate Commits(step: Step) {
    step == RotateRooms(true)
  }

  /** A start with other effective passwords than the hash was made from. */
  predicate Rotates(d: Digest, s: State, step: Step) {
    && step.Boot? && s.db.row.Some?
    && Hash(d, Effective(s.db.send, step.env.send), Effective(s.db.admin, step.env.admin)) != s.db.row.value.hash
  }

  lemma GenerationStep(d: Digest, s: State, step: Step)
    requires Inv(d, s) && Enabled(s, step)
    ensures Generation(Do(d, s, step))
         == Generation(s) + if Commits(step) || Rotates(d, s, step) || (step.Boot? && s.db.row.None?) then 1 else 0
  {
  }

  /** If the hash separates passwords, a start rotates exactly if an effective password is not what it was. */
  lemma RotatesIfChanged(d: Digest, s: State, env: Env)
    requires Inv(d, s) && s.db.row.Some?
    requires forall a, b :: d(a) == d(b) ==> a == b
    requires '\0' !in Send(s) && '\0' !in Effective(s.db.send, env.send)
    ensures Rotates(d, s, Boot(env))
       <==> Send(s) != Effective(s.db.send, env.send) || Admin(s) != Effective(s.db.admin, env.admin)
  {
    var a, b := Effective(s.db.send, env.send), Effective(s.db.admin, env.admin);
    if !Rotates(d, s, Boot(env)) {
      assert Send(s) + ['\0'] + Admin(s) == a + ['\0'] + b;
      Separated(Send(s), Admin(s), a, b);
    }
  }

  function FirstNul(t: string): nat
    ensures FirstNul(t) <= |t|
  {
    if t == [] || t[0] == '\0' then 0 else 1 + FirstNul(t[1..])
  }

  lemma {:induction false} FoundNul(a: string, b: string)
    requires '\0' !in a
    ensures FirstNul(a + ['\0'] + b) == |a|
  {
    if a != [] {
      FoundNul(a[1..], b);
      assert (a + ['\0'] + b)[1..] == a[1..] + ['\0'] + b;
    }
  }

  lemma Separated(a: string, b: string, a': string, b': string)
    requires '\0' !in a && '\0' !in a' && a + ['\0'] + b == a' + ['\0'] + b'
    ensures a == a' && b == b'
  {
    FoundNul(a, b);
    FoundNul(a', b');
    var t := a + ['\0'] + b;
    assert a == t[..|a|] && a' == t[..|a|];
    assert b == t[|a| + 1..] && b' == t[|a| + 1..];
  }

  // ---- runs ----

  predicate Legal(d: Digest, s: State, steps: seq<Step>)
    decreases steps
  {
    steps == [] || (Enabled(s, steps[0]) && Legal(d, Do(d, s, steps[0]), steps[1..]))
  }

  function Run(d: Digest, s: State, steps: seq<Step>): State
    requires Legal(d, s, steps)
    decreases steps
  {
    if steps == [] then s else Run(d, Do(d, s, steps[0]), steps[1..])
  }

  function CommitCount(steps: seq<Step>): nat {
    if steps == [] then 0 else (if Commits(steps[0]) then 1 else 0) + CommitCount(steps[1..])
  }

  /** Every start uses the same configured passwords. */
  predicate Fixed(steps: seq<Step>, env: Env) {
    forall i | 0 <= i < |steps| && steps[i].Boot? :: steps[i].env == env
  }

  // ---- leases of older generations ----

  predicate AllCurrent(s: State) {
    forall k | k in s.db.leases :: s.db.leases[k].generation == Generation(s)
  }

  /** Stored leases are of the current generation, unless a rotating start still has to clear them. */
  predicate LeasesCurrent(s: State) {
    (s.process.Booting? && s.process.changed) || AllCurrent(s)
  }

  /** Leases of an older generation are left over by a crash between the two transactions of a rotating start only. */
  lemma LeasesStep(d: Digest, s: State, step: Step)
    requires Inv(d, s) && LeasesCurrent(s) && Enabled(s, step)
    ensures LeasesCurrent(Do(d, s, step))
       <==> !(step.Crash? && s.process.Booting? && s.process.changed && !AllCurrent(s))
  {
  }

  /** The lease `h` of channel `k` is left over from an older generation. */
  predicate LeftOver(s: State, k: nat, h: Held) {
    k in s.db.leases && s.db.leases[k] == h && h.generation < Generation(s)
  }

  /**
    What takes a left-over lease away: the reconciliation of a start if it was joined, a new lease
    or a release on its channel, a rotation.
   */
  predicate Removes(step: Step, k: nat, h: Held) {
    || (step.BootDone? && h.joined)
    || step == IssueLease(k) || step == ReleaseLease(k)
    || step == ClearLeases || step == RotateRooms(true)
  }

  lemma LeftOverStep(d: Digest, s: State, step: Step, k: nat, h: Held)
    requires Inv(d, s) && h.generation < Generation(s) && Enabled(s, step)
    ensures LeftOver(Do(d, s, step), k, h) <==> LeftOver(s, k, h) && !Removes(step, k, h)
    ensures h.generation < Generation(Do(d, s, step))
  {
    GenerationStep(d, s, step);
  }

  predicate NoneRemoves(steps: seq<Step>, k: nat, h: Held) {
    steps == [] || (!Removes(steps[0], k, h) && NoneRemoves(steps[1..], k, h))
  }

  /** A left-over lease stays exactly until the first of these, and does not come back. */
  lemma {:induction false} LeftOverUntil(d: Digest, s: State, steps: seq<Step>, k: nat, h: Held)
    requires Inv(d, s) && h.generation < Generation(s) && Legal(d, s, steps)
    ensures LeftOver(Run(d, s, steps), k, h) <==> LeftOver(s, k, h) && NoneRemoves(steps, k, h)
    decreases steps
  {
    if steps != [] {
      StepKeepsInv(d, s, steps[0]);
      LeftOverStep(d, s, steps[0], k, h);
      LeftOverUntil(d, Do(d, s, steps[0]), steps[1..], k, h);
    }
  }

  /** So a server that has come up has no left-over lease but unjoined ones. */
  lemma LeftOverIsUnjoined(d: Digest, s: State, present: set<nat>, k: nat)
    requires Inv(d, s) && Enabled(s, BootDone(present)) && k in Do(d, s, BootDone(present)).db.leases
    ensures var h := Do(d, s, BootDone(present)).db.leases[k]; h.generation < Generation(s) ==> !h.joined
  {
  }

  /** A run that leaves a lease over: a crash between the two transactions, and the next start is an ordinary one. */
  lemma LeaseLeftOver(d: Digest) returns (steps: seq<Step>)
    requires Hash(d, "aaaa", "bbbb") != Hash(d, "aaaa", "cccc")
    ensures Legal(d, Fresh(Env("aaaa", "bbbb")), steps)
    ensures var s := Run(d, Fresh(Env("aaaa", "bbbb")), steps);
            s.process.Up? && LeftOver(s, 0, Held(1, false)) && Generation(s) == 2
  {
    var a, b := Env("aaaa", "bbbb"), Env("aaaa", "cccc");
    var s1 := Do(d, Fresh(a), Boot(a));
    var s2 := Do(d, s1, BootDone({}));
    var s3 := Do(d, s2, IssueLease(0));
    var s4 := Do(d, s3, Crash);
    var s5 := Do(d, s4, Boot(b));
    var s6 := Do(d, s5, Crash);
    var s7 := Do(d, s6, Boot(b));
    var s8 := Do(d, s7, BootDone({}));
    steps := [];
    Prepend(d, s7, BootDone({}), steps); steps := [BootDone({})] + steps;
    Prepend(d, s6, Boot(b), steps); steps := [Boot(b)] + steps;
    Prepend(d, s5, Crash, steps); steps := [Crash] + steps;
    Prepend(d, s4, Boot(b), steps); steps := [Boot(b)] + steps;
    Prepend(d, s3, Crash, steps); steps := [Crash] + steps;
    Prepend(d, s2, IssueLease(0), steps); steps := [IssueLease(0)] + steps;
    Prepend(d, s1, BootDone({}), steps); steps := [BootDone({})] + steps;
    Prepend(d, Fresh(a), Boot(a), steps); steps := [Boot(a)] + steps;
  }

  /** With fixed configuration: sound, distinct, leases current, and the generation counts the committed changes. */
  lemma {:induction false} FixedRun(d: Digest, s: State, env: Env, steps: seq<Step>)
    requires Inv(d, s) && Distinct(s) && AllCurrent(s) && s.env == env
    requires s.process.Booting? ==> !s.process.changed
    requires Legal(d, s, steps) && Fixed(steps, env)
    ensures var s' := Run(d, s, steps);
            && Inv(d, s') && Distinct(s') && AllCurrent(s')
            && Generation(s') == Generation(s) + CommitCount(steps) + if s.db.row.None? && steps != [] then 1 else 0
    decreases steps
  {
    if steps != [] {
      var step := steps[0];
      StepKeepsInv(d, s, step);
      DistinctStep(d, s, step);
      GenerationStep(d, s, step);
      LeasesStep(d, s, step);
      FixedRun(d, Do(d, s, step), env, steps[1..]);
    }
  }

  /** From an empty database, through any crashes and changes. */
  lemma CrashConsistent(d: Digest, env: Env, steps: seq<Step>)
    requires env.send != env.admin && steps != []
    requires Legal(d, Fresh(env), steps) && Fixed(steps, env)
    ensures var s := Run(d, Fresh(env), steps);
            && HashFits(d, s) && Distinct(s) && AllCurrent(s)
            && Generation(s) == 1 + CommitCount(steps)
  {
    FixedRun(d, Fresh(env), env, steps);
  }

  /** What happens to single leases, and that nothing else changes. */
  lemma SingleLeases(d: Digest, s: State, k: nat)
    requires s.process.Up?
    ensures Do(d, s, IssueLease(k)) == s.(db := s.db.(leases := s.db.leases[k := Held(s.process.m.generation, false)]))
    ensures Do(d, s, ReleaseLease(k)) == s.(db := s.db.(leases := s.db.leases - {k}))
    ensures k in s.db.leases && s.db.leases[k].generation == s.process.m.generation ==>
              var joined := Held(s.process.m.generation, true);
              Do(d, s, JoinLease(k)) == s.(db := s.db.(leases := s.db.leases[k := joined]))
    ensures Do(d, s, Crash) == s.(process := Off)
  {
  }

  // ---- the server's own operations ----

  datatype Outcome = Changed | SamePassword | RoomsFailed

  /** The server's fields and the database behind it, between two operations. */
  class AppState {
    const d: Digest
    const env: Env
    var sendPassword: string
    var adminPassword: string
    var generation: nat
    var db: Db
    var process: Process
    /** What was configured at the latest start on this database. */
    ghost var last: Env

    ghost function Now(): State
      reads this
    {
      State(db, last, process)
    }

    ghost predicate Valid()
      reads this
    {
      && Inv(d, Now())
      && (!process.Off? ==> last == env)
      && (process.Up? || process.Booting? ==> process.m == Memory(sendPassword, adminPassword, generation))
    }

    /** Reads the passwords; a stored one wins over the configured one. */
    constructor (d: Digest, env: Env, db: Db, ghost last: Env)
      requires Inv(d, State(db, last, Off))
      ensures Valid() && this.d == d && this.env == env && Now() == State(db, last, Off)
      ensures sendPassword == Effective(db.send, env.send) && adminPassword == Effective(db.admin, env.admin)
    {
      this.d, this.env, this.db, this.last, process := d, env, db, last, Off;
      sendPassword := Effective(db.send, env.send);
      adminPassword := Effective(db.admin, env.admin);
      generation := 1;
    }

    /** Chooses the generation and clears the leases of an older one; two transactions. */
    method Bootstrap()
      requires Valid() && process.Off? && env.send != env.admin
      requires sendPassword == Effective(db.send, env.send) && adminPassword == Effective(db.admin, env.admin)
      modifies this
      ensures Valid() && process.Booting? && !process.changed
      ensures var s := Do(d, old(Now()), Boot(env));
              Now() == if s.process.changed then Do(d, s, ClearLeases) else s
      ensures db.leases == if Rotates(d, old(Now()), Boot(env)) then map[] else old(db).leases
    {
      StepKeepsInv(d, Now(), Boot(env));
      last := env;
      var newHash := Hash(d, sendPassword, adminPassword);
      var changed := false;
      if db.row.None? {
        generation := 1;
      } else if db.row.value.hash != newHash {
        generation := db.row.value.value + 1;
        changed := true;
      } else {
        generation := db.row.value.value;
      }
      db := db.(row := Some(Row(generation, newHash)));
      if changed {
        db := db.(leases := map[]);
      }
      process := Booting(Memory(sendPassword, adminPassword, generation), false);
    }

    /** Password and hash are stored together; the generation stays. */
    method ChangeAdminPassword(new_: string) returns (r: Outcome)
      requires Valid() && process.Up? && new_ != ""
      modifies this
      ensures Valid() && process.Up? && (r.Changed? ==> Distinct(Now()))
      ensures r == if new_ == old(sendPassword) then SamePassword else Changed
      ensures r.Changed? ==> Now() == Do(d, Do(d, old(Now()), ChangeAdmin(new_)), Assign)
      ensures r.SamePassword? ==> Now() == old(Now()) && Now() == Do(d, old(Now()), ChangeAdmin(new_))
      ensures generation == old(generation) && sendPassword == old(sendPassword)
      ensures adminPassword == if r.Changed? then new_ else old(adminPassword)
    {
      if new_ == sendPassword {
        return SamePassword;
      }
      ChangeKeeps(d, Now(), ChangeAdmin(new_));
      db := db.(admin := Some(new_), row := Some(Row(generation, Hash(d, sendPassword, new_))));
      adminPassword := new_;
      process := Up(Memory(sendPassword, adminPassword, generation));
      return Changed;
    }

    /** Rooms first, which may fail; then password, next generation and lease removal in one transaction. */
    method ChangeSendPassword(new_: string, roomsOk: bool) returns (r: Outcome)
      requires Valid() && process.Up? && new_ != ""
      modifies this
      ensures Valid() && process.Up? && (r.Changed? ==> Distinct(Now()))
      ensures r == if new_ == old(adminPassword) then SamePassword else if roomsOk then Changed else RoomsFailed
      ensures r.Changed? ==>
        Now() == Do(d, Do(d, Do(d, old(Now()), ChangeSend(new_)), RotateRooms(true)), Assign)
      ensures !r.Changed? ==> Now() == old(Now())
      ensures r.SamePassword? ==> Now() == Do(d, old(Now()), ChangeSend(new_))
      ensures r.RoomsFailed? ==> Now() == Do(d, Do(d, old(Now()), ChangeSend(new_)), RotateRooms(false))
      ensures generation == old(generation) + if r.Changed? then 1 else 0
      ensures adminPassword == old(adminPassword) && sendPassword == if r.Changed? then new_ else old(sendPassword)
    {
      if new_ == adminPassword {
        return SamePassword;
      }
      if !roomsOk {
        return RoomsFailed;
      }
      var s1 := Do(d, Now(), ChangeSend(new_));
      StepKeepsInv(d, Now(), ChangeSend(new_));
      ChangeKeeps(d, s1, RotateRooms(true));
      var newGen := generation + 1;
      db := db.(send := Some(new_), row := Some(Row(newGen, Hash(d, new_, adminPassword))), leases := map[]);
      sendPassword := new_;
      generation := newGen;
      process := Up(Memory(sendPassword, adminPassword, generation));
      return Changed;
    }
  }

  lemma ChangeKeeps(d: Digest, s: State, step: Step)
    requires Inv(d, s) && Enabled(s, step) && Enabled(Do(d, s, step), Assign)
    ensures Inv(d, Do(d, Do(d, s, step), Assign)) && Distinct(Do(d, Do(d, s, step), Assign))
  {
    StepKeepsInv(d, s, step);
    StepKeepsInv(d, Do(d, s, step), Assign);
  }
}
