/**
  The usage ledger and the reporter that drains it.

  A session row opens, ends, is pushed (or given up) and is finally purged. Row ids are never
  reused, so the table is a sequence indexed by id in which purged rows keep their place.
*/
module Usage {
  import opened Common

  const BATCH_SIZE := 100
  const MAX_ATTEMPTS := 10

  datatype Row = Row(
    subject: string, channel: Option<int>, started: real,
    ended: Option<real>, pushed: Option<real>, attempts: nat, purged: bool)

  predicate Open(r: Row) {
    !r.purged && r.ended.None?
  }

  predicate Pending(r: Row) {
    !r.purged && r.ended.Some? && r.pushed.None?
  }

  /** A row only moves forward: what is set stays, and only pushed rows are purged. */
  predicate Advances(r: Row, r': Row) {
    && r'.subject == r.subject && r'.channel == r.channel && r'.started == r.started
    && (r.ended.Some? ==> r'.ended == r.ended)
    && (r.pushed.Some? ==> r'.pushed == r.pushed && r'.attempts == r.attempts)
    && r.attempts <= r'.attempts
    && (r.purged ==> r' == r)
    && (r'.purged && !r.purged ==> r.pushed.Some?)
  }

  predicate AllAdvance(rows: seq<Row>, rows': seq<Row>) {
    && |rows| <= |rows'|
    && forall i | 0 <= i < |rows| :: Advances(rows[i], rows'[i])
  }

  /** A subject has at most one open session; given-up rows are those with `MAX_ATTEMPTS` failures. */
  predicate TableOk(rows: seq<Row>) {
    && (forall i, j | 0 <= i < j < |rows| && Open(rows[i]) && Open(rows[j]) ::
          rows[i].subject != rows[j].subject)
    && (forall i | 0 <= i < |rows| ::
          rows[i].attempts <= MAX_ATTEMPTS && (rows[i].pushed.Some? ==> rows[i].ended.Some?))
  }

  // ---- one flush, as a relation between tables ----

  /** A batch: at most `BATCH_SIZE` pending rows, the oldest ones, and all of them if fewer. */
  predicate IsBatch(rows: seq<Row>, batch: set<nat>) {
    && (forall i | i in batch :: i < |rows| && Pending(rows[i]))
    && |batch| <= BATCH_SIZE
    && (|batch| < BATCH_SIZE ==> forall i | 0 <= i < |rows| && Pending(rows[i]) :: i in batch)
    && (forall i, j | i in batch && 0 <= j < |rows| && j !in batch && Pending(rows[j]) ::
          rows[i].ended.value <= rows[j].ended.value)
  }

  /** What a flush does to one row of its batch. */
  function FlushedRow(r: Row, posted: bool, now: real): Row {
    if posted || r.attempts >= MAX_ATTEMPTS then r.(pushed := Some(now))
    else r.(attempts := r.attempts + 1)
  }

  predicate Flushed(rows: seq<Row>, rows': seq<Row>, batch: set<nat>, posted: bool) {
    && IsBatch(rows, batch)
    && |rows'| == |rows|
    && forall i | 0 <= i < |rows| ::
         rows'[i] == if i in batch then FlushedRow(rows[i], posted, rows'[i].pushed.GetOr(0.0)) else rows[i]
  }

  // ---- draining ----

  /** How many more flushes a row can need. */
  function Left(r: Row): nat {
    if Pending(r) && r.attempts <= MAX_ATTEMPTS then MAX_ATTEMPTS + 1 - r.attempts else 0
  }

  function TotalLeft(rows: seq<Row>, n: nat): nat
    requires n <= |rows|
  {
    if n == 0 then 0 else TotalLeft(rows, n - 1) + Left(rows[n - 1])
  }

  function PendingCount(rows: seq<Row>, n: nat): nat
    requires n <= |rows|
  {
    if n == 0 then 0 else PendingCount(rows, n - 1) + if Pending(rows[n - 1]) then 1 else 0
  }

  predicate AttemptsOk(rows: seq<Row>) {
    forall i | 0 <= i < |rows| && Pending(rows[i]) :: rows[i].attempts <= MAX_ATTEMPTS
  }

  lemma {:induction false} LeftBound(rows: seq<Row>, n: nat)
    requires n <= |rows|
    ensures TotalLeft(rows, n) <= (MAX_ATTEMPTS + 1) * PendingCount(rows, n)
  {
    if n > 0 {
      LeftBound(rows, n - 1);
    }
  }

  /** The ids below `n` of a batch. */
  function Below(batch: set<nat>, n: nat): set<nat> {
    set i | i in batch && i < n
  }

  /** A flush takes at least one from every row of its batch, so the total drops by its size. */
  lemma {:induction false} TotalDrops(rows: seq<Row>, rows': seq<Row>, batch: set<nat>, posted: bool, n: nat)
    requires Flushed(rows, rows', batch, posted) && AttemptsOk(rows) && n <= |rows|
    ensures TotalLeft(rows', n) + |Below(batch, n)| <= TotalLeft(rows, n)
  {
    if n == 0 {
      assert Below(batch, 0) == {};
    } else {
      TotalDrops(rows, rows', batch, posted, n - 1);
      RowDrops(rows, rows', batch, posted, n - 1);
      BelowNext(batch, n - 1);
    }
  }

  lemma BelowNext(batch: set<nat>, n: nat)
    ensures |Below(batch, n + 1)| == |Below(batch, n)| + if n in batch then 1 else 0
  {
    assert Below(batch, n + 1) == Below(batch, n) + if n in batch then {n} else {};
  }

  lemma RowDrops(rows: seq<Row>, rows': seq<Row>, batch: set<nat>, posted: bool, i: nat)
    requires Flushed(rows, rows', batch, posted) && AttemptsOk(rows) && i < |rows|
    ensures Left(rows'[i]) <= Left(rows[i])
    ensures i in batch ==> Left(rows'[i]) < Left(rows[i])
    ensures Pending(rows'[i]) ==> Pending(rows[i]) && rows'[i].attempts <= MAX_ATTEMPTS
    ensures Advances(rows[i], rows'[i])
  {
    assert rows'[i] == if i in batch then FlushedRow(rows[i], posted, rows'[i].pushed.GetOr(0.0)) else rows[i];
  }

  /** One flush makes progress: the total drops by a full batch, or every pending row drops by one. */
  lemma FlushProgress(rows: seq<Row>, rows': seq<Row>, batch: set<nat>, posted: bool, b: nat)
    requires Flushed(rows, rows', batch, posted) && AttemptsOk(rows)
    requires LeftAtMost(rows, b)
    ensures AttemptsOk(rows')
    ensures TotalLeft(rows', |rows'|) <= TotalLeft(rows, |rows|) && LeftAtMost(rows', b)
    ensures || TotalLeft(rows', |rows'|) + BATCH_SIZE <= TotalLeft(rows, |rows|)
            || LeftAtMost(rows', if b == 0 then 0 else b - 1)
  {
    forall i | 0 <= i < |rows|
      ensures Left(rows'[i]) <= Left(rows[i])
      ensures i in batch ==> Left(rows'[i]) < Left(rows[i])
      ensures Pending(rows'[i]) ==> rows'[i].attempts <= MAX_ATTEMPTS
    {
      RowDrops(rows, rows', batch, posted, i);
    }
    TotalDrops(rows, rows', batch, posted, |rows|);
    assert Below(batch, |rows|) == batch;
  }

  ghost predicate Flushes(rows: seq<Row>, rows': seq<Row>) {
    exists batch, posted :: Flushed(rows, rows', batch, posted)
  }

  /** Consecutive tables of a run of flushes in which no session ends meanwhile. */
  ghost predicate FlushRun(tables: seq<seq<Row>>) {
    forall k | 0 < k < |tables| :: Flushes(tables[k - 1], tables[k])
  }

  predicate NonePending(rows: seq<Row>) {
    forall i | 0 <= i < |rows| :: !Pending(rows[i])
  }

  predicate LeftAtMost(rows: seq<Row>, b: nat) {
    forall i | 0 <= i < |rows| :: Left(rows[i]) <= b
  }

  lemma {:induction false} NothingLeft(rows: seq<Row>, n: nat)
    requires n <= |rows| && LeftAtMost(rows, 0)
    ensures TotalLeft(rows, n) == 0
  {
    if n > 0 {
      NothingLeft(rows, n - 1);
    }
  }

  lemma {:induction false} DrainFrom(tables: seq<seq<Row>>, m: nat, b: nat)
    requires tables != [] && FlushRun(tables) && AttemptsOk(tables[0])
    requires TotalLeft(tables[0], |tables[0]|) <= m && LeftAtMost(tables[0], b)
    requires |tables| - 1 >= m / BATCH_SIZE + b
    ensures NonePending(tables[|tables| - 1])
    decreases |tables|
  {
    var rows := tables[0];
    if |tables| == 1 {
      assert forall i | 0 <= i < |rows| :: Left(rows[i]) == 0;
    } else {
      var rows', rest := tables[1], tables[1..];
      assert Flushes(tables[1 - 1], tables[1]);
      assert FlushRun(rest) by {
        assert forall k | 0 < k < |rest| :: rest[k] == tables[k + 1] && Flushes(tables[k + 1 - 1], tables[k + 1]);
      }
      var batch, posted :| Flushed(rows, rows', batch, posted);
      FlushProgress(rows, rows', batch, posted, b);
      if TotalLeft(rows', |rows'|) + BATCH_SIZE <= TotalLeft(rows, |rows|) {
        DrainFrom(rest, m - BATCH_SIZE, b);
      } else if b > 0 {
        DrainFrom(rest, m, b - 1);
      } else {
        NothingLeft(rows', |rows'|);
        DrainFrom(rest, 0, 0);
      }
    }
  }

  /**
    With `n` pending sessions and no new ones, any mix of successes and failures empties the queue
    within `floor(11 n / 100) + 11` flushes.
   */
  lemma QueueDrains(tables: seq<seq<Row>>, n: nat)
    requires tables != [] && FlushRun(tables) && AttemptsOk(tables[0])
    requires PendingCount(tables[0], |tables[0]|) == n
    requires |tables| - 1 >= (11 * n) / 100 + 11
    ensures NonePending(tables[|tables| - 1])
  {
    LeftBound(tables[0], |tables[0]|);
    DrainFrom(tables, 11 * n, 11);
  }

  // ---- posts over whole runs ----

  /**
    What happened to one session: how often it was sent, how often a restart lost the answer, and
    whether an answer said that it was accepted.
   */
  datatype Story = Story(posts: nat, crashed: nat, accepted: bool)

  /** The table, the story of each row, and the ids of the post that is under way. */
  datatype State = State(rows: seq<Row>, stories: seq<Story>, flying: set<nat>)

  const FRESH := State([], [], {})

  datatype Step =
    | StartSession(subject: string, channel: Option<int>, now: real)
    | EndSessions(which: Row -> bool, at: Row -> real)
    | PurgePushed(cutoff: real)
    | GiveUp(batch: set<nat>, now: real)
    | Post(batch: set<nat>, now: real)
    | Answer(posted: bool, now: real)
    | Restart

  function Update<T>(ts: seq<T>, ids: set<nat>, f: T -> T): (r: seq<T>)
    ensures |r| == |ts|
    ensures forall i | 0 <= i < |ts| :: r[i] == if i in ids then f(ts[i]) else ts[i]
  {
    seq(|ts|, i requires 0 <= i < |ts| => if i in ids then f(ts[i]) else ts[i])
  }

  predicate HasOpen(rows: seq<Row>, subject: string) {
    exists i | 0 <= i < |rows| :: Open(rows[i]) && rows[i].subject == subject
  }

  function Exhausted(rows: seq<Row>, batch: set<nat>): set<nat> {
    set i | i in batch && i < |rows| && rows[i].attempts >= MAX_ATTEMPTS
  }

  function Sendable(rows: seq<Row>, batch: set<nat>): set<nat> {
    set i | i in batch && i < |rows| && rows[i].attempts < MAX_ATTEMPTS
  }

  /** Deleted rows are out of reach of an update. */
  function Pushed(r: Row, now: real): Row {
    if r.purged then r else r.(pushed := Some(now))
  }

  function Bumped(r: Row): Row {
    if r.purged then r else r.(attempts := r.attempts + 1)
  }

  function Opened(subject: string, channel: Option<int>, now: real): Row {
    Row(subject, channel, now, None, None, 0, false)
  }

  function EndedRow(r: Row, which: Row -> bool, at: Row -> real): Row {
    if Open(r) && which(r) then r.(ended := Some(at(r))) else r
  }

  function PurgedRow(r: Row, cutoff: real): Row {
    r.(purged := r.purged || (r.pushed.Some? && r.pushed.value < cutoff))
  }

  function Each(rows: seq<Row>, f: Row -> Row): (r: seq<Row>)
    ensures |r| == |rows|
    ensures forall i | 0 <= i < |rows| :: r[i] == f(rows[i])
  {
    seq(|rows|, i requires 0 <= i < |rows| => f(rows[i]))
  }

  /** A process has at most one flush under way. */
  predicate Enabled(s: State, step: Step) {
    step.Post? || step.GiveUp? ==> s.flying == {} && IsBatch(s.rows, step.batch)
  }

  /** `GiveUp` alone is a flush that has nothing to send, or that crashes before it sends. */
  function Do(s: State, step: Step): State
    requires Enabled(s, step)
  {
    match step
    case StartSession(subject, channel, now) =>
      if HasOpen(s.rows, subject) then s
      else s.(rows := s.rows + [Opened(subject, channel, now)], stories := s.stories + [Story(0, 0, false)])
    case EndSessions(which, at) => s.(rows := Each(s.rows, (r: Row) => EndedRow(r, which, at)))
    case PurgePushed(cutoff) => s.(rows := Each(s.rows, (r: Row) => PurgedRow(r, cutoff)))
    case GiveUp(batch, now) => s.(rows := Update(s.rows, Exhausted(s.rows, batch), (r: Row) => Pushed(r, now)))
    case Post(batch, now) =>
      State(Update(s.rows, Exhausted(s.rows, batch), (r: Row) => Pushed(r, now)),
            Update(s.stories, Sendable(s.rows, batch), (t: Story) => t.(posts := t.posts + 1)),
            Sendable(s.rows, batch))
    case Answer(posted, now) =>
      if posted
      then State(Update(s.rows, s.flying, (r: Row) => Pushed(r, now)),
                 Update(s.stories, s.flying, (t: Story) => t.(accepted := true)), {})
      else s.(rows := Update(s.rows, s.flying, (r: Row) => Bumped(r)), flying := {})
    case Restart =>
      s.(stories := Update(s.stories, s.flying, (t: Story) => t.(crashed := t.crashed + 1)), flying := {})
  }

  function Flag(b: bool): nat {
    if b then 1 else 0
  }

  /** Every post is a failed attempt, one whose answer was lost, the accepted one, or under way. */
  predicate StoryFits(r: Row, t: Story, flying: bool) {
    && t.posts == r.attempts + t.crashed + Flag(t.accepted) + Flag(flying)
    && r.attempts <= MAX_ATTEMPTS
    && (t.accepted ==> r.pushed.Some? && r.attempts < MAX_ATTEMPTS)
    && (r.pushed.Some? && !t.accepted ==> r.attempts == MAX_ATTEMPTS)
    && (flying ==> Pending(r) && r.attempts < MAX_ATTEMPTS)
    && (r.pushed.Some? ==> r.ended.Some?)
    && (r.purged ==> r.pushed.Some?)
  }

  ghost predicate Sound(s: State) {
    && |s.stories| == |s.rows|
    && (forall i | i in s.flying :: i < |s.rows|)
    && forall i | 0 <= i < |s.rows| :: StoryFits(s.rows[i], s.stories[i], i in s.flying)
  }

  lemma StepRow(s: State, step: Step, i: nat)
    requires Sound(s) && Enabled(s, step) && i < |s.rows|
    ensures var s' := Do(s, step);
            && |s.rows| <= |s'.rows| && |s'.stories| == |s'.rows|
            && StoryFits(s'.rows[i], s'.stories[i], i in s'.flying)
            && Advances(s.rows[i], s'.rows[i])
    ensures s.rows[i].pushed.Some? ==> Do(s, step).stories[i] == s.stories[i] && i !in Do(s, step).flying
  {
    assert StoryFits(s.rows[i], s.stories[i], i in s.flying);
  }

  lemma StepSound(s: State, step: Step)
    requires Sound(s) && Enabled(s, step)
    ensures Sound(Do(s, step)) && AllAdvance(s.rows, Do(s, step).rows)
  {
    var s' := Do(s, step);
    forall i | 0 <= i < |s'.rows|
      ensures StoryFits(s'.rows[i], s'.stories[i], i in s'.flying)
    {
      if i < |s.rows| {
        StepRow(s, step, i);
      }
    }
    forall i | 0 <= i < |s.rows|
      ensures Advances(s.rows[i], s'.rows[i])
    {
      StepRow(s, step, i);
    }
  }

  ghost predicate Legal(s: State, steps: seq<Step>)
    decreases |steps|
  {
    |steps| == 0 || (Enabled(s, steps[0]) && Legal(Do(s, steps[0]), steps[1..]))
  }

  ghost function Run(s: State, steps: seq<Step>): State
    requires Legal(s, steps)
    decreases |steps|
  {
    if |steps| == 0 then s else Run(Do(s, steps[0]), steps[1..])
  }

  /** A purge deletes exactly the sessions pushed before its cutoff, and changes nothing else of any. */
  lemma PurgeExact(s: State, cutoff: real, i: nat)
    requires i < |s.rows|
    ensures var (r, s') := (s.rows[i], Do(s, PurgePushed(cutoff)));
            && |s'.rows| == |s.rows| && s'.stories == s.stories && s'.flying == s.flying
            && s'.rows[i] == r.(purged := r.purged || (r.pushed.Some? && r.pushed.value < cutoff))
  {
  }

  /** Neither half of a flush touches a session outside its batch; of the batch exactly the exhausted are given up. */
  lemma FlushRows(s: State, batch: set<nat>, posted: bool, now: real, later: real, i: nat)
    requires Sound(s) && Enabled(s, Post(batch, now)) && i < |s.rows|
    ensures var s1 := Do(s, Post(batch, now));
            && |s1.rows| == |s.rows|
            && s1.rows[i] == (if i in batch && s.rows[i].attempts >= 10
                              then s.rows[i].(pushed := Some(now)) else s.rows[i])
            && (i in s1.flying <==> i in batch && s.rows[i].attempts < 10)
            && var s2 := Do(s1, Answer(posted, later));
               && |s2.rows| == |s.rows| && s2.flying == {}
               && (i !in s1.flying ==> s2.rows[i] == s1.rows[i])
               && (i in s1.flying ==>
                     s2.rows[i] == if posted then s.rows[i].(pushed := Some(later))
                                   else s.rows[i].(attempts := s.rows[i].attempts + 1))
  {
  }

  /** In every run each post of a session is accounted for. */
  lemma {:induction false} PostsAccounted(s: State, steps: seq<Step>)
    requires Sound(s) && Legal(s, steps)
    ensures Sound(Run(s, steps)) && |s.rows| <= |Run(s, steps).rows|
    decreases |steps|
  {
    if |steps| > 0 {
      StepSound(s, steps[0]);
      PostsAccounted(Do(s, steps[0]), steps[1..]);
    }
  }

  /** A session that was accepted, or given up, is never posted again, whatever happens. */
  lemma {:induction false} NeverAgain(s: State, steps: seq<Step>, i: nat)
    requires Sound(s) && Legal(s, steps) && i < |s.rows| && s.rows[i].pushed.Some?
    ensures var s' := Run(s, steps);
            && i < |s'.rows| == |s'.stories| && s'.rows[i].pushed == s.rows[i].pushed
            && s'.stories[i] == s.stories[i] && i !in s'.flying
    decreases |steps|
  {
    assert StoryFits(s.rows[i], s.stories[i], i in s.flying);
    if |steps| > 0 {
      StepSound(s, steps[0]);
      StepRow(s, steps[0], i);
      NeverAgain(Do(s, steps[0]), steps[1..], i);
    }
  }

  /**
    When a session stays within the cap: in any run from an empty table, always if no restart lost
    one of its answers; a given-up session exactly then; an accepted one exactly if failures and
    lost answers together stay below the cap.
   */
  lemma PostCap(steps: seq<Step>, i: nat)
    requires Legal(FRESH, steps) && i < |Run(FRESH, steps).rows|
    ensures var s := Run(FRESH, steps);
            && |s.stories| == |s.rows|
            && var (r, t) := (s.rows[i], s.stories[i]);
               && (t.crashed == 0 ==> t.posts <= MAX_ATTEMPTS)
               && (r.pushed.Some? && !t.accepted ==> (t.posts <= MAX_ATTEMPTS <==> t.crashed == 0))
               && (t.accepted ==> (t.posts <= MAX_ATTEMPTS <==> r.attempts + t.crashed < MAX_ATTEMPTS))
  {
    PostsAccounted(FRESH, steps);
    var s := Run(FRESH, steps);
    assert StoryFits(s.rows[i], s.stories[i], i in s.flying);
  }

  // ---- more posts than the cap ----

  /** One session that has ended, with its story. */
  function One(attempts: nat, t: Story): State {
    State([Row("x", None, 0.0, Some(1.0), None, attempts, false)], [t], {})
  }

  lemma Prepend(s: State, step: Step, steps: seq<Step>)
    requires Enabled(s, step) && Legal(Do(s, step), steps)
    ensures Legal(s, [step] + steps) && Run(s, [step] + steps) == Run(Do(s, step), steps)
  {
    assert ([step] + steps)[1..] == steps;
  }

  lemma OneBatch(a: nat, t: Story)
    ensures IsBatch(One(a, t).rows, {0})
  {
    assert |{0}| == 1;
  }

  lemma OneFails(a: nat, t: Story)
    requires a < MAX_ATTEMPTS
    ensures Enabled(One(a, t), Post({0}, 2.0))
    ensures var sent := t.(posts := t.posts + 1);
            && Do(Do(One(a, t), Post({0}, 2.0)), Answer(false, 2.0)) == One(a + 1, sent)
            && Do(Do(One(a, t), Post({0}, 2.0)), Restart) == One(a, sent.(crashed := t.crashed + 1))
  {
    OneBatch(a, t);
    var s := Do(One(a, t), Post({0}, 2.0));
    assert Sendable(One(a, t).rows, {0}) == {0} && Exhausted(One(a, t).rows, {0}) == {};
    assert s.rows == One(a, t).rows && s.stories == [t.(posts := t.posts + 1)];
    assert Do(s, Answer(false, 2.0)).rows == One(a + 1, t).rows;
    assert Do(s, Restart).stories == [t.(posts := t.posts + 1, crashed := t.crashed + 1)];
  }

  /** The run ends with the one session given up, and this is its story. */
  ghost predicate GivesUp(s: State, steps: seq<Step>, t: Story) {
    Legal(s, steps)
    && var end := Run(s, steps); |end.rows| == 1 && end.rows[0].pushed.Some? && end.stories == [t]
  }

  function AfterPost(a: nat, t: Story, answer: Step): State {
    if answer.Restart? then One(a, t.(posts := t.posts + 1, crashed := t.crashed + 1))
    else One(a + 1, t.(posts := t.posts + 1))
  }

  /** A post with its answer, or with a restart instead, put in front of a run. */
  lemma PostFirst(a: nat, t: Story, answer: Step, rest: seq<Step>, u: Story) returns (steps: seq<Step>)
    requires a < MAX_ATTEMPTS && (answer == Answer(false, 2.0) || answer == Restart)
    requires GivesUp(AfterPost(a, t, answer), rest, u)
    ensures GivesUp(One(a, t), steps, u)
  {
    OneFails(a, t);
    Prepend(Do(One(a, t), Post({0}, 2.0)), answer, rest);
    Prepend(One(a, t), Post({0}, 2.0), [answer] + rest);
    steps := [Post({0}, 2.0)] + ([answer] + rest);
  }

  lemma GivingUp(t: Story) returns (steps: seq<Step>)
    ensures GivesUp(One(MAX_ATTEMPTS, t), steps, t)
  {
    var s := One(MAX_ATTEMPTS, t);
    OneBatch(MAX_ATTEMPTS, t);
    assert Exhausted(s.rows, {0}) == {0};
    assert Legal(Do(s, GiveUp({0}, 2.0)), []);
    Prepend(s, GiveUp({0}, 2.0), []);
    steps := [GiveUp({0}, 2.0)] + [];
  }

  /** Failing until it is given up. */
  lemma {:induction false} FailingOn(a: nat, t: Story) returns (steps: seq<Step>)
    requires a <= MAX_ATTEMPTS
    ensures GivesUp(One(a, t), steps, t.(posts := t.posts + MAX_ATTEMPTS - a))
    decreases MAX_ATTEMPTS - a
  {
    if a == MAX_ATTEMPTS {
      steps := GivingUp(t);
    } else {
      var sent := t.(posts := t.posts + 1);
      var rest := FailingOn(a + 1, sent);
      steps := PostFirst(a, t, Answer(false, 2.0), rest, sent.(posts := sent.posts + MAX_ATTEMPTS - (a + 1)));
    }
  }

  /** Losing `c` answers to restarts first. */
  lemma {:induction false} Crashing(c: nat, t: Story) returns (steps: seq<Step>)
    ensures GivesUp(One(0, t), steps, t.(posts := t.posts + c + MAX_ATTEMPTS, crashed := t.crashed + c))
    decreases c
  {
    if c == 0 {
      steps := FailingOn(0, t);
    } else {
      var sent := t.(posts := t.posts + 1, crashed := t.crashed + 1);
      var rest := Crashing(c - 1, sent);
      steps := PostFirst(0, t, Restart, rest,
                         sent.(posts := sent.posts + (c - 1) + MAX_ATTEMPTS, crashed := sent.crashed + (c - 1)));
    }
  }

  /** For every `c` there is a run in which one session is posted `c` times more than the cap. */
  lemma MorePosts(c: nat) returns (steps: seq<Step>)
    ensures Legal(FRESH, steps)
    ensures var s := Run(FRESH, steps);
            && |s.rows| == |s.stories| == 1
            && s.stories[0] == Story(MAX_ATTEMPTS + c, c, false) && s.rows[0].pushed.Some?
  {
    var open, end := StartSession("x", None, 0.0), EndSessions((r: Row) => true, (r: Row) => 1.0);
    var s := Do(FRESH, open);
    steps := Crashing(c, Story(0, 0, false));
    assert Do(s, end).rows == One(0, Story(0, 0, false)).rows;
    assert Do(s, end) == One(0, Story(0, 0, false));
    Prepend(s, end, steps);
    steps := [end] + steps;
    Prepend(FRESH, open, steps);
    steps := [open] + steps;
  }

  lemma ElevenPosts() returns (steps: seq<Step>)
    ensures Legal(FRESH, steps) && |Run(FRESH, steps).stories| == 1
    ensures Run(FRESH, steps).stories[0].posts == 11
  {
    steps := MorePosts(1);
  }

  // ---- the ledger ----

  /** The first `n` rows are as after ending, the others as before. */
  predicate EndedUpTo(rows: seq<Row>, rows': seq<Row>, which: Row -> bool, at: Row -> real, n: nat) {
    && |rows'| == |rows|
    && forall i | 0 <= i < |rows| :: rows'[i] == if i < n then EndedRow(rows[i], which, at) else rows[i]
  }

  lemma EndingOne(rows: seq<Row>, rows': seq<Row>, which: Row -> bool, at: Row -> real, n: nat)
    requires EndedUpTo(rows, rows', which, at, n) && n < |rows|
    ensures rows'[n] == rows[n]
    ensures EndedUpTo(rows, rows'[n := EndedRow(rows[n], which, at)], which, at, n + 1)
  {
  }

  class UsageLedger {
    var rows: seq<Row>
    ghost var stories: seq<Story>
    ghost var flying: set<nat>

    ghost function Now(): State
      reads this
    {
      State(rows, stories, flying)
    }

    ghost predicate Valid()
      reads this
    {
      TableOk(rows) && Sound(Now())
    }

    constructor ()
      ensures Valid() && Now() == FRESH
    {
      rows, stories, flying := [], [], {};
    }

    /** Opens a session unless the subject has an open one. */
    method OpenSession(subject: string, channel: Option<int>, now: real) returns (id: Option<nat>)
      requires Valid()
      modifies this
      ensures Valid() && Now() == Do(old(Now()), StartSession(subject, channel, now))
      ensures id.None? <==> exists i ::
                && 0 <= i < |old(rows)| && old(rows)[i].subject == subject
                && old(rows)[i].ended.None? && !old(rows)[i].purged
      ensures id.None? ==> rows == old(rows)
      ensures id.Some? ==> id.value == |old(rows)|
      ensures id.Some? ==> rows == old(rows) + [Row(subject, channel, now, None, None, 0, false)]
    {
      StepSound(Now(), StartSession(subject, channel, now));
      var i := 0;
      while i < |rows|
        invariant 0 <= i <= |rows| && Now() == old(Now())
        invariant forall j | 0 <= j < i :: !(Open(rows[j]) && rows[j].subject == subject)
      {
        if Open(rows[i]) && rows[i].subject == subject {
          return None;
        }
        i := i + 1;
      }
      id := Some(|rows|);
      rows := rows + [Opened(subject, channel, now)];
      stories := stories + [Story(0, 0, false)];
    }

    /** Ends every open session that `which` selects, at the time `at` gives for it. */
    method End(which: Row -> bool, at: Row -> real) returns (n: nat)
      requires Valid()
      modifies this`rows
      ensures Valid() && Now() == Do(old(Now()), EndSessions(which, at)) && AllAdvance(old(rows), rows)
      ensures n > 0 <==> exists i | 0 <= i < |rows| :: Open(old(rows)[i]) && which(old(rows)[i])
    {
      StepSound(Now(), EndSessions(which, at));
      n := 0;
      var i := 0;
      while i < |rows|
        invariant 0 <= i <= |rows| == |old(rows)|
        invariant EndedUpTo(old(rows), rows, which, at, i)
        invariant n > 0 <==> exists j | 0 <= j < i :: Open(old(rows)[j]) && which(old(rows)[j])
      {
        EndingOne(old(rows), rows, which, at, i);
        if Open(rows[i]) && which(rows[i]) {
          rows := rows[i := rows[i].(ended := Some(at(rows[i])))];
          n := n + 1;
        }
        i := i + 1;
      }
      assert rows == Do(old(Now()), EndSessions(which, at)).rows;
    }

    method CloseSession(subject: string, now: real) returns (closed: bool)
      requires Valid()
      modifies this`rows
      ensures Valid() && AllAdvance(old(rows), rows) && |rows| == |old(rows)|
      ensures forall i | 0 <= i < |rows| ::
                rows[i] == if Open(old(rows)[i]) && old(rows)[i].subject == subject
                           then old(rows)[i].(ended := Some(now)) else old(rows)[i]
      ensures closed <==> exists i | 0 <= i < |rows| :: Open(old(rows)[i]) && old(rows)[i].subject == subject
    {
      var n := End((r: Row) => r.subject == subject, (r: Row) => now);
      closed := n > 0;
    }

    method CloseForChannel(channel: int, now: real) returns (n: nat)
      requires Valid()
      modifies this`rows
      ensures Valid() && AllAdvance(old(rows), rows) && |rows| == |old(rows)|
      ensures forall i | 0 <= i < |rows| ::
                rows[i] == if Open(old(rows)[i]) && old(rows)[i].channel == Some(channel)
                           then old(rows)[i].(ended := Some(now)) else old(rows)[i]
    {
      n := End((r: Row) => r.channel == Some(channel), (r: Row) => now);
    }

    /** Ends sessions open for longer than `max`, charging them exactly `max`. */
    method CloseStale(max: real, now: real) returns (n: nat)
      requires Valid()
      modifies this`rows
      ensures Valid() && AllAdvance(old(rows), rows) && |rows| == |old(rows)|
      ensures forall i | 0 <= i < |rows| ::
                rows[i] == if Open(old(rows)[i]) && old(rows)[i].started < now - max
                           then old(rows)[i].(ended := Some(old(rows)[i].started + max)) else old(rows)[i]
    {
      n := End((r: Row) => r.started < now - max, (r: Row) => r.started + max);
    }

    /** Deletes pushed rows past their retention. */
    method Purge(retention: real, now: real)
      requires Valid()
      modifies this`rows
      ensures Valid() && Now() == Do(old(Now()), PurgePushed(now - retention)) && AllAdvance(old(rows), rows)
      ensures |rows| == |old(rows)|
      ensures forall i | 0 <= i < |rows| ::
                var r := old(rows)[i];
                && rows[i] == r.(purged := rows[i].purged)
                && (rows[i].purged <==> r.purged || (r.pushed.Some? && r.pushed.value < now - retention))
    {
      StepSound(Now(), PurgePushed(now - retention));
      var i := 0;
      while i < |rows|
        invariant 0 <= i <= |rows| == |old(rows)|
        invariant forall j | 0 <= j < |rows| ::
                    rows[j] == if j < i then PurgedRow(old(rows)[j], now - retention) else old(rows)[j]
      {
        rows := rows[i := PurgedRow(rows[i], now - retention)];
        i := i + 1;
      }
      assert rows == Do(old(Now()), PurgePushed(now - retention)).rows;
    }

    /** The oldest pending row outside `batch`. */
    method Oldest(batch: set<nat>) returns (best: Option<nat>)
      ensures best.None? ==> forall i | 0 <= i < |rows| && Pending(rows[i]) :: i in batch
      ensures best.Some? ==> best.value < |rows| && best.value !in batch && Pending(rows[best.value])
      ensures best.Some? ==> forall i | 0 <= i < |rows| && i !in batch && Pending(rows[i]) ::
                rows[best.value].ended.value <= rows[i].ended.value
    {
      best := None;
      var i := 0;
      while i < |rows|
        invariant 0 <= i <= |rows|
        invariant best.None? ==> forall j | 0 <= j < i && Pending(rows[j]) :: j in batch
        invariant best.Some? ==> best.value < |rows| && best.value !in batch && Pending(rows[best.value])
        invariant best.Some? ==> forall j | 0 <= j < i && j !in batch && Pending(rows[j]) ::
                    rows[best.value].ended.value <= rows[j].ended.value
      {
        if i !in batch && Pending(rows[i])
           && (best.None? || rows[i].ended.value < rows[best.value].ended.value) {
          best := Some(i);
        }
        i := i + 1;
      }
    }

    /** The pending rows of one batch, oldest first. */
    method PendingSessions() returns (batch: set<nat>)
      ensures IsBatch(rows, batch)
    {
      batch := {};
      while |batch| < BATCH_SIZE
        invariant |batch| <= BATCH_SIZE
        invariant forall i | i in batch :: i < |rows| && Pending(rows[i])
        invariant forall i, j | i in batch && 0 <= j < |rows| && j !in batch && Pending(rows[j]) ::
                    rows[i].ended.value <= rows[j].ended.value
        decreases BATCH_SIZE - |batch|
      {
        var best := Oldest(batch);
        if best.None? {
          return;
        }
        batch := batch + {best.value};
      }
    }

    /** Takes the rows out of the queue: no batch can hold one of them any more. */
    method MarkPushed(ids: set<nat>, now: real)
      modifies this`rows
      ensures |rows| == |old(rows)|
      ensures forall i | 0 <= i < |rows| :: rows[i] == if i in ids && !old(rows)[i].purged
                           then old(rows)[i].(pushed := Some(now)) else old(rows)[i]
      ensures forall i | 0 <= i < |rows| :: Pending(rows[i]) <==> Pending(old(rows)[i]) && i !in ids
      ensures (forall i | i in ids && i < |rows| :: Pending(old(rows)[i])) ==> AllAdvance(old(rows), rows)
    {
      rows := Update(rows, ids, (r: Row) => Pushed(r, now));
    }

    /** Leaves the rows in the queue, with one flush less to go. */
    method BumpAttempts(ids: set<nat>)
      modifies this`rows
      ensures |rows| == |old(rows)|
      ensures forall i | 0 <= i < |rows| :: rows[i] == if i in ids && !old(rows)[i].purged
                           then old(rows)[i].(attempts := old(rows)[i].attempts + 1) else old(rows)[i]
      ensures forall i | 0 <= i < |rows| :: Pending(rows[i]) <==> Pending(old(rows)[i])
      ensures forall i | 0 <= i < |rows| && Left(old(rows)[i]) > 0 ::
                Left(rows[i]) == Left(old(rows)[i]) - if i in ids then 1 else 0
      ensures (forall i | i in ids && i < |rows| :: Pending(old(rows)[i])) ==> AllAdvance(old(rows), rows)
    {
      rows := Update(rows, ids, (r: Row) => Bumped(r));
    }

    /** The process restarts: the answer to a post under way is lost, the table stays. */
    ghost method Restart()
      requires Valid()
      modifies this`stories, this`flying
      ensures Valid() && Now() == Do(old(Now()), Step.Restart)
    {
      StepSound(Now(), Step.Restart);
      stories, flying := Do(Now(), Step.Restart).stories, {};
    }
  }

  /** The exhausted rows of a batch are marked pushed, nothing else changes. */
  predicate GivenUp(rows: seq<Row>, rows': seq<Row>, batch: set<nat>, now: real) {
    && |rows'| == |rows|
    && forall i | 0 <= i < |rows| ::
         rows'[i] == if i in batch && rows[i].attempts >= MAX_ATTEMPTS
                     then rows[i].(pushed := Some(now)) else rows[i]
  }

  /** The posted rows are marked pushed or count one more failure, nothing else changes. */
  predicate Answered(rows: seq<Row>, rows': seq<Row>, ids: set<nat>, posted: bool, now: real) {
    && |rows'| == |rows|
    && forall i | 0 <= i < |rows| ::
         rows'[i] == if i in ids then FlushedRow(rows[i], posted, now) else rows[i]
  }

  lemma FlushComposes(rows: seq<Row>, mid: seq<Row>, rows': seq<Row>, batch: set<nat>, ids: set<nat>,
                      posted: bool, now: real, later: real)
    requires IsBatch(rows, batch)
    requires ids == set i | i in batch && rows[i].attempts < MAX_ATTEMPTS
    requires GivenUp(rows, mid, batch, now) && Answered(mid, rows', ids, posted, later)
    ensures Flushed(rows, rows', batch, posted) && AllAdvance(rows, rows')
    ensures |ids| + |set i | i in batch && rows[i].attempts >= MAX_ATTEMPTS| == |batch|
  {
    var rest := set i | i in batch && rows[i].attempts >= MAX_ATTEMPTS;
    assert batch == ids + rest && ids !! rest;
    forall i | 0 <= i < |rows|
      ensures rows'[i] == if i in batch then FlushedRow(rows[i], posted, rows'[i].pushed.GetOr(0.0)) else rows[i]
      ensures Advances(rows[i], rows'[i])
    {
      assert mid[i] == if i in batch && rows[i].attempts >= MAX_ATTEMPTS
                       then rows[i].(pushed := Some(now)) else rows[i];
      assert rows'[i] == if i in ids then FlushedRow(mid[i], posted, later) else mid[i];
    }
  }

  class UsageReporter {
    const enabled: bool

    constructor (enabled: bool)
      ensures this.enabled == enabled
    {
      this.enabled := enabled;
    }

    /** Picks a batch, gives up its exhausted rows and posts the others. */
    method Begin(db: UsageLedger, now: real) returns (batch: set<nat>, ids: set<nat>)
      requires db.Valid() && db.flying == {}
      modifies db
      ensures db.Valid() && IsBatch(old(db.rows), batch) && db.Now() == Do(old(db.Now()), Post(batch, now))
      ensures ids == Sendable(old(db.rows), batch) && db.flying == ids
      ensures |batch| <= 100 && forall i :: i in ids <==> i in batch && old(db.rows)[i].attempts < 10
      ensures GivenUp(old(db.rows), db.rows, batch, now)
    {
      batch := db.PendingSessions();
      ghost var after := Do(db.Now(), Post(batch, now));
      StepSound(db.Now(), Post(batch, now));
      ids := set i | i in batch && db.rows[i].attempts < MAX_ATTEMPTS;
      assert batch - ids == Exhausted(db.rows, batch) && ids == Sendable(db.rows, batch);
      db.MarkPushed(batch - ids, now);
      assert db.rows == after.rows;
      db.stories, db.flying := after.stories, ids;
    }

    /** Records the answer for the posted ids; other ledger steps may have happened meanwhile. */
    method Finish(db: UsageLedger, ids: set<nat>, posted: bool, now: real)
      requires db.Valid() && db.flying == ids
      modifies db
      ensures db.Valid() && db.Now() == Do(old(db.Now()), Answer(posted, now))
      ensures Answered(old(db.rows), db.rows, ids, posted, now)
    {
      ghost var after := Do(db.Now(), Answer(posted, now));
      StepSound(db.Now(), Answer(posted, now));
      if posted {
        db.MarkPushed(ids, now);
      } else {
        db.BumpAttempts(ids);
      }
      assert db.rows == after.rows;
      db.stories, db.flying := after.stories, {};
    }

    /** One flush without interference; `posted` is the answer of the remote side. */
    method Flush(db: UsageLedger, posted: bool, now: real, later: real)
      returns (sent: nat, giveup: nat, ghost batch: set<nat>)
      requires db.Valid() && db.flying == {}
      modifies db
      ensures db.Valid() && db.flying == {} && AllAdvance(old(db.rows), db.rows)
      ensures !enabled ==> db.rows == old(db.rows) && sent == giveup == 0
      ensures enabled ==> Flushed(old(db.rows), db.rows, batch, posted)
      ensures enabled ==> giveup == |set i | i in batch && old(db.rows)[i].attempts >= MAX_ATTEMPTS|
      ensures enabled ==> sent == if posted then |batch| - giveup else 0
    {
      if !enabled {
        batch := {};
        return 0, 0, batch;
      }
      ghost var before := db.rows;
      var picked, ids := Begin(db, now);
      ghost var mid := db.rows;
      Finish(db, ids, posted, later);
      FlushComposes(before, mid, db.rows, picked, ids, posted, now, later);
      giveup := |picked| - |ids|;
      sent := if posted then |ids| else 0;
      batch := picked;
    }
  }
}
