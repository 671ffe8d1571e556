/**
  The make-before-break translation worker.

  Each method of the class is what one of the worker's coroutines does between two awaits: the
  send loop, a session's reader, the receive loop, the renewal, a drain, and the clean-up, which
  waits several times and may be cancelled at each wait. The methods may be called in any order
  their coroutine allows, so what `Valid` says holds in every reachable state of every
  interleaving.
 */
module TranslateWorking {
  import opened Common
  import opened SilenceGating

  /** The delta of an event: missing or empty, usable, or of a kind whose handling raises. */
  datatype Delta<T> = Absent | Usable(value: T) | Faulty

  /**
    An event of a translation session. The delta of audio is faulty if it cannot be decoded, the
    delta of a caption if it is no text that can be sent on. An event may also be no object at all;
    if it is null it reads like the end of its session's stream, although the reader goes on.
   */
  datatype Event = Audio(pcm: Delta<Chunk>) | Caption(text: Delta<string>)
               | Error | Closed | Other | Null | NotAnObject

  /** What a reader puts on the shared queue: an event, its failure, or the end of its stream. */
  datatype Body = Received(event: Event) | Failed | Ended

  datatype Message = Message(session: nat, body: Body)

  /** The messages taken from the queue, latest last, each with whether its session was active at that time. */
  datatype Taken = Start | Then(before: Taken, message: Message, active: bool)

  /** The chunks appended, latest last, each with the session it went to. */
  datatype Appends = Nothing | Append(before: Appends, session: nat, chunk: Chunk)

  // ---- what is played ----

  /** The frames a message contributes; less than one sample is no frame. */
  function Frames(m: Message): seq<Chunk> {
    if m.body.Received? && m.body.event.Audio? && m.body.event.pcm.Usable? && |m.body.event.pcm.value| / 2 > 0
    then [m.body.event.pcm.value]
    else []
  }

  /** Handling the event raises something other than the session error. */
  predicate Raises(e: Event) {
    match e
    case Audio(pcm) => pcm.Faulty?
    case Caption(text) => text.Faulty?
    case NotAnObject => true
    case _ => false
  }

  /**
    A session's end, failure, error, closed or null event ends the loop if it is the active one;
    an event whose handling raises always does.
   */
  predicate Ends(m: Message, active: bool) {
    match m.body
    case Failed => active
    case Ended => active
    case Received(e) => Raises(e) || (active && (e.Error? || e.Closed? || e.Null?))
  }

  /**
    Which messages end the loop: of any session an event whose handling raises, of the active one
    also its end, failure, error, closed or null event.
   */
  lemma OldSessionEnds(m: Message, active: bool)
    ensures var raises := {Received(Audio(Faulty)), Received(Caption(Faulty)), Received(NotAnObject)};
            var ends := {Failed, Ended, Received(Error), Received(Closed), Received(Null)};
            Ends(m, active) <==> m.body in raises || (active && m.body in ends)
  {
  }

  /** Some message of the log ends the loop. */
  predicate Stopped(log: Taken) {
    log.Then? && (Stopped(log.before) || Ends(log.message, log.active))
  }

  /** The audio of a log: all frames in order, up to the first message that ends the loop. */
  function Played(log: Taken): seq<Chunk> {
    if log.Start? then []
    else if Stopped(log) then Played(log.before)
    else Played(log.before) + Frames(log.message)
  }

  function Messages(log: Taken): seq<Message> {
    if log.Start? then [] else Messages(log.before) + [log.message]
  }

  function AllFrames(ms: seq<Message>): seq<Chunk> {
    if ms == [] then [] else AllFrames(ms[..|ms| - 1]) + Frames(ms[|ms| - 1])
  }

  /** `log` continued by `more`. */
  function Continued(log: Taken, more: Taken): Taken {
    if more.Start? then log else Then(Continued(log, more.before), more.message, more.active)
  }

  /** Whatever would still have come, nothing is heard after the message that ends the loop. */
  lemma {:induction false} NothingAfterEnd(log: Taken, more: Taken)
    requires Stopped(log)
    ensures Stopped(Continued(log, more)) && Played(Continued(log, more)) == Played(log)
  {
    if more.Then? {
      NothingAfterEnd(log, more.before);
    }
  }

  /** Until then nothing is lost, whichever sessions are active. */
  lemma {:induction false} NothingLost(log: Taken)
    requires !Stopped(log)
    ensures Played(log) == AllFrames(Messages(log))
  {
    if log.Then? {
      NothingLost(log.before);
      assert Messages(log)[..|Messages(log)| - 1] == Messages(log.before);
    }
  }

  /** Usable audio of at least one sample. */
  predicate Sounds(m: Message, pcm: Chunk) {
    m.body == Received(Audio(Usable(pcm))) && |pcm| >= 2
  }

  /** `at` lists, in order and without repeats, the messages that sound, and `heard` what they sound. */
  ghost predicate HeardAt(ms: seq<Message>, heard: seq<Chunk>, at: seq<nat>) {
    && |at| == |heard|
    && (forall j | 0 <= j < |at| :: at[j] < |ms| && Sounds(ms[at[j]], heard[j]))
    && (forall i, j | 0 <= i < j < |at| :: at[i] < at[j])
    && (forall i, pcm | 0 <= i < |ms| && Sounds(ms[i], pcm) :: i in at)
  }

  lemma SilentMessage(ms: seq<Message>, heard: seq<Chunk>, at: seq<nat>, m: Message)
    requires HeardAt(ms, heard, at) && Frames(m) == []
    ensures HeardAt(ms + [m], heard, at)
  {
    forall pcm | Sounds(m, pcm)
      ensures false
    {
    }
  }

  lemma SoundingMessage(ms: seq<Message>, heard: seq<Chunk>, at: seq<nat>, m: Message, pcm: Chunk)
    requires HeardAt(ms, heard, at) && Sounds(m, pcm)
    ensures HeardAt(ms + [m], heard + [pcm], at + [|ms|])
  {
    var at' := at + [|ms|];
    assert at'[|at|] == |ms|;
    forall i, p | 0 <= i < |ms| + 1 && Sounds((ms + [m])[i], p)
      ensures i in at'
    {
      if i < |ms| {
        assert Sounds(ms[i], p);
      }
    }
  }

  /**
    What is heard, by position: the frames played are, in order and without repeats, exactly the
    usable audio of at least one sample among the messages of a loop that has not ended.
   */
  lemma {:induction false} HeardByPosition(log: Taken) returns (at: seq<nat>)
    requires !Stopped(log)
    ensures HeardAt(Messages(log), Played(log), at)
  {
    if log.Start? {
      at := [];
    } else {
      at := HeardByPosition(log.before);
      if Frames(log.message) == [] {
        SilentMessage(Messages(log.before), Played(log.before), at, log.message);
      } else {
        SoundingMessage(Messages(log.before), Played(log.before), at, log.message, Frames(log.message)[0]);
        at := at + [|Messages(log.before)|];
      }
    }
  }

  // ---- what is sent ----

  function Chunks(sent: Appends): seq<Chunk> {
    if sent.Nothing? then [] else Chunks(sent.before) + [sent.chunk]
  }

  /** What one session was sent. */
  function SentTo(sent: Appends, s: nat): seq<Chunk> {
    if sent.Nothing? then []
    else SentTo(sent.before, s) + if sent.session == s then [sent.chunk] else []
  }

  /** What the first `n` sessions made were sent, session after session. */
  function BySession(sent: Appends, n: nat): seq<Chunk> {
    if n == 0 then [] else BySession(sent, n - 1) + SentTo(sent, n - 1)
  }

  /** Appends go to later and later connected sessions, none beyond session `top`. */
  predicate Ordered(sent: Appends, top: int, connected: set<nat>) {
    sent.Append? ==>
      sent.session <= top && sent.session in connected && Ordered(sent.before, sent.session, connected)
  }

  lemma {:induction false} MoreConnected(sent: Appends, top: int, connected: set<nat>, top': int, connected': set<nat>)
    requires Ordered(sent, top, connected) && top <= top' && connected <= connected'
    ensures Ordered(sent, top', connected')
  {
    if sent.Append? {
      MoreConnected(sent.before, sent.session, connected, sent.session, connected');
    }
  }

  lemma {:induction false} EarlierSessions(sent: Appends, n: nat)
    requires sent.Append? && n <= sent.session
    ensures BySession(sent, n) == BySession(sent.before, n)
  {
    if n > 0 {
      EarlierSessions(sent, n - 1);
    }
  }

  lemma {:induction false} NothingSent(sent: Appends, top: int, connected: set<nat>, s: nat)
    requires Ordered(sent, top, connected) && top < s
    ensures SentTo(sent, s) == []
  {
    if sent.Append? {
      NothingSent(sent.before, sent.session, connected, s);
    }
  }

  /** Regrouping the appends by session, in the order the sessions were made, keeps their order. */
  lemma {:induction false} Regroup(sent: Appends, top: int, connected: set<nat>, n: nat)
    requires Ordered(sent, top, connected) && top < n
    ensures BySession(sent, n) == Chunks(sent)
    decreases sent, n
  {
    if n == 0 {
    } else if sent.Nothing? {
      Regroup(sent, -1, connected, n - 1);
    } else if sent.session < n - 1 {
      NothingSent(sent, sent.session, connected, n - 1);
      Regroup(sent, sent.session, connected, n - 1);
    } else {
      Regroup(sent.before, sent.session, connected, n);
      EarlierSessions(sent, n - 1);
    }
  }

  // ---- the sessions ----

  /**
    Where `run` is: connecting the room, connecting the first session, in its loops, or in its
    clean-up, at one of the waits there. While stale sessions are closed, `left` are those still
    to be waited for; the close of the first of them has begun.
   */
  datatype Phase =
    | Starting
    | Connecting
    | Looping
    | Gathering
    | Closing(left: seq<nat>)
    | ClosingActive
    | Leaving
    | Over

  /** Who holds which session; sessions are numbered as the factory makes them. */
  datatype Owners = Owners(
    connected: set<nat>, session: Option<nat>, draining: set<nat>, handed: set<nat>, made: nat, phase: Phase)

  const FRESH := Owners({}, None, {}, {}, 0, Starting)

  /** What changes owners. `Cancel` is the cancellation of the supervising task. */
  datatype Move =
    | MakeSession
    | Connect(ok: bool)
    | Renew(ok: bool)
    | DrainDone(s: nat)
    | LoopsEnd
    | CloseAll(order: seq<nat>)
    | StaleClosed
    | ActiveClosed
    | Disconnected
    | Cancel

  ghost predicate IsOrder(order: seq<nat>, draining: set<nat>) {
    && (forall s :: s in order <==> s in draining)
    && (forall i, j | 0 <= i < j < |order| :: order[i] != order[j])
  }

  ghost predicate Enabled(o: Owners, m: Move) {
    match m
    case MakeSession => o.phase.Starting?
    case Connect(_) => o.phase.Connecting?
    case Renew(_) => o.phase.Looping? && o.session.Some?
    case DrainDone(s) => o.phase.Looping? && s in o.draining
    case LoopsEnd => o.phase.Starting? || o.phase.Looping?
    case CloseAll(order) => o.phase.Gathering? && IsOrder(order, o.draining)
    case StaleClosed => o.phase.Closing? && o.phase.left != []
    case ActiveClosed => o.phase.ClosingActive?
    case Disconnected => o.phase.Leaving?
    case Cancel => !o.phase.Over?
  }

  /** A new session takes over and the old one drains; if it fails to connect only its number is used up. */
  function Renewed(o: Owners, ok: bool): Owners
    requires o.session.Some?
  {
    if ok
    then o.(connected := o.connected + {o.made}, session := Some(o.made),
            draining := o.draining + {o.session.value}, made := o.made + 1)
    else o.(made := o.made + 1)
  }

  function HandedOver(o: Owners, s: nat): Owners {
    o.(draining := o.draining - {s}, handed := o.handed + {s})
  }

  /** The next close: of the first stale session left, or, with all of them done, of the active one. */
  function CloseNext(o: Owners, left: seq<nat>): Owners {
    if left != [] then o.(handed := o.handed + {left[0]}, phase := Closing(left))
    else if o.session.Some?
    then o.(draining := {}, handed := o.handed + {o.session.value}, phase := ClosingActive)
    else o.(draining := {}, phase := Leaving)
  }

  ghost function After(o: Owners, m: Move): Owners
    requires Enabled(o, m)
  {
    match m
    case MakeSession => o.(session := Some(o.made), made := o.made + 1, phase := Connecting)
    case Connect(ok) =>
      if ok && o.session.Some? then o.(connected := o.connected + {o.session.value}, phase := Looping)
      else o.(phase := Gathering)
    case Renew(ok) => Renewed(o, ok)
    case DrainDone(s) => HandedOver(o, s)
    case LoopsEnd => o.(phase := Gathering)
    case CloseAll(order) => CloseNext(o, order)
    case StaleClosed => CloseNext(o, o.phase.left[1..])
    case ActiveClosed => o.(session := None, phase := Leaving)
    case Disconnected => o.(phase := Over)
    case Cancel =>
      if o.phase.Starting? || o.phase.Connecting? || o.phase.Looping? then o.(phase := Gathering)
      else o.(phase := Over)
  }

  /** The closes of the clean-up may be under way, or have been interrupted. */
  predicate Closes(p: Phase) {
    p.Closing? || p.ClosingActive? || p.Over?
  }

  /**
    No connected session is lost: it is active, draining or handed over for closing, and only one
    of them unless the clean-up has begun to close it and has not got to the end.
   */
  predicate OwnedOnce(o: Owners, s: nat) {
    && (s in o.connected ==> o.session == Some(s) || s in o.draining || s in o.handed)
    && (s in o.draining ==> s in o.connected && o.session != Some(s))
    && (s in o.handed && (s in o.draining || o.session == Some(s)) ==> Closes(o.phase))
    && (s >= o.made ==> s !in o.connected && s !in o.handed && o.session != Some(s))
    && (o.phase.Closing? && o.phase.left != [] && s in o.draining ==> (s in o.handed <==> s !in o.phase.left[1..]))
  }

  predicate PhaseFits(o: Owners) {
    match o.phase
    case Starting => o == FRESH
    case Connecting => o == Owners({}, Some(0), {}, {}, 1, Connecting)
    case Looping => o.session.Some? && o.session.value in o.connected
    case Gathering => if o.made == 0 then o.session.None? && o.draining == {} else o.session.Some?
    case Closing(left) =>
      && left != [] && o.session.Some? && o.session.value !in o.handed
      && (forall s | s in left :: s in o.draining)
      && (forall i, j | 0 <= i < j < |left| :: left[i] != left[j])
    case ClosingActive => o.draining == {} && o.session.Some? && o.session.value in o.handed
    case Leaving => o.draining == {} && o.session.None?
    case Over => true
  }

  ghost predicate Owned(o: Owners) {
    PhaseFits(o) && forall s: nat :: OwnedOnce(o, s)
  }

  lemma RenewKeeps(o: Owners, ok: bool)
    requires Owned(o) && o.phase.Looping?
    ensures Owned(Renewed(o, ok))
    ensures |Renewed(o, ok).connected| == |o.connected| + if ok then 1 else 0
  {
    assert OwnedOnce(o, o.made) && OwnedOnce(o, o.session.value);
    forall s: nat
      ensures OwnedOnce(Renewed(o, ok), s)
    {
      assert OwnedOnce(o, s);
    }
  }

  lemma HandOver(o: Owners, s: nat)
    requires Owned(o) && o.phase.Looping? && s in o.draining
    ensures Owned(HandedOver(o, s))
  {
    assert OwnedOnce(o, s);
    forall t: nat
      ensures OwnedOnce(HandedOver(o, s), t)
    {
      assert OwnedOnce(o, t);
    }
  }

  lemma CloseAllKeeps(o: Owners, order: seq<nat>)
    requires Owned(o) && Enabled(o, CloseAll(order))
    ensures Owned(CloseNext(o, order))
  {
    forall s: nat
      ensures OwnedOnce(CloseNext(o, order), s)
    {
      assert OwnedOnce(o, s);
      assert order != [] ==> (s in order <==> s == order[0] || s in order[1..]);
      assert order != [] ==> order[0] !in order[1..];
    }
    assert o.session.Some? ==> OwnedOnce(o, o.session.value);
    assert order != [] ==> order[0] in o.draining && OwnedOnce(o, order[0]);
  }

  lemma StaleClosedKeeps(o: Owners)
    requires Owned(o) && o.phase.Closing?
    ensures Owned(CloseNext(o, o.phase.left[1..]))
  {
    var left := o.phase.left[1..];
    forall s: nat
      ensures OwnedOnce(CloseNext(o, left), s)
    {
      assert OwnedOnce(o, s);
      assert left != [] ==> (s in left <==> s == left[0] || s in left[1..]);
      assert left != [] ==> left[0] !in left[1..];
    }
    assert left != [] ==> left[0] in o.draining && OwnedOnce(o, left[0]);
    assert OwnedOnce(o, o.session.value);
  }

  lemma OtherMovesKeep(o: Owners, m: Move)
    requires Owned(o) && Enabled(o, m)
    requires !m.Renew? && !m.DrainDone? && !m.CloseAll? && !m.StaleClosed?
    ensures Owned(After(o, m))
  {
    assert o.session.Some? ==> OwnedOnce(o, o.session.value);
    forall s: nat
      ensures OwnedOnce(After(o, m), s)
    {
      assert OwnedOnce(o, s);
    }
  }

  lemma MoveKeeps(o: Owners, m: Move)
    requires Owned(o) && Enabled(o, m)
    ensures Owned(After(o, m))
  {
    match m
    case Renew(ok) => RenewKeeps(o, ok);
    case DrainDone(s) => HandOver(o, s);
    case CloseAll(order) => CloseAllKeeps(o, order);
    case StaleClosed => StaleClosedKeeps(o);
    case _ => OtherMovesKeep(o, m);
  }

  ghost predicate Legal(o: Owners, moves: seq<Move>)
    decreases moves
  {
    moves == [] || (Enabled(o, moves[0]) && Legal(After(o, moves[0]), moves[1..]))
  }

  ghost function Run(o: Owners, moves: seq<Move>): Owners
    requires Legal(o, moves)
    decreases moves
  {
    if moves == [] then o else Run(After(o, moves[0]), moves[1..])
  }

  lemma {:induction false} OwnedRuns(o: Owners, moves: seq<Move>)
    requires Owned(o) && Legal(o, moves)
    ensures Owned(Run(o, moves))
    decreases moves
  {
    if moves != [] {
      MoveKeeps(o, moves[0]);
      OwnedRuns(After(o, moves[0]), moves[1..]);
    }
  }

  /** In every reachable state of `run` no connected session is lost. */
  lemma NeverLost(moves: seq<Move>, s: nat)
    requires Legal(FRESH, moves) && s in Run(FRESH, moves).connected
    ensures var o := Run(FRESH, moves);
            && (o.session == Some(s) || s in o.draining || s in o.handed)
            && !(o.session == Some(s) && s in o.draining)
            && (!Closes(o.phase) ==> !(s in o.handed && (o.session == Some(s) || s in o.draining)))
  {
    OwnedRuns(FRESH, moves);
    assert OwnedOnce(Run(FRESH, moves), s);
  }

  /** A cancellation during the clean-up, before the close of the active session has returned. */
  predicate Cuts(o: Owners, m: Move) {
    m.Cancel? && o.made > 0 && (o.phase.Gathering? || o.phase.Closing? || o.phase.ClosingActive?)
  }

  ghost predicate NeverCut(o: Owners, moves: seq<Move>)
    requires Legal(o, moves)
    decreases moves
  {
    moves != [] ==> !Cuts(o, moves[0]) && NeverCut(After(o, moves[0]), moves[1..])
  }

  lemma OverIsLast(o: Owners, moves: seq<Move>)
    requires o.phase.Over? && Legal(o, moves)
    ensures moves == []
  {
  }

  lemma {:induction false} CleanFrom(o: Owners, moves: seq<Move>)
    requires Owned(o) && Legal(o, moves) && !o.phase.Over? && Run(o, moves).phase.Over?
    ensures var end := Run(o, moves);
            end.session.None? && end.draining == {} <==> NeverCut(o, moves)
    decreases moves
  {
    var next := After(o, moves[0]);
    MoveKeeps(o, moves[0]);
    assert o.session.Some? ==> OwnedOnce(o, o.session.value);
    if next.phase.Over? {
      OverIsLast(next, moves[1..]);
      assert Run(o, moves) == next;
      assert NeverCut(o, moves) <==> !Cuts(o, moves[0]);
    } else {
      CleanFrom(next, moves[1..]);
    }
  }

  /**
    When `run` is over, no session is active or draining exactly if no cancellation arrived in the
    clean-up before the last close had returned.
   */
  lemma CleanIffNotCut(moves: seq<Move>)
    requires Legal(FRESH, moves) && Run(FRESH, moves).phase.Over?
    ensures var end := Run(FRESH, moves);
            end.session.None? && end.draining == {} <==> NeverCut(FRESH, moves)
  {
    CleanFrom(FRESH, moves);
  }

  lemma Prepend(o: Owners, m: Move, moves: seq<Move>)
    requires Enabled(o, m) && Legal(After(o, m), moves)
    ensures Legal(o, [m] + moves) && Run(o, [m] + moves) == Run(After(o, m), moves)
  {
    assert ([m] + moves)[1..] == moves;
  }

  /**
    One renewal, the end of a loop, and a cancellation while the tasks are being gathered: `run`
    ends with one session active and one draining, neither of them ever closed.
   */
  lemma CutShort() returns (moves: seq<Move>)
    ensures Legal(FRESH, moves)
    ensures Run(FRESH, moves) == Owners({0, 1}, Some(1), {0}, {}, 2, Over)
  {
    var o1 := After(FRESH, MakeSession);
    var o2 := After(o1, Connect(true));
    var o3 := After(o2, Renew(true));
    var o4 := After(o3, LoopsEnd);
    var o5 := After(o4, Cancel);
    assert o5 == Owners({0, 1}, Some(1), {0}, {}, 2, Over);
    moves := [];
    Prepend(o4, Cancel, moves); moves := [Cancel] + moves;
    Prepend(o3, LoopsEnd, moves); moves := [LoopsEnd] + moves;
    Prepend(o2, Renew(true), moves); moves := [Renew(true)] + moves;
    Prepend(o1, Connect(true), moves); moves := [Connect(true)] + moves;
    Prepend(FRESH, MakeSession, moves); moves := [MakeSession] + moves;
  }

  // ---- the send loop ----

  /** A chunk whose append has not returned yet, and the session it was given to. */
  datatype Flight = Flight(session: nat, chunk: Chunk)

  /**
    The send loop's progress: what was appended where, the append under way, the chunk whose append
    raised, what is still to be appended, and what the gate returned.
   */
  datatype Sending = Sending(
    sent: Appends, flight: Option<Flight>, lost: Option<Chunk>, outbox: seq<Chunk>, given: seq<Chunk>)

  function Flying(f: Option<Flight>): seq<Chunk> {
    if f.Some? then [f.value.chunk] else []
  }

  function Pending(o: Option<Chunk>): seq<Chunk> {
    if o.Some? then [o.value] else []
  }

  /** The latest session that can have been sent anything. */
  function Top(o: Owners): int {
    if o.session.Some? then o.session.value else o.made - 1
  }

  /** Everything the gate returned was appended, in order, or is under way, lost or waiting. */
  predicate Sent(q: Sending, o: Owners) {
    && Chunks(q.sent) + Flying(q.flight) + Pending(q.lost) + q.outbox == q.given
    && (q.flight.Some? ==> q.lost.None? && q.flight.value.session <= Top(o) && q.flight.value.session in o.connected)
    && Ordered(q.sent, if q.flight.Some? then q.flight.value.session else Top(o), o.connected)
  }

  /** More sessions, or no active one any more, change nothing about that. */
  lemma SentMoves(q: Sending, o: Owners, o': Owners)
    requires Sent(q, o) && Top(o) <= Top(o') && o.connected <= o'.connected
    ensures Sent(q, o')
  {
    var top := if q.flight.Some? then q.flight.value.session else Top(o);
    MoreConnected(q.sent, top, o.connected, if q.flight.Some? then top else Top(o'), o'.connected);
  }

  /** No move lowers the latest session. */
  lemma TopGrows(o: Owners, m: Move)
    requires Owned(o) && Enabled(o, m)
    ensures Top(o) <= Top(After(o, m)) && o.connected <= After(o, m).connected
  {
    assert o.session.Some? ==> OwnedOnce(o, o.session.value);
  }

  function Appending(q: Sending, session: nat): Sending
    requires q.outbox != []
  {
    q.(flight := Some(Flight(session, q.outbox[0])), outbox := q.outbox[1..])
  }

  lemma SentBegins(q: Sending, o: Owners)
    requires Sent(q, o) && q.outbox != [] && q.flight.None? && q.lost.None?
    requires o.session.Some? && o.session.value in o.connected
    ensures Sent(Appending(q, o.session.value), o)
  {
    assert [q.outbox[0]] + q.outbox[1..] == q.outbox;
    assert Chunks(q.sent) + [] + [] + q.outbox == Chunks(q.sent) + [q.outbox[0]] + [] + q.outbox[1..];
  }

  function Appended(q: Sending, ok: bool): Sending
    requires q.flight.Some?
  {
    if ok then q.(sent := Append(q.sent, q.flight.value.session, q.flight.value.chunk), flight := None)
    else q.(lost := Some(q.flight.value.chunk), flight := None)
  }

  lemma SentReturns(q: Sending, o: Owners, ok: bool)
    requires Sent(q, o) && q.flight.Some?
    ensures Sent(Appended(q, ok), o)
  {
    var f := q.flight.value;
    assert Chunks(q.sent) + [f.chunk] + [] + q.outbox == Chunks(q.sent) + [] + [f.chunk] + q.outbox;
    if ok {
      assert Chunks(q.sent) + [f.chunk] + [] + q.outbox == (Chunks(q.sent) + [f.chunk]) + [] + [] + q.outbox;
    } else {
      MoreConnected(q.sent, f.session, o.connected, Top(o), o.connected);
    }
  }

  lemma SentFed(q: Sending, o: Owners, out: seq<Chunk>)
    requires Sent(q, o) && q.outbox == [] && q.flight.None? && q.lost.None?
    ensures Sent(q.(outbox := out, given := q.given + out), o)
  {
    assert Chunks(q.sent) + [] + [] + [] == Chunks(q.sent);
    assert Chunks(q.sent) + [] + [] + out == Chunks(q.sent) + out;
  }

  /** Session after session the sessions were sent what the gate returned, up to what is under way, lost or waiting. */
  lemma SentBySession(q: Sending, o: Owners)
    requires Owned(o) && Sent(q, o)
    ensures BySession(q.sent, o.made) + Flying(q.flight) + Pending(q.lost) + q.outbox == q.given
  {
    assert o.session.Some? ==> OwnedOnce(o, o.session.value);
    Regroup(q.sent, if q.flight.Some? then q.flight.value.session else Top(o), o.connected, o.made);
  }

  // ---- the receive loop ----

  /** Its progress: what was put, what is queued, taken, played, being played and lost. */
  datatype Progress = Progress(
    put: seq<Message>,
    queue: seq<Message>,
    taken: Taken,
    emitted: seq<Chunk>,
    playing: Option<Chunk>,
    lost: Option<Chunk>,
    ended: bool)

  predicate InStep(p: Progress) {
    // the taken messages are a prefix of what was put, the queue is the rest
    && p.put == Messages(p.taken) + p.queue
    // only the last taken message can have ended the loop, or else a frame failed to play
    && (p.taken.Then? ==> !Stopped(p.taken.before))
    && (p.ended <==> p.lost.Some? || Stopped(p.taken))
    && (p.playing.Some? ==> !p.ended)
    // what is heard is what the log says, up to the frame in hand
    && p.emitted + Pending(p.playing) + Pending(p.lost) == Played(p.taken)
  }

  /** The receive loop takes the next message. */
  function TakeNext(p: Progress, active: bool): Progress
    requires p.queue != []
  {
    var m := p.queue[0];
    p.(queue := p.queue[1..], taken := Then(p.taken, m, active), ended := Ends(m, active),
       playing := if Ends(m, active) || Frames(m) == [] then None else Some(Frames(m)[0]))
  }

  lemma TakeKeeps(p: Progress, active: bool)
    requires InStep(p) && p.queue != [] && !p.ended && p.playing.None?
    ensures InStep(TakeNext(p, active))
  {
    assert [p.queue[0]] + p.queue[1..] == p.queue;
    assert p.emitted + [] == p.emitted;
  }

  lemma PutKeeps(p: Progress, m: Message)
    requires InStep(p)
    ensures InStep(p.(put := p.put + [m], queue := p.queue + [m]))
  {
  }

  function Done(p: Progress, ok: bool): Progress {
    if ok then p.(emitted := p.emitted + Pending(p.playing), playing := None)
    else p.(lost := p.playing, playing := None, ended := true)
  }

  lemma DoneKeeps(p: Progress, ok: bool)
    requires InStep(p) && p.playing.Some?
    ensures InStep(Done(p, ok))
  {
    assert p.emitted + Pending(p.playing) + [] == p.emitted + Pending(p.playing);
    assert p.emitted + [] == p.emitted;
  }

  /** While the loop runs everything played so far is all there was; once it has ended, it is all there will be. */
  lemma Heard(p: Progress, more: Taken)
    requires InStep(p) && p.lost.None? && p.playing.None?
    ensures !p.ended ==> p.emitted == AllFrames(Messages(p.taken))
    ensures p.ended ==> p.emitted == Played(Continued(p.taken, more))
  {
    assert p.emitted + [] + [] == p.emitted;
    if p.ended {
      NothingAfterEnd(p.taken, more);
    } else {
      NothingLost(p.taken);
    }
  }

  // ---- the worker ----

  /** What a message calls for: the end of the loop, or a frame to play, or neither. */
  method HandleMessage(m: Message, active: bool) returns (ends: bool, frame: Option<Chunk>)
    ensures ends == Ends(m, active)
    ensures frame == if ends || Frames(m) == [] then None else Some(Frames(m)[0])
    ensures var b := m.body;
            if b.Received? && b.event.Audio? && b.event.pcm.Usable? && |b.event.pcm.value| >= 2
            then !ends && frame == Some(b.event.pcm.value) else frame == None
  {
    ends, frame := false, None;
    match m.body {
      case Failed => ends := active;
      case Ended => ends := active;
      case Received(Audio(Faulty)) => ends := true;
      case Received(Audio(Usable(pcm))) =>
        if |pcm| / 2 != 0 {
          frame := Some(pcm);
        }
      case Received(Caption(Faulty)) => ends := true;
      case Received(NotAnObject) => ends := true;
      case Received(Error) => ends := active;
      case Received(Closed) => ends := active;
      case Received(Null) => ends := active;
      case Received(_) =>
    }
  }

  class TranslateWorker {
    const gate: SilenceGate

    var phase: Phase
    var made: nat
    var session: Option<nat>
    var draining: set<nat>
    var renewals: nat
    var readers: set<nat>
    /** Chunks of the frame in hand that are still to be appended. */
    var outbox: seq<Chunk>
    var eventQ: seq<Message>
    /** The frame being played, and how many have been. */
    var playing: Option<Chunk>
    var frames: nat
    var recvEnded: bool

    ghost var connected: set<nat>
    ghost var handed: set<nat>
    ghost var given: seq<Chunk>
    ghost var sent: Appends
    ghost var flight: Option<Flight>
    ghost var unsent: Option<Chunk>
    ghost var put: seq<Message>
    ghost var taken: Taken
    ghost var emitted: seq<Chunk>
    ghost var lost: Option<Chunk>

    ghost function Sessions(): Owners
      reads this
    {
      Owners(connected, session, draining, handed, made, phase)
    }

    ghost function SendLoop(): Sending
      reads this
    {
      Sending(sent, flight, unsent, outbox, given)
    }

    ghost function RecvLoop(): Progress
      reads this
    {
      Progress(put, eventQ, taken, emitted, playing, lost, recvEnded)
    }

    ghost predicate Valid()
      reads this
    {
      && Owned(Sessions()) && Sent(SendLoop(), Sessions()) && InStep(RecvLoop())
      && (phase.Looping? ==> |connected| == renewals + 1)
      && frames == |emitted|
    }

    /** The gate is sound, and `given` is everything it has returned. */
    ghost predicate GateInStep()
      reads this, gate
    {
      gate.Valid() && gate.returned == given
    }

    constructor (g: Settings)
      ensures Valid() && GateInStep() && fresh(gate) && gate.g == g && gate.fed == []
      ensures Sessions() == FRESH && RecvLoop() == Progress([], [], Start, [], None, None, false)
    {
      gate := new SilenceGate(g);
      phase, made, session, draining, renewals, readers := Starting, 0, None, {}, 0, {};
      outbox, eventQ, playing, frames, recvEnded := [], [], None, 0, false;
      connected, handed, given, sent, flight, unsent := {}, {}, [], Nothing, None, None;
      put, taken, emitted, lost := [], Start, [], None;
      new;
      OwnedFresh();
    }

    /** With the room connected the first session is made; it is the active one even while it is being connected. */
    method Begin()
      requires Valid() && phase.Starting?
      modifies this`phase, this`made, this`session
      ensures Valid() && Sessions() == After(old(Sessions()), MakeSession)
    {
      MovesKeep(Sessions(), MakeSession, SendLoop());
      session, made, phase := Some(made), made + 1, Connecting;
      assert Sessions() == After(old(Sessions()), MakeSession);
      assert RecvLoop() == old(RecvLoop()) && SendLoop() == old(SendLoop());
    }

    /** The answer to its connect: the loops start, or the clean-up does. */
    method Connected(ok: bool)
      requires Valid() && phase.Connecting?
      modifies this`phase, this`readers, this`renewals, this`connected
      ensures Valid() && Sessions() == After(old(Sessions()), Connect(ok))
      ensures readers == if ok then {session.value} else {}
    {
      MovesKeep(Sessions(), Connect(ok), SendLoop());
      readers := {};
      if ok {
        readers, renewals, connected, phase := {session.value}, 0, connected + {session.value}, Looping;
      } else {
        phase := Gathering;
      }
      assert Sessions() == After(old(Sessions()), Connect(ok));
      assert RecvLoop() == old(RecvLoop()) && SendLoop() == old(SendLoop());
    }

    /** Make before break; a session that fails to connect changes nothing. */
    method Renew(ok: bool)
      requires Valid() && phase.Looping?
      modifies this`made, this`session, this`draining, this`readers, this`renewals, this`connected
      ensures Valid() && Sessions() == Renewed(old(Sessions()), ok)
      ensures readers == old(readers) + (if ok then {old(made)} else {})
      ensures renewals == (if ok then old(renewals) + 1 else old(renewals)) && made == old(made) + 1
      ensures !ok ==> session == old(session) && draining == old(draining) && connected == old(connected)
    {
      RenewKeeps(Sessions(), ok);
      MovesKeep(Sessions(), Move.Renew(ok), SendLoop());
      var next := made;
      made := made + 1;
      if ok {
        draining, session := draining + {session.value}, Some(next);
        renewals, readers, connected := renewals + 1, readers + {next}, connected + {next};
      }
      assert Sessions() == Renewed(old(Sessions()), ok);
      assert RecvLoop() == old(RecvLoop()) && SendLoop() == old(SendLoop());
    }

    method DrainAndClose(s: nat)
      requires Valid() && phase.Looping? && s in draining
      modifies this`draining, this`handed
      ensures Valid() && Sessions() == HandedOver(old(Sessions()), s)
    {
      MovesKeep(Sessions(), DrainDone(s), SendLoop());
      draining := draining - {s};
      handed := handed + {s};
    }

    /** The send loop gets the next piece of audio. */
    method FeedGate(pcm: Chunk)
      requires Valid() && GateInStep() && phase.Looping? && outbox == [] && flight.None? && unsent.None?
      modifies this`outbox, this`given, gate
      ensures Valid() && GateInStep() && given == old(given) + outbox
      ensures gate.fed == if pcm == [] then old(gate.fed) else old(gate.fed) + [pcm]
      ensures given == Passed(gate.g, gate.fed)
    {
      var out := gate.Feed(pcm);
      SentFed(SendLoop(), Sessions(), out);
      outbox := out;
      given := given + out;
      assert Sessions() == old(Sessions()) && RecvLoop() == old(RecvLoop());
    }

    /** The send loop gives the next chunk to whichever session is active by now. */
    method AppendNext()
      requires Valid() && phase.Looping? && outbox != [] && flight.None? && unsent.None?
      modifies this`outbox, this`flight
      ensures Valid() && SendLoop() == Appending(old(SendLoop()), session.value)
      ensures flight == Some(Flight(session.value, old(outbox)[0])) && outbox == old(outbox)[1..]
    {
      SentBegins(SendLoop(), Sessions());
      flight := Some(Flight(session.value, outbox[0]));
      outbox := outbox[1..];
    }

    /** The append has returned, or has raised, which ends the send loop. */
    method AppendDone(ok: bool)
      requires Valid() && phase.Looping? && flight.Some?
      modifies this`sent, this`flight, this`unsent
      ensures Valid() && SendLoop() == Appended(old(SendLoop()), ok) && flight == None
      ensures sent == (if ok then Append(old(sent), old(flight).value.session, old(flight).value.chunk) else old(sent))
      ensures unsent == if ok then old(unsent) else Some(old(flight).value.chunk)
    {
      SentReturns(SendLoop(), Sessions(), ok);
      if ok {
        sent := Append(sent, flight.value.session, flight.value.chunk);
      } else {
        unsent := Some(flight.value.chunk);
      }
      flight := None;
    }

    /** A reader forwards an event, or reports how its session's stream ended and stops. */
    method ReadSession(s: nat, body: Body)
      requires Valid() && phase.Looping? && s in readers
      modifies this`eventQ, this`put, this`readers
      ensures Valid() && put == old(put) + [Message(s, body)] && eventQ == old(eventQ) + [Message(s, body)]
      ensures readers == if body.Received? then old(readers) else old(readers) - {s}
    {
      PutKeeps(RecvLoop(), Message(s, body));
      eventQ := eventQ + [Message(s, body)];
      put := put + [Message(s, body)];
      if !body.Received? {
        readers := readers - {s};
      }
    }

    /** The receive loop takes the next message; which session is active is settled here. */
    method Take()
      requires Valid() && phase.Looping? && !recvEnded && playing.None? && eventQ != []
      modifies this`eventQ, this`taken, this`playing, this`recvEnded
      ensures Valid()
      ensures RecvLoop() == TakeNext(old(RecvLoop()), Some(old(eventQ)[0].session) == session)
    {
      TakeKeeps(RecvLoop(), Some(eventQ[0].session) == session);
      var m := eventQ[0];
      var active := session == Some(m.session);
      eventQ := eventQ[1..];
      taken := Then(taken, m, active);
      recvEnded, playing := HandleMessage(m, active);
      assert Sessions() == old(Sessions()) && SendLoop() == old(SendLoop());
      assert RecvLoop() == TakeNext(old(RecvLoop()), active);
    }

    /** The audio sink has taken the frame, or refused it, which ends the loop. */
    method PlayDone(ok: bool)
      requires Valid() && phase.Looping? && playing.Some?
      modifies this`playing, this`frames, this`emitted, this`lost, this`recvEnded
      ensures Valid() && RecvLoop() == Done(old(RecvLoop()), ok)
      ensures frames == old(frames) + if ok then 1 else 0
      ensures emitted == old(emitted) + (if ok then [old(playing).value] else [])
      ensures lost == (if ok then old(lost) else old(playing)) && (recvEnded <==> old(recvEnded) || !ok)
    {
      DoneKeeps(RecvLoop(), ok);
      if ok {
        frames := frames + 1;
        emitted := emitted + [playing.value];
      } else {
        lost := playing;
        recvEnded := true;
      }
      playing := None;
    }

    /** A loop has ended, the stop was requested, or the room could not be connected: all tasks are cancelled. */
    method EndLoops()
      requires Valid() && (phase.Starting? || phase.Looping?)
      modifies this`phase, this`readers
      ensures Valid() && Sessions() == After(old(Sessions()), LoopsEnd) && readers == {}
    {
      MovesKeep(Sessions(), LoopsEnd, SendLoop());
      phase, readers := Gathering, {};
    }

    /** The cancelled tasks are gone: the closes begin, in some order of the draining sessions. */
    method CloseSessions() returns (ghost order: seq<nat>)
      requires Valid() && phase.Gathering?
      modifies this`phase, this`draining, this`handed
      ensures Valid() && IsOrder(order, old(draining)) && Sessions() == After(old(Sessions()), CloseAll(order))
    {
      var list, rest := [], draining;
      while rest != {}
        invariant rest <= draining && IsOrder(list, draining - rest)
        decreases rest
      {
        var s :| s in rest;
        list, rest := list + [s], rest - {s};
      }
      assert draining - rest == draining;
      order := list;
      MovesKeep(Sessions(), CloseAll(order), SendLoop());
      Proceed(list);
    }

    /** The close of a stale session has returned, well or not. */
    method StaleDone()
      requires Valid() && phase.Closing?
      modifies this`phase, this`draining, this`handed
      ensures Valid() && Sessions() == After(old(Sessions()), StaleClosed)
    {
      MovesKeep(Sessions(), StaleClosed, SendLoop());
      Proceed(phase.left[1..]);
    }

    method Proceed(left: seq<nat>)
      modifies this`phase, this`draining, this`handed
      ensures Sessions() == CloseNext(old(Sessions()), left)
    {
      if left != [] {
        handed, phase := handed + {left[0]}, Closing(left);
      } else {
        draining := {};
        if session.Some? {
          handed, phase := handed + {session.value}, ClosingActive;
        } else {
          phase := Leaving;
        }
      }
    }

    /** The close of the active session has returned. */
    method ActiveDone()
      requires Valid() && phase.ClosingActive?
      modifies this`phase, this`session
      ensures Valid() && Sessions() == After(old(Sessions()), ActiveClosed)
      ensures session == None && draining == {} && connected <= handed
    {
      MovesKeep(Sessions(), ActiveClosed, SendLoop());
      session, phase := None, Leaving;
      forall s | s in connected
        ensures s in handed
      {
        assert OwnedOnce(Sessions(), s);
      }
    }

    method RoomLeft()
      requires Valid() && phase.Leaving?
      modifies this`phase
      ensures Valid() && Sessions() == After(old(Sessions()), Disconnected)
    {
      MovesKeep(Sessions(), Disconnected, SendLoop());
      phase := Over;
    }

    /** The supervising task is cancelled: before the clean-up this starts it, within it this ends it. */
    method Cancelled()
      requires Valid() && !phase.Over?
      modifies this`phase, this`readers
      ensures Valid() && Sessions() == After(old(Sessions()), Cancel)
    {
      MovesKeep(Sessions(), Cancel, SendLoop());
      if phase.Starting? || phase.Connecting? || phase.Looping? {
        phase, readers := Gathering, {};
      } else {
        phase := Over;
      }
    }
  }

  lemma OwnedFresh()
    ensures Owned(FRESH)
  {
    forall s: nat
      ensures OwnedOnce(FRESH, s)
    {
    }
  }

  lemma MovesKeep(o: Owners, m: Move, q: Sending)
    requires Owned(o) && Enabled(o, m) && Sent(q, o)
    ensures Owned(After(o, m)) && Sent(q, After(o, m))
  {
    MoveKeeps(o, m);
    TopGrows(o, m);
    SentMoves(q, o, After(o, m));
  }

  /** After a renewal the replaced session sends audio that cannot be decoded: the receive loop ends. */
  method OldSessionEndsLoop(g: Settings) returns (w: TranslateWorker)
    ensures w.Valid() && w.phase.Looping? && w.session == Some(1) && w.draining == {0}
    ensures w.taken == Then(Start, Message(0, Received(Audio(Faulty))), false) && w.recvEnded
  {
    w := RenewedOnce(g);
    w.ReadSession(0, Received(Audio(Faulty)));
    w.Take();
  }

  method RenewedOnce(g: Settings) returns (w: TranslateWorker)
    ensures w.Valid() && fresh(w) && w.readers == {0, 1}
    ensures w.Sessions() == Owners({0, 1}, Some(1), {0}, {}, 2, Looping)
    ensures w.RecvLoop() == Progress([], [], Start, [], None, None, false)
  {
    w := Started(g);
    w.Renew(true);
  }

  method Started(g: Settings) returns (w: TranslateWorker)
    ensures w.Valid() && fresh(w) && w.readers == {0}
    ensures w.Sessions() == Owners({0}, Some(0), {}, {}, 1, Looping)
    ensures w.RecvLoop() == Progress([], [], Start, [], None, None, false)
  {
    w := new TranslateWorker(g);
    w.Begin();
    w.Connected(true);
  }
}
