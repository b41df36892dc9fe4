/**
 * The reconnecting sync client: which connection is the current one, the gate on invalidations while a
 * reconnect refetches, and the cursors every reconnect resumes from. Sockets, timers and refetches answer in
 * any order, however stale.
 */
module SyncClient {
  import opened Ordering

  type ConnectionId = nat
  type RunId = nat
  type EventId = nat

  /** `reconnectTimer` keeps its timer after it fired; only `close()` clears the variable. */
  datatype Timer = NoTimer | Waiting | Fired

  /** `attempts` are the sockets created so far: whether each opened, and whether its refetch is in flight. */
  datatype Attempt = Attempt(accepted: bool, refetching: bool, ended: bool)

  datatype Frame = WatchFrame(connection: ConnectionId, run: RunId, after: EventId) | UnwatchFrame(connection: ConnectionId, run: RunId)

  datatype Client = Client(
    socket: Option<ConnectionId>, reconnectTimer: Timer, closedByCaller: bool, gateInvalidations: bool, connectionId: nat,
    watchedRuns: map<RunId, EventId>)

  /** `invalidated` are the connections whose invalidate frames reached the application. */
  datatype State = State(client: Client, attempts: map<ConnectionId, Attempt>, sent: seq<Frame>, invalidated: seq<ConnectionId>)

  datatype Step =
    | Connect
    | Close
    | TimerFires
    | Opened(c: ConnectionId)
    | AgentEvent(c: ConnectionId, run: RunId, event: EventId)
    | Invalidate(c: ConnectionId)
    | Closed(c: ConnectionId, revoked: bool)
    | RefetchSettles(c: ConnectionId)
    | WatchRun(run: RunId, after: EventId)
    | UnwatchRun(run: RunId)

  const Init := State(Client(None, NoTimer, true, false, 0, map[]), map[], [], [])

  predicate IsOpen(s: State, c: ConnectionId) {
    c in s.attempts && s.attempts[c].accepted && !s.attempts[c].ended
  }

  /** `sendFrame`: dropped unless the current socket is open. */
  function SendFrame(s: State, run: RunId, after: Option<EventId>): State {
    if s.client.socket.None? || !IsOpen(s, s.client.socket.value) then s
    else
      var c := s.client.socket.value;
      s.(sent := s.sent + [if after.Some? then WatchFrame(c, run, after.value) else UnwatchFrame(c, run)])
  }

  function Establish(s: State): State {
    if s.client.closedByCaller then s
    else
      var id := s.client.connectionId + 1;
      s.(client := s.client.(connectionId := id, socket := Some(id)), attempts := s.attempts[id := Attempt(false, false, false)])
  }

  /** A successful connect resumes every watched run from its own cursor, and gates invalidations on a refetch. */
  function ResumeFrames(c: ConnectionId, runs: map<RunId, EventId>, todo: seq<RunId>): seq<Frame>
    requires forall run :: run in todo ==> run in runs
  {
    if todo == [] then [] else [WatchFrame(c, todo[0], runs[todo[0]])] + ResumeFrames(c, runs, todo[1..])
  }

  function Recover(s: State, c: ConnectionId): State
    requires c in s.attempts
  {
    s.(client := s.client.(gateInvalidations := true),
       attempts := s.attempts[c := s.attempts[c].(accepted := true, refetching := true)],
       sent := if s.client.socket == Some(c) then s.sent + ResumeFrames(c, s.client.watchedRuns, Ascending(s.client.watchedRuns.Keys)) else s.sent)
  }

  function ScheduleReconnect(c: Client): Client {
    if c.closedByCaller then c else c.(reconnectTimer := Waiting)
  }

  predicate Enabled(s: State, step: Step) {
    match step
    case TimerFires => s.client.reconnectTimer.Waiting?
    case Opened(c) => c in s.attempts && !s.attempts[c].accepted && !s.attempts[c].ended
    case AgentEvent(c, _, _) => IsOpen(s, c)
    case Invalidate(c) => IsOpen(s, c)
    case Closed(c, _) => c in s.attempts && !s.attempts[c].ended
    case RefetchSettles(c) => c in s.attempts && s.attempts[c].refetching
    case _ => true
  }

  function Apply(s: State, step: Step): State {
    if !Enabled(s, step) then s
    else
      var k := s.client;
      match step
      case Connect =>
        var willing := s.(client := k.(closedByCaller := false));
        if k.socket.Some? || !k.reconnectTimer.NoTimer? then willing else Establish(willing)
      case Close => s.(client := k.(closedByCaller := true, reconnectTimer := NoTimer, socket := None))
      case TimerFires => Establish(s.(client := k.(reconnectTimer := Fired)))
      case Opened(c) =>
        if c != k.connectionId then s.(attempts := s.attempts[c := s.attempts[c].(accepted := true)]) else Recover(s, c)
      case AgentEvent(c, run, event) =>
        if c == k.connectionId && run in k.watchedRuns then s.(client := k.(watchedRuns := k.watchedRuns[run := event])) else s
      case Invalidate(c) =>
        if c == k.connectionId && !k.gateInvalidations then s.(invalidated := s.invalidated + [c]) else s
      case Closed(c, revoked) =>
        var s1 := s.(attempts := s.attempts[c := s.attempts[c].(ended := true)]);
        if c != k.connectionId then s1
        else if revoked then s1.(client := k.(socket := None, closedByCaller := true))
        else s1.(client := ScheduleReconnect(k.(socket := None)))
      case RefetchSettles(c) =>
        s.(attempts := s.attempts[c := s.attempts[c].(refetching := false)],
           client := if c == k.connectionId then k.(gateInvalidations := false) else k)
      case WatchRun(run, after) => SendFrame(s.(client := k.(watchedRuns := k.watchedRuns[run := after])), run, Some(after))
      case UnwatchRun(run) =>
        if run in k.watchedRuns then SendFrame(s.(client := k.(watchedRuns := k.watchedRuns - {run})), run, None) else s
  }

  function Exec(s: State, steps: seq<Step>): State
    decreases |steps|
  {
    if steps == [] then s else Exec(Apply(s, steps[0]), steps[1..])
  }

  // ---- invariant ----

  ghost predicate Inv(s: State) {
    var k := s.client;
    && (forall c :: c in s.attempts ==> 1 <= c <= k.connectionId)
    && (forall c :: c in s.attempts && s.attempts[c].refetching ==> s.attempts[c].accepted)
    && (k.socket.Some? ==> k.socket == Some(k.connectionId) && k.connectionId in s.attempts && !s.attempts[k.connectionId].ended)
    && (k.socket.Some? ==> !k.reconnectTimer.Waiting? && !k.closedByCaller)
    && (k.reconnectTimer.Waiting? ==> !k.closedByCaller && k.connectionId in s.attempts && s.attempts[k.connectionId].ended)
    && (k.connectionId in s.attempts && s.attempts[k.connectionId].accepted ==> (k.gateInvalidations <==> s.attempts[k.connectionId].refetching))
  }

  lemma ClosedKeeps(s: State, c: ConnectionId, revoked: bool)
    requires Inv(s) && Enabled(s, Closed(c, revoked))
    ensures Inv(Apply(s, Closed(c, revoked)))
  {
  }

  lemma OpenedKeeps(s: State, c: ConnectionId)
    requires Inv(s) && Enabled(s, Opened(c))
    ensures Inv(Apply(s, Opened(c)))
  {
  }

  lemma StepKeeps(s: State, step: Step)
    requires Inv(s)
    ensures Inv(Apply(s, step))
  {
    if Enabled(s, step) {
      match step
      case Opened(c) => OpenedKeeps(s, c);
      case Closed(c, revoked) => ClosedKeeps(s, c, revoked);
      case _ =>
    }
  }

  lemma {:induction false} RunKeeps(s: State, steps: seq<Step>)
    requires Inv(s)
    ensures Inv(Exec(s, steps))
    decreases |steps|
  {
    if steps != [] {
      StepKeeps(s, steps[0]);
      RunKeeps(Apply(s, steps[0]), steps[1..]);
    }
  }

  // ---- what is guaranteed ----

  /** At most one attempt counts: the current one. While it is being made, no reconnect is waiting. */
  lemma {:induction false} OneCurrentConnection(steps: seq<Step>)
    ensures var k := Exec(Init, steps).client;
            k.socket.Some? ==> k.socket.value == k.connectionId && !k.reconnectTimer.Waiting? && !k.closedByCaller
  {
    RunKeeps(Init, steps);
  }

  lemma {:induction false} ConnectionIdsGrow(s: State, steps: seq<Step>)
    ensures s.client.connectionId <= Exec(s, steps).client.connectionId
    decreases |steps|
  {
    if steps != [] {
      ConnectionIdsGrow(Apply(s, steps[0]), steps[1..]);
    }
  }

  /**
   * Once a connection is superseded it is so for good: whatever happens later, its events change neither cursors
   * nor the gate, and nothing is sent or shown because of them.
   */
  lemma {:induction false} StaleConnectionIsIgnored(earlier: seq<Step>, later: seq<Step>, step: Step)
    requires (step.Opened? || step.AgentEvent? || step.Invalidate? || step.Closed? || step.RefetchSettles?)
             && step.c < Exec(Init, earlier).client.connectionId
    ensures var s := Exec(Exec(Init, earlier), later);
            var u := Apply(s, step);
            u.client == s.client && u.sent == s.sent && u.invalidated == s.invalidated
  {
    ConnectionIdsGrow(Exec(Init, earlier), later);
  }

  /** An invalidation reaches the application only from the current, open connection with no refetch in flight. */
  lemma {:induction false} InvalidationsWaitForRefetch(steps: seq<Step>, c: ConnectionId)
    requires Apply(Exec(Init, steps), Invalidate(c)).invalidated != Exec(Init, steps).invalidated
    ensures var s := Exec(Init, steps);
            c == s.client.connectionId && IsOpen(s, c) && !s.attempts[c].refetching
  {
    RunKeeps(Init, steps);
  }

  /** Nor is the client left deaf: on an open current connection whose refetch has settled, every invalidation passes. */
  lemma {:induction false} SettledRefetchOpensGate(steps: seq<Step>, c: ConnectionId)
    requires var s := Exec(Init, steps); c == s.client.connectionId && IsOpen(s, c) && !s.attempts[c].refetching
    ensures Apply(Exec(Init, steps), Invalidate(c)).invalidated == Exec(Init, steps).invalidated + [c]
  {
    RunKeeps(Init, steps);
  }

  lemma {:induction false} ResumeFramesAre(c: ConnectionId, runs: map<RunId, EventId>, todo: seq<RunId>, f: Frame)
    requires forall run :: run in todo ==> run in runs
    ensures f in ResumeFrames(c, runs, todo) <==> f.WatchFrame? && f.connection == c && f.run in todo && f.after == runs[f.run]
  {
    if todo != [] {
      ResumeFramesAre(c, runs, todo[1..], f);
    }
  }

  /** A successful reconnect resumes exactly the watched runs, each from its own last event. */
  lemma {:induction false} ReconnectResumesFromCursors(steps: seq<Step>, c: ConnectionId, f: Frame)
    requires var s := Exec(Init, steps); Enabled(s, Opened(c)) && c == s.client.connectionId && s.client.socket == Some(c)
    ensures var s, u := Exec(Init, steps), Apply(Exec(Init, steps), Opened(c));
            && s.sent <= u.sent
            && (f in u.sent[|s.sent|..] <==>
                  f.WatchFrame? && f.connection == c && f.run in s.client.watchedRuns && f.after == s.client.watchedRuns[f.run])
  {
    var s := Exec(Init, steps);
    var todo := Ascending(s.client.watchedRuns.Keys);
    ResumeFramesAre(c, s.client.watchedRuns, todo, f);
    assert Apply(s, Opened(c)).sent[|s.sent|..] == ResumeFrames(c, s.client.watchedRuns, todo);
  }

  // ---- connecting again ----

  /** The client is on its way to a connection. */
  predicate Trying(k: Client) {
    k.socket.Some? || k.reconnectTimer.Waiting?
  }

  /** Whether a reconnect timer has fired since the last `close()` of the run, `before` at its start. */
  predicate FiredSinceClose(s: State, steps: seq<Step>, before: bool)
    decreases |steps|
  {
    if steps == [] then before
    else FiredSinceClose(Apply(s, steps[0]), steps[1..], !steps[0].Close? && (before || (steps[0].TimerFires? && Enabled(s, steps[0]))))
  }

  lemma {:induction false} TimerRemembers(s: State, steps: seq<Step>, before: bool)
    requires (s.client.reconnectTimer.NoTimer? ==> !before) && (s.client.reconnectTimer.Fired? ==> before)
    ensures var k, fired := Exec(s, steps).client, FiredSinceClose(s, steps, before);
            (k.reconnectTimer.NoTimer? ==> !fired) && (k.reconnectTimer.Fired? ==> fired)
    decreases |steps|
  {
    if steps != [] {
      TimerRemembers(Apply(s, steps[0]), steps[1..], !steps[0].Close? && (before || (steps[0].TimerFires? && Enabled(s, steps[0]))));
    }
  }

  /**
   * `connect()` has the client on its way to a connection exactly when it already was, or no reconnect timer has
   * fired since the last `close()`.
   */
  lemma {:induction false} ConnectTriesIff(steps: seq<Step>)
    ensures var s := Exec(Init, steps);
            Trying(Apply(s, Connect).client) <==> Trying(s.client) || !FiredSinceClose(Init, steps, false)
  {
    TimerRemembers(Init, steps, false);
  }

  /** A client whose session was revoked after it had reconnected once can be told to connect and never will. */
  lemma RevokedAfterReconnectStaysDown() returns (steps: seq<Step>)
    ensures var s := Exec(Init, steps); !s.client.closedByCaller && !Trying(s.client)
  {
    steps := [Connect, Closed(1, false), TimerFires, Closed(2, true), Connect];
    var a := Apply(Init, Connect);
    assert a.client.socket == Some(1) && a.attempts == map[1 := Attempt(false, false, false)];
    var b := Apply(a, Closed(1, false));
    assert b.client.reconnectTimer.Waiting? && b.client.socket.None? && b.client.connectionId == 1;
    var c := Apply(b, TimerFires);
    assert c.client.connectionId == 2 && 2 in c.attempts && c.client.reconnectTimer.Fired?;
    var d := Apply(c, Closed(2, true));
    assert d.client.closedByCaller && d.client.socket.None? && d.client.reconnectTimer.Fired?;
    assert steps[1..] == [Closed(1, false), TimerFires, Closed(2, true), Connect];
    assert steps[1..][1..] == [TimerFires, Closed(2, true), Connect];
    assert steps[1..][1..][1..] == [Closed(2, true), Connect];
    assert steps[1..][1..][1..][1..] == [Connect] && steps[1..][1..][1..][1..][1..] == [];
    assert Exec(Init, steps) == Apply(d, Connect);
  }

  // ---- closing ----

  /** The client was closed and nothing is on its way. */
  predicate Shut(s: State) {
    s.client.closedByCaller && s.client.socket.None? && !s.client.reconnectTimer.Waiting?
  }

  lemma {:induction false} StaysShut(s: State, later: seq<Step>)
    requires Shut(s) && Connect !in later
    ensures var u := Exec(s, later); Shut(u) && u.attempts.Keys == s.attempts.Keys && u.sent == s.sent
    decreases |later|
  {
    if later != [] {
      var u := Apply(s, later[0]);
      assert later[0] != Connect;
      assert Shut(u) && u.attempts.Keys == s.attempts.Keys && u.sent == s.sent;
      StaysShut(u, later[1..]);
    }
  }

  /**
   * `close()` is final: until `connect()` is called again, whatever sockets, timers and refetches still answer,
   * the client holds no socket, waits for no reconnect, makes no connection attempt and sends nothing.
   */
  lemma {:induction false} CloseIsFinal(before: seq<Step>, later: seq<Step>)
    requires Connect !in later
    ensures var s := Apply(Exec(Init, before), Close);
            var u := Exec(s, later);
            && u.client.closedByCaller && u.client.socket.None? && !u.client.reconnectTimer.Waiting?
            && u.attempts.Keys == s.attempts.Keys == Exec(Init, before).attempts.Keys && u.sent == s.sent == Exec(Init, before).sent
  {
    StaysShut(Apply(Exec(Init, before), Close), later);
  }

  // ---- cursors ----

  /** What the run's watch was last told after one more step. */
  function Told(s: State, step: Step, run: RunId, was: Option<EventId>): Option<EventId> {
    match step
    case WatchRun(r, after) => if r == run then Some(after) else was
    case UnwatchRun(r) => if r == run then None else was
    case AgentEvent(c, r, event) =>
      if r == run && was.Some? && c == s.client.connectionId && IsOpen(s, c) then Some(event) else was
    case _ => was
  }

  /**
   * The last thing the run's watch was told, `was` at the start: where its caller began it, or an event that
   * reached it on the connection that counted then; nothing once it is unwatched.
   */
  function LastTold(s: State, steps: seq<Step>, run: RunId, was: Option<EventId>): Option<EventId>
    decreases |steps|
  {
    if steps == [] then was else LastTold(Apply(s, steps[0]), steps[1..], run, Told(s, steps[0], run, was))
  }

  function CursorOf(k: Client, run: RunId): Option<EventId> {
    if run in k.watchedRuns then Some(k.watchedRuns[run]) else None
  }

  lemma CursorSteps(s: State, step: Step, run: RunId)
    ensures CursorOf(Apply(s, step).client, run) == Told(s, step, run, CursorOf(s.client, run))
  {
  }

  lemma {:induction false} CursorFollows(s: State, steps: seq<Step>, run: RunId)
    ensures LastTold(s, steps, run, CursorOf(s.client, run)) == CursorOf(Exec(s, steps).client, run)
    decreases |steps|
  {
    if steps != [] {
      CursorSteps(s, steps[0], run);
      CursorFollows(Apply(s, steps[0]), steps[1..], run);
    }
  }

  /** A watched run's cursor is the last event it was told of on a current connection, or where its watch began. */
  lemma {:induction false} CursorIsLastEvent(steps: seq<Step>, run: RunId)
    ensures var runs := Exec(Init, steps).client.watchedRuns;
            LastTold(Init, steps, run, None) == if run in runs then Some(runs[run]) else None
  {
    CursorFollows(Init, steps, run);
  }

  // ---- what the server is told ----

  /** The last frame about the run on connection `c`. */
  function LastFrame(frames: seq<Frame>, c: ConnectionId, run: RunId): Option<Frame> {
    if frames == [] then None
    else
      var last := frames[|frames| - 1];
      if last.connection == c && last.run == run then Some(last) else LastFrame(frames[..|frames| - 1], c, run)
  }

  predicate Watches(frames: seq<Frame>, c: ConnectionId, run: RunId) {
    LastFrame(frames, c, run).Some? && LastFrame(frames, c, run).value.WatchFrame?
  }

  lemma {:induction false} LastOfBoth(earlier: seq<Frame>, later: seq<Frame>, c: ConnectionId, run: RunId)
    ensures LastFrame(earlier + later, c, run) ==
            if LastFrame(later, c, run).Some? then LastFrame(later, c, run) else LastFrame(earlier, c, run)
    decreases |later|
  {
    if later == [] {
      assert earlier + later == earlier;
    } else {
      assert (earlier + later)[..|earlier + later| - 1] == earlier + later[..|later| - 1];
      LastOfBoth(earlier, later[..|later| - 1], c, run);
    }
  }

  lemma {:induction false} LastIsSent(frames: seq<Frame>, c: ConnectionId, run: RunId)
    ensures LastFrame(frames, c, run).Some? ==> LastFrame(frames, c, run).value in frames
    ensures LastFrame(frames, c, run).None? ==> forall f :: f in frames ==> f.connection != c || f.run != run
    ensures LastFrame(frames, c, run).Some? ==> LastFrame(frames, c, run).value.connection == c && LastFrame(frames, c, run).value.run == run
    decreases |frames|
  {
    if frames != [] {
      LastIsSent(frames[..|frames| - 1], c, run);
      assert frames == frames[..|frames| - 1] + [frames[|frames| - 1]];
    }
  }

  /** Nothing was ever sent on a connection that had not opened. */
  predicate SentOnOpened(s: State) {
    forall f :: f in s.sent ==> f.connection in s.attempts && s.attempts[f.connection].accepted
  }

  /** The server watches, on the current open connection, exactly the runs the client watches. */
  ghost predicate ServerKnows(s: State) {
    s.client.socket.Some? && IsOpen(s, s.client.socket.value) ==>
      forall run :: Watches(s.sent, s.client.socket.value, run) <==> run in s.client.watchedRuns
  }

  lemma ResumedIsWatched(s: State, c: ConnectionId, run: RunId)
    requires SentOnOpened(s) && c in s.attempts && !s.attempts[c].accepted && s.client.socket == Some(c)
    ensures Watches(Recover(s, c).sent, c, run) <==> run in s.client.watchedRuns
  {
    var todo := Ascending(s.client.watchedRuns.Keys);
    var frames := ResumeFrames(c, s.client.watchedRuns, todo);
    LastOfBoth(s.sent, frames, c, run);
    LastIsSent(s.sent, c, run);
    LastIsSent(frames, c, run);
    if run in s.client.watchedRuns {
      ResumeFramesAre(c, s.client.watchedRuns, todo, WatchFrame(c, run, s.client.watchedRuns[run]));
    }
    if LastFrame(frames, c, run).Some? {
      ResumeFramesAre(c, s.client.watchedRuns, todo, LastFrame(frames, c, run).value);
    }
  }

  lemma ResumedIsSent(s: State, c: ConnectionId)
    requires SentOnOpened(s) && c in s.attempts
    ensures SentOnOpened(Recover(s, c))
  {
    forall f | f in Recover(s, c).sent && f !in s.sent ensures f.connection == c {
      ResumeFramesAre(c, s.client.watchedRuns, Ascending(s.client.watchedRuns.Keys), f);
    }
  }

  lemma SentFrameCounts(s: State, run: RunId, after: Option<EventId>)
    requires Inv(s) && SentOnOpened(s) && ServerKnows(s)
    ensures var runs := if after.Some? then s.client.watchedRuns[run := after.value] else s.client.watchedRuns - {run};
            var u := SendFrame(s.(client := s.client.(watchedRuns := runs)), run, after);
            SentOnOpened(u) && ServerKnows(u)
  {
    if s.client.socket.Some? && IsOpen(s, s.client.socket.value) {
      var c := s.client.socket.value;
      var f := if after.Some? then WatchFrame(c, run, after.value) else UnwatchFrame(c, run);
      forall r ensures LastFrame(s.sent + [f], c, r) == if r == run then Some(f) else LastFrame(s.sent, c, r) {
        LastOfBoth(s.sent, [f], c, r);
        assert [f][..0] == [];
      }
    }
  }

  lemma ServerLearns(s: State, step: Step)
    requires Inv(s) && SentOnOpened(s) && ServerKnows(s)
    ensures SentOnOpened(Apply(s, step)) && ServerKnows(Apply(s, step))
  {
    if Enabled(s, step) {
      match step
      case Opened(c) =>
        if c == s.client.connectionId {
          ResumedIsSent(s, c);
          if s.client.socket == Some(c) {
            forall run ensures Watches(Recover(s, c).sent, c, run) <==> run in s.client.watchedRuns { ResumedIsWatched(s, c, run); }
          }
        }
      case WatchRun(run, after) => SentFrameCounts(s, run, Some(after));
      case UnwatchRun(run) => SentFrameCounts(s, run, None);
      case _ =>
    }
  }

  lemma {:induction false} ServerKeepsKnowing(s: State, steps: seq<Step>)
    requires Inv(s) && SentOnOpened(s) && ServerKnows(s)
    ensures SentOnOpened(Exec(s, steps)) && ServerKnows(Exec(s, steps))
    decreases |steps|
  {
    if steps != [] {
      StepKeeps(s, steps[0]);
      ServerLearns(s, steps[0]);
      ServerKeepsKnowing(Apply(s, steps[0]), steps[1..]);
    }
  }

  /**
   * In every run, the last frame about a run on the current open connection is a watch exactly for the runs the
   * client watches, and no frame ever went out on a connection that had not opened.
   */
  lemma {:induction false} ServerWatchesWhatClientWatches(steps: seq<Step>, run: RunId)
    ensures var s := Exec(Init, steps);
            && (s.client.socket.Some? && IsOpen(s, s.client.socket.value) ==>
                  (Watches(s.sent, s.client.socket.value, run) <==> run in s.client.watchedRuns))
            && (forall f :: f in s.sent ==> f.connection in s.attempts && s.attempts[f.connection].accepted)
  {
    ServerKeepsKnowing(Init, steps);
  }

  /** A watch begun on the open connection is told with its cursor; with no open connection nothing goes out. */
  lemma {:induction false} WatchIsTold(steps: seq<Step>, run: RunId, after: EventId)
    ensures var s, u := Exec(Init, steps), Apply(Exec(Init, steps), WatchRun(run, after));
            var open := s.client.socket.Some? && IsOpen(s, s.client.connectionId);
            && u.client.watchedRuns == s.client.watchedRuns[run := after]
            && u.sent == s.sent + (if open then [WatchFrame(s.client.connectionId, run, after)] else [])
  {
    RunKeeps(Init, steps);
  }

  // ---- as the source keeps it ----

  lemma NothingBefore(frames: seq<Frame>)
    ensures [] + frames == frames && frames + [] == frames
  {
  }

  lemma {:induction false} ResumesOnOpen(s: State, c: ConnectionId)
    requires Enabled(s, Opened(c)) && s.sent == []
    ensures Apply(s, Opened(c)).sent ==
            if c == s.client.connectionId && s.client.socket == Some(c)
            then ResumeFrames(c, s.client.watchedRuns, Ascending(s.client.watchedRuns.Keys)) else []
  {
    NothingBefore(ResumeFrames(c, s.client.watchedRuns, Ascending(s.client.watchedRuns.Keys)));
  }

  class ReconnectingClient {
    var socket: Option<ConnectionId>
    var reconnectTimer: Timer
    var closedByCaller: bool
    var gateInvalidations: bool
    var connectionId: nat
    var watchedRuns: map<RunId, EventId>

    ghost function View(): Client
      reads this
    {
      Client(socket, reconnectTimer, closedByCaller, gateInvalidations, connectionId, watchedRuns)
    }

    /** The client among the connection attempts `attempts`. */
    ghost function Among(attempts: map<ConnectionId, Attempt>): State
      reads this
    {
      State(View(), attempts, [], [])
    }

    constructor ()
      ensures View() == Init.client
    {
      socket, reconnectTimer, closedByCaller, gateInvalidations, connectionId, watchedRuns := None, NoTimer, true, false, 0, map[];
    }

    method EstablishConnection(ghost attempts: map<ConnectionId, Attempt>)
      modifies this`socket, this`connectionId
      ensures View() == Establish(old(Among(attempts))).client
    {
      if closedByCaller { return; }
      connectionId := connectionId + 1;
      socket := Some(connectionId);
    }

    method Connect(ghost attempts: map<ConnectionId, Attempt>)
      modifies this`closedByCaller, this`socket, this`connectionId
      ensures View() == Apply(old(Among(attempts)), Step.Connect).client
    {
      closedByCaller := false;
      if socket.Some? || !reconnectTimer.NoTimer? { return; }
      EstablishConnection(attempts);
    }

    method Close(ghost attempts: map<ConnectionId, Attempt>)
      modifies this`closedByCaller, this`reconnectTimer, this`socket
      ensures View() == Apply(old(Among(attempts)), Step.Close).client
      ensures closedByCaller && socket.None? && reconnectTimer.NoTimer?
    {
      closedByCaller := true;
      if !reconnectTimer.NoTimer? { reconnectTimer := NoTimer; }
      socket := None;
    }

    method OnTimer(ghost attempts: map<ConnectionId, Attempt>)
      requires reconnectTimer.Waiting?
      modifies this`reconnectTimer, this`socket, this`connectionId
      ensures View() == Apply(old(Among(attempts)), TimerFires).client
    {
      reconnectTimer := Fired;
      EstablishConnection(attempts);
    }

    method FramesFor(c: ConnectionId) returns (frames: seq<Frame>)
      ensures frames == ResumeFrames(c, watchedRuns, Ascending(watchedRuns.Keys))
    {
      frames := [];
      var todo, i := Ascending(watchedRuns.Keys), 0;
      assert todo[0..] == todo;
      NothingBefore(ResumeFrames(c, watchedRuns, todo));
      while i < |todo|
        invariant 0 <= i <= |todo|
        invariant ResumeFrames(c, watchedRuns, todo) == frames + ResumeFrames(c, watchedRuns, todo[i..])
      {
        var frame := WatchFrame(c, todo[i], watchedRuns[todo[i]]);
        DropOne(todo, i);
        Reassociate(frames, [frame], ResumeFrames(c, watchedRuns, todo[i + 1..]));
        frames := frames + [frame];
        i := i + 1;
      }
      NothingBefore(frames);
    }

    /** `onopen`: the frames that resume the watched runs, none from a superseded connection. */
    method OnOpen(c: ConnectionId, ghost attempts: map<ConnectionId, Attempt>) returns (frames: seq<Frame>)
      requires Enabled(Among(attempts), Opened(c))
      modifies this`gateInvalidations
      ensures View() == Apply(old(Among(attempts)), Opened(c)).client
      ensures frames == Apply(old(Among(attempts)), Opened(c)).sent
    {
      frames := [];
      ResumesOnOpen(old(Among(attempts)), c);
      if c != connectionId { return; }
      if socket == Some(c) { frames := FramesFor(c); }
      gateInvalidations := true;
    }

    method OnAgentEvent(c: ConnectionId, run: RunId, event: EventId, ghost attempts: map<ConnectionId, Attempt>)
      requires Enabled(Among(attempts), AgentEvent(c, run, event))
      modifies this`watchedRuns
      ensures View() == Apply(old(Among(attempts)), AgentEvent(c, run, event)).client
    {
      if c != connectionId { return; }
      if run in watchedRuns { watchedRuns := watchedRuns[run := event]; }
    }

    /** Whether an invalidation is passed on to the application. */
    method OnInvalidate(c: ConnectionId, ghost attempts: map<ConnectionId, Attempt>) returns (passed: bool)
      requires Enabled(Among(attempts), Invalidate(c))
      ensures passed <==> Apply(Among(attempts), Invalidate(c)).invalidated == [c]
    {
      return c == connectionId && !gateInvalidations;
    }

    method OnClose(c: ConnectionId, revoked: bool, ghost attempts: map<ConnectionId, Attempt>)
      requires Enabled(Among(attempts), Closed(c, revoked))
      modifies this`socket, this`closedByCaller, this`reconnectTimer
      ensures View() == Apply(old(Among(attempts)), Closed(c, revoked)).client
      ensures c != connectionId ==> View() == old(View())
      ensures c == connectionId ==> socket.None? && (closedByCaller <==> old(closedByCaller) || revoked)
      ensures c == connectionId && !revoked && !old(closedByCaller) ==> reconnectTimer.Waiting?
      ensures c == connectionId && (revoked || old(closedByCaller)) ==> reconnectTimer == old(reconnectTimer)
    {
      if c != connectionId { return; }
      socket := None;
      if revoked {
        closedByCaller := true;
        return;
      }
      if !closedByCaller { reconnectTimer := Waiting; }
    }

    method OnRefetchSettled(c: ConnectionId, ghost attempts: map<ConnectionId, Attempt>)
      requires Enabled(Among(attempts), RefetchSettles(c))
      modifies this`gateInvalidations
      ensures View() == Apply(old(Among(attempts)), RefetchSettles(c)).client
    {
      if c == connectionId { gateInvalidations := false; }
    }
  }
}
