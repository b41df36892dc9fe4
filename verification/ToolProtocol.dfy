/** The tool-call protocol of a stored history: the validator's loop, what it accepts, and startup repair. */
module ToolProtocol {
  import opened Ordering

  /** A message as far as the protocol looks at it; an id is `None` when the payload holds no string. */
  datatype Message = ToolUse(id: Option<string>) | ToolResult(id: Option<string>) | Other(kind: string)

  /** The queue of open calls after one more message; `None` is the validator's throw. */
  function Advance(pending: seq<string>, m: Message): Option<seq<string>> {
    match m
    case ToolUse(id) => if id.Some? then Some(pending + [id.value]) else None
    case ToolResult(id) => if pending != [] && id == Some(pending[0]) then Some(pending[1..]) else None
    case Other(_) => Some(pending)
  }

  function Replay(pending: seq<string>, messages: seq<Message>): Option<seq<string>>
    decreases |messages|
  {
    if messages == [] then Some(pending)
    else
      var next := Advance(pending, messages[0]);
      if next.None? then None else Replay(next.value, messages[1..])
  }

  predicate Accepted(messages: seq<Message>) {
    Replay([], messages) == Some([])
  }

  /** `validateProtocolInvariants`; `false` is its throw. */
  method ValidateProtocolInvariants(messages: seq<Message>) returns (ok: bool)
    ensures ok <==> Paired(messages)
  {
    AcceptedIffPaired(messages);
    var pending: seq<string> := [];
    var i := 0;
    assert messages[0..] == messages;
    while i < |messages|
      invariant 0 <= i <= |messages|
      invariant Replay([], messages) == Replay(pending, messages[i..])
    {
      var m := messages[i];
      assert messages[i..][0] == m && messages[i..][1..] == messages[i + 1..];
      if m.ToolUse? {
        if m.id.None? { return false; }
        pending := pending + [m.id.value];
      } else if m.ToolResult? {
        if pending == [] || m.id != Some(pending[0]) { return false; }
        pending := pending[1..];
      }
      i := i + 1;
    }
    return pending == [];
  }

  // ---- what it accepts ----

  /** Positions of the messages that open a call. */
  function Uses(messages: seq<Message>): (r: seq<nat>)
    ensures forall i :: 0 <= i < |r| ==> r[i] < |messages| && messages[r[i]].ToolUse?
  {
    if messages == [] then []
    else
      var n := |messages| - 1;
      Uses(messages[..n]) + if messages[n].ToolUse? then [n] else []
  }

  function Results(messages: seq<Message>): (r: seq<nat>)
    ensures forall i :: 0 <= i < |r| ==> r[i] < |messages| && messages[r[i]].ToolResult?
  {
    if messages == [] then []
    else
      var n := |messages| - 1;
      Results(messages[..n]) + if messages[n].ToolResult? then [n] else []
  }

  /** Every call names itself; result number `i` comes after call number `i` and answers it. */
  ghost predicate Answered(messages: seq<Message>) {
    var uses, results := Uses(messages), Results(messages);
    && |results| <= |uses|
    && (forall i :: 0 <= i < |uses| ==> messages[uses[i]].id.Some?)
    && (forall i :: 0 <= i < |results| ==> uses[i] < results[i] && messages[results[i]].id == messages[uses[i]].id)
  }

  /** The protocol: calls are answered in order, and none is left open. */
  ghost predicate Paired(messages: seq<Message>) {
    Answered(messages) && |Uses(messages)| == |Results(messages)|
  }

  /** The calls not answered yet. */
  function OpenIds(messages: seq<Message>): seq<Option<string>>
    requires |Results(messages)| <= |Uses(messages)|
  {
    seq(|Uses(messages)| - |Results(messages)|,
        i requires 0 <= i < |Uses(messages)| - |Results(messages)| => messages[Uses(messages)[|Results(messages)| + i]].id)
  }

  function Wrapped(ids: seq<string>): seq<Option<string>> {
    seq(|ids|, i requires 0 <= i < |ids| => Some(ids[i]))
  }

  lemma {:induction false} ReplaySnoc(pending: seq<string>, messages: seq<Message>, m: Message)
    ensures Replay(pending, messages + [m]) ==
            var before := Replay(pending, messages); if before.None? then None else Advance(before.value, m)
    decreases |messages|
  {
    if messages == [] {
      assert [m][1..] == [];
    } else {
      assert (messages + [m])[1..] == messages[1..] + [m];
      var next := Advance(pending, messages[0]);
      if next.Some? { ReplaySnoc(next.value, messages[1..], m); }
    }
  }

  lemma {:induction false} ReplayAppend(pending: seq<string>, a: seq<Message>, b: seq<Message>)
    ensures Replay(pending, a + b) == var mid := Replay(pending, a); if mid.None? then None else Replay(mid.value, b)
    decreases |a|
  {
    if a == [] {
      assert a + b == b;
    } else {
      assert (a + b)[1..] == a[1..] + b;
      var next := Advance(pending, a[0]);
      if next.Some? { ReplayAppend(next.value, a[1..], b); }
    }
  }

  lemma {:induction false} UsesSnoc(front: seq<Message>, m: Message)
    ensures Uses(front + [m]) == Uses(front) + if m.ToolUse? then [|front|] else []
    ensures Results(front + [m]) == Results(front) + if m.ToolResult? then [|front|] else []
  {
    assert (front + [m])[..|front|] == front;
  }

  /** `m` may follow `front`: a call names itself, a result answers the first open call. */
  ghost predicate MayFollow(front: seq<Message>, m: Message) {
    && (m.ToolUse? ==> m.id.Some?)
    && (m.ToolResult? ==> |Results(front)| < |Uses(front)| && m.id == front[Uses(front)[|Results(front)|]].id)
  }

  lemma SnocAnswered(front: seq<Message>, m: Message)
    requires Answered(front + [m])
    ensures Answered(front) && MayFollow(front, m)
  {
    var messages, uses, results := front + [m], Uses(front), Results(front);
    UsesSnoc(front, m);
    forall i | 0 <= i < |uses| ensures front[uses[i]].id.Some? { assert Uses(messages)[i] == uses[i] && messages[uses[i]] == front[uses[i]]; }
    forall i | 0 <= i < |results| && i < |uses| ensures uses[i] < results[i] && front[results[i]].id == front[uses[i]].id {
      assert Uses(messages)[i] == uses[i] && Results(messages)[i] == results[i];
    }
    if m.ToolUse? { assert Uses(messages)[|uses|] == |front|; }
    if m.ToolResult? { assert Results(messages)[|results|] == |front|; }
  }

  lemma AnsweredSnoc(front: seq<Message>, m: Message)
    requires Answered(front) && MayFollow(front, m)
    ensures Answered(front + [m])
  {
    var messages, uses, results := front + [m], Uses(front), Results(front);
    UsesSnoc(front, m);
    forall i | 0 <= i < |Uses(messages)| ensures messages[Uses(messages)[i]].id.Some? {
      if i < |uses| { assert messages[uses[i]] == front[uses[i]]; }
    }
    forall i | 0 <= i < |Results(messages)|
      ensures Uses(messages)[i] < Results(messages)[i] && messages[Results(messages)[i]].id == messages[Uses(messages)[i]].id
    {
      if i < |results| { assert messages[uses[i]] == front[uses[i]] && messages[results[i]] == front[results[i]]; }
    }
  }

  /** The calls `uses` from number `n` on, as the messages name them. */
  function IdsFrom(messages: seq<Message>, uses: seq<nat>, n: nat): seq<Option<string>>
    requires n <= |uses| && forall i :: 0 <= i < |uses| ==> uses[i] < |messages| && messages[uses[i]].ToolUse?
  {
    seq(|uses| - n, i requires 0 <= i < |uses| - n => messages[uses[n + i]].id)
  }

  lemma {:induction false} OpenIdsAre(messages: seq<Message>)
    requires |Results(messages)| <= |Uses(messages)|
    ensures OpenIds(messages) == IdsFrom(messages, Uses(messages), |Results(messages)|)
  {
  }

  lemma IdsSnoc(front: seq<Message>, m: Message, uses: seq<nat>, n: nat)
    requires n <= |uses| && forall i :: 0 <= i < |uses| ==> uses[i] < |front| && front[uses[i]].ToolUse?
    ensures forall i :: 0 <= i < |uses| ==> (front + [m])[uses[i]] == front[uses[i]]
    ensures IdsFrom(front + [m], uses, n) == IdsFrom(front, uses, n)
    ensures n < |uses| ==> IdsFrom(front, uses, n + 1) == IdsFrom(front, uses, n)[1..]
    ensures m.ToolUse? ==> IdsFrom(front + [m], uses + [|front|], n) == IdsFrom(front, uses, n) + [m.id]
  {
  }

  lemma {:induction false} UseOpens(front: seq<Message>, m: Message)
    requires Answered(front) && m.ToolUse?
    ensures |Results(front + [m])| <= |Uses(front + [m])| && OpenIds(front + [m]) == OpenIds(front) + [m.id]
  {
    UsesSnoc(front, m);
    assert Results(front) + [] == Results(front);
    OpenIdsAre(front);
    OpenIdsAre(front + [m]);
    IdsSnoc(front, m, Uses(front), |Results(front)|);
  }

  lemma {:induction false} ResultCloses(front: seq<Message>, m: Message)
    requires Answered(front) && m.ToolResult? && MayFollow(front, m)
    ensures |Results(front + [m])| <= |Uses(front + [m])|
    ensures OpenIds(front) != [] && m.id == OpenIds(front)[0] && OpenIds(front + [m]) == OpenIds(front)[1..]
  {
    UsesSnoc(front, m);
    assert Uses(front) + [] == Uses(front);
    OpenIdsAre(front);
    OpenIdsAre(front + [m]);
    IdsSnoc(front, m, Uses(front), |Results(front)|);
    IdsSnoc(front, m, Uses(front), |Results(front)| + 1);
  }

  lemma {:induction false} OtherOpensNothing(front: seq<Message>, m: Message)
    requires Answered(front) && m.Other?
    ensures |Results(front + [m])| <= |Uses(front + [m])| && OpenIds(front + [m]) == OpenIds(front)
  {
    UsesSnoc(front, m);
    assert Uses(front) + [] == Uses(front) && Results(front) + [] == Results(front);
    OpenIdsAre(front);
    OpenIdsAre(front + [m]);
    IdsSnoc(front, m, Uses(front), |Results(front)|);
  }

  lemma SnocOpens(front: seq<Message>, m: Message)
    requires Answered(front) && Answered(front + [m])
    ensures OpenIds(front + [m]) ==
            if m.ToolUse? then OpenIds(front) + [m.id] else if m.ToolResult? && OpenIds(front) != [] then OpenIds(front)[1..] else OpenIds(front)
    ensures m.ToolResult? ==> OpenIds(front) != [] && m.id == OpenIds(front)[0]
  {
    match m
    case ToolUse(_) => UseOpens(front, m);
    case ToolResult(_) => SnocAnswered(front, m); ResultCloses(front, m);
    case Other(_) => OtherOpensNothing(front, m);
  }

  /** The queue after a prefix is exactly the calls the prefix leaves open. */
  lemma {:induction false} ReplayTracksOpenCalls(messages: seq<Message>)
    ensures Replay([], messages).Some? <==> Answered(messages)
    ensures Answered(messages) ==> Wrapped(Replay([], messages).value) == OpenIds(messages)
    decreases |messages|
  {
    if messages != [] {
      var n := |messages| - 1;
      var front, m := messages[..n], messages[n];
      assert messages == front + [m];
      ReplayTracksOpenCalls(front);
      ReplaySnoc([], front, m);
      if Answered(messages) {
        SnocAnswered(front, m);
        SnocOpens(front, m);
        AdvanceTracks(Replay([], front).value, OpenIds(front), m);
      } else if Answered(front) {
        StuckFails(front, m);
        AdvanceTracks(Replay([], front).value, OpenIds(front), m);
      }
    }
  }

  lemma StuckFails(front: seq<Message>, m: Message)
    requires Answered(front) && !Answered(front + [m])
    ensures (m.ToolUse? && m.id.None?) || (m.ToolResult? && (OpenIds(front) == [] || m.id != OpenIds(front)[0]))
  {
    if MayFollow(front, m) { AnsweredSnoc(front, m); }
  }

  lemma AdvanceTracks(pending: seq<string>, open: seq<Option<string>>, m: Message)
    requires Wrapped(pending) == open
    ensures Advance(pending, m).None? <==>
              (m.ToolUse? && m.id.None?) || (m.ToolResult? && (open == [] || m.id != open[0]))
    ensures Advance(pending, m).Some? ==>
              Wrapped(Advance(pending, m).value) == if m.ToolUse? then open + [m.id] else if m.ToolResult? then open[1..] else open
  {
    assert |pending| == |open|;
    if pending != [] { assert open[0] == Some(pending[0]); }
  }

  /** The validator's loop accepts exactly the histories whose calls are answered in order. */
  lemma AcceptedIffPaired(messages: seq<Message>)
    ensures Accepted(messages) <==> Paired(messages)
  {
    ReplayTracksOpenCalls(messages);
    if Answered(messages) {
      assert |Replay([], messages).value| == |OpenIds(messages)|;
    }
  }

  // ---- segments ----

  function Flatten(segments: seq<seq<Message>>): seq<Message> {
    if segments == [] then [] else segments[0] + Flatten(segments[1..])
  }

  /** Runs whose own events obey the protocol make up a history that does. */
  lemma {:induction false} SegmentsConcatenate(segments: seq<seq<Message>>)
    requires forall i :: 0 <= i < |segments| ==> Paired(segments[i])
    ensures Paired(Flatten(segments))
  {
    if segments == [] {
      AcceptedIffPaired([]);
    } else {
      SegmentsConcatenate(segments[1..]);
      PairedAppend(segments[0], Flatten(segments[1..]));
    }
  }

  lemma PairedAppend(a: seq<Message>, b: seq<Message>)
    requires Paired(a) && Paired(b)
    ensures Paired(a + b)
  {
    AcceptedIffPaired(a);
    AcceptedIffPaired(b);
    AcceptedIffPaired(a + b);
    ReplayAppend([], a, b);
  }

  // ---- startup repair ----

  /** The events of an interrupted run once repaired: a trailing call gets the result its payload identifies. */
  function Repaired(log: seq<Message>): seq<Message> {
    if log != [] && log[|log| - 1].ToolUse? then log + [ToolResult(log[|log| - 1].id)] else log
  }

  /** One call, carrying a string id, is open at the end of an otherwise paired log. */
  ghost predicate OneOpenCall(log: seq<Message>) {
    log != [] && log[|log| - 1].ToolUse? && log[|log| - 1].id.Some? && Paired(log[..|log| - 1])
  }

  /** Repair leaves a valid log exactly when the log was valid, or had one open call at its very end. */
  lemma RepairedIsPairedIff(log: seq<Message>)
    ensures Paired(Repaired(log)) <==> Paired(log) || OneOpenCall(log)
  {
    AcceptedIffPaired(log);
    AcceptedIffPaired(Repaired(log));
    if log != [] && log[|log| - 1].ToolUse? {
      var front, m := log[..|log| - 1], log[|log| - 1];
      assert log == front + [m];
      AcceptedIffPaired(front);
      TrailingCall(front, m.id);
    }
  }

  /** A call and its result leave the queue as it was only when nothing was open before them. */
  lemma TrailingCall(front: seq<Message>, id: Option<string>)
    ensures !Accepted(front + [ToolUse(id)])
    ensures Accepted(front + [ToolUse(id)] + [ToolResult(id)]) <==> id.Some? && Accepted(front)
  {
    ReplaySnoc([], front, ToolUse(id));
    ReplaySnoc([], front + [ToolUse(id)], ToolResult(id));
    var before := Replay([], front);
    if before.Some? && id.Some? {
      assert (before.value + [id.value])[1..] == [] ==> |before.value| == 0;
    }
  }

  /** Repairing twice is repairing once. */
  lemma RepairIsIdempotent(log: seq<Message>)
    ensures Repaired(Repaired(log)) == Repaired(log)
  {
  }

  datatype RunStatus = Running | Done | Error

  datatype Run = Run(status: RunStatus, fromMcp: bool, log: seq<Message>)

  predicate Orphaned(run: Run) { run.status.Running? && !run.fromMcp }

  /**
   * The run is closed as `error`; exactly a call at the very end of its log was answered, under its own id, and the
   * log is valid if that could make it so.
   */
  ghost predicate ClosedAndPaired(was: Run, now: Run) {
    && now.status.Error? && now.fromMcp == was.fromMcp
    && was.log <= now.log && |now.log| <= |was.log| + 1
    && (|now.log| > |was.log| <==> was.log != [] && was.log[|was.log| - 1].ToolUse?)
    && (|now.log| > |was.log| ==> now.log[|was.log|].ToolResult? && now.log[|was.log|].id == now.log[|was.log| - 1].id)
    && (Paired(now.log) <==> Paired(was.log) || OneOpenCall(was.log))
  }

  function RepairRun(run: Run): Run {
    if Orphaned(run) then run.(status := Error, log := Repaired(run.log)) else run
  }

  class RunStore {
    var runs: seq<Run>

    constructor (runs: seq<Run>)
      ensures this.runs == runs
    {
      this.runs := runs;
    }

    /** `repairCurrentTenant`; a write that throws at run `failsAt` rolls the whole transaction back. */
    method RepairCurrentTenant(failsAt: Option<nat>) returns (repaired: seq<nat>, threw: bool)
      modifies this
      ensures threw <==> failsAt.Some? && failsAt.value < |old(runs)| && Orphaned(old(runs)[failsAt.value])
      ensures threw ==> runs == old(runs) && repaired == []
      ensures !threw ==> |runs| == |old(runs)| && forall i :: 0 <= i < |runs| ==> runs[i] == RepairRun(old(runs)[i])
      ensures !threw ==> forall i :: 0 <= i < |runs| && !Orphaned(old(runs)[i]) ==> runs[i] == old(runs)[i]
      ensures !threw ==> forall i :: 0 <= i < |runs| && Orphaned(old(runs)[i]) ==> ClosedAndPaired(old(runs)[i], runs[i])
      ensures !threw ==> forall i :: i in repaired <==> 0 <= i < |old(runs)| && Orphaned(old(runs)[i])
      ensures !threw ==> forall i :: 0 <= i < |runs| ==> !Orphaned(runs[i])
    {
      var before := runs;
      repaired := [];
      var i := 0;
      while i < |runs|
        invariant 0 <= i <= |runs| == |before|
        invariant forall k :: 0 <= k < i ==> runs[k] == RepairRun(before[k])
        invariant forall k :: i <= k < |runs| ==> runs[k] == before[k]
        invariant forall k :: k in repaired <==> 0 <= k < i && Orphaned(before[k])
        invariant forall k :: 0 <= k < i && failsAt == Some(k) ==> !Orphaned(before[k])
      {
        if runs[i].status.Running? && !runs[i].fromMcp {
          if failsAt == Some(i) {
            runs := before;
            return [], true;
          }
          var log := runs[i].log;
          if |log| > 0 && log[|log| - 1].ToolUse? { log := log + [ToolResult(log[|log| - 1].id)]; }
          runs := runs[i := Run(Error, runs[i].fromMcp, log)];
          repaired := repaired + [i];
        }
        i := i + 1;
      }
      threw := false;
      forall k | 0 <= k < |runs| && Orphaned(before[k]) ensures ClosedAndPaired(before[k], runs[k]) {
        RepairedIsPairedIff(before[k].log);
      }
    }
  }
}
