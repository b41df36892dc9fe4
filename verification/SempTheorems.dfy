/** What Semp promises each tenant, over every interleaving from an empty process. */
module SempTheorems {
  import opened Ordering
  import opened SempSpec
  import opened SempProofs

  lemma {:induction false} Reachable(steps: seq<Step>)
    ensures Inv(Exec(Init, steps))
  {
    RunKeeps(Init, steps);
  }

  lemma {:induction false} ExecAppend(s: State, steps: seq<Step>, more: seq<Step>)
    ensures Exec(s, steps + more) == Exec(Exec(s, steps), more)
    decreases |steps|
  {
    if steps == [] {
      assert steps + more == more;
    } else {
      assert (steps + more)[0] == steps[0] && (steps + more)[1..] == steps[1..] + more;
      ExecAppend(Apply(s, steps[0]), steps[1..], more);
    }
  }

  lemma {:induction false} ExecSnoc(s: State, steps: seq<Step>, step: Step)
    ensures Exec(s, steps + [step]) == Apply(Exec(s, steps), step)
  {
    ExecAppend(s, steps, [step]);
    assert [step][1..] == [];
  }

  // ---- the map ----

  /** A conversation in the map is waking or holds an entry; an entry is held by a call or has its pending timer. */
  lemma {:induction false} MapHoldsLiveConversations(steps: seq<Step>, t: Tenant)
    requires t in Exec(Init, steps).reg.conversations
    ensures var s := Exec(Init, steps);
            var sid := s.reg.conversations[t];
            && sid in s.reg.states && (s.reg.states[sid].waking || s.reg.states[sid].entry.Some?)
            && (s.reg.states[sid].waking ==> exists c :: HeldBy(s, t, sid, c))
            && (s.reg.states[sid].entry.Some? ==>
                  var run := s.reg.states[sid].entry.value;
                  run in s.reg.heap &&
                  if s.reg.heap[run].busy then exists c :: HeldBy(s, t, sid, c) && s.calls[c].Uses() && s.calls[c].run == run
                  else Armed(s.reg, run, t))
  {
    Reachable(steps);
    var s := Exec(Init, steps);
    assert TenantOk(s, t);
  }

  /** At most one call per tenant wakes, continues, pauses or closes its conversation. */
  lemma {:induction false} OneTurnPerTenant(steps: seq<Step>, b: CallId, c: CallId)
    requires var s := Exec(Init, steps);
             b in s.calls && c in s.calls && s.calls[b].Claims() && s.calls[c].Claims() && s.calls[b].t == s.calls[c].t
    ensures b == c
  {
    Reachable(steps);
    var s := Exec(Init, steps);
    assert CallOk(s, b, s.calls[b]) && CallOk(s, c, s.calls[c]);
  }

  // ---- drops ----

  /** What a step may do to a conversation object that was dropped. */
  ghost predicate NothingNew(s: State, u: State, sid: StateId) {
    && Dropped(u, sid) && s.nextCall <= u.nextCall
    && (forall c :: c in u.calls && u.calls[c].sid == sid && u.calls[c].InTurn() ==>
          c in s.calls && s.calls[c].sid == sid && s.calls[c].InTurn())
  }

  lemma ProceedAddsNothing(s: State, c: CallId, sid: StateId)
    requires Dropped(s, sid) && c in s.calls && Enabled(s, Proceeds(c))
    ensures NothingNew(s, Proceed(s, c), sid)
  {
  }

  lemma WakeThrowAddsNothing(s: State, c: CallId, t: Tenant, x: StateId, sid: StateId)
    requires Dropped(s, sid) && x in s.reg.states
    ensures NothingNew(s, WakeThrow(s, c, t, x), sid)
  {
  }

  lemma FirstTurnAddsNothing(s: State, c: CallId, t: Tenant, x: StateId, run: RunId, sid: StateId)
    requires Dropped(s, sid) && x in s.reg.states
    ensures NothingNew(s, FirstTurnEnd(s, c, false, t, x, run), sid)
    ensures s.reg.states[x].dropped ==> NothingNew(s, FirstTurnEnd(s, c, true, t, x, run), sid)
  {
  }

  lemma FirstTurnKeptAddsNothing(s: State, c: CallId, t: Tenant, x: StateId, run: RunId, sid: StateId)
    requires Dropped(s, sid) && x in s.reg.states && !s.reg.states[x].dropped
    ensures NothingNew(s, FirstTurnEnd(s, c, true, t, x, run), sid)
  {
    var armed := Arm(SetState(s.reg, x, s.reg.states[x].(entry := Some(run))), run, Pause(t));
    var reg := WakeEnds(armed, t, x);
    assert reg.states == s.reg.states[x := reg.states[x]] && x != sid;
    assert FirstTurnEnd(s, c, true, t, x, run).reg == reg;
  }

  lemma FirstFailAddsNothing(s: State, c: CallId, closed: bool, t: Tenant, x: StateId, run: RunId, sid: StateId)
    requires Dropped(s, sid) && x in s.reg.states
    ensures NothingNew(s, FirstFail(s, c, closed, t, x, run), sid)
  {
  }

  lemma TurnEndAddsNothing(s: State, c: CallId, ok: bool, t: Tenant, x: StateId, run: RunId, sid: StateId)
    requires Dropped(s, sid) && x in s.reg.states
    ensures NothingNew(s, TurnEnd(s, c, ok, t, x, run), sid)
  {
    if !ok {
      BrokenTurnStaysDropped(s.reg, t, x, run, sid);
      assert TurnEnd(s, c, ok, t, x, run).calls == s.calls[c := FailingTurn(t, x, run)];
    }
  }

  lemma BrokenTurnStaysDropped(r: Registry, t: Tenant, x: StateId, run: RunId, sid: StateId)
    requires sid in r.states && r.states[sid].dropped && x in r.states
    ensures var u := ReleaseIfIdle(ClearTimer(SetState(r, x, r.states[x].(entry := None)), run), t);
            sid in u.states && u.states[sid].dropped
  {
  }

  lemma DropSettleAddsNothing(s: State, c: CallId, ok: bool, applied: bool, t: Tenant, x: StateId, run: RunId, wake: bool, sid: StateId)
    requires Dropped(s, sid) && x in s.reg.states
    ensures NothingNew(s, DropSettle(s, c, ok, applied, t, x, run, wake), sid)
  {
  }

  lemma PauseFailedAddsNothing(s: State, c: CallId, t: Tenant, x: StateId, run: RunId, sid: StateId)
    requires Dropped(s, sid)
    ensures NothingNew(s, PauseFailed(s, c, t, x, run), sid)
  {
  }

  lemma PauseUpdateAddsNothing(s: State, c: CallId, ok: bool, t: Tenant, x: StateId, run: RunId, sid: StateId)
    requires Dropped(s, sid)
    ensures NothingNew(s, PauseUpdate(s, c, ok, t, x, run), sid)
  {
    if !ok || Dropped(s, x) { PauseFailedAddsNothing(s, c, t, x, run, sid); }
  }

  lemma PauseCommitAddsNothing(s: State, c: CallId, ok: bool, applied: bool, t: Tenant, x: StateId, run: RunId, sid: StateId)
    requires Dropped(s, sid)
    ensures NothingNew(s, PauseCommit(s, c, ok, applied, t, x, run), sid)
  {
    if !ok { PauseFailedAddsNothing(if applied then Missed(Close(s, run, Done), run) else s, c, t, x, run, sid); }
  }

  lemma PauseRecordAddsNothing(s: State, c: CallId, ok: bool, t: Tenant, x: StateId, run: RunId, sid: StateId)
    requires Dropped(s, sid) && x in s.reg.states
    ensures NothingNew(s, PauseRecord(s, c, ok, t, x, run), sid)
  {
    if !ok { PauseFailedAddsNothing(Missed(s, run), c, t, x, run, sid); }
  }

  lemma SendAddsNothing(s: State, t: Tenant, sid: StateId)
    requires Dropped(s, sid) && Enabled(s, Send(t)) && sid < s.reg.nextId
    ensures NothingNew(s, BeginWake(s, t), sid)
    ensures EntryOf(s.reg, t).Some? ==> NothingNew(s, BeginTurn(s, t, s.reg.conversations[t], EntryOf(s.reg, t).value), sid)
  {
  }

  lemma TimerAddsNothing(s: State, id: TimerId, sid: StateId)
    requires Dropped(s, sid) && id in s.reg.timers
    ensures NothingNew(s, Fire(s, id), sid)
  {
  }

  lemma DropAddsNothing(s: State, t: Tenant, sid: StateId)
    requires Dropped(s, sid) && t in s.reg.conversations && s.reg.conversations[t] in s.reg.states
    ensures NothingNew(s, Drop(s, t, s.reg.conversations[t]), sid)
  {
  }

  lemma WakeStepAddsNothing(s: State, step: Step, sid: StateId)
    requires Dropped(s, sid) && sid < s.reg.nextId && Enabled(s, step)
    requires step.Proceeds? || step.WakeThrows? || step.InsertThrows? || step.FirstTurnEnds? || step.FirstFailSettles?
    ensures NothingNew(s, Apply(s, step), sid)
  {
    match step
    case Proceeds(c) => ProceedAddsNothing(s, c, sid);
    case WakeThrows(c) => WakeThrowAddsNothing(s, c, s.calls[c].t, s.calls[c].sid, sid);
    case InsertThrows(c) => WakeThrowAddsNothing(Inserted(s, s.calls[c].t), c, s.calls[c].t, s.calls[c].sid, sid);
    case FirstTurnEnds(c, ok) =>
      if ok && !s.reg.states[s.calls[c].sid].dropped { FirstTurnKeptAddsNothing(s, c, s.calls[c].t, s.calls[c].sid, s.calls[c].run, sid); }
      else { FirstTurnAddsNothing(s, c, s.calls[c].t, s.calls[c].sid, s.calls[c].run, sid); }
    case FirstFailSettles(c, closed) => FirstFailAddsNothing(s, c, closed, s.calls[c].t, s.calls[c].sid, s.calls[c].run, sid);
  }

  lemma CloseStepAddsNothing(s: State, step: Step, sid: StateId)
    requires Dropped(s, sid) && sid < s.reg.nextId && Enabled(s, step)
    requires step.PauseUpdated? || step.PauseCommitted? || step.PauseRecorded? || step.DropSettles?
    ensures NothingNew(s, Apply(s, step), sid)
  {
    match step
    case PauseUpdated(c, ok) => PauseUpdateAddsNothing(s, c, ok, s.calls[c].t, s.calls[c].sid, s.calls[c].run, sid);
    case PauseCommitted(c, ok, applied) => PauseCommitAddsNothing(s, c, ok, applied, s.calls[c].t, s.calls[c].sid, s.calls[c].run, sid);
    case PauseRecorded(c, ok) => PauseRecordAddsNothing(s, c, ok, s.calls[c].t, s.calls[c].sid, s.calls[c].run, sid);
    case DropSettles(c, ok, applied) =>
      DropSettleAddsNothing(s, c, ok, applied, s.calls[c].t, s.calls[c].sid, s.calls[c].run, s.calls[c].wake, sid);
  }

  lemma StepAddsNothing(s: State, step: Step, sid: StateId)
    requires Dropped(s, sid) && sid < s.reg.nextId
    ensures NothingNew(s, Apply(s, step), sid)
  {
    if Enabled(s, step) {
      match step
      case Send(t) => SendAddsNothing(s, t, sid);
      case TurnEnds(c, ok) => TurnEndAddsNothing(s, c, ok, s.calls[c].t, s.calls[c].sid, s.calls[c].run, sid);
      case TurnFailSettles(c, closed) => FailureAddsNothing(s, c, closed, sid);
      case DropTenant(t) => DropAddsNothing(s, t, sid);
      case TimerFires(id) => TimerAddsNothing(s, id, sid);
      case OtherWriter(run, status) => RowAddsNothing(s, run, status, sid);
      case PauseUpdated(_, _) => CloseStepAddsNothing(s, step, sid);
      case PauseCommitted(_, _, _) => CloseStepAddsNothing(s, step, sid);
      case PauseRecorded(_, _) => CloseStepAddsNothing(s, step, sid);
      case DropSettles(_, _, _) => CloseStepAddsNothing(s, step, sid);
      case _ => WakeStepAddsNothing(s, step, sid);
    }
  }

  lemma RowAddsNothing(s: State, run: RunId, status: Status, sid: StateId)
    requires Dropped(s, sid)
    ensures NothingNew(s, Interfere(s, run, status), sid)
  {
  }

  lemma FailureAddsNothing(s: State, c: CallId, closed: bool, sid: StateId)
    requires Dropped(s, sid) && c in s.calls && s.calls[c].FailingTurn?
    ensures NothingNew(s, TurnFail(s, c, closed, s.calls[c].run), sid)
  {
  }

  lemma {:induction false} RunAddsNothing(s: State, more: seq<Step>, sid: StateId)
    requires Inv(s) && Dropped(s, sid)
    ensures NothingNew(s, Exec(s, more), sid)
    decreases |more|
  {
    if more != [] {
      StepKeeps(s, more[0]);
      StepAddsNothing(s, more[0], sid);
      RunAddsNothing(Apply(s, more[0]), more[1..], sid);
    }
  }

  /**
   * A dropped conversation stays dropped and refuses every message; a turn still in flight on it at any
   * later moment was already in flight when the tenant was dropped.
   */
  lemma {:induction false} DroppedStartsNoTurn(steps: seq<Step>, more: seq<Step>, t: Tenant, sid: StateId)
    requires Dropped(Exec(Init, steps), sid)
    ensures var s, u := Exec(Init, steps), Exec(Init, steps + more);
            && NothingNew(s, u, sid)
            && (t in u.reg.conversations && u.reg.conversations[t] == sid ==> SendRefused(u.reg, t))
  {
    Reachable(steps);
    ExecAppend(Init, steps, more);
    RunAddsNothing(Exec(Init, steps), more, sid);
  }

  // ---- rows ----

  /** Call `c` is closing a run whose turn failed. */
  ghost predicate Settling(s: State, run: RunId, c: CallId) {
    c in s.calls && s.calls[c].FailingTurn? && s.calls[c].run == run
  }

  ghost predicate FailersSettle(s: State) {
    forall run :: run in s.failing ==> exists c :: Settling(s, run, c)
  }

  /** No failing close is touched by the step. */
  ghost predicate KeepsFailers(s: State, u: State) {
    u.failing == s.failing && forall b :: b in s.calls && s.calls[b].FailingTurn? ==> b in u.calls && u.calls[b] == s.calls[b]
  }

  lemma KeepingFailers(s: State, u: State)
    requires FailersSettle(s) && KeepsFailers(s, u)
    ensures FailersSettle(u)
  {
    forall run | run in u.failing ensures exists c :: Settling(u, run, c) {
      var c :| Settling(s, run, c);
      assert Settling(u, run, c);
    }
  }

  lemma FailureSettles(s: State, c: CallId, closed: bool)
    requires FailersSettle(s) && c in s.calls && s.calls[c].FailingTurn?
    ensures FailersSettle(TurnFail(s, c, closed, s.calls[c].run))
  {
    var u := TurnFail(s, c, closed, s.calls[c].run);
    forall run | run in u.failing ensures exists b :: Settling(u, run, b) {
      var b :| Settling(s, run, b);
      assert Settling(u, run, b);
    }
  }

  lemma FailureBegins(s: State, c: CallId, t: Tenant, x: StateId, run: RunId)
    requires FailersSettle(s) && c in s.calls && s.calls[c].Turn? && x in s.reg.states
    ensures FailersSettle(TurnEnd(s, c, false, t, x, run))
  {
    var u := TurnEnd(s, c, false, t, x, run);
    forall r | r in u.failing ensures exists b :: Settling(u, r, b) {
      if r == run {
        assert Settling(u, r, c);
      } else {
        var b :| Settling(s, r, b);
        assert Settling(u, r, b);
      }
    }
  }

  lemma ProceedKeepsFailers(s: State, c: CallId)
    requires c in s.calls && s.calls[c].Wakes()
    ensures KeepsFailers(s, Proceed(s, c))
  {
  }

  lemma WakeKeepsFailers(s: State, c: CallId, ok: bool, t: Tenant, x: StateId, run: RunId)
    requires c in s.calls && s.calls[c].Wakes() && x in s.reg.states
    ensures KeepsFailers(s, WakeThrow(s, c, t, x))
    ensures KeepsFailers(s, FirstTurnEnd(s, c, ok, t, x, run)) && KeepsFailers(s, FirstFail(s, c, ok, t, x, run))
  {
  }

  lemma PauseFailedKeepsFailers(s: State, c: CallId, t: Tenant, x: StateId, run: RunId)
    requires c in s.calls && s.calls[c].Uses()
    ensures KeepsFailers(s, PauseFailed(s, c, t, x, run)) && KeepsFailers(s, PauseUpdate(s, c, true, t, x, run))
    ensures KeepsFailers(s, PauseFailed(Missed(s, run), c, t, x, run))
  {
  }

  lemma PauseKeepsFailers(s: State, c: CallId, ok: bool, applied: bool, t: Tenant, x: StateId, run: RunId)
    requires c in s.calls && s.calls[c].Uses()
    ensures KeepsFailers(s, PauseUpdate(s, c, ok, t, x, run)) && KeepsFailers(s, PauseCommit(s, c, ok, applied, t, x, run))
    ensures x in s.reg.states ==> KeepsFailers(s, PauseRecord(s, c, ok, t, x, run))
  {
    PauseFailedKeepsFailers(s, c, t, x, run);
    PauseFailedKeepsFailers(Close(s, run, Done), c, t, x, run);
  }

  lemma TurnKeepsFailers(s: State, c: CallId, t: Tenant, x: StateId, run: RunId)
    requires c in s.calls && s.calls[c].Uses() && x in s.reg.states
    ensures KeepsFailers(s, TurnEnd(s, c, true, t, x, run))
  {
  }

  lemma DropSettleKeepsFailers(s: State, c: CallId, ok: bool, applied: bool, t: Tenant, x: StateId, run: RunId, wake: bool)
    requires c in s.calls && s.calls[c].Uses() && x in s.reg.states
    ensures KeepsFailers(s, DropSettle(s, c, ok, applied, t, x, run, wake))
  {
  }

  lemma SendKeepsFailers(s: State, t: Tenant)
    requires s.nextCall !in s.calls
    ensures KeepsFailers(s, BeginWake(s, t))
    ensures EntryOf(s.reg, t).Some? ==> KeepsFailers(s, BeginTurn(s, t, s.reg.conversations[t], EntryOf(s.reg, t).value))
  {
  }

  lemma DropKeepsFailers(s: State, t: Tenant, x: StateId)
    requires s.nextCall !in s.calls && x in s.reg.states
    ensures KeepsFailers(s, Drop(s, t, x))
  {
  }

  lemma FireKeepsFailers(s: State, id: TimerId)
    requires s.nextCall !in s.calls && id in s.reg.timers
    ensures KeepsFailers(s, Fire(s, id))
  {
  }

  /** Only a turn that fails, and the close that follows it, concern the runs whose close is in flight. */
  lemma OthersKeepFailers(s: State, step: Step)
    requires s.nextCall !in s.calls && !step.TurnFailSettles? && !(step.TurnEnds? && !step.ok)
    ensures KeepsFailers(s, Apply(s, step))
  {
    if Enabled(s, step) {
      match step
      case Send(t) => SendKeepsFailers(s, t);
      case Proceeds(c) => ProceedKeepsFailers(s, c);
      case WakeThrows(c) => WakeKeepsFailers(s, c, true, s.calls[c].t, s.calls[c].sid, 0);
      case InsertThrows(c) => WakeKeepsFailers(Inserted(s, s.calls[c].t), c, true, s.calls[c].t, s.calls[c].sid, 0);
      case FirstTurnEnds(c, ok) => WakeKeepsFailers(s, c, ok, s.calls[c].t, s.calls[c].sid, s.calls[c].run);
      case FirstFailSettles(c, closed) => WakeKeepsFailers(s, c, closed, s.calls[c].t, s.calls[c].sid, s.calls[c].run);
      case TurnEnds(c, ok) => TurnKeepsFailers(s, c, s.calls[c].t, s.calls[c].sid, s.calls[c].run);
      case TurnFailSettles(c, closed) =>
      case DropTenant(t) => DropKeepsFailers(s, t, s.reg.conversations[t]);
      case TimerFires(id) => FireKeepsFailers(s, id);
      case PauseUpdated(c, ok) => PauseKeepsFailers(s, c, ok, false, s.calls[c].t, s.calls[c].sid, s.calls[c].run);
      case PauseCommitted(c, ok, applied) => PauseKeepsFailers(s, c, ok, applied, s.calls[c].t, s.calls[c].sid, s.calls[c].run);
      case PauseRecorded(c, ok) => PauseKeepsFailers(s, c, ok, false, s.calls[c].t, s.calls[c].sid, s.calls[c].run);
      case DropSettles(c, ok, applied) =>
        DropSettleKeepsFailers(s, c, ok, applied, s.calls[c].t, s.calls[c].sid, s.calls[c].run, s.calls[c].wake);
      case OtherWriter(run, status) =>
    }
  }

  lemma FailersKept(s: State, step: Step)
    requires FailersSettle(s) && s.nextCall !in s.calls
    ensures FailersSettle(Apply(s, step))
  {
    if step.TurnFailSettles? {
      if Enabled(s, step) { FailureSettles(s, step.c, step.closed); }
    } else if step.TurnEnds? && !step.ok {
      if Enabled(s, step) { FailureBegins(s, step.c, s.calls[step.c].t, s.calls[step.c].sid, s.calls[step.c].run); }
    } else {
      OthersKeepFailers(s, step);
      KeepingFailers(s, Apply(s, step));
    }
  }

  lemma {:induction false} FailersKeep(s: State, steps: seq<Step>)
    requires FailersSettle(s) && Inv(s)
    ensures FailersSettle(Exec(s, steps))
    decreases |steps|
  {
    if steps != [] {
      forall c | c in s.calls ensures c != s.nextCall { assert CallOk(s, c, s.calls[c]); }
      FailersKept(s, steps[0]);
      StepKeeps(s, steps[0]);
      FailersKeep(Apply(s, steps[0]), steps[1..]);
    }
  }

  /** No row is left `running` behind: it is tracked, being closed, or its best-effort close failed. */
  lemma {:induction false} WokenRunIsTracked(steps: seq<Step>, run: RunId)
    requires run in Exec(Init, steps).woken
    ensures var s := Exec(Init, steps);
            && run in s.runs && run in s.home
            && (s.runs[run] != Running || (exists c :: Settling(s, run, c)) || run in s.lost
                || (EntryOf(s.reg, s.home[run]) == Some(run) && run in s.reg.heap
                    && (if s.reg.heap[run].busy then exists c :: c in s.calls && s.calls[c].Uses() && s.calls[c].run == run
                        else Armed(s.reg, run, s.home[run]))))
  {
    Reachable(steps);
    var s := Exec(Init, steps);
    FailersKeep(Init, steps);
    assert RunOk(s, run);
    if EntryOf(s.reg, s.home[run]) == Some(run) {
      assert TenantOk(s, s.home[run]);
    }
  }

  /** A run dropped while `running`, before any pause of it passed its check, is never `done` by Semp's hand. */
  lemma {:induction false} DoomedRunNeverDone(steps: seq<Step>, run: RunId)
    requires run in Exec(Init, steps).doomed
    ensures var s := Exec(Init, steps); run in s.runs && (s.runs[run] == Done ==> run in s.others)
  {
    Reachable(steps);
    assert RunOk(Exec(Init, steps), run);
  }

  /** A drop seen by the pause's check rolls its `done` back and turns the pause into a close. */
  lemma {:induction false} SeenDropRollsBack(steps: seq<Step>, c: CallId, ok: bool)
    requires var s := Exec(Init, steps); c in s.calls && s.calls[c].Pausing? && Dropped(s, s.calls[c].sid)
    ensures var s, u := Exec(Init, steps), Exec(Init, steps + [PauseUpdated(c, ok)]);
            u.runs == s.runs && c in u.calls && u.calls[c] == Dropping(s.calls[c].t, s.calls[c].sid, s.calls[c].run, false)
  {
    ExecAppend(Init, steps, [PauseUpdated(c, ok)]);
    assert [PauseUpdated(c, ok)][1..] == [];
  }

  /** A close of a dropped run that succeeds leaves it terminal, `error` unless it had ended before, and forgotten. */
  lemma {:induction false} SuccessfulDropRecordsError(steps: seq<Step>, c: CallId, applied: bool)
    requires var s := Exec(Init, steps); c in s.calls && s.calls[c].Dropping?
    ensures var s, u := Exec(Init, steps), Exec(Init, steps + [DropSettles(c, true, applied)]);
            var call := s.calls[c];
            && call.run in s.runs && call.run in u.runs && u.runs[call.run] != Running
            && (s.runs[call.run] == Running ==> u.runs[call.run] == Error)
            && (s.runs[call.run] != Running ==> u.runs[call.run] == s.runs[call.run])
            && (call.run in s.doomed && call.run !in s.others ==> u.runs[call.run] == Error)
            && call.t !in u.reg.conversations && c !in u.calls
  {
    Reachable(steps);
    var s := Exec(Init, steps);
    ExecSnoc(Init, steps, DropSettles(c, true, applied));
    assert CallOk(s, c, s.calls[c]);
    assert TenantOk(s, s.calls[c].t);
    assert s.calls[c].run in s.doomed ==> RunOk(s, s.calls[c].run);
    DropSettleApplies(s, c, applied);
    DropSettlesRow(s, c, applied, s.calls[c].t, s.calls[c].sid, s.calls[c].run, s.calls[c].wake);
  }

  lemma DropSettleApplies(s: State, c: CallId, applied: bool)
    requires c in s.calls && s.calls[c].Dropping? && Has(s, c, s.calls[c].sid)
    ensures Apply(s, DropSettles(c, true, applied)) ==
            DropSettle(s, c, true, applied, s.calls[c].t, s.calls[c].sid, s.calls[c].run, s.calls[c].wake)
  {
  }

  lemma DropSettlesRow(s: State, c: CallId, applied: bool, t: Tenant, sid: StateId, run: RunId, wake: bool)
    requires c in s.calls && sid in s.reg.states && t in s.reg.conversations && s.reg.conversations[t] == sid
    requires s.reg.states[sid].waking == wake && run in s.runs
    ensures var u := DropSettle(s, c, true, applied, t, sid, run, wake);
            && run in u.runs && u.runs[run] == (if s.runs[run] == Running then Error else s.runs[run])
            && t !in u.reg.conversations && c !in u.calls
  {
  }

  /** Which stretch of code a resuming call runs. */
  lemma FailureResumes(s: State, c: CallId, closed: bool)
    requires c in s.calls && (s.calls[c].FailingTurn? || (s.calls[c].FailingFirst? && s.calls[c].sid in s.reg.states))
    ensures s.calls[c].FailingFirst? ==>
              Apply(s, FirstFailSettles(c, closed)) == FirstFail(s, c, closed, s.calls[c].t, s.calls[c].sid, s.calls[c].run)
    ensures s.calls[c].FailingTurn? ==> Apply(s, TurnFailSettles(c, closed)) == TurnFail(s, c, closed, s.calls[c].run)
  {
  }

  lemma TurnResumes(s: State, c: CallId, ok: bool)
    requires c in s.calls && s.calls[c].Turn? && s.calls[c].sid in s.reg.states
    ensures Apply(s, TurnEnds(c, ok)) == TurnEnd(s, c, ok, s.calls[c].t, s.calls[c].sid, s.calls[c].run)
  {
  }

  lemma PauseResumes(s: State, c: CallId, ok: bool, applied: bool)
    requires c in s.calls && (s.calls[c].Committing? || s.calls[c].PauseRecording?) && s.calls[c].sid in s.reg.states
    ensures s.calls[c].Committing? ==>
              Apply(s, PauseCommitted(c, ok, applied)) == PauseCommit(s, c, ok, applied, s.calls[c].t, s.calls[c].sid, s.calls[c].run)
    ensures s.calls[c].PauseRecording? ==>
              Apply(s, PauseRecorded(c, ok)) == PauseRecord(s, c, ok, s.calls[c].t, s.calls[c].sid, s.calls[c].run)
  {
  }

  lemma FailingRowEnds(s: State, c: CallId, t: Tenant, sid: StateId, run: RunId)
    requires run in s.runs
    ensures var ended := if s.runs[run] == Running then s.runs[run := Error] else s.runs;
            && TurnFail(s, c, true, run).runs == ended && TurnFail(s, c, false, run).runs == s.runs
            && (sid in s.reg.states ==>
                  FirstFail(s, c, true, t, sid, run).runs == ended && FirstFail(s, c, false, t, sid, run).runs == s.runs)
  {
  }

  /** An idle conversation of the map, waiting for its next message. */
  predicate Idle(r: Registry, t: Tenant) {
    t in r.conversations && r.conversations[t] in r.states &&
    var v := r.states[r.conversations[t]];
    !v.waking && !v.dropped && v.entry.Some? && v.entry.value in r.heap && !r.heap[v.entry.value].busy
  }

  lemma SendContinues(s: State, t: Tenant)
    requires Idle(s.reg, t)
    ensures var sid, run := s.reg.conversations[t], s.reg.states[s.reg.conversations[t]].entry.value;
            var u := Apply(s, Send(t));
            && u.calls == s.calls[s.nextCall := Turn(t, sid, run)] && u.reg.heap == s.reg.heap[run := s.reg.heap[run].(busy := true)]
            && u.reg.states == s.reg.states && u.reg.conversations == s.reg.conversations && u.reg.timers == s.reg.timers
  {
  }

  lemma SendWakes(s: State, t: Tenant)
    requires t !in s.reg.conversations
    ensures var u := Apply(s, Send(t));
            && u.calls == s.calls[s.nextCall := Resolving(t, s.reg.nextId)]
            && u.reg.conversations == s.reg.conversations[t := s.reg.nextId]
            && u.reg.states == s.reg.states[s.reg.nextId := Conversation(None, true, false)]
  {
  }

  /**
   * A message is refused exactly while its tenant's conversation is waking, dropped or busy; otherwise it continues
   * the idle conversation, claiming its entry, or wakes a new one.
   */
  lemma {:induction false} MessageIsTaken(steps: seq<Step>, t: Tenant)
    ensures var s, u := Exec(Init, steps), Apply(Exec(Init, steps), Send(t));
            if t !in s.reg.conversations
            then u.calls == s.calls[s.nextCall := Resolving(t, s.reg.nextId)]
                 && u.reg.conversations == s.reg.conversations[t := s.reg.nextId]
                 && u.reg.states == s.reg.states[s.reg.nextId := Conversation(None, true, false)]
            else
              var sid := s.reg.conversations[t];
              sid in s.reg.states
              && (if s.reg.states[sid].waking || s.reg.states[sid].dropped then u == s
                  else
                    EntryOf(s.reg, t).Some? &&
                    var run := EntryOf(s.reg, t).value;
                    run in s.reg.heap
                    && (if s.reg.heap[run].busy then u == s
                        else u.calls == s.calls[s.nextCall := Turn(t, sid, run)]
                             && u.reg.heap == s.reg.heap[run := s.reg.heap[run].(busy := true)]))
  {
    Reachable(steps);
    var s := Exec(Init, steps);
    if t in s.reg.conversations {
      assert TenantOk(s, t);
      if Idle(s.reg, t) { SendContinues(s, t); } else { assert SendRefused(s.reg, t); }
    } else {
      SendWakes(s, t);
    }
  }

  /** A failed turn, first or continued, whose close takes effect leaves its run `error` unless it had ended before. */
  lemma {:induction false} FailedTurnEndsInError(steps: seq<Step>, c: CallId, closed: bool)
    requires var s := Exec(Init, steps); c in s.calls && (s.calls[c].FailingFirst? || s.calls[c].FailingTurn?)
    ensures var s := Exec(Init, steps);
            var u := Apply(s, if s.calls[c].FailingFirst? then FirstFailSettles(c, closed) else TurnFailSettles(c, closed));
            && s.calls[c].run in s.runs
            && u.runs == (if closed && s.runs[s.calls[c].run] == Running then s.runs[s.calls[c].run := Error] else s.runs)
            && (s.calls[c].FailingFirst? ==> s.calls[c].t !in u.reg.conversations) && c !in u.calls
  {
    Reachable(steps);
    var s := Exec(Init, steps);
    assert CallOk(s, c, s.calls[c]);
    FailureResumes(s, c, closed);
    FailingRowEnds(s, c, s.calls[c].t, s.calls[c].sid, s.calls[c].run);
  }

  lemma BrokenTurn(s: State, c: CallId, t: Tenant, sid: StateId, run: RunId)
    requires t in s.reg.conversations && s.reg.conversations[t] == sid && sid in s.reg.states && !s.reg.states[sid].waking
    requires run in s.reg.heap
    ensures var u := TurnEnd(s, c, false, t, sid, run);
            && t !in u.reg.conversations && u.runs == s.runs && c in u.calls && u.calls[c] == FailingTurn(t, sid, run)
            && (s.reg.heap[run].timer.Some? ==> s.reg.heap[run].timer.value !in u.reg.timers)
  {
  }

  /** A continued turn that fails forgets the conversation and its timer before its run is closed. */
  lemma {:induction false} BrokenTurnIsForgotten(steps: seq<Step>, c: CallId)
    requires var s := Exec(Init, steps); c in s.calls && s.calls[c].Turn?
    ensures var s := Exec(Init, steps);
            var call, u := s.calls[c], Apply(s, TurnEnds(c, false));
            && call.t !in u.reg.conversations && u.runs == s.runs
            && c in u.calls && u.calls[c] == FailingTurn(call.t, call.sid, call.run)
            && call.run in s.reg.heap && (s.reg.heap[call.run].timer.Some? ==> s.reg.heap[call.run].timer.value !in u.reg.timers)
  {
    Reachable(steps);
    var s := Exec(Init, steps);
    assert CallOk(s, c, s.calls[c]);
    TurnResumes(s, c, false);
    BrokenTurn(s, c, s.calls[c].t, s.calls[c].sid, s.calls[c].run);
  }

  lemma PauseEnds(s: State, c: CallId, applied: bool, t: Tenant, sid: StateId, run: RunId)
    requires run in s.runs && t in s.reg.conversations && s.reg.conversations[t] == sid && sid in s.reg.states
    requires !s.reg.states[sid].waking
    ensures var u := PauseCommit(s, c, true, applied, t, sid, run);
            && u.runs == (if s.runs[run] == Running then s.runs[run := Done] else s.runs) && u.reg == s.reg
            && c in u.calls && u.calls[c] == PauseRecording(t, sid, run)
    ensures var u := PauseRecord(s, c, true, t, sid, run); t !in u.reg.conversations && u.runs == s.runs && c !in u.calls
  {
  }

  /** A pause's commit leaves its run `done` unless it had ended before, and recording it forgets the conversation. */
  lemma {:induction false} PausedRunEndsDone(steps: seq<Step>, c: CallId, applied: bool)
    requires var s := Exec(Init, steps); c in s.calls && (s.calls[c].Committing? || s.calls[c].PauseRecording?)
    ensures var s := Exec(Init, steps);
            var call := s.calls[c];
            && call.run in s.runs
            && (call.Committing? ==>
                  var u := Apply(s, PauseCommitted(c, true, applied));
                  && u.runs == (if s.runs[call.run] == Running then s.runs[call.run := Done] else s.runs)
                  && u.reg == s.reg && c in u.calls && u.calls[c] == PauseRecording(call.t, call.sid, call.run))
            && (call.PauseRecording? ==>
                  var u := Apply(s, PauseRecorded(c, true)); call.t !in u.reg.conversations && u.runs == s.runs && c !in u.calls)
  {
    Reachable(steps);
    var s := Exec(Init, steps);
    assert CallOk(s, c, s.calls[c]);
    PauseResumes(s, c, true, applied);
    PauseEnds(s, c, applied, s.calls[c].t, s.calls[c].sid, s.calls[c].run);
  }

  // ---- what Semp does not promise ----

  /** Tenant 0's first message is on its way to a model turn. */
  function Waking0(runs: map<RunId, Status>, call: Call): State {
    State(Registry(map[0 := 0], map[0 := Conversation(None, true, false)], map[], map[], |runs| + 1), runs, map[0 := call], 1,
          map[0 := 0], {}, {}, {}, {}, {}, map run | run in runs :: 0, {})
  }

  function WakeStage(i: int): Call {
    if i <= 0 then Resolving(0, 0) else if i == 1 then Reconstructing(0, 0) else if i == 2 then Creating(0, 0)
    else if i == 3 then Announcing(0, 0, 1) else if i == 4 then Persisting(0, 0, 1) else FirstTurn(0, 0, 1)
  }

  /** Tenant 0 holds an entry on run 1. */
  function Awake0(
    e: Entry, timers: map<TimerId, Timer>, nextId: nat, status: Status, calls: map<CallId, Call>, nextCall: nat, owner: CallId,
    missed: set<RunId>): State
  {
    State(Registry(map[0 := 0], map[0 := Conversation(Some(1), false, false)], map[1 := e], timers, nextId),
          map[1 := status], calls, nextCall, map[0 := owner], {1}, {}, {}, {}, {}, map[1 := 0], missed)
  }

  function WakingAt(i: int): State {
    Waking0(if i < 3 then map[] else map[1 := Running], WakeStage(i))
  }

  lemma WakeStep(i: int)
    requires 0 <= i < 5
    ensures Apply(WakingAt(i), Proceeds(0)) == WakingAt(i + 1)
  {
    var s := WakingAt(i);
    assert Apply(s, Proceeds(0)) == Proceed(s, 0);
    if i == 2 { RunInserted(); } else { WakeAdvances(i); }
  }

  lemma WakeAdvances(i: int)
    requires 0 <= i < 5 && i != 2
    ensures Proceed(WakingAt(i), 0) == WakingAt(i + 1)
  {
    assert WakingAt(i).calls[0 := WakeStage(i + 1)] == WakingAt(i + 1).calls;
  }

  lemma RunInserted()
    ensures Proceed(WakingAt(2), 0) == WakingAt(3)
  {
    var s := WakingAt(2);
    assert s.calls[0 := WakeStage(3)] == WakingAt(3).calls;
    assert s.home[1 := 0] == WakingAt(3).home;
  }

  lemma WakeBegins()
    ensures Apply(Init, Send(0)) == WakingAt(0)
  {
    assert Apply(Init, Send(0)) == BeginWake(Init, 0);
    assert WakingAt(0).home == map[];
  }

  lemma WakeSucceeds()
    ensures Apply(WakingAt(5), FirstTurnEnds(0, true)) == Awake0(Entry(false, Some(2)), map[2 := Pause(0)], 3, Running, map[], 1, 0, {})
  {
    var s := WakingAt(5);
    FirstTurnApplies(s);
    EntryArmed(s.reg);
    assert s.calls - {0} == map[] && s.home == map[1 := 0];
  }

  lemma EntryArmed(r: Registry)
    requires r == Registry(map[0 := 0], map[0 := Conversation(None, true, false)], map[], map[], 2)
    ensures WakeEnds(Arm(SetState(r, 0, Conversation(Some(1), true, false)), 1, Pause(0)), 0, 0) ==
            Registry(map[0 := 0], map[0 := Conversation(Some(1), false, false)], map[1 := Entry(false, Some(2))], map[2 := Pause(0)], 3)
  {
    var armed := Arm(SetState(r, 0, Conversation(Some(1), true, false)), 1, Pause(0));
    assert armed == Registry(map[0 := 0], map[0 := Conversation(Some(1), true, false)], map[1 := Entry(false, Some(2))], map[2 := Pause(0)], 3);
    assert SetState(armed, 0, Conversation(Some(1), false, false)).states == map[0 := Conversation(Some(1), false, false)];
  }

  lemma FirstTurnApplies(s: State)
    requires Enabled(s, FirstTurnEnds(0, true)) && s.calls[0] == FirstTurn(0, 0, 1)
    ensures Apply(s, FirstTurnEnds(0, true)) == FirstTurnEnd(s, 0, true, 0, 0, 1)
  {
  }

  /** One message wakes the conversation and its turn succeeds: an idle entry for run 1, its pause due on timer 2. */
  lemma FirstMessage() returns (steps: seq<Step>)
    ensures Exec(Init, steps) == Awake0(Entry(false, Some(2)), map[2 := Pause(0)], 3, Running, map[], 1, 0, {})
  {
    ExecSnoc(Init, [], Send(0));
    steps := [] + [Send(0)];
    WakeBegins();
    var i := 0;
    while i < 5
      invariant 0 <= i <= 5 && Exec(Init, steps) == WakingAt(i)
    {
      ExecSnoc(Init, steps, Proceeds(0));
      WakeStep(i);
      steps, i := steps + [Proceeds(0)], i + 1;
    }
    ExecSnoc(Init, steps, FirstTurnEnds(0, true));
    WakeSucceeds();
    steps := steps + [FirstTurnEnds(0, true)];
  }

  /** The pause of run 1, stage by stage: it commits `done`, and then its status push throws. */
  function PausingAt(i: int): State {
    if i <= 0 then Awake0(Entry(false, Some(2)), map[2 := Pause(0)], 3, Running, map[], 1, 0, {})
    else if i == 1 then Awake0(Entry(true, Some(2)), map[], 3, Running, map[1 := Pausing(0, 0, 1)], 2, 1, {})
    else if i == 2 then Awake0(Entry(true, Some(2)), map[], 3, Running, map[1 := Committing(0, 0, 1)], 2, 1, {})
    else if i == 3 then Awake0(Entry(true, Some(2)), map[], 3, Done, map[1 := PauseRecording(0, 0, 1)], 2, 1, {})
    else Awake0(Entry(false, Some(3)), map[3 := Pause(0)], 4, Done, map[], 2, 1, {1})
  }

  function PauseStep(i: int): Step {
    if i <= 0 then TimerFires(2) else if i == 1 then PauseUpdated(1, true)
    else if i == 2 then PauseCommitted(1, true, true) else PauseRecorded(1, false)
  }

  lemma PauseClaims()
    ensures Apply(PausingAt(0), PauseStep(0)) == PausingAt(1)
  {
    var s := PausingAt(0);
    assert Apply(s, PauseStep(0)) == Fire(s, 2);
    assert s.reg.timers - {2} == map[];
  }

  lemma PausePasses()
    ensures Apply(PausingAt(1), PauseStep(1)) == PausingAt(2)
  {
    assert Apply(PausingAt(1), PauseStep(1)) == PauseUpdate(PausingAt(1), 1, true, 0, 0, 1);
  }

  lemma PauseCommits()
    ensures Apply(PausingAt(2), PauseStep(2)) == PausingAt(3)
  {
    assert Apply(PausingAt(2), PauseStep(2)) == PauseCommit(PausingAt(2), 1, true, true, 0, 0, 1);
  }

  lemma PauseThrows()
    ensures Apply(PausingAt(3), PauseStep(3)) == PausingAt(4)
  {
    var s := PausingAt(3);
    assert Apply(s, PauseStep(3)) == PauseRecord(s, 1, false, 0, 0, 1);
    assert s.calls - {1} == map[];
  }

  lemma MessageContinues()
    ensures var s := Apply(PausingAt(4), Send(0)); 2 in s.calls && s.calls[2] == Turn(0, 0, 1) && s.runs == map[1 := Done]
  {
    var s := PausingAt(4);
    assert Apply(s, Send(0)) == BeginTurn(s, 0, 0, 1);
  }

  /** A pause whose status push fails keeps the idle entry of a `done` run, and the next message continues it. */
  lemma FailedPushReusesDoneRun() returns (steps: seq<Step>)
    ensures var s := Exec(Init, steps); 2 in s.calls && s.calls[2] == Turn(0, 0, 1) && s.runs == map[1 := Done]
  {
    steps := FirstMessage();
    var i := 0;
    while i < 4
      invariant 0 <= i <= 4 && Exec(Init, steps) == PausingAt(i)
    {
      ExecSnoc(Init, steps, PauseStep(i));
      if i == 0 { PauseClaims(); } else if i == 1 { PausePasses(); } else if i == 2 { PauseCommits(); } else { PauseThrows(); }
      steps, i := steps + [PauseStep(i)], i + 1;
    }
    ExecSnoc(Init, steps, Send(0));
    MessageContinues();
    steps := steps + [Send(0)];
  }
}
