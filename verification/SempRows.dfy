/** Which rows Semp's turns start on: exactly when a message continues a run that is no longer `running`. */
module SempRows {
  import opened Ordering
  import opened SempSpec
  import opened SempProofs

  /** The run a step starts a model turn on: an idle entry's, or a wake's own. */
  function StartsTurn(s: State, step: Step): Option<RunId> {
    if step.Send? && Enabled(s, step) then EntryOf(s.reg, step.t)
    else if step.Proceeds? && Enabled(s, step) && s.calls[step.c].Persisting? then Some(s.calls[step.c].run)
    else None
  }

  predicate ClosedElsewhere(s: State, run: RunId) {
    run in s.missed || run in s.others
  }

  predicate Closed(s: State, run: RunId) {
    run in s.runs && s.runs[run] != Running
  }

  // ---- rows ----

  /** The run of tenant `t`'s entry, unless its conversation was dropped. */
  function LiveEntry(r: Registry, t: Tenant): Option<RunId> {
    if EntryOf(r, t).Some? && !r.states[r.conversations[t]].dropped then EntryOf(r, t) else None
  }

  function WakeRun(calls: map<CallId, Call>, c: CallId): Option<RunId> {
    if c in calls && calls[c].Wakes() && calls[c].HasRun() then Some(calls[c].run) else None
  }

  /** A pause has committed its run's `done` and is recording it. */
  predicate Recording(calls: map<CallId, Call>, c: CallId, run: RunId) {
    c in calls && calls[c].PauseRecording? && calls[c].run == run
  }

  /** A run Semp may start a turn on has a row, closed only by a pause that failed afterwards or by another writer. */
  ghost predicate RowsOk(s: State) {
    && (forall run :: ClosedElsewhere(s, run) ==> Closed(s, run))
    && (forall t :: LiveEntry(s.reg, t).Some? ==>
          var run := LiveEntry(s.reg, t).value; 
          run in s.runs && (Closed(s, run) ==> ClosedElsewhere(s, run) || exists c :: Recording(s.calls, c, run)))
    && (forall c :: WakeRun(s.calls, c).Some? ==>
          var run := WakeRun(s.calls, c).value; run in s.runs && (Closed(s, run) ==> run in s.others))
  }

  /** Only run `e`'s row changes, and no other run becomes a live entry's or a wake's. */
  ghost predicate RowsMove(s: State, u: State, e: RunId) {
    && (forall d :: d != e ==> (d in u.runs <==> d in s.runs) && (d in u.missed <==> d in s.missed) && (d in u.others <==> d in s.others))
    && (forall d :: d != e && d in s.runs ==> u.runs[d] == s.runs[d])
    && (forall t :: LiveEntry(u.reg, t).Some? && LiveEntry(u.reg, t) != Some(e) ==> LiveEntry(s.reg, t) == LiveEntry(u.reg, t))
    && (forall c :: WakeRun(u.calls, c).Some? && WakeRun(u.calls, c) != Some(e) ==> WakeRun(s.calls, c) == WakeRun(u.calls, c))
    && (forall c, d :: d != e && Recording(s.calls, c, d) ==> Recording(u.calls, c, d))
  }

  /** What must hold of the one run that moved. */
  ghost predicate MovedOk(u: State, e: RunId) {
    && (ClosedElsewhere(u, e) ==> Closed(u, e))
    && (forall t :: LiveEntry(u.reg, t) == Some(e) ==>
          e in u.runs && (Closed(u, e) ==> ClosedElsewhere(u, e) || exists c :: Recording(u.calls, c, e)))
    && (forall c :: WakeRun(u.calls, c) == Some(e) ==> e in u.runs && (Closed(u, e) ==> e in u.others))
  }

  lemma Moves(s: State, u: State, e: RunId)
    requires RowsOk(s) && RowsMove(s, u, e) && MovedOk(u, e)
    ensures RowsOk(u)
  {
    forall run | ClosedElsewhere(u, run) ensures Closed(u, run) {
      if run != e { assert ClosedElsewhere(s, run); }
    }
    forall t | LiveEntry(u.reg, t).Some?
      ensures var run := LiveEntry(u.reg, t).value;
              run in u.runs && (Closed(u, run) ==> ClosedElsewhere(u, run) || exists c :: Recording(u.calls, c, run))
    {
      if LiveEntry(u.reg, t) != Some(e) {
        assert LiveEntry(s.reg, t) == LiveEntry(u.reg, t);
        assert forall c :: Recording(s.calls, c, LiveEntry(u.reg, t).value) ==> Recording(u.calls, c, LiveEntry(u.reg, t).value);
      }
    }
    forall c | WakeRun(u.calls, c).Some?
      ensures var run := WakeRun(u.calls, c).value; run in u.runs && (Closed(u, run) ==> run in u.others)
    {
      if WakeRun(u.calls, c) != Some(e) { assert WakeRun(s.calls, c) == WakeRun(u.calls, c); }
    }
  }

  /** No row changes, and no run becomes a live entry's or a wake's. */
  ghost predicate RowsStay(s: State, u: State) {
    && u.runs == s.runs && u.missed == s.missed && u.others == s.others
    && (forall t :: LiveEntry(u.reg, t).Some? ==> LiveEntry(s.reg, t) == LiveEntry(u.reg, t))
    && (forall c :: WakeRun(u.calls, c).Some? ==> WakeRun(s.calls, c) == WakeRun(u.calls, c))
    && (forall c, d :: Recording(s.calls, c, d) ==> Recording(u.calls, c, d))
  }

  lemma Stays(s: State, u: State)
    requires RowsOk(s) && RowsStay(s, u)
    ensures RowsOk(u)
  {
    forall run | ClosedElsewhere(u, run) ensures Closed(u, run) { assert ClosedElsewhere(s, run); }
    forall t | LiveEntry(u.reg, t).Some?
      ensures var run := LiveEntry(u.reg, t).value;
              run in u.runs && (Closed(u, run) ==> ClosedElsewhere(u, run) || exists c :: Recording(u.calls, c, run))
    {
      assert LiveEntry(s.reg, t) == LiveEntry(u.reg, t);
      assert forall c :: Recording(s.calls, c, LiveEntry(u.reg, t).value) ==> Recording(u.calls, c, LiveEntry(u.reg, t).value);
    }
    forall c | WakeRun(u.calls, c).Some?
      ensures var run := WakeRun(u.calls, c).value; run in u.runs && (Closed(u, run) ==> run in u.others)
    {
      assert WakeRun(s.calls, c) == WakeRun(u.calls, c);
    }
  }

  /** No live entry appears, no call but those that are there begins to wake, and no recording ends. */
  ghost predicate Shrinks(s: State, r: Registry, calls: map<CallId, Call>) {
    && (forall t :: LiveEntry(r, t).Some? ==> LiveEntry(s.reg, t) == LiveEntry(r, t))
    && (forall c :: WakeRun(calls, c).Some? ==> WakeRun(s.calls, c) == WakeRun(calls, c))
    && (forall c, d :: Recording(s.calls, c, d) ==> Recording(calls, c, d))
  }

  lemma Rewires(s: State, u: State, r: Registry, calls: map<CallId, Call>)
    requires RowsOk(s) && Shrinks(s, r, calls)
    requires u == s.(reg := r, calls := calls, failing := u.failing, doomed := u.doomed, nextCall := u.nextCall, owner := u.owner)
    ensures RowsOk(u)
  {
    Stays(s, u);
  }

  /** No live entry and no wake is about `e`, besides call `c`'s. */
  ghost predicate Alone(s: State, c: CallId, e: RunId) {
    && (forall t :: LiveEntry(s.reg, t) != Some(e))
    && (forall b :: b != c ==> WakeRun(s.calls, b) != Some(e))
  }

  lemma WakerIsAlone(s: State, c: CallId)
    requires Inv(s) && c in s.calls && s.calls[c].Wakes() && s.calls[c].HasRun()
    ensures Alone(s, c, s.calls[c].run) && s.calls[c].sid in s.reg.states
  {
    WakerIsOwn(s, c);
    forall t ensures LiveEntry(s.reg, t) != Some(s.calls[c].run) {
      if t in s.reg.conversations { assert TenantOk(s, t); }
    }
  }

  lemma UserIsAlone(s: State, c: CallId)
    requires Inv(s) && c in s.calls && s.calls[c].Uses()
    ensures forall b :: WakeRun(s.calls, b) != Some(s.calls[c].run)
    ensures forall t :: LiveEntry(s.reg, t) == Some(s.calls[c].run) ==> t == s.calls[c].t
    ensures s.calls[c].sid in s.reg.states && EntryOf(s.reg, s.calls[c].t) == Some(s.calls[c].run) && s.calls[c].run in s.runs
  {
    UserIsOwn(s, c);
  }

  lemma FailerIsAlone(s: State, c: CallId)
    requires Inv(s) && c in s.calls && s.calls[c].FailingTurn?
    ensures Alone(s, c, s.calls[c].run)
  {
    var e := s.calls[c].run;
    assert CallOk(s, c, s.calls[c]);
    forall t ensures LiveEntry(s.reg, t) != Some(e) {
      if t in s.reg.conversations { assert TenantOk(s, t); }
    }
  }

  // ---- each step ----

  lemma InsertedRows(s: State, t: Tenant)
    requires RowsOk(s) && s.reg.nextId !in s.runs
    ensures RowsOk(Inserted(s, t))
  {
    var u, e := Inserted(s, t), s.reg.nextId;
    assert ClosedElsewhere(s, e) ==> Closed(s, e);
    forall x ensures LiveEntry(u.reg, x) == LiveEntry(s.reg, x) { SameMap(s.reg, u.reg, x); }
    Moves(s, u, e);
  }

  lemma InsertRows(s: State, c: CallId, t: Tenant, sid: StateId)
    requires RowsOk(s) && c in s.calls && s.calls[c].Wakes() && s.reg.nextId !in s.runs
    ensures RowsOk(InsertRun(s, c, t, sid))
  {
    var s1, u, e := Inserted(s, t), InsertRun(s, c, t, sid), s.reg.nextId;
    InsertedRows(s, t);
    assert ClosedElsewhere(s1, e) ==> Closed(s1, e);
    forall b ensures WakeRun(u.calls, b).Some? && WakeRun(u.calls, b) != Some(e) ==> WakeRun(u.calls, b) == WakeRun(s1.calls, b) {}
    Moves(s1, u, e);
  }

  lemma ProceedRows(s: State, c: CallId)
    requires RowsOk(s) && c in s.calls && s.calls[c].Wakes() && s.reg.nextId !in s.runs
    ensures RowsOk(Proceed(s, c))
  {
    if s.calls[c].Creating? {
      InsertRows(s, c, s.calls[c].t, s.calls[c].sid);
    } else {
      Rewires(s, Proceed(s, c), s.reg, Proceed(s, c).calls);
    }
  }

  lemma SameMap(r: Registry, u: Registry, x: Tenant)
    requires u.conversations == r.conversations && u.states == r.states
    ensures LiveEntry(u, x) == LiveEntry(r, x)
  {
  }

  lemma WakeEndsEntries(r: Registry, t: Tenant, sid: StateId, x: Tenant)
    requires sid in r.states
    ensures LiveEntry(WakeEnds(r, t, sid), x).Some? ==> LiveEntry(WakeEnds(r, t, sid), x) == LiveEntry(r, x)
  {
  }

  lemma WakeThrowRows(s: State, c: CallId, t: Tenant, sid: StateId)
    requires RowsOk(s) && sid in s.reg.states && c in s.calls && s.calls[c].Wakes()
    ensures RowsOk(WakeThrow(s, c, t, sid))
  {
    var u := WakeThrow(s, c, t, sid);
    forall x ensures LiveEntry(u.reg, x).Some? ==> LiveEntry(u.reg, x) == LiveEntry(s.reg, x) { WakeEndsEntries(s.reg, t, sid, x); }
    forall b ensures WakeRun(u.calls, b).Some? ==> WakeRun(u.calls, b) == WakeRun(s.calls, b) {}
    Stays(s, u);
  }

  lemma EnteredEntries(r: Registry, sid: StateId, e: RunId, x: Tenant)
    requires sid in r.states
    ensures var u := SetState(r, sid, r.states[sid].(entry := Some(e)));
            LiveEntry(u, x).Some? && LiveEntry(u, x) != Some(e) ==> LiveEntry(u, x) == LiveEntry(r, x)
  {
  }

  lemma FirstTurnRegistry(s: State, c: CallId, t: Tenant, sid: StateId, e: RunId)
    requires sid in s.reg.states
    ensures var held := SetState(s.reg, sid, s.reg.states[sid].(entry := Some(e)));
            && FirstTurnEnd(s, c, false, t, sid, e).reg == s.reg
            && FirstTurnEnd(s, c, true, t, sid, e).reg ==
               if s.reg.states[sid].dropped then SetEntry(held, e, Entry(true, None)) else WakeEnds(Arm(held, e, Pause(t)), t, sid)
  {
  }

  lemma FirstTurnEntries(s: State, ok: bool, c: CallId, t: Tenant, sid: StateId, e: RunId, x: Tenant)
    requires sid in s.reg.states
    ensures var r := FirstTurnEnd(s, c, ok, t, sid, e).reg;
            LiveEntry(r, x).Some? && LiveEntry(r, x) != Some(e) ==> LiveEntry(r, x) == LiveEntry(s.reg, x)
  {
    FirstTurnRegistry(s, c, t, sid, e);
    if ok {
      var held := SetState(s.reg, sid, s.reg.states[sid].(entry := Some(e)));
      EnteredEntries(s.reg, sid, e, x);
      if s.reg.states[sid].dropped {
        SameMap(held, SetEntry(held, e, Entry(true, None)), x);
      } else {
        SameMap(held, Arm(held, e, Pause(t)), x);
        WakeEndsEntries(Arm(held, e, Pause(t)), t, sid, x);
      }
    }
  }

  lemma FirstTurnRows(s: State, c: CallId, ok: bool, t: Tenant, sid: StateId, e: RunId)
    requires RowsOk(s) && c in s.calls && s.calls[c] == FirstTurn(t, sid, e) && sid in s.reg.states && Alone(s, c, e)
    ensures RowsOk(FirstTurnEnd(s, c, ok, t, sid, e))
  {
    var u := FirstTurnEnd(s, c, ok, t, sid, e);
    assert WakeRun(s.calls, c) == Some(e);
    forall b ensures WakeRun(u.calls, b).Some? ==> WakeRun(u.calls, b) == WakeRun(s.calls, b) {}
    forall x ensures LiveEntry(u.reg, x).Some? && LiveEntry(u.reg, x) != Some(e) ==> LiveEntry(u.reg, x) == LiveEntry(s.reg, x) {
      FirstTurnEntries(s, ok, c, t, sid, e, x);
    }
    assert ClosedElsewhere(s, e) ==> Closed(s, e);
    Moves(s, u, e);
  }

  lemma FirstFailRows(s: State, c: CallId, closed: bool, t: Tenant, sid: StateId, e: RunId)
    requires RowsOk(s) && sid in s.reg.states && Alone(s, c, e) && c in s.calls && s.calls[c].Wakes()
    ensures RowsOk(FirstFail(s, c, closed, t, sid, e))
  {
    var u := FirstFail(s, c, closed, t, sid, e);
    forall x ensures LiveEntry(u.reg, x).Some? ==> LiveEntry(u.reg, x) == LiveEntry(s.reg, x) { WakeEndsEntries(s.reg, t, sid, x); }
    forall b ensures WakeRun(u.calls, b).Some? ==> b != c && WakeRun(u.calls, b) == WakeRun(s.calls, b) {}
    assert ClosedElsewhere(s, e) ==> Closed(s, e);
    Moves(s, u, e);
  }

  lemma TurnFailRows(s: State, c: CallId, closed: bool, e: RunId)
    requires RowsOk(s) && Alone(s, c, e) && c in s.calls && s.calls[c].FailingTurn?
    ensures RowsOk(TurnFail(s, c, closed, e))
  {
    var u := TurnFail(s, c, closed, e);
    forall x ensures LiveEntry(u.reg, x) == LiveEntry(s.reg, x) {}
    forall b ensures WakeRun(u.calls, b).Some? ==> b != c && WakeRun(u.calls, b) == WakeRun(s.calls, b) {}
    assert ClosedElsewhere(s, e) ==> Closed(s, e);
    Moves(s, u, e);
  }

  lemma TurnBrokenEntries(r: Registry, t: Tenant, sid: StateId, e: RunId, x: Tenant)
    requires sid in r.states
    ensures var u := ReleaseIfIdle(SempSpec.ClearTimer(SetState(r, sid, r.states[sid].(entry := None)), e), t);
            LiveEntry(u, x).Some? ==> LiveEntry(u, x) == LiveEntry(r, x)
  {
  }

  lemma TurnEndRows(s: State, c: CallId, ok: bool, t: Tenant, sid: StateId, e: RunId)
    requires RowsOk(s) && sid in s.reg.states && c in s.calls && s.calls[c].Turn?
    ensures RowsOk(TurnEnd(s, c, ok, t, sid, e))
  {
    var u := TurnEnd(s, c, ok, t, sid, e);
    if !ok {
      var r := ReleaseIfIdle(SempSpec.ClearTimer(SetState(s.reg, sid, s.reg.states[sid].(entry := None)), e), t);
      forall x ensures LiveEntry(r, x).Some? ==> LiveEntry(r, x) == LiveEntry(s.reg, x) { TurnBrokenEntries(s.reg, t, sid, e, x); }
      Rewires(s, u, r, s.calls[c := FailingTurn(t, sid, e)]);
    } else if s.reg.states[sid].dropped {
      var r := SempSpec.SetBusy(s.reg, e, true);
      forall x ensures LiveEntry(r, x) == LiveEntry(s.reg, x) { SameMap(s.reg, r, x); }
      Rewires(s, u, r, s.calls[c := Dropping(t, sid, e, false)]);
    } else {
      var r := Arm(SempSpec.ClearTimer(s.reg, e), e, Pause(t));
      forall x ensures LiveEntry(r, x) == LiveEntry(s.reg, x) { SameMap(s.reg, r, x); }
      Rewires(s, u, r, s.calls - {c});
    }
  }

  lemma DropMarks(s: State, t: Tenant, sid: StateId)
    requires sid in s.reg.states
    ensures var r := Drop(s, t, sid).reg;
            r.conversations == s.reg.conversations && r.states == s.reg.states[sid := s.reg.states[sid].(dropped := true)]
  {
    var v := s.reg.states[sid];
    var marked := SetState(s.reg, sid, v.(dropped := true));
    if v.entry.Some? {
      var cleared := SempSpec.ClearTimer(marked, v.entry.value);
      assert cleared == marked.(timers := cleared.timers);
      assert Drop(s, t, sid).reg == cleared || Drop(s, t, sid).reg == SetBusy(cleared, v.entry.value, true);
    }
  }

  lemma MarkedEntries(r: Registry, u: Registry, sid: StateId, x: Tenant)
    requires sid in r.states && u.conversations == r.conversations && u.states == r.states[sid := r.states[sid].(dropped := true)]
    ensures LiveEntry(u, x).Some? ==> LiveEntry(u, x) == LiveEntry(r, x)
  {
  }

  lemma DropCalls(s: State, t: Tenant, sid: StateId)
    requires sid in s.reg.states
    ensures var u := Drop(s, t, sid);
            && u == s.(reg := u.reg, calls := u.calls, doomed := u.doomed, nextCall := u.nextCall, owner := u.owner)
            && (u.calls == s.calls || exists run :: u.calls == s.calls[s.nextCall := Dropping(t, sid, run, false)])
  {
    var v := s.reg.states[sid];
    if v.entry.Some? && Drop(s, t, sid).calls != s.calls {
      assert Drop(s, t, sid).calls == s.calls[s.nextCall := Dropping(t, sid, v.entry.value, false)];
    }
  }

  lemma DropRows(s: State, t: Tenant, sid: StateId)
    requires RowsOk(s) && sid in s.reg.states && s.nextCall !in s.calls
    ensures RowsOk(Drop(s, t, sid))
  {
    var u := Drop(s, t, sid);
    DropMarks(s, t, sid);
    DropCalls(s, t, sid);
    forall x ensures LiveEntry(u.reg, x).Some? ==> LiveEntry(u.reg, x) == LiveEntry(s.reg, x) {
      MarkedEntries(s.reg, u.reg, sid, x);
    }
    Rewires(s, u, u.reg, u.calls);
  }

  lemma DropEntryEntries(r: Registry, t: Tenant, sid: StateId, x: Tenant)
    requires sid in r.states
    ensures sid in DropEntry(r, t, sid).states
    ensures LiveEntry(DropEntry(r, t, sid), x).Some? ==> LiveEntry(DropEntry(r, t, sid), x) == LiveEntry(r, x)
  {
  }

  lemma DropSettleRegistry(s: State, c: CallId, ok: bool, applied: bool, t: Tenant, sid: StateId, e: RunId, wake: bool)
    requires sid in s.reg.states
    ensures var r := if ok then DropEntry(s.reg, t, sid) else Arm(s.reg, e, Retry(t, sid, e));
            DropSettle(s, c, ok, applied, t, sid, e, wake).reg == if wake && sid in r.states then WakeEnds(r, t, sid) else r
  {
  }

  lemma DropSettleEntries(s: State, c: CallId, ok: bool, applied: bool, t: Tenant, sid: StateId, e: RunId, wake: bool, x: Tenant)
    requires sid in s.reg.states
    ensures var u := DropSettle(s, c, ok, applied, t, sid, e, wake);
            LiveEntry(u.reg, x).Some? ==> LiveEntry(u.reg, x) == LiveEntry(s.reg, x)
  {
    DropSettleRegistry(s, c, ok, applied, t, sid, e, wake);
    var r := if ok then DropEntry(s.reg, t, sid) else Arm(s.reg, e, Retry(t, sid, e));
    if ok { DropEntryEntries(s.reg, t, sid, x); } else { SameMap(s.reg, r, x); }
    if wake && sid in r.states { WakeEndsEntries(r, t, sid, x); }
  }

  lemma DropSettleRows(s: State, c: CallId, ok: bool, applied: bool, t: Tenant, sid: StateId, e: RunId, wake: bool)
    requires RowsOk(s) && sid in s.reg.states && Alone(s, c, e)
    requires c in s.calls && s.calls[c].Dropping?
    ensures RowsOk(DropSettle(s, c, ok, applied, t, sid, e, wake))
  {
    var u := DropSettle(s, c, ok, applied, t, sid, e, wake);
    forall x ensures LiveEntry(u.reg, x).Some? ==> LiveEntry(u.reg, x) == LiveEntry(s.reg, x) {
      DropSettleEntries(s, c, ok, applied, t, sid, e, wake, x);
    }
    forall b ensures WakeRun(u.calls, b).Some? ==> b != c && WakeRun(u.calls, b) == WakeRun(s.calls, b) {}
    assert ClosedElsewhere(s, e) ==> Closed(s, e);
    Moves(s, u, e);
  }

  lemma PauseFailedRows(s: State, c: CallId, t: Tenant, sid: StateId, e: RunId)
    requires RowsOk(s) && c in s.calls && !s.calls[c].PauseRecording?
    ensures RowsOk(PauseFailed(s, c, t, sid, e))
  {
    var u := PauseFailed(s, c, t, sid, e);
    if Dropped(s, sid) {
      var r := SempSpec.SetBusy(s.reg, e, true);
      forall x ensures LiveEntry(r, x) == LiveEntry(s.reg, x) { SameMap(s.reg, r, x); }
      Rewires(s, u, r, s.calls[c := Dropping(t, sid, e, false)]);
    } else {
      var r := Arm(s.reg, e, Pause(t));
      forall x ensures LiveEntry(r, x) == LiveEntry(s.reg, x) { SameMap(s.reg, r, x); }
      Rewires(s, u, r, s.calls - {c});
    }
  }

  /** A pause that fails although it has closed its run: the run is noted, the call stops recording. */
  lemma MissedRows(s: State, c: CallId, t: Tenant, sid: StateId, e: RunId)
    requires RowsOk(s) && c in s.calls && s.calls[c].HasRun() && s.calls[c].run == e && !s.calls[c].Wakes()
    requires e in s.runs && forall b :: WakeRun(s.calls, b) != Some(e)
    ensures RowsOk(PauseFailed(Missed(Close(s, e, Done), e), c, t, sid, e))
  {
    var idle := Pausing(t, sid, e);
    var s1 := Missed(Close(s, e, Done), e).(calls := s.calls[c := idle]);
    forall b ensures WakeRun(s1.calls, b) == WakeRun(s.calls, b) {}
    assert ClosedElsewhere(s, e) ==> Closed(s, e);
    Moves(s, s1, e);
    PauseFailedRows(s1, c, t, sid, e);
    SameFailure(Missed(Close(s, e, Done), e), c, idle, t, sid, e);
  }

  lemma SameFailure(s: State, c: CallId, call: Call, t: Tenant, sid: StateId, e: RunId)
    requires c in s.calls
    ensures PauseFailed(s.(calls := s.calls[c := call]), c, t, sid, e) == PauseFailed(s, c, t, sid, e)
  {
    assert s.calls[c := call] - {c} == s.calls - {c};
    assert s.calls[c := call][c := Dropping(t, sid, e, false)] == s.calls[c := Dropping(t, sid, e, false)];
  }

  /** The commit of a pause closes the row, and the pause goes on to record that. */
  lemma CommittedRows(s: State, c: CallId, t: Tenant, sid: StateId, e: RunId)
    requires RowsOk(s) && c in s.calls && s.calls[c] == Committing(t, sid, e)
    requires e in s.runs && forall b :: WakeRun(s.calls, b) != Some(e)
    ensures RowsOk(Next(Close(s, e, Done), c, PauseRecording(t, sid, e)))
  {
    var u := Next(Close(s, e, Done), c, PauseRecording(t, sid, e));
    forall b ensures WakeRun(u.calls, b) == WakeRun(s.calls, b) {}
    assert Recording(u.calls, c, e);
    assert ClosedElsewhere(s, e) ==> Closed(s, e);
    Moves(s, u, e);
  }

  lemma CommitRows(s: State, c: CallId, ok: bool, applied: bool, t: Tenant, sid: StateId, e: RunId)
    requires RowsOk(s) && c in s.calls && s.calls[c] == Committing(t, sid, e)
    requires e in s.runs && forall b :: WakeRun(s.calls, b) != Some(e)
    ensures RowsOk(PauseCommit(s, c, ok, applied, t, sid, e))
  {
    if ok { CommittedRows(s, c, t, sid, e); }
    else if applied { MissedRows(s, c, t, sid, e); }
    else { PauseFailedRows(s, c, t, sid, e); }
  }

  lemma RecordRows(s: State, c: CallId, ok: bool, t: Tenant, sid: StateId, e: RunId)
    requires RowsOk(s) && c in s.calls && s.calls[c] == PauseRecording(t, sid, e) && Closed(s, e)
    requires t in s.reg.conversations && s.reg.conversations[t] == sid && sid in s.reg.states
    requires forall b :: WakeRun(s.calls, b) != Some(e)
    requires forall x :: LiveEntry(s.reg, x) == Some(e) ==> x == t
    ensures RowsOk(PauseRecord(s, c, ok, t, sid, e))
  {
    if ok {
      var u := PauseRecord(s, c, ok, t, sid, e);
      forall x ensures LiveEntry(u.reg, x).Some? ==> LiveEntry(u.reg, x) == LiveEntry(s.reg, x) != Some(e) {}
      forall b ensures WakeRun(u.calls, b).Some? ==> WakeRun(u.calls, b) == WakeRun(s.calls, b) {}
      assert ClosedElsewhere(s, e) ==> Closed(s, e);
      Moves(s, u, e);
    } else {
      assert Close(s, e, Done) == s;
      MissedRows(s, c, t, sid, e);
    }
  }

  lemma UpdateRows(s: State, c: CallId, ok: bool, t: Tenant, sid: StateId, e: RunId)
    requires RowsOk(s) && c in s.calls && s.calls[c].Pausing?
    ensures RowsOk(PauseUpdate(s, c, ok, t, sid, e))
  {
    if !ok || Dropped(s, sid) {
      PauseFailedRows(s, c, t, sid, e);
    } else {
      Rewires(s, Next(s, c, Committing(t, sid, e)), s.reg, s.calls[c := Committing(t, sid, e)]);
    }
  }

  lemma SendRows(s: State, t: Tenant)
    requires RowsOk(s) && s.nextCall !in s.calls && s.reg.nextId !in s.reg.states
    ensures RowsOk(BeginWake(s, t))
    ensures forall sid, e :: RowsOk(BeginTurn(s, t, sid, e))
  {
    var u := BeginWake(s, t);
    forall x ensures LiveEntry(u.reg, x).Some? ==> LiveEntry(u.reg, x) == LiveEntry(s.reg, x) {}
    forall b ensures WakeRun(u.calls, b).Some? ==> WakeRun(u.calls, b) == WakeRun(s.calls, b) {}
    Stays(s, u);
    forall sid, e ensures RowsOk(BeginTurn(s, t, sid, e)) { TurnRows(s, t, sid, e); }
  }

  lemma TurnRows(s: State, t: Tenant, sid: StateId, e: RunId)
    requires RowsOk(s) && s.nextCall !in s.calls
    ensures RowsOk(BeginTurn(s, t, sid, e))
  {
    var u := BeginTurn(s, t, sid, e);
    forall x ensures LiveEntry(u.reg, x) == LiveEntry(s.reg, x) {}
    forall b ensures WakeRun(u.calls, b).Some? ==> WakeRun(u.calls, b) == WakeRun(s.calls, b) {}
    Stays(s, u);
  }

  lemma ClaimRows(s: State, id: TimerId, run: RunId, call: Call)
    requires RowsOk(s) && id in s.reg.timers && !call.Wakes() && s.nextCall !in s.calls
    ensures RowsOk(Start(s.(reg := SempSpec.SetBusy(s.reg.(timers := s.reg.timers - {id}), run, true)), call))
  {
    var r := SempSpec.SetBusy(s.reg.(timers := s.reg.timers - {id}), run, true);
    forall x ensures LiveEntry(r, x) == LiveEntry(s.reg, x) { SameMap(s.reg, r, x); }
    Rewires(s, Start(s.(reg := r), call), r, s.calls[s.nextCall := call]);
  }

  lemma FireRows(s: State, id: TimerId)
    requires RowsOk(s) && id in s.reg.timers && s.nextCall !in s.calls
    ensures RowsOk(Fire(s, id))
  {
    match s.reg.timers[id]
    case Pause(t) =>
      if Pausable(s.reg, t) {
        var sid := s.reg.conversations[t];
        ClaimRows(s, id, s.reg.states[sid].entry.value, Pausing(t, sid, s.reg.states[sid].entry.value));
      } else {
        var r := s.reg.(timers := s.reg.timers - {id});
        forall x ensures LiveEntry(r, x) == LiveEntry(s.reg, x) { SameMap(s.reg, r, x); }
        Rewires(s, Fire(s, id), r, s.calls);
      }
    case Retry(t, sid, run) => ClaimRows(s, id, run, Dropping(t, sid, run, false));
  }

  lemma InterfereRows(s: State, run: RunId, status: Status)
    requires RowsOk(s) && status != Running
    ensures RowsOk(Interfere(s, run, status))
  {
    var u := Interfere(s, run, status);
    assert u.reg == s.reg && forall b :: WakeRun(u.calls, b) == WakeRun(s.calls, b);
    assert ClosedElsewhere(s, run) ==> Closed(s, run);
    Moves(s, u, run);
  }

  lemma WakeStepRows(s: State, step: Step)
    requires Inv(s) && RowsOk(s) && Enabled(s, step)
    requires step.Proceeds? || step.WakeThrows? || step.InsertThrows? || step.FirstTurnEnds? || step.FirstFailSettles?
    ensures RowsOk(Apply(s, step))
  {
    match step
    case Proceeds(c) => ProceedRows(s, c);
    case WakeThrows(c) => WakeThrowRows(s, c, s.calls[c].t, s.calls[c].sid);
    case InsertThrows(c) =>
      InsertedRows(s, s.calls[c].t);
      WakeThrowRows(Inserted(s, s.calls[c].t), c, s.calls[c].t, s.calls[c].sid);
    case FirstTurnEnds(c, ok) => WakerIsAlone(s, c); FirstTurnRows(s, c, ok, s.calls[c].t, s.calls[c].sid, s.calls[c].run);
    case FirstFailSettles(c, closed) => WakerIsAlone(s, c); FirstFailRows(s, c, closed, s.calls[c].t, s.calls[c].sid, s.calls[c].run);
  }

  lemma DroppingIsAlone(s: State, c: CallId)
    requires Inv(s) && c in s.calls && s.calls[c].Dropping?
    ensures Alone(s, c, s.calls[c].run)
  {
    UserIsAlone(s, c);
    assert CallOk(s, c, s.calls[c]);
  }

  lemma CloseStepRows(s: State, step: Step)
    requires Inv(s) && RowsOk(s) && Enabled(s, step)
    requires step.PauseUpdated? || step.PauseCommitted? || step.PauseRecorded? || step.DropSettles?
    ensures RowsOk(Apply(s, step))
  {
    match step
    case PauseUpdated(c, ok) => UpdateRows(s, c, ok, s.calls[c].t, s.calls[c].sid, s.calls[c].run);
    case PauseCommitted(c, ok, applied) =>
      UserIsAlone(s, c);
      CommitRows(s, c, ok, applied, s.calls[c].t, s.calls[c].sid, s.calls[c].run);
    case PauseRecorded(c, ok) =>
      UserIsAlone(s, c);
      assert CallOk(s, c, s.calls[c]);
      RecordRows(s, c, ok, s.calls[c].t, s.calls[c].sid, s.calls[c].run);
    case DropSettles(c, ok, applied) =>
      DroppingIsAlone(s, c);
      DropSettleRows(s, c, ok, applied, s.calls[c].t, s.calls[c].sid, s.calls[c].run, s.calls[c].wake);
  }

  lemma StepRows(s: State, step: Step)
    requires Inv(s) && RowsOk(s)
    ensures RowsOk(Apply(s, step))
  {
    if Enabled(s, step) {
      match step
      case Send(t) => NextIsNew(s); SendRows(s, t);
      case TurnEnds(c, ok) => TurnEndRows(s, c, ok, s.calls[c].t, s.calls[c].sid, s.calls[c].run);
      case TurnFailSettles(c, closed) => FailerIsAlone(s, c); TurnFailRows(s, c, closed, s.calls[c].run);
      case DropTenant(t) => NextIsNew(s); DropRows(s, t, s.reg.conversations[t]);
      case TimerFires(id) => NextIsNew(s); FireRows(s, id);
      case OtherWriter(run, status) => InterfereRows(s, run, status);
      case PauseUpdated(_, _) => CloseStepRows(s, step);
      case PauseCommitted(_, _, _) => CloseStepRows(s, step);
      case PauseRecorded(_, _) => CloseStepRows(s, step);
      case DropSettles(_, _, _) => CloseStepRows(s, step);
      case _ => WakeStepRows(s, step);
    }
  }

  lemma NextIsNew(s: State)
    requires Inv(s)
    ensures s.nextCall !in s.calls && s.reg.nextId !in s.reg.states
  {
    forall c | c in s.calls ensures c != s.nextCall { assert CallOk(s, c, s.calls[c]); }
  }

  lemma {:induction false} RunRows(s: State, steps: seq<Step>)
    requires Inv(s) && RowsOk(s)
    ensures Inv(Exec(s, steps)) && RowsOk(Exec(s, steps))
    decreases |steps|
  {
    if steps != [] {
      StepRows(s, steps[0]);
      StepKeeps(s, steps[0]);
      RunRows(Apply(s, steps[0]), steps[1..]);
    }
  }

  /** A turn starts on an entry no pause is recording. */
  lemma IdleIsNotRecorded(s: State, t: Tenant, c: CallId)
    requires Inv(s) && !SendRefused(s.reg, t) && EntryOf(s.reg, t).Some?
    ensures !Recording(s.calls, c, EntryOf(s.reg, t).value)
  {
    if c in s.calls { assert CallOk(s, c, s.calls[c]); }
    assert TenantOk(s, t);
  }

  lemma StartRow(s: State, step: Step)
    requires Inv(s) && RowsOk(s) && StartsTurn(s, step).Some?
    ensures var run := StartsTurn(s, step).value;
            run in s.runs && (s.runs[run] == Running <==> run !in s.missed && run !in s.others)
  {
    var run := StartsTurn(s, step).value;
    assert ClosedElsewhere(s, run) ==> Closed(s, run);
    if step.Send? {
      assert LiveEntry(s.reg, step.t) == Some(run);
      forall c ensures !Recording(s.calls, c, run) { IdleIsNotRecorded(s, step.t, c); }
    } else {
      assert WakeRun(s.calls, step.c) == Some(run);
    }
  }

  /**
   * In every run, a turn starts on a row that is no longer `running` exactly when a pause had closed it and then
   * failed, or another writer closed it.
   */
  lemma {:induction false} TurnsStartOnRunningRowsIff(steps: seq<Step>, step: Step)
    requires StartsTurn(Exec(Init, steps), step).Some?
    ensures var s, run := Exec(Init, steps), StartsTurn(Exec(Init, steps), step).value;
            run in s.runs && (s.runs[run] == Running <==> run !in s.missed && run !in s.others)
  {
    RunRows(Init, steps);
    StartRow(Exec(Init, steps), step);
  }

  /** A failed status push, a commit that took effect although it threw, or another writer. */
  predicate Surprising(step: Step) {
    (step.PauseRecorded? && !step.ok) || (step.PauseCommitted? && !step.ok && step.applied) || step.OtherWriter?
  }

  predicate Calm(s: State, u: State) {
    u.missed == s.missed && u.others == s.others
  }

  lemma CalmWake(s: State, c: CallId, ok: bool, t: Tenant, sid: StateId, run: RunId)
    requires c in s.calls && sid in s.reg.states
    ensures Calm(s, WakeThrow(s, c, t, sid)) && Calm(s, FirstTurnEnd(s, c, ok, t, sid, run)) && Calm(s, FirstFail(s, c, ok, t, sid, run))
  {
  }

  lemma CalmTurn(s: State, c: CallId, ok: bool, t: Tenant, sid: StateId, run: RunId)
    requires c in s.calls
    ensures sid in s.reg.states ==> Calm(s, TurnEnd(s, c, ok, t, sid, run))
    ensures Calm(s, TurnFail(s, c, ok, run)) && Calm(s, Proceed(s, c))
  {
  }

  lemma CalmPause(s: State, c: CallId, ok: bool, t: Tenant, sid: StateId, run: RunId)
    ensures Calm(s, PauseUpdate(s, c, ok, t, sid, run)) && Calm(s, PauseCommit(s, c, ok, ok, t, sid, run))
    ensures sid in s.reg.states ==> Calm(s, PauseRecord(s, c, true, t, sid, run))
  {
  }

  lemma CalmClose(s: State, c: CallId, ok: bool, applied: bool, t: Tenant, sid: StateId, run: RunId, wake: bool)
    requires sid in s.reg.states
    ensures Calm(s, DropSettle(s, c, ok, applied, t, sid, run, wake)) && Calm(s, Drop(s, t, sid))
  {
  }

  lemma CalmTimer(s: State, id: TimerId)
    requires id in s.reg.timers
    ensures Calm(s, Fire(s, id))
  {
  }

  lemma CalmStep(s: State, step: Step)
    requires !Surprising(step)
    ensures Calm(s, Apply(s, step))
  {
    if Enabled(s, step) {
      match step
      case Send(t) =>
      case Proceeds(c) => CalmTurn(s, c, true, 0, 0, 0);
      case WakeThrows(c) => CalmWake(s, c, true, s.calls[c].t, s.calls[c].sid, 0);
      case InsertThrows(c) => CalmWake(Inserted(s, s.calls[c].t), c, true, s.calls[c].t, s.calls[c].sid, 0);
      case FirstTurnEnds(c, ok) => CalmWake(s, c, ok, s.calls[c].t, s.calls[c].sid, s.calls[c].run);
      case FirstFailSettles(c, closed) => CalmWake(s, c, closed, s.calls[c].t, s.calls[c].sid, s.calls[c].run);
      case TurnEnds(c, ok) => CalmTurn(s, c, ok, s.calls[c].t, s.calls[c].sid, s.calls[c].run);
      case TurnFailSettles(c, closed) => CalmTurn(s, c, closed, 0, 0, s.calls[c].run);
      case DropTenant(t) => CalmClose(s, 0, true, true, t, s.reg.conversations[t], 0, false);
      case TimerFires(id) => CalmTimer(s, id);
      case OtherWriter(_, _) =>
      case _ => CalmCloseStep(s, step);
    }
  }

  lemma CalmCloseStep(s: State, step: Step)
    requires !Surprising(step) && Enabled(s, step)
    requires step.PauseUpdated? || step.PauseCommitted? || step.PauseRecorded? || step.DropSettles?
    ensures Calm(s, Apply(s, step))
  {
    match step
    case PauseUpdated(c, ok) => CalmPause(s, c, ok, s.calls[c].t, s.calls[c].sid, s.calls[c].run);
    case PauseCommitted(c, ok, applied) => CalmPause(s, c, ok, s.calls[c].t, s.calls[c].sid, s.calls[c].run);
    case PauseRecorded(c, ok) => CalmPause(s, c, ok, s.calls[c].t, s.calls[c].sid, s.calls[c].run);
    case DropSettles(c, ok, applied) => CalmClose(s, c, ok, applied, s.calls[c].t, s.calls[c].sid, s.calls[c].run, s.calls[c].wake);
  }

  lemma {:induction false} CalmRun(s: State, steps: seq<Step>)
    requires forall x :: x in steps ==> !Surprising(x)
    ensures Exec(s, steps).missed == s.missed && Exec(s, steps).others == s.others
    decreases |steps|
  {
    if steps != [] {
      assert steps[0] in steps;
      CalmStep(s, steps[0]);
      CalmRun(Apply(s, steps[0]), steps[1..]);
    }
  }

  /** When no push fails, no commit lies and no other writer interferes, every turn starts on a `running` row. */
  lemma {:induction false} TurnsStartOnRunningRows(steps: seq<Step>, step: Step)
    requires forall x :: x in steps ==> !Surprising(x)
    requires StartsTurn(Exec(Init, steps), step).Some?
    ensures var s, run := Exec(Init, steps), StartsTurn(Exec(Init, steps), step).value;
            run in s.runs && s.runs[run] == Running
  {
    TurnsStartOnRunningRowsIff(steps, step);
    CalmRun(Init, steps);
  }
}
