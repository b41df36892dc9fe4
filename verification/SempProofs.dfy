/** Semp's guarantees over every interleaving of sends, pauses, drops, retries and failing database calls. */
module SempProofs {
  import opened Ordering
  import opened SempSpec

  // ---- a step touches one tenant, one conversation object, one call and one run ----

  ghost predicate SameElsewhere(s: State, u: State, t: Tenant, sid: StateId) {
    && (forall x :: x != t ==> (x in s.reg.conversations <==> x in u.reg.conversations) && (x in s.owner <==> x in u.owner))
    && (forall x :: x != t && x in s.reg.conversations ==> s.reg.conversations[x] == u.reg.conversations[x])
    && (forall x :: x != t && x in s.owner ==> s.owner[x] == u.owner[x])
    && (forall x :: x != sid ==> (x in s.reg.states <==> x in u.reg.states))
    && (forall x :: x != sid && x in s.reg.states ==> s.reg.states[x] == u.reg.states[x])
    && (forall id :: id in s.reg.timers && s.reg.timers[id].tenant != t ==>
          id in u.reg.timers && u.reg.timers[id] == s.reg.timers[id])
    && (forall id :: id in u.reg.timers && u.reg.timers[id].tenant != t ==>
          id in s.reg.timers && s.reg.timers[id] == u.reg.timers[id])
  }

  ghost predicate SameRuns(s: State, u: State, e: RunId) {
    && (forall d :: d != e ==>
          && (d in s.reg.heap <==> d in u.reg.heap) && (d in s.home <==> d in u.home) && (d in s.runs <==> d in u.runs)
          && (d in s.woken <==> d in u.woken) && (d in s.failing <==> d in u.failing) && (d in s.doomed <==> d in u.doomed)
          && (d in s.lost ==> d in u.lost) && (d in s.others ==> d in u.others))
    && (forall d :: d != e && d in s.reg.heap ==> s.reg.heap[d] == u.reg.heap[d])
    && (forall d :: d != e && d in s.home ==> s.home[d] == u.home[d])
    && (forall d :: d != e && d in s.runs ==> s.runs[d] == u.runs[d])
  }

  ghost predicate Frame(s: State, u: State, t: Tenant, sid: StateId, c: CallId, e: RunId) {
    && s.reg.nextId <= u.reg.nextId && s.nextCall <= u.nextCall
    && SameElsewhere(s, u, t, sid) && SameRuns(s, u, e)
    && (forall b :: b != c ==> (b in s.calls <==> b in u.calls))
    && (forall b :: b != c && b in s.calls ==> s.calls[b] == u.calls[b])
  }

  ghost predicate OneEntry(r: Registry, t: Tenant, e: RunId) {
    EntryOf(r, t).None? || EntryOf(r, t) == Some(e)
  }

  /** Tenant, object and run belong together, and no other claiming call is about them. */
  ghost predicate Own(s: State, t: Tenant, sid: StateId, c: CallId, e: RunId) {
    && (forall x :: x != t && x in s.reg.conversations ==> s.reg.conversations[x] != sid && EntryOf(s.reg, x) != Some(e))
    && (t in s.reg.conversations ==> s.reg.conversations[t] == sid) && OneEntry(s.reg, t, e)
    && (forall b :: b in s.calls && b != c ==>
          (s.calls[b].HasRun() ==> s.calls[b].run != e) && (s.calls[b].Claims() ==> s.calls[b].t != t))
    && (e in s.home ==> s.home[e] == t)
    && (c in s.calls ==> s.calls[c].t == t)
  }

  /** The entry's timer is new, or the one it had. */
  ghost predicate TimerFresh(s: State, u: State, e: RunId) {
    e in u.reg.heap && u.reg.heap[e].timer.Some? ==>
      && u.reg.heap[e].timer.value < u.reg.nextId
      && (u.reg.heap[e].timer.value >= s.reg.nextId || (e in s.reg.heap && s.reg.heap[e].timer == u.reg.heap[e].timer))
  }

  ghost predicate Local(u: State, t: Tenant, sid: StateId, c: CallId, e: RunId) {
    && sid < u.reg.nextId && (t in u.reg.conversations ==> u.reg.conversations[t] == sid && TenantOk(u, t))
    && OneEntry(u.reg, t, e)
    && (c in u.calls ==> CallOk(u, c, u.calls[c]) && u.calls[c].t == t && (u.calls[c].HasRun() ==> u.calls[c].run == e))
    && (forall id :: id in u.reg.timers && u.reg.timers[id].tenant == t ==> TimerOk(u, id))
    && (e in u.woken ==> RunOk(u, e))
    && (e in u.reg.heap || e in u.doomed || e in u.failing ==> e in u.woken)
    && (e in u.runs || e in u.home || e in u.woken ==> e < u.reg.nextId)
    && (e in u.home ==> u.home[e] == t)
  }

  lemma FrameIds(s: State, u: State, t: Tenant, sid: StateId, c: CallId, e: RunId)
    requires IdsOld(s) && Frame(s, u, t, sid, c, e) && Local(u, t, sid, c, e)
    ensures IdsOld(u)
  {
  }

  lemma FrameTimersApart(s: State, u: State, t: Tenant, sid: StateId, c: CallId, e: RunId)
    requires TimersApart(s) && SameRuns(s, u, e) && s.reg.nextId <= u.reg.nextId && TimerFresh(s, u, e)
    ensures TimersApart(u)
  {
  }

  lemma FrameOwnersApart(s: State, u: State, t: Tenant, sid: StateId, c: CallId, e: RunId)
    requires OwnersApart(s) && Frame(s, u, t, sid, c, e) && Own(s, t, sid, c, e) && Local(u, t, sid, c, e)
    ensures OwnersApart(u)
  {
  }

  lemma FrameBounds(s: State, u: State, t: Tenant, sid: StateId, c: CallId, e: RunId)
    requires Bounds(s) && Frame(s, u, t, sid, c, e) && Own(s, t, sid, c, e) && Local(u, t, sid, c, e)
    requires TimerFresh(s, u, e)
    ensures Bounds(u)
  {
    FrameIds(s, u, t, sid, c, e);
    FrameTimersApart(s, u, t, sid, c, e);
    FrameOwnersApart(s, u, t, sid, c, e);
  }

  lemma FrameTenant(s: State, u: State, t: Tenant, sid: StateId, c: CallId, e: RunId, x: Tenant)
    requires Frame(s, u, t, sid, c, e) && Own(s, t, sid, c, e)
    requires x != t && x in s.reg.conversations && TenantOk(s, x)
    ensures TenantOk(u, x) && EntryOf(u.reg, x) == EntryOf(s.reg, x)
  {
  }

  lemma FrameEntry(s: State, u: State, t: Tenant, sid: StateId, c: CallId, e: RunId, x: Tenant)
    requires Frame(s, u, t, sid, c, e) && Own(s, t, sid, c, e) && x != t
    ensures EntryOf(u.reg, x) == EntryOf(s.reg, x)
    ensures x in u.reg.conversations ==> x in s.reg.conversations && u.reg.conversations[x] == s.reg.conversations[x]
    ensures x in u.reg.conversations && u.reg.conversations[x] in u.reg.states ==>
              u.reg.conversations[x] in s.reg.states && u.reg.states[u.reg.conversations[x]] == s.reg.states[s.reg.conversations[x]]
  {
  }

  lemma FrameCall(s: State, u: State, t: Tenant, sid: StateId, c: CallId, e: RunId, b: CallId)
    requires Frame(s, u, t, sid, c, e) && Own(s, t, sid, c, e) && Local(u, t, sid, c, e)
    requires b != c && b in s.calls && CallOk(s, b, s.calls[b])
    ensures CallOk(u, b, u.calls[b])
  {
    var call := s.calls[b];
    if call.t != t { FrameEntry(s, u, t, sid, c, e, call.t); }
  }

  lemma FrameTimer(s: State, u: State, t: Tenant, sid: StateId, c: CallId, e: RunId, id: TimerId)
    requires Frame(s, u, t, sid, c, e) && Own(s, t, sid, c, e)
    requires id in s.reg.timers && s.reg.timers[id].tenant != t && TimerOk(s, id)
    ensures id in u.reg.timers && TimerOk(u, id)
  {
    FrameEntry(s, u, t, sid, c, e, s.reg.timers[id].tenant);
  }

  lemma FrameRun(s: State, u: State, t: Tenant, sid: StateId, c: CallId, e: RunId, d: RunId)
    requires Frame(s, u, t, sid, c, e) && Own(s, t, sid, c, e) && Local(u, t, sid, c, e)
    requires d != e && RunOk(s, d)
    ensures RunOk(u, d)
  {
    if s.home[d] != t { FrameEntry(s, u, t, sid, c, e, s.home[d]); }
  }

  lemma FrameKeeps(s: State, u: State, t: Tenant, sid: StateId, c: CallId, e: RunId)
    requires Inv(s) && Frame(s, u, t, sid, c, e) && Own(s, t, sid, c, e) && Local(u, t, sid, c, e) && TimerFresh(s, u, e)
    ensures Inv(u)
  {
    FrameBounds(s, u, t, sid, c, e);
    forall x | x in u.reg.conversations ensures TenantOk(u, x) { if x != t { FrameTenant(s, u, t, sid, c, e, x); } }
    forall b | b in u.calls ensures CallOk(u, b, u.calls[b]) { if b != c { FrameCall(s, u, t, sid, c, e, b); } }
    forall id | id in u.reg.timers ensures TimerOk(u, id) {
      if u.reg.timers[id].tenant != t { FrameTimer(s, u, t, sid, c, e, id); }
    }
    forall d | d in u.woken ensures RunOk(u, d) { if d != e { FrameRun(s, u, t, sid, c, e, d); } }
  }

  // ---- who a resuming call is ----

  function RunOf(s: State, c: CallId): RunId
    requires c in s.calls
  {
    if s.calls[c].HasRun() then s.calls[c].run else s.reg.nextId
  }

  /** A waking call resumes: its conversation has no entry and no timer. */
  ghost predicate Waking(s: State, c: CallId, t: Tenant, sid: StateId, e: RunId) {
    && c in s.calls && s.calls[c].Wakes() && s.calls[c].t == t && s.calls[c].sid == sid && RunOf(s, c) == e
    && CallOk(s, c, s.calls[c]) && sid < s.reg.nextId
    && e !in s.reg.heap && e !in s.woken && e !in s.doomed && e !in s.failing && (!s.calls[c].HasRun() ==> e !in s.runs && e !in s.home)
    && (forall id :: id in s.reg.timers ==> s.reg.timers[id].tenant != t && id < s.reg.nextId)
  }

  lemma WakerIsOwn(s: State, c: CallId)
    requires Inv(s) && c in s.calls && s.calls[c].Wakes()
    ensures var call := s.calls[c];
            Own(s, call.t, call.sid, c, RunOf(s, c)) && Waking(s, c, call.t, call.sid, RunOf(s, c))
  {
    var call, e := s.calls[c], RunOf(s, c);
    assert CallOk(s, c, call);
    forall b | b in s.calls && b != c
      ensures (s.calls[b].HasRun() ==> s.calls[b].run != e) && (s.calls[b].Claims() ==> s.calls[b].t != call.t)
    {
      assert CallOk(s, b, s.calls[b]);
    }
    forall x | x in s.reg.conversations ensures EntryOf(s.reg, x) != Some(e) { assert TenantOk(s, x); }
    forall id | id in s.reg.timers ensures s.reg.timers[id].tenant != call.t && id < s.reg.nextId { assert TimerOk(s, id); }
  }

  /** A call holding the entry resumes: the entry is busy and only its own timer can be pending. */
  ghost predicate Using(s: State, c: CallId, t: Tenant, sid: StateId, e: RunId) {
    && c in s.calls && s.calls[c].Uses() && s.calls[c].t == t && s.calls[c].sid == sid && s.calls[c].run == e
    && CallOk(s, c, s.calls[c]) && sid < s.reg.nextId && e in s.woken && RunOk(s, e)
    && (s.reg.heap[e].timer.Some? ==> s.reg.heap[e].timer.value < s.reg.nextId)
    && (forall id :: id in s.reg.timers ==>
          id < s.reg.nextId && (s.reg.timers[id].tenant == t <==> s.reg.heap[e].timer == Some(id)))
    && (forall id :: id in s.reg.timers && s.reg.timers[id].tenant == t ==> s.reg.timers[id].Pause? && !s.reg.states[sid].dropped)
  }

  lemma EntryIsOwn(s: State, t: Tenant, c: CallId, e: RunId)
    requires Inv(s) && EntryOf(s.reg, t) == Some(e)
    requires forall b :: b in s.calls && b != c && s.calls[b].Claims() ==> s.calls[b].t != t
    requires forall b :: b in s.calls && b != c && s.calls[b].HasRun() ==> s.calls[b].run != e
    requires c in s.calls ==> s.calls[c].t == t
    ensures Own(s, t, s.reg.conversations[t], c, e)
    ensures e in s.reg.heap && e in s.woken && RunOk(s, e) && s.reg.conversations[t] < s.reg.nextId
    ensures s.reg.heap[e].timer.Some? ==> s.reg.heap[e].timer.value < s.reg.nextId
    ensures forall id :: id in s.reg.timers ==>
              id < s.reg.nextId && (s.reg.timers[id].tenant == t ==> TimerOk(s, id)) &&
              (s.reg.timers[id].tenant == t <==> s.reg.heap[e].timer == Some(id))
  {
    assert TenantOk(s, t);
    forall x | x in s.reg.conversations && x != t ensures EntryOf(s.reg, x) != Some(e) { assert TenantOk(s, x); }
    forall id | id in s.reg.timers
      ensures id < s.reg.nextId && (s.reg.timers[id].tenant == t ==> TimerOk(s, id))
      ensures s.reg.timers[id].tenant == t <==> s.reg.heap[e].timer == Some(id)
    {
      assert TimerOk(s, id);
      if s.reg.timers[id].tenant != t { assert TenantOk(s, s.reg.timers[id].tenant); }
    }
  }

  lemma UserIsOwn(s: State, c: CallId)
    requires Inv(s) && c in s.calls && s.calls[c].Uses()
    ensures var call := s.calls[c];
            Own(s, call.t, call.sid, c, call.run) && Using(s, c, call.t, call.sid, call.run)
  {
    var call := s.calls[c];
    assert CallOk(s, c, call);
    forall b | b in s.calls && b != c
      ensures (s.calls[b].HasRun() ==> s.calls[b].run != call.run) && (s.calls[b].Claims() ==> s.calls[b].t != call.t)
    {
      assert CallOk(s, b, s.calls[b]);
    }
    EntryIsOwn(s, call.t, c, call.run);
  }

  // ---- a wake ----

  lemma ProceedFrame(s: State, c: CallId, t: Tenant, sid: StateId, e: RunId)
    requires Waking(s, c, t, sid, e)
    ensures var u := Proceed(s, c); Frame(s, u, t, sid, c, e) && TimerFresh(s, u, e)
  {
    if s.calls[c].Creating? { InsertFrame(s, c, t, sid, e); }
    else if Proceed(s, c) != s { NextFrame(s, c, Proceed(s, c).calls[c], t, sid, e); }
  }

  lemma InsertFrame(s: State, c: CallId, t: Tenant, sid: StateId, e: RunId)
    requires Waking(s, c, t, sid, e) && s.calls[c].Creating?
    ensures var u := InsertRun(s, c, t, sid); Frame(s, u, t, sid, c, e) && TimerFresh(s, u, e)
  {
  }

  lemma NextFrame(s: State, c: CallId, call: Call, t: Tenant, sid: StateId, e: RunId)
    requires c in s.calls && (e in s.reg.heap && s.reg.heap[e].timer.Some? ==> s.reg.heap[e].timer.value < s.reg.nextId)
    ensures var u := Next(s, c, call); Frame(s, u, t, sid, c, e) && TimerFresh(s, u, e)
  {
  }

  lemma ProceedLocal(s: State, c: CallId, t: Tenant, sid: StateId, e: RunId)
    requires Waking(s, c, t, sid, e) && Enabled(s, Proceeds(c))
    ensures Local(Proceed(s, c), t, sid, c, e)
  {
    if s.calls[c].Creating? { InsertLocal(s, c, t, sid, e); } else { AdvanceLocal(s, c, t, sid, e); }
  }

  lemma InsertLocal(s: State, c: CallId, t: Tenant, sid: StateId, e: RunId)
    requires Waking(s, c, t, sid, e) && s.calls[c].Creating?
    ensures Local(InsertRun(s, c, t, sid), t, sid, c, e)
  {
    var u := InsertRun(s, c, t, sid);
    assert CallOk(u, c, u.calls[c]);
    assert TenantOk(u, t);
  }

  lemma AdvanceLocal(s: State, c: CallId, t: Tenant, sid: StateId, e: RunId)
    requires Waking(s, c, t, sid, e) && Enabled(s, Proceeds(c)) && !s.calls[c].Creating?
    ensures Local(Proceed(s, c), t, sid, c, e)
  {
    var u := Proceed(s, c);
    assert CallOk(u, c, u.calls[c]);
    assert TenantOk(u, t);
  }

  lemma WakeThrowLocal(s: State, c: CallId, t: Tenant, sid: StateId, e: RunId)
    requires Waking(s, c, t, sid, e)
    ensures var u := WakeThrow(s, c, t, sid); Frame(s, u, t, sid, c, e) && Local(u, t, sid, c, e) && TimerFresh(s, u, e)
  {
  }

  lemma FirstTurnFrame(s: State, c: CallId, ok: bool, t: Tenant, sid: StateId, e: RunId)
    requires Waking(s, c, t, sid, e) && s.calls[c].FirstTurn?
    ensures var u := FirstTurnEnd(s, c, ok, t, sid, e); Frame(s, u, t, sid, c, e) && TimerFresh(s, u, e)
  {
  }

  lemma FirstTurnBroken(s: State, c: CallId, t: Tenant, sid: StateId, e: RunId)
    requires Waking(s, c, t, sid, e) && s.calls[c].FirstTurn?
    ensures Local(FirstTurnEnd(s, c, false, t, sid, e), t, sid, c, e)
  {
    assert TenantOk(FirstTurnEnd(s, c, false, t, sid, e), t);
  }

  lemma FirstTurnDropped(s: State, c: CallId, t: Tenant, sid: StateId, e: RunId)
    requires Waking(s, c, t, sid, e) && s.calls[c].FirstTurn? && s.reg.states[sid].dropped
    ensures Local(FirstTurnEnd(s, c, true, t, sid, e), t, sid, c, e)
  {
    var u := FirstTurnEnd(s, c, true, t, sid, e);
    assert TenantOk(u, t);
    assert CallOk(u, c, u.calls[c]);
    assert RunOk(u, e);
  }

  lemma FirstTurnKept(s: State, c: CallId, t: Tenant, sid: StateId, e: RunId)
    requires Waking(s, c, t, sid, e) && s.calls[c].FirstTurn? && !s.reg.states[sid].dropped
    ensures Local(FirstTurnEnd(s, c, true, t, sid, e), t, sid, c, e)
  {
    var u := FirstTurnEnd(s, c, true, t, sid, e);
    assert TenantOk(u, t);
    assert RunOk(u, e);
  }

  lemma FirstFailLocal(s: State, c: CallId, closed: bool, t: Tenant, sid: StateId, e: RunId)
    requires Waking(s, c, t, sid, e) && s.calls[c].FailingFirst?
    ensures var u := FirstFail(s, c, closed, t, sid, e); Frame(s, u, t, sid, c, e) && Local(u, t, sid, c, e) && TimerFresh(s, u, e)
  {
  }

  // ---- a call that holds the entry ----

  lemma TurnEndFrame(s: State, c: CallId, ok: bool, t: Tenant, sid: StateId, e: RunId)
    requires Using(s, c, t, sid, e) && s.calls[c].Turn?
    ensures var u := TurnEnd(s, c, ok, t, sid, e); Frame(s, u, t, sid, c, e) && TimerFresh(s, u, e)
  {
    if ok { TurnDoneFrame(s, c, t, sid, e); } else { TurnBrokenFrame(s, c, t, sid, e); }
  }

  lemma TurnDoneFrame(s: State, c: CallId, t: Tenant, sid: StateId, e: RunId)
    requires Using(s, c, t, sid, e) && s.calls[c].Turn?
    ensures var u := TurnEnd(s, c, true, t, sid, e); Frame(s, u, t, sid, c, e) && TimerFresh(s, u, e)
  {
  }

  lemma TurnBrokenFrame(s: State, c: CallId, t: Tenant, sid: StateId, e: RunId)
    requires Using(s, c, t, sid, e) && s.calls[c].Turn?
    ensures var u := TurnEnd(s, c, false, t, sid, e); Frame(s, u, t, sid, c, e) && TimerFresh(s, u, e)
  {
  }

  lemma TurnBroken(s: State, c: CallId, t: Tenant, sid: StateId, e: RunId)
    requires Using(s, c, t, sid, e) && s.calls[c].Turn?
    ensures Local(TurnEnd(s, c, false, t, sid, e), t, sid, c, e)
  {
    var u := TurnEnd(s, c, false, t, sid, e);
    assert EntryOf(u.reg, t).None?;
    assert RunOk(u, e);
  }

  lemma TurnCompleted(s: State, c: CallId, t: Tenant, sid: StateId, e: RunId)
    requires Using(s, c, t, sid, e) && s.calls[c].Turn?
    ensures Local(TurnEnd(s, c, true, t, sid, e), t, sid, c, e)
  {
    var u := TurnEnd(s, c, true, t, sid, e);
    assert TenantOk(u, t);
    assert RunOk(u, e);
  }

  lemma DropSettleFrame(s: State, c: CallId, ok: bool, applied: bool, t: Tenant, sid: StateId, e: RunId, wake: bool)
    requires Using(s, c, t, sid, e) && s.calls[c] == Dropping(t, sid, e, wake)
    ensures var u := DropSettle(s, c, ok, applied, t, sid, e, wake); Frame(s, u, t, sid, c, e) && TimerFresh(s, u, e)
  {
    if ok { DropSettledFrame(s, c, applied, t, sid, e, wake); } else { DropRetriedFrame(s, c, applied, t, sid, e, wake); }
  }

  lemma DropSettledFrame(s: State, c: CallId, applied: bool, t: Tenant, sid: StateId, e: RunId, wake: bool)
    requires Using(s, c, t, sid, e) && s.calls[c] == Dropping(t, sid, e, wake)
    ensures var u := DropSettle(s, c, true, applied, t, sid, e, wake); Frame(s, u, t, sid, c, e) && TimerFresh(s, u, e)
  {
    var u := DropSettle(s, c, true, applied, t, sid, e, wake);
    assert u.reg.states == s.reg.states[sid := u.reg.states[sid]];
    assert SameElsewhere(s, u, t, sid);
    assert SameRuns(s, u, e);
  }

  lemma DropRetriedFrame(s: State, c: CallId, applied: bool, t: Tenant, sid: StateId, e: RunId, wake: bool)
    requires Using(s, c, t, sid, e) && s.calls[c] == Dropping(t, sid, e, wake)
    ensures var u := DropSettle(s, c, false, applied, t, sid, e, wake); Frame(s, u, t, sid, c, e) && TimerFresh(s, u, e)
  {
  }

  lemma DropSettled(s: State, c: CallId, applied: bool, t: Tenant, sid: StateId, e: RunId, wake: bool)
    requires Using(s, c, t, sid, e) && s.calls[c] == Dropping(t, sid, e, wake)
    ensures Local(DropSettle(s, c, true, applied, t, sid, e, wake), t, sid, c, e)
  {
    var u := DropSettle(s, c, true, applied, t, sid, e, wake);
    assert EntryOf(u.reg, t).None?;
    assert RunOk(u, e);
  }

  lemma DropRetried(s: State, c: CallId, applied: bool, t: Tenant, sid: StateId, e: RunId, wake: bool)
    requires Using(s, c, t, sid, e) && s.calls[c] == Dropping(t, sid, e, wake)
    ensures Local(DropSettle(s, c, false, applied, t, sid, e, wake), t, sid, c, e)
  {
    var u := DropSettle(s, c, false, applied, t, sid, e, wake);
    assert TenantOk(u, t);
    assert RunOk(u, e);
  }

  // ---- the TTL pause ----

  predicate AnyPause(call: Call) {
    call.Pausing? || call.Committing? || call.PauseRecording?
  }

  lemma PauseFailedLocal(s: State, c: CallId, t: Tenant, sid: StateId, e: RunId)
    requires Using(s, c, t, sid, e) && AnyPause(s.calls[c])
    ensures var u := PauseFailed(s, c, t, sid, e); Frame(s, u, t, sid, c, e) && Local(u, t, sid, c, e) && TimerFresh(s, u, e)
  {
    if Dropped(s, sid) { PauseTurnsToClose(s, c, t, sid, e); } else { PauseRetried(s, c, t, sid, e); }
  }

  lemma PauseTurnsToClose(s: State, c: CallId, t: Tenant, sid: StateId, e: RunId)
    requires Using(s, c, t, sid, e) && AnyPause(s.calls[c]) && Dropped(s, sid)
    ensures var u := PauseFailed(s, c, t, sid, e); Frame(s, u, t, sid, c, e) && Local(u, t, sid, c, e) && TimerFresh(s, u, e)
  {
    var u := PauseFailed(s, c, t, sid, e);
    assert TenantOk(u, t);
    assert RunOk(u, e);
  }

  lemma PauseRetried(s: State, c: CallId, t: Tenant, sid: StateId, e: RunId)
    requires Using(s, c, t, sid, e) && AnyPause(s.calls[c]) && !Dropped(s, sid)
    ensures var u := PauseFailed(s, c, t, sid, e); Frame(s, u, t, sid, c, e) && Local(u, t, sid, c, e) && TimerFresh(s, u, e)
  {
    var u := PauseFailed(s, c, t, sid, e);
    assert TenantOk(u, t);
    assert RunOk(u, e);
  }

  lemma PausePasses(s: State, c: CallId, t: Tenant, sid: StateId, e: RunId)
    requires Using(s, c, t, sid, e) && s.calls[c].Pausing? && !Dropped(s, sid)
    ensures var u := Next(s, c, Committing(t, sid, e)); Frame(s, u, t, sid, c, e) && Local(u, t, sid, c, e) && TimerFresh(s, u, e)
  {
    var u := Next(s, c, Committing(t, sid, e));
    assert TenantOk(u, t);
    assert RunOk(u, e);
  }

  lemma PauseRecordedLocal(s: State, c: CallId, t: Tenant, sid: StateId, e: RunId)
    requires Using(s, c, t, sid, e) && s.calls[c].PauseRecording?
    ensures var u := PauseRecord(s, c, true, t, sid, e); Frame(s, u, t, sid, c, e) && Local(u, t, sid, c, e) && TimerFresh(s, u, e)
  {
    var u := PauseRecord(s, c, true, t, sid, e);
    assert EntryOf(u.reg, t).None?;
    assert RunOk(u, e);
  }

  /** The pause's own commit is the only step that turns a row `done`. */
  lemma PauseCommitFrame(s: State, c: CallId, t: Tenant, sid: StateId, e: RunId)
    requires Using(s, c, t, sid, e) && s.calls[c].Committing?
    ensures var u := Next(Close(s, e, Done), c, PauseRecording(t, sid, e)); Frame(s, u, t, sid, c, e) && TimerFresh(s, u, e)
  {
  }

  lemma PauseCommitLocal(s: State, c: CallId, t: Tenant, sid: StateId, e: RunId)
    requires Using(s, c, t, sid, e) && s.calls[c].Committing?
    ensures Local(Next(Close(s, e, Done), c, PauseRecording(t, sid, e)), t, sid, c, e)
  {
    var u := Next(Close(s, e, Done), c, PauseRecording(t, sid, e));
    assert TenantOk(u, t);
    assert RunOk(u, e);
  }

  lemma PauseCommitThrew(s: State, c: CallId, applied: bool, t: Tenant, sid: StateId, e: RunId)
    requires Using(s, c, t, sid, e) && s.calls[c].Committing?
    ensures var u := PauseCommit(s, c, false, applied, t, sid, e); Frame(s, u, t, sid, c, e) && Local(u, t, sid, c, e) && TimerFresh(s, u, e)
  {
    var s1 := if applied then Missed(Close(s, e, Done), e) else s;
    MissedIsUsing(s, c, t, sid, e);
    PauseFailedLocal(s1, c, t, sid, e);
    CloseThenFrame(s, s1, PauseCommit(s, c, false, applied, t, sid, e), t, sid, c, e);
  }

  lemma PauseRecordThrew(s: State, c: CallId, t: Tenant, sid: StateId, e: RunId)
    requires Using(s, c, t, sid, e) && s.calls[c].PauseRecording?
    ensures var u := PauseRecord(s, c, false, t, sid, e); Frame(s, u, t, sid, c, e) && Local(u, t, sid, c, e) && TimerFresh(s, u, e)
  {
    var s1 := Missed(s, e);
    MissedIsUsing(s, c, t, sid, e);
    PauseFailedLocal(s1, c, t, sid, e);
    CloseThenFrame(s, s1, PauseRecord(s, c, false, t, sid, e), t, sid, c, e);
  }

  lemma MissedIsUsing(s: State, c: CallId, t: Tenant, sid: StateId, e: RunId)
    requires Using(s, c, t, sid, e)
    ensures s.calls[c].Committing? ==> Using(Missed(Close(s, e, Done), e), c, t, sid, e)
    ensures s.calls[c].PauseRecording? ==> Using(Missed(s, e), c, t, sid, e)
  {
    if s.calls[c].Committing? {
      var s1 := Missed(Close(s, e, Done), e);
      assert RunOk(s1, e);
      assert CallOk(s1, c, s1.calls[c]);
    } else if s.calls[c].PauseRecording? {
      var s1 := Missed(s, e);
      assert RunOk(s1, e);
      assert CallOk(s1, c, s1.calls[c]);
    }
  }

  lemma CloseThenFrame(s: State, s1: State, u: State, t: Tenant, sid: StateId, c: CallId, e: RunId)
    requires (s1 == s || s1 == Missed(s, e) || s1 == Missed(Close(s, e, Done), e)) && Frame(s1, u, t, sid, c, e) && TimerFresh(s1, u, e)
    ensures Frame(s, u, t, sid, c, e) && TimerFresh(s, u, e)
  {
    CloseThenRuns(s, s1, u, e);
    SameReg(s, s1, u, t, sid);
  }

  lemma CloseThenRuns(s: State, s1: State, u: State, e: RunId)
    requires (s1 == s || s1 == Missed(s, e) || s1 == Missed(Close(s, e, Done), e)) && SameRuns(s1, u, e)
    ensures SameRuns(s, u, e)
  {
  }

  lemma SameReg(s: State, s1: State, u: State, t: Tenant, sid: StateId)
    requires s1.reg == s.reg && s1.owner == s.owner && SameElsewhere(s1, u, t, sid)
    ensures SameElsewhere(s, u, t, sid)
  {
  }

  // ---- send, drop, timers ----

  /** Nothing is claimed for the tenant: its conversation, if any, is idle. */
  lemma UnclaimedIsIdle(s: State, t: Tenant)
    requires Inv(s) && (t !in s.reg.conversations || Pausable(s.reg, t))
    ensures s.nextCall !in s.calls
    ensures forall b :: b in s.calls && s.calls[b].Claims() ==> s.calls[b].t != t
    ensures forall b :: b in s.calls && s.calls[b].HasRun() ==> EntryOf(s.reg, t) != Some(s.calls[b].run) && s.calls[b].run < s.reg.nextId
  {
    forall b | b in s.calls
      ensures b < s.nextCall && (s.calls[b].Claims() ==> s.calls[b].t != t)
      ensures s.calls[b].HasRun() ==> EntryOf(s.reg, t) != Some(s.calls[b].run) && s.calls[b].run < s.reg.nextId
    {
      assert CallOk(s, b, s.calls[b]);
      if t in s.reg.conversations { assert TenantOk(s, t); }
      if s.calls[b].t in s.reg.conversations { assert TenantOk(s, s.calls[b].t); }
    }
  }

  /** The idle entry of a conversation, with its one pending timer. */
  ghost predicate Idle(s: State, t: Tenant, sid: StateId, e: RunId) {
    && t in s.reg.conversations && s.reg.conversations[t] == sid && sid in s.reg.states && sid < s.reg.nextId
    && s.reg.states[sid] == Conversation(Some(e), false, s.reg.states[sid].dropped)
    && e in s.reg.heap && !s.reg.heap[e].busy && e in s.woken && e in s.home && s.home[e] == t && RunOk(s, e)
    && (s.reg.heap[e].timer.Some? ==> s.reg.heap[e].timer.value < s.reg.nextId)
    && (forall id :: id in s.reg.timers ==>
          id < s.reg.nextId && (s.reg.timers[id].tenant == t ==> TimerOk(s, id)) &&
          (s.reg.timers[id].tenant == t <==> s.reg.heap[e].timer == Some(id)))
    && s.nextCall !in s.calls
  }

  lemma IdleIsOwn(s: State, t: Tenant)
    requires Inv(s) && Pausable(s.reg, t)
    ensures var sid, e := s.reg.conversations[t], EntryOf(s.reg, t).value;
            Own(s, t, sid, s.nextCall, e) && Idle(s, t, sid, e)
  {
    UnclaimedIsIdle(s, t);
    assert TenantOk(s, t);
    EntryIsOwn(s, t, s.nextCall, EntryOf(s.reg, t).value);
  }

  lemma BeginTurnFrame(s: State, t: Tenant, sid: StateId, e: RunId)
    requires Idle(s, t, sid, e)
    ensures var u := BeginTurn(s, t, sid, e); Frame(s, u, t, sid, s.nextCall, e) && TimerFresh(s, u, e)
  {
  }

  lemma BeginTurnLocal(s: State, t: Tenant, sid: StateId, e: RunId)
    requires Idle(s, t, sid, e) && !s.reg.states[sid].dropped
    ensures Local(BeginTurn(s, t, sid, e), t, sid, s.nextCall, e)
  {
    var u := BeginTurn(s, t, sid, e);
    assert TenantOk(u, t);
    assert RunOk(u, e);
  }

  function FiredCall(s: State, id: TimerId, t: Tenant, sid: StateId, e: RunId): Call
    requires id in s.reg.timers
  {
    if s.reg.timers[id].Pause? then Pausing(t, sid, e) else Dropping(t, sid, e, false)
  }

  function Claimed(s: State, id: TimerId, e: RunId, call: Call): State {
    Start(s.(reg := SetBusy(s.reg.(timers := s.reg.timers - {id}), e, true)), call)
  }

  lemma FireClaims(s: State, id: TimerId, t: Tenant, sid: StateId, e: RunId)
    requires Idle(s, t, sid, e) && id in s.reg.timers && s.reg.timers[id].tenant == t
    ensures Fire(s, id) == Claimed(s, id, e, FiredCall(s, id, t, sid, e))
  {
    assert TimerOk(s, id);
  }

  lemma ClaimedFrame(s: State, id: TimerId, t: Tenant, sid: StateId, e: RunId)
    requires Idle(s, t, sid, e) && id in s.reg.timers && s.reg.timers[id].tenant == t
    ensures var u := Claimed(s, id, e, FiredCall(s, id, t, sid, e));
            Frame(s, u, t, sid, s.nextCall, e) && TimerFresh(s, u, e)
  {
  }

  lemma ClaimedLocal(s: State, id: TimerId, t: Tenant, sid: StateId, e: RunId)
    requires Idle(s, t, sid, e) && id in s.reg.timers && s.reg.timers[id].tenant == t
    ensures Local(Claimed(s, id, e, FiredCall(s, id, t, sid, e)), t, sid, s.nextCall, e)
  {
    var u := Claimed(s, id, e, FiredCall(s, id, t, sid, e));
    assert TimerOk(s, id);
    assert CallOk(u, s.nextCall, u.calls[s.nextCall]);
    assert TenantOk(u, t);
    assert RunOk(u, e);
  }

  lemma DropIdleIs(s: State, t: Tenant, sid: StateId, e: RunId)
    requires Idle(s, t, sid, e)
    ensures var u := Drop(s, t, sid);
            && u.calls == s.calls[s.nextCall := Dropping(t, sid, e, false)] && u.owner == s.owner[t := s.nextCall]
            && u.reg == s.reg.(states := s.reg.states[sid := s.reg.states[sid].(dropped := true)], heap := s.reg.heap[e := s.reg.heap[e].(busy := true)],
                               timers := u.reg.timers)
            && u.reg.timers == (if s.reg.heap[e].timer.Some? then s.reg.timers - {s.reg.heap[e].timer.value} else s.reg.timers)
            && s.doomed <= u.doomed <= s.doomed + {e} && u.nextCall == s.nextCall + 1
            && u.runs == s.runs && u.home == s.home && u.woken == s.woken && u.failing == s.failing && u.lost == s.lost && u.others == s.others
  {
  }

  lemma DropIdleFrame(s: State, t: Tenant, sid: StateId, e: RunId)
    requires Idle(s, t, sid, e) && !s.reg.states[sid].dropped
    ensures var u := Drop(s, t, sid); Frame(s, u, t, sid, s.nextCall, e) && TimerFresh(s, u, e)
  {
    DropIdleIs(s, t, sid, e);
  }

  lemma DropIdleLocal(s: State, t: Tenant, sid: StateId, e: RunId)
    requires Idle(s, t, sid, e) && !s.reg.states[sid].dropped
    ensures Local(Drop(s, t, sid), t, sid, s.nextCall, e)
  {
    var u := Drop(s, t, sid);
    assert TenantOk(u, t);
    assert RunOk(u, e);
  }

  lemma DropBusyLocal(s: State, c: CallId, t: Tenant, sid: StateId, e: RunId)
    requires Using(s, c, t, sid, e) && !s.reg.states[sid].dropped
    ensures var u := Drop(s, t, sid); Frame(s, u, t, sid, c, e) && Local(u, t, sid, c, e) && TimerFresh(s, u, e)
  {
    var u := Drop(s, t, sid);
    assert CallOk(u, c, u.calls[c]);
    assert TenantOk(u, t);
    assert RunOk(u, e);
  }

  lemma DropWakingLocal(s: State, c: CallId, t: Tenant, sid: StateId, e: RunId)
    requires Waking(s, c, t, sid, e)
    ensures var u := Drop(s, t, sid); Frame(s, u, t, sid, c, e) && Local(u, t, sid, c, e) && TimerFresh(s, u, e)
  {
    var u := Drop(s, t, sid);
    assert CallOk(u, c, u.calls[c]);
    assert TenantOk(u, t);
  }

  /** Nothing of the tenant's and nothing under the next id exists yet. */
  ghost predicate Absent(s: State, t: Tenant) {
    && s.nextCall !in s.calls && s.reg.nextId !in s.reg.states && t !in s.reg.conversations
    && (var e := s.reg.nextId; e !in s.reg.heap && e !in s.woken && e !in s.doomed && e !in s.failing && e !in s.runs && e !in s.home)
    && (forall id :: id in s.reg.timers ==> s.reg.timers[id].tenant != t)
  }

  lemma BeginWakeFrame(s: State, t: Tenant)
    requires Absent(s, t)
    ensures var u, e := BeginWake(s, t), s.reg.nextId; Frame(s, u, t, e, s.nextCall, e) && TimerFresh(s, u, e)
  {
  }

  lemma BeginWakeLocal(s: State, t: Tenant)
    requires Absent(s, t)
    ensures Local(BeginWake(s, t), t, s.reg.nextId, s.nextCall, s.reg.nextId)
  {
    var u := BeginWake(s, t);
    assert CallOk(u, s.nextCall, u.calls[s.nextCall]);
    assert TenantOk(u, t);
  }

  // ---- steps that touch no conversation ----

  lemma InterfereCall(s: State, run: RunId, status: Status, c: CallId)
    requires Enabled(s, OtherWriter(run, status)) && c in s.calls && CallOk(s, c, s.calls[c])
    ensures CallOk(Interfere(s, run, status), c, s.calls[c])
  {
  }

  lemma InterfereRun(s: State, run: RunId, status: Status, d: RunId)
    requires Enabled(s, OtherWriter(run, status)) && RunOk(s, d)
    ensures RunOk(Interfere(s, run, status), d)
  {
  }

  lemma InterfereRest(s: State, run: RunId, status: Status)
    requires Inv(s)
    ensures var u := Interfere(s, run, status);
            && Bounds(u) && u.reg == s.reg && u.calls == s.calls && u.woken == s.woken
            && (forall t :: t in u.reg.conversations ==> TenantOk(u, t))
            && (forall id :: id in u.reg.timers ==> TimerOk(u, id))
  {
    var u := Interfere(s, run, status);
    forall t | t in u.reg.conversations ensures TenantOk(u, t) { assert TenantOk(s, t); }
    forall id | id in u.reg.timers ensures TimerOk(u, id) { assert TimerOk(s, id); }
  }

  /** Another writer closes a row no pause is committing. */
  lemma InterfereKeeps(s: State, run: RunId, status: Status)
    requires Inv(s) && Enabled(s, OtherWriter(run, status))
    ensures Inv(Interfere(s, run, status))
  {
    var u := Interfere(s, run, status);
    InterfereRest(s, run, status);
    forall c | c in u.calls ensures CallOk(u, c, u.calls[c]) { InterfereCall(s, run, status, c); }
    forall d | d in u.woken ensures RunOk(u, d) { InterfereRun(s, run, status, d); }
  }

  /** `failRun` is closing a run whose entry has already left its conversation. */
  ghost predicate Lingers(s: State, c: CallId, e: RunId) {
    && c in s.calls && s.calls[c].FailingTurn? && s.calls[c].run == e && CallOk(s, c, s.calls[c])
    && (forall t :: t in s.reg.conversations ==> EntryOf(s.reg, t) != Some(e))
    && (forall b :: b in s.calls && b != c && s.calls[b].HasRun() ==> s.calls[b].run != e)
    && e in s.woken && RunOk(s, e)
  }

  lemma LingerTenant(s: State, c: CallId, closed: bool, e: RunId, t: Tenant)
    requires Lingers(s, c, e) && t in s.reg.conversations && TenantOk(s, t)
    ensures TenantOk(TurnFail(s, c, closed, e), t)
  {
  }

  lemma LingerCall(s: State, c: CallId, closed: bool, e: RunId, b: CallId)
    requires Lingers(s, c, e) && b in s.calls && b != c && CallOk(s, b, s.calls[b])
    ensures CallOk(TurnFail(s, c, closed, e), b, s.calls[b])
  {
  }

  lemma LingerTimer(s: State, c: CallId, closed: bool, e: RunId, id: TimerId)
    requires Lingers(s, c, e) && id in s.reg.timers && TimerOk(s, id)
    ensures TimerOk(TurnFail(s, c, closed, e), id)
  {
  }

  lemma LingerRun(s: State, c: CallId, closed: bool, e: RunId, d: RunId)
    requires Lingers(s, c, e) && RunOk(s, d)
    ensures RunOk(TurnFail(s, c, closed, e), d)
  {
  }

  lemma LingerBounds(s: State, c: CallId, closed: bool, e: RunId)
    requires Lingers(s, c, e) && Bounds(s)
    ensures Bounds(TurnFail(s, c, closed, e))
  {
  }

  lemma TurnFailKeeps(s: State, c: CallId, closed: bool)
    requires Inv(s) && c in s.calls && s.calls[c].FailingTurn?
    ensures Inv(TurnFail(s, c, closed, s.calls[c].run))
  {
    var e, u := s.calls[c].run, TurnFail(s, c, closed, s.calls[c].run);
    assert CallOk(s, c, s.calls[c]);
    assert Lingers(s, c, e) by {
      forall t | t in s.reg.conversations ensures EntryOf(s.reg, t) != Some(e) { assert TenantOk(s, t); }
    }
    LingerBounds(s, c, closed, e);
    forall b | b in u.calls ensures CallOk(u, b, u.calls[b]) { LingerCall(s, c, closed, e, b); }
    forall t | t in u.reg.conversations ensures TenantOk(u, t) { LingerTenant(s, c, closed, e, t); }
    forall id | id in u.reg.timers ensures TimerOk(u, id) { LingerTimer(s, c, closed, e, id); }
    forall d | d in u.woken ensures RunOk(u, d) { LingerRun(s, c, closed, e, d); }
  }

  /** A timer goes off while its conversation's turn is in flight: it is spent, and nothing else changes. */
  lemma SpentTimerLocal(s: State, id: TimerId, c: CallId, t: Tenant, sid: StateId, e: RunId)
    requires Using(s, c, t, sid, e) && s.calls[c].Turn? && id in s.reg.timers && s.reg.timers[id].tenant == t
    ensures var u := s.(reg := s.reg.(timers := s.reg.timers - {id}));
            Frame(s, u, t, sid, c, e) && Local(u, t, sid, c, e) && TimerFresh(s, u, e)
  {
    var u := s.(reg := s.reg.(timers := s.reg.timers - {id}));
    assert CallOk(u, c, u.calls[c]);
    assert TenantOk(u, t);
    assert RunOk(u, e);
  }

  // ---- every step ----

  lemma BusyTimerIsTurns(s: State, id: TimerId)
    requires Inv(s) && id in s.reg.timers && !Pausable(s.reg, s.reg.timers[id].tenant)
    ensures var t := s.reg.timers[id].tenant;
            && t in s.owner && s.owner[t] in s.calls && s.calls[s.owner[t]].Turn? && s.calls[s.owner[t]].t == t
            && s.reg.timers[id].Pause?
  {
    var t := s.reg.timers[id].tenant;
    assert TimerOk(s, id);
    assert TenantOk(s, t);
    assert CallOk(s, s.owner[t], s.calls[s.owner[t]]);
  }

  lemma FireKeeps(s: State, id: TimerId)
    requires Inv(s) && id in s.reg.timers
    ensures Inv(Fire(s, id))
  {
    var t := s.reg.timers[id].tenant;
    if Pausable(s.reg, t) {
      IdleIsOwn(s, t);
      var sid, e := s.reg.conversations[t], EntryOf(s.reg, t).value;
      FireClaims(s, id, t, sid, e);
      ClaimedFrame(s, id, t, sid, e);
      ClaimedLocal(s, id, t, sid, e);
      FrameKeeps(s, Fire(s, id), t, sid, s.nextCall, e);
    } else {
      BusyTimerIsTurns(s, id);
      var c := s.owner[t];
      UserIsOwn(s, c);
      SpentTimerLocal(s, id, c, t, s.calls[c].sid, s.calls[c].run);
      FrameKeeps(s, Fire(s, id), t, s.calls[c].sid, c, s.calls[c].run);
    }
  }

  lemma ProceedKeeps(s: State, c: CallId)
    requires Inv(s) && Enabled(s, Proceeds(c))
    ensures Inv(Proceed(s, c))
  {
    WakerIsOwn(s, c);
    var t, sid, e := s.calls[c].t, s.calls[c].sid, RunOf(s, c);
    ProceedFrame(s, c, t, sid, e);
    ProceedLocal(s, c, t, sid, e);
    FrameKeeps(s, Proceed(s, c), t, sid, c, e);
  }

  lemma WakeThrowKeeps(s: State, c: CallId)
    requires Inv(s) && Enabled(s, WakeThrows(c))
    ensures Inv(WakeThrow(s, c, s.calls[c].t, s.calls[c].sid))
  {
    WakerIsOwn(s, c);
    var t, sid, e := s.calls[c].t, s.calls[c].sid, RunOf(s, c);
    WakeThrowLocal(s, c, t, sid, e);
    FrameKeeps(s, WakeThrow(s, c, t, sid), t, sid, c, e);
  }

  lemma InsertedRest(s: State, t: Tenant)
    requires Inv(s)
    ensures var u := Inserted(s, t);
            && Bounds(u) && (forall x :: x in u.reg.conversations ==> TenantOk(u, x))
            && (forall id :: id in u.reg.timers ==> TimerOk(u, id)) && (forall run :: run in u.woken ==> RunOk(u, run))
  {
    var u := Inserted(s, t);
    forall x | x in u.reg.conversations ensures TenantOk(u, x) { assert TenantOk(s, x); }
    forall id | id in u.reg.timers ensures TimerOk(u, id) { assert TimerOk(s, id); }
    forall run | run in u.woken ensures RunOk(u, run) { assert RunOk(s, run); }
  }

  /** A row nobody knows about concerns nobody. */
  lemma InsertedKeeps(s: State, t: Tenant)
    requires Inv(s)
    ensures Inv(Inserted(s, t))
  {
    var u := Inserted(s, t);
    InsertedRest(s, t);
    forall c | c in u.calls ensures CallOk(u, c, u.calls[c]) { assert CallOk(s, c, s.calls[c]); }
  }

  lemma FirstTurnEndKeeps(s: State, c: CallId, ok: bool)
    requires Inv(s) && Enabled(s, FirstTurnEnds(c, ok))
    ensures Inv(FirstTurnEnd(s, c, ok, s.calls[c].t, s.calls[c].sid, s.calls[c].run))
  {
    WakerIsOwn(s, c);
    var t, sid, e := s.calls[c].t, s.calls[c].sid, s.calls[c].run;
    FirstTurnFrame(s, c, ok, t, sid, e);
    if !ok { FirstTurnBroken(s, c, t, sid, e); }
    else if s.reg.states[sid].dropped { FirstTurnDropped(s, c, t, sid, e); }
    else { FirstTurnKept(s, c, t, sid, e); }
    FrameKeeps(s, FirstTurnEnd(s, c, ok, t, sid, e), t, sid, c, e);
  }

  lemma FirstFailKeeps(s: State, c: CallId, closed: bool)
    requires Inv(s) && Enabled(s, FirstFailSettles(c, closed))
    ensures Inv(FirstFail(s, c, closed, s.calls[c].t, s.calls[c].sid, s.calls[c].run))
  {
    WakerIsOwn(s, c);
    var t, sid, e := s.calls[c].t, s.calls[c].sid, s.calls[c].run;
    FirstFailLocal(s, c, closed, t, sid, e);
    FrameKeeps(s, FirstFail(s, c, closed, t, sid, e), t, sid, c, e);
  }

  lemma TurnEndKeeps(s: State, c: CallId, ok: bool)
    requires Inv(s) && c in s.calls && s.calls[c].Turn?
    ensures s.calls[c].sid in s.reg.states && Inv(TurnEnd(s, c, ok, s.calls[c].t, s.calls[c].sid, s.calls[c].run))
  {
    UserIsOwn(s, c);
    var t, sid, e := s.calls[c].t, s.calls[c].sid, s.calls[c].run;
    TurnEndFrame(s, c, ok, t, sid, e);
    if ok { TurnCompleted(s, c, t, sid, e); } else { TurnBroken(s, c, t, sid, e); }
    FrameKeeps(s, TurnEnd(s, c, ok, t, sid, e), t, sid, c, e);
  }

  lemma DropSettleKeeps(s: State, c: CallId, ok: bool, applied: bool)
    requires Inv(s) && c in s.calls && s.calls[c].Dropping?
    ensures var call := s.calls[c];
            call.sid in s.reg.states && Inv(DropSettle(s, c, ok, applied, call.t, call.sid, call.run, call.wake))
  {
    UserIsOwn(s, c);
    var t, sid, e, wake := s.calls[c].t, s.calls[c].sid, s.calls[c].run, s.calls[c].wake;
    DropSettleFrame(s, c, ok, applied, t, sid, e, wake);
    if ok { DropSettled(s, c, applied, t, sid, e, wake); } else { DropRetried(s, c, applied, t, sid, e, wake); }
    FrameKeeps(s, DropSettle(s, c, ok, applied, t, sid, e, wake), t, sid, c, e);
  }

  lemma PauseKeeps(s: State, c: CallId, ok: bool, applied: bool)
    requires Inv(s) && c in s.calls
    ensures s.calls[c].Pausing? ==> Inv(PauseUpdate(s, c, ok, s.calls[c].t, s.calls[c].sid, s.calls[c].run))
    ensures s.calls[c].Committing? ==> Inv(PauseCommit(s, c, ok, applied, s.calls[c].t, s.calls[c].sid, s.calls[c].run))
    ensures s.calls[c].PauseRecording? ==>
              s.calls[c].sid in s.reg.states && Inv(PauseRecord(s, c, ok, s.calls[c].t, s.calls[c].sid, s.calls[c].run))
  {
    if s.calls[c].Pausing? || s.calls[c].Committing? || s.calls[c].PauseRecording? {
      UserIsOwn(s, c);
      var t, sid, e := s.calls[c].t, s.calls[c].sid, s.calls[c].run;
      PauseSettles(s, c, ok, applied, t, sid, e);
    }
  }

  lemma PauseSettles(s: State, c: CallId, ok: bool, applied: bool, t: Tenant, sid: StateId, e: RunId)
    requires Inv(s) && Own(s, t, sid, c, e) && Using(s, c, t, sid, e)
    ensures s.calls[c].Pausing? ==> Inv(PauseUpdate(s, c, ok, t, sid, e))
    ensures s.calls[c].Committing? ==> Inv(PauseCommit(s, c, ok, applied, t, sid, e))
    ensures s.calls[c].PauseRecording? ==> Inv(PauseRecord(s, c, ok, t, sid, e))
  {
    if s.calls[c].Pausing? {
      if !ok || Dropped(s, sid) { PauseFailedLocal(s, c, t, sid, e); } else { PausePasses(s, c, t, sid, e); }
      FrameKeeps(s, PauseUpdate(s, c, ok, t, sid, e), t, sid, c, e);
    } else if s.calls[c].Committing? {
      if ok { PauseCommitFrame(s, c, t, sid, e); PauseCommitLocal(s, c, t, sid, e); } else { PauseCommitThrew(s, c, applied, t, sid, e); }
      FrameKeeps(s, PauseCommit(s, c, ok, applied, t, sid, e), t, sid, c, e);
    } else if s.calls[c].PauseRecording? {
      if ok { PauseRecordedLocal(s, c, t, sid, e); } else { PauseRecordThrew(s, c, t, sid, e); }
      FrameKeeps(s, PauseRecord(s, c, ok, t, sid, e), t, sid, c, e);
    }
  }

  lemma SendKeeps(s: State, t: Tenant)
    requires Inv(s) && Enabled(s, Send(t))
    ensures t in s.reg.conversations ==>
              EntryOf(s.reg, t).Some? && Inv(BeginTurn(s, t, s.reg.conversations[t], EntryOf(s.reg, t).value))
    ensures t !in s.reg.conversations ==> Inv(BeginWake(s, t))
  {
    if t in s.reg.conversations {
      assert TenantOk(s, t);
      var sid, e := s.reg.conversations[t], EntryOf(s.reg, t).value;
      IdleIsOwn(s, t);
      BeginTurnFrame(s, t, sid, e);
      BeginTurnLocal(s, t, sid, e);
      FrameKeeps(s, BeginTurn(s, t, sid, e), t, sid, s.nextCall, e);
    } else {
      UnclaimedIsIdle(s, t);
      var e := s.reg.nextId;
      forall id | id in s.reg.timers ensures s.reg.timers[id].tenant != t { assert TimerOk(s, id); }
      forall b | b in s.calls && s.calls[b].HasRun() ensures s.calls[b].run != e { assert CallOk(s, b, s.calls[b]); }
      forall x | x in s.reg.conversations ensures EntryOf(s.reg, x) != Some(e) { assert TenantOk(s, x); }
      BeginWakeFrame(s, t);
      BeginWakeLocal(s, t);
      FrameKeeps(s, BeginWake(s, t), t, e, s.nextCall, e);
    }
  }

  lemma DropKeeps(s: State, t: Tenant)
    requires Inv(s) && Enabled(s, DropTenant(t))
    ensures Inv(Drop(s, t, s.reg.conversations[t]))
  {
    var sid := s.reg.conversations[t];
    assert TenantOk(s, t);
    if Pausable(s.reg, t) {
      var e := EntryOf(s.reg, t).value;
      IdleIsOwn(s, t);
      DropIdleFrame(s, t, sid, e);
      DropIdleLocal(s, t, sid, e);
      FrameKeeps(s, Drop(s, t, sid), t, sid, s.nextCall, e);
    } else {
      var c := s.owner[t];
      if s.calls[c].Wakes() {
        WakerIsOwn(s, c);
        DropWakingLocal(s, c, t, sid, RunOf(s, c));
        FrameKeeps(s, Drop(s, t, sid), t, sid, c, RunOf(s, c));
      } else {
        UserIsOwn(s, c);
        DropBusyLocal(s, c, t, sid, s.calls[c].run);
        FrameKeeps(s, Drop(s, t, sid), t, sid, c, s.calls[c].run);
      }
    }
  }

  lemma WakeStepKeeps(s: State, step: Step)
    requires Inv(s) && Enabled(s, step)
    requires step.Proceeds? || step.WakeThrows? || step.InsertThrows? || step.FirstTurnEnds? || step.FirstFailSettles?
    ensures Inv(Apply(s, step))
  {
    match step
    case Proceeds(c) => ProceedKeeps(s, c);
    case WakeThrows(c) => WakeThrowKeeps(s, c);
    case InsertThrows(c) => InsertedKeeps(s, s.calls[c].t); WakeThrowKeeps(Inserted(s, s.calls[c].t), c);
    case FirstTurnEnds(c, ok) => FirstTurnEndKeeps(s, c, ok);
    case FirstFailSettles(c, closed) => FirstFailKeeps(s, c, closed);
  }

  lemma PauseStepKeeps(s: State, step: Step)
    requires Inv(s) && Enabled(s, step)
    requires step.PauseUpdated? || step.PauseCommitted? || step.PauseRecorded? || step.DropSettles?
    ensures Inv(Apply(s, step))
  {
    match step
    case PauseUpdated(c, ok) => PauseKeeps(s, c, ok, false);
    case PauseCommitted(c, ok, applied) => PauseKeeps(s, c, ok, applied);
    case PauseRecorded(c, ok) => PauseKeeps(s, c, ok, false);
    case DropSettles(c, ok, applied) => DropSettleKeeps(s, c, ok, applied);
  }

  lemma StepKeeps(s: State, step: Step)
    requires Inv(s)
    ensures Inv(Apply(s, step))
  {
    if Enabled(s, step) {
      match step
      case Send(t) => SendKeeps(s, t);
      case TurnEnds(c, ok) => TurnEndKeeps(s, c, ok);
      case TurnFailSettles(c, closed) => TurnFailKeeps(s, c, closed);
      case DropTenant(t) => DropKeeps(s, t);
      case TimerFires(id) => FireKeeps(s, id);
      case OtherWriter(run, status) => InterfereKeeps(s, run, status);
      case PauseUpdated(_, _) => PauseStepKeeps(s, step);
      case PauseCommitted(_, _, _) => PauseStepKeeps(s, step);
      case PauseRecorded(_, _) => PauseStepKeeps(s, step);
      case DropSettles(_, _, _) => PauseStepKeeps(s, step);
      case _ => WakeStepKeeps(s, step);
    }
  }

  lemma {:induction false} RunKeeps(s: State, steps: seq<Step>)
    requires Inv(s)
    ensures Inv(Exec(s, steps))
    decreases |steps|
  {
    if steps != [] {
      StepKeeps(s, steps[0]);
      RunKeeps(Apply(s, steps[0]), steps[1..]);
    }
  }
}
