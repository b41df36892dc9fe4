/**
 * Semp's conversations as values: one in-memory conversation per tenant, its TTL pause, tenant drops and
 * the `agent_runs` rows behind them. Calls suspend at every await, and every database call may throw,
 * before or after its write took effect.
 */
module SempSpec {
  import opened Ordering

  type Tenant = nat
  type StateId = nat
  type RunId = nat
  type TimerId = nat
  type CallId = nat

  /** A wake run's entry object; the run's id is its identity. */
  datatype Entry = Entry(busy: bool, timer: Option<TimerId>)

  /** The source's TenantConversation object. */
  datatype Conversation = Conversation(entry: Option<RunId>, waking: bool, dropped: bool)

  datatype Timer = Pause(tenant: Tenant) | Retry(tenant: Tenant, sid: StateId, run: RunId)

  datatype Registry = Registry(
    conversations: map<Tenant, StateId>, states: map<StateId, Conversation>, heap: map<RunId, Entry>,
    timers: map<TimerId, Timer>, nextId: nat)

  // ---- synchronous pieces ----

  function SetState(r: Registry, sid: StateId, v: Conversation): Registry {
    r.(states := r.states[sid := v])
  }

  function SetEntry(r: Registry, run: RunId, e: Entry): Registry {
    r.(heap := r.heap[run := e])
  }

  function SetBusy(r: Registry, run: RunId, busy: bool): Registry {
    if run in r.heap then SetEntry(r, run, r.heap[run].(busy := busy)) else r
  }

  function ClearTimer(r: Registry, run: RunId): Registry {
    if run in r.heap && r.heap[run].timer.Some? then r.(timers := r.timers - {r.heap[run].timer.value}) else r
  }

  /** Gives the entry a fresh timer and leaves it idle. */
  function Arm(r: Registry, run: RunId, timer: Timer): Registry {
    SetEntry(r, run, Entry(false, Some(r.nextId))).(timers := r.timers[r.nextId := timer], nextId := r.nextId + 1)
  }

  function ReleaseIfIdle(r: Registry, t: Tenant): Registry {
    if t in r.conversations && r.conversations[t] in r.states &&
       r.states[r.conversations[t]].entry.None? && !r.states[r.conversations[t]].waking
    then r.(conversations := r.conversations - {t})
    else r
  }

  /** `state.entry = null; releaseIfIdle`. */
  function DropEntry(r: Registry, t: Tenant, sid: StateId): Registry
    requires sid in r.states
  {
    ReleaseIfIdle(SetState(r, sid, r.states[sid].(entry := None)), t)
  }

  /** The `finally` of a wake. */
  function WakeEnds(r: Registry, t: Tenant, sid: StateId): Registry
    requires sid in r.states
  {
    ReleaseIfIdle(SetState(r, sid, r.states[sid].(waking := false)), t)
  }

  predicate SendRefused(r: Registry, t: Tenant) {
    t in r.conversations && r.conversations[t] in r.states &&
    var v := r.states[r.conversations[t]];
    v.waking || v.dropped || (v.entry.Some? && v.entry.value in r.heap && r.heap[v.entry.value].busy)
  }

  // ---- the whole system ----

  datatype Status = Running | Done | Error

  datatype Call =
    | Resolving(t: Tenant, sid: StateId)
    | Reconstructing(t: Tenant, sid: StateId)
    | Creating(t: Tenant, sid: StateId)
    | Announcing(t: Tenant, sid: StateId, run: RunId)
    | Persisting(t: Tenant, sid: StateId, run: RunId)
    | FirstTurn(t: Tenant, sid: StateId, run: RunId)
    | FailingFirst(t: Tenant, sid: StateId, run: RunId)
    | Turn(t: Tenant, sid: StateId, run: RunId)
    | FailingTurn(t: Tenant, sid: StateId, run: RunId)
    | Pausing(t: Tenant, sid: StateId, run: RunId)
    | Committing(t: Tenant, sid: StateId, run: RunId)
    | PauseRecording(t: Tenant, sid: StateId, run: RunId)
    | Dropping(t: Tenant, sid: StateId, run: RunId, wake: bool)
  {
    /** A `send` that is waking the conversation and has no entry yet. */
    predicate Wakes() {
      Resolving? || Reconstructing? || Creating? || Announcing? || Persisting? || FirstTurn? || FailingFirst?
    }
    predicate HasRun() { !(Resolving? || Reconstructing? || Creating?) }
    /** A call that holds the conversation's entry busy. */
    predicate Uses() { Turn? || Pausing? || Committing? || PauseRecording? || Dropping? }
    predicate Claims() { Wakes() || Uses() }
    /** A model turn, or a wake on its way to one, is in flight. */
    predicate InTurn() { Turn? || (Wakes() && !FailingFirst?) }
  }

  /**
   * History: `woken` are the runs whose first turn completed, `failing` those whose `failRun` is in
   * flight, `lost` those whose `failRun` failed, `others` those another writer closed, `doomed` those dropped
   * while running, before any pause of theirs was past its check, `missed` those a pause had
   * closed when it failed. `home` is each run's tenant, `owner` the last call to claim a tenant.
   */
  datatype State = State(
    reg: Registry, runs: map<RunId, Status>, calls: map<CallId, Call>, nextCall: nat, owner: map<Tenant, CallId>,
    woken: set<RunId>, failing: set<RunId>, lost: set<RunId>, others: set<RunId>, doomed: set<RunId>,
    home: map<RunId, Tenant>, missed: set<RunId>)

  datatype Step =
    | Send(t: Tenant)
    | Proceeds(c: CallId)
    | WakeThrows(c: CallId)
    | InsertThrows(c: CallId)
    | FirstTurnEnds(c: CallId, ok: bool)
    | FirstFailSettles(c: CallId, closed: bool)
    | TurnEnds(c: CallId, ok: bool)
    | TurnFailSettles(c: CallId, closed: bool)
    | DropTenant(t: Tenant)
    | TimerFires(id: TimerId)
    | PauseUpdated(c: CallId, ok: bool)
    | PauseCommitted(c: CallId, ok: bool, applied: bool)
    | PauseRecorded(c: CallId, ok: bool)
    | DropSettles(c: CallId, ok: bool, applied: bool)
    | OtherWriter(run: RunId, status: Status)

  const Init := State(Registry(map[], map[], map[], map[], 0), map[], map[], 0, map[], {}, {}, {}, {}, {}, map[], {})

  function Start(s: State, call: Call): State {
    s.(calls := s.calls[s.nextCall := call], nextCall := s.nextCall + 1, owner := s.owner[call.t := s.nextCall])
  }

  function Next(s: State, c: CallId, call: Call): State {
    s.(calls := s.calls[c := call])
  }

  function End(s: State, c: CallId): State {
    s.(calls := s.calls - {c})
  }

  function Close(s: State, run: RunId, status: Status): State {
    if run in s.runs && s.runs[run] == Running then s.(runs := s.runs[run := status]) else s
  }

  function Interfere(s: State, run: RunId, status: Status): State {
    if run in s.runs && s.runs[run] == Running then Close(s, run, status).(others := s.others + {run}) else s
  }

  predicate Has(s: State, c: CallId, sid: StateId) {
    c in s.calls && s.calls[c].sid == sid && sid in s.reg.states
  }

  predicate Dropped(s: State, sid: StateId) {
    sid in s.reg.states && s.reg.states[sid].dropped
  }

  // ---- send ----

  function BeginTurn(s: State, t: Tenant, sid: StateId, run: RunId): State {
    Start(s.(reg := SetBusy(s.reg, run, true)), Turn(t, sid, run))
  }

  function BeginWake(s: State, t: Tenant): State {
    var sid := s.reg.nextId;
    var reg := SetState(s.reg, sid, Conversation(None, true, false));
    Start(s.(reg := reg.(conversations := reg.conversations[t := sid], nextId := sid + 1)), Resolving(t, sid))
  }

  /** A row is inserted for a run. */
  function Inserted(s: State, t: Tenant): State {
    var run := s.reg.nextId;
    s.(runs := s.runs[run := Running], reg := s.reg.(nextId := run + 1), home := s.home[run := t])
  }

  function InsertRun(s: State, c: CallId, t: Tenant, sid: StateId): State {
    Next(Inserted(s, t), c, Announcing(t, sid, s.reg.nextId))
  }

  function Proceed(s: State, c: CallId): State
    requires c in s.calls
  {
    match s.calls[c]
    case Resolving(t, sid) => Next(s, c, Reconstructing(t, sid))
    case Reconstructing(t, sid) => Next(s, c, Creating(t, sid))
    case Creating(t, sid) => InsertRun(s, c, t, sid)
    case Announcing(t, sid, run) => Next(s, c, Persisting(t, sid, run))
    case Persisting(t, sid, run) => Next(s, c, FirstTurn(t, sid, run))
    case _ => s
  }

  function WakeThrow(s: State, c: CallId, t: Tenant, sid: StateId): State
    requires sid in s.reg.states
  {
    End(s.(reg := WakeEnds(s.reg, t, sid)), c)
  }

  function FirstTurnEnd(s: State, c: CallId, ok: bool, t: Tenant, sid: StateId, run: RunId): State
    requires sid in s.reg.states
  {
    var v := s.reg.states[sid];
    if !ok then Next(s, c, FailingFirst(t, sid, run))
    else if v.dropped then
      Next(s.(reg := SetEntry(SetState(s.reg, sid, v.(entry := Some(run))), run, Entry(true, None)),
              woken := s.woken + {run}, doomed := s.doomed + {run}),
           c, Dropping(t, sid, run, true))
    else
      End(s.(reg := WakeEnds(Arm(SetState(s.reg, sid, v.(entry := Some(run))), run, Pause(t)), t, sid),
             woken := s.woken + {run}), c)
  }

  function FirstFail(s: State, c: CallId, closed: bool, t: Tenant, sid: StateId, run: RunId): State
    requires sid in s.reg.states
  {
    var s1 := if closed then Close(s, run, Error) else s;
    End(s1.(reg := WakeEnds(s.reg, t, sid)), c)
  }

  function TurnEnd(s: State, c: CallId, ok: bool, t: Tenant, sid: StateId, run: RunId): State
    requires sid in s.reg.states
  {
    if !ok then
      var forgotten := ClearTimer(SetState(s.reg, sid, s.reg.states[sid].(entry := None)), run);
      Next(s.(reg := ReleaseIfIdle(forgotten, t), failing := s.failing + {run}), c, FailingTurn(t, sid, run))
    else if s.reg.states[sid].dropped then Next(s.(reg := SetBusy(s.reg, run, true)), c, Dropping(t, sid, run, false))
    else End(s.(reg := Arm(ClearTimer(s.reg, run), run, Pause(t))), c)
  }

  /** `failRun` is best effort: a close that throws is only logged. */
  function TurnFail(s: State, c: CallId, closed: bool, run: RunId): State {
    var s1 := if closed then Close(s, run, Error) else s.(lost := s.lost + {run});
    End(s1.(reg := SetBusy(s.reg, run, false), failing := s.failing - {run}), c)
  }

  // ---- drop ----

  /** Whether a TTL pause of the run is past its check. */
  predicate PastCheck(s: State, t: Tenant) {
    t in s.owner && s.owner[t] in s.calls && (s.calls[s.owner[t]].Committing? || s.calls[s.owner[t]].PauseRecording?)
  }

  predicate IsRunning(s: State, run: RunId) {
    run in s.runs && s.runs[run] == Running
  }

  function Drop(s: State, t: Tenant, sid: StateId): State
    requires sid in s.reg.states
  {
    var v := s.reg.states[sid];
    var marked := SetState(s.reg, sid, v.(dropped := true));
    if v.entry.None? then s.(reg := marked)
    else
      var run := v.entry.value;
      var cleared := ClearTimer(marked, run);
      var s1 := s.(reg := cleared, doomed := if PastCheck(s, t) || !IsRunning(s, run) then s.doomed else s.doomed + {run});
      if v.waking || (run in s.reg.heap && s.reg.heap[run].busy) then s1
      else Start(s1.(reg := SetBusy(cleared, run, true)), Dropping(t, sid, run, false))
  }

  /** A close attempt of a dropped conversation's run resolves or throws. */
  function DropSettle(s: State, c: CallId, ok: bool, applied: bool, t: Tenant, sid: StateId, run: RunId, wake: bool): State
    requires sid in s.reg.states
  {
    var s1 := if ok || applied then Close(s, run, Error) else s;
    var reg := if ok then DropEntry(s.reg, t, sid) else Arm(s.reg, run, Retry(t, sid, run));
    End(s1.(reg := if wake && sid in reg.states then WakeEnds(reg, t, sid) else reg), c)
  }

  // ---- timers and the TTL pause ----

  predicate Pausable(r: Registry, t: Tenant) {
    t in r.conversations && r.conversations[t] in r.states &&
    var v := r.states[r.conversations[t]];
    v.entry.Some? && v.entry.value in r.heap && !r.heap[v.entry.value].busy
  }

  function Fire(s: State, id: TimerId): State
    requires id in s.reg.timers
  {
    var fired := s.(reg := s.reg.(timers := s.reg.timers - {id}));
    match s.reg.timers[id]
    case Pause(t) =>
      if !Pausable(s.reg, t) then fired
      else
        var sid := s.reg.conversations[t];
        var run := s.reg.states[sid].entry.value;
        Start(fired.(reg := SetBusy(fired.reg, run, true)), Pausing(t, sid, run))
    case Retry(t, sid, run) => Start(fired.(reg := SetBusy(fired.reg, run, true)), Dropping(t, sid, run, false))
  }

  /** The `catch` of `pause`. */
  function PauseFailed(s: State, c: CallId, t: Tenant, sid: StateId, run: RunId): State {
    if Dropped(s, sid) then Next(s.(reg := SetBusy(s.reg, run, true)), c, Dropping(t, sid, run, false))
    else End(s.(reg := Arm(s.reg, run, Pause(t))), c)
  }

  /** The `done` update inside the pause's transaction resolved, or threw: then the drop is checked. */
  function PauseUpdate(s: State, c: CallId, ok: bool, t: Tenant, sid: StateId, run: RunId): State {
    if !ok || Dropped(s, sid) then PauseFailed(s, c, t, sid, run) else Next(s, c, Committing(t, sid, run))
  }

  function Missed(s: State, run: RunId): State {
    s.(missed := s.missed + {run})
  }

  function PauseCommit(s: State, c: CallId, ok: bool, applied: bool, t: Tenant, sid: StateId, run: RunId): State {
    if ok then Next(Close(s, run, Done), c, PauseRecording(t, sid, run))
    else PauseFailed(if applied then Missed(Close(s, run, Done), run) else s, c, t, sid, run)
  }

  function PauseRecord(s: State, c: CallId, ok: bool, t: Tenant, sid: StateId, run: RunId): State
    requires sid in s.reg.states
  {
    if ok then End(s.(reg := DropEntry(s.reg, t, sid)), c) else PauseFailed(Missed(s, run), c, t, sid, run)
  }

  // ---- steps ----

  predicate Enabled(s: State, step: Step) {
    match step
    case Send(t) => !SendRefused(s.reg, t)
    case Proceeds(c) => c in s.calls && s.calls[c].Wakes() && !s.calls[c].FirstTurn? && !s.calls[c].FailingFirst?
    case WakeThrows(c) =>
      c in s.calls && s.calls[c].Wakes() && !s.calls[c].FirstTurn? && !s.calls[c].FailingFirst? && Has(s, c, s.calls[c].sid)
    // The insert of a wake's row commits although its call throws; nobody knows the row.
    case InsertThrows(c) => c in s.calls && s.calls[c].Creating? && Has(s, c, s.calls[c].sid)
    case FirstTurnEnds(c, _) => c in s.calls && s.calls[c].FirstTurn? && Has(s, c, s.calls[c].sid)
    case FirstFailSettles(c, _) => c in s.calls && s.calls[c].FailingFirst? && Has(s, c, s.calls[c].sid)
    case TurnEnds(c, _) => c in s.calls && s.calls[c].Turn? && Has(s, c, s.calls[c].sid)
    case TurnFailSettles(c, _) => c in s.calls && s.calls[c].FailingTurn?
    case DropTenant(t) =>
      t in s.reg.conversations && s.reg.conversations[t] in s.reg.states && !s.reg.states[s.reg.conversations[t]].dropped
    case TimerFires(id) => id in s.reg.timers
    case PauseUpdated(c, _) => c in s.calls && s.calls[c].Pausing?
    case PauseCommitted(c, _, _) => c in s.calls && s.calls[c].Committing?
    case PauseRecorded(c, _) => c in s.calls && s.calls[c].PauseRecording? && Has(s, c, s.calls[c].sid)
    case DropSettles(c, _, _) => c in s.calls && s.calls[c].Dropping? && Has(s, c, s.calls[c].sid)
    // The pause's uncommitted update holds the row's lock.
    case OtherWriter(run, status) =>
      run in s.runs && status != Running && forall c :: c in s.calls && s.calls[c].Committing? ==> s.calls[c].run != run
  }

  function Apply(s: State, step: Step): State {
    if !Enabled(s, step) then s
    else
      match step
      case Send(t) =>
        if t in s.reg.conversations && s.reg.conversations[t] in s.reg.states &&
           s.reg.states[s.reg.conversations[t]].entry.Some?
        then BeginTurn(s, t, s.reg.conversations[t], s.reg.states[s.reg.conversations[t]].entry.value)
        else BeginWake(s, t)
      case Proceeds(c) => Proceed(s, c)
      case WakeThrows(c) => WakeThrow(s, c, s.calls[c].t, s.calls[c].sid)
      case InsertThrows(c) => WakeThrow(Inserted(s, s.calls[c].t), c, s.calls[c].t, s.calls[c].sid)
      case FirstTurnEnds(c, ok) => FirstTurnEnd(s, c, ok, s.calls[c].t, s.calls[c].sid, s.calls[c].run)
      case FirstFailSettles(c, closed) => FirstFail(s, c, closed, s.calls[c].t, s.calls[c].sid, s.calls[c].run)
      case TurnEnds(c, ok) => TurnEnd(s, c, ok, s.calls[c].t, s.calls[c].sid, s.calls[c].run)
      case TurnFailSettles(c, closed) => TurnFail(s, c, closed, s.calls[c].run)
      case DropTenant(t) => Drop(s, t, s.reg.conversations[t])
      case TimerFires(id) => Fire(s, id)
      case PauseUpdated(c, ok) => PauseUpdate(s, c, ok, s.calls[c].t, s.calls[c].sid, s.calls[c].run)
      case PauseCommitted(c, ok, applied) => PauseCommit(s, c, ok, applied, s.calls[c].t, s.calls[c].sid, s.calls[c].run)
      case PauseRecorded(c, ok) => PauseRecord(s, c, ok, s.calls[c].t, s.calls[c].sid, s.calls[c].run)
      case DropSettles(c, ok, applied) =>
        DropSettle(s, c, ok, applied, s.calls[c].t, s.calls[c].sid, s.calls[c].run, s.calls[c].wake)
      case OtherWriter(run, status) => Interfere(s, run, status)
  }

  function Exec(s: State, steps: seq<Step>): State
    decreases |steps|
  {
    if steps == [] then s else Exec(Apply(s, steps[0]), steps[1..])
  }

  // ---- invariants ----

  function EntryOf(r: Registry, t: Tenant): Option<RunId> {
    if t in r.conversations && r.conversations[t] in r.states then r.states[r.conversations[t]].entry else None
  }

  /** The entry's timer is pending and is its tenant's. */
  predicate Armed(r: Registry, run: RunId, t: Tenant) {
    run in r.heap && r.heap[run].timer.Some? && r.heap[run].timer.value in r.timers &&
    r.timers[r.heap[run].timer.value].tenant == t
  }

  /** Call `c` is in flight and holds tenant `t`'s conversation `sid`. */
  ghost predicate HeldBy(s: State, t: Tenant, sid: StateId, c: CallId) {
    c in s.calls && s.calls[c].Claims() && s.calls[c].t == t && s.calls[c].sid == sid
  }

  /** A conversation in the map is waking or holds an entry; the entry is busy or has a pending timer. */
  ghost predicate TenantOk(s: State, t: Tenant)
    requires t in s.reg.conversations
  {
    var sid := s.reg.conversations[t];
    && sid in s.reg.states && sid < s.reg.nextId
    && var v := s.reg.states[sid];
    && (v.waking || v.entry.Some?)
    && (v.waking ==>
          && t in s.owner && HeldBy(s, t, sid, s.owner[t])
          && (if v.entry.Some? then s.calls[s.owner[t]].Dropping? && s.calls[s.owner[t]].wake else s.calls[s.owner[t]].Wakes()))
    && (v.entry.Some? ==>
          var run := v.entry.value;
          && run in s.reg.heap && run in s.home && s.home[run] == t && run in s.woken
          && (if s.reg.heap[run].busy
              then t in s.owner && HeldBy(s, t, sid, s.owner[t]) && s.calls[s.owner[t]].Uses() && s.calls[s.owner[t]].run == run
              else !v.waking && Armed(s.reg, run, t)))
  }

  ghost predicate CallOk(s: State, c: CallId, call: Call) {
    && c < s.nextCall
    && (call.Claims() ==>
          && call.t in s.owner && s.owner[call.t] == c
          && call.t in s.reg.conversations && s.reg.conversations[call.t] == call.sid && call.sid in s.reg.states)
    && (call.HasRun() ==> call.run < s.reg.nextId && call.run in s.runs && call.run in s.home && s.home[call.run] == call.t)
    && (call.Wakes() ==> s.reg.states[call.sid].waking && s.reg.states[call.sid].entry.None?)
    && (call.Wakes() && call.HasRun() ==> call.run !in s.woken && call.run !in s.reg.heap)
    && (call.Wakes() && call.HasRun() && s.runs[call.run] == Done ==> call.run in s.others)
    && (call.Uses() ==>
          && s.reg.states[call.sid].entry == Some(call.run) && call.run in s.reg.heap && s.reg.heap[call.run].busy
          && s.reg.states[call.sid].waking == (call.Dropping? && call.wake))
    && (call.Uses() && !call.Turn? ==> forall id :: id in s.reg.timers ==> s.reg.timers[id].tenant != call.t)
    && (call.Committing? ==> call.run !in s.doomed)
    && (call.PauseRecording? ==> s.runs[call.run] != Running)
    && (call.Dropping? ==> s.reg.states[call.sid].dropped)
    && (call.FailingTurn? ==> call.run in s.failing && EntryOf(s.reg, call.t) != Some(call.run))
  }

  /** A pending timer is the current timer of an entry in the map, and a retry belongs to a dropped, idle one. */
  ghost predicate TimerOk(s: State, id: TimerId)
    requires id in s.reg.timers
  {
    var timer := s.reg.timers[id];
    && id < s.reg.nextId
    && EntryOf(s.reg, timer.tenant).Some?
    && var sid, run := s.reg.conversations[timer.tenant], EntryOf(s.reg, timer.tenant).value;
    && run in s.reg.heap && s.reg.heap[run].timer == Some(id)
    && (timer.Retry? ==> timer.sid == sid && timer.run == run && !s.reg.heap[run].busy)
    && s.reg.states[sid].dropped == timer.Retry?
  }

  /** A run whose first turn completed is terminal, tracked, or lost to a failed best-effort close. */
  ghost predicate RunOk(s: State, run: RunId) {
    && run in s.runs && run in s.home && run < s.reg.nextId
    && (s.runs[run] == Running ==> EntryOf(s.reg, s.home[run]) == Some(run) || run in s.failing || run in s.lost)
    && (run in s.doomed && s.runs[run] == Done ==> run in s.others)
    && (run in s.doomed && EntryOf(s.reg, s.home[run]) == Some(run) ==> s.reg.states[s.reg.conversations[s.home[run]]].dropped)
  }

  /** Every id in use is older than the next one. */
  ghost predicate IdsOld(s: State) {
    && (forall t :: t in s.reg.conversations ==> s.reg.conversations[t] < s.reg.nextId)
    && (forall sid :: sid in s.reg.states ==> sid < s.reg.nextId)
    && (forall run :: run in s.runs || run in s.home || run in s.woken ==> run < s.reg.nextId)
    && (forall run :: run in s.reg.heap || run in s.doomed || run in s.failing ==> run in s.woken)
  }

  /** No two entries share a timer. */
  ghost predicate TimersApart(s: State) {
    && (forall run :: run in s.reg.heap && s.reg.heap[run].timer.Some? ==> s.reg.heap[run].timer.value < s.reg.nextId)
    && (forall d, e :: d in s.reg.heap && e in s.reg.heap && s.reg.heap[d].timer.Some? && s.reg.heap[d].timer == s.reg.heap[e].timer ==> d == e)
  }

  /** No two tenants share a conversation object, and no two calls a run. */
  ghost predicate OwnersApart(s: State) {
    && (forall t, u :: t in s.reg.conversations && u in s.reg.conversations && s.reg.conversations[t] == s.reg.conversations[u] ==> t == u)
    && (forall b, c :: b in s.calls && c in s.calls && s.calls[b].HasRun() && s.calls[c].HasRun() ==>
          s.calls[b].run != s.calls[c].run || b == c)
  }

  ghost predicate Bounds(s: State) {
    IdsOld(s) && TimersApart(s) && OwnersApart(s)
  }

  ghost predicate Inv(s: State) {
    && Bounds(s)
    && (forall t :: t in s.reg.conversations ==> TenantOk(s, t))
    && (forall c :: c in s.calls ==> CallOk(s, c, s.calls[c]))
    && (forall id :: id in s.reg.timers ==> TimerOk(s, id))
    && (forall run :: run in s.woken ==> RunOk(s, run))
  }
}
