/**
 * The delegation registry as values. `Registry` is what the process holds in memory; `State` adds the
 * `agent_runs` rows and every call that is suspended at an await. Each call that can fail may also fail
 * after its database write took effect.
 */
module DelegationSpec {
  import opened Ordering

  type Key = nat
  type RunId = nat
  type TimerId = nat
  type CallId = nat

  /** One entry object per delegated run, so the run's id also serves as the entry's identity. */
  datatype Entry = Entry(busy: bool, timer: TimerId)

  datatype Registry = Registry(
    entries: map<Key, RunId>, heap: map<RunId, Entry>, pendingKeys: set<Key>, timers: map<TimerId, Key>, nextId: nat)

  // ---- synchronous stretches of the registry ----

  predicate Held(r: Registry, k: Key, e: RunId) {
    k in r.entries && r.entries[k] == e
  }

  predicate Busy(r: Registry, k: Key) {
    (k in r.entries && r.entries[k] in r.heap && r.heap[r.entries[k]].busy) || k in r.pendingKeys
  }

  function SetBusy(r: Registry, e: RunId, busy: bool): Registry {
    if e in r.heap then r.(heap := r.heap[e := r.heap[e].(busy := busy)]) else r
  }

  function ClearTimer(r: Registry, e: RunId): Registry {
    if e in r.heap then r.(timers := r.timers - {r.heap[e].timer}) else r
  }

  /** `entry.ttlTimer = scheduleTtl(key)`, the entry left idle or busy. */
  function Schedule(r: Registry, k: Key, e: RunId, busy: bool): Registry {
    r.(timers := r.timers[r.nextId := k], heap := r.heap[e := Entry(busy, r.nextId)], nextId := r.nextId + 1)
  }

  /** A continued turn succeeded: `touch`, then `busy = false`. */
  function TurnDone(r: Registry, k: Key, e: RunId): Registry {
    Schedule(ClearTimer(r, e), k, e, false)
  }

  /** The entry leaves the registry and its timer is cleared. */
  function Forget(r: Registry, k: Key, e: RunId): Registry {
    ClearTimer(r.(entries := r.entries - {k}), e)
  }

  /** A first turn succeeded: the entry is created idle with its timer, and the key is released. */
  function Created(r: Registry, k: Key, run: RunId): Registry {
    var s := Schedule(r, k, run, false);
    s.(entries := s.entries[k := run], pendingKeys := s.pendingKeys - {k})
  }

  function Released(r: Registry, k: Key): Registry {
    r.(pendingKeys := r.pendingKeys - {k})
  }

  /** Whether `expire(key)` claims an entry. */
  predicate Expires(r: Registry, k: Key) {
    k in r.entries && r.entries[k] in r.heap && !r.heap[r.entries[k]].busy
  }

  function Fired(r: Registry, t: TimerId): Registry
    requires t in r.timers
  {
    var k := r.timers[t];
    var s := r.(timers := r.timers - {t});
    if Expires(r, k) then SetBusy(s, r.entries[k], true) else s
  }

  /** The `catch` of `expire`. */
  function ExpireFailed(r: Registry, k: Key, e: RunId, confirmed: bool): Registry {
    if Held(r, k, e) && !confirmed then Schedule(r, k, e, false)
    else if Held(r, k, e) then Forget(r, k, e)
    else r
  }

  // ---- the whole system ----

  datatype Status = Running | Done | Error

  datatype Call =
    | Checking(key: Key)
    | Reconstructing(key: Key)
    | Inserting(key: Key)
    | Announcing(key: Key, run: RunId)
    | Persisting(key: Key, run: RunId)
    | FirstTurn(key: Key, run: RunId)
    | FailingFirst(key: Key, run: RunId)
    | Turn(key: Key, run: RunId)
    | FailingTurn(key: Key, run: RunId)
    | Closing(key: Key, run: RunId)
    | ReadingBack(key: Key, run: RunId)
    | Recording(key: Key, run: RunId, confirmed: bool)
  {
    /** `delegate` between reserving a new key and releasing it. */
    predicate Creates() {
      Checking? || Reconstructing? || Inserting? || Announcing? || Persisting? || FirstTurn? || FailingFirst?
    }
    predicate HasRun() { !(Checking? || Reconstructing? || Inserting?) }
    /** A call that has claimed an existing entry. */
    predicate Uses() { Turn? || Closing? || ReadingBack? }
  }

  /**
   * `known` are the runs the registry closed with confirmation, closed after dropping their entry, or saw
   * terminal; `unconfirmed` those an expiry closed by a database call that threw afterwards; `others` those
   * another writer closed. `owner` names the last call to claim a key.
   */
  datatype State = State(
    reg: Registry, runs: map<RunId, Status>, calls: map<CallId, Call>, nextCall: nat,
    known: set<RunId>, unconfirmed: set<RunId>, others: set<RunId>, owner: map<Key, CallId>)

  datatype Step =
    | Delegate(k: Key)
    | Proceeds(c: CallId)
    | Refused(c: CallId)
    | Throws(c: CallId, applied: bool)
    | TurnEnds(c: CallId, ok: bool)
    | FailRunSettles(c: CallId, closed: bool)
    | TimerFires(t: TimerId)
    | CloseReturns(c: CallId)
    | CloseThrows(c: CallId, applied: bool)
    | ReadBack(c: CallId, ok: bool)
    | Recorded(c: CallId, ok: bool)
    | OtherWriter(run: RunId, status: Status)

  const Init := State(Registry(map[], map[], {}, map[], 0), map[], map[], 0, {}, {}, {}, map[])

  function Start(s: State, call: Call): State {
    s.(calls := s.calls[s.nextCall := call], nextCall := s.nextCall + 1, owner := s.owner[call.key := s.nextCall])
  }

  function End(s: State, c: CallId): State {
    s.(calls := s.calls - {c})
  }

  function Close(s: State, run: RunId, status: Status): State {
    if run in s.runs && s.runs[run] == Running then s.(runs := s.runs[run := status]) else s
  }

  function CloseElsewhere(s: State, run: RunId, status: Status): State {
    if run in s.runs && s.runs[run] == Running then Close(s, run, status).(others := s.others + {run}) else s
  }

  predicate Enabled(s: State, step: Step) {
    match step
    case Delegate(_) => true
    case Proceeds(c) => c in s.calls && s.calls[c].Creates() && !s.calls[c].FirstTurn? && !s.calls[c].FailingFirst?
    case Refused(c) => c in s.calls && (s.calls[c].Checking? || s.calls[c].Inserting?)
    case Throws(c, _) => c in s.calls && s.calls[c].Creates() && !s.calls[c].FirstTurn? && !s.calls[c].FailingFirst?
    case TurnEnds(c, _) => c in s.calls && (s.calls[c].FirstTurn? || s.calls[c].Turn?)
    case FailRunSettles(c, _) => c in s.calls && (s.calls[c].FailingFirst? || s.calls[c].FailingTurn?)
    case TimerFires(t) => t in s.reg.timers
    case CloseReturns(c) => c in s.calls && s.calls[c].Closing? && s.calls[c].run in s.runs
    case CloseThrows(c, _) => c in s.calls && s.calls[c].Closing?
    case ReadBack(c, _) => c in s.calls && s.calls[c].ReadingBack?
    case Recorded(c, _) => c in s.calls && s.calls[c].Recording?
    case OtherWriter(run, status) => run in s.runs && status != Running
  }

  function Next(s: State, c: CallId, call: Call): State {
    s.(calls := s.calls[c := call])
  }

  function Reuse(s: State, k: Key): State
    requires k in s.reg.entries
  {
    Start(s.(reg := SetBusy(s.reg, s.reg.entries[k], true)), Turn(k, s.reg.entries[k]))
  }

  function Reserve(s: State, k: Key): State {
    Start(s.(reg := s.reg.(pendingKeys := s.reg.pendingKeys + {k})), Checking(k))
  }

  function Insert(s: State, c: CallId, k: Key): State {
    Next(s.(runs := s.runs[s.reg.nextId := Running], reg := s.reg.(nextId := s.reg.nextId + 1)),
         c, Announcing(k, s.reg.nextId))
  }

  function Proceed(s: State, c: CallId): State
    requires c in s.calls
  {
    match s.calls[c]
    case Checking(k) => Next(s, c, Reconstructing(k))
    case Reconstructing(k) => Next(s, c, Inserting(k))
    case Inserting(k) => Insert(s, c, k)
    case Announcing(k, run) => Next(s, c, Persisting(k, run))
    case Persisting(k, run) => Next(s, c, FirstTurn(k, run))
    case _ => s
  }

  /** `delegate` leaves the creating path: the key is released, a run already created stays `running`. */
  function Abandon(s: State, c: CallId): State
    requires c in s.calls
  {
    End(s.(reg := Released(s.reg, s.calls[c].key)), c)
  }

  /** ... by a throwing call; when that was the insert, and it committed all the same, nobody knows the new row. */
  function Throw(s: State, c: CallId, applied: bool): State
    requires c in s.calls
  {
    if applied && s.calls[c].Inserting?
    then Abandon(s.(runs := s.runs[s.reg.nextId := Running], reg := s.reg.(nextId := s.reg.nextId + 1)), c)
    else Abandon(s, c)
  }

  function FirstTurnEnd(s: State, c: CallId, ok: bool, k: Key, run: RunId): State {
    if ok then End(s.(reg := Created(s.reg, k, run)), c) else Next(s, c, FailingFirst(k, run))
  }

  function TurnEnd(s: State, c: CallId, ok: bool, k: Key, run: RunId): State {
    if ok then End(s.(reg := TurnDone(s.reg, k, run)), c)
    else Next(s.(reg := Forget(s.reg, k, run)), c, FailingTurn(k, run))
  }

  /** `failRun` is best effort and never throws: `closed` is whether its close took effect. */
  function FailRun(s: State, run: RunId, closed: bool): State {
    if closed then Close(s, run, Error).(known := s.known + {run}) else s
  }

  function FirstFailed(s: State, c: CallId, closed: bool, k: Key, run: RunId): State {
    End(FailRun(s, run, closed).(reg := Released(s.reg, k)), c)
  }

  function TurnFailed(s: State, c: CallId, closed: bool, run: RunId): State {
    End(FailRun(s, run, closed).(reg := SetBusy(s.reg, run, false)), c)
  }

  function Fire(s: State, t: TimerId): State
    requires t in s.reg.timers
  {
    var k := s.reg.timers[t];
    var fired := s.(reg := Fired(s.reg, t));
    if Expires(s.reg, k) then Start(fired, Closing(k, s.reg.entries[k])) else fired
  }

  function CloseReturn(s: State, c: CallId, k: Key, run: RunId): State {
    var seen := s.(known := s.known + {run});
    if run in s.runs && s.runs[run] == Running
    then Next(Close(seen, run, Done).(reg := Forget(s.reg, k, run)), c, Recording(k, run, false))
    else Next(seen, c, ReadingBack(k, run))
  }

  function CloseThrow(s: State, c: CallId, applied: bool, k: Key, run: RunId): State {
    var after := if applied then Close(s, run, Done).(unconfirmed := s.unconfirmed + {run}) else s;
    End(after.(reg := ExpireFailed(s.reg, k, run, false)), c)
  }

  function ReadBackEnd(s: State, c: CallId, ok: bool, k: Key, run: RunId): State {
    if ok then Next(s.(reg := Forget(s.reg, k, run)), c, Recording(k, run, true))
    else End(s.(reg := ExpireFailed(s.reg, k, run, true)), c)
  }

  function RecordEnd(s: State, c: CallId, ok: bool, k: Key, run: RunId, confirmed: bool): State {
    End(s.(reg := if ok then s.reg else ExpireFailed(s.reg, k, run, confirmed)), c)
  }

  function Apply(s: State, step: Step): State {
    if !Enabled(s, step) then s
    else
      match step
      case Delegate(k) => if Busy(s.reg, k) then s else if k in s.reg.entries then Reuse(s, k) else Reserve(s, k)
      case Proceeds(c) => Proceed(s, c)
      case Refused(c) => Abandon(s, c)
      case Throws(c, applied) => Throw(s, c, applied)
      case TurnEnds(c, ok) =>
        if s.calls[c].FirstTurn? then FirstTurnEnd(s, c, ok, s.calls[c].key, s.calls[c].run)
        else TurnEnd(s, c, ok, s.calls[c].key, s.calls[c].run)
      case FailRunSettles(c, closed) =>
        if s.calls[c].FailingFirst? then FirstFailed(s, c, closed, s.calls[c].key, s.calls[c].run)
        else TurnFailed(s, c, closed, s.calls[c].run)
      case TimerFires(t) => Fire(s, t)
      case CloseReturns(c) => CloseReturn(s, c, s.calls[c].key, s.calls[c].run)
      case CloseThrows(c, applied) => CloseThrow(s, c, applied, s.calls[c].key, s.calls[c].run)
      case ReadBack(c, ok) => ReadBackEnd(s, c, ok, s.calls[c].key, s.calls[c].run)
      case Recorded(c, ok) => RecordEnd(s, c, ok, s.calls[c].key, s.calls[c].run, s.calls[c].confirmed)
      case OtherWriter(run, status) => CloseElsewhere(s, run, status)
  }

  function Exec(s: State, steps: seq<Step>): State
    decreases |steps|
  {
    if steps == [] then s else Exec(Apply(s, steps[0]), steps[1..])
  }

  /** The run on which `step` starts a model turn, if any. */
  function StartsTurn(s: State, step: Step): Option<RunId> {
    if step.Delegate? && !Busy(s.reg, step.k) && step.k in s.reg.entries then Some(s.reg.entries[step.k])
    else if step.Proceeds? && Enabled(s, step) && s.calls[step.c].Persisting? then Some(s.calls[step.c].run)
    else None
  }

  // ---- invariants ----

  ghost predicate RegistryOk(r: Registry) {
    && (forall k :: k in r.entries ==> r.entries[k] in r.heap && k !in r.pendingKeys)
    && (forall j, k :: j in r.entries && k in r.entries && r.entries[j] == r.entries[k] ==> j == k)
    && (forall k :: k in r.entries && !r.heap[r.entries[k]].busy ==>
          var t := r.heap[r.entries[k]].timer; t in r.timers && r.timers[t] == k)
    && (forall e :: e in r.heap ==> e < r.nextId && r.heap[e].timer < r.nextId)
    && (forall d, e :: d in r.heap && e in r.heap && r.heap[d].timer == r.heap[e].timer ==> d == e)
  }

  /** What holds of one suspended call; a call that claimed a key owns it. */
  ghost predicate CallOk(s: State, c: CallId, call: Call) {
    && c < s.nextCall
    && (call.Creates() || call.Uses() ==> call.key in s.owner && s.owner[call.key] == c)
    && (call.Creates() ==> call.key in s.reg.pendingKeys)
    && (call.HasRun() ==> call.run < s.reg.nextId)
    && (call.Creates() && call.HasRun() ==> call.run !in s.reg.heap && call.run !in s.known)
    && (call.Uses() ==> Held(s.reg, call.key, call.run) && call.run in s.reg.heap && s.reg.heap[call.run].busy)
    && (call.FailingTurn? || call.Recording? ==>
          call.run in s.reg.heap && forall k :: k in s.reg.entries ==> s.reg.entries[k] != call.run)
  }

  ghost predicate CallsOk(s: State) {
    && (forall c :: c in s.calls ==> CallOk(s, c, s.calls[c]))
    && (forall b, c :: b in s.calls && c in s.calls && s.calls[b].HasRun() && s.calls[c].HasRun() ==>
          s.calls[b].run != s.calls[c].run || b == c)
  }

  /** Every reserved key and every busy entry is owned by a call that will release it. */
  ghost predicate OwnersOk(s: State) {
    && (forall k :: k in s.reg.pendingKeys ==>
          k in s.owner && s.owner[k] in s.calls && s.calls[s.owner[k]].Creates() && s.calls[s.owner[k]].key == k)
    && (forall k :: k in s.reg.entries && s.reg.entries[k] in s.reg.heap && s.reg.heap[s.reg.entries[k]].busy ==>
          k in s.owner && s.owner[k] in s.calls && s.calls[s.owner[k]].Uses() && s.calls[s.owner[k]].key == k)
  }

  /** A run known to be terminal is still held only by the expiry that is reading it back. */
  ghost predicate KnownOk(s: State) {
    && (forall run :: run in s.known || run in s.unconfirmed || run in s.runs ==> run < s.reg.nextId)
    && (forall k :: k in s.reg.entries && s.reg.entries[k] in s.known ==>
          k in s.owner && s.owner[k] in s.calls && s.calls[s.owner[k]] == ReadingBack(k, s.reg.entries[k]))
  }

  ghost predicate Inv(s: State) {
    RegistryOk(s.reg) && CallsOk(s) && OwnersOk(s) && KnownOk(s)
  }
}
