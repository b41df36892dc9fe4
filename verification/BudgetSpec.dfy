/**
 * AI budget reservations. A call checks its caps and inserts a `reserved` row while it holds one lock; the
 * provider is then called, and the row settled or failed, without it. Each call is suspended at its awaits,
 * every database write may throw before or after it took effect, and settles of other calls run in between.
 */
module BudgetSpec {
  import opened Ordering

  type Tenant = nat
  type CallId = nat
  type RowId = nat

  datatype Status = Reserved | Settled | Failed

  /** An `ai_gateway_calls` row; `estimate` is what it was reserved at. */
  datatype Row = Row(tenant: Tenant, at: int, estimate: real, cost: real, status: Status)

  /** A tenant cap may be absent. */
  datatype Budget = Budget(daily: Option<real>, monthly: Option<real>)

  /**
   * The caps, and for each clock value the start of its day and of its month, in a tenant's timezone and in
   * UTC.
   */
  datatype Policy = Policy(
    budgets: Tenant -> Option<Budget>, globalDaily: real, globalMonthly: real,
    dayStart: (Tenant, int) -> int, monthStart: (Tenant, int) -> int, utcDayStart: int -> int, utcMonthStart: int -> int)

  ghost predicate Sane(p: Policy) {
    && (forall t, now :: p.monthStart(t, now) <= p.dayStart(t, now) <= now)
    && (forall now :: p.utcMonthStart(now) <= p.utcDayStart(now) <= now)
  }

  // ---- spend ----

  /** The rows one cap is about: a tenant's or everyone's, of one calendar day or month. */
  datatype Window =
    | TenantDay(tenant: Tenant, start: int)
    | TenantMonth(tenant: Tenant, start: int)
    | GlobalDay(start: int)
    | GlobalMonth(start: int)

  predicate InWindow(p: Policy, w: Window, row: Row) {
    match w
    case TenantDay(t, start) => row.tenant == t && p.dayStart(t, row.at) == start
    case TenantMonth(t, start) => row.tenant == t && p.monthStart(t, row.at) == start
    case GlobalDay(start) => p.utcDayStart(row.at) == start
    case GlobalMonth(start) => p.utcMonthStart(row.at) == start
  }

  function CapOf(p: Policy, w: Window): Option<real> {
    match w
    case TenantDay(t, _) => if p.budgets(t).Some? then p.budgets(t).value.daily else None
    case TenantMonth(t, _) => if p.budgets(t).Some? then p.budgets(t).value.monthly else None
    case GlobalDay(_) => Some(p.globalDaily)
    case GlobalMonth(_) => Some(p.globalMonthly)
  }

  function Sum(rows: seq<Row>, amount: Row -> real): real {
    if rows == [] then 0.0 else amount(rows[0]) + Sum(rows[1..], amount)
  }

  /** What the database adds up: rows of one tenant, or of all, not older than the two starts. */
  function Counted(tenant: Option<Tenant>, from: int, alsoFrom: int): Row -> real {
    (row: Row) => if (tenant.None? || row.tenant == tenant.value) && row.at >= from && row.at >= alsoFrom then row.cost else 0.0
  }

  function SpentSince(rows: seq<Row>, tenant: Option<Tenant>, from: int, alsoFrom: int): real {
    Sum(rows, Counted(tenant, from, alsoFrom))
  }

  function Costs(p: Policy, w: Window): Row -> real {
    (row: Row) => if InWindow(p, w, row) then row.cost else 0.0
  }

  function SpendIn(p: Policy, w: Window, rows: seq<Row>): real {
    Sum(rows, Costs(p, w))
  }

  /** Rows are only appended; a row that left `reserved` never changes again. */
  ghost predicate Grows(a: seq<Row>, b: seq<Row>) {
    && |a| <= |b|
    && (forall i :: 0 <= i < |a| ==>
          && b[i].tenant == a[i].tenant && b[i].at == a[i].at && b[i].estimate == a[i].estimate
          && (a[i].status.Reserved? || b[i] == a[i])
          && (b[i].status.Reserved? ==> b[i] == a[i]))
  }

  /** What the settling of a row since `before` added beyond its estimate. */
  function Overrun(p: Policy, w: Window, before: Row, after: Row): real {
    if InWindow(p, w, after) && before.status.Reserved? && after.cost > after.estimate then after.cost - after.estimate else 0.0
  }

  /** What rows of the window that were still `reserved` in `before` have cost beyond their estimates by `after`. */
  function OverrunSince(p: Policy, w: Window, before: seq<Row>, after: seq<Row>): real
    requires |before| <= |after|
  {
    if before == [] then 0.0 else Overrun(p, w, before[0], after[0]) + OverrunSince(p, w, before[1..], after[1..])
  }

  // ---- one row ----

  function SettleRow(row: Row, cost: real): Row {
    if row.status.Reserved? then row.(cost := cost, status := Settled) else row
  }

  function FailRow(row: Row): Row {
    if row.status.Reserved? then row.(cost := 0.0, status := Failed) else row
  }

  // ---- the check ----

  predicate TenantWithin(p: Policy, rows: seq<Row>, t: Tenant, now: int) {
    && p.budgets(t).Some?
    && var b := p.budgets(t).value;
    && (b.daily.Some? ==> SpentSince(rows, Some(t), p.monthStart(t, now), p.dayStart(t, now)) < b.daily.value)
    && (b.monthly.Some? ==> SpentSince(rows, Some(t), p.monthStart(t, now), p.monthStart(t, now)) < b.monthly.value)
  }

  predicate GlobalWithin(p: Policy, rows: seq<Row>, now: int) {
    && SpentSince(rows, None, p.utcMonthStart(now), p.utcDayStart(now)) < p.globalDaily
    && SpentSince(rows, None, p.utcMonthStart(now), p.utcMonthStart(now)) < p.globalMonthly
  }

  // ---- the whole system ----

  const SETTLE_MAX_ATTEMPTS: nat := 3

  /** History: the rows as the tenant check and the global check of one call read them. */
  datatype Seen = Seen(own: seq<Row>, all: seq<Row>)
  {
    function By(w: Window): seq<Row> { if w.TenantDay? || w.TenantMonth? then own else all }
  }

  /** `now` is the reserving transaction's clock: its row's `at`, and what its windows are measured from. */
  datatype Call =
    | Waiting(t: Tenant, now: int, estimate: real)
    | Locked(t: Tenant, now: int, estimate: real)
    | TenantChecked(t: Tenant, now: int, estimate: real, own: seq<Row>)
    | GlobalChecked(t: Tenant, now: int, estimate: real, seen: Seen)
    | Invoking(row: RowId)
    | Settling(row: RowId, cost: real, attempt: nat)
    | Failing(row: RowId)
  {
    predicate Holds() { Locked? || TenantChecked? || GlobalChecked? }
  }

  /** `seen` is history: for every row, what the checks that admitted it had read. */
  datatype State = State(rows: seq<Row>, seen: seq<Seen>, calls: map<CallId, Call>, nextCall: nat, lock: Option<CallId>)

  datatype Step =
    | Begin(t: Tenant, now: int, estimate: real)
    | TakeLock(c: CallId, active: bool)
    | CheckTenant(c: CallId)
    | CheckGlobal(c: CallId)
    | Insert(c: CallId, ok: bool, applied: bool)
    | Throws(c: CallId)
    | ProviderReturns(c: CallId, cost: real)
    | ProviderRejects(c: CallId)
    | SettleReturns(c: CallId)
    | SettleThrows(c: CallId, applied: bool)
    | FailSettles(c: CallId, applied: bool)

  const Init := State([], [], map[], 0, None)

  predicate Enabled(s: State, step: Step) {
    match step
    case Begin(_, _, estimate) => estimate >= 0.0
    case TakeLock(c, _) => c in s.calls && s.calls[c].Waiting? && s.lock.None?
    case CheckTenant(c) => c in s.calls && s.calls[c].Locked?
    case CheckGlobal(c) => c in s.calls && s.calls[c].TenantChecked?
    case Insert(c, _, _) => c in s.calls && s.calls[c].GlobalChecked?
    case Throws(c) => c in s.calls && s.calls[c].Holds()
    case ProviderReturns(c, cost) => c in s.calls && s.calls[c].Invoking? && cost >= 0.0
    case ProviderRejects(c) => c in s.calls && s.calls[c].Invoking?
    case SettleReturns(c) => c in s.calls && s.calls[c].Settling? && s.calls[c].row < |s.rows|
    case SettleThrows(c, _) => c in s.calls && s.calls[c].Settling? && s.calls[c].row < |s.rows|
    case FailSettles(c, _) => c in s.calls && s.calls[c].Failing? && s.calls[c].row < |s.rows|
  }

  function Next(s: State, c: CallId, call: Call): State {
    s.(calls := s.calls[c := call])
  }

  function End(s: State, c: CallId): State {
    s.(calls := s.calls - {c})
  }

  /** The reserving transaction ends without a row: refused, or thrown out of. */
  function Refuse(s: State, c: CallId): State {
    End(s, c).(lock := None)
  }

  function Reservation(t: Tenant, now: int, estimate: real): Row {
    Row(t, now, estimate, estimate, Reserved)
  }

  function Admit(s: State, c: CallId, call: Call): State
    requires call.GlobalChecked?
  {
    State(s.rows + [Reservation(call.t, call.now, call.estimate)], s.seen + [call.seen], s.calls[c := Invoking(|s.rows|)], s.nextCall, None)
  }

  function Update(s: State, i: RowId, row: Row): State
    requires i < |s.rows|
  {
    s.(rows := s.rows[i := row])
  }

  function Settle(s: State, c: CallId, i: RowId, cost: real, returned: bool, applied: bool, attempt: nat): State
    requires i < |s.rows|
  {
    var s1 := if returned || applied then Update(s, i, SettleRow(s.rows[i], cost)) else s;
    if returned || attempt >= SETTLE_MAX_ATTEMPTS then End(s1, c) else Next(s1, c, Settling(i, cost, attempt + 1))
  }

  function Apply(p: Policy, s: State, step: Step): State {
    if !Enabled(s, step) then s
    else
      match step
      case Begin(t, now, estimate) => s.(calls := s.calls[s.nextCall := Waiting(t, now, estimate)], nextCall := s.nextCall + 1)
      case TakeLock(c, active) =>
        if active then Next(s, c, Locked(s.calls[c].t, s.calls[c].now, s.calls[c].estimate)).(lock := Some(c)) else End(s, c)
      case CheckTenant(c) =>
        if TenantWithin(p, s.rows, s.calls[c].t, s.calls[c].now)
        then Next(s, c, TenantChecked(s.calls[c].t, s.calls[c].now, s.calls[c].estimate, s.rows)) else Refuse(s, c)
      case CheckGlobal(c) =>
        if GlobalWithin(p, s.rows, s.calls[c].now)
        then Next(s, c, GlobalChecked(s.calls[c].t, s.calls[c].now, s.calls[c].estimate, Seen(s.calls[c].own, s.rows))) else Refuse(s, c)
      case Insert(c, ok, applied) =>
        if ok then Admit(s, c, s.calls[c])
        else if applied then End(Admit(s, c, s.calls[c]), c)
        else Refuse(s, c)
      case Throws(c) => Refuse(s, c)
      case ProviderReturns(c, cost) => Next(s, c, Settling(s.calls[c].row, cost, 1))
      case ProviderRejects(c) => Next(s, c, Failing(s.calls[c].row))
      case SettleReturns(c) => Settle(s, c, s.calls[c].row, s.calls[c].cost, true, true, s.calls[c].attempt)
      case SettleThrows(c, applied) => Settle(s, c, s.calls[c].row, s.calls[c].cost, false, applied, s.calls[c].attempt)
      case FailSettles(c, applied) =>
        End(if applied then Update(s, s.calls[c].row, FailRow(s.rows[s.calls[c].row])) else s, c)
  }

  function Exec(p: Policy, s: State, steps: seq<Step>): State
    decreases |steps|
  {
    if steps == [] then s else Exec(p, Apply(p, s, steps[0]), steps[1..])
  }

  // ---- invariant ----

  predicate RowOk(row: Row) {
    && row.estimate >= 0.0 && row.cost >= 0.0 && (row.status.Reserved? ==> row.cost == row.estimate)
    && (row.status.Failed? ==> row.cost == 0.0)
  }

  predicate RowsOk(rows: seq<Row>) {
    forall i :: 0 <= i < |rows| ==> RowOk(rows[i])
  }

  /** A window's spend, real costs included, is below its cap. */
  predicate Below(p: Policy, rows: seq<Row>, w: Window) {
    CapOf(p, w).Some? ==> SpendIn(p, w, rows) < CapOf(p, w).value
  }

  predicate TenantBelow(p: Policy, rows: seq<Row>, t: Tenant, now: int) {
    Below(p, rows, TenantDay(t, p.dayStart(t, now))) && Below(p, rows, TenantMonth(t, p.monthStart(t, now)))
  }

  predicate GlobalBelow(p: Policy, rows: seq<Row>, now: int) {
    Below(p, rows, GlobalDay(p.utcDayStart(now))) && Below(p, rows, GlobalMonth(p.utcMonthStart(now)))
  }

  /** The rows as a check read them: nothing has been inserted since, but rows may have been settled. */
  ghost predicate Snapshot(before: seq<Row>, rows: seq<Row>) {
    RowsOk(before) && |before| == |rows| && Grows(before, rows)
  }

  ghost predicate CallOk(p: Policy, s: State, c: CallId, call: Call) {
    && c < s.nextCall
    && (call.Holds() ==> s.lock == Some(c))
    && (call.Waiting? || call.Holds() ==> call.estimate >= 0.0)
    && (call.Settling? ==> call.cost >= 0.0 && 1 <= call.attempt <= SETTLE_MAX_ATTEMPTS)
    && (call.Invoking? || call.Settling? || call.Failing? ==> call.row < |s.rows|)
    && (call.TenantChecked? ==> Snapshot(call.own, s.rows) && TenantBelow(p, call.own, call.t, call.now))
    && (call.GlobalChecked? ==>
          && Snapshot(call.seen.own, s.rows) && TenantBelow(p, call.seen.own, call.t, call.now)
          && Snapshot(call.seen.all, s.rows) && GlobalBelow(p, call.seen.all, call.now))
  }

  /** Row `k` was admitted when each of its windows was below its cap. */
  ghost predicate AdmittedOk(p: Policy, rows: seq<Row>, seen: seq<Seen>, k: nat)
    requires k < |rows| == |seen|
  {
    forall w :: InWindow(p, w, rows[k]) ==>
      var before := seen[k].By(w);
      RowsOk(before) && |before| == k && Grows(before, rows) && Below(p, before, w)
  }

  ghost predicate Inv(p: Policy, s: State) {
    && RowsOk(s.rows) && |s.seen| == |s.rows|
    && (forall k :: 0 <= k < |s.rows| ==> AdmittedOk(p, s.rows, s.seen, k))
    && (forall c :: c in s.calls ==> CallOk(p, s, c, s.calls[c]))
    && (s.lock.Some? ==> s.lock.value in s.calls && s.calls[s.lock.value].Holds())
  }
}
