/** Where a row's final cost comes from: the history of steps behind every settled and every failed row. */
module BudgetHistory {
  import opened Ordering
  import opened BudgetSpec
  import BudgetProofs

  // ---- events of a run ----

  function Before(p: Policy, steps: seq<Step>, n: nat): State
    requires n <= |steps|
  {
    Exec(p, Init, steps[..n])
  }

  /** Step `b` begins call `c` with this tenant, clock and estimate. */
  predicate BegunAt(p: Policy, steps: seq<Step>, b: nat, c: CallId, t: Tenant, now: int, estimate: real) {
    b < |steps| && steps[b] == Begin(t, now, estimate) && Enabled(Before(p, steps, b), steps[b]) && Before(p, steps, b).nextCall == c
  }

  /** Step `h` is the insert of row `i` by call `c`. */
  predicate InsertedAt(p: Policy, steps: seq<Step>, h: nat, c: CallId, i: RowId) {
    && h < |steps| && steps[h].Insert? && steps[h].c == c && (steps[h].ok || steps[h].applied)
    && Enabled(Before(p, steps, h), steps[h]) && |Before(p, steps, h).rows| == i
  }

  /** Step `j` is the provider's answer to call `c`, which holds row `i`. */
  predicate AnsweredAt(p: Policy, steps: seq<Step>, j: nat, answer: Step, c: CallId, i: RowId) {
    && j < |steps| && steps[j] == answer && Enabled(Before(p, steps, j), answer)
    && c in Before(p, steps, j).calls && Before(p, steps, j).calls[c] == Invoking(i)
  }

  /** Call `c` inserted row `i`, and its provider answered so afterwards. */
  ghost predicate Answered(p: Policy, steps: seq<Step>, answer: Step, c: CallId, i: RowId) {
    exists h, j :: h < j && InsertedAt(p, steps, h, c, i) && AnsweredAt(p, steps, j, answer, c, i)
  }

  /** Row `i` was inserted by a call that began with the row's tenant, clock and estimate. */
  ghost predicate ReservedBy(p: Policy, steps: seq<Step>, c: CallId, i: RowId, row: Row) {
    exists b, h :: b < h && BegunAt(p, steps, b, c, row.tenant, row.at, row.estimate) && InsertedAt(p, steps, h, c, i)
  }

  ghost predicate CallTraced(p: Policy, steps: seq<Step>, c: CallId, call: Call) {
    match call
    case Waiting(t, now, estimate) => exists b :: BegunAt(p, steps, b, c, t, now, estimate)
    case Locked(t, now, estimate) => exists b :: BegunAt(p, steps, b, c, t, now, estimate)
    case TenantChecked(t, now, estimate, _) => exists b :: BegunAt(p, steps, b, c, t, now, estimate)
    case GlobalChecked(t, now, estimate, _) => exists b :: BegunAt(p, steps, b, c, t, now, estimate)
    case Invoking(i) => exists h :: InsertedAt(p, steps, h, c, i)
    case Settling(i, cost, _) => Answered(p, steps, ProviderReturns(c, cost), c, i)
    case Failing(i) => Answered(p, steps, ProviderRejects(c), c, i)
  }

  ghost predicate RowTraced(p: Policy, steps: seq<Step>, i: RowId, row: Row) {
    && (exists c :: ReservedBy(p, steps, c, i, row))
    && (row.status.Settled? ==> exists c :: Answered(p, steps, ProviderReturns(c, row.cost), c, i))
    && (row.status.Failed? ==> exists c :: Answered(p, steps, ProviderRejects(c), c, i))
  }

  ghost predicate Traced(p: Policy, steps: seq<Step>, s: State) {
    && (forall c :: c in s.calls ==> CallTraced(p, steps, c, s.calls[c]))
    && (forall i :: 0 <= i < |s.rows| ==> RowTraced(p, steps, i, s.rows[i]))
  }

  // ---- history only grows ----

  lemma {:induction false} ExecSnoc(p: Policy, s: State, steps: seq<Step>, step: Step)
    ensures Exec(p, s, steps + [step]) == Apply(p, Exec(p, s, steps), step)
    decreases |steps|
  {
    if steps == [] {
      assert [step][1..] == [];
    } else {
      assert (steps + [step])[1..] == steps[1..] + [step] && (steps + [step])[0] == steps[0];
      ExecSnoc(p, Apply(p, s, steps[0]), steps[1..], step);
    }
  }

  lemma BeforeStays(p: Policy, steps: seq<Step>, step: Step, n: nat)
    requires n <= |steps|
    ensures Before(p, steps + [step], n) == Before(p, steps, n)
  {
    assert (steps + [step])[..n] == steps[..n];
  }

  lemma AnsweredStays(p: Policy, steps: seq<Step>, step: Step, answer: Step, c: CallId, i: RowId)
    requires Answered(p, steps, answer, c, i)
    ensures Answered(p, steps + [step], answer, c, i)
  {
    var h, j :| h < j && InsertedAt(p, steps, h, c, i) && AnsweredAt(p, steps, j, answer, c, i);
    BeforeStays(p, steps, step, h);
    BeforeStays(p, steps, step, j);
    assert InsertedAt(p, steps + [step], h, c, i) && AnsweredAt(p, steps + [step], j, answer, c, i);
  }

  lemma ReservedStays(p: Policy, steps: seq<Step>, step: Step, c: CallId, i: RowId, row: Row)
    requires ReservedBy(p, steps, c, i, row)
    ensures ReservedBy(p, steps + [step], c, i, row)
  {
    var b, h :| b < h && BegunAt(p, steps, b, c, row.tenant, row.at, row.estimate) && InsertedAt(p, steps, h, c, i);
    BeforeStays(p, steps, step, b);
    BeforeStays(p, steps, step, h);
    assert BegunAt(p, steps + [step], b, c, row.tenant, row.at, row.estimate) && InsertedAt(p, steps + [step], h, c, i);
  }

  lemma BegunStays(p: Policy, steps: seq<Step>, step: Step, c: CallId, t: Tenant, now: int, estimate: real)
    requires exists b :: BegunAt(p, steps, b, c, t, now, estimate)
    ensures exists b :: BegunAt(p, steps + [step], b, c, t, now, estimate)
  {
    var b :| BegunAt(p, steps, b, c, t, now, estimate);
    BeforeStays(p, steps, step, b);
    assert BegunAt(p, steps + [step], b, c, t, now, estimate);
  }

  lemma CallStays(p: Policy, steps: seq<Step>, step: Step, c: CallId, call: Call)
    requires CallTraced(p, steps, c, call)
    ensures CallTraced(p, steps + [step], c, call)
  {
    match call
    case Invoking(i) =>
      var h :| InsertedAt(p, steps, h, c, i);
      BeforeStays(p, steps, step, h);
      assert InsertedAt(p, steps + [step], h, c, i);
    case Settling(i, cost, _) => AnsweredStays(p, steps, step, ProviderReturns(c, cost), c, i);
    case Failing(i) => AnsweredStays(p, steps, step, ProviderRejects(c), c, i);
    case _ => BegunStays(p, steps, step, c, call.t, call.now, call.estimate);
  }

  lemma RowStays(p: Policy, steps: seq<Step>, step: Step, i: RowId, row: Row)
    requires RowTraced(p, steps, i, row)
    ensures RowTraced(p, steps + [step], i, row)
  {
    var b :| ReservedBy(p, steps, b, i, row);
    ReservedStays(p, steps, step, b, i, row);
    if row.status.Settled? {
      var c :| Answered(p, steps, ProviderReturns(c, row.cost), c, i);
      AnsweredStays(p, steps, step, ProviderReturns(c, row.cost), c, i);
    } else if row.status.Failed? {
      var c :| Answered(p, steps, ProviderRejects(c), c, i);
      AnsweredStays(p, steps, step, ProviderRejects(c), c, i);
    }
  }

  // ---- each step ----

  predicate Reserves(call: Call) {
    call.Waiting? || call.Holds()
  }

  /** What a step makes of a call: the same call, a begun one, its next stage, a new row, or an answer. */
  ghost predicate Advances(s: State, step: Step, c: CallId, call: Call) {
    || (c in s.calls && s.calls[c] == call)
    || (call.Waiting? && step == Begin(call.t, call.now, call.estimate) && Enabled(s, step) && c == s.nextCall)
    || (Reserves(call) && c in s.calls && Reserves(s.calls[c])
        && s.calls[c].t == call.t && s.calls[c].now == call.now && s.calls[c].estimate == call.estimate)
    || (call.Invoking? && step.Insert? && step.c == c && step.ok && Enabled(s, step) && call.row == |s.rows|)
    || (call.Settling? && c in s.calls && s.calls[c] == Invoking(call.row) && step == ProviderReturns(c, call.cost) && Enabled(s, step))
    || (call.Settling? && c in s.calls && s.calls[c].Settling? && s.calls[c].row == call.row && s.calls[c].cost == call.cost)
    || (call.Failing? && c in s.calls && s.calls[c] == Invoking(call.row) && step == ProviderRejects(c) && Enabled(s, step))
  }

  lemma StepAdvances(p: Policy, s: State, step: Step, c: CallId)
    requires c in Apply(p, s, step).calls
    ensures Advances(s, step, c, Apply(p, s, step).calls[c])
  {
    var u := Apply(p, s, step);
    if c !in s.calls || s.calls[c] != u.calls[c] {
      match step
      case Insert(d, ok, applied) => assert d == c ==> step == Insert(c, ok, applied);
      case _ =>
    }
  }

  /** The reservation a call is about to insert. */
  predicate Inserts(s: State, step: Step, i: RowId, row: Row) {
    && step.Insert? && Enabled(s, step) && (step.ok || step.applied) && i == |s.rows|
    && row == Reservation(s.calls[step.c].t, s.calls[step.c].now, s.calls[step.c].estimate)
  }

  /** What a step makes of a row: the same row, a new one, or what the call that holds it was told. */
  ghost predicate RowAdvances(s: State, step: Step, i: RowId, row: Row) {
    || (i < |s.rows| && s.rows[i] == row)
    || Inserts(s, step, i, row)
    || (i < |s.rows| && row == s.rows[i].(status := Settled, cost := row.cost)
        && exists c :: c in s.calls && s.calls[c].Settling? && s.calls[c].row == i && s.calls[c].cost == row.cost)
    || (i < |s.rows| && row == s.rows[i].(status := Failed, cost := 0.0) && exists c :: c in s.calls && s.calls[c] == Failing(i))
  }

  lemma StepAdvancesRow(p: Policy, s: State, step: Step, i: RowId)
    requires i < |Apply(p, s, step).rows|
    ensures RowAdvances(s, step, i, Apply(p, s, step).rows[i])
  {
  }

  lemma {:induction false} LastStep(p: Policy, steps: seq<Step>, step: Step)
    ensures Before(p, steps + [step], |steps|) == Exec(p, Init, steps) && (steps + [step])[|steps|] == step
  {
    assert (steps + [step])[..|steps|] == steps;
  }

  lemma {:induction false} CallAdvanced(p: Policy, steps: seq<Step>, step: Step, c: CallId, call: Call)
    requires var s := Exec(p, Init, steps); Traced(p, steps, s) && Advances(s, step, c, call)
    ensures CallTraced(p, steps + [step], c, call)
  {
    var s, all := Exec(p, Init, steps), steps + [step];
    LastStep(p, steps, step);
    if c in s.calls { CallStays(p, steps, step, c, s.calls[c]); }
    if c !in s.calls || s.calls[c] != call {
      match call
      case Invoking(i) => assert InsertedAt(p, all, |steps|, c, i);
      case Settling(i, cost, _) =>
        if s.calls[c].Invoking? {
          var h :| InsertedAt(p, steps, h, c, i);
          BeforeStays(p, steps, step, h);
          assert InsertedAt(p, all, h, c, i) && AnsweredAt(p, all, |steps|, step, c, i);
        }
      case Failing(i) =>
        var h :| InsertedAt(p, steps, h, c, i);
        BeforeStays(p, steps, step, h);
        assert InsertedAt(p, all, h, c, i) && AnsweredAt(p, all, |steps|, step, c, i);
      case Waiting(t, now, estimate) =>
        if step.Begin? { assert BegunAt(p, all, |steps|, c, t, now, estimate) || CallTraced(p, all, c, call); }
      case _ =>
    }
  }

  lemma {:induction false} RowInserted(p: Policy, steps: seq<Step>, step: Step, i: RowId, row: Row)
    requires var s := Exec(p, Init, steps); Traced(p, steps, s) && Inserts(s, step, i, row)
    ensures RowTraced(p, steps + [step], i, row)
  {
    var c, all := step.c, steps + [step];
    assert CallTraced(p, steps, c, Exec(p, Init, steps).calls[c]);
    var b :| BegunAt(p, steps, b, c, row.tenant, row.at, row.estimate);
    LastStep(p, steps, step);
    BeforeStays(p, steps, step, b);
    assert BegunAt(p, all, b, c, row.tenant, row.at, row.estimate) && InsertedAt(p, all, |steps|, c, i);
    assert ReservedBy(p, all, c, i, row);
  }

  lemma SameReservation(p: Policy, steps: seq<Step>, i: RowId, row: Row, now: Row)
    requires exists c :: ReservedBy(p, steps, c, i, row)
    requires now.tenant == row.tenant && now.at == row.at && now.estimate == row.estimate
    ensures exists c :: ReservedBy(p, steps, c, i, now)
  {
    var c :| ReservedBy(p, steps, c, i, row);
    assert ReservedBy(p, steps, c, i, now);
  }

  lemma {:induction false} RowSettled(p: Policy, steps: seq<Step>, step: Step, i: RowId, row: Row, c: CallId)
    requires var s := Exec(p, Init, steps); Traced(p, steps, s) && i < |s.rows| && c in s.calls
    requires var s := Exec(p, Init, steps); row == s.rows[i].(status := Settled, cost := row.cost)
    requires var call := Exec(p, Init, steps).calls[c]; call.Settling? && call.row == i && call.cost == row.cost
    ensures RowTraced(p, steps + [step], i, row)
  {
    var s := Exec(p, Init, steps);
    RowStays(p, steps, step, i, s.rows[i]);
    SameReservation(p, steps + [step], i, s.rows[i], row);
    CallStays(p, steps, step, c, s.calls[c]);
  }

  lemma {:induction false} RowFailed(p: Policy, steps: seq<Step>, step: Step, i: RowId, row: Row, c: CallId)
    requires var s := Exec(p, Init, steps); Traced(p, steps, s) && i < |s.rows| && c in s.calls && s.calls[c] == Failing(i)
    requires var s := Exec(p, Init, steps); row == s.rows[i].(status := Failed, cost := 0.0)
    ensures RowTraced(p, steps + [step], i, row)
  {
    var s := Exec(p, Init, steps);
    RowStays(p, steps, step, i, s.rows[i]);
    SameReservation(p, steps + [step], i, s.rows[i], row);
    CallStays(p, steps, step, c, s.calls[c]);
  }

  lemma {:induction false} RowAdvanced(p: Policy, steps: seq<Step>, step: Step, i: RowId, row: Row)
    requires var s := Exec(p, Init, steps); Traced(p, steps, s) && RowAdvances(s, step, i, row)
    ensures RowTraced(p, steps + [step], i, row)
  {
    var s := Exec(p, Init, steps);
    if Inserts(s, step, i, row) {
      RowInserted(p, steps, step, i, row);
    } else if s.rows[i] == row {
      RowStays(p, steps, step, i, row);
    } else if row.status.Settled? {
      var c :| c in s.calls && s.calls[c].Settling? && s.calls[c].row == i && s.calls[c].cost == row.cost;
      RowSettled(p, steps, step, i, row, c);
    } else {
      var c :| c in s.calls && s.calls[c] == Failing(i);
      RowFailed(p, steps, step, i, row, c);
    }
  }

  lemma {:induction false} RunTraced(p: Policy, steps: seq<Step>)
    ensures Traced(p, steps, Exec(p, Init, steps))
    decreases |steps|
  {
    if steps != [] {
      var n := |steps| - 1;
      var most, step := steps[..n], steps[n];
      assert most + [step] == steps;
      RunTraced(p, most);
      ExecSnoc(p, Init, most, step);
      var s, u := Exec(p, Init, most), Exec(p, Init, steps);
      forall c | c in u.calls ensures CallTraced(p, steps, c, u.calls[c]) {
        StepAdvances(p, s, step, c);
        CallAdvanced(p, most, step, c, u.calls[c]);
      }
      forall i | 0 <= i < |u.rows| ensures RowTraced(p, steps, i, u.rows[i]) {
        StepAdvancesRow(p, s, step, i);
        RowAdvanced(p, most, step, i, u.rows[i]);
      }
    }
  }

  // ---- what a row's cost is ----

  /**
   * In every run a row is reserved for the tenant, at the clock and at the estimate its call began with; it is
   * settled only after the provider has answered the call that inserted it, and then counts at exactly the cost
   * the provider returned; it has failed, at cost 0, only after the provider rejected.
   */
  lemma {:induction false} SettledAtReturnedCost(p: Policy, steps: seq<Step>, i: RowId)
    requires i < |Exec(p, Init, steps).rows|
    ensures var row := Exec(p, Init, steps).rows[i];
            && (exists c :: ReservedBy(p, steps, c, i, row))
            && (row.status.Settled? ==> exists c :: Answered(p, steps, ProviderReturns(c, row.cost), c, i))
            && (row.status.Failed? ==> exists c :: Answered(p, steps, ProviderRejects(c), c, i))
  {
    RunTraced(p, steps);
    assert RowTraced(p, steps, i, Exec(p, Init, steps).rows[i]);
  }

  /** A settle that returns leaves a row that was still `reserved` settled at its call's cost, and no other row changed. */
  lemma {:induction false} ReturnedSettleStoresCost(p: Policy, steps: seq<Step>, c: CallId)
    requires Enabled(Exec(p, Init, steps), SettleReturns(c))
    ensures var s, u := Exec(p, Init, steps), Apply(p, Exec(p, Init, steps), SettleReturns(c));
            var call := s.calls[c];
            && |u.rows| == |s.rows| && (forall k :: 0 <= k < |s.rows| && k != call.row ==> u.rows[k] == s.rows[k])
            && (s.rows[call.row].status.Reserved? ==>
                  u.rows[call.row] == s.rows[call.row].(status := Settled, cost := call.cost)
                  && Answered(p, steps, ProviderReturns(c, call.cost), c, call.row))
            && (!s.rows[call.row].status.Reserved? ==> u.rows == s.rows)
  {
    RunTraced(p, steps);
    assert CallTraced(p, steps, c, Exec(p, Init, steps).calls[c]);
  }

  // ---- one call on its own ----

  /** A call takes the lock, checks and inserts with nothing in between; a refused one has nothing left to do. */
  function Reserving(p: Policy, s: State, c: CallId, active: bool): State {
    var checked := Apply(p, Apply(p, Apply(p, s, TakeLock(c, active)), CheckTenant(c)), CheckGlobal(c));
    Apply(p, checked, Insert(c, true, true))
  }

  lemma {:induction false} AdmittedReservation(p: Policy, s: State, c: CallId)
    requires Enabled(s, TakeLock(c, true))
    requires TenantWithin(p, s.rows, s.calls[c].t, s.calls[c].now) && GlobalWithin(p, s.rows, s.calls[c].now)
    ensures var u, call := Reserving(p, s, c, true), s.calls[c];
            && u.rows == s.rows + [Row(call.t, call.now, call.estimate, call.estimate, Reserved)]
            && u.calls == s.calls[c := Invoking(|s.rows|)] && u.lock.None?
  {
  }

  lemma {:induction false} RefusedReservation(p: Policy, s: State, c: CallId, active: bool)
    requires Enabled(s, TakeLock(c, active))
    requires !active || !TenantWithin(p, s.rows, s.calls[c].t, s.calls[c].now) || !GlobalWithin(p, s.rows, s.calls[c].now)
    ensures var u := Reserving(p, s, c, active); u.rows == s.rows && u.calls == s.calls - {c} && u.lock.None?
  {
  }

  /**
   * After any run, a call of an active tenant that takes the lock and is then undisturbed reserves its estimate exactly
   * when its budget allows it; refused, it leaves no row. Either way the lock is free again.
   */
  lemma {:induction false} UndisturbedReservation(p: Policy, steps: seq<Step>, c: CallId, active: bool)
    requires Enabled(Exec(p, Init, steps), TakeLock(c, active))
    ensures var s := Exec(p, Init, steps);
            var call, u := s.calls[c], Reserving(p, s, c, active);
            && u.lock.None?
            && (if active && TenantWithin(p, s.rows, call.t, call.now) && GlobalWithin(p, s.rows, call.now)
                then u.rows == s.rows + [Row(call.t, call.now, call.estimate, call.estimate, Reserved)]
                     && u.calls == s.calls[c := Invoking(|s.rows|)]
                else u.rows == s.rows && u.calls == s.calls - {c})
  {
    var s := Exec(p, Init, steps);
    if active && TenantWithin(p, s.rows, s.calls[c].t, s.calls[c].now) && GlobalWithin(p, s.rows, s.calls[c].now) {
      AdmittedReservation(p, s, c);
    } else {
      RefusedReservation(p, s, c, active);
    }
  }

  /** A settle that throws without effect is tried again, at the same cost, until it has been tried three times. */
  lemma {:induction false} ThrownSettleIsRetried(p: Policy, steps: seq<Step>, c: CallId)
    requires Enabled(Exec(p, Init, steps), SettleThrows(c, false))
    ensures var s, u := Exec(p, Init, steps), Apply(p, Exec(p, Init, steps), SettleThrows(c, false));
            var call := s.calls[c];
            && 1 <= call.attempt <= 3 && u.rows == s.rows
            && (if call.attempt < 3 then u.calls == s.calls[c := Settling(call.row, call.cost, call.attempt + 1)] else u.calls == s.calls - {c})
  {
    BudgetProofs.AttemptsCount(p, Init, steps);
  }

  /** A rejected call whose failure is recorded frees its reservation, if that is still one, and touches no other row. */
  lemma {:induction false} RejectedCallFails(p: Policy, steps: seq<Step>, c: CallId, applied: bool)
    requires Enabled(Exec(p, Init, steps), FailSettles(c, applied))
    ensures var s, u := Exec(p, Init, steps), Apply(p, Exec(p, Init, steps), FailSettles(c, applied));
            var i := s.calls[c].row;
            && Answered(p, steps, ProviderRejects(c), c, i) && c !in u.calls
            && u.rows == (if applied && s.rows[i].status.Reserved? then s.rows[i := s.rows[i].(status := Failed, cost := 0.0)] else s.rows)
  {
    RunTraced(p, steps);
    assert CallTraced(p, steps, c, Exec(p, Init, steps).calls[c]);
  }
}
