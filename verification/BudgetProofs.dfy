/** The budget's guarantees over every interleaving of calls. */
module BudgetProofs {
  import opened Ordering
  import opened BudgetSpec

  // ---- sums ----

  lemma {:induction false} SumSnoc(rows: seq<Row>, row: Row, amount: Row -> real)
    ensures Sum(rows + [row], amount) == Sum(rows, amount) + amount(row)
  {
    if rows == [] {
      assert [row][1..] == [];
    } else {
      assert (rows + [row])[1..] == rows[1..] + [row];
      SumSnoc(rows[1..], row, amount);
    }
  }

  lemma {:induction false} SumAtMost(rows: seq<Row>, a: Row -> real, b: Row -> real)
    requires forall i :: 0 <= i < |rows| ==> a(rows[i]) <= b(rows[i])
    ensures Sum(rows, a) <= Sum(rows, b)
  {
    if rows != [] {
      forall i | 0 <= i < |rows[1..]| ensures a(rows[1..][i]) <= b(rows[1..][i]) { assert rows[1..][i] == rows[i + 1]; }
      SumAtMost(rows[1..], a, b);
    }
  }

  /** A cap's window holds no more than what the database adds up for it, whatever order rows were inserted in. */
  lemma TenantSpendIsCounted(p: Policy, rows: seq<Row>, t: Tenant, now: int)
    requires Sane(p) && RowsOk(rows)
    ensures SpendIn(p, TenantDay(t, p.dayStart(t, now)), rows) <= SpentSince(rows, Some(t), p.monthStart(t, now), p.dayStart(t, now))
    ensures SpendIn(p, TenantMonth(t, p.monthStart(t, now)), rows) <= SpentSince(rows, Some(t), p.monthStart(t, now), p.monthStart(t, now))
  {
    var day, month := p.dayStart(t, now), p.monthStart(t, now);
    forall i | 0 <= i < |rows|
      ensures Costs(p, TenantDay(t, day))(rows[i]) <= Counted(Some(t), month, day)(rows[i])
      ensures Costs(p, TenantMonth(t, month))(rows[i]) <= Counted(Some(t), month, month)(rows[i])
    {
      assert p.monthStart(t, rows[i].at) <= p.dayStart(t, rows[i].at) <= rows[i].at;
      assert p.monthStart(t, now) <= p.dayStart(t, now) <= now;
      assert RowOk(rows[i]);
    }
    SumAtMost(rows, Costs(p, TenantDay(t, day)), Counted(Some(t), month, day));
    SumAtMost(rows, Costs(p, TenantMonth(t, month)), Counted(Some(t), month, month));
  }

  lemma GlobalSpendIsCounted(p: Policy, rows: seq<Row>, now: int)
    requires Sane(p) && RowsOk(rows)
    ensures SpendIn(p, GlobalDay(p.utcDayStart(now)), rows) <= SpentSince(rows, None, p.utcMonthStart(now), p.utcDayStart(now))
    ensures SpendIn(p, GlobalMonth(p.utcMonthStart(now)), rows) <= SpentSince(rows, None, p.utcMonthStart(now), p.utcMonthStart(now))
  {
    var day, month := p.utcDayStart(now), p.utcMonthStart(now);
    forall i | 0 <= i < |rows|
      ensures Costs(p, GlobalDay(day))(rows[i]) <= Counted(None, month, day)(rows[i])
      ensures Costs(p, GlobalMonth(month))(rows[i]) <= Counted(None, month, month)(rows[i])
    {
      assert p.utcMonthStart(rows[i].at) <= p.utcDayStart(rows[i].at) <= rows[i].at;
      assert p.utcMonthStart(now) <= p.utcDayStart(now) <= now;
      assert RowOk(rows[i]);
    }
    SumAtMost(rows, Costs(p, GlobalDay(day)), Counted(None, month, day));
    SumAtMost(rows, Costs(p, GlobalMonth(month)), Counted(None, month, month));
  }

  /** Days and months are intervals: a moment between a day's start and a later moment of that day lies on it. */
  ghost predicate Calendar(p: Policy) {
    && (forall t, at, now :: p.dayStart(t, now) <= at <= now ==> p.dayStart(t, at) == p.dayStart(t, now))
    && (forall t, at, now :: p.monthStart(t, now) <= at <= now ==> p.monthStart(t, at) == p.monthStart(t, now))
    && (forall at, now :: p.utcDayStart(now) <= at <= now ==> p.utcDayStart(at) == p.utcDayStart(now))
    && (forall at, now :: p.utcMonthStart(now) <= at <= now ==> p.utcMonthStart(at) == p.utcMonthStart(now))
  }

  lemma {:induction false} SameSum(rows: seq<Row>, a: Row -> real, b: Row -> real)
    requires forall i :: 0 <= i < |rows| ==> a(rows[i]) == b(rows[i])
    ensures Sum(rows, a) == Sum(rows, b)
  {
    SumAtMost(rows, a, b);
    SumAtMost(rows, b, a);
  }

  lemma TenantCountIsExact(p: Policy, rows: seq<Row>, t: Tenant, now: int)
    requires Sane(p) && Calendar(p) && forall i :: 0 <= i < |rows| ==> rows[i].at <= now
    ensures SpentSince(rows, Some(t), p.monthStart(t, now), p.dayStart(t, now)) == SpendIn(p, TenantDay(t, p.dayStart(t, now)), rows)
    ensures SpentSince(rows, Some(t), p.monthStart(t, now), p.monthStart(t, now)) == SpendIn(p, TenantMonth(t, p.monthStart(t, now)), rows)
  {
    var day, month := p.dayStart(t, now), p.monthStart(t, now);
    assert month <= day <= now;
    forall i | 0 <= i < |rows|
      ensures Counted(Some(t), month, day)(rows[i]) == Costs(p, TenantDay(t, day))(rows[i])
      ensures Counted(Some(t), month, month)(rows[i]) == Costs(p, TenantMonth(t, month))(rows[i])
    {
      assert p.monthStart(t, rows[i].at) <= p.dayStart(t, rows[i].at) <= rows[i].at;
    }
    SameSum(rows, Counted(Some(t), month, day), Costs(p, TenantDay(t, day)));
    SameSum(rows, Counted(Some(t), month, month), Costs(p, TenantMonth(t, month)));
  }

  lemma GlobalCountIsExact(p: Policy, rows: seq<Row>, now: int)
    requires Sane(p) && Calendar(p) && forall i :: 0 <= i < |rows| ==> rows[i].at <= now
    ensures SpentSince(rows, None, p.utcMonthStart(now), p.utcDayStart(now)) == SpendIn(p, GlobalDay(p.utcDayStart(now)), rows)
    ensures SpentSince(rows, None, p.utcMonthStart(now), p.utcMonthStart(now)) == SpendIn(p, GlobalMonth(p.utcMonthStart(now)), rows)
  {
    var day, month := p.utcDayStart(now), p.utcMonthStart(now);
    assert month <= day <= now;
    forall i | 0 <= i < |rows|
      ensures Counted(None, month, day)(rows[i]) == Costs(p, GlobalDay(day))(rows[i])
      ensures Counted(None, month, month)(rows[i]) == Costs(p, GlobalMonth(month))(rows[i])
    {
      assert p.utcMonthStart(rows[i].at) <= p.utcDayStart(rows[i].at) <= rows[i].at;
    }
    SameSum(rows, Counted(None, month, day), Costs(p, GlobalDay(day)));
    SameSum(rows, Counted(None, month, month), Costs(p, GlobalMonth(month)));
  }

  /**
   * No call is refused too early: when no row is later than its clock, a call with a budget passes its checks
   * exactly when each of its four windows has spent less than its cap.
   */
  lemma PassesExactlyBelowCaps(p: Policy, rows: seq<Row>, t: Tenant, now: int)
    requires Sane(p) && Calendar(p) && forall i :: 0 <= i < |rows| ==> rows[i].at <= now
    ensures TenantWithin(p, rows, t, now) && GlobalWithin(p, rows, now) <==>
              p.budgets(t).Some? && forall w :: InWindow(p, w, Reservation(t, now, 0.0)) && CapOf(p, w).Some? ==> SpendIn(p, w, rows) < CapOf(p, w).value
  {
    TenantCountIsExact(p, rows, t, now);
    GlobalCountIsExact(p, rows, now);
    var row := Reservation(t, now, 0.0);
    assert InWindow(p, TenantDay(t, p.dayStart(t, now)), row) && InWindow(p, TenantMonth(t, p.monthStart(t, now)), row);
    assert InWindow(p, GlobalDay(p.utcDayStart(now)), row) && InWindow(p, GlobalMonth(p.utcMonthStart(now)), row);
  }

  // ---- overruns ----

  /** Since `before`, a window's spend has grown by overruns only, as long as nothing was inserted into it. */
  lemma {:induction false} SpendGrowsByOverruns(p: Policy, w: Window, before: seq<Row>, after: seq<Row>)
    requires RowsOk(before) && RowsOk(after) && Grows(before, after)
    requires forall i :: |before| <= i < |after| ==> !InWindow(p, w, after[i])
    ensures SpendIn(p, w, after) <= SpendIn(p, w, before) + OverrunSince(p, w, before, after)
  {
    if before == [] {
      NoRowNoSpend(p, w, after);
    } else {
      assert RowOk(before[0]) && RowOk(after[0]);
      forall i | 0 <= i < |before[1..]| ensures RowOk(before[1..][i]) && RowOk(after[1..][i]) {
        assert before[1..][i] == before[i + 1] && after[1..][i] == after[i + 1];
      }
      forall i | 0 <= i < |after[1..]| ensures after[1..][i] == after[i + 1] && RowOk(after[1..][i]) { assert RowOk(after[i + 1]); }
      SpendGrowsByOverruns(p, w, before[1..], after[1..]);
    }
  }

  lemma {:induction false} NoRowNoSpend(p: Policy, w: Window, rows: seq<Row>)
    requires forall i :: 0 <= i < |rows| ==> !InWindow(p, w, rows[i])
    ensures SpendIn(p, w, rows) == 0.0
  {
    if rows != [] {
      forall i | 0 <= i < |rows[1..]| ensures !InWindow(p, w, rows[1..][i]) { assert rows[1..][i] == rows[i + 1]; }
      NoRowNoSpend(p, w, rows[1..]);
    }
  }

  lemma {:induction false} NoOverrun(p: Policy, w: Window, before: seq<Row>, after: seq<Row>)
    requires |before| <= |after| && forall i :: 0 <= i < |after| ==> after[i].cost <= after[i].estimate
    ensures OverrunSince(p, w, before, after) == 0.0
  {
    if before != [] {
      forall i | 0 <= i < |after[1..]| ensures after[1..][i].cost <= after[1..][i].estimate { assert after[1..][i] == after[i + 1]; }
      NoOverrun(p, w, before[1..], after[1..]);
    }
  }

  lemma GrowsOn(a: seq<Row>, b: seq<Row>, c: seq<Row>)
    requires Grows(a, b) && Grows(b, c)
    ensures Grows(a, c)
  {
  }

  // ---- steps ----

  /** Rows are settled or failed; no call's or row's reading of them is spoilt. */
  lemma UpdateKeeps(p: Policy, s: State, i: RowId, row: Row)
    requires Inv(p, s) && i < |s.rows| && s.rows[i].status.Reserved? && RowOk(row) && !row.status.Reserved?
    requires row == s.rows[i].(cost := row.cost, status := row.status)
    ensures Inv(p, Update(s, i, row))
  {
    var u := Update(s, i, row);
    assert Grows(s.rows, u.rows);
    forall k | 0 <= k < |u.rows| ensures AdmittedOk(p, u.rows, u.seen, k) { AdmissionStays(p, s, u, k); }
    forall c | c in u.calls ensures CallOk(p, u, c, u.calls[c]) {
      assert CallOk(p, s, c, s.calls[c]);
      if u.calls[c].TenantChecked? { GrowsOn(u.calls[c].own, s.rows, u.rows); }
      if u.calls[c].GlobalChecked? { GrowsOn(u.calls[c].seen.own, s.rows, u.rows); GrowsOn(u.calls[c].seen.all, s.rows, u.rows); }
    }
  }

  lemma AdmissionStays(p: Policy, s: State, u: State, k: nat)
    requires k < |s.rows| == |s.seen| && |u.rows| == |u.seen| && s.seen <= u.seen && Grows(s.rows, u.rows) && AdmittedOk(p, s.rows, s.seen, k)
    ensures AdmittedOk(p, u.rows, u.seen, k)
  {
    forall w | InWindow(p, w, u.rows[k]) ensures Grows(s.seen[k].By(w), u.rows) {
      assert InWindow(p, w, s.rows[k]);
      GrowsOn(s.seen[k].By(w), s.rows, u.rows);
    }
  }

  /** A call that does not hold the lock moves on or ends; the rows stay. */
  lemma CallKeeps(p: Policy, s: State, c: CallId, call: Call)
    requires Inv(p, s) && c in s.calls && !s.calls[c].Holds() && !call.Holds() && CallOk(p, s, c, call)
    ensures Inv(p, Next(s, c, call)) && Inv(p, End(s, c))
  {
    forall b | b in s.calls ensures CallOk(p, s, b, s.calls[b]) {}
  }

  lemma RefuseKeeps(p: Policy, s: State, c: CallId)
    requires Inv(p, s) && c in s.calls && s.calls[c].Holds()
    ensures Inv(p, Refuse(s, c))
  {
    var u := Refuse(s, c);
    forall b | b in u.calls ensures CallOk(p, u, b, u.calls[b]) { assert CallOk(p, s, b, s.calls[b]) && CallOk(p, s, c, s.calls[c]); }
  }

  lemma AdmissionBegins(p: Policy, s: State, c: CallId, call: Call)
    requires call.GlobalChecked? && CallOk(p, s, c, call) && |s.seen| == |s.rows|
    ensures AdmittedOk(p, Admit(s, c, call).rows, Admit(s, c, call).seen, |s.rows|)
  {
    var u := Admit(s, c, call);
    assert Grows(s.rows, u.rows);
    GrowsOn(call.seen.own, s.rows, u.rows);
    GrowsOn(call.seen.all, s.rows, u.rows);
  }

  lemma AdmitKeeps(p: Policy, s: State, c: CallId)
    requires Inv(p, s) && c in s.calls && s.calls[c].GlobalChecked?
    ensures var u := Admit(s, c, s.calls[c]); Inv(p, u) && Inv(p, End(u, c))
  {
    var call := s.calls[c];
    assert CallOk(p, s, c, call);
    var u := Admit(s, c, call);
    assert Grows(s.rows, u.rows);
    forall k | 0 <= k < |u.rows| ensures AdmittedOk(p, u.rows, u.seen, k) {
      if k < |s.rows| { AdmissionStays(p, s, u, k); } else { AdmissionBegins(p, s, c, call); }
    }
    forall b | b in u.calls ensures CallOk(p, u, b, u.calls[b]) { assert CallOk(p, s, b, s.calls[b]); }
    CallKeeps(p, u, c, Invoking(|s.rows|));
  }

  lemma CheckKeeps(p: Policy, s: State, c: CallId)
    requires Inv(p, s) && Sane(p) && c in s.calls
    ensures s.calls[c].Locked? && TenantWithin(p, s.rows, s.calls[c].t, s.calls[c].now) ==>
              Inv(p, Next(s, c, TenantChecked(s.calls[c].t, s.calls[c].now, s.calls[c].estimate, s.rows)))
    ensures s.calls[c].TenantChecked? && GlobalWithin(p, s.rows, s.calls[c].now) ==>
              Inv(p, Next(s, c, GlobalChecked(s.calls[c].t, s.calls[c].now, s.calls[c].estimate, Seen(s.calls[c].own, s.rows))))
  {
    assert CallOk(p, s, c, s.calls[c]);
    if s.calls[c].Locked? { TenantSpendIsCounted(p, s.rows, s.calls[c].t, s.calls[c].now); }
    if s.calls[c].TenantChecked? { GlobalSpendIsCounted(p, s.rows, s.calls[c].now); }
  }

  lemma TakeLockKeeps(p: Policy, s: State, c: CallId)
    requires Inv(p, s) && c in s.calls && s.calls[c].Waiting? && s.lock.None?
    ensures Inv(p, Next(s, c, Locked(s.calls[c].t, s.calls[c].now, s.calls[c].estimate)).(lock := Some(c)))
  {
    var u := Next(s, c, Locked(s.calls[c].t, s.calls[c].now, s.calls[c].estimate)).(lock := Some(c));
    forall b | b in u.calls ensures CallOk(p, u, b, u.calls[b]) { assert CallOk(p, s, b, s.calls[b]); }
  }

  lemma SettleKeeps(p: Policy, s: State, c: CallId, returned: bool, applied: bool)
    requires Inv(p, s) && c in s.calls && s.calls[c].Settling?
    ensures s.calls[c].row < |s.rows| && Inv(p, Settle(s, c, s.calls[c].row, s.calls[c].cost, returned, applied, s.calls[c].attempt))
  {
    var call := s.calls[c];
    assert CallOk(p, s, c, call);
    assert RowOk(s.rows[call.row]);
    var row := SettleRow(s.rows[call.row], call.cost);
    var s1 := if returned || applied then Update(s, call.row, row) else s;
    if s.rows[call.row].status.Reserved? { UpdateKeeps(p, s, call.row, row); }
    else { assert s.rows[call.row := row] == s.rows; }
    CallKeeps(p, s1, c, Settling(call.row, call.cost, if call.attempt < SETTLE_MAX_ATTEMPTS then call.attempt + 1 else 1));
  }

  lemma FailKeeps(p: Policy, s: State, c: CallId)
    requires Inv(p, s) && c in s.calls && s.calls[c].Failing?
    ensures s.calls[c].row < |s.rows| && Inv(p, End(Update(s, s.calls[c].row, FailRow(s.rows[s.calls[c].row])), c)) && Inv(p, End(s, c))
  {
    var call := s.calls[c];
    assert CallOk(p, s, c, call);
    assert RowOk(s.rows[call.row]);
    var row := FailRow(s.rows[call.row]);
    if s.rows[call.row].status.Reserved? { UpdateKeeps(p, s, call.row, row); }
    else { assert s.rows[call.row := row] == s.rows; }
    CallKeeps(p, Update(s, call.row, row), c, Failing(call.row));
    CallKeeps(p, s, c, Failing(call.row));
  }

  lemma BeginKeeps(p: Policy, s: State, t: Tenant, now: int, estimate: real)
    requires Inv(p, s) && estimate >= 0.0
    ensures Inv(p, s.(calls := s.calls[s.nextCall := Waiting(t, now, estimate)], nextCall := s.nextCall + 1))
  {
    forall b | b in s.calls ensures b != s.nextCall { assert CallOk(p, s, b, s.calls[b]); }
    var u := s.(calls := s.calls[s.nextCall := Waiting(t, now, estimate)], nextCall := s.nextCall + 1);
    forall b | b in u.calls ensures CallOk(p, u, b, u.calls[b]) { if b != s.nextCall { assert CallOk(p, s, b, s.calls[b]); } }
  }

  lemma StepKeeps(p: Policy, s: State, step: Step)
    requires Inv(p, s) && Sane(p)
    ensures Inv(p, Apply(p, s, step))
  {
    if Enabled(s, step) {
      match step
      case Begin(t, now, estimate) => BeginKeeps(p, s, t, now, estimate);
      case TakeLock(c, active) =>
        TakeLockKeeps(p, s, c);
        assert CallOk(p, s, c, s.calls[c]);
        CallKeeps(p, s, c, s.calls[c]);
      case CheckTenant(c) => CheckKeeps(p, s, c); RefuseKeeps(p, s, c);
      case CheckGlobal(c) => CheckKeeps(p, s, c); RefuseKeeps(p, s, c);
      case Insert(c, ok, applied) => AdmitKeeps(p, s, c); RefuseKeeps(p, s, c);
      case Throws(c) => RefuseKeeps(p, s, c);
      case ProviderReturns(c, cost) =>
        assert CallOk(p, s, c, s.calls[c]);
        CallKeeps(p, s, c, Settling(s.calls[c].row, cost, 1));
      case ProviderRejects(c) =>
        assert CallOk(p, s, c, s.calls[c]);
        CallKeeps(p, s, c, Failing(s.calls[c].row));
      case SettleReturns(c) => SettleKeeps(p, s, c, true, true);
      case SettleThrows(c, applied) => SettleKeeps(p, s, c, false, applied);
      case FailSettles(c, applied) => FailKeeps(p, s, c);
    }
  }

  lemma {:induction false} RunKeeps(p: Policy, s: State, steps: seq<Step>)
    requires Inv(p, s) && Sane(p)
    ensures Inv(p, Exec(p, s, steps))
    decreases |steps|
  {
    if steps != [] {
      StepKeeps(p, s, steps[0]);
      RunKeeps(p, Apply(p, s, steps[0]), steps[1..]);
    }
  }

  // ---- what the gateway guarantees ----

  /**
   * At the moment a row is inserted, each of its windows has spent less than its cap plus what rows of the window
   * settled since this call's check of it cost beyond their estimates; when no cost exceeds its estimate, less
   * than its cap.
   */
  lemma {:induction false} AdmittedBelowCaps(p: Policy, steps: seq<Step>, c: CallId, w: Window)
    requires Sane(p) && Enabled(Exec(p, Init, steps), Insert(c, true, true)) && CapOf(p, w).Some?
    requires var call := Exec(p, Init, steps).calls[c]; InWindow(p, w, Reservation(call.t, call.now, call.estimate))
    ensures var s := Exec(p, Init, steps); var before := s.calls[c].seen.By(w);
            && |before| == |s.rows| && SpendIn(p, w, s.rows) < CapOf(p, w).value + OverrunSince(p, w, before, s.rows)
            && ((forall i :: 0 <= i < |s.rows| ==> s.rows[i].cost <= s.rows[i].estimate) ==> SpendIn(p, w, s.rows) < CapOf(p, w).value)
  {
    RunKeeps(p, Init, steps);
    var s := Exec(p, Init, steps);
    assert CallOk(p, s, c, s.calls[c]);
    var before := s.calls[c].seen.By(w);
    SpendGrowsByOverruns(p, w, before, s.rows);
    if forall i :: 0 <= i < |s.rows| ==> s.rows[i].cost <= s.rows[i].estimate { NoOverrun(p, w, before, s.rows); }
  }

  /** Row `k` is the last one of the window. */
  ghost predicate LastIn(p: Policy, w: Window, rows: seq<Row>, k: nat) {
    k < |rows| && InWindow(p, w, rows[k]) && forall i :: k < i < |rows| ==> !InWindow(p, w, rows[i])
  }

  lemma {:induction false} HasLast(p: Policy, w: Window, rows: seq<Row>, n: nat) returns (k: nat)
    requires n <= |rows| && (forall i :: n <= i < |rows| ==> !InWindow(p, w, rows[i]))
    requires exists i :: 0 <= i < |rows| && InWindow(p, w, rows[i])
    ensures LastIn(p, w, rows, k)
  {
    if InWindow(p, w, rows[n - 1]) { k := n - 1; } else { k := HasLast(p, w, rows, n - 1); }
  }

  /** The rows a call had read when it was admitted, and its own reservation. */
  function AtAdmission(w: Window, s: State, k: nat): seq<Row>
    requires k < |s.rows| == |s.seen|
  {
    s.seen[k].By(w) + [Reservation(s.rows[k].tenant, s.rows[k].at, s.rows[k].estimate)]
  }

  lemma {:induction false} SpendSinceLast(p: Policy, w: Window, s: State, k: nat)
    requires Inv(p, s) && LastIn(p, w, s.rows, k) && CapOf(p, w).Some?
    ensures |AtAdmission(w, s, k)| <= |s.rows|
    ensures SpendIn(p, w, s.rows) < CapOf(p, w).value + s.rows[k].estimate + OverrunSince(p, w, AtAdmission(w, s, k), s.rows)
  {
    assert AdmittedOk(p, s.rows, s.seen, k);
    var before, all := s.seen[k].By(w), AtAdmission(w, s, k);
    var own := Reservation(s.rows[k].tenant, s.rows[k].at, s.rows[k].estimate);
    assert RowOk(s.rows[k]);
    forall i | 0 <= i < |all| ensures RowOk(all[i]) { if i < k { assert RowOk(before[i]); } }
    assert Grows(all, s.rows);
    SpendGrowsByOverruns(p, w, all, s.rows);
    SumSnoc(before, own, Costs(p, w));
  }

  /**
   * In every reachable state each capped window has spent nothing, or less than its cap plus the estimate of its
   * last row plus what that row and the rows still `reserved` when it was admitted cost beyond their estimates.
   * Overruns settled before that admission are not added: they counted against it.
   */
  lemma {:induction false} SpendStaysNearCap(p: Policy, steps: seq<Step>, w: Window)
    requires Sane(p) && CapOf(p, w).Some?
    ensures var s := Exec(p, Init, steps);
            SpendIn(p, w, s.rows) == 0.0
            || exists k: nat :: LastIn(p, w, s.rows, k) && |s.seen| == |s.rows| && |AtAdmission(w, s, k)| <= |s.rows|
                           && SpendIn(p, w, s.rows) <
                              CapOf(p, w).value + s.rows[k].estimate + OverrunSince(p, w, AtAdmission(w, s, k), s.rows)
  {
    RunKeeps(p, Init, steps);
    var s := Exec(p, Init, steps);
    if exists i :: 0 <= i < |s.rows| && InWindow(p, w, s.rows[i]) {
      var k := HasLast(p, w, s.rows, |s.rows|);
      SpendSinceLast(p, w, s, k);
    } else {
      NoRowNoSpend(p, w, s.rows);
    }
  }

  /** When no real cost exceeds its estimate, a capped window never spends its cap plus its largest estimate. */
  lemma {:induction false} HonestEstimatesBoundSpend(p: Policy, steps: seq<Step>, w: Window, largest: real)
    requires Sane(p) && CapOf(p, w).Some?
    requires var rows := Exec(p, Init, steps).rows;
             forall i :: 0 <= i < |rows| ==> rows[i].cost <= rows[i].estimate <= largest
    ensures var spent := SpendIn(p, w, Exec(p, Init, steps).rows); spent == 0.0 || spent < CapOf(p, w).value + largest
  {
    var s := Exec(p, Init, steps);
    SpendStaysNearCap(p, steps, w);
    if SpendIn(p, w, s.rows) != 0.0 {
      var k: nat :| LastIn(p, w, s.rows, k) && |s.seen| == |s.rows| && |AtAdmission(w, s, k)| <= |s.rows|
               && SpendIn(p, w, s.rows) < CapOf(p, w).value + s.rows[k].estimate + OverrunSince(p, w, AtAdmission(w, s, k), s.rows);
      NoOverrun(p, w, AtAdmission(w, s, k), s.rows);
    }
  }

  // ---- rows leave `reserved` at most once ----

  /** No settle is attempted more than the allowed number of times. */
  ghost predicate AttemptsOk(s: State) {
    forall c :: c in s.calls && s.calls[c].Settling? ==> 1 <= s.calls[c].attempt <= SETTLE_MAX_ATTEMPTS
  }

  lemma {:induction false} AttemptsCount(p: Policy, s: State, steps: seq<Step>)
    requires AttemptsOk(s)
    ensures AttemptsOk(Exec(p, s, steps))
    decreases |steps|
  {
    if steps != [] {
      AttemptsCount(p, Apply(p, s, steps[0]), steps[1..]);
    }
  }

  lemma StepGrows(p: Policy, s: State, step: Step)
    ensures Grows(s.rows, Apply(p, s, step).rows)
  {
  }

  lemma {:induction false} RowsSettleOnce(p: Policy, s: State, steps: seq<Step>)
    ensures Grows(s.rows, Exec(p, s, steps).rows)
    decreases |steps|
  {
    if steps != [] {
      StepGrows(p, s, steps[0]);
      RowsSettleOnce(p, Apply(p, s, steps[0]), steps[1..]);
    }
  }

  /** The one lock admits calls one at a time. */
  lemma {:induction false} OneCallChecks(p: Policy, steps: seq<Step>, b: CallId, c: CallId)
    requires Sane(p)
    requires var s := Exec(p, Init, steps); b in s.calls && c in s.calls && s.calls[b].Holds() && s.calls[c].Holds()
    ensures b == c
  {
    RunKeeps(p, Init, steps);
    var s := Exec(p, Init, steps);
    assert CallOk(p, s, b, s.calls[b]) && CallOk(p, s, c, s.calls[c]);
  }
}
