/** The gateway's own code over its table of calls, one method per stretch that runs to its next await or loop. */
module AiGateway {
  import opened Ordering
  import opened BudgetSpec

  datatype Refusal = NoTenantBudget | TenantDaily | TenantMonthly | GlobalDaily | GlobalMonthly

  /** What one attempt of a database write met: it answered, or it threw, its write applied or not. */
  datatype Attempt = Answered | Threw(applied: bool)

  /** The attempts that are made: up to the first answer, and never more than `max`. */
  function Made(attempts: seq<Attempt>, max: nat): nat {
    if attempts == [] || max == 0 then 0 else if attempts[0].Answered? then 1 else 1 + Made(attempts[1..], max - 1)
  }

  predicate Takes(a: Attempt) {
    a.Answered? || a.applied
  }

  lemma {:induction false} MadeIs(attempts: seq<Attempt>, max: nat, n: nat)
    requires 1 <= n <= max && n <= |attempts| && (forall k :: 0 <= k < n - 1 ==> attempts[k].Threw?)
    requires attempts[n - 1].Answered? || n == max
    ensures Made(attempts, max) == n
  {
    if n > 1 {
      MadeIs(attempts[1..], max - 1, n - 1);
    }
  }

  class AiGateway {
    const policy: Policy
    var rows: seq<Row>

    constructor (policy: Policy)
      ensures this.policy == policy && rows == []
    {
      this.policy, rows := policy, [];
    }

    /** Refuses at the first cap that is reached; a tenant without a budget is refused outright. */
    method AssertWithinBudget(t: Tenant, now: int) returns (refusal: Option<Refusal>)
      ensures refusal.None? <==> TenantWithin(policy, rows, t, now) && GlobalWithin(policy, rows, now)
      ensures refusal == Some(NoTenantBudget) <==> policy.budgets(t).None?
      ensures refusal.Some? && refusal.value.GlobalDaily? ==> TenantWithin(policy, rows, t, now)
    {
      var found := policy.budgets(t);
      if found.None? { return Some(NoTenantBudget); }
      var budget := found.value;
      var day, month := policy.dayStart(t, now), policy.monthStart(t, now);
      if budget.daily.Some? && SpentSince(rows, Some(t), month, day) >= budget.daily.value { return Some(TenantDaily); }
      if budget.monthly.Some? && SpentSince(rows, Some(t), month, month) >= budget.monthly.value { return Some(TenantMonthly); }
      var utcDay, utcMonth := policy.utcDayStart(now), policy.utcMonthStart(now);
      if SpentSince(rows, None, utcMonth, utcDay) >= policy.globalDaily { return Some(GlobalDaily); }
      if SpentSince(rows, None, utcMonth, utcMonth) >= policy.globalMonthly { return Some(GlobalMonthly); }
      return None;
    }

    method Reserve(t: Tenant, now: int, estimate: real) returns (id: RowId)
      modifies this
      ensures id == old(|rows|) && rows == old(rows) + [Row(t, now, estimate, estimate, Reserved)]
    {
      id := |rows|;
      rows := rows + [Row(t, now, estimate, estimate, Reserved)];
    }

    /** One settle attempt: `matched` is whether a `reserved` row was there to settle. */
    method TrySettle(id: RowId, cost: real) returns (matched: bool)
      requires id < |rows|
      modifies this
      ensures matched == old(rows)[id].status.Reserved?
      ensures rows == old(rows)[id := SettleRow(old(rows)[id], cost)]
      ensures |rows| == |old(rows)| && forall k :: 0 <= k < |rows| && k != id ==> rows[k] == old(rows)[k]
      ensures rows[id] == if matched then old(rows)[id].(cost := cost, status := Settled) else old(rows)[id]
    {
      matched := rows[id].status.Reserved?;
      if matched { rows := rows[id := rows[id].(cost := cost, status := Settled)]; }
    }

    /**
     * At most three attempts; the row is settled exactly when one of the attempts made took effect, and is
     * otherwise left as it was, still counting at its estimate.
     */
    method SettleWithRetry(id: RowId, cost: real, attempts: seq<Attempt>) returns (made: nat)
      requires id < |rows| && |attempts| == SETTLE_MAX_ATTEMPTS
      modifies this
      ensures made == Made(attempts, SETTLE_MAX_ATTEMPTS) && 1 <= made <= 3
      ensures (forall k :: 0 <= k < made - 1 ==> attempts[k].Threw?) && (made < 3 ==> attempts[made - 1].Answered?)
      ensures rows == if exists k :: 0 <= k < made && Takes(attempts[k]) then old(rows)[id := SettleRow(old(rows)[id], cost)] else old(rows)
      ensures |rows| == |old(rows)| && forall k :: 0 <= k < |rows| && k != id ==> rows[k] == old(rows)[k]
      ensures old(rows)[id].status.Reserved? && (exists k :: 0 <= k < made && Takes(attempts[k])) ==>
                rows[id] == old(rows)[id].(cost := cost, status := Settled)
      ensures !old(rows)[id].status.Reserved? || (forall k :: 0 <= k < made ==> !Takes(attempts[k])) ==> rows[id] == old(rows)[id]
    {
      var attempt := 1;
      ghost var start, settled := rows, rows[id := SettleRow(rows[id], cost)];
      ghost var took := false;
      while true
        invariant 1 <= attempt <= SETTLE_MAX_ATTEMPTS && |rows| == |start|
        invariant forall k :: 0 <= k < attempt - 1 ==> attempts[k].Threw?
        invariant took <==> exists k :: 0 <= k < attempt - 1 && Takes(attempts[k])
        invariant rows == if took then settled else start
        decreases SETTLE_MAX_ATTEMPTS - attempt
      {
        var outcome := attempts[attempt - 1];
        if Takes(outcome) {
          var matched := TrySettle(id, cost);
          took := true;
        }
        if outcome.Answered? || attempt >= SETTLE_MAX_ATTEMPTS {
          MadeIs(attempts, SETTLE_MAX_ATTEMPTS, attempt);
          return attempt;
        }
        attempt := attempt + 1;
      }
    }

    /** Marks a reservation failed at cost 0; throws when the row is no longer `reserved`. */
    method FailGatewayCall(id: RowId) returns (threw: bool)
      requires id < |rows|
      modifies this
      ensures threw == !old(rows)[id].status.Reserved?
      ensures |rows| == |old(rows)| && forall k :: 0 <= k < |rows| && k != id ==> rows[k] == old(rows)[k]
      ensures rows[id] == if threw then old(rows)[id] else old(rows)[id].(cost := 0.0, status := Failed)
    {
      threw := !rows[id].status.Reserved?;
      if !threw { rows := rows[id := rows[id].(cost := 0.0, status := Failed)]; }
    }
  }
}
