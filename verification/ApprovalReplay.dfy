/**
 * Replay of an approved destructive operation: redelivered jobs lock the request row, revalidate, execute and
 * write the outcome in one transaction. The resource itself is only read by the check, so outside edits can run
 * between the check and the mutation.
 */
module ApprovalReplay {
  import opened Ordering

  datatype Decision = Undecided | Approved | Rejected

  datatype Execution = NotQueued | Queued | Succeeded(result: nat) | Conflict(reason: nat) | LegacyTerminal(was: nat)
  {
    predicate Terminal() { Succeeded? || Conflict? || LegacyTerminal? }
  }

  type DeliveryId = nat

  /** What a delivery reports: the stored outcome, or a rejected promise that makes the queue retry. */
  datatype Report = Stored(outcome: Execution) | Rejects

  /** What the executor met; a refusal is a domain error, `partial` when it mutated before throwing. */
  datatype Verdict = Ran(result: nat) | Refused(reason: nat, partial: bool) | Broke

  /** The last outside edit, if there was one; `Some(None)` removed the resource. */
  type LastEdit = Option<Option<nat>>

  /** `edit` is the last outside edit between the delivery's check and its execution. */
  datatype Delivery =
    | Waiting
    | Locked
    | Checked(edit: LastEdit)
    | Finishing(outcome: Execution, mutated: Option<nat>, edit: LastEdit)
  {
    predicate Holds() { !Waiting? }
  }

  /** A committed mutation: the version it ran on and the last outside edit between its check and itself. */
  datatype Mutation = Mutation(version: nat, edit: LastEdit)

  /** `slipped` is history: the `edit` of the delivery whose commit made the row `succeeded`. */
  datatype State = State(
    decision: Decision, execution: Execution, resource: Option<nat>, deliveries: map<DeliveryId, Delivery>, nextDelivery: nat,
    lock: Option<DeliveryId>, mutations: seq<Mutation>, reports: map<DeliveryId, Report>,
    slipped: LastEdit)

  datatype Step =
    | Deliver
    | Decide(approve: bool)
    | OutsideEdit(to: Option<nat>)
    | TakeLock(d: DeliveryId)
    | Check(d: DeliveryId, domainError: Option<nat>)
    | Execute(d: DeliveryId, verdict: Verdict)
    | Breaks(d: DeliveryId)
    | Commit(d: DeliveryId, ok: bool, applied: bool)

  /** The snapshot stored with the request when it was made. */
  function Init(approved: nat): State {
    State(Undecided, NotQueued, Some(approved), map[], 0, None, [], map[], None)
  }

  /** The mutating transaction holds the resource's own row lock from its mutation on. */
  predicate ResourceLocked(s: State) {
    exists d :: d in s.deliveries && s.deliveries[d].Finishing? && s.deliveries[d].mutated.Some?
  }

  predicate Enabled(s: State, step: Step) {
    match step
    case Deliver => true
    case Decide(_) => s.decision.Undecided? && s.lock.None?
    case OutsideEdit(_) => !ResourceLocked(s)
    case TakeLock(d) => d in s.deliveries && s.deliveries[d].Waiting? && s.lock.None?
    case Check(d, _) => d in s.deliveries && s.deliveries[d].Locked?
    case Execute(d, verdict) =>
      d in s.deliveries && s.deliveries[d].Checked? && (s.resource.None? ==> !(verdict.Refused? && verdict.partial))
    case Breaks(d) => d in s.deliveries
    case Commit(d, _, _) => d in s.deliveries && s.deliveries[d].Finishing?
  }

  function Next(s: State, d: DeliveryId, phase: Delivery): State {
    s.(deliveries := s.deliveries[d := phase])
  }

  function End(s: State, d: DeliveryId, report: Report): State {
    s.(deliveries := s.deliveries - {d}, lock := if s.lock == Some(d) then None else s.lock, reports := s.reports[d := report])
  }

  function Edited(phase: Delivery, to: Option<nat>): Delivery {
    match phase
    case Checked(_) => Checked(Some(to))
    case _ => phase
  }

  function Edit(s: State, to: Option<nat>): State {
    s.(resource := to, deliveries := map d | d in s.deliveries :: Edited(s.deliveries[d], to))
  }

  /** The row lock is granted; a terminal row answers at once, anything but an approved, queued one rejects. */
  function Lock(s: State, d: DeliveryId): State {
    if s.execution.Terminal() then End(s, d, Stored(s.execution))
    else if !s.decision.Approved? || !s.execution.Queued? then End(s, d, Rejects)
    else Next(s, d, Locked).(lock := Some(d))
  }

  /** Revalidation: a domain error or a changed snapshot terminalizes as a conflict. */
  function CheckEnd(s: State, d: DeliveryId, approved: nat, domainError: Option<nat>): State {
    if domainError.Some? then Next(s, d, Finishing(Conflict(domainError.value), None, None))
    else if s.resource != Some(approved) then Next(s, d, Finishing(Conflict(0), None, None))
    else Next(s, d, Checked(None))
  }

  /** An executor that finds the resource gone returns without mutating anything, as item and relation deletion do. */
  function ExecuteEnd(s: State, d: DeliveryId, verdict: Verdict, edit: LastEdit): State {
    match verdict
    case Ran(result) => Next(s, d, Finishing(Succeeded(result), s.resource, edit))
    case Refused(reason, partial) => Next(s, d, Finishing(Conflict(reason), if partial then s.resource else None, edit))
    case Broke => End(s, d, Rejects)
  }

  /** The outcome and the mutation commit together, or neither does. */
  function CommitEnd(s: State, d: DeliveryId, phase: Delivery, ok: bool, applied: bool): State
    requires phase.Finishing?
  {
    var after :=
      if !ok && !applied then s
      else if phase.mutated.Some? then s.(execution := phase.outcome, resource := None, mutations := s.mutations + [Mutation(phase.mutated.value, phase.edit)])
      else s.(execution := phase.outcome);
    var noted := if (ok || applied) && phase.outcome.Succeeded? then after.(slipped := phase.edit) else after;
    End(noted, d, if ok then Stored(phase.outcome) else Rejects)
  }

  function Apply(s: State, approved: nat, step: Step): State {
    if !Enabled(s, step) then s
    else
      match step
      case Deliver => s.(deliveries := s.deliveries[s.nextDelivery := Waiting], nextDelivery := s.nextDelivery + 1)
      case Decide(approve) => if approve then s.(decision := Approved, execution := Queued) else s.(decision := Rejected)
      case OutsideEdit(to) => Edit(s, to)
      case TakeLock(d) => Lock(s, d)
      case Check(d, domainError) => CheckEnd(s, d, approved, domainError)
      case Execute(d, verdict) => ExecuteEnd(s, d, verdict, s.deliveries[d].edit)
      case Breaks(d) => End(s, d, Rejects)
      case Commit(d, ok, applied) => CommitEnd(s, d, s.deliveries[d], ok, applied)
  }

  function Exec(s: State, approved: nat, steps: seq<Step>): State
    decreases |steps|
  {
    if steps == [] then s else Exec(Apply(s, approved, steps[0]), approved, steps[1..])
  }

  // ---- invariant ----

  /** What a delivery that checked the approved version finds when it executes. */
  function Found(approved: nat, edit: LastEdit): Option<nat> {
    if edit.None? then Some(approved) else edit.value
  }

  ghost predicate DeliveryOk(s: State, approved: nat, d: DeliveryId, phase: Delivery) {
    && d < s.nextDelivery && (phase.Holds() <==> s.lock == Some(d))
    && (phase.Holds() ==> s.decision.Approved? && s.execution.Queued?)
    && (phase.Checked? ==> s.resource == Found(approved, phase.edit))
    && (phase.Finishing? ==> phase.outcome.Succeeded? || phase.outcome.Conflict?)
    && (phase.Finishing? && phase.outcome.Succeeded? ==> phase.mutated == Found(approved, phase.edit))
    && (phase.Finishing? && phase.mutated.Some? ==> s.resource == phase.mutated == Found(approved, phase.edit))
  }

  ghost predicate Inv(s: State, approved: nat) {
    && (forall d :: d in s.deliveries ==> DeliveryOk(s, approved, d, s.deliveries[d]))
    && (s.lock.Some? ==> s.lock.value in s.deliveries)
    && |s.mutations| <= 1 && (s.mutations != [] ==> s.execution.Succeeded? || s.execution.Conflict?)
    && (s.execution.Succeeded? ==> (s.mutations == [] <==> s.slipped == Some(None)))
    && (!s.execution.Succeeded? ==> s.slipped.None?)
    && (forall i :: 0 <= i < |s.mutations| ==> Some(s.mutations[i].version) == Found(approved, s.mutations[i].edit))
    && (s.execution.Queued? ==> s.decision.Approved?) && (s.decision.Undecided? ==> s.execution.NotQueued?)
  }

  lemma EndKeeps(s: State, approved: nat, d: DeliveryId, report: Report)
    requires Inv(s, approved) && d in s.deliveries
    ensures Inv(End(s, d, report), approved)
  {
    var u := End(s, d, report);
    forall b | b in u.deliveries ensures DeliveryOk(u, approved, b, u.deliveries[b]) { assert DeliveryOk(s, approved, b, s.deliveries[b]); }
  }

  lemma CommitKeeps(s: State, approved: nat, d: DeliveryId, ok: bool, applied: bool)
    requires Inv(s, approved) && d in s.deliveries && s.deliveries[d].Finishing?
    ensures Inv(CommitEnd(s, d, s.deliveries[d], ok, applied), approved)
  {
    assert DeliveryOk(s, approved, d, s.deliveries[d]);
    var u := CommitEnd(s, d, s.deliveries[d], ok, applied);
    forall b | b in u.deliveries ensures DeliveryOk(u, approved, b, u.deliveries[b]) { assert DeliveryOk(s, approved, b, s.deliveries[b]); }
  }

  lemma EditKeeps(s: State, approved: nat, to: Option<nat>)
    requires Inv(s, approved) && !ResourceLocked(s)
    ensures Inv(Edit(s, to), approved)
  {
    var u := Edit(s, to);
    forall b | b in u.deliveries ensures DeliveryOk(u, approved, b, u.deliveries[b]) { assert DeliveryOk(s, approved, b, s.deliveries[b]); }
  }

  lemma NextKeeps(s: State, approved: nat, d: DeliveryId, phase: Delivery)
    requires Inv(s, approved) && d in s.deliveries && s.deliveries[d].Holds() && DeliveryOk(s, approved, d, phase)
    ensures Inv(Next(s, d, phase), approved)
  {
    var u := Next(s, d, phase);
    forall b | b in u.deliveries ensures DeliveryOk(u, approved, b, u.deliveries[b]) { assert DeliveryOk(s, approved, b, s.deliveries[b]); }
  }

  lemma LockKeeps(s: State, approved: nat, d: DeliveryId)
    requires Inv(s, approved) && d in s.deliveries && s.deliveries[d].Waiting? && s.lock.None?
    ensures Inv(Lock(s, d), approved)
  {
    if s.execution.Terminal() { EndKeeps(s, approved, d, Stored(s.execution)); }
    else if !s.decision.Approved? || !s.execution.Queued? { EndKeeps(s, approved, d, Rejects); }
    else {
      var u := Lock(s, d);
      forall b | b in u.deliveries ensures DeliveryOk(u, approved, b, u.deliveries[b]) { assert DeliveryOk(s, approved, b, s.deliveries[b]); }
    }
  }

  lemma StepKeeps(s: State, approved: nat, step: Step)
    requires Inv(s, approved)
    ensures Inv(Apply(s, approved, step), approved)
  {
    if Enabled(s, step) {
      match step
      case Deliver =>
        var u := Apply(s, approved, step);
        forall b | b in s.deliveries ensures b != s.nextDelivery { assert DeliveryOk(s, approved, b, s.deliveries[b]); }
        forall b | b in u.deliveries ensures DeliveryOk(u, approved, b, u.deliveries[b]) {
          if b != s.nextDelivery { assert DeliveryOk(s, approved, b, s.deliveries[b]); }
        }
      case Decide(approve) =>
        var u := Apply(s, approved, step);
        forall b | b in u.deliveries ensures DeliveryOk(u, approved, b, u.deliveries[b]) { assert DeliveryOk(s, approved, b, s.deliveries[b]); }
      case OutsideEdit(to) => EditKeeps(s, approved, to);
      case TakeLock(d) => LockKeeps(s, approved, d);
      case Check(d, domainError) =>
        assert DeliveryOk(s, approved, d, s.deliveries[d]);
        NextKeeps(s, approved, d, CheckEnd(s, d, approved, domainError).deliveries[d]);
      case Execute(d, verdict) =>
        assert DeliveryOk(s, approved, d, s.deliveries[d]);
        if verdict.Broke? { EndKeeps(s, approved, d, Rejects); }
        else { NextKeeps(s, approved, d, ExecuteEnd(s, d, verdict, s.deliveries[d].edit).deliveries[d]); }
      case Breaks(d) => EndKeeps(s, approved, d, Rejects);
      case Commit(d, ok, applied) => CommitKeeps(s, approved, d, ok, applied);
    }
  }

  lemma {:induction false} RunKeeps(s: State, approved: nat, steps: seq<Step>)
    requires Inv(s, approved)
    ensures Inv(Exec(s, approved, steps), approved)
    decreases |steps|
  {
    if steps != [] {
      StepKeeps(s, approved, steps[0]);
      RunKeeps(Apply(s, approved, steps[0]), approved, steps[1..]);
    }
  }

  // ---- exactly once ----

  /** The executor mutates before it refuses. */
  predicate Leaks(step: Step) {
    step.Execute? && step.verdict.Refused? && step.verdict.partial
  }

  /** The executor never mutates before refusing: a mutation in flight or committed belongs to a success. */
  ghost predicate Clean(s: State) {
    && (s.mutations != [] ==> s.execution.Succeeded?)
    && (forall d :: d in s.deliveries && s.deliveries[d].Finishing? && s.deliveries[d].mutated.Some? ==> s.deliveries[d].outcome.Succeeded?)
  }

  lemma StepStaysClean(s: State, approved: nat, step: Step)
    requires Inv(s, approved) && Clean(s) && !Leaks(step)
    ensures Clean(Apply(s, approved, step))
  {
    if Enabled(s, step) && step.Commit? { assert DeliveryOk(s, approved, step.d, s.deliveries[step.d]); }
  }

  lemma {:induction false} RunStaysClean(s: State, approved: nat, steps: seq<Step>)
    requires Inv(s, approved) && Clean(s) && forall step :: step in steps ==> !Leaks(step)
    ensures Clean(Exec(s, approved, steps))
    decreases |steps|
  {
    if steps != [] {
      StepKeeps(s, approved, steps[0]);
      StepStaysClean(s, approved, steps[0]);
      RunStaysClean(Apply(s, approved, steps[0]), approved, steps[1..]);
    }
  }

  /**
   * Whatever is redelivered, rolled back or edited, at most one mutation ever commits; with an all-or-nothing
   * executor one commits exactly when the row becomes `succeeded` and the resource had not been removed between
   * the check and the execution of the delivery that committed.
   */
  lemma {:induction false} MutatesExactlyOnce(approved: nat, steps: seq<Step>)
    ensures var s := Exec(Init(approved), approved, steps);
            && |s.mutations| <= 1
            && ((forall step :: step in steps ==> !Leaks(step)) ==>
                  (|s.mutations| == 1 <==> s.execution.Succeeded? && s.slipped != Some(None)))
  {
    RunKeeps(Init(approved), approved, steps);
    if forall step :: step in steps ==> !Leaks(step) { RunStaysClean(Init(approved), approved, steps); }
  }

  /** The row becomes `succeeded` without a mutation exactly when the last edit that slipped in removed the resource. */
  lemma {:induction false} SucceedsWithoutMutatingIff(approved: nat, steps: seq<Step>)
    ensures var s := Exec(Init(approved), approved, steps);
            s.execution.Succeeded? && s.mutations == [] <==> s.slipped == Some(None)
  {
    RunKeeps(Init(approved), approved, steps);
  }

  /**
   * A committed mutation ran on the approved version exactly when no edit slipped in between its check and
   * itself, or the last one that did wrote the approved version back.
   */
  lemma {:induction false} MutatesWhatWasApprovedIff(approved: nat, steps: seq<Step>, i: nat)
    requires i < |Exec(Init(approved), approved, steps).mutations|
    ensures var m := Exec(Init(approved), approved, steps).mutations[i];
            m.version == approved <==> m.edit.None? || m.edit == Some(Some(approved))
  {
    RunKeeps(Init(approved), approved, steps);
  }

  // ---- terminal rows ----

  /** What a step after the terminal row may report for `d`: the stored outcome, or a failed call before it was read. */
  predicate Answers(s: State, step: Step, d: DeliveryId, report: Report) {
    report == Stored(s.execution) || (report == Rejects && step == Breaks(d))
  }

  lemma StepIsFinal(s: State, approved: nat, step: Step)
    requires Inv(s, approved) && s.execution.Terminal()
    ensures var u := Apply(s, approved, step);
            && u.execution == s.execution && u.mutations == s.mutations && u.decision == s.decision
            && (forall d :: d in s.reports && d !in s.deliveries ==> d in u.reports && u.reports[d] == s.reports[d])
            && (forall d :: d in u.reports && d !in s.reports ==> Answers(s, step, d, u.reports[d]))
  {
    if Enabled(s, step) {
      forall d | d in s.deliveries ensures !s.deliveries[d].Holds() { assert DeliveryOk(s, approved, d, s.deliveries[d]); }
    }
  }

  /** Deliveries that have reported are over. */
  ghost predicate Over(s: State) {
    forall d :: d in s.reports ==> d < s.nextDelivery && d !in s.deliveries
  }

  lemma EndedIsOver(s: State, d: DeliveryId, report: Report)
    requires Over(s) && d in s.deliveries && d < s.nextDelivery
    ensures Over(End(s, d, report))
  {
  }

  lemma StepLeavesOver(s: State, approved: nat, step: Step)
    requires Inv(s, approved) && Over(s)
    ensures Over(Apply(s, approved, step))
  {
    if Enabled(s, step) {
      forall d | d in s.deliveries ensures d < s.nextDelivery { assert DeliveryOk(s, approved, d, s.deliveries[d]); }
      match step
      case TakeLock(d) => EndedIsOver(s, d, Stored(s.execution)); EndedIsOver(s, d, Rejects);
      case Execute(d, verdict) => EndedIsOver(s, d, Rejects);
      case Breaks(d) => EndedIsOver(s, d, Rejects);
      case Commit(d, ok, applied) => CommittedIsOver(s, d, ok, applied);
      case _ =>
    }
  }

  lemma CommittedIsOver(s: State, d: DeliveryId, ok: bool, applied: bool)
    requires Over(s) && d in s.deliveries && d < s.nextDelivery && s.deliveries[d].Finishing?
    ensures Over(CommitEnd(s, d, s.deliveries[d], ok, applied))
  {
  }

  lemma {:induction false} ReportedAreOver(s: State, approved: nat, steps: seq<Step>)
    requires Inv(s, approved) && Over(s)
    ensures Over(Exec(s, approved, steps))
    decreases |steps|
  {
    if steps != [] {
      StepKeeps(s, approved, steps[0]);
      StepLeavesOver(s, approved, steps[0]);
      ReportedAreOver(Apply(s, approved, steps[0]), approved, steps[1..]);
    }
  }

  lemma {:induction false} FinalFrom(s: State, approved: nat, steps: seq<Step>)
    requires Inv(s, approved) && Over(s) && s.execution.Terminal()
    ensures var u := Exec(s, approved, steps);
            && u.execution == s.execution && u.mutations == s.mutations
            && (forall d :: d in s.reports ==> d in u.reports && u.reports[d] == s.reports[d])
            && (forall d :: d in u.reports && d !in s.reports ==>
                  u.reports[d] == Stored(s.execution) || (u.reports[d] == Rejects && Breaks(d) in steps))
    decreases |steps|
  {
    if steps != [] {
      var t := Apply(s, approved, steps[0]);
      StepKeeps(s, approved, steps[0]);
      StepIsFinal(s, approved, steps[0]);
      StepLeavesOver(s, approved, steps[0]);
      FinalFrom(t, approved, steps[1..]);
    }
  }

  /**
   * Once a run has made the row terminal, no delivery changes its outcome or mutates anything more, and each one
   * that ends afterwards reports the stored outcome, unless its own calls fail before it has read it.
   */
  lemma {:induction false} TerminalIsFinal(approved: nat, before: seq<Step>, after: seq<Step>)
    requires Exec(Init(approved), approved, before).execution.Terminal()
    ensures var s := Exec(Init(approved), approved, before); var u := Exec(s, approved, after);
            && u.execution == s.execution && u.mutations == s.mutations
            && (forall d :: d in s.reports ==> d in u.reports && u.reports[d] == s.reports[d])
            && (forall d :: d in u.reports && d !in s.reports ==>
                  u.reports[d] == Stored(s.execution) || (u.reports[d] == Rejects && Breaks(d) in after))
  {
    RunKeeps(Init(approved), approved, before);
    ReportedAreOver(Init(approved), approved, before);
    FinalFrom(Exec(Init(approved), approved, before), approved, after);
  }

  // ---- one delivery on its own ----

  /** A delivery's check, execution and commit with nothing in between; a conflict found by the check is not executed. */
  function Alone(s: State, approved: nat, d: DeliveryId, domainError: Option<nat>, verdict: Verdict): State {
    var checked := Apply(s, approved, Check(d, domainError));
    Apply(Apply(checked, approved, Execute(d, verdict)), approved, Commit(d, true, true))
  }

  lemma RefusedAlone(s: State, approved: nat, d: DeliveryId, domainError: Option<nat>, verdict: Verdict)
    requires d in s.deliveries && s.deliveries[d].Locked? && (domainError.Some? || s.resource != Some(approved))
    ensures var u := Alone(s, approved, d, domainError, verdict);
            && u.execution == Conflict(if domainError.Some? then domainError.value else 0)
            && u.resource == s.resource && u.mutations == s.mutations
            && u.reports == s.reports[d := Stored(u.execution)]
  {
  }

  lemma RunAlone(s: State, approved: nat, d: DeliveryId, verdict: Verdict)
    requires d in s.deliveries && s.deliveries[d].Locked? && s.resource == Some(approved)
    ensures var u := Alone(s, approved, d, None, verdict);
            match verdict
            case Ran(result) =>
              u.execution == Succeeded(result) && u.resource.None? && u.mutations == s.mutations + [Mutation(approved, None)]
              && u.reports == s.reports[d := Stored(Succeeded(result))]
            case Refused(reason, partial) =>
              u.execution == Conflict(reason) && (!partial ==> u.resource == s.resource && u.mutations == s.mutations)
              && u.reports == s.reports[d := Stored(Conflict(reason))]
            case Broke =>
              u.execution == s.execution && u.resource == s.resource && u.mutations == s.mutations
              && u.reports == s.reports[d := Rejects]
  {
  }

  /**
   * Whatever happened before, a delivery that takes the row's lock and then runs undisturbed does what was approved:
   * the operation runs once on the approved version and its result is stored. A changed resource, a domain error or a
   * refusal is stored as a conflict, and a broken executor leaves the row queued. A row that is not approved and queued
   * never gets that far.
   */
  lemma {:induction false} UndisturbedReplay(approved: nat, steps: seq<Step>, d: DeliveryId, domainError: Option<nat>, verdict: Verdict)
    requires Enabled(Exec(Init(approved), approved, steps), TakeLock(d))
    ensures var s := Exec(Init(approved), approved, steps);
            var locked := Apply(s, approved, TakeLock(d));
            var u := Alone(locked, approved, d, domainError, verdict);
            if s.execution.Terminal() then locked.reports == s.reports[d := Stored(s.execution)] && d !in locked.deliveries
            else if !s.decision.Approved? || !s.execution.Queued? then locked.reports == s.reports[d := Rejects] && d !in locked.deliveries
            else if domainError.Some? || s.resource != Some(approved)
            then u.execution == Conflict(if domainError.Some? then domainError.value else 0) && u.mutations == s.mutations
                 && u.reports == s.reports[d := Stored(u.execution)]
            else
              && (verdict.Ran? ==> u.execution == Succeeded(verdict.result) && u.mutations == [Mutation(approved, None)])
              && (verdict.Refused? ==> u.execution == Conflict(verdict.reason))
              && (verdict.Broke? ==> u.execution.Queued? && u.mutations == [])
              && u.reports == s.reports[d := if verdict.Broke? then Rejects else Stored(u.execution)]
  {
    RunKeeps(Init(approved), approved, steps);
    var s := Exec(Init(approved), approved, steps);
    var locked := Apply(s, approved, TakeLock(d));
    if !s.execution.Terminal() && s.decision.Approved? && s.execution.Queued? {
      if domainError.Some? || s.resource != Some(approved) {
        RefusedAlone(locked, approved, d, domainError, verdict);
      } else {
        RunAlone(locked, approved, d, verdict);
      }
    }
  }

  // ---- the check does not lock the resource ----

  /** The deliveries of one approved request, up to its check. */
  lemma ApprovedAndChecked(approved: nat) returns (s: State)
    ensures s == Apply(Apply(Apply(Apply(Init(approved), approved, Decide(true)), approved, Deliver), approved, TakeLock(0)), approved, Check(0, None))
    ensures s.deliveries == map[0 := Checked(None)] && s.lock == Some(0) && s.mutations == [] && s.execution.Queued?
  {
    var a := Apply(Init(approved), approved, Decide(true));
    var b := Apply(a, approved, Deliver);
    assert b.deliveries == map[0 := Waiting] && b.execution.Queued? && b.decision.Approved?;
    var c := Apply(b, approved, TakeLock(0));
    assert c.deliveries == map[0 := Locked];
    s := Apply(c, approved, Check(0, None));
  }

  lemma {:induction false} Unroll(s: State, approved: nat, step: Step, rest: seq<Step>)
    ensures Exec(s, approved, [step] + rest) == Exec(Apply(s, approved, step), approved, rest)
  {
    assert ([step] + rest)[1..] == rest;
  }

  /** What replaying on after an edit to `to` has slipped in leads to. */
  predicate SlippedTo(s: State, to: Option<nat>) {
    && s.execution.Succeeded? && s.slipped == Some(to)
    && s.mutations == if to.Some? then [Mutation(to.value, Some(to))] else []
  }

  lemma SlippedEdit(s: State, approved: nat, to: Option<nat>)
    requires s.deliveries == map[0 := Checked(None)] && s.lock == Some(0) && s.mutations == [] && s.execution.Queued?
    ensures SlippedTo(Apply(Apply(Apply(s, approved, OutsideEdit(to)), approved, Execute(0, Ran(7))), approved, Commit(0, true, true)), to)
  {
    var e := Apply(s, approved, OutsideEdit(to));
    assert e.deliveries == map[0 := Checked(Some(to))] && e.resource == to;
    var x := Apply(e, approved, Execute(0, Ran(7)));
    assert x.deliveries[0] == Finishing(Succeeded(7), to, Some(to));
  }

  lemma RunWithEdit(approved: nat, to: Option<nat>) returns (steps: seq<Step>)
    ensures SlippedTo(Exec(Init(approved), approved, steps), to)
  {
    var s := ApprovedAndChecked(approved);
    SlippedEdit(s, approved, to);
    var tail := [OutsideEdit(to)] + ([Execute(0, Ran(7))] + ([Commit(0, true, true)] + []));
    steps := [Decide(true)] + ([Deliver] + ([TakeLock(0)] + ([Check(0, None)] + tail)));
    Unroll(Init(approved), approved, Decide(true), [Deliver] + ([TakeLock(0)] + ([Check(0, None)] + tail)));
    var a := Apply(Init(approved), approved, Decide(true));
    Unroll(a, approved, Deliver, [TakeLock(0)] + ([Check(0, None)] + tail));
    var b := Apply(a, approved, Deliver);
    Unroll(b, approved, TakeLock(0), [Check(0, None)] + tail);
    Unroll(Apply(b, approved, TakeLock(0)), approved, Check(0, None), tail);
    TailRuns(s, approved, to, tail);
  }

  lemma {:induction false} TailRuns(s: State, approved: nat, to: Option<nat>, tail: seq<Step>)
    requires tail == [OutsideEdit(to)] + ([Execute(0, Ran(7))] + ([Commit(0, true, true)] + []))
    ensures Exec(s, approved, tail) ==
            Apply(Apply(Apply(s, approved, OutsideEdit(to)), approved, Execute(0, Ran(7))), approved, Commit(0, true, true))
  {
    Unroll(s, approved, OutsideEdit(to), [Execute(0, Ran(7))] + ([Commit(0, true, true)] + []));
    var e := Apply(s, approved, OutsideEdit(to));
    Unroll(e, approved, Execute(0, Ran(7)), [Commit(0, true, true)] + []);
    Unroll(Apply(e, approved, Execute(0, Ran(7))), approved, Commit(0, true, true), []);
  }

  /** An edit that commits between the check and the mutation is mutated although nobody approved that version. */
  lemma EditCanSlipIn(approved: nat, later: nat) returns (steps: seq<Step>)
    requires later != approved
    ensures var s := Exec(Init(approved), approved, steps);
            s.execution.Succeeded? && |s.mutations| == 1 && s.mutations[0].version == later != approved
  {
    steps := RunWithEdit(approved, Some(later));
  }

  /** A removal that commits between the check and the execution leaves the row `succeeded` with nothing mutated. */
  lemma RemovalCanSlipIn(approved: nat) returns (steps: seq<Step>)
    ensures var s := Exec(Init(approved), approved, steps); s.execution.Succeeded? && s.mutations == []
  {
    steps := RunWithEdit(approved, None);
  }

  // ---- as the source runs it ----

  class ApprovedOperationExecutor {
    const approved: nat
    var decision: Decision
    var execution: Execution
    var resource: Option<nat>
    ghost var mutations: nat

    constructor (approved: nat)
      ensures this.approved == approved && decision == Undecided && execution == NotQueued && resource == Some(approved) && mutations == 0
    {
      this.approved, decision, execution, resource, mutations := approved, Undecided, NotQueued, Some(approved), 0;
    }

    /** The check passes: no domain error, and the resource is the approved one. */
    predicate Clean(domainError: Option<nat>)
      reads this
    {
      domainError.None? && resource == Some(approved)
    }

    /** The executor mutates: it runs, or refuses only after it has. */
    predicate Mutates(domainError: Option<nat>, verdict: Verdict)
      reads this
    {
      Clean(domainError) && (verdict.Ran? || (verdict.Refused? && verdict.partial))
    }

    /** The transaction's body: how it leaves the row, or `None` for a throw. */
    method RevalidateAndRun(domainError: Option<nat>, verdict: Verdict) returns (outcome: Option<Execution>)
      modifies this`resource, this`mutations
      ensures resource == (if old(Mutates(domainError, verdict)) then None else old(resource))
      ensures mutations == old(mutations) + (if old(Mutates(domainError, verdict)) then 1 else 0)
      ensures outcome.None? <==> old(Clean(domainError)) && verdict.Broke?
      ensures old(Clean(domainError)) && verdict.Ran? ==> outcome == Some(Succeeded(verdict.result))
      ensures old(Clean(domainError)) && verdict.Refused? ==> outcome == Some(Conflict(verdict.reason))
      ensures !old(Clean(domainError)) ==> outcome == Some(Conflict(if domainError.Some? then domainError.value else 0))
    {
      if domainError.Some? { return Some(Conflict(domainError.value)); }
      if resource != Some(approved) { return Some(Conflict(0)); }
      match verdict
      case Ran(result) =>
        resource, mutations := None, mutations + 1;
        outcome := Some(Succeeded(result));
      case Refused(reason, partial) =>
        if partial { resource, mutations := None, mutations + 1; }
        outcome := Some(Conflict(reason));
      case Broke => outcome := None;
    }

    /** An approved, queued row whose transaction commits. */
    predicate Replayable(commits: bool)
      reads this
    {
      decision.Approved? && execution.Queued? && commits
    }

    /** `replayApprovedGenericOperation`, undisturbed; `commits` is whether its transaction commits. */
    method Replay(domainError: Option<nat>, verdict: Verdict, commits: bool) returns (report: Report)
      modifies this
      ensures decision == old(decision)
      ensures old(execution).Terminal() ==> report == Stored(old(execution))
      ensures !old(execution).Terminal() ==> (report == Rejects <==> !old(Replayable(commits)) || (old(Clean(domainError)) && verdict.Broke?))
      ensures old(execution).Terminal() || report == Rejects ==>
                execution == old(execution) && resource == old(resource) && mutations == old(mutations)
      ensures report.Stored? ==> report.outcome == execution && execution.Terminal()
      ensures old(Replayable(commits)) && old(Clean(domainError)) && verdict.Ran? ==>
                report == Stored(Succeeded(verdict.result)) && resource == None && mutations == old(mutations) + 1
      ensures old(Replayable(commits)) && old(Clean(domainError)) && verdict.Refused? ==>
                && report == Stored(Conflict(verdict.reason))
                && resource == (if verdict.partial then None else old(resource))
                && mutations == old(mutations) + (if verdict.partial then 1 else 0)
      ensures old(Replayable(commits)) && !old(Clean(domainError)) ==>
                && report == Stored(Conflict(if domainError.Some? then domainError.value else 0))
                && resource == old(resource) && mutations == old(mutations)
    {
      if execution.Terminal() { return Stored(execution); }
      if !decision.Approved? || !execution.Queued? { return Rejects; }
      var row, there := execution, resource;
      ghost var count := mutations;
      var outcome := RevalidateAndRun(domainError, verdict);
      if outcome.None? || !commits {
        execution, resource := row, there;
        mutations := count;
        return Rejects;
      }
      execution := outcome.value;
      return Stored(execution);
    }
  }
}
