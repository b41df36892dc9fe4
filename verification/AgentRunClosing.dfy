/**
 * One `agent_runs` row under duplicate jobs, failing sessions and startup repair. A transaction locks the row,
 * decides from its committed status, and commits or not; every commit may also take effect although its call
 * throws.
 */
module AgentRunClosing {
  import opened Ordering

  datatype Status = Running | Done | Error

  type JobId = nat

  /** Where a job is suspended; `Claiming` and `Closing` hold the row's lock and know what they saw under it. */
  datatype Job =
    | Reading
    | Composing
    | ClaimWaiting
    | Claiming(found: bool)
    | InSession
    | CloseWaiting(want: Status, retry: bool, announce: bool)
    | Closing(want: Status, retry: bool, announce: bool, won: bool)
  {
    predicate Holds() { Claiming? || Closing? }
  }

  /** `events` are the run's committed `run_status` events. */
  datatype State = State(status: Status, events: seq<Status>, jobs: map<JobId, Job>, nextJob: nat, lock: Option<JobId>)

  datatype Step =
    | Redeliver
    | Repair
    | Read(j: JobId)
    | Composed(j: JobId, ok: bool)
    | TakeLock(j: JobId)
    | ClaimEnds(j: JobId, ok: bool, applied: bool)
    | SessionEnds(j: JobId, ok: bool)
    | CloseEnds(j: JobId, ok: bool, applied: bool)

  const Init := State(Running, [], map[], 0, None)

  function Next(s: State, j: JobId, job: Job): State {
    s.(jobs := s.jobs[j := job])
  }

  function End(s: State, j: JobId): State {
    s.(jobs := s.jobs - {j})
  }

  function Start(s: State, job: Job): State {
    s.(jobs := s.jobs[s.nextJob := job], nextJob := s.nextJob + 1)
  }

  predicate Enabled(s: State, step: Step) {
    match step
    case Redeliver => true
    case Repair => true
    case Read(j) => j in s.jobs && s.jobs[j].Reading?
    case Composed(j, _) => j in s.jobs && s.jobs[j].Composing?
    case TakeLock(j) => j in s.jobs && (s.jobs[j].ClaimWaiting? || s.jobs[j].CloseWaiting?) && s.lock.None?
    case ClaimEnds(j, _, _) => j in s.jobs && s.jobs[j].Claiming?
    case SessionEnds(j, _) => j in s.jobs && s.jobs[j].InSession?
    case CloseEnds(j, _, _) => j in s.jobs && s.jobs[j].Closing?
  }

  function Lock(s: State, j: JobId, job: Job): State {
    Next(s, j, if job.CloseWaiting? then Closing(job.want, job.retry, job.announce, s.status.Running?) else Claiming(s.status.Running?))
      .(lock := Some(j))
  }

  /** `claimRunningRun` commits its `running` event, or its transaction is rolled back. */
  function ClaimEnd(s: State, j: JobId, found: bool, ok: bool, applied: bool): State {
    var s1 := s.(lock := None, events := if found && (ok || applied) then s.events + [Running] else s.events);
    if found && ok then Next(s1, j, InSession) else End(s1, j)
  }

  /** A close commits the status and its event together; a failed `done` close falls back to an `error` one. */
  function CloseEnd(s: State, j: JobId, job: Job, ok: bool, applied: bool): State
    requires job.Closing?
  {
    var takes := job.won && (ok || applied);
    var s1 := s.(lock := None, status := if takes then job.want else s.status,
                 events := if takes && job.announce then s.events + [job.want] else s.events);
    if !ok && job.retry then Next(s1, j, CloseWaiting(Error, false, true)) else End(s1, j)
  }

  function Apply(s: State, step: Step): State {
    if !Enabled(s, step) then s
    else
      match step
      case Redeliver => Start(s, Reading)
      case Repair => Start(s, CloseWaiting(Error, false, false))
      case Read(j) => if s.status.Running? then Next(s, j, Composing) else End(s, j)
      case Composed(j, ok) => Next(s, j, if ok then ClaimWaiting else CloseWaiting(Error, false, true))
      case TakeLock(j) => Lock(s, j, s.jobs[j])
      case ClaimEnds(j, ok, applied) => ClaimEnd(s, j, s.jobs[j].found, ok, applied)
      case SessionEnds(j, ok) => Next(s, j, if ok then CloseWaiting(Done, true, true) else CloseWaiting(Error, false, true))
      case CloseEnds(j, ok, applied) => CloseEnd(s, j, s.jobs[j], ok, applied)
  }

  function Exec(s: State, steps: seq<Step>): State
    decreases |steps|
  {
    if steps == [] then s else Exec(Apply(s, steps[0]), steps[1..])
  }

  // ---- invariant ----

  predicate JobOk(s: State, j: JobId, job: Job) {
    && j < s.nextJob && (job.Holds() <==> s.lock == Some(j))
    && (job.Claiming? ==> job.found == s.status.Running?)
    && (job.Closing? ==> job.won == s.status.Running?)
    && (job.CloseWaiting? || job.Closing? ==> !job.want.Running?)
  }

  /** Only `running` events, then at most one terminal event, which is the row's status. */
  predicate EventsOk(status: Status, events: seq<Status>) {
    && (forall i :: 0 <= i < |events| - 1 ==> events[i].Running?)
    && (events != [] && !events[|events| - 1].Running? ==> events[|events| - 1] == status)
  }

  ghost predicate Inv(s: State) {
    && EventsOk(s.status, s.events)
    && (forall j :: j in s.jobs ==> JobOk(s, j, s.jobs[j]))
    && (s.lock.Some? ==> s.lock.value in s.jobs)
  }

  lemma StepKeeps(s: State, step: Step)
    requires Inv(s)
    ensures Inv(Apply(s, step))
  {
    if Enabled(s, step) {
      match step
      case TakeLock(j) => assert JobOk(s, j, s.jobs[j]);
      case ClaimEnds(j, ok, applied) => ClaimKeeps(s, j, ok, applied);
      case CloseEnds(j, ok, applied) => CloseKeeps(s, j, ok, applied);
      case Redeliver => forall j | j in s.jobs ensures j != s.nextJob { assert JobOk(s, j, s.jobs[j]); }
      case Repair => forall j | j in s.jobs ensures j != s.nextJob { assert JobOk(s, j, s.jobs[j]); }
      case _ =>
    }
  }

  lemma ClaimKeeps(s: State, j: JobId, ok: bool, applied: bool)
    requires Inv(s) && j in s.jobs && s.jobs[j].Claiming?
    ensures Inv(ClaimEnd(s, j, s.jobs[j].found, ok, applied))
  {
    assert JobOk(s, j, s.jobs[j]);
    var u := ClaimEnd(s, j, s.jobs[j].found, ok, applied);
    forall b | b in u.jobs ensures JobOk(u, b, u.jobs[b]) { assert JobOk(s, b, s.jobs[b]); }
  }

  lemma CloseKeeps(s: State, j: JobId, ok: bool, applied: bool)
    requires Inv(s) && j in s.jobs && s.jobs[j].Closing?
    ensures Inv(CloseEnd(s, j, s.jobs[j], ok, applied))
  {
    assert JobOk(s, j, s.jobs[j]);
    var u := CloseEnd(s, j, s.jobs[j], ok, applied);
    forall b | b in u.jobs ensures JobOk(u, b, u.jobs[b]) { assert JobOk(s, b, s.jobs[b]); }
  }

  lemma {:induction false} RunKeeps(s: State, steps: seq<Step>)
    requires Inv(s)
    ensures Inv(Exec(s, steps))
    decreases |steps|
  {
    if steps != [] {
      StepKeeps(s, steps[0]);
      RunKeeps(Apply(s, steps[0]), steps[1..]);
    }
  }

  // ---- what is guaranteed ----

  /** At most one terminal event commits, it is the row's status, and no event of any kind follows it. */
  lemma {:induction false} OneTerminalEvent(steps: seq<Step>, i: nat)
    requires i < |Exec(Init, steps).events| && !Exec(Init, steps).events[i].Running?
    ensures var s := Exec(Init, steps);
            i == |s.events| - 1 && s.events[i] == s.status && forall k :: 0 <= k < i ==> s.events[k].Running?
  {
    RunKeeps(Init, steps);
  }

  /** Once the row has left `running`, its status and its events are final. */
  ghost predicate Final(s: State, u: State) {
    !s.status.Running? ==> u.status == s.status && u.events == s.events
  }

  lemma StepIsFinal(s: State, step: Step)
    requires Inv(s)
    ensures Final(s, Apply(s, step)) && s.events <= Apply(s, step).events
  {
    if Enabled(s, step) {
      match step
      case ClaimEnds(j, ok, applied) => assert JobOk(s, j, s.jobs[j]);
      case CloseEnds(j, ok, applied) => assert JobOk(s, j, s.jobs[j]);
      case _ =>
    }
  }

  lemma {:induction false} RunIsFinal(s: State, steps: seq<Step>)
    requires Inv(s)
    ensures Final(s, Exec(s, steps)) && s.events <= Exec(s, steps).events
    decreases |steps|
  {
    if steps != [] {
      StepKeeps(s, steps[0]);
      StepIsFinal(s, steps[0]);
      RunIsFinal(Apply(s, steps[0]), steps[1..]);
    }
  }

  lemma {:induction false} ExecAppend(s: State, steps: seq<Step>, more: seq<Step>)
    ensures Exec(s, steps + more) == Exec(Exec(s, steps), more)
    decreases |steps|
  {
    if steps == [] {
      assert steps + more == more;
    } else {
      assert (steps + more)[1..] == steps[1..] + more;
      ExecAppend(Apply(s, steps[0]), steps[1..], more);
    }
  }

  /** The row leaves `running` at most once: whatever happens later, neither its status nor its events change. */
  lemma {:induction false} ClosedStaysClosed(steps: seq<Step>, more: seq<Step>)
    requires !Exec(Init, steps).status.Running?
    ensures Exec(Init, steps + more).status == Exec(Init, steps).status
    ensures Exec(Init, steps + more).events == Exec(Init, steps).events
  {
    RunKeeps(Init, steps);
    ExecAppend(Init, steps, more);
    RunIsFinal(Exec(Init, steps), more);
  }

  /** A close that returns wrote its status and its event together, or found the row closed and wrote nothing. */
  lemma {:induction false} CloseIsAllOrNothing(steps: seq<Step>, j: JobId, applied: bool)
    requires var s := Exec(Init, steps); j in s.jobs && s.jobs[j].Closing? && s.jobs[j].announce
    ensures var s, u := Exec(Init, steps), Exec(Init, steps + [CloseEnds(j, true, applied)]);
            if s.status.Running? then u.status == s.jobs[j].want && u.events == s.events + [u.status] && !u.status.Running?
            else u.status == s.status && u.events == s.events
  {
    RunKeeps(Init, steps);
    ExecAppend(Init, steps, [CloseEnds(j, true, applied)]);
    assert [CloseEnds(j, true, applied)][1..] == [];
    assert JobOk(Exec(Init, steps), j, Exec(Init, steps).jobs[j]);
  }

  /** A claim that returns stored its `running` event and starts the session, or found the row closed and wrote nothing. */
  lemma {:induction false} ClaimIsAllOrNothing(steps: seq<Step>, j: JobId, applied: bool)
    requires var s := Exec(Init, steps); j in s.jobs && s.jobs[j].Claiming?
    ensures var s := Exec(Init, steps);
            var u := Apply(s, ClaimEnds(j, true, applied));
            && u.status == s.status
            && (if s.status.Running? then u.events == s.events + [Running] && u.jobs == s.jobs[j := InSession]
                else u.events == s.events && u.jobs == s.jobs - {j})
  {
    RunKeeps(Init, steps);
    assert JobOk(Exec(Init, steps), j, Exec(Init, steps).jobs[j]);
  }

  /** Job `j` takes the free lock and its close answers. */
  function Recorded(s: State, j: JobId, ok: bool): State {
    Apply(Apply(s, TakeLock(j)), CloseEnds(j, ok, false))
  }

  /**
   * A session's end is recorded on a row that is still `running`: `done` when it succeeded, and `error` when it
   * failed or its `done` close was rolled back and the fallback answers.
   */
  lemma {:induction false} SessionIsRecorded(steps: seq<Step>, j: JobId, ok: bool)
    requires var s := Exec(Init, steps); j in s.jobs && s.jobs[j].InSession? && s.lock.None? && s.status.Running?
    ensures var s := Exec(Init, steps);
            var ended := Apply(s, SessionEnds(j, ok));
            var first := Recorded(ended, j, true);
            && first.status == (if ok then Done else Error) && first.events == s.events + [first.status]
            && first.jobs == s.jobs - {j} && first.lock.None?
            && (ok ==>
                  var fallback := Recorded(Recorded(ended, j, false), j, true);
                  fallback.status == Error && fallback.events == s.events + [Error] && fallback.jobs == s.jobs - {j})
  {
  }

  /** A redelivered job reads the row and composes its session, with nothing in between. */
  function Delivered(s: State, composes: bool): State {
    Apply(Apply(Apply(s, Redeliver), Read(s.nextJob)), Composed(s.nextJob, composes))
  }

  /**
   * After any run, a delivery that finds the row `running` and is then undisturbed claims it, announces it and has its
   * session, or closes it as `error` when the session cannot be composed; one that finds the row closed does nothing.
   */
  lemma {:induction false} UndisturbedDelivery(steps: seq<Step>, composes: bool)
    requires Exec(Init, steps).lock.None?
    ensures var s := Exec(Init, steps);
            var j, u := s.nextJob, Delivered(s, composes);
            var claimed := Apply(Apply(u, TakeLock(j)), ClaimEnds(j, true, true));
            if !s.status.Running? then u.jobs == s.jobs && u.status == s.status && u.events == s.events
            else if composes then claimed.jobs == s.jobs[j := InSession] && claimed.status == s.status && claimed.events == s.events + [Running]
            else
              var failed := Recorded(u, j, true);
              failed.jobs == s.jobs && failed.status == Error && failed.events == s.events + [Error]
  {
    RunKeeps(Init, steps);
    var s := Exec(Init, steps);
    assert s.nextJob !in s.jobs by {
      forall b | b in s.jobs ensures b < s.nextJob { assert JobOk(s, b, s.jobs[b]); }
    }
    assert s.jobs[s.nextJob := Reading] - {s.nextJob} == s.jobs;
    assert s.jobs[s.nextJob := Closing(Error, false, true, true)] - {s.nextJob} == s.jobs;
  }

  /** A step after which the row may become `error`. */
  predicate Spoils(step: Step) {
    step.Repair? || (step.Composed? && !step.ok) || (step.SessionEnds? && !step.ok) || (step.CloseEnds? && !step.ok)
  }

  /** Whatever is recorded, or on its way to be, has a cause among the steps that ran. */
  ghost predicate Caused(s: State, succeeded: bool, spoiled: bool) {
    && (s.status.Done? ==> succeeded) && (s.status.Error? ==> spoiled)
    && (forall j :: j in s.jobs && (s.jobs[j].CloseWaiting? || s.jobs[j].Closing?) ==>
          (s.jobs[j].want.Done? ==> succeeded) && (s.jobs[j].want.Error? ==> spoiled))
  }

  lemma StepCauses(s: State, step: Step, succeeded: bool, spoiled: bool)
    requires Caused(s, succeeded, spoiled)
    ensures Caused(Apply(s, step), succeeded || (step.SessionEnds? && step.ok), spoiled || Spoils(step))
  {
  }

  lemma {:induction false} StaysCaused(s: State, steps: seq<Step>, succeeded: bool, spoiled: bool)
    requires Caused(s, succeeded, spoiled)
    ensures Caused(Exec(s, steps), succeeded || (exists step :: step in steps && step.SessionEnds? && step.ok),
                   spoiled || (exists step :: step in steps && Spoils(step)))
    decreases |steps|
  {
    if steps != [] {
      assert steps[0] in steps;
      StepCauses(s, steps[0], succeeded, spoiled);
      StaysCaused(Apply(s, steps[0]), steps[1..], succeeded || (steps[0].SessionEnds? && steps[0].ok), spoiled || Spoils(steps[0]));
    }
  }

  /** A row is `done` only if a session succeeded, and `error` only if something failed or startup repair closed it. */
  lemma {:induction false} StatusHasACause(steps: seq<Step>)
    ensures Exec(Init, steps).status.Done? ==> exists step :: step in steps && step.SessionEnds? && step.ok
    ensures Exec(Init, steps).status.Error? ==> exists step :: step in steps && Spoils(step)
  {
    StaysCaused(Init, steps, false, false);
  }

  /** Without startup repair, a row is closed exactly when its terminal event is there. */
  lemma {:induction false} ClosedIffAnnounced(s: State, steps: seq<Step>)
    requires Inv(s) && Announced(s) && forall step :: step in steps ==> !step.Repair?
    ensures Announced(Exec(s, steps))
    decreases |steps|
  {
    if steps != [] {
      StepKeeps(s, steps[0]);
      StepAnnounces(s, steps[0]);
      ClosedIffAnnounced(Apply(s, steps[0]), steps[1..]);
    }
  }

  /** Every close in flight announces itself, and the row is closed exactly when its last event is terminal. */
  ghost predicate Announced(s: State) {
    && (forall j :: j in s.jobs && (s.jobs[j].CloseWaiting? || s.jobs[j].Closing?) ==> s.jobs[j].announce)
    && (!s.status.Running? <==> s.events != [] && !s.events[|s.events| - 1].Running?)
  }

  lemma StepAnnounces(s: State, step: Step)
    requires Inv(s) && Announced(s) && !step.Repair?
    ensures Announced(Apply(s, step))
  {
    if Enabled(s, step) {
      match step
      case ClaimEnds(j, ok, applied) => assert JobOk(s, j, s.jobs[j]);
      case CloseEnds(j, ok, applied) => assert JobOk(s, j, s.jobs[j]);
      case _ =>
    }
  }

  /** Without startup repair in between, a poller finds the row closed exactly when its terminal event is stored. */
  lemma {:induction false} RowAndEventAgree(steps: seq<Step>)
    requires forall step :: step in steps ==> !step.Repair?
    ensures var s := Exec(Init, steps);
            !s.status.Running? <==> s.events != [] && !s.events[|s.events| - 1].Running?
  {
    ClosedIffAnnounced(Init, steps);
  }

  // ---- as the source runs it ----

  class AgentRunRow {
    var status: Status
    var events: seq<Status>

    constructor ()
      ensures status == Running && events == []
    {
      status, events := Running, [];
    }

    /** `claimRunningRun`: one transaction, under the row's lock. */
    method ClaimRunningRun() returns (claimed: bool)
      modifies this`events
      ensures claimed == status.Running?
      ensures events == if claimed then old(events) + [Running] else old(events)
    {
      if !status.Running? { return false; }
      events := events + [Running];
      return true;
    }

    /** `finishAgentRun` or its error twin: whether this call closed the row. */
    method FinishAgentRun(want: Status) returns (closed: bool)
      requires !want.Running?
      modifies this`status
      ensures closed == old(status).Running?
      ensures status == if closed then want else old(status)
    {
      if status.Running? { status := want; closed := true; } else { closed := false; }
    }

    /** One close: the status and its event commit together, unless another closer decided first or it rolls back. */
    method CloseAtomically(want: Status, commits: bool) returns (threw: bool)
      requires EventsOk(status, events) && !want.Running?
      modifies this
      ensures threw == !commits
      ensures EventsOk(status, events)
      ensures commits && old(status).Running? ==> status == want && events == old(events) + [want]
      ensures !(commits && old(status).Running?) ==> status == old(status) && events == old(events)
    {
      var before, logged := status, events;
      var closed := FinishAgentRun(want);
      if closed { events := events + [want]; }
      if !commits {
        status, events := before, logged;
        return true;
      }
      return false;
    }

    /** The session's end: `done`, or `error` when the session or its first close failed. */
    method EndSession(ok: bool, firstCommits: bool, secondCommits: bool) returns (threw: bool)
      requires EventsOk(status, events)
      modifies this
      ensures EventsOk(status, events) && threw == !(ok && firstCommits)
      ensures !old(status).Running? ==> status == old(status) && events == old(events)
      ensures old(status).Running? ==>
                if ok && firstCommits then status == Done && events == old(events) + [Done]
                else if secondCommits then status == Error && events == old(events) + [Error]
                else status == Running && events == old(events)
    {
      if ok {
        threw := CloseAtomically(Done, firstCommits);
        if !threw { return; }
      }
      var lost := CloseAtomically(Error, secondCommits);
      return true;
    }
  }
}
