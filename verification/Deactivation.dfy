/** Deactivating a tenant while its jobs register and its sockets are still being upgraded. */
module Deactivation {
  import opened Ordering

  type Tenant = nat
  type ControllerId = nat
  type SocketId = nat
  type UpgradeId = nat

  // ---- in-flight agent runs ----

  /** The registry as a value: controllers by tenant, and those whose signal was aborted. */
  datatype Runs = Runs(byTenant: map<Tenant, set<ControllerId>>, aborted: set<ControllerId>)

  function Of(r: Runs, t: Tenant): set<ControllerId> {
    if t in r.byTenant then r.byTenant[t] else {}
  }

  function Registered(r: Runs, t: Tenant, c: ControllerId): Runs {
    r.(byTenant := r.byTenant[t := Of(r, t) + {c}])
  }

  function Unregistered(r: Runs, t: Tenant, c: ControllerId): Runs {
    if t !in r.byTenant then r
    else if r.byTenant[t] - {c} == {} then r.(byTenant := r.byTenant - {t})
    else r.(byTenant := r.byTenant[t := r.byTenant[t] - {c}])
  }

  function AbortAll(r: Runs, t: Tenant): Runs {
    r.(aborted := r.aborted + Of(r, t))
  }

  class InFlightAgentRuns {
    var byTenant: map<Tenant, set<ControllerId>>
    var aborted: set<ControllerId>

    ghost function View(): Runs
      reads this
    {
      Runs(byTenant, aborted)
    }

    constructor ()
      ensures View() == Runs(map[], {})
    {
      byTenant, aborted := map[], {};
    }

    method Register(t: Tenant, c: ControllerId)
      modifies this`byTenant
      ensures View() == Registered(old(View()), t, c)
      ensures Of(View(), t) == Of(old(View()), t) + {c} && forall u :: u != t ==> Of(View(), u) == Of(old(View()), u)
    {
      if t !in byTenant { byTenant := byTenant[t := {}]; }
      byTenant := byTenant[t := byTenant[t] + {c}];
    }

    method Unregister(t: Tenant, c: ControllerId)
      modifies this`byTenant
      ensures View() == Unregistered(old(View()), t, c)
      ensures Of(View(), t) == Of(old(View()), t) - {c} && (t in byTenant && t in old(byTenant) ==> byTenant[t] != {})
      ensures forall u :: u != t ==> Of(View(), u) == Of(old(View()), u)
    {
      if t !in byTenant { return; }
      byTenant := byTenant[t := byTenant[t] - {c}];
      if |byTenant[t]| == 0 { byTenant := byTenant - {t}; }
    }

    /** Aborts every controller registered for the tenant and returns how many. */
    method AbortTenant(t: Tenant) returns (count: nat)
      modifies this`aborted
      ensures View() == AbortAll(old(View()), t) && count == |Of(View(), t)|
      ensures aborted == old(aborted) + (if t in byTenant then byTenant[t] else {})
    {
      if t !in byTenant { return 0; }
      var todo := byTenant[t];
      while todo != {}
        invariant todo <= byTenant[t]
        invariant aborted == old(aborted) + (byTenant[t] - todo)
        decreases todo
      {
        var c :| c in todo;
        aborted := aborted + {c};
        todo := todo - {c};
      }
      return |byTenant[t]|;
    }
  }

  /** A job between its registration and its end; `read` is whether its status read has returned. */
  datatype Job = Job(t: Tenant, read: bool)

  /** `inactive` are the deactivated tenants, `notified` those of them whose abort has run since. */
  datatype JobState = JobState(runs: Runs, jobs: map<ControllerId, Job>, nextId: nat, inactive: set<Tenant>, notified: set<Tenant>)

  datatype JobStep =
    | Begin(t: Tenant)
    | ReadStatus(c: ControllerId)
    | EndJob(c: ControllerId)
    | Deactivate(t: Tenant)
    | Abort(t: Tenant)
    | Reactivate(t: Tenant)

  const NoJobs := JobState(Runs(map[], {}), map[], 0, {}, {})

  function ApplyJob(s: JobState, step: JobStep): JobState {
    match step
    case Begin(t) =>
      s.(runs := Registered(s.runs, t, s.nextId), jobs := s.jobs[s.nextId := Job(t, false)], nextId := s.nextId + 1)
    case ReadStatus(c) =>
      if c in s.jobs && !s.jobs[c].read
      then
        var s1 := s.(jobs := s.jobs[c := Job(s.jobs[c].t, true)]);
        if s.jobs[c].t in s.inactive then s1.(runs := s.runs.(aborted := s.runs.aborted + {c})) else s1
      else s
    case EndJob(c) => if c in s.jobs then s.(runs := Unregistered(s.runs, s.jobs[c].t, c), jobs := s.jobs - {c}) else s
    case Deactivate(t) => s.(inactive := s.inactive + {t})
    case Abort(t) => s.(runs := AbortAll(s.runs, t), notified := if t in s.inactive then s.notified + {t} else s.notified)
    case Reactivate(t) => s.(inactive := s.inactive - {t}, notified := s.notified - {t})
  }

  function RunJobs(s: JobState, steps: seq<JobStep>): JobState
    decreases |steps|
  {
    if steps == [] then s else RunJobs(ApplyJob(s, steps[0]), steps[1..])
  }

  /** A tenant's registered controllers are exactly its jobs. */
  ghost predicate Tracked(runs: Runs, jobs: map<ControllerId, Job>) {
    && (forall c, t :: c in Of(runs, t) <==> c in jobs && jobs[c].t == t)
    && (forall t :: t in runs.byTenant ==> runs.byTenant[t] != {})
  }

  ghost predicate JobsOk(s: JobState) {
    && Tracked(s.runs, s.jobs) && s.notified <= s.inactive
    && (forall c :: c in s.jobs ==> c < s.nextId)
    && (forall c :: c in s.jobs && s.jobs[c].read && s.jobs[c].t in s.notified ==> c in s.runs.aborted)
  }

  lemma BeginTracks(runs: Runs, jobs: map<ControllerId, Job>, t: Tenant, c: ControllerId)
    requires Tracked(runs, jobs) && c !in jobs
    ensures Tracked(Registered(runs, t, c), jobs[c := Job(t, false)])
  {
    assert forall x :: Of(Registered(runs, t, c), x) == if x == t then Of(runs, t) + {c} else Of(runs, x);
  }

  lemma EndTracks(runs: Runs, jobs: map<ControllerId, Job>, c: ControllerId)
    requires Tracked(runs, jobs) && c in jobs
    ensures Tracked(Unregistered(runs, jobs[c].t, c), jobs - {c})
  {
    assert forall x :: Of(Unregistered(runs, jobs[c].t, c), x) == if x == jobs[c].t then Of(runs, x) - {c} else Of(runs, x);
  }

  lemma JobStepKeeps(s: JobState, step: JobStep)
    requires JobsOk(s)
    ensures JobsOk(ApplyJob(s, step))
  {
    match step
    case Begin(t) => BeginTracks(s.runs, s.jobs, t, s.nextId);
    case EndJob(c) => if c in s.jobs { EndTracks(s.runs, s.jobs, c); }
    case ReadStatus(c) => ReadKeeps(s, c);
    case Abort(t) => AbortKeeps(s, t);
    case Deactivate(t) =>
    case Reactivate(t) =>
  }

  lemma ReadKeeps(s: JobState, c: ControllerId)
    requires JobsOk(s)
    ensures JobsOk(ApplyJob(s, ReadStatus(c)))
  {
    var u := ApplyJob(s, ReadStatus(c));
    assert forall x :: Of(u.runs, x) == Of(s.runs, x);
  }

  lemma AbortKeeps(s: JobState, t: Tenant)
    requires JobsOk(s)
    ensures JobsOk(ApplyJob(s, Abort(t)))
  {
    var u := ApplyJob(s, Abort(t));
    assert forall x :: Of(u.runs, x) == Of(s.runs, x);
  }

  lemma {:induction false} JobRunKeeps(s: JobState, steps: seq<JobStep>)
    requires JobsOk(s)
    ensures JobsOk(RunJobs(s, steps))
    decreases |steps|
  {
    if steps != [] {
      JobStepKeeps(s, steps[0]);
      JobRunKeeps(ApplyJob(s, steps[0]), steps[1..]);
    }
  }

  /**
   * Once a tenant's deactivation has committed and its abort has run, every job of it past its status read has
   * an aborted signal; a job is tracked under its tenant for as long as it lives, and no empty set is kept.
   */
  lemma {:induction false} DeactivatedJobsAreAborted(steps: seq<JobStep>, c: ControllerId)
    requires c in RunJobs(NoJobs, steps).jobs
    ensures var s := RunJobs(NoJobs, steps);
            && c in Of(s.runs, s.jobs[c].t)
            && (s.jobs[c].read && s.jobs[c].t in s.notified ==> c in s.runs.aborted)
  {
    JobRunKeeps(NoJobs, steps);
  }

  /** A step that stops the tenant's jobs. */
  predicate Stops(step: JobStep, t: Tenant) {
    step == Deactivate(t) || step == Abort(t)
  }

  /** The tenant is active and none of its jobs is aborted. */
  ghost predicate Untouched(s: JobState, t: Tenant) {
    && t !in s.inactive && (forall c :: c in s.runs.aborted ==> c < s.nextId)
    && (forall c :: c in s.jobs && s.jobs[c].t == t ==> c !in s.runs.aborted)
  }

  lemma {:induction false} StaysUntouched(s: JobState, steps: seq<JobStep>, t: Tenant)
    requires JobsOk(s) && Untouched(s, t) && forall step :: step in steps ==> !Stops(step, t)
    ensures Untouched(RunJobs(s, steps), t)
    decreases |steps|
  {
    if steps != [] {
      JobStepKeeps(s, steps[0]);
      assert steps[0] in steps;
      assert Untouched(ApplyJob(s, steps[0]), t);
      StaysUntouched(ApplyJob(s, steps[0]), steps[1..], t);
    }
  }

  /** No other tenant's job is stopped: an aborted job's own tenant was deactivated, or aborted, in the run. */
  lemma {:induction false} OnlyOwnJobsAreAborted(steps: seq<JobStep>, c: ControllerId)
    requires c in RunJobs(NoJobs, steps).jobs && c in RunJobs(NoJobs, steps).runs.aborted
    ensures exists step :: step in steps && Stops(step, RunJobs(NoJobs, steps).jobs[c].t)
  {
    if forall step :: step in steps ==> !Stops(step, RunJobs(NoJobs, steps).jobs[c].t) {
      StaysUntouched(NoJobs, steps, RunJobs(NoJobs, steps).jobs[c].t);
    }
  }

  // ---- sockets ----

  /** An upgrade remembers how many tenant closes had happened when it began. */
  datatype Socket = Socket(t: Tenant, began: nat, isOpen: bool)

  /** `closes` is the history of tenant closes, newest last. */
  datatype Server = Server(
    tenantCloseCount: nat, lastTenantClose: map<Tenant, nat>, upgrades: map<UpgradeId, nat>, sockets: map<SocketId, Socket>,
    nextId: nat, closed: bool, closes: seq<Tenant>)

  datatype ServerStep =
    | BeginUpgrade
    | FinishUpgrade(u: UpgradeId, identity: Option<Tenant>)
    | CloseTenant(t: Tenant)
    | SocketCloses(k: SocketId)
    | CloseServer

  const NoSockets := Server(0, map[], map[], map[], 0, false, [])

  function LastClose(s: Server, t: Tenant): nat {
    if t in s.lastTenantClose then s.lastTenantClose[t] else 0
  }

  /** Attach, then close at once when the tenant was closed since the upgrade began. */
  function Attach(s: Server, u: UpgradeId, t: Tenant): Server
    requires u in s.upgrades
  {
    var began := s.upgrades[u];
    s.(upgrades := s.upgrades - {u}, sockets := s.sockets[u := Socket(t, began, LastClose(s, t) <= began)])
  }

  function ApplyServer(s: Server, step: ServerStep): Server {
    match step
    case BeginUpgrade => s.(upgrades := s.upgrades[s.nextId := s.tenantCloseCount], nextId := s.nextId + 1)
    case FinishUpgrade(u, identity) =>
      if u !in s.upgrades then s
      else if identity.None? || s.closed then s.(upgrades := s.upgrades - {u})
      else Attach(s, u, identity.value)
    case CloseTenant(t) =>
      s.(tenantCloseCount := s.tenantCloseCount + 1, lastTenantClose := s.lastTenantClose[t := s.tenantCloseCount + 1],
         sockets := map k | k in s.sockets :: if s.sockets[k].t == t then s.sockets[k].(isOpen := false) else s.sockets[k],
         closes := s.closes + [t])
    case SocketCloses(k) => if k in s.sockets then s.(sockets := s.sockets[k := s.sockets[k].(isOpen := false)]) else s
    case CloseServer => s.(closed := true, sockets := map k | k in s.sockets :: s.sockets[k].(isOpen := false))
  }

  function RunServer(s: Server, steps: seq<ServerStep>): Server
    decreases |steps|
  {
    if steps == [] then s else RunServer(ApplyServer(s, steps[0]), steps[1..])
  }

  /** `lastTenantClose` is where each tenant's last close stands in the history. */
  ghost predicate CountsCloses(s: Server) {
    && s.tenantCloseCount == |s.closes|
    && (forall t :: LastClose(s, t) <= |s.closes|)
    && (forall i :: 0 <= i < |s.closes| ==> i < LastClose(s, s.closes[i]))
    && (forall t :: LastClose(s, t) > 0 ==> s.closes[LastClose(s, t) - 1] == t)
  }

  ghost predicate ServerOk(s: Server) {
    && CountsCloses(s)
    && (forall k :: k in s.sockets && s.sockets[k].isOpen ==> !s.closed && LastClose(s, s.sockets[k].t) <= s.sockets[k].began)
    && (forall u :: u in s.upgrades ==> s.upgrades[u] <= |s.closes|)
  }

  lemma CloseCounts(s: Server, t: Tenant)
    requires CountsCloses(s)
    ensures CountsCloses(ApplyServer(s, CloseTenant(t)))
    ensures forall x :: LastClose(ApplyServer(s, CloseTenant(t)), x) == if x == t then |s.closes| + 1 else LastClose(s, x)
  {
    var u := ApplyServer(s, CloseTenant(t));
    forall x ensures LastClose(u, x) == if x == t then |s.closes| + 1 else LastClose(s, x) {}
    forall i | 0 <= i < |u.closes| ensures i < LastClose(u, u.closes[i]) {
      if i < |s.closes| { assert u.closes[i] == s.closes[i]; }
    }
    forall x | LastClose(u, x) > 0 ensures u.closes[LastClose(u, x) - 1] == x {
      if x != t { assert LastClose(s, x) > 0; }
    }
  }

  lemma SameCounts(s: Server, u: Server)
    requires CountsCloses(s)
    requires u.lastTenantClose == s.lastTenantClose && u.closes == s.closes && u.tenantCloseCount == s.tenantCloseCount
    ensures CountsCloses(u) && forall x :: LastClose(u, x) == LastClose(s, x)
  {
    forall x ensures LastClose(u, x) == LastClose(s, x) {}
    forall i | 0 <= i < |u.closes| ensures i < LastClose(u, u.closes[i]) { assert i < LastClose(s, s.closes[i]); }
    forall x | LastClose(u, x) > 0 ensures u.closes[LastClose(u, x) - 1] == x { assert LastClose(s, x) > 0; }
  }

  lemma OthersCount(s: Server, step: ServerStep)
    requires CountsCloses(s) && !step.CloseTenant?
    ensures CountsCloses(ApplyServer(s, step)) && ApplyServer(s, step).closes == s.closes
    ensures forall x :: LastClose(ApplyServer(s, step), x) == LastClose(s, x)
  {
    SameCounts(s, ApplyServer(s, step));
  }

  lemma CloseKeeps(s: Server, t: Tenant)
    requires ServerOk(s)
    ensures ServerOk(ApplyServer(s, CloseTenant(t)))
  {
    CloseCounts(s, t);
  }

  lemma FinishKeeps(s: Server, u: UpgradeId, identity: Option<Tenant>)
    requires ServerOk(s)
    ensures ServerOk(ApplyServer(s, FinishUpgrade(u, identity)))
  {
    OthersCount(s, FinishUpgrade(u, identity));
  }

  lemma ServerStepKeeps(s: Server, step: ServerStep)
    requires ServerOk(s)
    ensures ServerOk(ApplyServer(s, step))
  {
    match step
    case CloseTenant(t) => CloseKeeps(s, t);
    case FinishUpgrade(u, identity) => FinishKeeps(s, u, identity);
    case _ => OthersCount(s, step);
  }

  lemma {:induction false} ServerRunKeeps(s: Server, steps: seq<ServerStep>)
    requires ServerOk(s)
    ensures ServerOk(RunServer(s, steps))
    decreases |steps|
  {
    if steps != [] {
      ServerStepKeeps(s, steps[0]);
      ServerRunKeeps(ApplyServer(s, steps[0]), steps[1..]);
    }
  }

  /** No open socket's tenant was closed after the socket's upgrade began; a closed server has no open socket. */
  lemma {:induction false} NoSocketOutlivesItsTenant(steps: seq<ServerStep>, k: SocketId)
    requires k in RunServer(NoSockets, steps).sockets && RunServer(NoSockets, steps).sockets[k].isOpen
    ensures var s := RunServer(NoSockets, steps);
            !s.closed && forall i :: s.sockets[k].began <= i < |s.closes| ==> s.closes[i] != s.sockets[k].t
  {
    ServerRunKeeps(NoSockets, steps);
  }

  /** And only such sockets are closed on attach: one whose tenant was not closed meanwhile stays open. */
  lemma {:induction false} FreshUpgradeStaysOpen(steps: seq<ServerStep>, u: UpgradeId, t: Tenant)
    requires var s := RunServer(NoSockets, steps); u in s.upgrades && !s.closed
    ensures var s := RunServer(NoSockets, steps);
            Attach(s, u, t).sockets[u].isOpen <==> forall i :: s.upgrades[u] <= i < |s.closes| ==> s.closes[i] != t
  {
    ServerRunKeeps(NoSockets, steps);
    var s := RunServer(NoSockets, steps);
    if LastClose(s, t) > s.upgrades[u] { assert s.closes[LastClose(s, t) - 1] == t; }
  }

  /** Ids are handed out once: an upgrade in progress has no socket yet. */
  ghost predicate IdsApart(s: Server) {
    && (forall u :: u in s.upgrades ==> u < s.nextId && u !in s.sockets)
    && (forall k :: k in s.sockets ==> k < s.nextId)
  }

  /** A step that closes the socket: its tenant's close, its own, or the server's. */
  predicate Ends(s: Server, step: ServerStep, k: SocketId)
    requires k in s.sockets
  {
    step == CloseTenant(s.sockets[k].t) || step == SocketCloses(k) || step == CloseServer
  }

  lemma {:induction false} IdsStayApart(s: Server, steps: seq<ServerStep>)
    requires IdsApart(s)
    ensures IdsApart(RunServer(s, steps))
    decreases |steps|
  {
    if steps != [] {
      IdsStayApart(ApplyServer(s, steps[0]), steps[1..]);
    }
  }

  lemma {:induction false} StaysOpenFrom(s: Server, steps: seq<ServerStep>, k: SocketId)
    requires IdsApart(s) && k in s.sockets && forall step :: step in steps ==> !Ends(s, step, k)
    ensures k in RunServer(s, steps).sockets && RunServer(s, steps).sockets[k] == s.sockets[k]
    decreases |steps|
  {
    if steps != [] {
      var u := ApplyServer(s, steps[0]);
      assert steps[0] in steps && !Ends(s, steps[0], k);
      assert IdsApart(u) && k in u.sockets && u.sockets[k] == s.sockets[k];
      forall step | step in steps[1..] ensures !Ends(u, step, k) { assert step in steps && !Ends(s, step, k); }
      StaysOpenFrom(u, steps[1..], k);
    }
  }

  /** An attached socket stays as it is through everything that happens to other sockets, upgrades and tenants. */
  lemma {:induction false} OthersStayOpen(earlier: seq<ServerStep>, later: seq<ServerStep>, k: SocketId)
    requires var s := RunServer(NoSockets, earlier); k in s.sockets && forall step :: step in later ==> !Ends(s, step, k)
    ensures var s := RunServer(NoSockets, earlier);
            k in RunServer(s, later).sockets && RunServer(s, later).sockets[k] == s.sockets[k]
  {
    IdsStayApart(NoSockets, earlier);
    StaysOpenFrom(RunServer(NoSockets, earlier), later, k);
  }

  class SyncServer {
    var tenantCloseCount: nat
    var lastTenantClose: map<Tenant, nat>
    var sockets: map<SocketId, Socket>
    var closed: bool

    constructor ()
      ensures tenantCloseCount == 0 && lastTenantClose == map[] && sockets == map[] && !closed
    {
      tenantCloseCount, lastTenantClose, sockets, closed := 0, map[], map[], false;
    }

    ghost function View(upgrades: map<UpgradeId, nat>, nextId: nat, closes: seq<Tenant>): Server
      reads this
    {
      Server(tenantCloseCount, lastTenantClose, upgrades, sockets, nextId, closed, closes)
    }

    /** The callback of an authenticated upgrade that began when `closesBefore` tenants had been closed. */
    method FinishUpgrade(u: UpgradeId, identity: Option<Tenant>, closesBefore: nat, ghost nextId: nat, ghost closes: seq<Tenant>)
      returns (rejected: bool)
      modifies this`sockets
      ensures rejected <==> identity.None? || closed
      ensures View(map[], nextId, closes) == ApplyServer(old(View(map[u := closesBefore], nextId, closes)), ServerStep.FinishUpgrade(u, identity))
      ensures rejected ==> sockets == old(sockets)
      ensures !rejected ==>
                var last := if identity.value in lastTenantClose then lastTenantClose[identity.value] else 0;
                sockets == old(sockets)[u := Socket(identity.value, closesBefore, last <= closesBefore)]
    {
      assert map[u := closesBefore] - {u} == map[];
      if identity.None? || closed { return true; }
      var t := identity.value;
      sockets := sockets[u := Socket(t, closesBefore, true)];
      var last := if t in lastTenantClose then lastTenantClose[t] else 0;
      if last > closesBefore { sockets := sockets[u := Socket(t, closesBefore, false)]; }
      return false;
    }

    /** Closes every open socket of the tenant, one after the other. */
    method CloseTenant(t: Tenant, ghost upgrades: map<UpgradeId, nat>, ghost nextId: nat, ghost closes: seq<Tenant>)
      modifies this`tenantCloseCount, this`lastTenantClose, this`sockets
      ensures View(upgrades, nextId, closes + [t]) == ApplyServer(old(View(upgrades, nextId, closes)), ServerStep.CloseTenant(t))
      ensures sockets.Keys == old(sockets).Keys
      ensures forall k :: k in sockets && sockets[k].t == t ==> !sockets[k].isOpen
      ensures forall k :: k in sockets && old(sockets)[k].t != t ==> sockets[k] == old(sockets)[k]
    {
      tenantCloseCount := tenantCloseCount + 1;
      lastTenantClose := lastTenantClose[t := tenantCloseCount];
      ghost var before := sockets;
      var todo := sockets.Keys;
      while todo != {}
        invariant tenantCloseCount == old(tenantCloseCount) + 1 && lastTenantClose == old(lastTenantClose)[t := tenantCloseCount]
        invariant todo <= sockets.Keys == before.Keys
        invariant forall k :: k in todo ==> sockets[k] == before[k]
        invariant forall k :: k in before && k !in todo ==>
                    sockets[k] == if before[k].t == t then before[k].(isOpen := false) else before[k]
        decreases todo
      {
        var k :| k in todo;
        todo := todo - {k};
        if sockets[k].t == t && sockets[k].isOpen { sockets := sockets[k := sockets[k].(isOpen := false)]; }
      }
      assert sockets == ApplyServer(old(View(upgrades, nextId, closes)), ServerStep.CloseTenant(t)).sockets;
    }
  }
}
