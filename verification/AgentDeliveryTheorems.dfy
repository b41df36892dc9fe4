/** What the delivery system guarantees in every run. */
module AgentDeliveryTheorems {
  import opened Ordering
  import opened AgentRunWatchSpec
  import opened AgentEventDelivery
  import opened AgentWatcherProofs
  import opened AgentDeliveryProofs

  lemma {:induction false} RunHolds(steps: seq<Step>)
    ensures Inv(Exec(Init, steps))
  {
    InitHolds();
    RunKeeps(Init, steps);
  }

  /**
   * End to end. In every run the ids a client has received for the run rise strictly and follow its
   * first cursor, and every committed event between that cursor and the last id it received is among
   * them, unless announcing it or fetching its row for live watchers failed.
   */
  lemma {:induction false} ClientMissesNothing(steps: seq<Step>)
    ensures
      var s := Exec(Init, steps);
      s.client.Some? ==>
        var first, got := s.client.value.first, Received(s);
        && Rising(got)
        && (forall x :: x in got ==> x in s.stream.committed && first < x)
        && (forall e :: e in s.stream.committed && first < e <= LastOr(got, first) ==> e in got || e in s.stream.skipped)
        && s.client.value.cursor == LastOr(got, first)
  {
    RunHolds(steps);
    if Exec(Init, steps).client.Some? { CursorIsLast(Exec(Init, steps)); }
  }

  lemma LogIsExact(st: Stream, wt: Watcher)
    requires DeliveredOk(st, wt)
    ensures Rising(wt.log) && (forall x :: x in wt.log ==> x in st.committed && wt.start < x <= wt.lastEventId)
    ensures forall e :: e in st.committed && wt.start < e <= wt.lastEventId && e !in st.skipped ==>
              (e in wt.log <==> !wt.Passed(e))
  {
    forall x | x in wt.log ensures x <= wt.lastEventId {
      var i :| 0 <= i < |wt.log| && wt.log[i] == x;
      assert x <= wt.log[|wt.log| - 1];
    }
  }

  /**
   * Each registered watcher has delivered exactly once, in order, what lies between its start and its cursor,
   * except exactly what its promotion passed over; and it passed over something only when a watch of its socket
   * had been called with a cursor that named no event.
   */
  lemma {:induction false} WatcherMissesNothing(steps: seq<Step>, w: WatcherId)
    requires w in Exec(Init, steps).reg.watchers
    ensures
      var s := Exec(Init, steps);
      var wt := s.reg.watchers[w];
      && Rising(wt.log) && (forall x :: x in wt.log ==> x in s.stream.committed && wt.start < x <= wt.lastEventId)
      && (forall e :: e in s.stream.committed && wt.start < e <= wt.lastEventId && e !in s.stream.skipped ==>
            (e in wt.log <==> !wt.Passed(e)))
      && (wt.from < wt.floor ==> (wt.socket, wt.floor) in s.stream.unnamed)
  {
    RunHolds(steps);
    var s := Exec(Init, steps);
    assert WatcherOk(s.stream, w, s.reg.watchers[w]);
    LogIsExact(s.stream, s.reg.watchers[w]);
  }

  /**
   * Once live with no fetch in flight, a watcher has delivered every reference that was handed to `forwardEvent`,
   * except exactly what its promotion passed over.
   */
  lemma {:induction false} LiveWatcherIsCaughtUp(steps: seq<Step>, w: WatcherId, e: EventId)
    requires w in Exec(Init, steps).reg.watchers && Exec(Init, steps).reg.watchers[w].phase.Live?
    requires Exec(Init, steps).stream.forwarding.None?
    requires e in Exec(Init, steps).stream.committed && Exec(Init, steps).reg.watchers[w].start < e
    requires !Ahead(Exec(Init, steps).stream, e) && e !in Exec(Init, steps).stream.skipped
    ensures e in Exec(Init, steps).reg.watchers[w].log <==> !Exec(Init, steps).reg.watchers[w].Passed(e)
  {
    RunHolds(steps);
    var s := Exec(Init, steps);
    assert WatcherOk(s.stream, w, s.reg.watchers[w]);
  }

  /** A live watcher that the reference being forwarded will not reach has it behind its cursor already. */
  lemma PassedOver(st: Stream, w: WatcherId, wt: Watcher)
    requires StreamOk(st) && WatcherOk(st, w, wt) && wt.phase.Live?
    requires st.forwarding.Some? && w !in st.forwarding.value.live
    ensures st.forwarding.value.eventId <= wt.lastEventId
  {
    var e := st.forwarding.value.eventId;
    assert e in st.committed && e !in st.skipped && !Ahead(st, e) && !Todo(st, w, wt, e);
  }

  /** A synchronous stretch of `watch()` that ends live, on a socket that still has an active watcher `a`. */
  ghost predicate Promotes(s: State, step: Step, a: WatcherId, w: WatcherId) {
    && (step == QueryReturned(w) || step == RowReturned(w)) && Enabled(s, step)
    && a in s.reg.watchers && s.reg.watchers[w].socket in s.reg.active && s.reg.active[s.reg.watchers[w].socket] == a
    && w in Apply(s, step).reg.watchers && Apply(s, step).reg.watchers[w].phase.Live?
  }

  lemma {:induction false} PromotedRegistry(r: Registry, a: WatcherId, w: WatcherId, wt: Watcher, batch: seq<EventId>)
    requires a in r.watchers && r.watchers[a].socket == wt.socket && a != w
    requires wt.socket in r.active && r.active[wt.socket] == a && w in r.watchers
    requires Settle(r, w, wt, batch).watchers[w].phase.Live?
    ensures var r' := Settle(r, w, wt, batch);
            && Drain(wt, batch).phase.Live? && a !in r'.watchers && r'.watchers[w] == Promoted(r, Drain(wt, batch))
            && r'.watchers[w].socket == wt.socket && wt.socket in r'.active && r'.active[wt.socket] == w
  {
    DrainedSocket(wt, batch);
  }

  /** A promoted watcher is its own last delivery, raised to the cursor the active one was opened with if that is ahead. */
  ghost predicate TakesOver(st: Stream, was: Watcher, now: Watcher) {
    var own := LastOr(now.log, now.start);
    && was.socket == now.socket && was.lastEventId <= now.lastEventId
    && (if was.floor > own
        then now.from == own && now.floor == now.lastEventId == was.floor && (was.socket, was.floor) in st.unnamed
        else now.from == now.floor == now.start && now.lastEventId == own)
  }

  lemma PromotedWatcher(st: Stream, r: Registry, a: WatcherId, w: WatcherId, drained: Watcher)
    requires drained.socket in r.active && r.active[drained.socket] == a && a in r.watchers && r.watchers[a].socket == drained.socket
    requires WatcherOk(st, a, r.watchers[a]) && WatcherOk(st, w, drained) && drained.floor == drained.start
    requires r.watchers[a].lastEventId <= drained.lastEventId || AtUnnamed(st, r.watchers[a])
    ensures TakesOver(st, r.watchers[a], Promoted(r, drained))
  {
    UnraisedLog(st, drained);
  }

  /** `w` is its socket's active watcher in place of `a`. */
  ghost predicate Succeeds(st: Stream, r: Registry, u: Registry, a: WatcherId, w: WatcherId)
    requires a in r.watchers && w in u.watchers
  {
    && a !in u.watchers && u.watchers[w].socket in u.active && u.active[u.watchers[w].socket] == w
    && TakesOver(st, r.watchers[a], u.watchers[w])
  }

  lemma PromotedInto(s: State, a: WatcherId, w: WatcherId, wt: Watcher, sk: Socket, batch: seq<EventId>)
    requires Inv(s) && Resumes(s, w, wt, sk, batch) && a in s.reg.watchers && a != w
    requires wt.socket == s.reg.watchers[w].socket && wt.socket in s.reg.active && s.reg.active[wt.socket] == a
    requires Settle(s.reg.(sockets := s.reg.sockets[wt.socket := sk]), w, wt, batch).watchers[w].phase.Live?
    ensures Succeeds(s.stream, s.reg, Settle(s.reg.(sockets := s.reg.sockets[wt.socket := sk]), w, wt, batch), a, w)
  {
    var r := s.reg.(sockets := s.reg.sockets[wt.socket := sk]);
    PromotedRegistry(r, a, w, wt, batch);
    CandidateCaughtUp(s, w, wt, sk, batch);
    DrainKeepsWatcher(s.stream, w, wt, batch);
    PromotedWatcher(s.stream, r, a, w, Drain(wt, batch));
  }

  /** `w` was replaying in `s`, and in `u`, the same but for the registry, it is live in place of `a`. */
  ghost predicate TookOver(s: State, u: State, a: WatcherId, w: WatcherId) {
    && Inv(s) && Inv(u) && u.stream == s.stream && w in s.reg.watchers && s.reg.watchers[w].Replaying()
    && a in s.reg.watchers && w in u.reg.watchers && u.reg.watchers[w].phase.Live? && Succeeds(s.stream, s.reg, u.reg, a, w)
  }

  lemma ReturnLeavesStream(s: State, step: Step, w: WatcherId)
    requires step == QueryReturned(w) || step == RowReturned(w)
    ensures Apply(s, step).stream == s.stream
  {
  }

  lemma PromotedState(s: State, step: Step, a: WatcherId, w: WatcherId, u: State)
    requires Inv(s) && Promotes(s, step, a, w) && u == Apply(s, step)
    ensures TookOver(s, u, a, w)
  {
    ReturnKeeps(s, step, w);
    ReturnLeavesStream(s, step, w);
    ReturnResumes(s, step, w);
    var (wt, sk, batch) := Returned(s, step, w);
    PromotedInto(s, a, w, wt, sk, batch);
  }

  lemma CandidateNotForwarded(s: State, w: WatcherId)
    requires Inv(s) && w in s.reg.watchers && s.reg.watchers[w].Replaying() && s.stream.forwarding.Some?
    ensures w !in s.stream.forwarding.value.live
  {
  }

  /** Nothing is lost at the promotion of `w` over `a` but what the active watcher's opening cursor hides. */
  ghost predicate PassesOverExactly(s: State, u: State, a: WatcherId, w: WatcherId)
    requires a in s.reg.watchers && w in u.reg.watchers
  {
    var was, now := s.reg.watchers[a], u.reg.watchers[w];
    var own := LastOr(now.log, now.start);
    && a !in u.reg.watchers && now.socket in u.reg.active && u.reg.active[now.socket] == w
    && was.lastEventId <= now.lastEventId
    && (s.stream.forwarding.Some? ==> s.stream.forwarding.value.eventId <= now.lastEventId)
    && (forall e: EventId :: e > own ==> (Offer(now, e) == now <==> e <= was.floor))
    && (forall e: EventId :: now.Passed(e) <==> own < e <= was.floor)
    && (was.floor > own ==> (was.socket, was.floor) in s.stream.unnamed)
  }

  lemma SuccessorPassesOver(s: State, u: State, a: WatcherId, w: WatcherId)
    requires TookOver(s, u, a, w)
    ensures PassesOverExactly(s, u, a, w)
  {
    PromotedCovers(s, u, w);
    TakenOver(s.stream, s.reg.watchers[a], u.reg.watchers[w]);
  }

  lemma PromotedPassesOver(s: State, step: Step, a: WatcherId, w: WatcherId, u: State)
    requires Inv(s) && Promotes(s, step, a, w) && u == Apply(s, step)
    ensures PassesOverExactly(s, u, a, w)
  {
    PromotedState(s, step, a, w, u);
    SuccessorPassesOver(s, u, a, w);
  }

  /**
   * When a step of candidate `w` makes it live in place of `a`, it is not behind `a` and covers the reference
   * `a` was waiting to deliver. It passes over an event it would still have delivered exactly when that event is
   * not beyond the cursor `a` was opened with (or inherited), so there is such an id exactly when that cursor
   * is ahead of everything the candidate has delivered; the cursor then named no event when its watch was called.
   */
  lemma {:induction false} PromotionPassesOverIff(steps: seq<Step>, step: Step, a: WatcherId, w: WatcherId)
    requires Promotes(Exec(Init, steps), step, a, w)
    ensures PassesOverExactly(Exec(Init, steps), Apply(Exec(Init, steps), step), a, w)
  {
    RunHolds(steps);
    PromotedPassesOver(Exec(Init, steps), step, a, w, Apply(Exec(Init, steps), step));
  }

  lemma TakenOver(st: Stream, was: Watcher, now: Watcher)
    requires TakesOver(st, was, now)
    ensures var own := LastOr(now.log, now.start);
            && (forall e: EventId :: e > own ==> (Offer(now, e) == now <==> e <= was.floor))
            && (forall e: EventId :: now.Passed(e) <==> own < e <= was.floor)
            && (was.floor > own ==> (was.socket, was.floor) in st.unnamed)
  {
  }

  lemma PromotedCovers(s: State, u: State, w: WatcherId)
    requires Inv(s) && Inv(u) && u.stream == s.stream && w in s.reg.watchers && s.reg.watchers[w].Replaying()
    requires w in u.reg.watchers && u.reg.watchers[w].phase.Live?
    ensures s.stream.forwarding.Some? ==> s.stream.forwarding.value.eventId <= u.reg.watchers[w].lastEventId
  {
    if s.stream.forwarding.Some? {
      CandidateNotForwarded(s, w);
      assert WatcherOk(s.stream, w, u.reg.watchers[w]);
      PassedOver(s.stream, w, u.reg.watchers[w]);
    }
  }

  // ---- cursors that name an event ----

  /** Every cursor a watch or the client starts with is 0 or the id of an event committed by then. */
  ghost predicate Names(s: State, step: Step) {
    (step.WatchCalled? ==> Cursor(s.stream, step.cursor)) && (step.ClientStarts? ==> Cursor(s.stream, step.first))
  }

  ghost predicate AllName(s: State, steps: seq<Step>)
    decreases |steps|
  {
    steps == [] || (Names(s, steps[0]) && AllName(Apply(s, steps[0]), steps[1..]))
  }

  ghost predicate NoneUnnamed(s: State) {
    s.stream.unnamed == {} && (s.client.Some? ==> Cursor(s.stream, s.client.value.first))
  }

  lemma ClientNames(s: State)
    requires Inv(s) && s.client.Some? && Cursor(s.stream, s.client.value.first)
    ensures Cursor(s.stream, s.client.value.cursor)
  {
    CursorIsLast(s);
    var got := Received(s);
    if got != [] { assert got[|got| - 1] in got; }
  }

  lemma NamedStep(s: State, step: Step)
    requires NoneUnnamed(s) && Names(s, step) && (s.client.Some? ==> Cursor(s.stream, s.client.value.cursor))
    ensures NoneUnnamed(Apply(s, step))
  {
  }

  lemma {:induction false} NamedRun(s: State, steps: seq<Step>)
    requires Inv(s) && NoneUnnamed(s) && AllName(s, steps)
    ensures NoneUnnamed(Exec(s, steps))
    decreases |steps|
  {
    if steps != [] {
      StepKeeps(s, steps[0]);
      if s.client.Some? { ClientNames(s); }
      NamedStep(s, steps[0]);
      NamedRun(Apply(s, steps[0]), steps[1..]);
    }
  }

  /** When every cursor names 0 or a committed event, no promotion passes anything over. */
  lemma {:induction false} NamedCursorsLoseNothing(steps: seq<Step>, w: WatcherId, e: EventId)
    requires AllName(Init, steps) && w in Exec(Init, steps).reg.watchers
    ensures !Exec(Init, steps).reg.watchers[w].Passed(e)
  {
    InitHolds();
    NamedRun(Init, steps);
    WatcherMissesNothing(steps, w);
  }

  // ---- unwatch ----

  /** Nothing on socket `k` delivers events, and no authorisation in flight can change that. */
  ghost predicate Silent(r: Registry, k: SocketId) {
    && k in r.sockets && k !in r.pending
    && (forall w :: w in r.watchers ==> r.watchers[w].socket != k)
  }

  predicate Watches(step: Step, k: SocketId) {
    step.WatchCalled? && step.s == k
  }

  lemma SettledSockets(r: Registry, w: WatcherId, wt: Watcher, batch: seq<EventId>, k: SocketId)
    requires w in r.watchers && r.watchers[w].socket == wt.socket && Silent(r, k)
    ensures Silent(Settle(r, w, wt, batch), k)
  {
    DrainedSocket(wt, batch);
  }

  lemma {:induction false} DrainedSocket(wt: Watcher, batch: seq<EventId>)
    ensures Drain(wt, batch).socket == wt.socket
    decreases |wt.queued|, |batch|
  {
    if batch == [] {
      if wt.queued != {} { DrainedSocket(wt.(queued := {}), Ascending(wt.queued)); }
    } else if batch[0] <= wt.lastEventId {
      DrainedSocket(wt, batch[1..]);
    }
  }

  lemma SilentAuthorised(r: Registry, t: Token, allowed: bool, k: SocketId)
    requires Silent(r, k) && t in r.intents && r.intents[t].socket in r.sockets
    ensures Silent(Authorised(r, t, allowed), k)
  {
    var it := r.intents[t];
    var cleared := RemoveReplacement(FinishPending(r, t), it.socket);
    assert forall w :: w in cleared.watchers ==> w in r.watchers && cleared.watchers[w] == r.watchers[w];
  }

  lemma SilentReturn(s: State, step: Step, w: WatcherId, k: SocketId)
    requires Inv(s) && Silent(s.reg, k)
    requires (step == QueryReturned(w) || step == RowReturned(w)) && Enabled(s, step)
    ensures Silent(Apply(s, step).reg, k)
  {
    ReturnResumes(s, step, w);
    var (wt, sk, batch) := Returned(s, step, w);
    SettledSockets(s.reg.(sockets := s.reg.sockets[wt.socket := sk]), w, wt, batch, k);
  }

  lemma SilentForward(r: Registry, live: set<WatcherId>, e: EventId, k: SocketId)
    requires Silent(r, k)
    ensures Silent(Enqueue(r, e), k) && Silent(Deliver(r, live, e), k)
  {
  }

  lemma SilentUnwatch(r: Registry, j: SocketId, k: SocketId)
    requires Silent(r, k)
    ensures Silent(Unwatch(r, j), k)
  {
  }

  lemma SilentKept(s: State, step: Step, k: SocketId)
    requires Inv(s) && Silent(s.reg, k) && !Watches(step, k)
    ensures Silent(Apply(s, step).reg, k)
  {
    if Enabled(s, step) {
      match step
      case QueryReturned(w) => SilentReturn(s, step, w, k);
      case RowReturned(w) => SilentReturn(s, step, w, k);
      case WatchAuthorised(t, allowed) => SilentAuthorised(s.reg, t, allowed, k);
      case ForwardBegin => SilentForward(s.reg, {}, s.stream.tail[0], k);
      case ForwardFetched(ok) => SilentForward(s.reg, s.stream.forwarding.value.live, s.stream.forwarding.value.eventId, k);
      case CloseSocket(j) => SilentUnwatch(s.reg.(sockets := s.reg.sockets[j := s.reg.sockets[j].(open := false)]), j, k);
      case UnwatchCalled(j) => SilentUnwatch(s.reg, j, k);
      case _ => SilentElsewhere(s, step, k);
    }
  }

  lemma SilentElsewhere(s: State, step: Step, k: SocketId)
    requires Wired(s.reg) && Silent(s.reg, k) && !Watches(step, k) && Enabled(s, step)
    requires !step.QueryReturned? && !step.RowReturned? && !step.WatchAuthorised? && !step.ForwardBegin? && !step.ForwardFetched?
    requires !step.CloseSocket? && !step.UnwatchCalled?
    ensures Silent(Apply(s, step).reg, k)
  {
  }

  lemma {:induction false} StaysSilent(s: State, k: SocketId, later: seq<Step>)
    requires Inv(s) && Silent(s.reg, k)
    requires forall step :: step in later ==> !Watches(step, k)
    ensures Silent(Exec(s, later).reg, k)
    decreases |later|
  {
    if later != [] {
      StepKeeps(s, later[0]);
      SilentKept(s, later[0], k);
      StaysSilent(Apply(s, later[0]), k, later[1..]);
    }
  }

  lemma RemovesActive(r: Registry, k: SocketId)
    requires Wired(r)
    ensures Wired(RemoveActive(r, k)) && k !in RemoveActive(r, k).active
    ensures RemoveActive(r, k) == r.(watchers := RemoveActive(r, k).watchers, active := RemoveActive(r, k).active)
  {
    if k in r.active { RemoveWired(r, r.active[k]); }
  }

  lemma RemovesReplacement(r: Registry, k: SocketId)
    requires Wired(r) && k !in r.active
    ensures var u := RemoveReplacement(r, k);
            && k !in u.replacement && u == r.(watchers := u.watchers, replacement := u.replacement)
            && (forall w :: w in u.watchers ==> u.watchers[w].socket != k)
  {
  }

  lemma UnwatchSilences(r: Registry, k: SocketId)
    requires Wired(r)
    ensures var u := Unwatch(r, k);
            && k !in u.active && k !in u.replacement && k !in u.pending && u.sockets == r.sockets
            && (forall w :: w in u.watchers ==> u.watchers[w].socket != k)
    ensures k in r.sockets ==> Silent(Unwatch(r, k), k)
  {
    var a := r.(pending := r.pending - {k});
    RemovesActive(a, k);
    RemovesReplacement(RemoveActive(a, k), k);
  }

  /** An `agent:unwatch` is never overtaken by an older watch still awaiting authorisation. */
  lemma {:induction false} UnwatchIsFinal(earlier: seq<Step>, k: SocketId, later: seq<Step>)
    requires k in Exec(Init, earlier).reg.sockets
    requires forall step :: step in later ==> !Watches(step, k)
    ensures Silent(Exec(Apply(Exec(Init, earlier), UnwatchCalled(k)), later).reg, k)
  {
    var s := Exec(Init, earlier);
    RunHolds(earlier);
    UnwatchSilences(s.reg, k);
    StepKeeps(s, UnwatchCalled(k));
    StaysSilent(Apply(s, UnwatchCalled(k)), k, later);
  }

  lemma CloseSilences(r: Registry, k: SocketId)
    requires Wired(r) && k in r.sockets
    ensures Silent(SocketClosed(r, k), k) && !SocketClosed(r, k).sockets[k].open
  {
    UnwatchSilences(r.(sockets := r.sockets[k := r.sockets[k].(open := false)]), k);
  }

  /** A closed socket takes no frame, and no older watch still awaiting authorisation subscribes it again. */
  lemma {:induction false} ClosedSocketIsForgotten(earlier: seq<Step>, k: SocketId, later: seq<Step>)
    requires k in Exec(Init, earlier).reg.sockets
    requires forall step :: step in later ==> !Watches(step, k)
    ensures var u := Apply(Exec(Init, earlier), CloseSocket(k));
            k in u.reg.sockets && !u.reg.sockets[k].open && Silent(Exec(u, later).reg, k)
  {
    var s := Exec(Init, earlier);
    RunHolds(earlier);
    CloseSilences(s.reg, k);
    StepKeeps(s, CloseSocket(k));
    StaysSilent(Apply(s, CloseSocket(k)), k, later);
  }

  // ---- the newest watch wins ----

  /** Token `t` of a watch of socket `k` from `c` awaits its authorisation, and is the one `k` waits for. */
  predicate Awaits(r: Registry, k: SocketId, t: Token, c: EventId) {
    && k in r.sockets && k in r.pending && r.pending[k] == t && t < r.nextId
    && t in r.intents && r.intents[t] == Intent(k, c)
  }

  /** A step that withdraws or settles the watch `t` of socket `k`. */
  predicate Supersedes(step: Step, k: SocketId, t: Token) {
    Watches(step, k) || step == UnwatchCalled(k) || step == CloseSocket(k) || (step.WatchAuthorised? && step.t == t)
  }

  lemma AwaitingAuthorised(r: Registry, u: Token, allowed: bool, k: SocketId, t: Token, c: EventId)
    requires Awaits(r, k, t, c) && u != t && u in r.intents && r.intents[u].socket in r.sockets
    ensures Awaits(Authorised(r, u, allowed), k, t, c)
    ensures r.intents[u].socket == k ==>
              Authorised(r, u, allowed) == r.(intents := r.intents - {u})
  {
    assert Awaits(FinishPending(r, u), k, t, c);
  }

  lemma AwaitingReturn(s: State, step: Step, w: WatcherId, k: SocketId, t: Token, c: EventId)
    requires Awaits(s.reg, k, t, c) && (step == QueryReturned(w) || step == RowReturned(w)) && Enabled(s, step)
    ensures Awaits(Apply(s, step).reg, k, t, c)
  {
  }

  lemma AwaitingOnSockets(s: State, step: Step, k: SocketId, t: Token, c: EventId)
    requires Awaits(s.reg, k, t, c) && !Supersedes(step, k, t) && Enabled(s, step)
    requires step.OpenSocket? || step.SetRoom? || step.DropSocket? || step.CloseSocket? || step.WatchCalled? || step.UnwatchCalled?
             || step.ClientConnects?
    ensures Awaits(Apply(s, step).reg, k, t, c)
  {
  }

  lemma AwaitingKept(s: State, step: Step, k: SocketId, t: Token, c: EventId)
    requires Awaits(s.reg, k, t, c) && !Supersedes(step, k, t)
    ensures Awaits(Apply(s, step).reg, k, t, c)
  {
    if Enabled(s, step) {
      match step
      case OpenSocket(_) => AwaitingOnSockets(s, step, k, t, c);
      case SetRoom(_, _) => AwaitingOnSockets(s, step, k, t, c);
      case DropSocket(_) => AwaitingOnSockets(s, step, k, t, c);
      case CloseSocket(_) => AwaitingOnSockets(s, step, k, t, c);
      case WatchCalled(_, _) => AwaitingOnSockets(s, step, k, t, c);
      case UnwatchCalled(_) => AwaitingOnSockets(s, step, k, t, c);
      case ClientConnects(_) => AwaitingOnSockets(s, step, k, t, c);
      case QueryReturned(w) => AwaitingReturn(s, step, w, k, t, c);
      case RowReturned(w) => AwaitingReturn(s, step, w, k, t, c);
      case WatchAuthorised(u, allowed) => AwaitingAuthorised(s.reg, u, allowed, k, t, c);
      case _ =>
    }
  }

  lemma {:induction false} StaysAwaiting(s: State, k: SocketId, t: Token, c: EventId, later: seq<Step>)
    requires Awaits(s.reg, k, t, c) && forall step :: step in later ==> !Supersedes(step, k, t)
    ensures Awaits(Exec(s, later).reg, k, t, c)
    decreases |later|
  {
    if later != [] {
      AwaitingKept(s, later[0], k, t, c);
      StaysAwaiting(Apply(s, later[0]), k, t, c, later[1..]);
    }
  }

  /** Authorising watch `t` leaves socket `k` a candidate opened at `c`; authorising an older one registers nothing. */
  ghost predicate Wins(u: State, k: SocketId, t: Token, c: EventId) {
    && t in u.reg.intents && k in u.reg.sockets
    && (u.reg.sockets[k].open ==>
          var r := Apply(u, WatchAuthorised(t, true)).reg;
          k in r.replacement && r.replacement[k] in r.watchers && r.watchers[r.replacement[k]] == Opened(k, c))
    && (forall o, allowed :: o in u.reg.intents && o != t && u.reg.intents[o].socket == k ==>
          Apply(u, WatchAuthorised(o, allowed)).reg == u.reg.(intents := u.reg.intents - {o}))
  }

  lemma AwaitedRegisters(r: Registry, k: SocketId, t: Token, c: EventId)
    requires Awaits(r, k, t, c) && r.sockets[k].open
    ensures var u := Authorised(r, t, true);
            k in u.replacement && u.replacement[k] in u.watchers && u.watchers[u.replacement[k]] == Opened(k, c)
  {
  }

  lemma AwaitedWins(u: State, k: SocketId, t: Token, c: EventId)
    requires Wired(u.reg) && Awaits(u.reg, k, t, c)
    ensures Wins(u, k, t, c)
  {
    if u.reg.sockets[k].open { AwaitedRegisters(u.reg, k, t, c); }
    forall o, allowed | o in u.reg.intents && o != t && u.reg.intents[o].socket == k
      ensures Apply(u, WatchAuthorised(o, allowed)).reg == u.reg.(intents := u.reg.intents - {o})
    {
      AwaitingAuthorised(u.reg, o, allowed, k, t, c);
    }
  }

  lemma CalledAwaits(s: State, k: SocketId, c: EventId)
    requires Enabled(s, WatchCalled(k, c))
    ensures Awaits(Apply(s, WatchCalled(k, c)).reg, k, s.reg.nextId, c)
  {
  }

  /**
   * The newest watch of a socket wins: until it is settled or withdrawn, its authorisation leaves the socket's
   * candidate opened at its own cursor, and authorising any older watch of the socket registers nothing.
   */
  lemma {:induction false} NewestWatchWins(earlier: seq<Step>, k: SocketId, c: EventId, later: seq<Step>)
    requires Enabled(Exec(Init, earlier), WatchCalled(k, c))
    requires forall step :: step in later ==> !Supersedes(step, k, Exec(Init, earlier).reg.nextId)
    ensures Wins(Exec(Apply(Exec(Init, earlier), WatchCalled(k, c)), later), k, Exec(Init, earlier).reg.nextId, c)
  {
    var s := Exec(Init, earlier);
    var s1 := Apply(s, WatchCalled(k, c));
    RunHolds(earlier);
    StepKeeps(s, WatchCalled(k, c));
    RunKeeps(s1, later);
    CalledAwaits(s, k, c);
    StaysAwaiting(s1, k, s.reg.nextId, c, later);
    AwaitedWins(Exec(s1, later), k, s.reg.nextId, c);
  }

  /** An announcement, or the fetch of an announced row, that fails. */
  predicate Fails(step: Step) {
    step == Publish(false) || step == ForwardFetched(false)
  }

  lemma SkipsByFailure(s: State, step: Step)
    requires !Fails(step)
    ensures Apply(s, step).stream.skipped == s.stream.skipped
  {
  }

  /** Nothing is ever skipped but by such a failure. */
  lemma {:induction false} NothingSkipped(s: State, steps: seq<Step>)
    requires forall step :: step in steps ==> !Fails(step)
    ensures Exec(s, steps).stream.skipped == s.stream.skipped
    decreases |steps|
  {
    if steps != [] {
      assert steps[0] in steps;
      SkipsByFailure(s, steps[0]);
      NothingSkipped(Apply(s, steps[0]), steps[1..]);
    }
  }

  // ---- a replay makes progress ----

  /** What a reply hands to a replaying watcher, and what is then left of the batch it was draining. */
  function Arrived(wt: Watcher): (seq<EventId>, seq<EventId>) {
    match wt.phase
    case Queried(rows) => (rows, [])
    case Fetching(current, rest) => ([current], rest)
    case _ => ([], [])
  }

  lemma ReturnedLog(s: State, step: Step, w: WatcherId)
    requires Inv(s) && (step == QueryReturned(w) || step == RowReturned(w)) && Enabled(s, step)
    ensures var (wt, sk, batch) := Returned(s, step, w);
            && wt.log == s.reg.watchers[w].log + Arrived(s.reg.watchers[w]).0 && batch == Arrived(s.reg.watchers[w]).1
            && wt.queued == s.reg.watchers[w].queued && wt.lastEventId == LastOr(wt.log, wt.start)
  {
    ReturnResumes(s, step, w);
    var (wt, sk, batch) := Returned(s, step, w);
    UnraisedLog(s.stream, wt);
    assert WatcherOk(s.stream, w, s.reg.watchers[w]);
    if step.QueryReturned? {
      UnraisedLog(s.stream, s.reg.watchers[w]);
      ReplayDeliversRows(s.reg.watchers[w], s.reg.watchers[w].phase.rows);
    }
  }

  lemma {:induction false} SettledPhase(r: Registry, w: WatcherId, wt: Watcher, batch: seq<EventId>)
    requires w in r.watchers
    ensures var u, drained := Settle(r, w, wt, batch), Drain(wt, batch);
            && w in u.watchers && u.watchers[w].log == drained.log && u.watchers[w].phase == drained.phase
            && (drained.phase.Live? ==> drained.socket in u.active && u.active[drained.socket] == w)
  {
  }

  /**
   * A reply moves its candidate on: all its rows are delivered, and the candidate is then the socket's active
   * watcher if nothing it queued lies beyond them, or else waits for the least reference that does.
   */
  lemma {:induction false} ReplayProgresses(steps: seq<Step>, step: Step, w: WatcherId)
    requires (step == QueryReturned(w) || step == RowReturned(w)) && Enabled(Exec(Init, steps), step)
    ensures var s, u := Exec(Init, steps), Apply(Exec(Init, steps), step);
            var was := s.reg.watchers[w];
            && w in u.reg.watchers && u.reg.watchers[w].log == was.log + Arrived(was).0
            && Meets(LastOr(u.reg.watchers[w].log, was.start), was.queued, Arrived(was).1, u.reg.watchers[w].phase)
            && (u.reg.watchers[w].phase.Live? ==> was.socket in u.reg.active && u.reg.active[was.socket] == w)
  {
    RunHolds(steps);
    var s := Exec(Init, steps);
    ReturnResumes(s, step, w);
    ReturnedLog(s, step, w);
    var (wt, sk, batch) := Returned(s, step, w);
    DrainMeets(wt, batch);
    DrainKeepsWatcher(s.stream, w, wt, batch);
    SettledPhase(s.reg.(sockets := s.reg.sockets[wt.socket := sk]), w, wt, batch);
  }

  lemma RemovedIsGone(r: Registry, w: WatcherId)
    requires Wired(r) && w in r.watchers && r.watchers[w].Replaying()
    ensures var u := Remove(r, w);
            && u.watchers == r.watchers - {w} && u.active == r.active && r.watchers[w].socket !in u.replacement
            && (forall k :: k in r.replacement && k != r.watchers[w].socket ==> k in u.replacement && u.replacement[k] == r.replacement[k])
  {
  }

  /** A replay that fails forgets its candidate and leaves every subscription that was active, and every other watch, alone. */
  lemma {:induction false} FailedReplayIsForgotten(steps: seq<Step>, w: WatcherId)
    requires Enabled(Exec(Init, steps), WatchThrew(w))
    ensures var r, u := Exec(Init, steps).reg, Apply(Exec(Init, steps), WatchThrew(w)).reg;
            && u.watchers == r.watchers - {w} && u.active == r.active && r.watchers[w].socket !in u.replacement
            && (forall k :: k in r.replacement && k != r.watchers[w].socket ==> k in u.replacement && u.replacement[k] == r.replacement[k])
            && u.pending == r.pending && u.intents == r.intents && u.sockets == r.sockets
  {
    RunHolds(steps);
    RemovedIsGone(Exec(Init, steps).reg, w);
  }

  // ---- a cursor that names no event ----

  lemma {:induction false} ExecAppend(s: State, steps: seq<Step>, more: seq<Step>)
    ensures Exec(s, steps + more) == Exec(Exec(s, steps), more)
    decreases |steps|
  {
    if steps == [] {
      assert steps + more == more;
    } else {
      assert (steps + more)[0] == steps[0] && (steps + more)[1..] == steps[1..] + more;
      ExecAppend(Apply(s, steps[0]), steps[1..], more);
    }
  }

  lemma {:induction false} FourSteps(s: State, a: Step, b: Step, c: Step, d: Step)
    ensures Exec(s, [a, b, c, d]) == Apply(Apply(Apply(Apply(s, a), b), c), d)
  {
    assert [a, b, c, d][1..] == [b, c, d] && [b, c, d][1..] == [c, d];
    TwoSteps(Apply(Apply(s, a), b), c, d);
    assert Exec(s, [a, b, c, d]) == Exec(Apply(s, a), [b, c, d]);
    assert Exec(Apply(s, a), [b, c, d]) == Exec(Apply(Apply(s, a), b), [c, d]);
  }

  lemma {:induction false} TwoSteps(s: State, a: Step, b: Step)
    ensures Exec(s, [a, b]) == Apply(Apply(s, a), b)
  {
    assert [a, b][1..] == [b] && [b][1..] == [];
    assert Exec(s, [a, b]) == Exec(Apply(s, a), [b]);
  }

  /** An open socket that nothing but watches with these cursors was ever done to. */
  ghost predicate Fresh(r: Registry) {
    && r.sockets.Keys == {0} && r.sockets[0].open && r.intents == map[] && r.pending == map[] && r.replacement == map[]
    && (forall w :: w in r.watchers ==> w < r.nextId)
  }

  /** Socket 0 is watched from `cursor` by a watch that is authorised. */
  function Registering(r: Registry, cursor: EventId): Registry
    requires 0 in r.sockets
  {
    var w := r.nextId + 1;
    BeginWatch(r, 0, cursor).(
      pending := map[], intents := map[], nextId := w + 1,
      watchers := r.watchers[w := Opened(0, cursor)], replacement := map[0 := w])
  }

  lemma CallAndAuthorise(s: State, cursor: EventId)
    requires Fresh(s.reg) && s.client.None?
    ensures var t := s.reg.nextId;
            Apply(Apply(s, WatchCalled(0, cursor)), WatchAuthorised(t, true)) ==
            s.(stream := CalledWith(s.stream, 0, cursor), reg := Registering(s.reg, cursor))
  {
    var t := s.reg.nextId;
    var r := BeginWatch(s.reg, 0, cursor);
    assert r.pending == map[0 := t] && r.intents == map[t := Intent(0, cursor)];
    assert r.pending - {0} == map[] && r.intents - {t} == map[];
    assert r.replacement[0 := t + 1] == map[0 := t + 1];
  }

  /** The query of a run without events returns, and the candidate goes live. */
  lemma QueryEmptyRun(s: State, w: WatcherId, cursor: EventId)
    requires s.stream.committed == [] && w in s.reg.watchers && s.reg.watchers[w] == Opened(0, cursor)
    requires 0 in s.reg.sockets && s.reg.replacement == map[0 := w] && (0 in s.reg.active ==> s.reg.active[0] != w)
    ensures Apply(Apply(s, QueryRead(w)), QueryReturned(w)) ==
            s.(reg := Promote(s.reg, w, Opened(0, cursor).(phase := Live)))
  {
    var read := Apply(s, QueryRead(w));
    var queried := Opened(0, cursor).(phase := Queried([]));
    assert read.reg == s.reg.(watchers := s.reg.watchers[w := queried]) && Current(read.reg, w);
    assert read.reg.sockets[0 := read.reg.sockets[0]] == read.reg.sockets;
    var live := queried.(phase := Live);
    assert Drain(queried, []) == live;
    assert Promote(read.reg, w, live).watchers == Promote(s.reg, w, live).watchers;
  }

  lemma WatchSteps(s: State, cursor: EventId)
    requires Fresh(s.reg) && s.client.None? && s.stream.committed == [] && (0 in s.reg.active ==> s.reg.active[0] < s.reg.nextId)
    ensures var t, w := s.reg.nextId, s.reg.nextId + 1;
            Apply(Apply(Apply(Apply(s, WatchCalled(0, cursor)), WatchAuthorised(t, true)), QueryRead(w)), QueryReturned(w)) ==
            s.(stream := CalledWith(s.stream, 0, cursor),
               reg := Promote(Registering(s.reg, cursor), w, Opened(0, cursor).(phase := Live)))
  {
    CallAndAuthorise(s, cursor);
    QueryEmptyRun(s.(stream := CalledWith(s.stream, 0, cursor), reg := Registering(s.reg, cursor)), s.reg.nextId + 1, cursor);
  }

  /** `agent:watch` on socket 0 of an empty run, up to the end of its replay. */
  lemma WatchGoesLive(before: seq<Step>, s: State, cursor: EventId) returns (steps: seq<Step>)
    requires s == Exec(Init, before)
    requires Fresh(s.reg) && s.client.None? && s.stream.committed == [] && (0 in s.reg.active ==> s.reg.active[0] < s.reg.nextId)
    ensures Exec(Init, steps) == s.(stream := CalledWith(s.stream, 0, cursor),
                                    reg := Promote(Registering(s.reg, cursor), s.reg.nextId + 1, Opened(0, cursor).(phase := Live)))
  {
    var t, w := s.reg.nextId, s.reg.nextId + 1;
    var more := [WatchCalled(0, cursor), WatchAuthorised(t, true), QueryRead(w), QueryReturned(w)];
    steps := before + more;
    ExecAppend(Init, before, more);
    FourSteps(s, more[0], more[1], more[2], more[3]);
    WatchSteps(s, cursor);
  }

  /** Event 3 is committed, announced and forwarded while only watcher `w`, at cursor 5, is live. */
  lemma ForwardThird(s: State, w: WatcherId)
    requires s.stream.committed == [] && s.stream.unpublished == [] && s.stream.tail == [] && s.stream.forwarding.None?
    requires s.reg.watchers.Keys == {w} && s.reg.active == map[0 := w] && s.reg.watchers[w].phase.Live?
    requires s.reg.watchers[w].socket == 0 && s.reg.watchers[w].lastEventId == 5
    ensures var u := Apply(Apply(Apply(Apply(s, Commit(3)), Publish(true)), ForwardBegin), ForwardFetched(true));
            && u.stream == s.stream.(committed := [3], processed := 3) && u.reg.watchers == s.reg.watchers
  {
    var p := Apply(Apply(s, Commit(3)), Publish(true));
    assert p.stream == s.stream.(committed := [3], tail := [3]);
    var f := Apply(p, ForwardBegin);
    assert LiveWatchers(s.reg) == {w};
    assert f.reg.watchers == s.reg.watchers;
    var u := Apply(f, ForwardFetched(true));
    assert u.reg.watchers == s.reg.watchers;
  }

  /**
   * A watch opened at an id that is not committed yet, then one from 0 on the same socket: the second is promoted
   * at the first one's cursor, and the event committed, announced and fetched next never reaches the socket.
   */
  lemma UnnamedCursorWithholds() returns (steps: seq<Step>, w: WatcherId)
    ensures
      var s := Exec(Init, steps);
      && w in s.reg.watchers && s.reg.watchers[w].phase.Live? && s.reg.watchers[w].start == 0 && s.stream.forwarding.None?
      && 3 in s.stream.committed && !Ahead(s.stream, 3) && s.stream.skipped == {}
      && s.reg.watchers[w].Passed(3) && s.reg.watchers[w].log == []
  {
    var second := SecondWatchPromoted();
    w := 3;
    var more := [Commit(3), Publish(true), ForwardBegin, ForwardFetched(true)];
    steps := second + more;
    ExecAppend(Init, second, more);
    FourSteps(Exec(Init, second), more[0], more[1], more[2], more[3]);
    ForwardThird(Exec(Init, second), w);
  }

  lemma FirstWatchLive() returns (steps: seq<Step>)
    ensures var s := Exec(Init, steps);
            && Fresh(s.reg) && s.client.None? && s.stream == Init.stream.(unnamed := {(0, 5)}) && s.reg.nextId == 2
            && s.reg.watchers == map[1 := Opened(0, 5).(phase := Live)] && s.reg.active == map[0 := 1]
  {
    var start := [OpenSocket(0)];
    assert Exec(Init, start) == Apply(Init, OpenSocket(0)) by { assert start[1..] == []; }
    assert Fresh(Exec(Init, start).reg);
    steps := WatchGoesLive(start, Exec(Init, start), 5);
    assert Exec(Init, steps).reg.replacement == map[];
  }

  /** The watch from 0 takes over at the cursor of the one opened at 5. */
  lemma SecondWatchPromoted() returns (steps: seq<Step>)
    ensures var s := Exec(Init, steps);
            && s.stream == Init.stream.(unnamed := {(0, 5)}) && s.reg.active == map[0 := 3]
            && s.reg.watchers == map[3 := Raised(Opened(0, 0).(phase := Live), 5)]
  {
    var first := FirstWatchLive();
    steps := WatchGoesLive(first, Exec(Init, first), 0);
    SecondTakesOver(Exec(Init, first).reg);
  }

  lemma SecondTakesOver(r: Registry)
    requires r.watchers == map[1 := Opened(0, 5).(phase := Live)] && r.active == map[0 := 1] && r.nextId == 2 && 0 in r.sockets
    ensures var u := Promote(Registering(r, 0), 3, Opened(0, 0).(phase := Live));
            u.watchers == map[3 := Raised(Opened(0, 0).(phase := Live), 5)] && u.active == map[0 := 3]
  {
    var reg := Registering(r, 0);
    assert reg.watchers == map[1 := Opened(0, 5).(phase := Live), 3 := Opened(0, 0)];
    assert Remove(reg, 1).watchers == map[3 := Opened(0, 0)] && Remove(reg, 1).active == map[];
  }
}
