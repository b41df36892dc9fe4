/**
 * Durable agent events from commit to a reconnecting client: the per-run publish queue, the
 * server's per-run delivery queue, the watch registry, sockets that may die at any moment and a
 * client that resumes from its own cursor. A run of the system is any sequence of `Step`s; a step
 * that is not enabled changes nothing.
 */
module AgentEventDelivery {
  import opened Ordering
  import opened AgentRunWatchSpec

  datatype Forward = Forward(eventId: EventId, live: set<WatcherId>)

  /**
   * `unpublished` is the publisher's per-run tail, `tail` the references waiting for
   * `forwardEvent`, `processed` the newest reference it has started on. `skipped` collects the
   * events whose announcement or whose row fetch for live watchers failed, `unnamed` the cursors of
   * watches, with their sockets, that named no committed event when the watch was called.
   */
  datatype Stream = Stream(
    committed: seq<EventId>, unpublished: seq<EventId>, tail: seq<EventId>, processed: EventId,
    forwarding: Option<Forward>, skipped: set<EventId>, unnamed: set<(SocketId, EventId)>)

  /** `base` is what the client received on earlier connections, `taken` how far it read this one. */
  datatype Client = Client(socket: Option<SocketId>, first: EventId, base: seq<EventId>, taken: nat, cursor: EventId)

  datatype State = State(stream: Stream, reg: Registry, client: Option<Client>)

  datatype Step =
    | Commit(id: EventId)
    | Publish(ok: bool)
    | ForwardBegin
    | ForwardFetched(ok: bool)
    | OpenSocket(s: SocketId)
    | SetRoom(s: SocketId, room: nat)
    | DropSocket(s: SocketId)
    | CloseSocket(s: SocketId)
    | WatchCalled(s: SocketId, cursor: EventId)
    | WatchAuthorised(t: Token, allowed: bool)
    | QueryRead(w: WatcherId)
    | QueryReturned(w: WatcherId)
    | RowReturned(w: WatcherId)
    | WatchThrew(w: WatcherId)
    | UnwatchCalled(s: SocketId)
    | ClientStarts(first: EventId)
    | ClientConnects(s: SocketId)
    | ClientReceives

  const Init := State(
    Stream([], [], [], 0, None, {}, {}),
    Registry(map[], map[], map[], map[], map[], 0, map[]),
    None)

  predicate Cursor(st: Stream, c: EventId) {
    c == 0 || c in st.committed
  }

  /** A watch on `k` is called with cursor `c`; the protocol accepts any number. */
  function CalledWith(st: Stream, k: SocketId, c: EventId): Stream {
    if Cursor(st, c) then st else st.(unnamed := st.unnamed + {(k, c)})
  }

  predicate IsClientSocket(s: State, k: SocketId) {
    s.client.Some? && s.client.value.socket == Some(k)
  }

  predicate Enabled(s: State, step: Step) {
    match step
    case Commit(id) => LastOr(s.stream.committed, 0) < id
    case Publish(_) => s.stream.unpublished != []
    case ForwardBegin => s.stream.forwarding.None? && s.stream.tail != []
    case ForwardFetched(_) => s.stream.forwarding.Some?
    case OpenSocket(k) => k !in s.reg.sockets
    case SetRoom(k, _) => k in s.reg.sockets
    case DropSocket(k) => k in s.reg.sockets
    case CloseSocket(k) => k in s.reg.sockets
    case WatchCalled(k, _) => k in s.reg.sockets && !IsClientSocket(s, k)
    case WatchAuthorised(t, _) => t in s.reg.intents && s.reg.intents[t].socket in s.reg.sockets
    case QueryRead(w) => w in s.reg.watchers && s.reg.watchers[w].phase.Querying?
    case QueryReturned(w) => HasSocket(s.reg, w) && s.reg.watchers[w].phase.Queried?
    case RowReturned(w) => HasSocket(s.reg, w) && s.reg.watchers[w].phase.Fetching?
    case WatchThrew(w) => w in s.reg.watchers && s.reg.watchers[w].Replaying()
    case UnwatchCalled(_) => true
    case ClientStarts(_) => s.client.None?
    case ClientConnects(k) => s.client.Some? && k !in s.reg.sockets
    case ClientReceives =>
      s.client.Some? && s.client.value.socket.Some? && s.client.value.socket.value in s.reg.sockets &&
      s.client.value.taken < |s.reg.sockets[s.client.value.socket.value].wire|
  }

  function AddSocket(r: Registry, k: SocketId): Registry {
    r.(sockets := r.sockets[k := Socket(true, 0, [], 0, 0)])
  }

  function Received(s: State): seq<EventId>
    requires s.client.Some?
  {
    var c := s.client.value;
    if c.socket.Some? && c.socket.value in s.reg.sockets && c.taken <= |s.reg.sockets[c.socket.value].wire|
    then c.base + s.reg.sockets[c.socket.value].wire[..c.taken]
    else c.base
  }

  function Apply(s: State, step: Step): State {
    if !Enabled(s, step) then s
    else
      var st, r := s.stream, s.reg;
      match step
      case Commit(id) => s.(stream := st.(committed := st.committed + [id], unpublished := st.unpublished + [id]))
      case Publish(ok) =>
        var head := st.unpublished[0];
        s.(stream := if ok then st.(unpublished := st.unpublished[1..], tail := st.tail + [head])
                     else st.(unpublished := st.unpublished[1..], skipped := st.skipped + {head}))
      case ForwardBegin =>
        var e := st.tail[0];
        var queued := Enqueue(r, e);
        var live := LiveWatchers(r);
        s.(stream := st.(tail := st.tail[1..], processed := e,
                         forwarding := if live == {} then None else Some(Forward(e, live))),
           reg := queued)
      case ForwardFetched(ok) =>
        var f := st.forwarding.value;
        if ok then s.(stream := st.(forwarding := None), reg := Deliver(r, f.live, f.eventId))
        else s.(stream := st.(forwarding := None, skipped := st.skipped + {f.eventId}))
      case OpenSocket(k) => s.(reg := AddSocket(r, k))
      case SetRoom(k, n) => s.(reg := r.(sockets := r.sockets[k := r.sockets[k].(room := n)]))
      case DropSocket(k) => s.(reg := r.(sockets := r.sockets[k := r.sockets[k].(open := false)]))
      case CloseSocket(k) => s.(reg := SocketClosed(r, k))
      case WatchCalled(k, c) => s.(stream := CalledWith(st, k, c), reg := BeginWatch(r, k, c))
      case WatchAuthorised(t, allowed) => s.(reg := Authorised(r, t, allowed))
      case QueryRead(w) => s.(reg := AgentRunWatchSpec.Snapshot(r, w, st.committed))
      case QueryReturned(w) => s.(reg := ReplayReturned(r, w))
      case RowReturned(w) => s.(reg := AgentRunWatchSpec.DrainFetched(r, w))
      case WatchThrew(w) => s.(reg := Remove(r, w))
      case UnwatchCalled(k) => s.(reg := Unwatch(r, k))
      case ClientStarts(c) => s.(client := Some(Client(None, c, [], 0, c)))
      case ClientConnects(k) =>
        var c := s.client.value;
        s.(stream := CalledWith(st, k, c.cursor), reg := BeginWatch(AddSocket(r, k), k, c.cursor),
           client := Some(Client(Some(k), c.first, Received(s), 0, c.cursor)))
      case ClientReceives =>
        var c := s.client.value;
        s.(client := Some(c.(taken := c.taken + 1, cursor := r.sockets[c.socket.value].wire[c.taken])))
  }

  function Exec(s: State, steps: seq<Step>): State
    decreases |steps|
  {
    if steps == [] then s else Exec(Apply(s, steps[0]), steps[1..])
  }

  // ---- invariants ----

  predicate Ahead(st: Stream, e: EventId) {
    e in st.tail || e in st.unpublished
  }

  ghost predicate StreamOk(st: Stream) {
    && Rising(st.committed) && (forall x :: x in st.committed ==> 0 < x)
    && Rising(st.tail) && Rising(st.unpublished)
    && (forall x, y :: x in st.tail && y in st.unpublished ==> x < y)
    && (forall x :: Ahead(st, x) ==> x in st.committed && st.processed < x)
    && (st.processed == 0 || st.processed in st.committed)
    && (st.forwarding.Some? ==>
          && st.forwarding.value.eventId == st.processed
          && st.processed in st.committed
          && st.processed !in st.skipped)
    && (forall x :: x in st.skipped ==> x in st.committed && !Ahead(st, x))
  }

  /** What a watcher still has to look at, besides references that have not been processed yet. */
  predicate Todo(st: Stream, w: WatcherId, wt: Watcher, e: EventId) {
    match wt.phase
    case Querying => true
    case Queried(rows) => e in rows || e in wt.queued
    case Fetching(current, rest) => e == current || e in rest || e in wt.queued
    case Live => st.forwarding.Some? && e == st.forwarding.value.eventId && w in st.forwarding.value.live
  }

  ghost predicate LogOk(st: Stream, start: EventId, log: seq<EventId>) {
    && Rising(log)
    && (forall x :: x in log ==> x in st.committed && start < x)
    && (forall e :: e in st.committed && start < e <= LastOr(log, start) ==> e in log || e in st.skipped)
  }

  ghost predicate Covered(st: Stream, w: WatcherId, wt: Watcher) {
    forall e :: e in st.committed && e > wt.lastEventId && e !in st.skipped ==> Ahead(st, e) || Todo(st, w, wt, e)
  }

  /** Every reference held in memory is a processed one. */
  ghost predicate Seen(st: Stream, ids: set<EventId>) {
    forall x :: x in ids ==> x in st.committed && x <= st.processed
  }

  ghost predicate BatchOk(st: Stream, wt: Watcher, batch: seq<EventId>) {
    && Rising(batch) && (forall x :: x in batch ==> x in st.committed && x <= st.processed)
    && (forall x, y :: x in batch && y in wt.queued ==> x < y)
  }

  ghost predicate RowsOk(st: Stream, start: EventId, rows: seq<EventId>) {
    && Rising(rows)
    && (forall x :: x in rows ==> x in st.committed && start < x)
    && (forall e :: e in st.committed && start < e <= LastOr(rows, start) ==> e in rows)
  }

  ghost predicate PhaseOk(st: Stream, wt: Watcher) {
    match wt.phase
    case Querying => wt.log == []
    case Queried(rows) => wt.log == [] && RowsOk(st, wt.start, rows)
    case Fetching(current, rest) => wt.lastEventId < current && BatchOk(st, wt, [current] + rest)
    case Live => wt.queued == {}
  }

  /** A cursor of a watch on `k`: it named 0 or a committed event, or is noted as unnamed. */
  predicate CursorOf(st: Stream, k: SocketId, c: EventId) {
    Cursor(st, c) || (k, c) in st.unnamed
  }

  /** A watcher's log has no gap but what its promotion passed over, and only an unnamed cursor makes that so. */
  ghost predicate DeliveredOk(st: Stream, wt: Watcher) {
    && Rising(wt.log) && (forall x :: x in wt.log ==> x in st.committed && wt.start < x && !wt.Passed(x))
    && (wt.from == wt.start || wt.from in wt.log) && wt.from <= wt.floor
    && wt.lastEventId == (if LastOr(wt.log, wt.start) < wt.floor then wt.floor else LastOr(wt.log, wt.start))
    && (forall e :: e in st.committed && wt.start < e <= wt.lastEventId ==> e in wt.log || e in st.skipped || wt.Passed(e))
    && CursorOf(st, wt.socket, wt.start) && (wt.from < wt.floor ==> (wt.socket, wt.floor) in st.unnamed)
  }

  ghost predicate WatcherOk(st: Stream, w: WatcherId, wt: Watcher) {
    && DeliveredOk(st, wt) && (wt.Replaying() ==> wt.floor == wt.start)
    && Seen(st, wt.queued) && PhaseOk(st, wt) && Covered(st, w, wt)
  }

  /** Active watchers are live, candidates replay, and every id is older than the next one. */
  ghost predicate Wired(r: Registry) {
    && (forall w :: w in r.watchers ==>
          var wt := r.watchers[w];
          && w < r.nextId && wt.socket in r.sockets
          && (if wt.Replaying() then wt.socket in r.replacement && r.replacement[wt.socket] == w
              else wt.socket in r.active && r.active[wt.socket] == w))
    && (forall k :: k in r.active ==>
          r.active[k] in r.watchers && r.watchers[r.active[k]].socket == k && !r.watchers[r.active[k]].Replaying())
    && (forall k :: k in r.replacement ==>
          && r.replacement[k] in r.watchers && r.watchers[r.replacement[k]].socket == k
          && r.watchers[r.replacement[k]].Replaying())
    && (forall t :: t in r.intents ==> t < r.nextId && r.intents[t].socket in r.sockets)
  }

  ghost predicate ForwardOk(st: Stream, r: Registry) {
    st.forwarding.Some? ==>
      forall w :: w in st.forwarding.value.live ==> w < r.nextId && (w in r.watchers ==> !r.watchers[w].Replaying())
  }

  ghost predicate WatchersOk(st: Stream, r: Registry) {
    && (forall w :: w in r.watchers ==> WatcherOk(st, w, r.watchers[w]))
    && (forall t :: t in r.intents ==> CursorOf(st, r.intents[t].socket, r.intents[t].cursor))
  }

  predicate Held(wt: Watcher, e: EventId) {
    match wt.phase
    case Querying => true
    case Queried(rows) => e in rows || e in wt.queued
    case Fetching(current, rest) => e == current || e in rest || e in wt.queued
    case Live => false
  }

  /** An active watcher that has delivered nothing since its unnamed cursor. */
  predicate AtUnnamed(st: Stream, wt: Watcher) {
    wt.lastEventId == wt.floor && (wt.socket, wt.floor) in st.unnamed
  }

  /** A candidate has delivered, or still holds, whatever the active watcher last delivered. */
  ghost predicate PairOk(st: Stream, existing: Watcher, candidate: Watcher) {
    existing.lastEventId <= candidate.lastEventId || Held(candidate, existing.lastEventId) || AtUnnamed(st, existing)
  }

  ghost predicate PairsOk(st: Stream, r: Registry) {
    forall k :: k in r.active && k in r.replacement && r.active[k] in r.watchers && r.replacement[k] in r.watchers ==>
      PairOk(st, r.watchers[r.active[k]], r.watchers[r.replacement[k]])
  }

  /** A socket that carried no watch yet. */
  ghost predicate Unused(r: Registry, k: SocketId)
    requires k in r.sockets
  {
    && r.sockets[k].wire == []
    && (forall t :: t in r.intents ==> r.intents[t].socket != k)
    && (forall w :: w in r.watchers ==> r.watchers[w].socket != k)
  }

  /** A socket that carried one watch: its frames are a gap-free log from that watch's cursor. */
  ghost predicate UsedOnce(st: Stream, r: Registry, k: SocketId)
    requires k in r.sockets
  {
    var sk := r.sockets[k];
    && LogOk(st, sk.since, sk.wire)
    && (forall t :: t in r.intents && r.intents[t].socket == k ==> r.intents[t].cursor == sk.since && sk.wire == [])
    && (forall t, u :: t in r.intents && u in r.intents && r.intents[t].socket == k && r.intents[u].socket == k ==> t == u)
    && (forall t, w :: t in r.intents && w in r.watchers && r.intents[t].socket == k ==> r.watchers[w].socket != k)
    && (forall w :: w in r.watchers && r.watchers[w].socket == k ==>
          r.watchers[w].start == r.watchers[w].floor == sk.since && (sk.open ==> sk.wire == r.watchers[w].log))
    && (forall v, w :: v in r.watchers && w in r.watchers && r.watchers[v].socket == k && r.watchers[w].socket == k ==> v == w)
  }

  ghost predicate SocketsOk(st: Stream, r: Registry) {
    forall k :: k in r.sockets ==>
      (r.sockets[k].watches == 0 ==> Unused(r, k)) && (r.sockets[k].watches == 1 ==> UsedOnce(st, r, k))
  }

  ghost predicate ClientOk(st: Stream, r: Registry, client: Option<Client>) {
    client.Some? ==>
      var c := client.value;
      && LogOk(st, c.first, c.base)
      && match c.socket
         case None => c.base == [] && c.cursor == c.first
         case Some(k) =>
           && k in r.sockets && r.sockets[k].watches == 1
           && r.sockets[k].since == LastOr(c.base, c.first)
           && c.taken <= |r.sockets[k].wire|
           && c.cursor == LastOr(r.sockets[k].wire[..c.taken], r.sockets[k].since)
  }

  ghost predicate Inv(s: State) {
    && StreamOk(s.stream) && Wired(s.reg) && ForwardOk(s.stream, s.reg) && WatchersOk(s.stream, s.reg)
    && PairsOk(s.stream, s.reg) && SocketsOk(s.stream, s.reg) && ClientOk(s.stream, s.reg, s.client)
  }
}
