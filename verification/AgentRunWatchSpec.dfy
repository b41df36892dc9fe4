/**
 * One agent run's `agent:watch` registry as values: every function below is one stretch of code
 * between two `await`s, so any interleaving of the asynchronous source is a sequence of these calls.
 */
module AgentRunWatchSpec {
  import opened Ordering

  type EventId = nat
  type WatcherId = nat
  type SocketId = nat
  type Token = nat

  /**
   * A server-side socket. `room` is how many more frames fit before its buffer exceeds the
   * backpressure threshold; `wire` is every event frame handed to it. `watches` counts the
   * `agent:watch` frames it carried and `since` is the cursor of the first of them.
   */
  datatype Socket = Socket(open: bool, room: nat, wire: seq<EventId>, watches: nat, since: EventId)

  /** Where a watcher's `watch()` call is suspended. */
  datatype Phase =
    | Querying                                       // the cursor query is issued
    | Queried(rows: seq<EventId>)                    // it has read `rows`, the reply is on its way
    | Fetching(current: EventId, rest: seq<EventId>) // a queued row is being fetched, `rest` of the batch waits
    | Live                                           // `watch()` has returned

  /**
   * The last four are history: the cursor it was opened with, the events it has delivered, and how far its
   * promotion raised its cursor, from its own last delivery `from` to the `floor` it inherited.
   */
  datatype Watcher = Watcher(
    socket: SocketId, lastEventId: EventId, queued: set<EventId>, phase: Phase,
    start: EventId, log: seq<EventId>, from: EventId, floor: EventId)
  {
    predicate Replaying() { !phase.Live? }

    /** Passed over by the promotion. */
    predicate Passed(e: EventId) { from < e <= floor }
  }

  function Opened(s: SocketId, cursor: EventId): Watcher {
    Watcher(s, cursor, {}, Querying, cursor, [], cursor, cursor)
  }

  datatype Intent = Intent(socket: SocketId, cursor: EventId)

  datatype Registry = Registry(
    watchers: map<WatcherId, Watcher>,
    active: map<SocketId, WatcherId>,
    replacement: map<SocketId, WatcherId>,
    pending: map<SocketId, Token>,
    intents: map<Token, Intent>,
    nextId: nat,
    sockets: map<SocketId, Socket>)

  predicate Current(r: Registry, w: WatcherId) {
    w in r.watchers &&
    var s := r.watchers[w].socket;
    (s in r.active && r.active[s] == w) || (s in r.replacement && r.replacement[s] == w)
  }

  function Unlink(m: map<SocketId, WatcherId>, s: SocketId, w: WatcherId): map<SocketId, WatcherId> {
    if s in m && m[s] == w then m - {s} else m
  }

  function Remove(r: Registry, w: WatcherId): Registry
    requires w in r.watchers
  {
    var s := r.watchers[w].socket;
    r.(watchers := r.watchers - {w}, active := Unlink(r.active, s, w), replacement := Unlink(r.replacement, s, w))
  }

  function RemoveActive(r: Registry, s: SocketId): Registry {
    if s in r.active && r.active[s] in r.watchers then Remove(r, r.active[s]) else r
  }

  function RemoveReplacement(r: Registry, s: SocketId): Registry {
    if s in r.replacement && r.replacement[s] in r.watchers then Remove(r, r.replacement[s]) else r
  }

  // ---- sending ----

  /** `sendWithBackpressure`: a closed socket swallows the frame, a full one is closed instead. */
  function Push(k: Socket, e: EventId): Socket {
    if !k.open then k
    else if k.room == 0 then k.(open := false)
    else k.(room := k.room - 1, wire := k.wire + [e])
  }

  /** `deliver` for a watcher already known to be current. */
  function Offer(wt: Watcher, e: EventId): Watcher {
    if e <= wt.lastEventId then wt else wt.(lastEventId := e, log := wt.log + [e])
  }

  function OfferSocket(wt: Watcher, k: Socket, e: EventId): Socket {
    if e <= wt.lastEventId then k else Push(k, e)
  }

  function OfferAll(wt: Watcher, rows: seq<EventId>): Watcher
    decreases |rows|
  {
    if rows == [] then wt else OfferAll(Offer(wt, rows[0]), rows[1..])
  }

  function OfferAllSocket(wt: Watcher, k: Socket, rows: seq<EventId>): Socket
    decreases |rows|
  {
    if rows == [] then k else OfferAllSocket(Offer(wt, rows[0]), OfferSocket(wt, k, rows[0]), rows[1..])
  }

  // ---- watch() ----

  function BeginWatch(r: Registry, s: SocketId, cursor: EventId): Registry
    requires s in r.sockets
  {
    var k := r.sockets[s];
    r.(pending := r.pending[s := r.nextId],
       intents := r.intents[r.nextId := Intent(s, cursor)],
       nextId := r.nextId + 1,
       sockets := r.sockets[s := k.(watches := k.watches + 1, since := if k.watches == 0 then cursor else k.since)])
  }

  predicate IsPending(r: Registry, t: Token) {
    t in r.intents && r.intents[t].socket in r.pending && r.pending[r.intents[t].socket] == t
  }

  function FinishPending(r: Registry, t: Token): Registry
    requires t in r.intents
  {
    r.(intents := r.intents - {t},
       pending := if IsPending(r, t) then r.pending - {r.intents[t].socket} else r.pending)
  }

  /** The authorisation await of `watch()` resolves; a still-wanted watch registers its candidate. */
  function Authorised(r: Registry, t: Token, allowed: bool): Registry
    requires t in r.intents && r.intents[t].socket in r.sockets
  {
    var it := r.intents[t];
    var finished := FinishPending(r, t);
    if !IsPending(r, t) || !allowed || !r.sockets[it.socket].open then finished
    else
      var cleared := RemoveReplacement(finished, it.socket);
      cleared.(watchers := cleared.watchers[r.nextId := Opened(it.socket, it.cursor)],
               replacement := cleared.replacement[it.socket := r.nextId],
               nextId := r.nextId + 1)
  }

  /** The rows of a cursor query over the committed events. */
  function After(rows: seq<EventId>, cursor: EventId): seq<EventId> {
    if rows == [] then []
    else if rows[0] > cursor then [rows[0]] + After(rows[1..], cursor)
    else After(rows[1..], cursor)
  }

  function Snapshot(r: Registry, w: WatcherId, committed: seq<EventId>): Registry
    requires w in r.watchers
  {
    var wt := r.watchers[w];
    r.(watchers := r.watchers[w := wt.(phase := Queried(After(committed, wt.start)))])
  }

  /** The drain loop of `watch()` up to its next row fetch, or to its end. */
  function Drain(wt: Watcher, batch: seq<EventId>): Watcher
    decreases |wt.queued|, |batch|
  {
    if batch == [] then
      if wt.queued == {} then wt.(phase := Live)
      else Drain(wt.(queued := {}), Ascending(wt.queued))
    else if batch[0] <= wt.lastEventId then Drain(wt, batch[1..])
    else wt.(phase := Fetching(batch[0], batch[1..]))
  }

  function Raised(wt: Watcher, known: EventId): Watcher {
    wt.(lastEventId := known, from := wt.lastEventId, floor := known)
  }

  /** The candidate takes over from the socket's active watcher, its cursor not behind that one's. */
  function Promote(r: Registry, w: WatcherId, wt: Watcher): Registry {
    var s := wt.socket;
    var known := if s in r.active && r.active[s] in r.watchers then r.watchers[r.active[s]].lastEventId else 0;
    var bumped := if known > wt.lastEventId then Raised(wt, known) else wt;
    var cleared := if s in r.active && r.active[s] != w then RemoveActive(r, s) else r;
    cleared.(watchers := cleared.watchers[w := bumped],
             active := cleared.active[s := w],
             replacement := Unlink(cleared.replacement, s, w))
  }

  function Settle(r: Registry, w: WatcherId, wt: Watcher, batch: seq<EventId>): Registry {
    var drained := Drain(wt, batch);
    if drained.phase.Live? then Promote(r, w, drained) else r.(watchers := r.watchers[w := drained])
  }

  predicate HasSocket(r: Registry, w: WatcherId) {
    w in r.watchers && r.watchers[w].socket in r.sockets
  }

  /** The cursor query's reply reaches `watch()`: replay the rows, then drain what queued meanwhile. */
  function ReplayReturned(r: Registry, w: WatcherId): Registry
    requires HasSocket(r, w) && r.watchers[w].phase.Queried?
  {
    var wt := r.watchers[w];
    if !Current(r, w) then r
    else
      var k := OfferAllSocket(wt, r.sockets[wt.socket], wt.phase.rows);
      Settle(r.(sockets := r.sockets[wt.socket := k]), w, OfferAll(wt, wt.phase.rows), [])
  }

  /** A queued row arrives in the drain loop. */
  function DrainFetched(r: Registry, w: WatcherId): Registry
    requires HasSocket(r, w) && r.watchers[w].phase.Fetching?
  {
    var wt := r.watchers[w];
    if !Current(r, w) then r
    else
      var k := OfferSocket(wt, r.sockets[wt.socket], wt.phase.current);
      Settle(r.(sockets := r.sockets[wt.socket := k]), w, Offer(wt, wt.phase.current), wt.phase.rest)
  }

  // ---- unwatch, close ----

  function Unwatch(r: Registry, s: SocketId): Registry {
    RemoveReplacement(RemoveActive(r.(pending := r.pending - {s}), s), s)
  }

  function SocketClosed(r: Registry, s: SocketId): Registry
    requires s in r.sockets
  {
    Unwatch(r.(sockets := r.sockets[s := r.sockets[s].(open := false)]), s)
  }

  // ---- forwardEvent ----

  /** The synchronous head of `forwardEvent`: replaying watchers keep the reference. */
  function Enqueue(r: Registry, e: EventId): Registry {
    r.(watchers := map w | w in r.watchers ::
                     if r.watchers[w].Replaying() then r.watchers[w].(queued := r.watchers[w].queued + {e})
                     else r.watchers[w])
  }

  /** ... and the live ones are picked before the row is fetched. */
  function LiveWatchers(r: Registry): set<WatcherId> {
    set w | w in r.watchers && !r.watchers[w].Replaying() && Current(r, w)
  }

  predicate Reaches(r: Registry, live: set<WatcherId>, s: SocketId) {
    s in r.active && r.active[s] in live && r.active[s] in r.watchers
  }

  /** The fetched row is delivered to the live watchers that are still current. */
  function Deliver(r: Registry, live: set<WatcherId>, e: EventId): Registry {
    r.(watchers := map w | w in r.watchers ::
                     if w in live && Current(r, w) then Offer(r.watchers[w], e) else r.watchers[w],
       sockets := map s | s in r.sockets ::
                    if Reaches(r, live, s) then OfferSocket(r.watchers[r.active[s]], r.sockets[s], e) else r.sockets[s])
  }
}
