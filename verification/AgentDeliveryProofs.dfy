/** The invariant over every run of the delivery system, and what it gives a client. */
module AgentDeliveryProofs {
  import opened Ordering
  import opened AgentRunWatchSpec
  import opened AgentEventDelivery
  import opened AgentWatcherProofs

  // ---- logs ----

  lemma PrefixIsComplete(st: Stream, start: EventId, log: seq<EventId>, n: nat)
    requires LogOk(st, start, log) && n <= |log|
    ensures LogOk(st, start, log[..n])
  {
    var p := log[..n];
    forall e | e in st.committed && start < e <= LastOr(p, start) ensures e in p || e in st.skipped {
      if n > 0 {
        assert LastOr(p, start) == log[n - 1] <= LastOr(log, start);
        if e !in st.skipped {
          var i :| 0 <= i < |log| && log[i] == e;
          assert i < n;
          assert p[i] == e;
        }
      }
    }
  }

  /** A complete log followed by a complete log from its last id is complete. */
  lemma LogsCompose(st: Stream, first: EventId, base: seq<EventId>, more: seq<EventId>)
    requires LogOk(st, first, base) && LogOk(st, LastOr(base, first), more)
    ensures LogOk(st, first, base + more)
  {
    var mid, all := LastOr(base, first), base + more;
    forall i, j | 0 <= i < j < |all| ensures all[i] < all[j] {
      if i < |base| <= j {
        assert all[j] in more;
        assert base[i] <= mid;
      }
    }
    if base != [] { assert base[|base| - 1] in base; }
    forall x | x in all ensures x in st.committed && first < x {
      assert x in base || x in more;
    }
    forall e | e in st.committed && first < e <= LastOr(all, first) ensures e in all || e in st.skipped {
      if more == [] { assert all == base; }
      if e <= mid { assert e in base || e in st.skipped; } else { assert e in more || e in st.skipped; }
    }
  }

  lemma LogKept(st: Stream, st': Stream, start: EventId, log: seq<EventId>)
    requires LogOk(st, start, log) && StreamOk(st)
    requires st.skipped <= st'.skipped
    requires st'.committed == st.committed ||
             (exists id :: st'.committed == st.committed + [id] && LastOr(st.committed, 0) < id)
    ensures LogOk(st', start, log)
  {
    if st'.committed != st.committed {
      var id :| st'.committed == st.committed + [id] && LastOr(st.committed, 0) < id;
      if log != [] { assert log[|log| - 1] in log; LastIsGreatest(st.committed, log[|log| - 1]); }
      assert forall x :: x in st'.committed <==> x in st.committed || x == id;
    }
  }

  // ---- sockets follow their watcher ----

  /** While the socket stays open it carries exactly the log; once closed it keeps a prefix of it. */
  ghost predicate Follows(wt: Watcher, k: Socket, wt': Watcher, k': Socket) {
    && k'.watches == k.watches && k'.since == k.since
    && wt.log <= wt'.log && wt.start == wt'.start && wt.socket == wt'.socket
    && (k.open && k.wire == wt.log ==> k'.wire <= wt'.log && (k'.open ==> k'.wire == wt'.log))
    && (!k.open ==> k' == k)
    && k.wire <= k'.wire
  }

  lemma OfferFollows(wt: Watcher, k: Socket, e: EventId)
    ensures Follows(wt, k, Offer(wt, e), OfferSocket(wt, k, e))
  {
  }

  lemma {:induction false} OfferAllFollows(wt: Watcher, k: Socket, rows: seq<EventId>)
    ensures Follows(wt, k, OfferAll(wt, rows), OfferAllSocket(wt, k, rows))
    decreases |rows|
  {
    if rows != [] {
      OfferFollows(wt, k, rows[0]);
      var wt1, k1 := Offer(wt, rows[0]), OfferSocket(wt, k, rows[0]);
      OfferAllFollows(wt1, k1, rows[1..]);
      var wt2, k2 := OfferAll(wt1, rows[1..]), OfferAllSocket(wt1, k1, rows[1..]);
      if k.open && k.wire == wt.log && !k1.open {
        assert k2 == k1;
      }
    }
  }

  // ---- removing a watcher ----

  ghost predicate SocketOk(st: Stream, r: Registry, k: SocketId)
    requires k in r.sockets
  {
    (r.sockets[k].watches == 0 ==> Unused(r, k)) && (r.sockets[k].watches == 1 ==> UsedOnce(st, r, k))
  }

  /** Fewer watchers and intents leave an untouched socket in order. */
  lemma SocketKept(st: Stream, r: Registry, r': Registry, k: SocketId)
    requires k in r.sockets && k in r'.sockets && r'.sockets[k] == r.sockets[k] && SocketOk(st, r, k)
    requires forall t :: t in r'.intents && r'.intents[t].socket == k ==> t in r.intents && r.intents[t] == r'.intents[t]
    requires forall w :: w in r'.watchers && r'.watchers[w].socket == k ==> w in r.watchers && r.watchers[w].socket == k
    requires forall w :: w in r'.watchers && r'.watchers[w].socket == k ==>
               && r.watchers[w].start == r'.watchers[w].start && r.watchers[w].floor == r'.watchers[w].floor
               && r.watchers[w].log == r'.watchers[w].log
    ensures SocketOk(st, r', k)
  {
  }

  lemma RemoveWired(r: Registry, w: WatcherId)
    requires Wired(r) && w in r.watchers
    ensures Wired(Remove(r, w))
  {
  }

  lemma RemoveKeeps(s: State, w: WatcherId)
    requires Inv(s) && w in s.reg.watchers
    ensures Inv(s.(reg := Remove(s.reg, w)))
  {
    var r, r' := s.reg, Remove(s.reg, w);
    RemoveWired(r, w);
    forall k | k in r'.sockets ensures SocketOk(s.stream, r', k) { SocketKept(s.stream, r, r', k); }
    assert PairsOk(s.stream, r') by { assert forall v :: v in r'.watchers ==> r'.watchers[v] == r.watchers[v]; }
  }

  lemma UnwatchKeeps(s: State, k: SocketId)
    requires Inv(s)
    ensures Inv(s.(reg := Unwatch(s.reg, k)))
  {
    var s0 := s.(reg := s.reg.(pending := s.reg.pending - {k}));
    PendingIsFree(s, s.reg.pending - {k});
    var s1 := s0.(reg := RemoveActive(s0.reg, k));
    if k in s0.reg.active { RemoveKeeps(s0, s0.reg.active[k]); }
    if k in s1.reg.replacement { RemoveKeeps(s1, s1.reg.replacement[k]); }
  }

  lemma PendingIsFree(s: State, pending: map<SocketId, Token>)
    requires Inv(s)
    ensures Inv(s.(reg := s.reg.(pending := pending)))
  {
    var r, r' := s.reg, s.reg.(pending := pending);
    forall k | k in r'.sockets ensures SocketOk(s.stream, r', k) { SocketKept(s.stream, r, r', k); }
  }

  // ---- the stream moves under the registry ----

  ghost predicate Grows(st: Stream, st': Stream) {
    && st.skipped <= st'.skipped && st.unnamed <= st'.unnamed
    && (st'.committed == st.committed ||
        exists id :: st'.committed == st.committed + [id] && LastOr(st.committed, 0) < id)
  }

  lemma StreamMoves(s: State, st': Stream)
    requires Inv(s) && StreamOk(st') && Grows(s.stream, st')
    requires WatchersOk(st', s.reg) && ForwardOk(st', s.reg)
    ensures Inv(s.(stream := st'))
  {
    var st, r := s.stream, s.reg;
    forall k | k in r.sockets ensures SocketOk(st', r, k) {
      if r.sockets[k].watches == 1 { LogKept(st, st', r.sockets[k].since, r.sockets[k].wire); }
    }
    if s.client.Some? { LogKept(st, st', s.client.value.first, s.client.value.base); }
  }

  lemma CommitKeeps(s: State, id: EventId)
    requires Inv(s) && Enabled(s, Commit(id))
    ensures Inv(Apply(s, Commit(id)))
  {
    CommitKeepsStream(s.stream, id);
    forall w | w in s.reg.watchers ensures WatcherOk(CommitTo(s.stream, id), w, s.reg.watchers[w]) {
      CommitKeepsWatcher(s.stream, id, w, s.reg.watchers[w]);
    }
    StreamMoves(s, CommitTo(s.stream, id));
  }

  lemma PublishKeeps(s: State, ok: bool)
    requires Inv(s) && Enabled(s, Publish(ok))
    ensures Inv(Apply(s, Publish(ok)))
  {
    PublishKeepsStream(s.stream, ok);
    forall w | w in s.reg.watchers ensures WatcherOk(PublishHead(s.stream, ok), w, s.reg.watchers[w]) {
      PublishKeepsWatcher(s.stream, ok, w, s.reg.watchers[w]);
    }
    StreamMoves(s, PublishHead(s.stream, ok));
  }

  // ---- forwardEvent ----

  lemma EnqueueWired(r: Registry, e: EventId)
    requires Wired(r)
    ensures Wired(Enqueue(r, e)) && forall st :: PairsOk(st, r) ==> PairsOk(st, Enqueue(r, e))
  {
  }

  lemma EnqueueSockets(st: Stream, st': Stream, r: Registry, e: EventId)
    requires SocketsOk(st, r) && StreamOk(st) && Grows(st, st')
    ensures SocketsOk(st', Enqueue(r, e))
  {
    forall k | k in r.sockets ensures SocketOk(st', Enqueue(r, e), k) {
      SocketKept(st, r, Enqueue(r, e), k);
      if r.sockets[k].watches == 1 { LogKept(st, st', r.sockets[k].since, r.sockets[k].wire); }
    }
  }

  lemma ForwardWatchers(st: Stream, r: Registry)
    requires StreamOk(st) && Wired(r) && WatchersOk(st, r) && st.forwarding.None? && st.tail != []
    ensures WatchersOk(StartForward(st, LiveWatchers(r)), Enqueue(r, st.tail[0]))
    ensures ForwardOk(StartForward(st, LiveWatchers(r)), Enqueue(r, st.tail[0]))
  {
    var live := LiveWatchers(r);
    var st', r' := StartForward(st, live), Enqueue(r, st.tail[0]);
    forall w | w in r'.watchers ensures WatcherOk(st', w, r'.watchers[w]) {
      if r.watchers[w].Replaying() {
        ForwardKeepsReplaying(st, live, w, r.watchers[w]);
      } else {
        ForwardKeepsLive(st, live, w, r.watchers[w]);
      }
    }
  }

  lemma ForwardBeginKeeps(s: State)
    requires Inv(s) && Enabled(s, ForwardBegin)
    ensures Inv(Apply(s, ForwardBegin))
  {
    var st, r, e := s.stream, s.reg, s.stream.tail[0];
    var live := LiveWatchers(r);
    var st', r' := StartForward(st, live), Enqueue(r, e);
    ForwardKeepsStream(st, live);
    EnqueueWired(r, e);
    EnqueueSockets(st, st', r, e);
    ForwardWatchers(st, r);
    PairsMove(st, st', r');
    assert ClientOk(st', r', s.client) by {
      if s.client.Some? { LogKept(st, st', s.client.value.first, s.client.value.base); }
    }
    assert Apply(s, ForwardBegin) == State(st', r', s.client);
  }

  lemma PairsMove(st: Stream, st': Stream, r: Registry)
    requires PairsOk(st, r) && st.unnamed <= st'.unnamed
    ensures PairsOk(st', r)
  {
  }

  lemma DeliverWired(r: Registry, live: set<WatcherId>, e: EventId)
    requires Wired(r)
    ensures Wired(Deliver(r, live, e))
  {
  }

  /** A candidate already holds the reference its socket's active watcher is about to deliver. */
  lemma DeliverPairs(st: Stream, r: Registry)
    requires StreamOk(st) && Wired(r) && WatchersOk(st, r) && ForwardOk(st, r) && PairsOk(st, r) && st.forwarding.Some?
    ensures PairsOk(st, Deliver(r, st.forwarding.value.live, st.forwarding.value.eventId))
  {
    var live, e := st.forwarding.value.live, st.forwarding.value.eventId;
    var r' := Deliver(r, live, e);
    forall k | k in r'.active && k in r'.replacement && r'.active[k] in r'.watchers && r'.replacement[k] in r'.watchers
      ensures PairOk(st, r'.watchers[r'.active[k]], r'.watchers[r'.replacement[k]])
    {
      var o, n := r.active[k], r.replacement[k];
      assert r'.watchers[n] == r.watchers[n];
      assert PairOk(st, r.watchers[o], r.watchers[n]);
      assert WatcherOk(st, n, r.watchers[n]);
      if e > r.watchers[n].lastEventId {
        assert Ahead(st, e) || Todo(st, n, r.watchers[n], e);
      }
    }
  }

  ghost predicate Unraised(st: Stream, wt: Watcher) {
    wt.floor == wt.start && LogOk(st, wt.start, wt.log)
  }

  /** A socket whose only watcher moved on, taking the socket along, stays in order. */
  lemma SocketFollows(st: Stream, st': Stream, r: Registry, r': Registry, k: SocketId, w: WatcherId)
    requires st'.committed == st.committed && st'.skipped == st.skipped
    requires k in r.sockets && k in r'.sockets && SocketOk(st, r, k) && r'.intents == r.intents
    requires w in r.watchers && r.watchers[w].socket == k && w in r'.watchers
    requires Follows(r.watchers[w], r.sockets[k], r'.watchers[w], r'.sockets[k])
    requires r.sockets[k].watches == 1 ==> Unraised(st, r'.watchers[w])
    requires forall v :: v in r'.watchers && r'.watchers[v].socket == k ==> v in r.watchers && r.watchers[v].socket == k
    ensures SocketOk(st', r', k)
  {
    var sk, sk', wt' := r.sockets[k], r'.sockets[k], r'.watchers[w];
    if sk.watches == 1 {
      assert forall v :: v in r'.watchers && r'.watchers[v].socket == k ==> v == w;
      assert wt'.start == sk.since;
      if sk.open {
        PrefixIsComplete(st, wt'.start, wt'.log, |sk'.wire|);
        assert wt'.log[..|sk'.wire|] == sk'.wire;
      }
      assert LogOk(st', sk'.since, sk'.wire);
    }
  }

  lemma DeliverReached(st: Stream, st': Stream, r: Registry, live: set<WatcherId>, e: EventId, k: SocketId)
    requires st'.committed == st.committed && st'.skipped == st.skipped
    requires Wired(r) && k in r.sockets && SocketOk(st, r, k) && Reaches(r, live, k)
    requires r.sockets[k].watches == 1 ==> Unraised(st, Offer(r.watchers[r.active[k]], e))
    ensures SocketOk(st', Deliver(r, live, e), k)
  {
    var w, r' := r.active[k], Deliver(r, live, e);
    OfferFollows(r.watchers[w], r.sockets[k], e);
    SocketFollows(st, st', r, r', k, w);
  }

  lemma DeliverMissed(st: Stream, st': Stream, r: Registry, live: set<WatcherId>, e: EventId, k: SocketId)
    requires st'.committed == st.committed && st'.skipped == st.skipped
    requires Wired(r) && k in r.sockets && SocketOk(st, r, k) && !Reaches(r, live, k)
    requires forall w :: w in live && w in r.watchers ==> !r.watchers[w].Replaying()
    ensures SocketOk(st', Deliver(r, live, e), k)
  {
    var r' := Deliver(r, live, e);
    forall w | w in r'.watchers && r'.watchers[w].socket == k
      ensures w in r.watchers && r.watchers[w].socket == k && r'.watchers[w] == r.watchers[w]
    {
    }
    SocketKept(st, r, r', k);
    assert SocketOk(st, r', k);
  }

  lemma DeliverSocket(st: Stream, r: Registry, k: SocketId)
    requires StreamOk(st) && Wired(r) && WatchersOk(st, r) && ForwardOk(st, r) && st.forwarding.Some?
    requires k in r.sockets && SocketOk(st, r, k)
    ensures SocketOk(st.(forwarding := None), Deliver(r, st.forwarding.value.live, st.forwarding.value.eventId), k)
  {
    var live, e, st' := st.forwarding.value.live, st.forwarding.value.eventId, st.(forwarding := None);
    if Reaches(r, live, k) {
      if r.sockets[k].watches == 1 {
        DeliveredKeepsLive(st, r.active[k], r.watchers[r.active[k]]);
        UnraisedLog(st', Offer(r.watchers[r.active[k]], e));
      }
      DeliverReached(st, st', r, live, e, k);
    } else {
      DeliverMissed(st, st', r, live, e, k);
    }
  }

  lemma WireGrows(st: Stream, r: Registry, live: set<WatcherId>, e: EventId, client: Option<Client>)
    requires ClientOk(st, r, client)
    ensures ClientOk(st, Deliver(r, live, e), client)
  {
    if client.Some? && client.value.socket.Some? {
      var k := client.value.socket.value;
      var n := client.value.taken;
      assert r.sockets[k].wire[..n] == Deliver(r, live, e).sockets[k].wire[..n];
    }
  }

  lemma DeliverKeeps(s: State)
    requires Inv(s) && s.stream.forwarding.Some?
    ensures var f := s.stream.forwarding.value;
            Inv(State(s.stream.(forwarding := None), Deliver(s.reg, f.live, f.eventId), s.client))
  {
    var st, r := s.stream, s.reg;
    var live, e := st.forwarding.value.live, st.forwarding.value.eventId;
    var st', r' := st.(forwarding := None), Deliver(r, live, e);
    DeliverWired(r, live, e);
    DeliverPairs(st, r);
    forall k | k in r'.sockets ensures SocketOk(st', r', k) { DeliverSocket(st, r, k); }
    forall w | w in r'.watchers ensures WatcherOk(st', w, r'.watchers[w]) {
      if w in live { DeliveredKeepsLive(st, w, r.watchers[w]); } else { ForwardEndKeepsOthers(st, true, w, r.watchers[w]); }
    }
    WireGrows(st, r, live, e, s.client);
  }

  lemma ForwardFailsKeeps(s: State)
    requires Inv(s) && s.stream.forwarding.Some?
    ensures var st := s.stream;
            Inv(s.(stream := st.(forwarding := None, skipped := st.skipped + {st.forwarding.value.eventId})))
  {
    var st := s.stream;
    var st' := st.(forwarding := None, skipped := st.skipped + {st.forwarding.value.eventId});
    forall w | w in s.reg.watchers ensures WatcherOk(st', w, s.reg.watchers[w]) {
      ForwardEndKeepsOthers(st, false, w, s.reg.watchers[w]);
    }
    StreamMoves(s, st');
  }

  lemma ForwardFetchedKeeps(s: State, ok: bool)
    requires Inv(s) && Enabled(s, ForwardFetched(ok))
    ensures Inv(Apply(s, ForwardFetched(ok)))
  {
    if ok { DeliverKeeps(s); } else { ForwardFailsKeeps(s); }
  }

  // ---- watch(): replay, drain, promotion ----

  lemma ClientSocketMoves(st: Stream, r: Registry, r': Registry, client: Option<Client>)
    requires ClientOk(st, r, client)
    requires forall k :: k in r.sockets ==>
               k in r'.sockets && r.sockets[k].wire <= r'.sockets[k].wire &&
               r'.sockets[k].watches == r.sockets[k].watches && r'.sockets[k].since == r.sockets[k].since
    ensures ClientOk(st, r', client)
  {
    if client.Some? && client.value.socket.Some? {
      var k, n := client.value.socket.value, client.value.taken;
      assert r.sockets[k].wire[..n] == r'.sockets[k].wire[..n];
    }
  }

  lemma LastIsCursor(st: Stream, w: WatcherId, wt: Watcher)
    requires WatcherOk(st, w, wt)
    ensures Cursor(st, wt.lastEventId) || AtUnnamed(st, wt)
  {
    if wt.log != [] { assert wt.log[|wt.log| - 1] in wt.log; }
  }

  function Moved(r: Registry, w: WatcherId, wt': Watcher, sk': Socket): Registry {
    r.(sockets := r.sockets[wt'.socket := sk'], watchers := r.watchers[w := wt'])
  }

  function WentLive(r: Registry, w: WatcherId, wt': Watcher, sk': Socket): Registry {
    var m := Moved(r, w, wt', sk');
    m.(active := m.active[wt'.socket := w], replacement := Unlink(m.replacement, wt'.socket, w))
  }

  /** What a synchronous stretch of `watch()` does to its own watcher and socket. */
  ghost predicate Advances(st: Stream, r: Registry, w: WatcherId, wt': Watcher, sk': Socket) {
    && HasSocket(r, w) && r.watchers[w].Replaying()
    && Follows(r.watchers[w], r.sockets[r.watchers[w].socket], wt', sk')
    && WatcherOk(st, w, wt')
    && (r.sockets[wt'.socket].watches == 1 ==> wt'.floor == wt'.start)
  }

  lemma MovedWired(r: Registry, w: WatcherId, wt': Watcher, sk': Socket)
    requires Wired(r) && HasSocket(r, w) && r.watchers[w].socket == wt'.socket && r.watchers[w].Replaying()
    ensures wt'.Replaying() ==> Wired(Moved(r, w, wt', sk'))
    ensures !wt'.Replaying() && wt'.socket !in r.active ==> Wired(WentLive(r, w, wt', sk'))
  {
  }

  lemma MovedSockets(st: Stream, r: Registry, r': Registry, w: WatcherId, wt': Watcher, sk': Socket)
    requires SocketsOk(st, r) && Advances(st, r, w, wt', sk')
    requires r'.watchers == r.watchers[w := wt'] && r'.sockets == r.sockets[wt'.socket := sk'] && r'.intents == r.intents
    ensures SocketsOk(st, r')
  {
    forall k | k in r'.sockets ensures SocketOk(st, r', k) {
      assert SocketOk(st, r, k);
      if k == wt'.socket {
        if r.sockets[k].watches == 1 { UnraisedLog(st, wt'); }
        SocketFollows(st, st, r, r', k, w);
      } else { SocketKept(st, r, r', k); }
    }
  }

  lemma MovedPairs(st: Stream, r: Registry, w: WatcherId, wt': Watcher, sk': Socket)
    requires Wired(r) && PairsOk(st, r) && WatchersOk(st, r) && Advances(st, r, w, wt', sk') && wt'.Replaying()
    requires forall e: EventId :: Held(r.watchers[w], e) && e > wt'.lastEventId && Cursor(st, e) ==> Held(wt', e)
    requires r.watchers[w].lastEventId <= wt'.lastEventId
    ensures PairsOk(st, Moved(r, w, wt', sk'))
  {
    var r' := Moved(r, w, wt', sk');
    forall k | k in r'.active && k in r'.replacement && r'.active[k] in r'.watchers && r'.replacement[k] in r'.watchers
      ensures PairOk(st, r'.watchers[r'.active[k]], r'.watchers[r'.replacement[k]])
    {
      LastIsCursor(st, r.active[k], r.watchers[r.active[k]]);
      assert PairOk(st, r.watchers[r.active[k]], r.watchers[r.replacement[k]]);
    }
  }

  lemma MovedRest(st: Stream, r: Registry, r': Registry, w: WatcherId, wt': Watcher, sk': Socket, client: Option<Client>)
    requires Advances(st, r, w, wt', sk')
    requires ForwardOk(st, r) && WatchersOk(st, r) && ClientOk(st, r, client)
    requires r'.watchers == r.watchers[w := wt'] && r'.sockets == r.sockets[wt'.socket := sk']
    requires r'.nextId == r.nextId && r'.intents == r.intents
    ensures ForwardOk(st, r') && WatchersOk(st, r') && ClientOk(st, r', client)
  {
    ClientSocketMoves(st, r, r', client);
  }

  lemma CandidateMoves(s: State, w: WatcherId, wt': Watcher, sk': Socket)
    requires Inv(s) && Advances(s.stream, s.reg, w, wt', sk') && wt'.Replaying()
    requires forall e: EventId :: Held(s.reg.watchers[w], e) && e > wt'.lastEventId && Cursor(s.stream, e) ==> Held(wt', e)
    requires s.reg.watchers[w].lastEventId <= wt'.lastEventId
    ensures Inv(s.(reg := Moved(s.reg, w, wt', sk')))
  {
    MovedWired(s.reg, w, wt', sk');
    MovedSockets(s.stream, s.reg, Moved(s.reg, w, wt', sk'), w, wt', sk');
    MovedPairs(s.stream, s.reg, w, wt', sk');
    MovedRest(s.stream, s.reg, Moved(s.reg, w, wt', sk'), w, wt', sk', s.client);
  }

  /** A candidate with nothing left to do takes over a socket that has no active watcher. */
  lemma CandidateGoesLive(s: State, w: WatcherId, wt': Watcher, sk': Socket)
    requires Inv(s) && Advances(s.stream, s.reg, w, wt', sk') && !wt'.Replaying() && wt'.socket !in s.reg.active
    ensures Inv(s.(reg := WentLive(s.reg, w, wt', sk')))
  {
    var r' := WentLive(s.reg, w, wt', sk');
    MovedWired(s.reg, w, wt', sk');
    MovedSockets(s.stream, s.reg, r', w, wt', sk');
    MovedRest(s.stream, s.reg, r', w, wt', sk', s.client);
    LivePairs(s.stream, s.reg, w, wt', sk');
  }

  lemma LivePairs(st: Stream, r: Registry, w: WatcherId, wt': Watcher, sk': Socket)
    requires Wired(r) && PairsOk(st, r) && HasSocket(r, w) && r.watchers[w].Replaying() && wt'.socket == r.watchers[w].socket
    ensures PairsOk(st, WentLive(r, w, wt', sk'))
  {
    var r' := WentLive(r, w, wt', sk');
    assert forall v :: v in r'.watchers && v != w ==> r'.watchers[v] == r.watchers[v];
  }

  /** Draining never forgets a reference above the cursor. */
  lemma {:induction false} DrainHolds(wt: Watcher, batch: seq<EventId>, e: EventId)
    requires e > wt.lastEventId && (e in batch || e in wt.queued)
    ensures Held(Drain(wt, batch), e)
    decreases |wt.queued|, |batch|
  {
    if batch == [] {
      DrainHolds(wt.(queued := {}), Ascending(wt.queued), e);
    } else if batch[0] <= wt.lastEventId {
      SplitHead(batch, e);
      DrainHolds(wt, batch[1..], e);
    } else {
      SplitHead(batch, e);
    }
  }

  /** `wt` has just delivered in `watch()` and goes on draining `batch`. */
  ghost predicate Resumes(s: State, w: WatcherId, wt: Watcher, sk: Socket, batch: seq<EventId>) {
    && HasSocket(s.reg, w) && s.reg.watchers[w].Replaying()
    && Follows(s.reg.watchers[w], s.reg.sockets[s.reg.watchers[w].socket], wt, sk)
    && Draining(s.stream, wt, batch)
    && s.reg.watchers[w].lastEventId <= wt.lastEventId
    && (forall e: EventId :: Held(s.reg.watchers[w], e) && e > wt.lastEventId && Cursor(s.stream, e) ==>
          e in batch || e in wt.queued)
  }

  lemma {:induction false} ResumedAdvances(s: State, w: WatcherId, wt: Watcher, sk: Socket, batch: seq<EventId>)
    requires Resumes(s, w, wt, sk, batch)
    ensures Advances(s.stream, s.reg, w, Drain(wt, batch), sk)
    ensures s.reg.watchers[w].lastEventId <= Drain(wt, batch).lastEventId
    ensures forall e: EventId :: Held(s.reg.watchers[w], e) && e > Drain(wt, batch).lastEventId && Cursor(s.stream, e) ==>
              Held(Drain(wt, batch), e)
  {
    DrainKeepsWatcher(s.stream, w, wt, batch);
    forall e: EventId | Held(s.reg.watchers[w], e) && e > Drain(wt, batch).lastEventId && Cursor(s.stream, e)
      ensures Held(Drain(wt, batch), e)
    {
      DrainHolds(wt, batch, e);
    }
  }

  /** A candidate that finished draining is behind the watcher it replaces only if that one is at an unnamed cursor. */
  lemma {:induction false} CandidateCaughtUp(s: State, w: WatcherId, wt: Watcher, sk: Socket, batch: seq<EventId>)
    requires Inv(s) && Resumes(s, w, wt, sk, batch) && Drain(wt, batch).phase.Live?
    requires wt.socket in s.reg.active
    ensures s.reg.active[wt.socket] in s.reg.watchers
    ensures var a := s.reg.watchers[s.reg.active[wt.socket]];
            a.lastEventId <= Drain(wt, batch).lastEventId || AtUnnamed(s.stream, a)
  {
    var a := s.reg.active[wt.socket];
    LastIsCursor(s.stream, a, s.reg.watchers[a]);
    assert PairOk(s.stream, s.reg.watchers[a], s.reg.watchers[w]);
    ResumedAdvances(s, w, wt, sk, batch);
  }

  /** What a promoted candidate becomes. */
  function Promoted(r: Registry, drained: Watcher): Watcher {
    if drained.socket in r.active && r.active[drained.socket] in r.watchers
       && r.watchers[r.active[drained.socket]].lastEventId > drained.lastEventId
    then Raised(drained, r.watchers[r.active[drained.socket]].lastEventId) else drained
  }

  lemma {:induction false} SettleMoves(r: Registry, w: WatcherId, wt: Watcher, sk: Socket, batch: seq<EventId>)
    requires Drain(wt, batch).socket == wt.socket && w in r.watchers && wt.socket in r.sockets
    ensures var u, drained := Settle(r.(sockets := r.sockets[wt.socket := sk]), w, wt, batch), Drain(wt, batch);
            && (!drained.phase.Live? ==> u == Moved(r, w, drained, sk))
            && (drained.phase.Live? && wt.socket !in r.active ==> u == WentLive(r, w, drained, sk))
            && (drained.phase.Live? && wt.socket in r.active && r.active[wt.socket] in r.watchers && r.active[wt.socket] != w
                && r.watchers[r.active[wt.socket]].socket == wt.socket
                ==> u == WentLive(Remove(r, r.active[wt.socket]), w, Promoted(r, drained), sk))
  {
  }

  /** Raising a fully drained watcher to an unnamed cursor above it passes over what lies between, and nothing else. */
  lemma RaisedKeepsWatcher(st: Stream, w: WatcherId, wt: Watcher, known: EventId)
    requires StreamOk(st) && WatcherOk(st, w, wt) && wt.phase.Live? && wt.floor == wt.start && known > wt.lastEventId
    requires (wt.socket, known) in st.unnamed
    ensures WatcherOk(st, w, Raised(wt, known))
  {
    UnraisedLog(st, wt);
    if wt.log != [] { assert wt.log[|wt.log| - 1] in wt.log; }
    var up := Raised(wt, known);
    forall e | e in st.committed && e > up.lastEventId && e !in st.skipped ensures Ahead(st, e) || Todo(st, w, up, e) {
      assert Ahead(st, e) || Todo(st, w, wt, e);
    }
  }

  lemma {:induction false} PromotedAdvances(s: State, w: WatcherId, wt: Watcher, sk: Socket, batch: seq<EventId>)
    requires Inv(s) && Resumes(s, w, wt, sk, batch) && Drain(wt, batch).phase.Live?
    requires wt.socket in s.reg.active
    ensures Advances(s.stream, s.reg, w, Promoted(s.reg, Drain(wt, batch)), sk)
  {
    var r, drained, now := s.reg, Drain(wt, batch), Promoted(s.reg, Drain(wt, batch));
    ResumedAdvances(s, w, wt, sk, batch);
    CandidateCaughtUp(s, w, wt, sk, batch);
    DrainKeepsWatcher(s.stream, w, wt, batch);
    if now != drained {
      RaisedKeepsWatcher(s.stream, w, drained, now.lastEventId);
      assert SocketOk(s.stream, r, wt.socket);
    }
  }

  lemma {:induction false} SettleTakesOver(s: State, w: WatcherId, wt: Watcher, sk: Socket, batch: seq<EventId>)
    requires Inv(s) && Resumes(s, w, wt, sk, batch) && Drain(wt, batch).phase.Live? && Drain(wt, batch).socket == wt.socket
    requires wt.socket in s.reg.active
    ensures Inv(s.(reg := Settle(s.reg.(sockets := s.reg.sockets[wt.socket := sk]), w, wt, batch)))
  {
    var r, now := s.reg, Promoted(s.reg, Drain(wt, batch));
    PromotedAdvances(s, w, wt, sk, batch);
    var a := r.active[wt.socket];
    RemoveKeeps(s, a);
    CandidateGoesLive(s.(reg := Remove(r, a)), w, now, sk);
    SettleMoves(r, w, wt, sk, batch);
  }

  lemma SettleKeeps(s: State, w: WatcherId, wt: Watcher, sk: Socket, batch: seq<EventId>)
    requires Inv(s) && Resumes(s, w, wt, sk, batch)
    ensures Inv(s.(reg := Settle(s.reg.(sockets := s.reg.sockets[wt.socket := sk]), w, wt, batch)))
  {
    ResumedAdvances(s, w, wt, sk, batch);
    SettleMoves(s.reg, w, wt, sk, batch);
    if !Drain(wt, batch).phase.Live? {
      CandidateMoves(s, w, Drain(wt, batch), sk);
    } else if wt.socket in s.reg.active {
      SettleTakesOver(s, w, wt, sk, batch);
    } else {
      CandidateGoesLive(s, w, Drain(wt, batch), sk);
    }
  }

  ghost function Returned(s: State, step: Step, w: WatcherId): (Watcher, Socket, seq<EventId>)
    requires (step == QueryReturned(w) || step == RowReturned(w)) && Enabled(s, step)
  {
    var wt, sk := s.reg.watchers[w], s.reg.sockets[s.reg.watchers[w].socket];
    if step.QueryReturned? then (OfferAll(wt, wt.phase.rows), OfferAllSocket(wt, sk, wt.phase.rows), [])
    else (Offer(wt, wt.phase.current), OfferSocket(wt, sk, wt.phase.current), wt.phase.rest)
  }

  /** What a replayed watcher still holds above its new cursor is in its queue. */
  lemma ReplayHolds(st: Stream, wt: Watcher, now: Watcher)
    requires wt.phase.Queried? && Rising(wt.phase.rows) && (forall x :: x in wt.phase.rows ==> wt.lastEventId < x)
    requires now == wt.(lastEventId := LastOr(wt.phase.rows, wt.lastEventId), log := wt.log + wt.phase.rows)
    ensures wt.lastEventId <= now.lastEventId
    ensures forall e: EventId :: Held(wt, e) && e > now.lastEventId ==> e in now.queued
  {
    if wt.phase.rows != [] { assert wt.phase.rows[|wt.phase.rows| - 1] in wt.phase.rows; }
  }

  lemma ReplayResumes(s: State, w: WatcherId)
    requires StreamOk(s.stream) && HasSocket(s.reg, w) && s.reg.watchers[w].phase.Queried?
    requires WatcherOk(s.stream, w, s.reg.watchers[w])
    ensures var wt, sk := s.reg.watchers[w], s.reg.sockets[s.reg.watchers[w].socket];
            var rows := wt.phase.rows;
            && Resumes(s, w, OfferAll(wt, rows), OfferAllSocket(wt, sk, rows), [])
            && OfferAll(wt, rows).start == wt.start && OfferAll(wt, rows).socket == wt.socket
  {
    var wt, sk := s.reg.watchers[w], s.reg.sockets[s.reg.watchers[w].socket];
    var rows := wt.phase.rows;
    var now := OfferAll(wt, rows);
    OfferAllFollows(wt, sk, rows);
    ReplayedIsDraining(s.stream, w, wt);
    ReplayDeliversRows(wt, rows);
    ReplayHolds(s.stream, wt, now);
  }

  lemma RowResumes(s: State, w: WatcherId)
    requires StreamOk(s.stream) && HasSocket(s.reg, w) && s.reg.watchers[w].phase.Fetching?
    requires WatcherOk(s.stream, w, s.reg.watchers[w])
    ensures var wt, sk := s.reg.watchers[w], s.reg.sockets[s.reg.watchers[w].socket];
            Resumes(s, w, Offer(wt, wt.phase.current), OfferSocket(wt, sk, wt.phase.current), wt.phase.rest)
  {
    var wt, sk := s.reg.watchers[w], s.reg.sockets[s.reg.watchers[w].socket];
    OfferFollows(wt, sk, wt.phase.current);
    FetchedIsDraining(s.stream, w, wt);
  }

  lemma ReturnResumes(s: State, step: Step, w: WatcherId)
    requires Inv(s) && (step == QueryReturned(w) || step == RowReturned(w)) && Enabled(s, step)
    ensures var (wt, sk, batch) := Returned(s, step, w);
            && Resumes(s, w, wt, sk, batch)
            && Apply(s, step).reg == Settle(s.reg.(sockets := s.reg.sockets[wt.socket := sk]), w, wt, batch)
            && wt.start == s.reg.watchers[w].start && wt.socket == s.reg.watchers[w].socket
  {
    assert WatcherOk(s.stream, w, s.reg.watchers[w]);
    if step.QueryReturned? { ReplayResumes(s, w); } else { RowResumes(s, w); }
  }

  lemma ReturnKeeps(s: State, step: Step, w: WatcherId)
    requires Inv(s) && (step == QueryReturned(w) || step == RowReturned(w)) && Enabled(s, step)
    ensures Inv(Apply(s, step))
  {
    ReturnResumes(s, step, w);
    var (wt, sk, batch) := Returned(s, step, w);
    SettleKeeps(s, w, wt, sk, batch);
  }

  lemma ReadAdvances(st: Stream, r: Registry, w: WatcherId)
    requires StreamOk(st) && HasSocket(r, w) && WatcherOk(st, w, r.watchers[w]) && r.watchers[w].phase.Querying?
    ensures var wt := r.watchers[w];
            var wt' := wt.(phase := Queried(After(st.committed, wt.start)));
            && Advances(st, r, w, wt', r.sockets[wt.socket])
            && (forall e: EventId :: e > wt'.lastEventId && Cursor(st, e) ==> Held(wt', e))
  {
    SnapshotKeepsWatcher(st, w, r.watchers[w]);
    AfterIsExact(st.committed, r.watchers[w].start);
  }

  lemma {:induction false} SnapshotIsMove(r: Registry, w: WatcherId, committed: seq<EventId>)
    requires HasSocket(r, w)
    ensures var wt := r.watchers[w];
            Moved(r, w, wt.(phase := Queried(After(committed, wt.start))), r.sockets[wt.socket]) ==
            AgentRunWatchSpec.Snapshot(r, w, committed)
  {
    var k := r.watchers[w].socket;
    assert r.sockets[k := r.sockets[k]] == r.sockets;
  }

  lemma QueryReadKeeps(s: State, w: WatcherId)
    requires Inv(s) && Enabled(s, QueryRead(w))
    ensures Inv(Apply(s, QueryRead(w)))
  {
    var st, r, wt := s.stream, s.reg, s.reg.watchers[w];
    var wt' := wt.(phase := Queried(After(st.committed, wt.start)));
    ReadAdvances(st, r, w);
    SnapshotIsMove(r, w, st.committed);
    CandidateMoves(s, w, wt', r.sockets[wt.socket]);
  }

  // ---- sockets ----

  /** The environment may change a socket's buffer, or close it. */
  ghost predicate Degrades(k: Socket, k': Socket) {
    k' == k.(room := k'.room, open := k'.open) && (k'.open ==> k.open)
  }

  lemma DegradedSocket(st: Stream, r: Registry, k: SocketId, sk: Socket)
    requires k in r.sockets && SocketOk(st, r, k) && Degrades(r.sockets[k], sk)
    ensures SocketOk(st, r.(sockets := r.sockets[k := sk]), k)
  {
  }

  lemma DegradedSockets(st: Stream, r: Registry, k: SocketId, sk: Socket)
    requires k in r.sockets && SocketsOk(st, r) && Degrades(r.sockets[k], sk)
    ensures SocketsOk(st, r.(sockets := r.sockets[k := sk]))
  {
    var r' := r.(sockets := r.sockets[k := sk]);
    forall j | j in r'.sockets ensures SocketOk(st, r', j) {
      assert SocketOk(st, r, j);
      if j != k { SocketKept(st, r, r', j); } else { DegradedSocket(st, r, k, sk); }
    }
  }

  lemma OnlySockets(s: State, sockets: map<SocketId, Socket>)
    requires Inv(s) && s.reg.sockets.Keys <= sockets.Keys
    requires SocketsOk(s.stream, s.reg.(sockets := sockets)) && ClientOk(s.stream, s.reg.(sockets := sockets), s.client)
    ensures Inv(s.(reg := s.reg.(sockets := sockets)))
  {
    var r' := s.reg.(sockets := sockets);
    assert Wired(r') by {
      assert forall k :: k in s.reg.sockets ==> k in sockets.Keys;
    }
  }

  lemma SocketDegrades(s: State, k: SocketId, sk: Socket)
    requires Inv(s) && k in s.reg.sockets && Degrades(s.reg.sockets[k], sk)
    ensures Inv(s.(reg := s.reg.(sockets := s.reg.sockets[k := sk])))
  {
    var sockets := s.reg.sockets[k := sk];
    assert SocketsOk(s.stream, s.reg.(sockets := sockets)) by { DegradedSockets(s.stream, s.reg, k, sk); }
    assert ClientOk(s.stream, s.reg.(sockets := sockets), s.client) by {
      ClientSocketMoves(s.stream, s.reg, s.reg.(sockets := sockets), s.client);
    }
    OnlySockets(s, sockets);
  }

  lemma AddSocketKeeps(s: State, k: SocketId)
    requires Inv(s) && k !in s.reg.sockets
    ensures Inv(s.(reg := AddSocket(s.reg, k)))
  {
    var r, r' := s.reg, AddSocket(s.reg, k);
    forall j | j in r'.sockets ensures SocketOk(s.stream, r', j) {
      if j != k { assert SocketOk(s.stream, r, j); SocketKept(s.stream, r, r', j); }
    }
    ClientSocketMoves(s.stream, r, r', s.client);
  }

  // ---- watch(): the call and its authorisation ----

  lemma BegunSockets(st: Stream, r: Registry, k: SocketId, cursor: EventId)
    requires Wired(r) && SocketsOk(st, r) && k in r.sockets && CursorOf(st, k, cursor)
    ensures SocketsOk(st, BeginWatch(r, k, cursor))
  {
    var r' := BeginWatch(r, k, cursor);
    forall j | j in r'.sockets ensures SocketOk(st, r', j) {
      assert SocketOk(st, r, j);
      if j != k { SocketKept(st, r, r', j); }
    }
  }

  /** Everything but the client's own view, which is restored by the caller. */
  lemma BeginWatchKeeps(s: State, k: SocketId, cursor: EventId, client: Option<Client>)
    requires Inv(s) && k in s.reg.sockets && CursorOf(s.stream, k, cursor)
    requires ClientOk(s.stream, BeginWatch(s.reg, k, cursor), client)
    ensures Inv(State(s.stream, BeginWatch(s.reg, k, cursor), client))
  {
    BegunSockets(s.stream, s.reg, k, cursor);
  }

  lemma FinishPendingKeeps(s: State, t: Token)
    requires Inv(s) && t in s.reg.intents
    ensures Inv(s.(reg := FinishPending(s.reg, t)))
  {
    var r, r' := s.reg, FinishPending(s.reg, t);
    forall k | k in r'.sockets ensures SocketOk(s.stream, r', k) {
      assert SocketOk(s.stream, r, k);
      SocketKept(s.stream, r, r', k);
    }
  }

  function Registered(r: Registry, it: Intent): Registry {
    r.(watchers := r.watchers[r.nextId := Opened(it.socket, it.cursor)],
       replacement := r.replacement[it.socket := r.nextId], nextId := r.nextId + 1)
  }

  /** The one watch of a socket registers: no other intent or watcher of it exists. */
  ghost predicate Lone(r: Registry, it: Intent) {
    && it.socket in r.sockets && r.sockets[it.socket].watches > 0
    && (r.sockets[it.socket].watches == 1 ==>
          && it.cursor == r.sockets[it.socket].since && r.sockets[it.socket].wire == []
          && (forall t :: t in r.intents ==> r.intents[t].socket != it.socket)
          && (forall w :: w in r.watchers ==> r.watchers[w].socket != it.socket))
  }

  lemma RegisteredSocket(st: Stream, r: Registry, it: Intent)
    requires Lone(r, it) && SocketOk(st, r, it.socket) && r.nextId !in r.watchers
    ensures SocketOk(st, Registered(r, it), it.socket)
  {
  }

  lemma RegisteredSockets(st: Stream, r: Registry, it: Intent)
    requires SocketsOk(st, r) && Lone(r, it) && r.nextId !in r.watchers
    ensures SocketsOk(st, Registered(r, it))
  {
    var r' := Registered(r, it);
    forall k | k in r'.sockets ensures SocketOk(st, r', k) {
      assert SocketOk(st, r, k);
      if k != it.socket { SocketKept(st, r, r', k); } else { RegisteredSocket(st, r, it); }
    }
  }

  lemma RegisteredWired(st: Stream, r: Registry, it: Intent)
    requires Wired(r) && PairsOk(st, r) && it.socket in r.sockets && it.socket !in r.replacement
    ensures Wired(Registered(r, it)) && PairsOk(st, Registered(r, it))
  {
    var r' := Registered(r, it);
    assert forall w :: w in r.watchers ==> r'.watchers[w] == r.watchers[w];
  }

  lemma OpenedWatcher(st: Stream, w: WatcherId, it: Intent)
    requires CursorOf(st, it.socket, it.cursor)
    ensures WatcherOk(st, w, Opened(it.socket, it.cursor))
  {
  }

  lemma RegisteredWatchers(st: Stream, r: Registry, it: Intent)
    requires Wired(r) && WatchersOk(st, r) && ForwardOk(st, r) && CursorOf(st, it.socket, it.cursor)
    ensures WatchersOk(st, Registered(r, it)) && ForwardOk(st, Registered(r, it))
  {
    var r' := Registered(r, it);
    OpenedWatcher(st, r.nextId, it);
    forall w | w in r'.watchers ensures WatcherOk(st, w, r'.watchers[w]) {
      if w != r.nextId { assert WatcherOk(st, w, r.watchers[w]); }
    }
  }

  lemma RegisteredKeeps(s: State, it: Intent)
    requires Inv(s) && it.socket !in s.reg.replacement && CursorOf(s.stream, it.socket, it.cursor) && Lone(s.reg, it)
    ensures Inv(s.(reg := Registered(s.reg, it)))
  {
    RegisteredWired(s.stream, s.reg, it);
    RegisteredWatchers(s.stream, s.reg, it);
    RegisteredSockets(s.stream, s.reg, it);
  }

  lemma IntentIsLone(st: Stream, r: Registry, t: Token)
    requires Wired(r) && SocketsOk(st, r) && t in r.intents
    ensures var it := r.intents[t];
            Lone(FinishPending(r, t), it) && RemoveReplacement(FinishPending(r, t), it.socket).intents == r.intents - {t}
  {
    assert SocketOk(st, r, r.intents[t].socket);
  }

  /** The candidate of a former, unfinished re-watch is dropped before the new one registers. */
  lemma ClearedKeeps(s: State, k: SocketId)
    requires Inv(s)
    ensures Inv(s.(reg := RemoveReplacement(s.reg, k))) && k !in RemoveReplacement(s.reg, k).replacement
    ensures forall it: Intent :: it.socket == k && Lone(s.reg, it) ==> Lone(RemoveReplacement(s.reg, k), it)
  {
    if k in s.reg.replacement { RemoveKeeps(s, s.reg.replacement[k]); }
  }

  lemma CandidateRegisters(s: State, t: Token)
    requires Inv(s) && t in s.reg.intents
    ensures Inv(s.(reg := Registered(RemoveReplacement(FinishPending(s.reg, t), s.reg.intents[t].socket), s.reg.intents[t])))
  {
    var it, s1 := s.reg.intents[t], s.(reg := FinishPending(s.reg, t));
    assert CursorOf(s.stream, it.socket, it.cursor);
    assert Inv(s1) by { FinishPendingKeeps(s, t); }
    assert Lone(s1.reg, it) by { IntentIsLone(s.stream, s.reg, t); }
    ClearedKeeps(s1, it.socket);
    RegisteredKeeps(s1.(reg := RemoveReplacement(s1.reg, it.socket)), it);
  }

  lemma AuthorisedCases(r: Registry, t: Token, allowed: bool)
    requires t in r.intents && r.intents[t].socket in r.sockets
    ensures Authorised(r, t, allowed) == FinishPending(r, t) ||
            Authorised(r, t, allowed) ==
              Registered(RemoveReplacement(FinishPending(r, t), r.intents[t].socket), r.intents[t])
  {
  }

  lemma AuthorisedKeeps(s: State, t: Token, allowed: bool)
    requires Inv(s) && Enabled(s, WatchAuthorised(t, allowed))
    ensures Inv(Apply(s, WatchAuthorised(t, allowed)))
  {
    AuthorisedCases(s.reg, t, allowed);
    if Authorised(s.reg, t, allowed) == FinishPending(s.reg, t) {
      FinishPendingKeeps(s, t);
    } else {
      CandidateRegisters(s, t);
    }
  }

  // ---- the client ----

  lemma CursorIsLast(s: State)
    requires Inv(s) && s.client.Some?
    ensures LogOk(s.stream, s.client.value.first, Received(s))
    ensures s.client.value.cursor == LastOr(Received(s), s.client.value.first)
  {
    var c := s.client.value;
    if c.socket.Some? {
      var k := c.socket.value;
      assert SocketOk(s.stream, s.reg, k);
      PrefixIsComplete(s.stream, s.reg.sockets[k].since, s.reg.sockets[k].wire, c.taken);
      LogsCompose(s.stream, c.first, c.base, s.reg.sockets[k].wire[..c.taken]);
    }
    var all := Received(s);
    if all != [] { assert all[|all| - 1] in all; }
  }

  lemma NotedKeepsWatcher(st: Stream, st': Stream, w: WatcherId, wt: Watcher)
    requires WatcherOk(st, w, wt) && st' == st.(unnamed := st'.unnamed) && st.unnamed <= st'.unnamed
    ensures WatcherOk(st', w, wt)
  {
    assert DeliveredOk(st', wt);
    assert Covered(st', w, wt) by {
      forall e | e in st'.committed && e > wt.lastEventId && e !in st'.skipped ensures Ahead(st', e) || Todo(st', w, wt, e) {
        assert Ahead(st, e) || Todo(st, w, wt, e);
      }
    }
  }

  lemma CalledKeeps(s: State, k: SocketId, cursor: EventId)
    requires Inv(s)
    ensures Inv(s.(stream := CalledWith(s.stream, k, cursor))) && CursorOf(CalledWith(s.stream, k, cursor), k, cursor)
  {
    var st' := CalledWith(s.stream, k, cursor);
    forall w | w in s.reg.watchers ensures WatcherOk(st', w, s.reg.watchers[w]) {
      NotedKeepsWatcher(s.stream, st', w, s.reg.watchers[w]);
    }
    assert WatchersOk(st', s.reg);
    StreamMoves(s, st');
  }

  lemma ConnectedOk(st: Stream, r: Registry, k: SocketId, c: Client, base: seq<EventId>)
    requires k in r.sockets && r.sockets[k] == Socket(true, 0, [], 0, 0)
    requires LogOk(st, c.first, base) && c.cursor == LastOr(base, c.first)
    ensures ClientOk(st, BeginWatch(r, k, c.cursor), Some(Client(Some(k), c.first, base, 0, c.cursor)))
  {
    assert BeginWatch(r, k, c.cursor).sockets[k].wire[..0] == [];
  }

  lemma ConnectsKeeps(s: State, k: SocketId)
    requires Inv(s) && Enabled(s, ClientConnects(k))
    ensures Inv(Apply(s, ClientConnects(k)))
  {
    CursorIsLast(s);
    AddSocketKeeps(s, k);
    var c, s0 := s.client.value, s.(reg := AddSocket(s.reg, k));
    CalledKeeps(s0, k, c.cursor);
    var s1 := s0.(stream := CalledWith(s.stream, k, c.cursor));
    ConnectedOk(s1.stream, s1.reg, k, c, Received(s));
    BeginWatchKeeps(s1, k, c.cursor, Some(Client(Some(k), c.first, Received(s), 0, c.cursor)));
  }

  lemma WatchCalledKeeps(s: State, k: SocketId, cursor: EventId)
    requires Inv(s) && Enabled(s, WatchCalled(k, cursor))
    ensures Inv(Apply(s, WatchCalled(k, cursor)))
  {
    var s1 := s.(stream := CalledWith(s.stream, k, cursor));
    CalledKeeps(s, k, cursor);
    BeginWatchKeeps(s1, k, cursor, s1.client);
  }

  lemma ReceivesKeeps(s: State)
    requires Inv(s) && Enabled(s, ClientReceives)
    ensures Inv(Apply(s, ClientReceives))
  {
    var c := s.client.value;
    var wire := s.reg.sockets[c.socket.value].wire;
    assert wire[..c.taken + 1][c.taken] == wire[c.taken];
  }

  // ---- every run ----

  lemma SocketStepKeeps(s: State, step: Step)
    requires Inv(s) && Enabled(s, step)
    requires step.OpenSocket? || step.SetRoom? || step.DropSocket? || step.CloseSocket? || step.UnwatchCalled?
    ensures Inv(Apply(s, step))
  {
    match step
    case OpenSocket(k) => AddSocketKeeps(s, k);
    case SetRoom(k, n) => SocketDegrades(s, k, s.reg.sockets[k].(room := n));
    case DropSocket(k) => SocketDegrades(s, k, s.reg.sockets[k].(open := false));
    case CloseSocket(k) =>
      SocketDegrades(s, k, s.reg.sockets[k].(open := false));
      UnwatchKeeps(s.(reg := s.reg.(sockets := s.reg.sockets[k := s.reg.sockets[k].(open := false)])), k);
    case UnwatchCalled(k) => UnwatchKeeps(s, k);
  }

  lemma ClientStepKeeps(s: State, step: Step)
    requires Inv(s) && Enabled(s, step) && (step.ClientStarts? || step.ClientConnects? || step.ClientReceives?)
    ensures Inv(Apply(s, step))
  {
    match step
    case ClientStarts(c) =>
    case ClientConnects(k) => ConnectsKeeps(s, k);
    case ClientReceives => ReceivesKeeps(s);
  }

  lemma StepKeeps(s: State, step: Step)
    requires Inv(s)
    ensures Inv(Apply(s, step))
  {
    if Enabled(s, step) {
      match step
      case Commit(id) => CommitKeeps(s, id);
      case Publish(ok) => PublishKeeps(s, ok);
      case ForwardBegin => ForwardBeginKeeps(s);
      case ForwardFetched(ok) => ForwardFetchedKeeps(s, ok);
      case WatchCalled(k, c) => WatchCalledKeeps(s, k, c);
      case WatchAuthorised(t, allowed) => AuthorisedKeeps(s, t, allowed);
      case QueryRead(w) => QueryReadKeeps(s, w);
      case QueryReturned(w) => ReturnKeeps(s, step, w);
      case RowReturned(w) => ReturnKeeps(s, step, w);
      case WatchThrew(w) => RemoveKeeps(s, w);
      case ClientStarts(_) => ClientStepKeeps(s, step);
      case ClientConnects(_) => ClientStepKeeps(s, step);
      case ClientReceives => ClientStepKeeps(s, step);
      case _ => SocketStepKeeps(s, step);
    }
  }

  lemma {:induction false} RunKeeps(s: State, steps: seq<Step>)
    requires Inv(s)
    ensures Inv(Exec(s, steps))
    decreases |steps|
  {
    if steps != [] {
      StepKeeps(s, steps[0]);
      RunKeeps(Apply(s, steps[0]), steps[1..]);
    }
  }

  lemma InitHolds()
    ensures Inv(Init)
  {
  }
}
