/** The watch registry as the source keeps it: maps that each stretch of code between two awaits updates in place. */
module AgentRunWatch {
  import opened Ordering
  import opened AgentRunWatchSpec
  import opened AgentEventDelivery
  import AgentDeliveryTheorems

  /** Delivering to one more live watcher is one `deliver` call. */
  lemma DeliverOneMore(r: Registry, done: set<WatcherId>, w: WatcherId, e: EventId)
    requires Wired(r) && w in r.watchers && !r.watchers[w].Replaying() && w !in done
    ensures
      var m, k := Deliver(r, done, e), r.watchers[w].socket;
      Deliver(r, done + {w}, e) ==
        m.(watchers := m.watchers[w := Offer(m.watchers[w], e)],
           sockets := m.sockets[k := OfferSocket(m.watchers[w], m.sockets[k], e)])
  {
    var m, n, k := Deliver(r, done, e), Deliver(r, done + {w}, e), r.watchers[w].socket;
    assert Current(r, w) && !Reaches(r, done, k);
    assert m.watchers[w] == r.watchers[w] && m.sockets[k] == r.sockets[k];
    assert n.watchers == m.watchers[w := Offer(r.watchers[w], e)];
    forall j | j in n.sockets && j != k ensures n.sockets[j] == m.sockets[j] {
      assert Reaches(r, done + {w}, j) <==> Reaches(r, done, j);
    }
    assert n.sockets == m.sockets[k := OfferSocket(r.watchers[w], r.sockets[k], e)];
  }

  /** One turn of the delivery loop: nothing for a watcher that is gone, one `deliver` call otherwise. */
  lemma DeliverNext(r: Registry, done: set<WatcherId>, w: WatcherId, e: EventId)
    requires Wired(r) && w !in done && (w in r.watchers ==> !r.watchers[w].Replaying())
    ensures
      var m := Deliver(r, done, e);
      if w !in r.watchers then Deliver(r, done + {w}, e) == m
      else
        var k := r.watchers[w].socket;
        && HasSocket(m, w) && Current(m, w) && m.watchers[w].socket == k
        && Deliver(r, done + {w}, e) ==
             m.(watchers := m.watchers[w := Offer(m.watchers[w], e)],
                sockets := m.sockets[k := OfferSocket(m.watchers[w], m.sockets[k], e)])
  {
    if w in r.watchers {
      DeliverOneMore(r, done, w, e);
    } else {
      assert Deliver(r, done + {w}, e).watchers == Deliver(r, done, e).watchers;
      assert Deliver(r, done + {w}, e).sockets == Deliver(r, done, e).sockets;
    }
  }

  lemma DeliverToNobody(r: Registry, e: EventId)
    ensures Deliver(r, {}, e) == r
  {
    assert Deliver(r, {}, e).watchers == r.watchers && Deliver(r, {}, e).sockets == r.sockets;
  }

  /** What a candidate was before its last drain does not matter to its promotion. */
  lemma PromoteIgnoresOwn(r: Registry, w: WatcherId, wt: Watcher)
    requires wt.socket in r.active ==> r.active[wt.socket] != w
    requires w in r.watchers && r.watchers[w].socket == wt.socket
    ensures Promote(r.(watchers := r.watchers[w := wt]), w, wt) == Promote(r, w, wt)
  {
    var p, q := Promote(r.(watchers := r.watchers[w := wt]), w, wt), Promote(r, w, wt);
    assert p.watchers == q.watchers;
  }

  /** Holds of every watcher that is still replaying. */
  predicate NotActive(r: Registry, w: WatcherId)
    requires w in r.watchers
  {
    r.watchers[w].socket in r.active ==> r.active[r.watchers[w].socket] != w
  }

  lemma SettleIgnoresOwn(r: Registry, w: WatcherId, wt: Watcher, batch: seq<EventId>)
    requires w in r.watchers && r.watchers[w].socket == wt.socket && NotActive(r, w)
    ensures Settle(r.(watchers := r.watchers[w := wt]), w, wt, batch) == Settle(r, w, wt, batch)
  {
    AgentDeliveryTheorems.DrainedSocket(wt, batch);
    var drained, m := Drain(wt, batch), r.(watchers := r.watchers[w := wt]);
    assert m.watchers[w := drained] == r.watchers[w := drained];
    PromoteIgnoresOwn(r, w, drained);
    PromoteIgnoresOwn(m, w, drained);
    assert m.(watchers := m.watchers[w := drained]) == r.(watchers := r.watchers[w := drained]);
  }

  /** A socket's two watchers may be removed in either order. */
  lemma RemoveEitherWay(r: Registry, s: SocketId)
    requires Wired(r)
    ensures RemoveActive(RemoveReplacement(r, s), s) == RemoveReplacement(RemoveActive(r, s), s)
  {
    if s in r.active && s in r.replacement {
      assert r.watchers - {r.active[s]} - {r.replacement[s]} == r.watchers - {r.replacement[s]} - {r.active[s]};
    }
  }

  function Shut(r: Registry, s: SocketId): Registry
    requires s in r.sockets
  {
    r.(sockets := r.sockets[s := r.sockets[s].(open := false)], pending := r.pending - {s})
  }

  lemma OthersStay(r: Registry, s: SocketId)
    requires Wired(r)
    ensures forall w :: w in r.watchers && r.watchers[w].socket != s ==>
              w in RemoveReplacement(RemoveActive(r, s), s).watchers
              && RemoveReplacement(RemoveActive(r, s), s).watchers[w] == r.watchers[w]
  {
  }

  /** Closing a socket forgets it and nothing else. */
  lemma ClosingForgets(r: Registry, s: SocketId)
    requires Wired(r) && s in r.sockets
    ensures Wired(Shut(r, s)) && SocketClosed(r, s) == RemoveReplacement(RemoveActive(Shut(r, s), s), s)
    ensures var u := SocketClosed(r, s);
            && s !in u.active && s !in u.replacement && s !in u.pending && u.sockets == Shut(r, s).sockets
            && (forall w :: w in u.watchers ==> u.watchers[w].socket != s)
            && (forall w :: w in r.watchers && r.watchers[w].socket != s ==> w in u.watchers && u.watchers[w] == r.watchers[w])
  {
    AgentDeliveryTheorems.UnwatchSilences(Shut(r, s), s);
    assert Shut(r, s).pending - {s} == Shut(r, s).pending;
    OthersStay(Shut(r, s), s);
  }

  class AgentRunWatchRegistry {
    var watchers: map<WatcherId, Watcher>
    var watchersBySocket: map<SocketId, WatcherId>
    var replacementsBySocket: map<SocketId, WatcherId>
    var pendingWatches: map<SocketId, Token>
    var intents: map<Token, Intent>
    var nextId: nat
    var sockets: map<SocketId, Socket>

    ghost function View(): Registry
      reads this
    {
      Registry(watchers, watchersBySocket, replacementsBySocket, pendingWatches, intents, nextId, sockets)
    }

    constructor ()
      ensures View() == Registry(map[], map[], map[], map[], map[], 0, map[])
    {
      watchers, watchersBySocket, replacementsBySocket := map[], map[], map[];
      pendingWatches, intents, nextId, sockets := map[], map[], 0, map[];
    }

    /** A socket that is open afterwards has got the frame; one that is not has got nothing. */
    method Send(k: SocketId, e: EventId)
      requires k in sockets
      modifies this`sockets
      ensures sockets == old(sockets)[k := Push(old(sockets)[k], e)]
      ensures var was, now := old(sockets)[k], sockets[k];
              && (now.open <==> was.open && was.room > 0)
              && now.wire == (if now.open then was.wire + [e] else was.wire)
              && (now.open ==> now.room == was.room - 1) && (!was.open ==> now == was)
    {
      var socket := sockets[k];
      if !socket.open {
        assert sockets == sockets[k := socket];
        return;
      }
      if socket.room == 0 {
        sockets := sockets[k := socket.(open := false)];
        return;
      }
      sockets := sockets[k := socket.(room := socket.room - 1, wire := socket.wire + [e])];
    }

    method DeliverTo(w: WatcherId, e: EventId)
      requires HasSocket(View(), w)
      modifies this`watchers, this`sockets
      ensures
        var r, wt := old(View()), old(watchers)[w];
        if !Current(r, w) then View() == r
        else View() == r.(watchers := r.watchers[w := Offer(wt, e)],
                          sockets := r.sockets[wt.socket := OfferSocket(wt, r.sockets[wt.socket], e)])
      ensures
        var was, now, k := old(watchers)[w], watchers[w], old(watchers)[w].socket;
        var taken := Current(old(View()), w) && e > was.lastEventId;
        && now.log == (if taken then was.log + [e] else was.log) && now.lastEventId == (if taken then e else was.lastEventId)
        && (taken && sockets[k].open ==> sockets[k].wire == old(sockets)[k].wire + [e])
        && (!taken ==> sockets == old(sockets))
    {
      var wt := watchers[w];
      var current := IsCurrent(w);
      if !current || e <= wt.lastEventId {
        assert watchers == watchers[w := wt] && sockets == sockets[wt.socket := sockets[wt.socket]];
        return;
      }
      Send(wt.socket, e);
      watchers := watchers[w := wt.(lastEventId := e, log := wt.log + [e])];
    }

    method IsCurrent(w: WatcherId) returns (current: bool)
      requires w in watchers
      ensures current == Current(View(), w)
    {
      var s := watchers[w].socket;
      current := (s in watchersBySocket && watchersBySocket[s] == w) ||
                 (s in replacementsBySocket && replacementsBySocket[s] == w);
    }

    method RemoveWatcher(w: WatcherId)
      requires w in watchers
      modifies this`watchers, this`watchersBySocket, this`replacementsBySocket
      ensures View() == Remove(old(View()), w)
      ensures watchers == old(watchers) - {w}
      ensures var s := old(watchers)[w].socket;
              && (s in watchersBySocket ==> watchersBySocket[s] != w) && (s in replacementsBySocket ==> replacementsBySocket[s] != w)
              && (forall k :: k in old(watchersBySocket) && (k != s || old(watchersBySocket)[k] != w) ==>
                    k in watchersBySocket && watchersBySocket[k] == old(watchersBySocket)[k])
    {
      var s := watchers[w].socket;
      watchers := watchers - {w};
      if s in watchersBySocket && watchersBySocket[s] == w { watchersBySocket := watchersBySocket - {s}; }
      if s in replacementsBySocket && replacementsBySocket[s] == w { replacementsBySocket := replacementsBySocket - {s}; }
    }

    /** `watch()` up to its authorisation await. */
    method Watch(s: SocketId, cursor: EventId) returns (t: Token)
      requires s in sockets
      modifies this
      ensures View() == BeginWatch(old(View()), s, cursor) && t == old(nextId)
      ensures pendingWatches == old(pendingWatches)[s := t] && intents == old(intents)[t := Intent(s, cursor)] && nextId == t + 1
      ensures watchers == old(watchers) && watchersBySocket == old(watchersBySocket) && replacementsBySocket == old(replacementsBySocket)
    {
      t := nextId;
      pendingWatches := pendingWatches[s := t];
      intents := intents[t := Intent(s, cursor)];
      nextId := nextId + 1;
      var k := sockets[s];
      sockets := sockets[s := k.(watches := k.watches + 1, since := if k.watches == 0 then cursor else k.since)];
    }

    /** The authorisation resolves: register a candidate unless the watch is no longer wanted. */
    method Authorise(t: Token, allowed: bool)
      requires t in intents && intents[t].socket in sockets && Wired(View())
      modifies this
      ensures View() == Authorised(old(View()), t, allowed)
      ensures
        var it, candidate := old(intents)[t], old(nextId);
        var wanted := it.socket in old(pendingWatches) && old(pendingWatches)[it.socket] == t;
        && (candidate in watchers <==> wanted && allowed && old(sockets)[it.socket].open)
        && (candidate in watchers ==>
              && watchers[candidate] == Opened(it.socket, it.cursor)
              && it.socket in replacementsBySocket && replacementsBySocket[it.socket] == candidate)
      ensures t !in intents && watchersBySocket == old(watchersBySocket)
      ensures forall w :: w in old(watchers) && !old(watchers)[w].Replaying() ==> w in watchers && watchers[w] == old(watchers)[w]
    {
      var it := intents[t];
      var wanted := it.socket in pendingWatches && pendingWatches[it.socket] == t;
      intents := intents - {t};
      if wanted { pendingWatches := pendingWatches - {it.socket}; }
      if !wanted || !allowed || !sockets[it.socket].open { return; }
      if it.socket in replacementsBySocket { RemoveWatcher(replacementsBySocket[it.socket]); }
      watchers := watchers[nextId := Opened(it.socket, it.cursor)];
      replacementsBySocket := replacementsBySocket[it.socket := nextId];
      nextId := nextId + 1;
    }

    /** The cursor query's rows arrive: deliver them in order, then drain. */
    method Replay(w: WatcherId)
      requires HasSocket(View(), w) && watchers[w].phase.Queried? && NotActive(View(), w)
      modifies this
      ensures View() == ReplayReturned(old(View()), w)
    {
      var current := IsCurrent(w);
      if !current { return; }
      DeliverRows(w, watchers[w].phase.rows);
      SettleIgnoresOwn(old(View()).(sockets := sockets), w, watchers[w], []);
      SettleWatch(w, []);
    }

    method DeliverRows(w: WatcherId, rows: seq<EventId>)
      requires HasSocket(View(), w) && Current(View(), w)
      modifies this`watchers, this`sockets
      ensures watchers == old(watchers)[w := OfferAll(old(watchers)[w], rows)]
      ensures var k := old(watchers)[w].socket;
              sockets == old(sockets)[k := OfferAllSocket(old(watchers)[w], old(sockets)[k], rows)]
      ensures watchers[w].socket == old(watchers)[w].socket
    {
      var wt, k, i := watchers[w], watchers[w].socket, 0;
      assert rows[0..] == rows;
      while i < |rows|
        invariant 0 <= i <= |rows| && k in sockets && w in watchers && watchers[w].socket == k
        invariant watchers == old(watchers)[w := watchers[w]] && sockets == old(sockets)[k := sockets[k]]
        invariant OfferAll(watchers[w], rows[i..]) == OfferAll(wt, rows)
        invariant OfferAllSocket(watchers[w], sockets[k], rows[i..]) == OfferAllSocket(wt, old(sockets)[k], rows)
      {
        assert rows[i..][1..] == rows[i + 1..];
        DeliverTo(w, rows[i]);
        i := i + 1;
      }
    }

    /** The row a drain was waiting for arrives. */
    method RowFetched(w: WatcherId)
      requires HasSocket(View(), w) && watchers[w].phase.Fetching? && NotActive(View(), w)
      modifies this
      ensures View() == DrainFetched(old(View()), w)
    {
      var wt := watchers[w];
      var current := IsCurrent(w);
      if !current { return; }
      DeliverTo(w, wt.phase.current);
      SettleIgnoresOwn(old(View()).(sockets := sockets), w, watchers[w], wt.phase.rest);
      SettleWatch(w, wt.phase.rest);
    }

    method SettleWatch(w: WatcherId, batch: seq<EventId>)
      requires w in watchers
      requires NotActive(View(), w)
      modifies this`watchers, this`watchersBySocket, this`replacementsBySocket
      ensures View() == Settle(old(View()), w, old(watchers)[w], batch)
    {
      AgentDeliveryTheorems.DrainedSocket(watchers[w], batch);
      PromoteIgnoresOwn(View(), w, Drain(watchers[w], batch));
      DrainLoop(w, batch);
      if watchers[w].phase.Live? { PromoteReplacement(w); }
    }

    /** The candidate becomes the socket's active watcher, not behind the one it replaces. */
    method PromoteReplacement(w: WatcherId)
      requires w in watchers
      requires NotActive(View(), w)
      modifies this`watchers, this`watchersBySocket, this`replacementsBySocket
      ensures View() == Promote(old(View()), w, old(watchers)[w])
      ensures
        var was, now, k := old(watchers)[w], watchers[w], old(watchers)[w].socket;
        && k in watchersBySocket && watchersBySocket[k] == w && (k in replacementsBySocket ==> replacementsBySocket[k] != w)
        && was.lastEventId <= now.lastEventId && now.log == was.log && now.socket == k
        && (k in old(watchersBySocket) && old(watchersBySocket)[k] in old(watchers) ==>
              var a := old(watchersBySocket)[k];
              && a !in watchers && old(watchers)[a].lastEventId <= now.lastEventId
              && (now.lastEventId == was.lastEventId || now.lastEventId == old(watchers)[a].lastEventId))
    {
      var wt := watchers[w];
      var s := wt.socket;
      if s in watchersBySocket {
        var existing := watchersBySocket[s];
        if existing in watchers {
          if watchers[existing].lastEventId > wt.lastEventId {
            wt := Raised(wt, watchers[existing].lastEventId);
          }
          RemoveWatcher(existing);
        }
      }
      watchers := watchers[w := wt];
      watchersBySocket := watchersBySocket[s := w];
      if s in replacementsBySocket && replacementsBySocket[s] == w { replacementsBySocket := replacementsBySocket - {s}; }
    }

    /** Empties the batch and every later batch of queued references, up to the next row to fetch. */
    method DrainLoop(w: WatcherId, batch: seq<EventId>)
      requires w in watchers
      modifies this`watchers
      ensures watchers == old(watchers)[w := Drain(old(watchers)[w], batch)]
    {
      var rest := batch;
      while true
        invariant w in watchers && watchers == old(watchers)[w := watchers[w]]
        invariant Drain(watchers[w], rest) == Drain(old(watchers)[w], batch)
        decreases |watchers[w].queued|, |rest|
      {
        var wt := watchers[w];
        if rest == [] {
          if wt.queued == {} {
            watchers := watchers[w := wt.(phase := Live)];
            return;
          }
          rest := Ascending(wt.queued);
          watchers := watchers[w := wt.(queued := {})];
        } else if rest[0] <= wt.lastEventId {
          rest := rest[1..];
        } else {
          watchers := watchers[w := wt.(phase := Fetching(rest[0], rest[1..]))];
          return;
        }
      }
    }

    /** Nothing names the socket. */
    ghost predicate Forgotten(s: SocketId)
      reads this
    {
      && s !in watchersBySocket && s !in replacementsBySocket && s !in pendingWatches
      && forall w :: w in watchers ==> watchers[w].socket != s
    }

    method Unsubscribe(s: SocketId)
      requires Wired(View())
      modifies this
      ensures View() == Unwatch(old(View()), s)
      ensures Forgotten(s) && sockets == old(sockets)
      ensures forall w :: w in old(watchers) && old(watchers)[w].socket != s ==> w in watchers && watchers[w] == old(watchers)[w]
    {
      pendingWatches := pendingWatches - {s};
      if s in watchersBySocket { RemoveWatcher(watchersBySocket[s]); }
      if s in replacementsBySocket { RemoveWatcher(replacementsBySocket[s]); }
    }

    /** The socket's candidate and its active watcher go. */
    method RemoveWatchersOf(s: SocketId)
      requires Wired(View())
      modifies this`watchers, this`watchersBySocket, this`replacementsBySocket
      ensures View() == RemoveReplacement(RemoveActive(old(View()), s), s)
    {
      RemoveEitherWay(View(), s);
      if s in replacementsBySocket { RemoveWatcher(replacementsBySocket[s]); }
      if s in watchersBySocket { RemoveWatcher(watchersBySocket[s]); }
    }

    method HandleSocketClosed(s: SocketId)
      requires Wired(View()) && s in sockets
      modifies this
      ensures View() == SocketClosed(old(View()), s)
      ensures Forgotten(s) && sockets == old(sockets)[s := old(sockets)[s].(open := false)]
      ensures forall w :: w in old(watchers) && old(watchers)[w].socket != s ==> w in watchers && watchers[w] == old(watchers)[w]
    {
      ClosingForgets(View(), s);
      sockets := sockets[s := sockets[s].(open := false)];
      pendingWatches := pendingWatches - {s};
      assert View() == Shut(old(View()), s);
      RemoveWatchersOf(s);
      assert View() == SocketClosed(old(View()), s);
    }

    /** `forwardEvent` up to its row fetch: returns the live watchers to deliver to. */
    method ForwardEvent(e: EventId) returns (live: set<WatcherId>)
      modifies this`watchers
      ensures View() == Enqueue(old(View()), e) && live == LiveWatchers(old(View()))
    {
      live := {};
      var todo := watchers.Keys;
      while todo != {}
        invariant todo <= watchers.Keys == old(watchers).Keys
        invariant forall w :: w in watchers ==>
                    watchers[w] == if w !in todo && old(watchers)[w].Replaying()
                                   then old(watchers)[w].(queued := old(watchers)[w].queued + {e}) else old(watchers)[w]
        invariant live == set w | w in LiveWatchers(old(View())) && w !in todo
        decreases todo
      {
        var w :| w in todo;
        todo := todo - {w};
        var current := IsCurrent(w);
        if watchers[w].Replaying() {
          watchers := watchers[w := watchers[w].(queued := watchers[w].queued + {e})];
        } else if current {
          live := live + {w};
        }
      }
      assert watchers == Enqueue(old(View()), e).watchers;
    }

    /** The fetched row reaches the watchers picked before the fetch. */
    method DeliverFetched(live: set<WatcherId>, e: EventId)
      requires Wired(View()) && (forall w :: w in live && w in watchers ==> !watchers[w].Replaying())
      modifies this`watchers, this`sockets
      ensures View() == Deliver(old(View()), live, e)
    {
      var todo, done := live, {};
      DeliverToNobody(View(), e);
      while todo != {}
        invariant todo + done == live && todo !! done
        invariant View() == Deliver(old(View()), done, e)
        decreases todo
      {
        var w :| w in todo;
        todo := todo - {w};
        DeliverNext(old(View()), done, w, e);
        if w in watchers { DeliverTo(w, e); }
        done := done + {w};
      }
      assert done == live;
    }
  }
}
