/** What each step does to one watcher: nothing between its cursor and its last delivery is ever lost. */
module AgentWatcherProofs {
  import opened Ordering
  import opened AgentRunWatchSpec
  import opened AgentEventDelivery

  function CommitTo(st: Stream, id: EventId): Stream {
    st.(committed := st.committed + [id], unpublished := st.unpublished + [id])
  }

  function PublishHead(st: Stream, ok: bool): Stream
    requires st.unpublished != []
  {
    if ok then st.(unpublished := st.unpublished[1..], tail := st.tail + [st.unpublished[0]])
    else st.(unpublished := st.unpublished[1..], skipped := st.skipped + {st.unpublished[0]})
  }

  function StartForward(st: Stream, live: set<WatcherId>): Stream
    requires st.tail != []
  {
    st.(tail := st.tail[1..], processed := st.tail[0],
        forwarding := if live == {} then None else Some(Forward(st.tail[0], live)))
  }

  lemma LastIsGreatest(s: seq<nat>, x: nat)
    requires Rising(s) && x in s
    ensures x <= LastOr(s, 0)
  {
  }

  lemma SplitHead(s: seq<nat>, x: nat)
    requires s != []
    ensures x in s <==> x == s[0] || x in s[1..]
  {
    assert s == [s[0]] + s[1..];
  }

  lemma HeadBelowRest(s: seq<nat>)
    requires Rising(s) && s != []
    ensures Rising(s[1..]) && forall x :: x in s[1..] ==> s[0] < x
  {
  }

  // ---- the stream ----

  lemma CommitKeepsStream(st: Stream, id: EventId)
    requires StreamOk(st) && LastOr(st.committed, 0) < id
    ensures StreamOk(CommitTo(st, id))
  {
    forall x | x in st.committed ensures x < id { LastIsGreatest(st.committed, x); }
    assert forall x :: x in st.tail ==> Ahead(st, x);
    assert forall x :: x in st.unpublished ==> Ahead(st, x);
    forall x | Ahead(CommitTo(st, id), x) ensures x == id || Ahead(st, x) {}
    if st.unpublished != [] { assert Ahead(st, st.unpublished[|st.unpublished| - 1]); }
    AppendRises(st.unpublished, id);
  }

  lemma PublishKeepsStream(st: Stream, ok: bool)
    requires StreamOk(st) && st.unpublished != []
    ensures StreamOk(PublishHead(st, ok))
  {
    var head, st' := st.unpublished[0], PublishHead(st, ok);
    assert head in st.unpublished && Ahead(st, head);
    HeadBelowRest(st.unpublished);
    forall x ensures (Ahead(st', x) ==> Ahead(st, x)) && (!ok ==> !Ahead(st', head)) {
      SplitHead(st.unpublished, x);
    }
    if st.tail != [] { assert st.tail[|st.tail| - 1] in st.tail; }
    AppendRises(st.tail, head);
  }

  lemma ForwardKeepsStream(st: Stream, live: set<WatcherId>)
    requires StreamOk(st) && st.forwarding.None? && st.tail != []
    ensures StreamOk(StartForward(st, live))
  {
    var e, st' := st.tail[0], StartForward(st, live);
    assert e in st.tail && Ahead(st, e);
    HeadBelowRest(st.tail);
    forall x ensures x in st'.tail ==> x in st.tail { SplitHead(st.tail, x); }
    forall x ensures Ahead(st', x) ==> Ahead(st, x) && e < x {}
  }

  // ---- steps of the stream, seen by one watcher ----

  lemma CommitKeepsWatcher(st: Stream, id: EventId, w: WatcherId, wt: Watcher)
    requires StreamOk(st) && WatcherOk(st, w, wt) && LastOr(st.committed, 0) < id
    ensures WatcherOk(CommitTo(st, id), w, wt)
  {
    var st' := CommitTo(st, id);
    assert forall x :: x in st'.committed <==> x in st.committed || x == id;
    forall x | x in st.committed ensures x < id { LastIsGreatest(st.committed, x); }
    if wt.log != [] { assert LastOr(wt.log, wt.start) in wt.log; }
    assert wt.start < id <= wt.lastEventId ==> wt.Passed(id);
    if wt.phase.Queried? && wt.phase.rows != [] { assert LastOr(wt.phase.rows, wt.start) in wt.phase.rows; }
    forall e | e in st'.committed && e > wt.lastEventId && e !in st'.skipped
      ensures Ahead(st', e) || Todo(st', w, wt, e)
    {
      if e != id { assert Ahead(st, e) || Todo(st, w, wt, e); }
    }
  }

  lemma PublishKeepsWatcher(st: Stream, ok: bool, w: WatcherId, wt: Watcher)
    requires StreamOk(st) && WatcherOk(st, w, wt) && st.unpublished != []
    ensures WatcherOk(PublishHead(st, ok), w, wt)
  {
    var st' := PublishHead(st, ok);
    forall e | e in st'.committed && e > wt.lastEventId && e !in st'.skipped
      ensures Ahead(st', e) || Todo(st', w, wt, e)
    {
      SplitHead(st.unpublished, e);
      assert Ahead(st, e) || Todo(st, w, wt, e);
    }
  }

  lemma ForwardKeepsReplaying(st: Stream, live: set<WatcherId>, w: WatcherId, wt: Watcher)
    requires StreamOk(st) && st.forwarding.None? && st.tail != []
    requires WatcherOk(st, w, wt) && wt.Replaying()
    ensures WatcherOk(StartForward(st, live), w, wt.(queued := wt.queued + {st.tail[0]}))
  {
    var e0, st' := st.tail[0], StartForward(st, live);
    var wt' := wt.(queued := wt.queued + {e0});
    assert Ahead(st, e0);
    forall e | e in st'.committed && e > wt'.lastEventId && e !in st'.skipped
      ensures Ahead(st', e) || Todo(st', w, wt', e)
    {
      SplitHead(st.tail, e);
      assert Ahead(st, e) || Todo(st, w, wt, e);
    }
    assert Seen(st', wt'.queued);
    if wt.phase.Fetching? {
      var batch := [wt.phase.current] + wt.phase.rest;
      forall x | x in batch ensures x < e0 {
        assert x <= st.processed;
      }
      assert BatchOk(st', wt', batch);
    }
  }

  lemma ForwardKeepsLive(st: Stream, live: set<WatcherId>, w: WatcherId, wt: Watcher)
    requires StreamOk(st) && st.forwarding.None? && st.tail != []
    requires WatcherOk(st, w, wt) && !wt.Replaying() && w in live
    ensures WatcherOk(StartForward(st, live), w, wt)
  {
    var st' := StartForward(st, live);
    forall e | e in st'.committed && e > wt.lastEventId && e !in st'.skipped
      ensures Ahead(st', e) || Todo(st', w, wt, e)
    {
      SplitHead(st.tail, e);
      assert Ahead(st, e) || Todo(st, w, wt, e);
    }
  }

  /** Delivering `e` is safe when every missing event up to `e` is `e` itself. */
  lemma OfferKeepsLog(st: Stream, wt: Watcher, e: EventId)
    requires DeliveredOk(st, wt) && e in st.committed
    requires forall x :: x in st.committed && wt.lastEventId < x <= e ==> x == e || x in st.skipped
    ensures DeliveredOk(st, Offer(wt, e))
  {
    if e > wt.lastEventId {
      var log := wt.log + [e];
      if wt.log != [] { assert wt.log[|wt.log| - 1] in wt.log; }
      AppendRises(wt.log, e);
      assert LastOr(log, wt.start) == e;
      forall x ensures x in log <==> x in wt.log || x == e { assert log[|log| - 1] == e; }
      forall x | x in st.committed && wt.start < x <= e ensures x in log || x in st.skipped || wt.Passed(x) {
        if x <= wt.lastEventId { assert x in wt.log || x in st.skipped || wt.Passed(x); }
      }
    }
  }

  lemma DeliveredKeepsLive(st: Stream, w: WatcherId, wt: Watcher)
    requires StreamOk(st) && st.forwarding.Some? && WatcherOk(st, w, wt) && !wt.Replaying()
    requires w in st.forwarding.value.live
    ensures WatcherOk(st.(forwarding := None), w, Offer(wt, st.forwarding.value.eventId))
  {
    var e, st' := st.forwarding.value.eventId, st.(forwarding := None);
    forall x | x in st.committed && wt.lastEventId < x <= e ensures x == e || x in st.skipped {
      if x !in st.skipped { assert Ahead(st, x) || Todo(st, w, wt, x); }
    }
    OfferKeepsLog(st, wt, e);
    var wt' := Offer(wt, e);
    assert DeliveredOk(st', wt');
    forall x | x in st'.committed && x > wt'.lastEventId && x !in st'.skipped ensures Ahead(st', x) {
      assert Ahead(st, x) || Todo(st, w, wt, x);
    }
  }

  lemma ForwardEndKeepsOthers(st: Stream, ok: bool, w: WatcherId, wt: Watcher)
    requires StreamOk(st) && st.forwarding.Some? && WatcherOk(st, w, wt)
    requires !ok || wt.Replaying() || w !in st.forwarding.value.live
    ensures
      WatcherOk(if ok then st.(forwarding := None)
                else st.(forwarding := None, skipped := st.skipped + {st.forwarding.value.eventId}), w, wt)
  {
    var st' := if ok then st.(forwarding := None)
               else st.(forwarding := None, skipped := st.skipped + {st.forwarding.value.eventId});
    forall x | x in st'.committed && x > wt.lastEventId && x !in st'.skipped
      ensures Ahead(st', x) || Todo(st', w, wt, x)
    {
      assert Ahead(st, x) || Todo(st, w, wt, x);
    }
  }

  // ---- watch() ----

  lemma {:induction false} AfterIsExact(rows: seq<EventId>, cursor: EventId)
    requires Rising(rows)
    ensures forall x :: x in After(rows, cursor) <==> x in rows && cursor < x
    ensures Rising(After(rows, cursor))
    decreases |rows|
  {
    if rows != [] {
      HeadBelowRest(rows);
      AfterIsExact(rows[1..], cursor);
      forall x ensures x in rows <==> x == rows[0] || x in rows[1..] { SplitHead(rows, x); }
      var rest := After(rows[1..], cursor);
      forall i | 0 <= i < |rest| ensures rows[0] < rest[i] { assert rest[i] in rest; }
    }
  }

  lemma SnapshotKeepsWatcher(st: Stream, w: WatcherId, wt: Watcher)
    requires StreamOk(st) && WatcherOk(st, w, wt) && wt.phase.Querying?
    ensures WatcherOk(st, w, wt.(phase := Queried(After(st.committed, wt.start))))
  {
    AfterIsExact(st.committed, wt.start);
  }

  /** Without a raise, a watcher's log is a gap-free one from its start to its cursor. */
  lemma UnraisedLog(st: Stream, wt: Watcher)
    requires DeliveredOk(st, wt) && wt.floor == wt.start
    ensures LogOk(st, wt.start, wt.log) && wt.lastEventId == LastOr(wt.log, wt.start) && wt.from == wt.start
  {
    if wt.log != [] { assert wt.log[|wt.log| - 1] in wt.log; }
  }

  /** Replaying gap-free rows to a fresh watcher delivers exactly those rows. */
  lemma {:induction false} ReplayDeliversRows(wt: Watcher, rows: seq<EventId>)
    requires Rising(rows)
    requires forall x :: x in rows ==> wt.lastEventId < x
    ensures OfferAll(wt, rows) == wt.(lastEventId := LastOr(rows, wt.lastEventId), log := wt.log + rows)
    decreases |rows|
  {
    if rows == [] {
      assert wt.log + rows == wt.log;
    } else {
      HeadBelowRest(rows);
      assert rows[0] in rows;
      var next := Offer(wt, rows[0]);
      ReplayDeliversRows(next, rows[1..]);
      assert (wt.log + [rows[0]]) + rows[1..] == wt.log + rows;
    }
  }

  /** A watcher between two iterations of the drain loop, `batch` still to do. */
  ghost predicate Draining(st: Stream, wt: Watcher, batch: seq<EventId>) {
    && DeliveredOk(st, wt) && wt.floor == wt.start
    && Seen(st, wt.queued) && BatchOk(st, wt, batch)
    && (forall e :: e in st.committed && e > wt.lastEventId && e !in st.skipped ==>
          Ahead(st, e) || e in batch || e in wt.queued)
  }

  lemma {:induction false} DrainKeepsWatcher(st: Stream, w: WatcherId, wt: Watcher, batch: seq<EventId>)
    requires Draining(st, wt, batch)
    ensures WatcherOk(st, w, Drain(wt, batch))
    ensures Drain(wt, batch).phase.Live? || Drain(wt, batch).phase.Fetching?
    ensures Drain(wt, batch) == wt.(queued := Drain(wt, batch).queued, phase := Drain(wt, batch).phase)
    decreases |wt.queued|, |batch|
  {
    if batch == [] {
      if wt.queued != {} {
        var next, sorted := wt.(queued := {}), Ascending(wt.queued);
        DrainKeepsWatcher(st, w, next, sorted);
      }
    } else if batch[0] <= wt.lastEventId {
      HeadBelowRest(batch);
      forall x ensures x in batch <==> x == batch[0] || x in batch[1..] { SplitHead(batch, x); }
      DrainKeepsWatcher(st, w, wt, batch[1..]);
    } else {
      assert [batch[0]] + batch[1..] == batch;
      forall x ensures x in batch <==> x == batch[0] || x in batch[1..] { SplitHead(batch, x); }
    }
  }

  /** A drain has nothing beyond the cursor left, or waits for the least reference it has. */
  ghost predicate Meets(lastEventId: EventId, queued: set<EventId>, batch: seq<EventId>, phase: Phase) {
    && (phase.Live? || phase.Fetching?)
    && (phase.Live? <==> forall e :: e in batch || e in queued ==> e <= lastEventId)
    && (phase.Fetching? ==>
          && (phase.current in batch || phase.current in queued) && phase.current > lastEventId
          && forall e :: (e in batch || e in queued) && e > lastEventId ==> phase.current <= e)
  }

  lemma {:induction false} DrainMeets(wt: Watcher, batch: seq<EventId>)
    requires Rising(batch) && forall x, y :: x in batch && y in wt.queued ==> x < y
    ensures Meets(wt.lastEventId, wt.queued, batch, Drain(wt, batch).phase)
    decreases |wt.queued|, |batch|
  {
    if batch == [] {
      if wt.queued != {} { DrainMeets(wt.(queued := {}), Ascending(wt.queued)); }
    } else {
      HeadBelowRest(batch);
      forall x ensures x in batch <==> x == batch[0] || x in batch[1..] { SplitHead(batch, x); }
      assert batch[0] in batch;
      if batch[0] <= wt.lastEventId { DrainMeets(wt, batch[1..]); }
    }
  }

  lemma ReplayedLog(st: Stream, w: WatcherId, wt: Watcher)
    requires StreamOk(st) && WatcherOk(st, w, wt) && wt.phase.Queried?
    ensures DeliveredOk(st, wt.(lastEventId := LastOr(wt.phase.rows, wt.lastEventId), log := wt.phase.rows))
  {
    var rows := wt.phase.rows;
    UnraisedLog(st, wt);
    if rows != [] { assert rows[|rows| - 1] in rows; }
  }

  lemma ReplayedCovers(st: Stream, w: WatcherId, wt: Watcher, e: EventId)
    requires WatcherOk(st, w, wt) && wt.phase.Queried? && e in st.committed && e !in st.skipped
    requires e > LastOr(wt.phase.rows, wt.lastEventId)
    ensures Ahead(st, e) || e in wt.queued
  {
    var rows := wt.phase.rows;
    UnraisedLog(st, wt);
    if rows != [] { assert rows[|rows| - 1] in rows; }
    assert Ahead(st, e) || Todo(st, w, wt, e);
  }

  lemma {:induction false} ReplayedIsDraining(st: Stream, w: WatcherId, wt: Watcher)
    requires StreamOk(st) && WatcherOk(st, w, wt) && wt.phase.Queried?
    ensures Draining(st, OfferAll(wt, wt.phase.rows), [])
  {
    var rows := wt.phase.rows;
    var now := wt.(lastEventId := LastOr(rows, wt.lastEventId), log := rows);
    assert OfferAll(wt, rows) == now by {
      UnraisedLog(st, wt);
      ReplayDeliversRows(wt, rows);
      assert [] + rows == rows;
    }
    assert DeliveredOk(st, now) by { ReplayedLog(st, w, wt); }
    forall e | e in st.committed && e > now.lastEventId && e !in st.skipped ensures Ahead(st, e) || e in now.queued {
      ReplayedCovers(st, w, wt, e);
    }
  }

  lemma FetchedIsDraining(st: Stream, w: WatcherId, wt: Watcher)
    requires StreamOk(st) && WatcherOk(st, w, wt) && wt.phase.Fetching?
    ensures Draining(st, Offer(wt, wt.phase.current), wt.phase.rest)
  {
    var e, rest := wt.phase.current, wt.phase.rest;
    var batch := [e] + rest;
    HeadBelowRest(batch);
    assert batch[1..] == rest;
    assert e in batch && forall x :: x in rest ==> x in batch;
    forall x | x in st.committed && wt.lastEventId < x <= e ensures x == e || x in st.skipped {
      if x !in st.skipped { assert Ahead(st, x) || Todo(st, w, wt, x); }
    }
    OfferKeepsLog(st, wt, e);
    var wt' := Offer(wt, e);
    forall x | x in st.committed && x > wt'.lastEventId && x !in st.skipped
      ensures Ahead(st, x) || x in rest || x in wt'.queued
    {
      assert Ahead(st, x) || Todo(st, w, wt, x);
    }
  }
}
