/** Coalescing item invalidations for a slow client keeps what a last-writer-wins client would end up with. */
module InvalidationCoalescer {
  import opened Ordering

  datatype Item = Item(databaseId: string, itemId: string)

  /** An item-scope `invalidate` frame; `updatedAt` is compared, `body` is everything else in it. */
  datatype Frame = Frame(item: Item, updatedAt: int, body: string)

  const MAX_BUFFERED_BYTES: nat := 4_000_000

  // ---- what a client makes of frames ----

  type Known = map<Item, Frame>

  /** A client keeps the newest frame per item, the later one of two equally new. */
  function Take(known: Known, f: Frame): Known {
    if f.item !in known || f.updatedAt >= known[f.item].updatedAt then known[f.item := f] else known
  }

  function TakeAll(known: Known, frames: seq<Frame>): Known
    decreases |frames|
  {
    if frames == [] then known else TakeAll(Take(known, frames[0]), frames[1..])
  }

  // ---- the queue ----

  /** Position of the frame pending for `item`, `|pending|` when there is none. */
  function Find(pending: seq<Frame>, item: Item): (i: nat)
    ensures i <= |pending| && (i < |pending| ==> pending[i].item == item) && forall k :: 0 <= k < i ==> pending[k].item != item
  {
    if pending == [] || pending[0].item == item then 0 else 1 + Find(pending[1..], item)
  }

  /** `Map.set`: a newer frame takes the pending one's place, a first one goes to the end. */
  function Queue(pending: seq<Frame>, f: Frame): seq<Frame> {
    var i := Find(pending, f.item);
    if i == |pending| then pending + [f]
    else if f.updatedAt >= pending[i].updatedAt then pending[i := f]
    else pending
  }

  /** One socket and its queue; `offered` are the frames enqueued so far. */
  datatype Client = Client(open: bool, sent: seq<Frame>, pending: seq<Frame>, polled: bool, offered: seq<Frame>)

  const Init := Client(true, [], [], false, [])

  /** `sendWithBackpressure` with the socket's buffer at `buffered`. */
  function Send(c: Client, f: Frame, buffered: nat): Client {
    if !c.open then c else if buffered > MAX_BUFFERED_BYTES then c.(open := false) else c.(sent := c.sent + [f])
  }

  /** Sends frames in order; the buffer before each send is the environment's. */
  function SendAll(c: Client, frames: seq<Frame>, buffered: seq<nat>): Client
    decreases |frames|
  {
    if frames == [] then c
    else SendAll(Send(c, frames[0], if buffered == [] then 0 else buffered[0]), frames[1..], if buffered == [] then [] else buffered[1..])
  }

  function Flushed(c: Client, buffered: seq<nat>): Client {
    SendAll(c.(pending := []), c.pending, buffered)
  }

  datatype Step = Enqueue(f: Frame, buffered: nat) | Poll(drained: bool, amounts: seq<nat>) | Close | Discard

  /** `discard` is the socket's close handler. */
  predicate Enabled(c: Client, step: Step) {
    match step
    case Enqueue(_, _) => true
    case Poll(_, _) => c.polled
    case Close => true
    case Discard => !c.open
  }

  function Apply(c: Client, step: Step): Client {
    if !Enabled(c, step) then c
    else
      match step
      case Enqueue(f, buffered) =>
        var c1 := c.(offered := c.offered + [f]);
        if c.pending == [] && buffered == 0 then Send(c1, f, buffered) else c1.(pending := Queue(c.pending, f), polled := true)
      case Poll(drained, buffered) =>
        if !c.open then c.(polled := false)
        else if drained then Flushed(c.(polled := false), buffered)
        else c
      case Close => c.(open := false)
      case Discard => c.(pending := [], polled := false)
  }

  function Exec(c: Client, steps: seq<Step>): Client
    decreases |steps|
  {
    if steps == [] then c else Exec(Apply(c, steps[0]), steps[1..])
  }

  predicate DistinctItems(pending: seq<Frame>) {
    forall i, j :: 0 <= i < j < |pending| ==> pending[i].item != pending[j].item
  }

  ghost predicate Inv(c: Client) {
    && DistinctItems(c.pending)
    && (c.open ==> TakeAll(map[], c.sent + c.pending) == TakeAll(map[], c.offered))
    && (c.open && c.pending != [] ==> c.polled)
  }

  // ---- proofs ----

  lemma {:induction false} TakeAllAppend(known: Known, a: seq<Frame>, b: seq<Frame>)
    ensures TakeAll(known, a + b) == TakeAll(TakeAll(known, a), b)
    decreases |a|
  {
    if a == [] {
      assert a + b == b;
    } else {
      assert (a + b)[1..] == a[1..] + b;
      TakeAllAppend(Take(known, a[0]), a[1..], b);
    }
  }

  /** Frames about different items may be taken in either order. */
  lemma TakesCommute(known: Known, f: Frame, g: Frame)
    requires f.item != g.item
    ensures Take(Take(known, f), g) == Take(Take(known, g), f)
  {
    assert known[f.item := f][g.item := g] == known[g.item := g][f.item := f];
  }

  lemma {:induction false} TakePastOthers(known: Known, others: seq<Frame>, f: Frame)
    requires forall g :: g in others ==> g.item != f.item
    ensures TakeAll(Take(known, f), others) == Take(TakeAll(known, others), f)
    decreases |others|
  {
    if others != [] {
      TakesCommute(known, f, others[0]);
      TakePastOthers(Take(known, others[0]), others[1..], f);
    }
  }

  /** Of two frames about one item, taking only the newer is taking both. */
  lemma TakeNewer(known: Known, former: Frame, f: Frame)
    requires former.item == f.item
    ensures Take(Take(known, former), f) == Take(known, if f.updatedAt >= former.updatedAt then f else former)
  {
    if f.updatedAt >= former.updatedAt { assert known[f.item := former][f.item := f] == known[f.item := f]; }
  }

  lemma {:induction false} TakeThrough(known: Known, before: seq<Frame>, f: Frame, after: seq<Frame>)
    requires forall g :: g in after ==> g.item != f.item
    ensures TakeAll(known, before + ([f] + after)) == Take(TakeAll(TakeAll(known, before), after), f)
  {
    TakeAllAppend(known, before, [f] + after);
    assert ([f] + after)[1..] == after;
    TakePastOthers(TakeAll(known, before), after, f);
  }

  /** A pending frame replaced by a newer one about its item, or kept before an older one. */
  lemma {:induction false} ReplaceTakes(known: Known, before: seq<Frame>, p: Frame, after: seq<Frame>, f: Frame)
    requires p.item == f.item && forall g :: g in after ==> g.item != f.item
    ensures TakeAll(known, before + ([if f.updatedAt >= p.updatedAt then f else p] + after)) ==
            Take(TakeAll(known, before + ([p] + after)), f)
  {
    TakeThrough(known, before, p, after);
    TakeThrough(known, before, if f.updatedAt >= p.updatedAt then f else p, after);
    TakeNewer(TakeAll(TakeAll(known, before), after), p, f);
  }

  lemma QueueKeepsItems(pending: seq<Frame>, f: Frame)
    requires DistinctItems(pending)
    ensures DistinctItems(Queue(pending, f))
  {
  }

  lemma OthersBehind(pending: seq<Frame>, i: nat)
    requires DistinctItems(pending) && i < |pending|
    ensures forall g :: g in pending[i + 1..] ==> g.item != pending[i].item
  {
  }

  /** No item's frame changes place: a frame of a pending item may replace that one only, any other goes to the end. */
  lemma QueueKeepsPlaces(pending: seq<Frame>, f: Frame)
    ensures var q := Queue(pending, f);
            && |q| == (if exists i :: 0 <= i < |pending| && pending[i].item == f.item then |pending| else |pending| + 1)
            && (forall i :: 0 <= i < |pending| ==> q[i].item == pending[i].item && (q[i] == pending[i] || q[i] == f))
            && (|q| == |pending| + 1 ==> q[|pending|] == f)
  {
    var i := Find(pending, f.item);
    if i < |pending| { assert pending[i].item == f.item; }
  }

  /** Queueing a frame is taking it last. */
  lemma {:induction false} QueueTakes(known: Known, pending: seq<Frame>, f: Frame)
    requires DistinctItems(pending)
    ensures TakeAll(known, Queue(pending, f)) == Take(TakeAll(known, pending), f)
    ensures DistinctItems(Queue(pending, f))
  {
    var i := Find(pending, f.item);
    QueueKeepsItems(pending, f);
    if i == |pending| {
      TakeAllAppend(known, pending, [f]);
      assert [f][1..] == [];
    } else {
      var newest := if f.updatedAt >= pending[i].updatedAt then f else pending[i];
      assert Queue(pending, f) == pending[i := newest];
      Around(pending, i, newest);
      OthersBehind(pending, i);
      ReplaceTakes(known, pending[..i], pending[i], pending[i + 1..], f);
    }
  }

  lemma {:induction false} SendAllSends(c: Client, frames: seq<Frame>, buffered: seq<nat>)
    ensures var u := SendAll(c, frames, buffered);
            && (u.open ==> c.open && u.sent == c.sent + frames)
            && u.pending == c.pending && u.polled == c.polled && u.offered == c.offered
    decreases |frames|
  {
    if frames != [] {
      var next := Send(c, frames[0], if buffered == [] then 0 else buffered[0]);
      SendAllSends(next, frames[1..], if buffered == [] then [] else buffered[1..]);
      assert c.sent + frames == (c.sent + [frames[0]]) + frames[1..];
    }
  }

  lemma EnqueueKeeps(c: Client, f: Frame, buffered: nat)
    requires Inv(c)
    ensures Inv(Apply(c, Enqueue(f, buffered)))
  {
    TakeAllAppend(map[], c.offered, [f]);
    assert [f][1..] == [];
    if c.pending == [] && buffered == 0 {
      TakeAllAppend(map[], c.sent, [f]);
      assert c.sent + [] == c.sent && (c.sent + [f]) + [] == c.sent + [f];
    } else {
      TakeAllAppend(map[], c.sent, c.pending);
      QueueTakes(TakeAll(map[], c.sent), c.pending, f);
      TakeAllAppend(map[], c.sent, Queue(c.pending, f));
    }
  }

  lemma StepKeeps(c: Client, step: Step)
    requires Inv(c)
    ensures Inv(Apply(c, step))
  {
    match step
    case Enqueue(f, buffered) => EnqueueKeeps(c, f, buffered);
    case Poll(drained, buffered) =>
      if c.polled && c.open && drained {
        SendAllSends(c.(polled := false).(pending := []), c.pending, buffered);
        var u := Apply(c, step);
        assert u.open ==> u.sent + [] == c.sent + c.pending;
      }
    case Close =>
    case Discard =>
  }

  lemma {:induction false} RunKeeps(c: Client, steps: seq<Step>)
    requires Inv(c)
    ensures Inv(Exec(c, steps))
    decreases |steps|
  {
    if steps != [] {
      StepKeeps(c, steps[0]);
      RunKeeps(Apply(c, steps[0]), steps[1..]);
    }
  }

  /**
   * As long as the socket is open, a last-writer-wins client that takes the frames sent and then the pending ones
   * knows what one that received every frame knows; at most one frame per item is pending, and then the client
   * is being polled.
   */
  lemma {:induction false} CoalescingKeepsMeaning(steps: seq<Step>)
    ensures var c := Exec(Init, steps);
            && (c.open ==> TakeAll(map[], c.sent + c.pending) == TakeAll(map[], c.offered))
            && DistinctItems(c.pending) && (c.open && c.pending != [] ==> c.polled)
  {
    assert Init.sent + Init.pending == [];
    RunKeeps(Init, steps);
  }

  /** Once a drained poll has run on a socket that stays open, the client has been sent everything that matters. */
  lemma {:induction false} DrainedPollCatchesUp(steps: seq<Step>, buffered: seq<nat>)
    requires Apply(Exec(Init, steps), Poll(true, buffered)).open
    ensures var c := Apply(Exec(Init, steps), Poll(true, buffered));
            c.pending == [] && TakeAll(map[], c.sent) == TakeAll(map[], c.offered)
  {
    CoalescingKeepsMeaning(steps);
    var c := Exec(Init, steps);
    StepKeeps(c, Poll(true, buffered));
    if c.polled { SendAllSends(c.(polled := false).(pending := []), c.pending, buffered); }
    var u := Apply(c, Poll(true, buffered));
    assert u.sent + [] == u.sent;
  }

  // ---- as the source keeps it ----

  type SocketId = nat

  class Coalescer {
    var sockets: map<SocketId, (bool, nat)>
    var sent: map<SocketId, seq<Frame>>
    var pendingByClient: map<SocketId, seq<Frame>>
    var drainPollers: set<SocketId>

    constructor ()
      ensures sockets == map[] && sent == map[] && pendingByClient == map[] && drainPollers == {}
    {
      sockets, sent, pendingByClient, drainPollers := map[], map[], map[], {};
    }

    /** The state of one socket, its queue included; what was offered to it is the caller's. */
    ghost function View(id: SocketId, offered: seq<Frame>): Client
      reads this
      requires id in sockets && id in sent
    {
      Client(sockets[id].0, sent[id], if id in pendingByClient then pendingByClient[id] else [], id in drainPollers, offered)
    }

    method SendWithBackpressure(id: SocketId, f: Frame)
      requires id in sockets && id in sent
      modifies this`sockets, this`sent
      ensures sockets.Keys == old(sockets.Keys) && sent.Keys == old(sent.Keys)
      ensures forall offered :: View(id, offered) == Send(old(View(id, offered)), f, old(sockets)[id].1)
      ensures var fits := old(sockets)[id].1 <= MAX_BUFFERED_BYTES;
              && sockets[id] == (old(sockets)[id].0 && fits, old(sockets)[id].1)
              && sent[id] == old(sent)[id] + (if old(sockets)[id].0 && fits then [f] else [])
      ensures forall k :: k != id && k in sockets ==> sockets[k] == old(sockets)[k]
      ensures forall k :: k != id && k in sent ==> sent[k] == old(sent)[k]
    {
      if !sockets[id].0 { return; }
      if sockets[id].1 > MAX_BUFFERED_BYTES {
        sockets := sockets[id := (false, sockets[id].1)];
        return;
      }
      sent := sent[id := sent[id] + [f]];
    }

    method Enqueue(id: SocketId, f: Frame, ghost offered: seq<Frame>)
      requires id in sockets && id in sent
      modifies this
      ensures id in sockets && id in sent
      ensures View(id, offered + [f]) == Apply(old(View(id, offered)), Step.Enqueue(f, old(sockets)[id].1))
      ensures var idle := (id !in old(pendingByClient) || old(pendingByClient)[id] == []) && old(sockets)[id].1 == 0;
              if idle then sent[id] == old(sent)[id] + (if old(sockets)[id].0 then [f] else [])
                           && pendingByClient == old(pendingByClient) && drainPollers == old(drainPollers)
              else sent == old(sent) && sockets == old(sockets)
                   && id in pendingByClient && pendingByClient[id] != [] && drainPollers == old(drainPollers) + {id}
      ensures forall k :: k != id && k in old(pendingByClient) ==> k in pendingByClient && pendingByClient[k] == old(pendingByClient)[k]
      ensures forall k :: k != id && k in old(sockets) ==> k in sockets && sockets[k] == old(sockets)[k]
      ensures forall k :: k != id && k in old(sent) ==> k in sent && sent[k] == old(sent)[k]
    {
      if (id !in pendingByClient || |pendingByClient[id]| == 0) && sockets[id].1 == 0 {
        SendWithBackpressure(id, f);
        return;
      }
      var pending := if id in pendingByClient then pendingByClient[id] else [];
      var i := Find(pending, f.item);
      if i == |pending| {
        pending := pending + [f];
      } else if f.updatedAt >= pending[i].updatedAt {
        pending := pending[i := f];
      }
      pendingByClient := pendingByClient[id := pending];
      if id !in drainPollers { drainPollers := drainPollers + {id}; }
    }

    /** Sends the pending frames in order, the socket's buffer standing at `amounts` before each. */
    method Flush(id: SocketId, amounts: seq<nat>, ghost offered: seq<Frame>)
      requires id in sockets && id in sent
      modifies this`sockets, this`sent, this`pendingByClient
      ensures id in sockets && id in sent && View(id, offered) == Flushed(old(View(id, offered)), amounts)
      ensures id in pendingByClient ==> pendingByClient[id] == []
      ensures sockets[id].0 ==> sent[id] == old(sent)[id] + old(View(id, offered)).pending
    {
      SendAllSends(old(View(id, offered)).(pending := []), old(View(id, offered)).pending, amounts);
      if id !in pendingByClient || |pendingByClient[id]| == 0 {
        assert old(sent)[id] + [] == old(sent)[id];
        return;
      }
      var frames := pendingByClient[id];
      pendingByClient := pendingByClient[id := []];
      var i, later := 0, amounts;
      assert frames[0..] == frames;
      while i < |frames|
        invariant 0 <= i <= |frames| && id in sockets && id in sent
        invariant SendAll(View(id, offered), frames[i..], later) == Flushed(old(View(id, offered)), amounts)
      {
        assert frames[i..][1..] == frames[i + 1..];
        sockets := sockets[id := (sockets[id].0, if later == [] then 0 else later[0])];
        SendWithBackpressure(id, frames[i]);
        later := if later == [] then [] else later[1..];
        i := i + 1;
      }
    }

    /** One tick of the poller. */
    method Poll(id: SocketId, amounts: seq<nat>, ghost offered: seq<Frame>)
      requires id in sockets && id in sent && id in drainPollers
      modifies this
      ensures id in sockets && id in sent
      ensures View(id, offered) == Apply(old(View(id, offered)), Step.Poll(old(sockets)[id].1 == 0, amounts))
      ensures id in drainPollers <==> old(sockets)[id].0 && old(sockets)[id].1 != 0
      ensures old(sockets)[id].0 && old(sockets)[id].1 == 0 && sockets[id].0 ==>
                sent[id] == old(sent)[id] + old(View(id, offered)).pending && View(id, offered).pending == []
      ensures !old(sockets)[id].0 || old(sockets)[id].1 != 0 ==>
                sent == old(sent) && sockets == old(sockets) && pendingByClient == old(pendingByClient)
    {
      if !sockets[id].0 {
        drainPollers := drainPollers - {id};
        return;
      }
      if sockets[id].1 == 0 {
        drainPollers := drainPollers - {id};
        Flush(id, amounts, offered);
      }
    }

    /** The socket's close handler. */
    method Discard(id: SocketId, ghost offered: seq<Frame>)
      requires id in sockets && id in sent && !sockets[id].0
      modifies this`pendingByClient, this`drainPollers
      ensures View(id, offered) == Apply(old(View(id, offered)), Step.Discard)
      ensures pendingByClient == old(pendingByClient) - {id} && drainPollers == old(drainPollers) - {id}
    {
      pendingByClient := pendingByClient - {id};
      drainPollers := drainPollers - {id};
    }
  }
}
