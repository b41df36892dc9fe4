/** The limiter against its log of grants, over every run of `tryAcquire`, `release` and `retryAfterSeconds`. */
module ThrottleProofs {
  import opened Ordering
  import opened ThrottleSpec

  // ---- arrays ----

  /** Pruning a sorted array drops exactly its expired events, a prefix. */
  lemma {:induction false} DropExpiredIsSuffix(events: seq<int>, cutoff: int) returns (k: nat)
    requires Sorted(events)
    ensures k <= |events| && DropExpired(events, cutoff) == events[k..]
    ensures forall i :: 0 <= i < k ==> events[i] <= cutoff
    ensures forall i :: k <= i < |events| ==> events[i] > cutoff
  {
    if events != [] && events[0] <= cutoff {
      var n := DropExpiredIsSuffix(events[1..], cutoff);
      k := n + 1;
      assert events[1..][n..] == events[k..];
      forall i | 0 <= i < k ensures events[i] <= cutoff { if i > 0 { assert events[i] == events[1..][i - 1]; } }
      forall i | k <= i < |events| ensures events[i] > cutoff { assert events[i] == events[1..][i - 1]; }
    } else {
      k := 0;
    }
  }

  lemma {:induction false} LastIndexFinds(events: seq<int>, at: int)
    ensures LastIndexOf(events, at).None? <==> at !in events
    ensures LastIndexOf(events, at).Some? ==> LastIndexOf(events, at).value < |events| && events[LastIndexOf(events, at).value] == at
  {
    if events != [] && events[|events| - 1] != at {
      var front := events[..|events| - 1];
      LastIndexFinds(front, at);
      assert events == front + [events[|events| - 1]];
    }
  }

  /** In a sorted array it does not matter which of several equal events is removed. */
  lemma EqualEventsAreInterchangeable(events: seq<int>, i: nat, j: nat)
    requires Sorted(events) && i < |events| && j < |events| && events[i] == events[j]
    ensures Without(events, i) == Without(events, j)
  {
    var lo, hi := if i < j then i else j, if i < j then j else i;
    forall k | 0 <= k < |events| - 1 ensures Without(events, i)[k] == Without(events, j)[k] {
      if lo <= k < hi { assert events[lo] <= events[k] <= events[k + 1] <= events[hi]; }
    }
  }

  lemma {:induction false} FilteredIsWithout(ids: seq<ReservationId>, r: ReservationId, p: nat)
    requires p < |ids| && ids[p] == r && forall i, j :: 0 <= i < j < |ids| ==> ids[i] != ids[j]
    ensures Filtered(ids, r) == Without(ids, p)
  {
    if p == 0 {
      FilteredElsewhere(ids[1..], r);
      assert ids[..0] + ids[1..] == ids[1..];
    } else {
      assert ids[1..][p - 1] == r;
      FilteredIsWithout(ids[1..], r, p - 1);
      assert ids[..p] + ids[p + 1..] == [ids[0]] + (ids[1..][..p - 1] + ids[1..][p..]);
    }
  }

  lemma {:induction false} FilteredElsewhere(ids: seq<ReservationId>, r: ReservationId)
    requires r !in ids
    ensures Filtered(ids, r) == ids
  {
    if ids != [] {
      FilteredElsewhere(ids[1..], r);
    }
  }

  /** Events further apart stay apart when one is removed. */
  lemma RemovalKeepsSpacing(events: seq<int>, p: nat, max: nat, window: int)
    requires Sorted(events) && Spaced(events, max, window) && p < |events|
    ensures Sorted(Without(events, p)) && Spaced(Without(events, p), max, window)
  {
    var rest := Without(events, p);
    forall i | 0 <= i && i + max < |rest| ensures rest[i + max] - rest[i] >= window {
      var j := if i < p then i else i + 1;
      assert rest[i] == events[j];
      assert events[j + max] - events[j] >= window || j + max >= |events|;
      if i < p <= i + max { assert rest[i + max] == events[i + max + 1] >= events[i + max]; }
    }
  }

  // ---- the shapes of one slot ----

  /** The log depends only on its own reservations, and the clock only moves forward. */
  lemma LogKeeps(cfg: Config, slot: Slot, g: Granted, h: Granted, clock: int, later: int, ids: seq<ReservationId>)
    requires LogShape(cfg, slot, g, clock, ids) && clock <= later
    requires forall i :: 0 <= i < |ids| ==> ids[i] in h && h[ids[i]] == g[ids[i]]
    ensures LogShape(cfg, slot, h, later, ids) && Times(h, ids) == Times(g, ids)
  {
    assert Times(h, ids) == Times(g, ids);
  }

  lemma StoredKeeps(cfg: Config, slot: Slot, g: Granted, h: Granted, clock: int, later: int, ids: seq<ReservationId>,
                    events: seq<int>, list: Option<ListId>)
    requires LogShape(cfg, slot, g, clock, ids) && clock <= later
    requires StoredShape(cfg, slot, g, clock, ids, events, list)
    requires forall i :: 0 <= i < |ids| ==> ids[i] in h && h[ids[i]] == g[ids[i]]
    ensures StoredShape(cfg, slot, h, later, ids, events, list)
  {
    assert Times(h, ids) == Times(g, ids);
  }

  /** Event `k` of the array is event `|ids| - |events| + k` of the log. */
  lemma StoredAt(cfg: Config, slot: Slot, g: Granted, clock: int, ids: seq<ReservationId>, events: seq<int>, list: Option<ListId>)
    requires LogShape(cfg, slot, g, clock, ids) && StoredShape(cfg, slot, g, clock, ids, events, list)
    ensures Sorted(events)
    ensures forall k {:trigger events[k]} :: 0 <= k < |events| ==> events[k] == g[ids[|ids| - |events| + k]].at <= clock
  {
    forall k | 0 <= k < |events| ensures events[k] == Times(g, ids)[|ids| - |events| + k] {}
  }

  /** An array gives up a prefix of expired events, all older than the rest. */
  lemma ShrunkStored(cfg: Config, slot: Slot, g: Granted, clock: int, ids: seq<ReservationId>, events: seq<int>, list: Option<ListId>, k: nat)
    requires LogShape(cfg, slot, g, clock, ids) && StoredShape(cfg, slot, g, clock, ids, events, list) && k < |events|
    requires k > 0 ==> events[k - 1] <= clock - cfg.Window(slot) && events[k - 1] < events[k]
    ensures StoredShape(cfg, slot, g, clock, ids, events[k..], list)
  {
    StoredAt(cfg, slot, g, clock, ids, events, list);
    var from := |ids| - |events|;
    assert Times(g, ids)[from + k..] == events[k..];
    forall i | 0 <= i < from + k
      ensures g[ids[i]].at <= clock - cfg.Window(slot)
      ensures list == Some(g[ids[i]].list) ==> g[ids[i]].at < events[k]
    {
      if i >= from {
        assert g[ids[i]].at == events[i - from] <= events[k - 1];
      } else {
        assert events[0] <= events[k];
      }
    }
  }

  /** A slot without an array has only expired events in its log. */
  lemma GivenUpStored(cfg: Config, slot: Slot, g: Granted, clock: int, ids: seq<ReservationId>, events: seq<int>, list: Option<ListId>)
    requires LogShape(cfg, slot, g, clock, ids) && StoredShape(cfg, slot, g, clock, ids, events, list)
    requires events == [] || events[|events| - 1] <= clock - cfg.Window(slot)
    ensures StoredShape(cfg, slot, g, clock, ids, [], None)
  {
    StoredAt(cfg, slot, g, clock, ids, events, list);
    forall i | 0 <= i < |ids| ensures g[ids[i]].at <= clock - cfg.Window(slot) {
      if i >= |ids| - |events| { assert g[ids[i]].at == events[i - (|ids| - |events|)]; }
    }
    assert Times(g, ids)[|ids|..] == [];
  }

  // ---- pruning ----

  /** Apart from `slot`, nothing changes; reservations and the log do not change at all. */
  ghost predicate OnlySlot(s: State, u: State, slot: Slot) {
    && u.reservations == s.reservations && u.nextReservation == s.nextReservation && s.clock <= u.clock && u.log == s.log
    && u.store.nextId == s.store.nextId
    && (forall k :: k != slot ==> EventsOf(u.store, k) == EventsOf(s.store, k) && ListOf(u.store, k) == ListOf(s.store, k))
    && (slot in u.store.table ==> ListOf(u.store, slot) == ListOf(s.store, slot))
  }

  lemma OnlySlotKeeps(cfg: Config, s: State, u: State, slot: Slot)
    requires Inv(cfg, s) && OnlySlot(s, u, slot)
    requires Linked(u.store) && u.store.keyCount <= cfg.maxKeys && SlotOk(cfg, u, slot)
    ensures Inv(cfg, u)
  {
    forall k ensures SlotOk(cfg, u, k) {
      if k != slot {
        assert SlotOk(cfg, s, k);
        LogKeeps(cfg, k, s.reservations, s.reservations, s.clock, u.clock, LogOf(s, k));
        StoredKeeps(cfg, k, s.reservations, s.reservations, s.clock, u.clock, LogOf(s, k), EventsOf(s.store, k), ListOf(s.store, k));
      }
    }
    forall r | r in u.reservations ensures ReservationOk(u, r) { assert ReservationOk(s, r); }
  }

  lemma StoredIsSorted(cfg: Config, s: State, slot: Slot)
    requires SlotOk(cfg, s, slot)
    ensures Sorted(EventsOf(s.store, slot))
    ensures forall i :: 0 <= i < |EventsOf(s.store, slot)| ==> EventsOf(s.store, slot)[i] <= s.clock
  {
    StoredAt(cfg, slot, s.reservations, s.clock, LogOf(s, slot), EventsOf(s.store, slot), ListOf(s.store, slot));
  }

  function PruneAt(cfg: Config, s: State, slot: Slot, at: int): State {
    State(Pruned(cfg, s.store, slot, at), at, s.reservations, s.nextReservation, s.log)
  }

  /** Pruning a slot leaves exactly its live events. */
  lemma PruneLeavesLive(cfg: Config, s: Store, slot: Slot, at: int) returns (k: nat)
    requires Linked(s) && Sorted(EventsOf(s, slot))
    ensures k <= |EventsOf(s, slot)|
    ensures EventsOf(Pruned(cfg, s, slot, at), slot) == EventsOf(s, slot)[k..]
    ensures forall i :: 0 <= i < k ==> EventsOf(s, slot)[i] <= at - cfg.Window(slot)
    ensures forall i :: k <= i < |EventsOf(s, slot)| ==> EventsOf(s, slot)[i] > at - cfg.Window(slot)
    ensures ListOf(Pruned(cfg, s, slot, at), slot) == if k < |EventsOf(s, slot)| then ListOf(s, slot) else None
  {
    k := DropExpiredIsSuffix(EventsOf(s, slot), at - cfg.Window(slot));
  }

  lemma RemoveLinked(s: Store, slot: Slot)
    requires Linked(s) && slot in s.table
    ensures Linked(Remove(s, slot))
    ensures forall k :: k != slot ==> EventsOf(Remove(s, slot), k) == EventsOf(s, k) && ListOf(Remove(s, slot), k) == ListOf(s, k)
  {
  }

  /** Replacing a slot's events keeps every slot's array to itself. */
  lemma ReplaceLinked(s: Store, slot: Slot, events: seq<int>)
    requires Linked(s) && slot in s.table && events != []
    ensures var t := s.(lists := s.lists[s.table[slot] := events]);
            && Linked(t) && EventsOf(t, slot) == events
            && forall k :: k != slot ==> EventsOf(t, k) == EventsOf(s, k) && ListOf(t, k) == ListOf(s, k)
  {
  }

  lemma PruneLinked(cfg: Config, s: Store, slot: Slot, at: int)
    requires Linked(s)
    ensures var t := Pruned(cfg, s, slot, at);
            && Linked(t) && t.keyCount <= s.keyCount && t.nextId == s.nextId
            && forall k :: k != slot ==> EventsOf(t, k) == EventsOf(s, k) && ListOf(t, k) == ListOf(s, k)
  {
    if slot in s.table {
      var live := DropExpired(EventsOf(s, slot), at - cfg.Window(slot));
      if live == [] {
        assert Pruned(cfg, s, slot, at) == Remove(s, slot);
        RemoveLinked(s, slot);
      } else {
        assert Pruned(cfg, s, slot, at) == s.(lists := s.lists[s.table[slot] := live]);
        ReplaceLinked(s, slot, live);
      }
    }
  }

  lemma PruneKeeps(cfg: Config, s: State, slot: Slot, at: int)
    requires Inv(cfg, s) && s.clock <= at
    ensures Inv(cfg, PruneAt(cfg, s, slot, at))
  {
    var u := PruneAt(cfg, s, slot, at);
    var ids, events, list := LogOf(s, slot), EventsOf(s.store, slot), ListOf(s.store, slot);
    assert SlotOk(cfg, s, slot);
    StoredIsSorted(cfg, s, slot);
    LogKeeps(cfg, slot, s.reservations, s.reservations, s.clock, at, ids);
    StoredKeeps(cfg, slot, s.reservations, s.reservations, s.clock, at, ids, events, list);
    PruneLinked(cfg, s.store, slot, at);
    var k := PruneLeavesLive(cfg, s.store, slot, at);
    if k < |events| { ShrunkStored(cfg, slot, s.reservations, at, ids, events, list, k); }
    else { GivenUpStored(cfg, slot, s.reservations, at, ids, events, list); }
    OnlySlotKeeps(cfg, s, u, slot);
  }

  // ---- making room ----

  function WithStore(s: State, store: Store): State {
    s.(store := store)
  }

  lemma SubmapIsSmaller<K, V>(m: map<K, V>, n: map<K, V>)
    requires m.Keys <= n.Keys
    ensures |m| <= |n|
  {
    assert n.Keys == m.Keys + (n.Keys - m.Keys);
    assert |m| == |m.Keys| && |n| == |n.Keys|;
  }

  /** The table once the slots outside `todo` have been looked at. */
  function Left(cfg: Config, s: Store, at: int, todo: set<Slot>): map<Slot, ListId> {
    map k | k in s.table && (k in todo || !Expired(cfg, s, k, at)) :: s.table[k]
  }

  lemma LeftEnds(cfg: Config, s: Store, at: int)
    ensures Left(cfg, s, at, s.table.Keys) == s.table && Left(cfg, s, at, {}) == Sweep(cfg, s, at).table
  {
  }

  lemma LeftStep(cfg: Config, s: Store, at: int, todo: set<Slot>, k: Slot)
    requires Linked(s) && k in todo && k in s.table
    ensures k in Left(cfg, s, at, todo) && Left(cfg, s, at, todo)[k] == s.table[k]
    ensures s.table[k] in s.lists && s.lists[s.table[k]] != []
    ensures var events := s.lists[s.table[k]];
            Left(cfg, s, at, todo - {k}) ==
            if events[|events| - 1] <= at - cfg.Window(k) then Left(cfg, s, at, todo) - {k} else Left(cfg, s, at, todo)
  {
  }

  lemma SweepLinked(cfg: Config, s: Store, at: int)
    requires Linked(s)
    ensures Linked(Sweep(cfg, s, at)) && Sweep(cfg, s, at).keyCount <= s.keyCount
  {
    SubmapIsSmaller(Sweep(cfg, s, at).table, s.table);
  }

  lemma SweepKeeps(cfg: Config, s: State)
    requires Inv(cfg, s)
    ensures Inv(cfg, WithStore(s, Sweep(cfg, s.store, s.clock)))
  {
    var u := WithStore(s, Sweep(cfg, s.store, s.clock));
    SweepLinked(cfg, s.store, s.clock);
    forall k ensures SlotOk(cfg, u, k) {
      assert SlotOk(cfg, s, k);
      if k in s.store.table && k !in u.store.table {
        GivenUpStored(cfg, k, s.reservations, s.clock, LogOf(s, k), EventsOf(s.store, k), ListOf(s.store, k));
      }
    }
    forall r | r in u.reservations ensures ReservationOk(u, r) { assert ReservationOk(s, r); }
  }

  function Evicted(s: State, victim: Slot): State {
    s.(store := Remove(s.store, victim), log := s.log - {victim})
  }

  lemma EvictedSlot(cfg: Config, s: State, victim: Slot, k: Slot)
    requires Linked(s.store) && victim in s.store.table && SlotOk(cfg, s, k)
    ensures SlotOk(cfg, Evicted(s, victim), k)
  {
    var u := Evicted(s, victim);
    RemoveLinked(s.store, victim);
    if k == victim {
      assert LogOf(u, k) == [] && EventsOf(u.store, k) == [];
    } else {
      assert LogOf(u, k) == LogOf(s, k);
    }
  }

  lemma EvictKeeps(cfg: Config, s: State, victim: Slot)
    requires Inv(cfg, s) && victim in s.store.table
    ensures Inv(cfg, Evicted(s, victim))
  {
    var u := Evicted(s, victim);
    RemoveLinked(s.store, victim);
    forall k ensures SlotOk(cfg, u, k) { assert SlotOk(cfg, s, k); EvictedSlot(cfg, s, victim, k); }
    forall r | r in u.reservations ensures ReservationOk(u, r) { assert ReservationOk(s, r); }
  }

  function Roomed(cfg: Config, s: State, victim: Option<Slot>): State {
    s.(store := MakeRoom(cfg, s.store, s.clock, victim), log := if victim.Some? then s.log - {victim.value} else s.log)
  }

  lemma MakeRoomKeeps(cfg: Config, s: State, victim: Option<Slot>)
    requires Inv(cfg, s) && cfg.maxKeys >= 1 && RightVictim(cfg, s.store, s.clock, victim)
    ensures Inv(cfg, Roomed(cfg, s, victim)) && Roomed(cfg, s, victim).store.keyCount < cfg.maxKeys
    ensures forall k :: k in Roomed(cfg, s, victim).store.table ==> k in s.store.table
  {
    if s.store.keyCount >= cfg.maxKeys {
      SweepKeeps(cfg, s);
      var swept := WithStore(s, Sweep(cfg, s.store, s.clock));
      if victim.Some? {
        EvictKeeps(cfg, swept, victim.value);
      }
    }
  }

  // ---- counting the event ----

  /** What pushing reservation `r` does to its slot: it joins the log, its time the end of the array. */
  lemma PushedLog(cfg: Config, slot: Slot, g: Granted, clock: int, ids: seq<ReservationId>, events: seq<int>, list: Option<ListId>,
                  r: ReservationId, l: ListId)
    requires LogShape(cfg, slot, g, clock, ids) && StoredShape(cfg, slot, g, clock, ids, events, list) && r !in g
    requires |events| < cfg.MaxEvents(slot)
    ensures LogShape(cfg, slot, g[r := Reservation(slot, l, clock, false)], clock, ids + [r])
  {
    var h := g[r := Reservation(slot, l, clock, false)];
    forall i | 0 <= i < |ids| ensures ids[i] != r && h[ids[i]] == g[ids[i]] { assert ids[i] in g; }
    var times := Times(g, ids) + [clock];
    assert Times(h, ids + [r]) == times;
    var max := cfg.MaxEvents(slot);
    forall i | 0 <= i && i + max < |times| ensures times[i + max] - times[i] >= cfg.Window(slot) {
      if i + max == |ids| { assert times[i] == g[ids[i]].at; }
    }
    forall i, j | 0 <= i <= j < |times| ensures times[i] <= times[j] {
      if i < |ids| { assert times[i] == g[ids[i]].at; }
    }
  }

  lemma PushedStored(cfg: Config, slot: Slot, g: Granted, clock: int, ids: seq<ReservationId>, events: seq<int>, list: Option<ListId>,
                     r: ReservationId, l: ListId)
    requires LogShape(cfg, slot, g, clock, ids) && StoredShape(cfg, slot, g, clock, ids, events, list) && r !in g
    requires |events| < cfg.MaxEvents(slot)
    requires if list.Some? then events != [] && list.value == l else forall i :: 0 <= i < |ids| ==> g[ids[i]].list != l
    ensures forall i :: 0 <= i < |ids + [r]| ==> (ids + [r])[i] in g[r := Reservation(slot, l, clock, false)]
    ensures StoredShape(cfg, slot, g[r := Reservation(slot, l, clock, false)], clock, ids + [r], events + [clock], Some(l))
  {
    var h := g[r := Reservation(slot, l, clock, false)];
    forall i | 0 <= i < |ids| ensures ids[i] != r && h[ids[i]] == g[ids[i]] { assert ids[i] in g; }
    assert Times(h, ids + [r]) == Times(g, ids) + [clock];
    var from := |ids| - |events|;
    assert (Times(g, ids) + [clock])[from..] == Times(g, ids)[from..] + [clock];
  }

  /** Reservation `r` joins its slot's log, its time the end of the slot's array. */
  ghost predicate Pushed(s: State, u: State, slot: Slot, r: ReservationId, l: ListId) {
    && r == s.nextReservation && u.nextReservation == r + 1 && u.clock == s.clock
    && u.reservations == s.reservations[r := Reservation(slot, l, s.clock, false)]
    && u.log == s.log[slot := LogOf(s, slot) + [r]]
    && l == (if slot in s.store.table then s.store.table[slot] else s.store.nextId)
    && ListOf(u.store, slot) == Some(l) && EventsOf(u.store, slot) == EventsOf(s.store, slot) + [s.clock]
    && s.store.nextId <= u.store.nextId && l < u.store.nextId
    && (forall k :: k != slot ==> EventsOf(u.store, k) == EventsOf(s.store, k) && ListOf(u.store, k) == ListOf(s.store, k))
  }

  lemma PushedSlot(cfg: Config, s: State, u: State, slot: Slot, r: ReservationId, l: ListId)
    requires SlotOk(cfg, s, slot) && Pushed(s, u, slot, r, l) && r !in s.reservations && Linked(s.store)
    requires |EventsOf(s.store, slot)| < cfg.MaxEvents(slot)
    requires forall i :: 0 <= i < |LogOf(s, slot)| ==> s.reservations[LogOf(s, slot)[i]].list < s.store.nextId
    ensures SlotOk(cfg, u, slot)
  {
    var ids, events, list := LogOf(s, slot), EventsOf(s.store, slot), ListOf(s.store, slot);
    PushedLog(cfg, slot, s.reservations, s.clock, ids, events, list, r, l);
    PushedStored(cfg, slot, s.reservations, s.clock, ids, events, list, r, l);
    assert LogOf(u, slot) == ids + [r];
  }

  lemma PushedElsewhere(cfg: Config, s: State, u: State, slot: Slot, r: ReservationId, l: ListId, k: Slot)
    requires SlotOk(cfg, s, k) && Pushed(s, u, slot, r, l) && r !in s.reservations && k != slot
    ensures SlotOk(cfg, u, k)
  {
    var ids := LogOf(s, k);
    assert LogOf(u, k) == ids;
    forall i | 0 <= i < |ids| ensures ids[i] in u.reservations && u.reservations[ids[i]] == s.reservations[ids[i]] {
      assert ids[i] in s.reservations;
    }
    LogKeeps(cfg, k, s.reservations, u.reservations, s.clock, s.clock, ids);
    StoredKeeps(cfg, k, s.reservations, u.reservations, s.clock, s.clock, ids, EventsOf(s.store, k), ListOf(s.store, k));
  }

  lemma PushedReservation(s: State, u: State, slot: Slot, r: ReservationId, l: ListId, x: ReservationId)
    requires Pushed(s, u, slot, r, l) && x in u.reservations && (x != r ==> ReservationOk(s, x))
    ensures ReservationOk(u, x)
  {
    assert LogOf(u, slot) == LogOf(s, slot) + [r];
    if x == r { assert LogOf(u, slot)[|LogOf(s, slot)|] == r; }
    else {
      var v := s.reservations[x];
      assert LogOf(u, v.slot) == if v.slot == slot then LogOf(s, slot) + [r] else LogOf(s, v.slot);
    }
  }

  lemma PushKeeps(cfg: Config, s: State, u: State, slot: Slot, r: ReservationId, l: ListId)
    requires Inv(cfg, s) && Pushed(s, u, slot, r, l) && Linked(u.store) && u.store.keyCount <= cfg.maxKeys
    requires |EventsOf(s.store, slot)| < cfg.MaxEvents(slot)
    ensures Inv(cfg, u)
  {
    forall x | x in s.reservations ensures x != r && s.reservations[x].list < s.store.nextId { assert ReservationOk(s, x); }
    forall k ensures SlotOk(cfg, u, k) {
      assert SlotOk(cfg, s, k);
      if k == slot { PushedSlot(cfg, s, u, slot, r, l); } else { PushedElsewhere(cfg, s, u, slot, r, l, k); }
    }
    forall x | x in u.reservations ensures ReservationOk(u, x) {
      if x != r { assert ReservationOk(s, x); }
      PushedReservation(s, u, slot, r, l, x);
    }
  }

  /** The store after counting one event of a slot that is not full. */
  function Counted(cfg: Config, s: Store, slot: Slot, at: int): Store {
    if slot in s.table then Append(cfg, s, slot, at) else Fresh(cfg, s, slot, at)
  }

  lemma FreshLinked(s: Store, slot: Slot, events: seq<int>)
    requires Linked(s) && slot !in s.table && events != []
    ensures var t := s.(lists := s.lists[s.nextId := events], table := s.table[slot := s.nextId], keyCount := s.keyCount + 1, nextId := s.nextId + 1);
            && Linked(t) && EventsOf(t, slot) == events
            && forall k :: k != slot ==> EventsOf(t, k) == EventsOf(s, k) && ListOf(t, k) == ListOf(s, k)
  {
    assert s.nextId !in s.lists;
  }

  lemma CountedPushes(cfg: Config, s: Store, slot: Slot, at: int)
    requires Linked(s) && |EventsOf(s, slot)| < cfg.MaxEvents(slot)
    ensures var t := Counted(cfg, s, slot, at);
            && Linked(t) && s.nextId <= t.nextId && t.keyCount == s.keyCount + (if slot in s.table then 0 else 1)
            && ListOf(t, slot) == Some(if slot in s.table then s.table[slot] else s.nextId)
            && EventsOf(t, slot) == EventsOf(s, slot) + [at]
            && (forall k :: k != slot ==> EventsOf(t, k) == EventsOf(s, k) && ListOf(t, k) == ListOf(s, k))
  {
    if slot in s.table { ReplaceLinked(s, slot, EventsOf(s, slot) + [at]); } else { FreshLinked(s, slot, [at]); }
  }

  lemma CountedLinked(cfg: Config, s: Store, slot: Slot, at: int)
    requires Linked(s) && cfg.MaxEvents(slot) >= 1
    ensures Linked(Counted(cfg, s, slot, at))
  {
    if slot in s.table { ReplaceLinked(s, slot, Newest(EventsOf(s, slot) + [at], cfg.MaxEvents(slot))); }
    else { FreshLinked(s, slot, Newest([at], cfg.MaxEvents(slot))); }
  }

  /** The slot `MakeRoom` picks from the swept table is one it may evict. */
  lemma OldestIsRight(cfg: Config, s: Store, at: int, victim: Slot)
    requires Linked(s) && NeedsVictim(cfg, s, at) && victim in Sweep(cfg, s, at).table
    requires forall k :: k in Sweep(cfg, s, at).table ==> NewestEvent(Sweep(cfg, s, at), victim) <= NewestEvent(Sweep(cfg, s, at), k)
    ensures RightVictim(cfg, s, at, Some(victim))
  {
    var swept := Sweep(cfg, s, at);
    forall k | k in swept.table ensures NewestEvent(swept, k) == NewestEvent(s, k) {}
  }

  lemma MakeRoomLinked(cfg: Config, s: Store, at: int, victim: Option<Slot>)
    requires Linked(s) && RightVictim(cfg, s, at, victim)
    ensures Linked(MakeRoom(cfg, s, at, victim))
  {
    SweepLinked(cfg, s, at);
    if victim.Some? && s.keyCount >= cfg.maxKeys { RemoveLinked(Sweep(cfg, s, at), victim.value); }
  }

  /** Recording an event keeps every slot's array to itself and the slot count right. */
  lemma RecordLinked(cfg: Config, s: Store, slot: Slot, at: int, victim: Option<Slot>)
    requires Linked(s) && cfg.MaxEvents(slot) >= 1 && RightVictimFor(cfg, s, slot, at, victim)
    ensures Linked(Record(cfg, s, slot, at, victim))
  {
    var pruned := Pruned(cfg, s, slot, at);
    PruneLinked(cfg, s, slot, at);
    if slot in pruned.table {
      CountedLinked(cfg, pruned, slot, at);
    } else {
      var roomed := MakeRoom(cfg, pruned, at, victim);
      MakeRoomLinked(cfg, pruned, at, victim);
      assert slot !in roomed.table;
      CountedLinked(cfg, roomed, slot, at);
    }
  }

  /** A grant prunes twice, makes room for a new slot, and counts its event. */
  lemma GrantIsPush(cfg: Config, s: State, b: State, c: State, slot: Slot, checkedAt: int, recordedAt: int, victim: Option<Slot>)
    requires b == PruneAt(cfg, PruneAt(cfg, s, slot, checkedAt), slot, recordedAt)
    requires c == if slot in b.store.table then b else Roomed(cfg, b, victim)
    requires slot in b.store.table ==> victim.None?
    requires slot !in b.store.table ==> slot !in c.store.table
    ensures var u := Grant(cfg, s, slot, checkedAt, recordedAt, victim);
            && u.store == Counted(cfg, c.store, slot, c.clock) && slot in u.store.table
            && u.reservations == c.reservations[s.nextReservation := Reservation(slot, u.store.table[slot], c.clock, false)]
            && u.log == c.log[slot := LogOf(c, slot) + [s.nextReservation]] && u.clock == c.clock
            && u.nextReservation == s.nextReservation + 1 && c.nextReservation == s.nextReservation
  {
  }

  /** A granted check leaves room for one more event, whenever it is then recorded. */
  lemma GrantedHasRoom(cfg: Config, s: State, slot: Slot, checkedAt: int, recordedAt: int)
    requires Inv(cfg, s) && cfg.MaxEvents(slot) >= 1 && s.clock <= checkedAt <= recordedAt
    requires RetryAfter(cfg, s.store, slot, checkedAt).None?
    ensures |EventsOf(PruneAt(cfg, PruneAt(cfg, s, slot, checkedAt), slot, recordedAt).store, slot)| < cfg.MaxEvents(slot)
  {
    var a := PruneAt(cfg, s, slot, checkedAt);
    PruneKeeps(cfg, s, slot, checkedAt);
    assert SlotOk(cfg, a, slot);
    StoredIsSorted(cfg, a, slot);
    var j := PruneLeavesLive(cfg, a.store, slot, recordedAt);
  }

  lemma GrantKeeps(cfg: Config, s: State, slot: Slot, checkedAt: int, recordedAt: int, victim: Option<Slot>)
    requires Inv(cfg, s) && cfg.maxKeys >= 1 && cfg.MaxEvents(slot) >= 1 && s.clock <= checkedAt <= recordedAt
    requires RetryAfter(cfg, s.store, slot, checkedAt).None?
    requires RightVictimFor(cfg, Checked(cfg, s, slot, checkedAt), slot, recordedAt, victim)
    ensures Inv(cfg, Grant(cfg, s, slot, checkedAt, recordedAt, victim))
  {
    var a := PruneAt(cfg, s, slot, checkedAt);
    var b := PruneAt(cfg, a, slot, recordedAt);
    PruneKeeps(cfg, s, slot, checkedAt);
    PruneKeeps(cfg, a, slot, recordedAt);
    GrantedHasRoom(cfg, s, slot, checkedAt, recordedAt);
    var c := if slot in b.store.table then b else Roomed(cfg, b, victim);
    if slot !in b.store.table { MakeRoomKeeps(cfg, b, victim); }
    GrantIsPush(cfg, s, b, c, slot, checkedAt, recordedAt, victim);
    CountedPushes(cfg, c.store, slot, c.clock);
    var u := Grant(cfg, s, slot, checkedAt, recordedAt, victim);
    PushKeeps(cfg, c, u, slot, s.nextReservation, u.store.table[slot]);
  }

  // ---- releasing ----

  function ReleasedIn(g: Granted, r: ReservationId): Granted
    requires r in g
  {
    g[r := g[r].(released := true)]
  }

  lemma TimesWithout(g: Granted, ids: seq<ReservationId>, p: nat)
    requires p < |ids| && forall i :: 0 <= i < |ids| ==> ids[i] in g
    requires forall i, j :: 0 <= i < j < |ids| ==> ids[i] != ids[j]
    ensures forall i :: 0 <= i < |Without(ids, p)| ==> Without(ids, p)[i] in g && Without(ids, p)[i] != ids[p]
    ensures Times(ReleasedIn(g, ids[p]), Without(ids, p)) == Without(Times(g, ids), p)
  {
    var rest := Without(ids, p);
    forall i | 0 <= i < |rest| ensures rest[i] in g && rest[i] != ids[p] { assert rest[i] == ids[if i < p then i else i + 1]; }
  }

  lemma ReleasedLog(cfg: Config, slot: Slot, g: Granted, clock: int, ids: seq<ReservationId>, p: nat)
    requires LogShape(cfg, slot, g, clock, ids) && p < |ids|
    ensures LogShape(cfg, slot, ReleasedIn(g, ids[p]), clock, Without(ids, p))
  {
    TimesWithout(g, ids, p);
    RemovalKeepsSpacing(Times(g, ids), p, cfg.MaxEvents(slot), cfg.Window(slot));
    var rest := Without(ids, p);
    forall i, j | 0 <= i < j < |rest| ensures rest[i] != rest[j] {
      assert rest[i] == ids[if i < p then i else i + 1] && rest[j] == ids[if j < p then j else j + 1];
    }
    forall i | 0 <= i < |rest|
      ensures g[rest[i]].slot == slot && !g[rest[i]].released && g[rest[i]].at <= clock
    {
      assert rest[i] == ids[if i < p then i else i + 1];
    }
  }

  /** The released event was still counted: it leaves the array, which may leave its slot. */
  lemma CountedReleased(cfg: Config, slot: Slot, g: Granted, clock: int, ids: seq<ReservationId>, events: seq<int>, list: Option<ListId>, p: nat)
    requires LogShape(cfg, slot, g, clock, ids) && StoredShape(cfg, slot, g, clock, ids, events, list)
    requires |ids| - |events| <= p < |ids|
    ensures forall i :: 0 <= i < |Without(ids, p)| ==> Without(ids, p)[i] in ReleasedIn(g, ids[p])
    ensures var rest := Without(events, p - (|ids| - |events|));
            StoredShape(cfg, slot, ReleasedIn(g, ids[p]), clock, Without(ids, p), rest, if rest == [] then None else list)
  {
    TimesWithout(g, ids, p);
    var from := |ids| - |events|;
    var h, left, rest := ReleasedIn(g, ids[p]), Without(ids, p), Without(events, p - from);
    StoredAt(cfg, slot, g, clock, ids, events, list);
    assert Without(Times(g, ids), p)[from..] == rest;
    assert forall i :: 0 <= i < from ==> left[i] == ids[i];
    forall i | from <= i < |left| ensures list == Some(h[left[i]].list) { assert left[i] == ids[if i < p then i else i + 1]; }
    forall i | 0 <= i < from && list == Some(h[left[i]].list) && rest != [] ensures h[left[i]].at < rest[0] {
      assert rest[0] == events[if p == from then 1 else 0] >= events[0];
    }
  }

  /** The released event had already left the array. */
  lemma UncountedReleased(cfg: Config, slot: Slot, g: Granted, clock: int, ids: seq<ReservationId>, events: seq<int>, list: Option<ListId>, p: nat)
    requires LogShape(cfg, slot, g, clock, ids) && StoredShape(cfg, slot, g, clock, ids, events, list)
    requires p < |ids| - |events|
    ensures forall i :: 0 <= i < |Without(ids, p)| ==> Without(ids, p)[i] in ReleasedIn(g, ids[p])
    ensures StoredShape(cfg, slot, ReleasedIn(g, ids[p]), clock, Without(ids, p), events, list)
    ensures list == Some(g[ids[p]].list) ==> g[ids[p]].at !in events
  {
    TimesWithout(g, ids, p);
    var h, left := ReleasedIn(g, ids[p]), Without(ids, p);
    StoredAt(cfg, slot, g, clock, ids, events, list);
    assert Without(Times(g, ids), p)[|left| - |events|..] == Times(g, ids)[|ids| - |events|..];
    forall i | 0 <= i < |left| ensures left[i] == ids[if i < p then i else i + 1] {}
  }

  /** Reservation `r` is number `p` in its slot's log, and its event is still in the slot's array. */
  ghost predicate CountedAt(s: State, r: ReservationId, p: int)
    requires r in s.reservations
  {
    var ids, events := LogOf(s, s.reservations[r].slot), EventsOf(s.store, s.reservations[r].slot);
    0 <= p < |ids| && ids[p] == r && |ids| - |events| <= p
  }

  /** The array a release leaves behind, had it removed event `j` of those equal to its own. */
  lemma UncountTakes(s: Store, slot: Slot, list: ListId, at: int, j: nat)
    requires slot in s.table && s.table[slot] == list && list in s.lists
    requires var events := s.lists[list]; Sorted(events) && j < |events| && events[j] == at
    ensures EventsOf(Uncount(s, slot, list, at), slot) == Without(s.lists[list], j)
  {
    var events := s.lists[list];
    LastIndexFinds(events, at);
    EqualEventsAreInterchangeable(events, LastIndexOf(events, at).value, j);
  }

  /** A counted reservation's `release` takes exactly its own event out of the array, and itself out of the log. */
  lemma ReleaseTakesOwnEvent(cfg: Config, s: State, r: ReservationId, p: int)
    requires Linked(s.store) && r in s.reservations && !s.reservations[r].released
    requires SlotOk(cfg, s, s.reservations[r].slot) && CountedAt(s, r, p)
    ensures var slot := s.reservations[r].slot;
            var ids, events, u := LogOf(s, slot), EventsOf(s.store, slot), Releasing(s, r);
            LogOf(u, slot) == Without(ids, p) && p - (|ids| - |events|) < |events|
            && EventsOf(u.store, slot) == Without(events, p - (|ids| - |events|))
  {
    var v := s.reservations[r];
    var ids, events := LogOf(s, v.slot), EventsOf(s.store, v.slot);
    var from := |ids| - |events|;
    StoredAt(cfg, v.slot, s.reservations, s.clock, ids, events, ListOf(s.store, v.slot));
    FilteredIsWithout(ids, r, p);
    assert events[p - from] == v.at && ListOf(s.store, v.slot) == Some(v.list);
    UncountTakes(s.store, v.slot, v.list, v.at, p - from);
  }

  /** Any other reservation's `release` leaves the store alone: its event expired, or its slot was evicted. */
  lemma LateReleaseDoesNothing(cfg: Config, s: State, r: ReservationId)
    requires Linked(s.store) && r in s.reservations && !s.reservations[r].released
    requires SlotOk(cfg, s, s.reservations[r].slot) && ReservationOk(s, r)
    requires forall p :: !CountedAt(s, r, p)
    ensures Releasing(s, r).store == s.store
  {
    var v := s.reservations[r];
    var ids, events, list := LogOf(s, v.slot), EventsOf(s.store, v.slot), ListOf(s.store, v.slot);
    LastIndexFinds(events, v.at);
    if list == Some(v.list) {
      var p :| 0 <= p < |ids| && ids[p] == r;
      assert !CountedAt(s, r, p);
      UncountedReleased(cfg, v.slot, s.reservations, s.clock, ids, events, list, p);
    }
  }

  lemma UncountLinked(s: Store, slot: Slot, list: ListId, at: int)
    requires Linked(s)
    ensures var t := Uncount(s, slot, list, at);
            && Linked(t) && t.keyCount <= s.keyCount && t.nextId == s.nextId
            && (forall k :: k != slot ==> EventsOf(t, k) == EventsOf(s, k) && ListOf(t, k) == ListOf(s, k))
            && (EventsOf(t, slot) != [] ==> ListOf(t, slot) == ListOf(s, slot)) && (EventsOf(t, slot) == [] ==> ListOf(t, slot) == None)
  {
    if slot in s.table && s.table[slot] == list {
      var events := EventsOf(s, slot);
      LastIndexFinds(events, at);
      var i := LastIndexOf(events, at);
      if i.Some? {
        var rest := Without(events, i.value);
        if rest == [] { EmptiedLinked(s, slot, list); } else { ReplaceLinked(s, slot, rest); }
      }
    }
  }

  lemma EmptiedLinked(s: Store, slot: Slot, list: ListId)
    requires Linked(s) && slot in s.table && s.table[slot] == list
    ensures var t := Remove(s.(lists := s.lists[list := []]), slot);
            && Linked(t) && slot !in t.table
            && (forall k :: k != slot ==> EventsOf(t, k) == EventsOf(s, k) && ListOf(t, k) == ListOf(s, k))
  {
    var t := Remove(s.(lists := s.lists[list := []]), slot);
    forall k | k in t.table ensures t.table[k] == s.table[k] && t.table[k] != list {}
  }

  lemma SlotOkFrom(cfg: Config, u: State, slot: Slot, ids: seq<ReservationId>, events: seq<int>, list: Option<ListId>)
    requires LogOf(u, slot) == ids && EventsOf(u.store, slot) == events && ListOf(u.store, slot) == list
    requires LogShape(cfg, slot, u.reservations, u.clock, ids) && StoredShape(cfg, slot, u.reservations, u.clock, ids, events, list)
    ensures SlotOk(cfg, u, slot)
  {
  }

  lemma ReleasedCounted(cfg: Config, s: State, r: ReservationId, p: int)
    requires Linked(s.store) && r in s.reservations && !s.reservations[r].released
    requires SlotOk(cfg, s, s.reservations[r].slot) && CountedAt(s, r, p)
    ensures SlotOk(cfg, Releasing(s, r), s.reservations[r].slot)
  {
    var v := s.reservations[r];
    var ids, events, list := LogOf(s, v.slot), EventsOf(s.store, v.slot), ListOf(s.store, v.slot);
    var rest := Without(events, p - (|ids| - |events|));
    ReleaseTakesOwnEvent(cfg, s, r, p);
    UncountLinked(s.store, v.slot, v.list, v.at);
    ReleasedLog(cfg, v.slot, s.reservations, s.clock, ids, p);
    CountedReleased(cfg, v.slot, s.reservations, s.clock, ids, events, list, p);
    ReleasedIs(s, r);
    SlotOkFrom(cfg, Releasing(s, r), v.slot, Without(ids, p), rest, if rest == [] then None else list);
  }

  lemma ReleasedIs(s: State, r: ReservationId)
    requires r in s.reservations && !s.reservations[r].released
    ensures var u, v := Releasing(s, r), s.reservations[r];
            u.reservations == ReleasedIn(s.reservations, r) && u.clock == s.clock && u.store == Uncount(s.store, v.slot, v.list, v.at)
  {
  }

  lemma ReleasedLate(cfg: Config, s: State, r: ReservationId)
    requires Linked(s.store) && r in s.reservations && !s.reservations[r].released
    requires SlotOk(cfg, s, s.reservations[r].slot) && ReservationOk(s, r)
    requires forall p :: !CountedAt(s, r, p)
    ensures SlotOk(cfg, Releasing(s, r), s.reservations[r].slot)
  {
    var v, u := s.reservations[r], Releasing(s, r);
    var ids, events, list := LogOf(s, v.slot), EventsOf(s.store, v.slot), ListOf(s.store, v.slot);
    LateReleaseDoesNothing(cfg, s, r);
    if r in ids {
      var p :| 0 <= p < |ids| && ids[p] == r;
      assert !CountedAt(s, r, p);
      FilteredIsWithout(ids, r, p);
      ReleasedLog(cfg, v.slot, s.reservations, s.clock, ids, p);
      UncountedReleased(cfg, v.slot, s.reservations, s.clock, ids, events, list, p);
    } else {
      FilteredElsewhere(ids, r);
      assert LogOf(u, v.slot) == ids;
      LogKeeps(cfg, v.slot, s.reservations, u.reservations, s.clock, s.clock, ids);
      StoredKeeps(cfg, v.slot, s.reservations, u.reservations, s.clock, s.clock, ids, events, list);
    }
  }

  lemma {:induction false} FilteredHas(ids: seq<ReservationId>, r: ReservationId, x: ReservationId)
    requires x in ids && x != r
    ensures x in Filtered(ids, r)
  {
    if ids[0] != x {
      FilteredHas(ids[1..], r, x);
    }
  }

  lemma ReleaseKeeps(cfg: Config, s: State, r: ReservationId)
    requires Inv(cfg, s) && r in s.reservations
    ensures Inv(cfg, Releasing(s, r))
  {
    var v, u := s.reservations[r], Releasing(s, r);
    if !v.released {
      UncountLinked(s.store, v.slot, v.list, v.at);
      forall k ensures SlotOk(cfg, u, k) {
        assert SlotOk(cfg, s, v.slot) && SlotOk(cfg, s, k);
        if k != v.slot { ReleasedElsewhere(cfg, s, r, k); }
        else if p :| CountedAt(s, r, p) { ReleasedCounted(cfg, s, r, p); }
        else { ReleasedLate(cfg, s, r); }
      }
      forall x | x in u.reservations ensures ReservationOk(u, x) {
        assert ReservationOk(s, x);
        if x != r && x in LogOf(s, v.slot) { FilteredHas(LogOf(s, v.slot), r, x); }
      }
    }
  }

  lemma ReleasedElsewhere(cfg: Config, s: State, r: ReservationId, k: Slot)
    requires Linked(s.store) && SlotOk(cfg, s, k) && r in s.reservations && !s.reservations[r].released && k != s.reservations[r].slot
    ensures SlotOk(cfg, Releasing(s, r), k)
  {
    var v, u, ids := s.reservations[r], Releasing(s, r), LogOf(s, k);
    UncountLinked(s.store, v.slot, v.list, v.at);
    assert LogOf(u, k) == ids && r !in ids;
    LogKeeps(cfg, k, s.reservations, u.reservations, s.clock, s.clock, ids);
    StoredKeeps(cfg, k, s.reservations, u.reservations, s.clock, s.clock, ids, EventsOf(s.store, k), ListOf(s.store, k));
  }

  // ---- every run ----

  lemma StepKeeps(cfg: Config, s: State, step: Step)
    requires Inv(cfg, s) && cfg.maxKeys >= 1
    ensures Inv(cfg, Apply(cfg, s, step))
  {
    if Enabled(cfg, s, step) {
      match step
      case TryAcquire(slot, checkedAt, recordedAt, victim) =>
        if RetryAfter(cfg, s.store, slot, checkedAt).Some? {
          PruneKeeps(cfg, s, slot, checkedAt);
          var a := PruneAt(cfg, s, slot, checkedAt);
          TickKeeps(cfg, a, slot, recordedAt);
        } else {
          GrantKeeps(cfg, s, slot, checkedAt, recordedAt, victim);
        }
      case Release(r) => ReleaseKeeps(cfg, s, r);
      case Ask(slot, at) => PruneKeeps(cfg, s, slot, at);
    }
  }

  lemma TickKeeps(cfg: Config, s: State, slot: Slot, at: int)
    requires Inv(cfg, s) && s.clock <= at
    ensures Inv(cfg, s.(clock := at))
  {
    assert SlotOk(cfg, s, slot);
    LogKeeps(cfg, slot, s.reservations, s.reservations, s.clock, at, LogOf(s, slot));
    StoredKeeps(cfg, slot, s.reservations, s.reservations, s.clock, at, LogOf(s, slot), EventsOf(s.store, slot), ListOf(s.store, slot));
    OnlySlotKeeps(cfg, s, s.(clock := at), slot);
  }

  lemma {:induction false} RunKeeps(cfg: Config, s: State, steps: seq<Step>)
    requires Inv(cfg, s) && cfg.maxKeys >= 1
    ensures Inv(cfg, Exec(cfg, s, steps))
    decreases |steps|
  {
    if steps != [] {
      StepKeeps(cfg, s, steps[0]);
      RunKeeps(cfg, Apply(cfg, s, steps[0]), steps[1..]);
    }
  }
}
