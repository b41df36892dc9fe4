/** The limiter as the source keeps it: arrays, a slot table and a slot count, updated in place. */
module ClientIpThrottle {
  import opened Ordering
  import opened ThrottleSpec
  import ThrottleProofs
  import Ipv6

  /** The closure `tryAcquire` hands out. */
  class ThrottleReservation {
    const slot: Slot
    const list: ListId
    const at: int
    var released: bool

    constructor (slot: Slot, list: ListId, at: int)
      ensures this.slot == slot && this.list == list && this.at == at && !released
    {
      this.slot, this.list, this.at, released := slot, list, at, false;
    }
  }

  class ClientIpThrottle {
    const cfg: Config
    const isIpv6: string -> bool
    var lists: map<ListId, seq<int>>
    var table: map<Slot, ListId>
    var keyCount: int
    var nextId: nat

    ghost function View(): Store
      reads this
    {
      Store(lists, table, keyCount, nextId)
    }

    constructor (cfg: Config, isIpv6: string -> bool)
      ensures this.cfg == cfg && this.isIpv6 == isIpv6 && View() == Init(0).store
    {
      this.cfg, this.isIpv6 := cfg, isIpv6;
      lists, table, keyCount, nextId := map[], map[], 0, 0;
    }

    function SlotOf(action: Action, ip: string): Slot {
      Slot(action, Ipv6.ThrottleKeyForIp(isIpv6, ip))
    }

    /** Drops the slot's expired events; removes the slot when none remain. */
    method Prune(slot: Slot, at: int) returns (live: seq<int>)
      requires Linked(View()) && slot in table
      modifies this`lists, this`table, this`keyCount
      ensures View() == ThrottleSpec.Prune(old(View()), slot, at - cfg.Window(slot))
      ensures live == EventsOf(View(), slot)
    {
      var events := lists[table[slot]];
      var cutoff := at - cfg.Window(slot);
      var firstLive := 0;
      assert events[0..] == events;
      while firstLive < |events| && events[firstLive] <= cutoff
        invariant 0 <= firstLive <= |events|
        invariant DropExpired(events, cutoff) == DropExpired(events[firstLive..], cutoff)
      {
        assert events[firstLive..][1..] == events[firstLive + 1..];
        firstLive := firstLive + 1;
      }
      if firstLive == |events| {
        table, keyCount := table - {slot}, keyCount - 1;
        return [];
      }
      live := events[firstLive..];
      lists := lists[table[slot] := live];
    }

    /** Slots whose events have all expired are dropped, in whatever order the table lists them. */
    method DropExpiredSlots(at: int)
      requires Linked(View())
      modifies this`table, this`keyCount
      ensures View() == Sweep(cfg, old(View()), at)
    {
      ghost var before := View();
      var todo := table.Keys;
      ThrottleProofs.LeftEnds(cfg, before, at);
      while todo != {}
        invariant todo <= before.table.Keys && table == ThrottleProofs.Left(cfg, before, at, todo) && keyCount == |table|
        decreases todo
      {
        var k :| k in todo;
        ThrottleProofs.LeftStep(cfg, before, at, todo, k);
        DropIfExpired(k, at);
        todo := todo - {k};
      }
    }

    method DropIfExpired(k: Slot, at: int)
      requires k in table && table[k] in lists && lists[table[k]] != [] && keyCount == |table|
      modifies this`table, this`keyCount
      ensures var events := lists[old(table)[k]];
              table == if events[|events| - 1] <= at - cfg.Window(k) then old(table) - {k} else old(table)
      ensures keyCount == |table|
    {
      var events := lists[table[k]];
      if events[|events| - 1] <= at - cfg.Window(k) {
        table, keyCount := table - {k}, keyCount - 1;
      }
    }

    /** The slot whose newest event is the oldest. */
    method Oldest() returns (oldest: Option<Slot>)
      requires Linked(View())
      ensures oldest.None? <==> table == map[]
      ensures oldest.Some? ==> oldest.value in table && forall k :: k in table ==> NewestEvent(View(), oldest.value) <= NewestEvent(View(), k)
    {
      oldest := None;
      var todo := table.Keys;
      while todo != {}
        invariant todo <= table.Keys && (oldest.None? ==> todo == table.Keys)
        invariant oldest.Some? ==> oldest.value in table && forall k :: k in table && k !in todo ==> NewestEvent(View(), oldest.value) <= NewestEvent(View(), k)
        decreases todo
      {
        var k :| k in todo;
        todo := todo - {k};
        var events := lists[table[k]];
        if oldest.None? || events[|events| - 1] < lists[table[oldest.value]][|lists[table[oldest.value]]| - 1] { oldest := Some(k); }
      }
      if oldest.None? { assert table.Keys == {}; }
    }

    /** At capacity, room is made by dropping expired slots and then, if need be, the one live slot that has waited longest. */
    method MakeRoom(at: int) returns (victim: Option<Slot>)
      requires Linked(View()) && cfg.maxKeys >= 1
      modifies this`table, this`keyCount
      ensures View() == ThrottleSpec.MakeRoom(cfg, old(View()), at, victim)
      ensures RightVictim(cfg, old(View()), at, victim)
    {
      if keyCount < cfg.maxKeys { return None; }
      ghost var before := View();
      DropExpiredSlots(at);
      ThrottleProofs.SweepLinked(cfg, before, at);
      if keyCount < cfg.maxKeys { return None; }
      victim := Oldest();
      assert victim.Some?;
      ThrottleProofs.OldestIsRight(cfg, before, at, victim.value);
      table, keyCount := table - {victim.value}, keyCount - 1;
    }

    method RetryAfter(slot: Slot, at: int) returns (seconds: Option<int>)
      requires Linked(View()) && cfg.MaxEvents(slot) >= 1
      modifies this`lists, this`table, this`keyCount
      ensures View() == Pruned(cfg, old(View()), slot, at)
      ensures seconds == ThrottleSpec.RetryAfter(cfg, old(View()), slot, at)
    {
      if slot !in table { return None; }
      var live := Prune(slot, at);
      var limit := cfg.limits(slot.action);
      if |live| < limit.maxEvents { return None; }
      var oldestCounted := live[|live| - limit.maxEvents];
      var wait := CeilDiv(oldestCounted + limit.Window() - at, 1000);
      return Some(if wait < 1 then 1 else wait);
    }

    /** `retryAfterSeconds`. */
    method RetryAfterSeconds(action: Action, ip: string, at: int) returns (seconds: Option<int>)
      requires Linked(View()) && cfg.limits(action).maxEvents >= 1
      modifies this`lists, this`table, this`keyCount
      ensures View() == Pruned(cfg, old(View()), SlotOf(action, ip), at)
      ensures seconds == ThrottleSpec.RetryAfter(cfg, old(View()), SlotOf(action, ip), at)
      ensures Linked(View())
    {
      ThrottleProofs.PruneLinked(cfg, View(), SlotOf(action, ip), at);
      seconds := RetryAfter(SlotOf(action, ip), at);
    }

    /** Pushes on `list`, keeping only the newest events, and (re-)inserts the slot. */
    method Push(slot: Slot, list: ListId, events: seq<int>, at: int)
      modifies this`lists, this`table, this`keyCount
      ensures lists == old(lists)[list := Newest(events + [at], cfg.MaxEvents(slot))]
      ensures table == old(table)[slot := list] && keyCount == old(keyCount) + 1
    {
      var pushed := events + [at];
      var max := cfg.MaxEvents(slot);
      if |pushed| > max { pushed := pushed[|pushed| - max..]; }
      lists := lists[list := pushed];
      table, keyCount := table[slot := list], keyCount + 1;
    }

    /** The slot still has live events: its array is kept, and the slot moves to the back of its map. */
    method RecordLive(slot: Slot, at: int) returns (list: ListId)
      requires Linked(View()) && slot in table
      modifies this`lists, this`table, this`keyCount
      ensures View() == Append(cfg, old(View()), slot, at) && slot in table && table[slot] == list
    {
      list := table[slot];
      var events := lists[list];
      table, keyCount := table - {slot}, keyCount - 1;
      Push(slot, list, events, at);
      assert table == old(table);
    }

    /** The slot has no live event: room is made, and a new array begins. */
    method RecordFresh(slot: Slot, at: int) returns (list: ListId, victim: Option<Slot>)
      requires Linked(View()) && cfg.maxKeys >= 1 && slot !in table
      modifies this`lists, this`table, this`keyCount, this`nextId
      ensures View() == Fresh(cfg, ThrottleSpec.MakeRoom(cfg, old(View()), at, victim), slot, at)
      ensures RightVictim(cfg, old(View()), at, victim) && slot in table && table[slot] == list
    {
      victim := MakeRoom(at);
      list, nextId := nextId, nextId + 1;
      Push(slot, list, [], at);
      assert [] + [at] == [at];
    }

    /** The slot's live events, none when it has no array. */
    method PruneStored(slot: Slot, at: int) returns (events: seq<int>)
      requires Linked(View())
      modifies this`lists, this`table, this`keyCount
      ensures View() == Pruned(cfg, old(View()), slot, at) && Linked(View())
      ensures events != [] <==> slot in table
    {
      ThrottleProofs.PruneLinked(cfg, View(), slot, at);
      events := [];
      if slot in table { events := Prune(slot, at); }
    }

    /** `recordEvent`: counts one event, and returns the array it was pushed on. */
    method RecordEvent(slot: Slot, at: int) returns (list: ListId, victim: Option<Slot>)
      requires Linked(View()) && cfg.maxKeys >= 1
      modifies this`lists, this`table, this`keyCount, this`nextId
      ensures View() == Record(cfg, old(View()), slot, at, victim)
      ensures RightVictimFor(cfg, old(View()), slot, at, victim)
      ensures slot in table && table[slot] == list && list in lists
      ensures cfg.MaxEvents(slot) >= 1 ==>
                lists[list] != [] && lists[list][|lists[list]| - 1] == at && |lists[list]| <= cfg.MaxEvents(slot)
    {
      var events := PruneStored(slot, at);
      if |events| > 0 {
        list := RecordLive(slot, at);
        victim := None;
      } else {
        list, victim := RecordFresh(slot, at);
      }
    }

    /** Check and count in one synchronous step; the clock is read twice. */
    method TryAcquire(action: Action, ip: string, checkedAt: int, recordedAt: int)
      returns (granted: bool, seconds: int, reservation: ThrottleReservation?)
      requires Linked(View()) && cfg.maxKeys >= 1 && cfg.limits(action).maxEvents >= 1
      modifies this`lists, this`table, this`keyCount, this`nextId
      ensures Linked(View())
      ensures var slot, s := SlotOf(action, ip), old(View());
              && (granted <==> ThrottleSpec.RetryAfter(cfg, s, slot, checkedAt).None?)
              && (!granted ==> Some(seconds) == ThrottleSpec.RetryAfter(cfg, s, slot, checkedAt) && View() == Pruned(cfg, s, slot, checkedAt))
              && (granted ==>
                    && (exists victim :: RightVictimFor(cfg, Pruned(cfg, s, slot, checkedAt), slot, recordedAt, victim)
                                         && View() == Record(cfg, Pruned(cfg, s, slot, checkedAt), slot, recordedAt, victim))
                    && reservation != null && fresh(reservation) && !reservation.released
                    && reservation.slot == slot && reservation.at == recordedAt && ListOf(View(), slot) == Some(reservation.list))
    {
      var slot := SlotOf(action, ip);
      reservation, seconds := null, 0;
      ThrottleProofs.PruneLinked(cfg, View(), slot, checkedAt);
      var refused := RetryAfter(slot, checkedAt);
      if refused.Some? { return false, refused.value, null; }
      ghost var checked := View();
      var list, victim := RecordEvent(slot, recordedAt);
      ThrottleProofs.RecordLinked(cfg, checked, slot, recordedAt, victim);
      granted := true;
      reservation := new ThrottleReservation(slot, list, recordedAt);
    }

    /** `reservation.release()`. */
    method Release(reservation: ThrottleReservation)
      requires Linked(View())
      modifies this`lists, this`table, this`keyCount, reservation
      ensures reservation.released && Linked(View())
      ensures View() == if old(reservation.released) then old(View()) else Uncount(old(View()), reservation.slot, reservation.list, reservation.at)
    {
      ThrottleProofs.UncountLinked(View(), reservation.slot, reservation.list, reservation.at);
      if reservation.released { return; }
      reservation.released := true;
      var slot := reservation.slot;
      if slot !in table || table[slot] != reservation.list { return; }
      var events := lists[reservation.list];
      ThrottleProofs.LastIndexFinds(events, reservation.at);
      var i := LastIndexOf(events, reservation.at);
      if i.None? { return; }
      var rest := Without(events, i.value);
      lists := lists[reservation.list := rest];
      if rest == [] { table, keyCount := table - {slot}, keyCount - 1; }
    }
  }
}
