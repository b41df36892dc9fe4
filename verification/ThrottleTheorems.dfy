/** What the limiter promises its callers. */
module ThrottleTheorems {
  import opened Ordering
  import opened ThrottleSpec
  import opened ThrottleProofs

  lemma EmptyIsFine(cfg: Config, clock: int)
    ensures Inv(cfg, Init(clock))
  {
    forall slot ensures SlotOk(cfg, Init(clock), slot) {
      assert Times(map[], []) == [];
    }
  }

  lemma {:induction false} Reachable(cfg: Config, clock: int, steps: seq<Step>)
    requires cfg.maxKeys >= 1
    ensures Inv(cfg, Exec(cfg, Init(clock), steps))
  {
    EmptyIsFine(cfg, clock);
    RunKeeps(cfg, Init(clock), steps);
  }

  /** Every stored array holds an event, is in time order and never longer than its limit; `keyCount` counts the slots. */
  lemma {:induction false} StoreIsBounded(cfg: Config, clock: int, steps: seq<Step>, slot: Slot)
    requires cfg.maxKeys >= 1
    ensures var s := Exec(cfg, Init(clock), steps);
            && s.store.keyCount == |s.store.table| <= cfg.maxKeys
            && (slot in s.store.table ==>
                  var events := EventsOf(s.store, slot);
                  events != [] && Sorted(events) && |events| <= cfg.MaxEvents(slot) && events[|events| - 1] <= s.clock)
  {
    Reachable(cfg, clock, steps);
    var s := Exec(cfg, Init(clock), steps);
    assert SlotOk(cfg, s, slot);
    StoredIsSorted(cfg, s, slot);
  }

  /**
   * Among the reservations of one slot that were never released since it was last evicted while live, at most
   * `maxEvents` fall into any stretch of time as long as the window.
   */
  lemma {:induction false} WindowHoldsAtMostMax(cfg: Config, clock: int, steps: seq<Step>, slot: Slot, start: int, i: nat, j: nat)
    requires cfg.maxKeys >= 1
    requires var s := Exec(cfg, Init(clock), steps);
             var ids := LogOf(s, slot);
             && i <= j < |ids| && ids[i] in s.reservations && ids[j] in s.reservations
             && start < s.reservations[ids[i]].at && s.reservations[ids[j]].at <= start + cfg.Window(slot)
    ensures j - i + 1 <= cfg.MaxEvents(slot)
  {
    Reachable(cfg, clock, steps);
    var s := Exec(cfg, Init(clock), steps);
    assert SlotOk(cfg, s, slot);
    SpacedApart(Times(s.reservations, LogOf(s, slot)), cfg.MaxEvents(slot), cfg.Window(slot), i, j);
  }

  lemma SpacedApart(times: seq<int>, max: nat, window: int, i: nat, j: nat)
    requires Sorted(times) && Spaced(times, max, window) && i <= j < |times|
    ensures j - i >= max ==> times[j] - times[i] >= window
  {
    if j - i >= max {
      assert times[i + max] <= times[j];
    }
  }

  // ---- the stored arrays answer as the log would ----

  lemma CutIsUnique(times: seq<int>, cutoff: int, a: nat, b: nat)
    requires a <= |times| && b <= |times|
    requires forall i :: 0 <= i < a || 0 <= i < b ==> times[i] <= cutoff
    requires (a < |times| ==> times[a] > cutoff) && (b < |times| ==> times[b] > cutoff)
    ensures a == b
  {
  }

  lemma {:induction false} LiveOfSuffix(times: seq<int>, from: nat, cutoff: int)
    requires Sorted(times) && from <= |times| && forall i :: 0 <= i < from ==> times[i] <= cutoff
    ensures DropExpired(times[from..], cutoff) == DropExpired(times, cutoff)
  {
    var k := DropExpiredIsSuffix(times, cutoff);
    var j := DropExpiredIsSuffix(times[from..], cutoff);
    forall i | from <= i < |times| ensures times[i] == times[from..][i - from] {}
    CutIsUnique(times, cutoff, k, from + j);
    assert times[from..][j..] == times[k..];
  }

  /** A caller is refused exactly when the slot's log of unreleased grants says so, and told to wait exactly as long. */
  lemma {:induction false} VerdictIsTheLogs(cfg: Config, clock: int, steps: seq<Step>, slot: Slot, at: int)
    requires cfg.maxKeys >= 1 && cfg.MaxEvents(slot) >= 1 && Exec(cfg, Init(clock), steps).clock <= at
    ensures var s := Exec(cfg, Init(clock), steps);
            && (forall i :: 0 <= i < |LogOf(s, slot)| ==> LogOf(s, slot)[i] in s.reservations)
            && RetryAfter(cfg, s.store, slot, at) ==
               Verdict(DropExpired(Times(s.reservations, LogOf(s, slot)), at - cfg.Window(slot)), at, cfg.limits(slot.action))
  {
    Reachable(cfg, clock, steps);
    var s := Exec(cfg, Init(clock), steps);
    assert SlotOk(cfg, s, slot);
    LogAnswers(cfg, s, slot, at);
    RetryAfterOfEvents(cfg, s.store, slot, at);
  }

  lemma LogAnswers(cfg: Config, s: State, slot: Slot, at: int)
    requires SlotOk(cfg, s, slot) && s.clock <= at
    ensures DropExpired(EventsOf(s.store, slot), at - cfg.Window(slot)) ==
            DropExpired(Times(s.reservations, LogOf(s, slot)), at - cfg.Window(slot))
  {
    var ids, events, times := LogOf(s, slot), EventsOf(s.store, slot), Times(s.reservations, LogOf(s, slot));
    forall i | 0 <= i < |ids| - |events| ensures times[i] <= at - cfg.Window(slot) { assert times[i] == s.reservations[ids[i]].at; }
    LiveOfSuffix(times, |ids| - |events|, at - cfg.Window(slot));
  }

  lemma {:induction false} RetryAfterOfEvents(cfg: Config, s: Store, slot: Slot, at: int)
    requires Linked(s) && cfg.MaxEvents(slot) >= 1
    ensures RetryAfter(cfg, s, slot, at) ==
            Verdict(DropExpired(EventsOf(s, slot), at - cfg.Window(slot)), at, cfg.limits(slot.action))
  {
  }

  /** Forgetting all but the newest events when one is recorded past the limit never changes an answer. */
  lemma {:induction false} NewestSuffice(events: seq<int>, at: int, limit: Limit)
    requires Sorted(events) && limit.maxEvents >= 1
    ensures var kept, cutoff := Newest(events, limit.maxEvents), at - limit.Window();
            && |kept| == (if |events| < limit.maxEvents then |events| else limit.maxEvents)
            && Verdict(DropExpired(kept, cutoff), at, limit) == Verdict(DropExpired(events, cutoff), at, limit)
  {
    var n, max, cutoff := |events|, limit.maxEvents, at - limit.Window();
    if n > max {
      var k := DropExpiredIsSuffix(events, cutoff);
      if k >= n - max {
        LiveOfSuffix(events, n - max, cutoff);
      } else {
        assert DropExpired(events, cutoff)[n - k - max] == events[n - max];
        var j := DropExpiredIsSuffix(events[n - max..], cutoff);
        assert events[n - max..][0] == events[n - max] && j == 0;
        assert events[n - max..][0..] == events[n - max..];
      }
    }
  }

  // ---- release ----

  lemma ReleaseIsReleasing(cfg: Config, s: State, r: ReservationId)
    requires r in s.reservations
    ensures Apply(cfg, s, Release(r)) == Releasing(s, r)
    ensures Apply(cfg, Releasing(s, r), Release(r)) == Releasing(s, r)
  {
  }

  lemma ReleasingIsExact(cfg: Config, s: State, r: ReservationId)
    requires Inv(cfg, s) && r in s.reservations
    ensures var u, slot := Releasing(s, r), s.reservations[r].slot;
            && (forall k :: k != slot ==> EventsOf(u.store, k) == EventsOf(s.store, k))
            && (u.store != s.store <==> exists p :: CountedAt(s, r, p))
            && (u.store != s.store ==>
                  exists p :: CountedAt(s, r, p) && LogOf(u, slot) == Without(LogOf(s, slot), p)
                               && 0 <= p - (|LogOf(s, slot)| - |EventsOf(s.store, slot)|) < |EventsOf(s.store, slot)|
                               && EventsOf(u.store, slot) ==
                                  Without(EventsOf(s.store, slot), p - (|LogOf(s, slot)| - |EventsOf(s.store, slot)|)))
  {
    var v := s.reservations[r];
    assert SlotOk(cfg, s, v.slot) && ReservationOk(s, r);
    if !v.released {
      UncountLinked(s.store, v.slot, v.list, v.at);
      if p :| CountedAt(s, r, p) {
        ReleaseTakesOwnEvent(cfg, s, r, p);
      } else {
        LateReleaseDoesNothing(cfg, s, r);
      }
    }
  }

  /**
   * A release changes the arrays exactly when its own event is still counted, and then takes exactly that event
   * out of its slot's array; all other slots stay as they are, and releasing again does nothing.
   */
  lemma {:induction false} ReleaseIsExact(cfg: Config, clock: int, steps: seq<Step>, r: ReservationId)
    requires cfg.maxKeys >= 1 && r in Exec(cfg, Init(clock), steps).reservations
    ensures var s := Exec(cfg, Init(clock), steps);
            var u := Apply(cfg, s, Release(r));
            var slot := s.reservations[r].slot;
            && (forall k :: k != slot ==> EventsOf(u.store, k) == EventsOf(s.store, k))
            && (u.store != s.store <==> exists p :: CountedAt(s, r, p))
            && (u.store != s.store ==>
                  exists p :: CountedAt(s, r, p) && LogOf(u, slot) == Without(LogOf(s, slot), p)
                               && 0 <= p - (|LogOf(s, slot)| - |EventsOf(s.store, slot)|) < |EventsOf(s.store, slot)|
                               && EventsOf(u.store, slot) ==
                                  Without(EventsOf(s.store, slot), p - (|LogOf(s, slot)| - |EventsOf(s.store, slot)|)))
            && Apply(cfg, u, Release(r)) == u
  {
    Reachable(cfg, clock, steps);
    var s := Exec(cfg, Init(clock), steps);
    ReleasingIsExact(cfg, s, r);
    ReleaseIsReleasing(cfg, s, r);
  }

  // ---- the wait is exact ----

  lemma CeilDivBounds(x: int, d: int)
    requires d > 0
    ensures d * (CeilDiv(x, d) - 1) < x <= d * CeilDiv(x, d)
  {
  }

  lemma VerdictAt(events: seq<int>, at: int, limit: Limit, t: int)
    requires Sorted(events) && limit.maxEvents >= 1 && |events| >= limit.maxEvents
    ensures Verdict(DropExpired(events, t - limit.Window()), t, limit).Some? <==>
            t < events[|events| - limit.maxEvents] + limit.Window()
  {
    var k := DropExpiredIsSuffix(events, t - limit.Window());
  }

  /**
   * A refused caller is told the number of whole seconds after which, with no new event, the slot is under its
   * limit again; at every moment up to one second earlier it is still refused.
   */
  lemma WaitIsExact(cfg: Config, s: Store, slot: Slot, at: int, seconds: int, t: int)
    requires Linked(s) && Sorted(EventsOf(s, slot)) && cfg.MaxEvents(slot) >= 1
    requires RetryAfter(cfg, s, slot, at) == Some(seconds) && at <= t <= at + 1000 * (seconds - 1)
    ensures seconds >= 1
    ensures RetryAfter(cfg, Pruned(cfg, s, slot, at), slot, at + 1000 * seconds).None?
    ensures RetryAfter(cfg, Pruned(cfg, s, slot, at), slot, t).Some?
  {
    PruneLinked(cfg, s, slot, at);
    PrunedEvents(cfg, s, slot, at);
    RetryAfterOfEvents(cfg, s, slot, at);
    PrunedWaitIsExact(cfg, Pruned(cfg, s, slot, at), slot, at, seconds, t);
  }

  lemma PrunedWaitIsExact(cfg: Config, p: Store, slot: Slot, at: int, seconds: int, t: int)
    requires Linked(p) && Sorted(EventsOf(p, slot)) && cfg.MaxEvents(slot) >= 1
    requires forall i :: 0 <= i < |EventsOf(p, slot)| ==> EventsOf(p, slot)[i] > at - cfg.Window(slot)
    requires Verdict(EventsOf(p, slot), at, cfg.limits(slot.action)) == Some(seconds) && at <= t <= at + 1000 * (seconds - 1)
    ensures seconds >= 1
    ensures RetryAfter(cfg, p, slot, at + 1000 * seconds).None?
    ensures RetryAfter(cfg, p, slot, t).Some?
  {
    RetryAfterOfEvents(cfg, p, slot, t);
    RetryAfterOfEvents(cfg, p, slot, at + 1000 * seconds);
    ArrayWaitIsExact(EventsOf(p, slot), at, cfg.limits(slot.action), seconds, t);
  }

  lemma {:induction false} PrunedEvents(cfg: Config, s: Store, slot: Slot, at: int)
    requires Linked(s) && Sorted(EventsOf(s, slot))
    ensures EventsOf(Pruned(cfg, s, slot, at), slot) == DropExpired(EventsOf(s, slot), at - cfg.Window(slot))
    ensures Sorted(EventsOf(Pruned(cfg, s, slot, at), slot))
    ensures forall i :: 0 <= i < |EventsOf(Pruned(cfg, s, slot, at), slot)| ==>
              EventsOf(Pruned(cfg, s, slot, at), slot)[i] > at - cfg.Window(slot)
  {
    var k := DropExpiredIsSuffix(EventsOf(s, slot), at - cfg.Window(slot));
  }

  lemma ArrayWaitIsExact(live: seq<int>, at: int, limit: Limit, seconds: int, t: int)
    requires Sorted(live) && limit.maxEvents >= 1 && Verdict(live, at, limit) == Some(seconds)
    requires forall i :: 0 <= i < |live| ==> live[i] > at - limit.Window()
    requires at <= t <= at + 1000 * (seconds - 1)
    ensures seconds >= 1
    ensures Verdict(DropExpired(live, at + 1000 * seconds - limit.Window()), at + 1000 * seconds, limit).None?
    ensures Verdict(DropExpired(live, t - limit.Window()), t, limit).Some?
  {
    CeilDivBounds(live[|live| - limit.maxEvents] + limit.Window() - at, 1000);
    VerdictAt(live, at, limit, t);
    VerdictAt(live, at, limit, at + 1000 * seconds);
  }
}
