/**
 * The client-address limiter as values. `Store` holds what the process keeps: event arrays by identity, the
 * array of each (action, key) slot, and the count of slots. `State` adds the reservations handed out.
 */
module ThrottleSpec {
  import opened Ordering

  datatype Action = Login | PasswordResetRequest | PasswordResetConsume | InvitationAccept

  datatype Slot = Slot(action: Action, key: string)

  type ListId = nat
  type ReservationId = nat

  datatype Limit = Limit(maxEvents: nat, windowSeconds: nat) {
    function Window(): int { windowSeconds * 1000 }
  }

  datatype Config = Config(maxKeys: nat, limits: Action -> Limit) {
    function MaxEvents(slot: Slot): nat { limits(slot.action).maxEvents }
    function Window(slot: Slot): int { limits(slot.action).Window() }
  }

  ghost predicate Sane(cfg: Config) {
    cfg.maxKeys >= 1 && forall a :: cfg.limits(a).maxEvents >= 1
  }

  datatype Store = Store(lists: map<ListId, seq<int>>, table: map<Slot, ListId>, keyCount: int, nextId: nat)

  // ---- one array ----

  predicate Sorted(events: seq<int>) {
    forall i, j :: 0 <= i <= j < |events| ==> events[i] <= events[j]
  }

  function DropExpired(events: seq<int>, cutoff: int): seq<int> {
    if events != [] && events[0] <= cutoff then DropExpired(events[1..], cutoff) else events
  }

  function Newest(events: seq<int>, max: nat): seq<int> {
    if |events| > max then events[|events| - max..] else events
  }

  function Without<T>(events: seq<T>, i: nat): seq<T>
    requires i < |events|
  {
    events[..i] + events[i + 1..]
  }

  function LastIndexOf(events: seq<int>, at: int): Option<nat> {
    if events == [] then None
    else if events[|events| - 1] == at then Some(|events| - 1)
    else LastIndexOf(events[..|events| - 1], at)
  }

  function CeilDiv(x: int, d: int): int
    requires d > 0
  {
    -((-x) / d)
  }

  /** The verdict on a pruned array. */
  function Verdict(live: seq<int>, at: int, limit: Limit): Option<int>
    requires limit.maxEvents >= 1
  {
    if |live| < limit.maxEvents then None
    else
      var seconds := CeilDiv(live[|live| - limit.maxEvents] + limit.Window() - at, 1000);
      Some(if seconds < 1 then 1 else seconds)
  }

  // ---- the store ----

  /** Every slot has an array of its own that holds an event; `keyCount` counts the slots. */
  ghost predicate Linked(s: Store) {
    && s.keyCount == |s.table|
    && (forall k :: k in s.table ==> s.table[k] in s.lists && s.table[k] < s.nextId && s.lists[s.table[k]] != [])
    && (forall j, k :: j in s.table && k in s.table && s.table[j] == s.table[k] ==> j == k)
    && (forall l :: l in s.lists ==> l < s.nextId)
  }

  function EventsOf(s: Store, slot: Slot): seq<int> {
    if slot in s.table && s.table[slot] in s.lists then s.lists[s.table[slot]] else []
  }

  function Remove(s: Store, slot: Slot): Store {
    s.(table := s.table - {slot}, keyCount := s.keyCount - 1)
  }

  /** The key is deleted, its array left as it was, when every event has expired. */
  function Prune(s: Store, slot: Slot, cutoff: int): Store
    requires slot in s.table
  {
    var live := DropExpired(EventsOf(s, slot), cutoff);
    if live == [] then Remove(s, slot) else s.(lists := s.lists[s.table[slot] := live])
  }

  predicate Expired(cfg: Config, s: Store, slot: Slot, at: int) {
    var events := EventsOf(s, slot);
    events == [] || events[|events| - 1] <= at - cfg.Window(slot)
  }

  function Sweep(cfg: Config, s: Store, at: int): Store {
    var table := map slot | slot in s.table && !Expired(cfg, s, slot, at) :: s.table[slot];
    s.(table := table, keyCount := s.keyCount - (|s.table| - |table|))
  }

  function NewestEvent(s: Store, slot: Slot): int {
    var events := EventsOf(s, slot);
    if events == [] then 0 else events[|events| - 1]
  }

  predicate NeedsVictim(cfg: Config, s: Store, at: int) {
    s.keyCount >= cfg.maxKeys && Sweep(cfg, s, at).keyCount >= cfg.maxKeys
  }

  /** A live slot is evicted only after every expired one went, and then one whose newest event is the oldest. */
  ghost predicate RightVictim(cfg: Config, s: Store, at: int, victim: Option<Slot>) {
    && (victim.Some? <==> NeedsVictim(cfg, s, at))
    && (victim.Some? ==>
          && victim.value in s.table && !Expired(cfg, s, victim.value, at)
          && forall k :: k in Sweep(cfg, s, at).table ==> NewestEvent(s, victim.value) <= NewestEvent(s, k))
  }

  function MakeRoom(cfg: Config, s: Store, at: int, victim: Option<Slot>): Store {
    if s.keyCount < cfg.maxKeys then s
    else
      var swept := Sweep(cfg, s, at);
      if victim.Some? then Remove(swept, victim.value) else swept
  }

  function Pruned(cfg: Config, s: Store, slot: Slot, at: int): Store {
    if slot in s.table then Prune(s, slot, at - cfg.Window(slot)) else s
  }

  /** `retryAfterSeconds`: prunes a stored array, and answers from what remains. */
  function RetryAfter(cfg: Config, s: Store, slot: Slot, at: int): Option<int>
    requires cfg.MaxEvents(slot) >= 1
  {
    if slot in s.table then Verdict(EventsOf(Pruned(cfg, s, slot, at), slot), at, cfg.limits(slot.action)) else None
  }

  function Append(cfg: Config, s: Store, slot: Slot, at: int): Store
    requires slot in s.table
  {
    s.(lists := s.lists[s.table[slot] := Newest(EventsOf(s, slot) + [at], cfg.MaxEvents(slot))])
  }

  function Fresh(cfg: Config, s: Store, slot: Slot, at: int): Store {
    s.(lists := s.lists[s.nextId := Newest([at], cfg.MaxEvents(slot))], table := s.table[slot := s.nextId],
       keyCount := s.keyCount + 1, nextId := s.nextId + 1)
  }

  /** `recordEvent`; `victim` is the live slot evicted for a new key at capacity. */
  function Record(cfg: Config, s: Store, slot: Slot, at: int, victim: Option<Slot>): Store {
    var pruned := Pruned(cfg, s, slot, at);
    if slot in pruned.table then Append(cfg, pruned, slot, at)
    else Fresh(cfg, MakeRoom(cfg, pruned, at, victim), slot, at)
  }

  /** The victim a record needs: none when the slot is still live after pruning. */
  ghost predicate RightVictimFor(cfg: Config, s: Store, slot: Slot, at: int, victim: Option<Slot>) {
    var pruned := Pruned(cfg, s, slot, at);
    if slot in pruned.table then victim.None? else RightVictim(cfg, pruned, at, victim)
  }

  /** An event counted by `tryAcquire`, held by the array it was pushed on. */
  datatype Reservation = Reservation(slot: Slot, list: ListId, at: int, released: bool)

  /** What `release` does to the store the first time it is called. */
  function Uncount(s: Store, slot: Slot, list: ListId, at: int): Store {
    if slot !in s.table || s.table[slot] != list then s
    else
      var events := EventsOf(s, slot);
      var i := LastIndexOf(events, at);
      if i.None? || i.value >= |events| then s
      else
        var rest := Without(events, i.value);
        var t := s.(lists := s.lists[list := rest]);
        if rest == [] then Remove(t, slot) else t
  }

  // ---- runs of `tryAcquire`, `release` and `retryAfterSeconds` ----

  /**
   * `reservations` are all that were granted; `log` holds, slot by slot, the ones not released since the slot
   * was last evicted while live, in the order they were granted.
   */
  datatype State = State(
    store: Store, clock: int, reservations: map<ReservationId, Reservation>, nextReservation: nat,
    log: map<Slot, seq<ReservationId>>)

  datatype Step =
    | TryAcquire(slot: Slot, checkedAt: int, recordedAt: int, victim: Option<Slot>)
    | Release(r: ReservationId)
    | Ask(slot: Slot, at: int)

  function Init(clock: int): State {
    State(Store(map[], map[], 0, 0), clock, map[], 0, map[])
  }

  function LogOf(s: State, slot: Slot): seq<ReservationId> {
    if slot in s.log then s.log[slot] else []
  }

  /** The store after the check of a `tryAcquire`. */
  function Checked(cfg: Config, s: State, slot: Slot, at: int): Store {
    Pruned(cfg, s.store, slot, at)
  }

  /** The clock does not run backwards, and an eviction takes a slot it may take. */
  ghost predicate Enabled(cfg: Config, s: State, step: Step) {
    match step
    case TryAcquire(slot, checkedAt, recordedAt, victim) =>
      && s.clock <= checkedAt <= recordedAt && cfg.MaxEvents(slot) >= 1
      && (if RetryAfter(cfg, s.store, slot, checkedAt).Some? then victim.None?
          else RightVictimFor(cfg, Checked(cfg, s, slot, checkedAt), slot, recordedAt, victim))
    case Release(r) => r in s.reservations
    case Ask(slot, at) => s.clock <= at
  }

  function Grant(cfg: Config, s: State, slot: Slot, checkedAt: int, recordedAt: int, victim: Option<Slot>): State {
    var store := Record(cfg, Checked(cfg, s, slot, checkedAt), slot, recordedAt, victim);
    var r := s.nextReservation;
    var kept := if victim.Some? then s.log - {victim.value} else s.log;
    var list := if slot in store.table then store.table[slot] else 0;
    State(store, recordedAt, s.reservations[r := Reservation(slot, list, recordedAt, false)], r + 1,
          kept[slot := (if slot in kept then kept[slot] else []) + [r]])
  }

  function Filtered(ids: seq<ReservationId>, r: ReservationId): seq<ReservationId> {
    if ids == [] then [] else (if ids[0] == r then [] else [ids[0]]) + Filtered(ids[1..], r)
  }

  function Releasing(s: State, r: ReservationId): State
    requires r in s.reservations
  {
    var v := s.reservations[r];
    if v.released then s
    else s.(store := Uncount(s.store, v.slot, v.list, v.at), reservations := s.reservations[r := v.(released := true)],
            log := if v.slot in s.log then s.log[v.slot := Filtered(s.log[v.slot], r)] else s.log)
  }

  ghost function Apply(cfg: Config, s: State, step: Step): State {
    if !Enabled(cfg, s, step) then s
    else
      match step
      case TryAcquire(slot, checkedAt, recordedAt, victim) =>
        if RetryAfter(cfg, s.store, slot, checkedAt).Some?
        then s.(store := Checked(cfg, s, slot, checkedAt), clock := recordedAt)
        else Grant(cfg, s, slot, checkedAt, recordedAt, victim)
      case Release(r) => Releasing(s, r)
      case Ask(slot, at) => s.(store := Pruned(cfg, s.store, slot, at), clock := at)
  }

  ghost function Exec(cfg: Config, s: State, steps: seq<Step>): State
    decreases |steps|
  {
    if steps == [] then s else Exec(cfg, Apply(cfg, s, steps[0]), steps[1..])
  }

  // ---- invariant ----

  type Granted = map<ReservationId, Reservation>

  /** The times of the reservations `ids`. */
  function Times(granted: Granted, ids: seq<ReservationId>): seq<int>
    requires forall i :: 0 <= i < |ids| ==> ids[i] in granted
  {
    seq(|ids|, i requires 0 <= i < |ids| => granted[ids[i]].at)
  }

  /** Any `max + 1` consecutive events span at least the window. */
  ghost predicate Spaced(events: seq<int>, max: nat, window: int) {
    forall i :: 0 <= i && i + max < |events| ==> events[i + max] - events[i] >= window
  }

  ghost predicate LogShape(cfg: Config, slot: Slot, granted: Granted, clock: int, ids: seq<ReservationId>) {
    && (forall i :: 0 <= i < |ids| ==>
          ids[i] in granted && granted[ids[i]].slot == slot && !granted[ids[i]].released && granted[ids[i]].at <= clock)
    && (forall i, j :: 0 <= i < j < |ids| ==> ids[i] != ids[j])
    && Sorted(Times(granted, ids)) && Spaced(Times(granted, ids), cfg.MaxEvents(slot), cfg.Window(slot))
  }

  /** The stored array is the log's suffix; what it no longer holds has expired. `list` is the slot's array. */
  ghost predicate StoredShape(
    cfg: Config, slot: Slot, granted: Granted, clock: int, ids: seq<ReservationId>, events: seq<int>, list: Option<ListId>)
    requires forall i :: 0 <= i < |ids| ==> ids[i] in granted
  {
    && |events| <= |ids| && |events| <= cfg.MaxEvents(slot)
    && events == Times(granted, ids)[|ids| - |events|..]
    && (forall i :: 0 <= i < |ids| - |events| ==> granted[ids[i]].at <= clock - cfg.Window(slot))
    && (forall i :: |ids| - |events| <= i < |ids| ==> list == Some(granted[ids[i]].list))
    && (forall i :: 0 <= i < |ids| - |events| && list == Some(granted[ids[i]].list) ==>
          events != [] && granted[ids[i]].at < events[0])
  }

  function ListOf(s: Store, slot: Slot): Option<ListId> {
    if slot in s.table then Some(s.table[slot]) else None
  }

  ghost predicate SlotOk(cfg: Config, s: State, slot: Slot) {
    && LogShape(cfg, slot, s.reservations, s.clock, LogOf(s, slot))
    && StoredShape(cfg, slot, s.reservations, s.clock, LogOf(s, slot), EventsOf(s.store, slot), ListOf(s.store, slot))
  }

  /** An unreleased reservation whose array is still its slot's is in the log. */
  ghost predicate ReservationOk(s: State, r: ReservationId)
    requires r in s.reservations
  {
    var v := s.reservations[r];
    && r < s.nextReservation && v.list < s.store.nextId
    && (!v.released && ListOf(s.store, v.slot) == Some(v.list) ==> r in LogOf(s, v.slot))
  }

  ghost predicate Inv(cfg: Config, s: State) {
    && Linked(s.store) && s.store.keyCount <= cfg.maxKeys
    && (forall slot :: SlotOk(cfg, s, slot))
    && (forall r :: r in s.reservations ==> ReservationOk(s, r))
  }
}
