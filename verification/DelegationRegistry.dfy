/** The in-memory registry as the source keeps it, one method per stretch of code between two awaits. */
module DelegationRegistry {
  import opened Ordering
  import opened DelegationSpec

  datatype Claim = RefusedBusy | Continue(run: RunId) | Create

  class DelegationRegistry {
    var entries: map<Key, RunId>
    var heap: map<RunId, Entry>
    var pendingKeys: set<Key>
    var timers: map<TimerId, Key>
    var nextId: nat

    ghost function View(): Registry
      reads this
    {
      Registry(entries, heap, pendingKeys, timers, nextId)
    }

    constructor ()
      ensures View() == Init.reg
    {
      entries, heap, pendingKeys, timers, nextId := map[], map[], {}, map[], 0;
    }

    /** The synchronous head of `delegate`: refuse, claim the idle entry, or reserve a new key. */
    method Delegate(k: Key) returns (claim: Claim)
      requires RegistryOk(View())
      modifies this`heap, this`pendingKeys
      ensures claim.RefusedBusy? <==> Busy(old(View()), k)
      ensures claim.Continue? <==> k in old(entries) && !old(heap)[old(entries)[k]].busy
      ensures claim.Create? <==> k !in old(entries) && k !in old(pendingKeys)
      ensures claim.RefusedBusy? ==> View() == old(View())
      ensures claim.Continue? ==> Held(old(View()), k, claim.run) && View() == SetBusy(old(View()), claim.run, true)
      ensures claim.Create? ==> k !in old(entries) && View() == old(View()).(pendingKeys := old(pendingKeys) + {k})
    {
      if k in entries && heap[entries[k]].busy { return RefusedBusy; }
      if k in pendingKeys { return RefusedBusy; }
      if k in entries {
        var run := entries[k];
        heap := heap[run := heap[run].(busy := true)];
        return Continue(run);
      }
      pendingKeys := pendingKeys + {k};
      return Create;
    }

    method ScheduleTtl(k: Key) returns (t: TimerId)
      modifies this`timers, this`nextId
      ensures t == old(nextId) && nextId == t + 1 && timers == old(timers)[t := k]
    {
      t := nextId;
      nextId := nextId + 1;
      timers := timers[t := k];
    }

    /** A continued turn succeeded. */
    method TurnSucceeded(k: Key, e: RunId)
      requires RegistryOk(View()) && e in heap
      modifies this`heap, this`timers, this`nextId
      ensures View() == TurnDone(old(View()), k, e)
      ensures e in heap && !heap[e].busy && heap[e].timer == old(nextId) && heap[e].timer in timers && timers[heap[e].timer] == k
      ensures old(heap)[e].timer !in timers && forall d :: d in old(heap) && d != e ==> d in heap && heap[d] == old(heap)[d]
    {
      timers := timers - {heap[e].timer};
      var t := ScheduleTtl(k);
      heap := heap[e := heap[e].(timer := t)];
      heap := heap[e := heap[e].(busy := false)];
    }

    /** The entry is dropped from the registry: a failed turn, or a confirmed close. */
    method Drop(k: Key, e: RunId)
      requires e in heap
      modifies this`entries, this`timers
      ensures View() == Forget(old(View()), k, e)
      ensures k !in entries && forall j :: j in old(entries) && j != k ==> j in entries && entries[j] == old(entries)[j]
      ensures heap[e].timer !in timers && forall t :: t in old(timers) && t != heap[e].timer ==> t in timers && timers[t] == old(timers)[t]
    {
      entries := entries - {k};
      timers := timers - {heap[e].timer};
    }

    /** A first turn succeeded: register the session and release its key. */
    method FirstTurnSucceeded(k: Key, run: RunId)
      modifies this`entries, this`heap, this`timers, this`nextId, this`pendingKeys
      ensures View() == Created(old(View()), k, run)
      ensures Held(View(), k, run) && k !in pendingKeys && run in heap && !heap[run].busy
      ensures heap[run].timer == old(nextId) && heap[run].timer in timers && timers[heap[run].timer] == k
    {
      var t := ScheduleTtl(k);
      heap := heap[run := Entry(false, t)];
      entries := entries[k := run];
      pendingKeys := pendingKeys - {k};
    }

    /** A timer fires: claim the entry for closing unless it is gone or busy. */
    method Expire(timer: TimerId) returns (claimed: Option<RunId>)
      requires RegistryOk(View()) && timer in timers
      modifies this`heap, this`timers
      ensures View() == Fired(old(View()), timer)
      ensures var k := old(timers)[timer];
              claimed == if Expires(old(View()), k) then Some(old(entries)[k]) else None
      ensures timer !in timers && (claimed.Some? ==> claimed.value in heap && heap[claimed.value].busy)
    {
      var k := timers[timer];
      timers := timers - {timer};
      if k !in entries || heap[entries[k]].busy { return None; }
      var e := entries[k];
      heap := heap[e := heap[e].(busy := true)];
      return Some(e);
    }

    /** The `catch` of `expire`: the entry is compared by identity before anything is touched. */
    method ExpireThrew(k: Key, e: RunId, confirmed: bool)
      requires e in heap
      modifies this`entries, this`heap, this`timers, this`nextId
      ensures View() == ExpireFailed(old(View()), k, e, confirmed)
      ensures forall j :: j in old(entries) && old(entries)[j] != e ==> j in entries && entries[j] == old(entries)[j]
      ensures forall d :: d in old(heap) && d != e ==> d in heap && heap[d] == old(heap)[d]
    {
      if k in entries && entries[k] == e {
        if confirmed {
          Drop(k, e);
        } else {
          var t := ScheduleTtl(k);
          heap := heap[e := Entry(false, t)];
        }
      }
    }
  }
}
