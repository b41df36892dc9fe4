/** Semp's in-memory conversations as the source keeps them, one method per stretch of code between two awaits. */
module SempConversation {
  import opened Ordering
  import opened SempSpec

  datatype Turn = Busy | Continue(sid: StateId, run: RunId) | Wake(sid: StateId)

  /** Every conversation in the map and every entry it holds is a live object. */
  predicate Linked(r: Registry) {
    && (forall t :: t in r.conversations ==> r.conversations[t] in r.states)
    && (forall sid :: sid in r.states && r.states[sid].entry.Some? ==> r.states[sid].entry.value in r.heap)
  }

  /** The entry is idle, and its pending timer is `timer`. */
  predicate Waits(r: Registry, run: RunId, timer: Timer) {
    && run in r.heap && !r.heap[run].busy && r.heap[run].timer.Some?
    && r.heap[run].timer.value in r.timers && r.timers[r.heap[run].timer.value] == timer
  }

  class SempConversation {
    var conversations: map<Tenant, StateId>
    var states: map<StateId, Conversation>
    var heap: map<RunId, Entry>
    var timers: map<TimerId, Timer>
    var nextId: nat

    ghost function View(): Registry
      reads this
    {
      Registry(conversations, states, heap, timers, nextId)
    }

    constructor ()
      ensures View() == Init.reg
    {
      conversations, states, heap, timers, nextId := map[], map[], map[], map[], 0;
    }

    method ReleaseIfIdle(t: Tenant)
      requires Linked(View())
      modifies this`conversations
      ensures Linked(View())
      ensures View() == SempSpec.ReleaseIfIdle(old(View()), t)
    {
      if t in conversations {
        var v := states[conversations[t]];
        if v.entry.None? && !v.waking { conversations := conversations - {t}; }
      }
    }

    method SetBusy(run: RunId, busy: bool)
      requires run in heap
      modifies this`heap
      ensures View() == SempSpec.SetBusy(old(View()), run, busy)
    {
      heap := heap[run := heap[run].(busy := busy)];
    }

    method ClearTimer(run: RunId)
      requires run in heap
      modifies this`timers
      ensures View() == SempSpec.ClearTimer(old(View()), run)
    {
      if heap[run].timer.Some? { timers := timers - {heap[run].timer.value}; }
    }

    method SetTimer(timer: Timer) returns (id: TimerId)
      modifies this`timers, this`nextId
      ensures id == old(nextId) && nextId == id + 1 && timers == old(timers)[id := timer]
    {
      id := nextId;
      timers, nextId := timers[id := timer], nextId + 1;
    }

    /** The synchronous head of `send`: refuse, claim the idle entry, or begin a wake on a new conversation object. */
    method Send(t: Tenant) returns (turn: Turn)
      requires Linked(View())
      modifies this`conversations, this`states, this`heap, this`nextId
      ensures Linked(View())
      ensures turn.Busy? <==> SendRefused(old(View()), t)
      ensures t !in old(conversations) ==> turn.Wake?
      ensures t in old(conversations) ==> (
                var v := old(states)[old(conversations)[t]];
                && (turn.Wake? <==> !v.waking && !v.dropped && v.entry.None?)
                && (turn.Continue? <==> !v.waking && !v.dropped && v.entry.Some? && !old(heap)[v.entry.value].busy))
      ensures turn.Busy? ==> View() == old(View())
      ensures turn.Continue? ==> (
                && t in old(conversations) && old(conversations)[t] == turn.sid && EntryOf(old(View()), t) == Some(turn.run)
                && View() == SempSpec.SetBusy(old(View()), turn.run, true))
      ensures turn.Wake? ==> (
                && EntryOf(old(View()), t).None? && turn.sid == old(nextId)
                && View() == BeginWake(State(old(View()), map[], map[], 0, map[], {}, {}, {}, {}, {}, map[], {}), t).reg)
    {
      if t in conversations {
        var sid := conversations[t];
        var v := states[sid];
        if v.waking || v.dropped { return Busy; }
        if v.entry.Some? {
          var run := v.entry.value;
          if heap[run].busy { return Busy; }
          SetBusy(run, true);
          return Continue(sid, run);
        }
      }
      turn := Wake(nextId);
      states := states[nextId := Conversation(None, false, false)];
      states := states[nextId := states[nextId].(waking := true)];
      conversations, nextId := conversations[t := nextId], nextId + 1;
    }

    /** A continued turn threw: the entry is dropped before its run is closed. */
    method TurnFailed(t: Tenant, sid: StateId, run: RunId)
      requires Linked(View()) && sid in states && run in heap
      modifies this`conversations, this`states, this`timers
      ensures Linked(View())
      ensures View() == SempSpec.ReleaseIfIdle(
                          SempSpec.ClearTimer(SetState(old(View()), sid, old(states)[sid].(entry := None)), run), t)
      ensures sid in states && states[sid].entry.None? && heap == old(heap)
      ensures heap[run].timer.Some? ==> heap[run].timer.value !in timers
      ensures t in old(conversations) && old(conversations)[t] == sid ==> (t in conversations <==> states[sid].waking)
    {
      states := states[sid := states[sid].(entry := None)];
      ClearTimer(run);
      ReleaseIfIdle(t);
    }

    /** A continued turn succeeded: touch the entry, or leave it claimed for closing when its tenant was dropped. */
    method TurnSucceeded(t: Tenant, sid: StateId, run: RunId) returns (close: bool)
      requires Linked(View()) && sid in states && run in heap
      modifies this`heap, this`timers, this`nextId
      ensures Linked(View())
      ensures close == old(states)[sid].dropped
      ensures View() == if close then SempSpec.SetBusy(old(View()), run, true)
                        else Arm(SempSpec.ClearTimer(old(View()), run), run, Pause(t))
    {
      close := states[sid].dropped;
      if close {
        SetBusy(run, true);
      } else {
        ClearTimer(run);
        var id := SetTimer(Pause(t));
        heap := heap[run := heap[run].(timer := Some(id))];
        SetBusy(run, false);
      }
    }

    /** A wake's first turn succeeded: keep its entry idle with a pause due, or claimed when its tenant was dropped. */
    method FirstTurnSucceeded(t: Tenant, sid: StateId, run: RunId) returns (close: bool)
      requires Linked(View()) && sid in states
      modifies this`conversations, this`states, this`heap, this`timers, this`nextId
      ensures Linked(View())
      ensures close == old(states)[sid].dropped
      ensures var held := SetState(old(View()), sid, old(states)[sid].(entry := Some(run)));
              View() == if close then SetEntry(held, run, Entry(true, None)) else WakeEnds(Arm(held, run, Pause(t)), t, sid)
      ensures sid in states && states[sid].entry == Some(run)
      ensures close ==> heap[run] == Entry(true, None) && states[sid].waking == old(states)[sid].waking && timers == old(timers)
      ensures !close ==> Waits(View(), run, Pause(t)) && !states[sid].waking
    {
      close := states[sid].dropped;
      if close {
        heap := heap[run := Entry(true, None)];
        states := states[sid := states[sid].(entry := Some(run))];
      } else {
        var id := SetTimer(Pause(t));
        heap := heap[run := Entry(false, Some(id))];
        states := states[sid := states[sid].(entry := Some(run))];
        EndWake(t, sid);
      }
    }

    /** The `finally` of a wake. */
    method EndWake(t: Tenant, sid: StateId)
      requires Linked(View()) && sid in states
      modifies this`conversations, this`states
      ensures Linked(View())
      ensures View() == WakeEnds(old(View()), t, sid)
      ensures sid in states && !states[sid].waking && states[sid].entry == old(states)[sid].entry
      ensures t in old(conversations) && old(conversations)[t] == sid ==> (t in conversations <==> states[sid].entry.Some?)
      ensures forall u :: u in old(conversations) && u != t ==> u in conversations && conversations[u] == old(conversations)[u]
    {
      states := states[sid := states[sid].(waking := false)];
      ReleaseIfIdle(t);
    }

    /** `dropTenant` up to its close: the run to close now, if the conversation is idle. */
    method DropTenant(t: Tenant) returns (close: Option<RunId>)
      requires Linked(View())
      modifies this`states, this`timers, this`heap
      ensures Linked(View())
      ensures t !in old(conversations) || old(states)[old(conversations)[t]].dropped ==> close.None? && View() == old(View())
      ensures t in old(conversations) && !old(states)[old(conversations)[t]].dropped ==> (
                var s := State(old(View()), map[], map[], 0, map[], {}, {}, {}, {}, {}, map[], {});
                var u := Drop(s, t, old(conversations)[t]);
                && View() == u.reg
                && (close.Some? <==> u.nextCall == 1)
                && (close.Some? ==> u.calls[0] == Dropping(t, old(conversations)[t], close.value, false)))
    {
      if t !in conversations || states[conversations[t]].dropped { return None; }
      var sid := conversations[t];
      states := states[sid := states[sid].(dropped := true)];
      var v := states[sid];
      if v.entry.None? { return None; }
      var run := v.entry.value;
      ClearTimer(run);
      if v.waking || heap[run].busy { return None; }
      SetBusy(run, true);
      return Some(run);
    }

    /** The close of a dropped run settled: forget the entry, or retry it on a timer. */
    method CloseSettled(t: Tenant, sid: StateId, run: RunId, ok: bool)
      requires Linked(View()) && sid in states && states[sid].entry == Some(run)
      modifies this`conversations, this`states, this`heap, this`timers, this`nextId
      ensures Linked(View())
      ensures View() == if ok then DropEntry(old(View()), t, sid) else Arm(old(View()), run, Retry(t, sid, run))
      ensures sid in states && states[sid].entry == (if ok then None else Some(run))
      ensures ok && t in old(conversations) && old(conversations)[t] == sid ==> (t in conversations <==> states[sid].waking)
      ensures !ok ==> Waits(View(), run, Retry(t, sid, run)) && conversations == old(conversations)
    {
      if ok {
        if states[sid].entry == Some(run) { states := states[sid := states[sid].(entry := None)]; }
        ReleaseIfIdle(t);
      } else {
        SetBusy(run, false);
        var id := SetTimer(Retry(t, sid, run));
        heap := heap[run := heap[run].(timer := Some(id))];
      }
    }

    /** A pause's timer fires: claim the entry unless it is gone or busy. */
    method BeginPause(id: TimerId) returns (claimed: Option<RunId>)
      requires Linked(View()) && id in timers && timers[id].Pause?
      modifies this`heap, this`timers
      ensures Linked(View())
      ensures var r, t := old(View()), old(timers)[id].tenant;
              && claimed == (if Pausable(r, t) then EntryOf(r, t) else None)
              && View() == (var fired := r.(timers := r.timers - {id});
                            if claimed.Some? then SempSpec.SetBusy(fired, claimed.value, true) else fired)
      ensures id !in timers && (claimed.Some? ==> claimed.value in heap && heap[claimed.value].busy)
    {
      var t := timers[id].tenant;
      timers := timers - {id};
      if t !in conversations { return None; }
      var v := states[conversations[t]];
      if v.entry.None? || heap[v.entry.value].busy { return None; }
      SetBusy(v.entry.value, true);
      return v.entry;
    }

    /** The `catch` of `pause`: close a dropped run instead, or try again later. */
    method PauseThrew(t: Tenant, sid: StateId, run: RunId) returns (close: bool)
      requires Linked(View()) && sid in states && run in heap
      modifies this`heap, this`timers, this`nextId
      ensures Linked(View())
      ensures close == old(states)[sid].dropped
      ensures View() == if close then SempSpec.SetBusy(old(View()), run, true) else Arm(old(View()), run, Pause(t))
      ensures run in heap && (close ==> heap[run].busy && timers == old(timers)) && (!close ==> Waits(View(), run, Pause(t)))
    {
      SetBusy(run, false);
      close := states[sid].dropped;
      if close {
        SetBusy(run, true);
      } else {
        var id := SetTimer(Pause(t));
        heap := heap[run := heap[run].(timer := Some(id))];
      }
    }

    /** A pause recorded both of its writes. */
    method PauseDone(t: Tenant, sid: StateId)
      requires Linked(View()) && sid in states
      modifies this`conversations, this`states
      ensures Linked(View())
      ensures View() == DropEntry(old(View()), t, sid)
      ensures sid in states && states[sid].entry.None? && forall x :: x in old(states) && x != sid ==> x in states && states[x] == old(states)[x]
      ensures t in old(conversations) && old(conversations)[t] == sid ==> (t in conversations <==> states[sid].waking)
      ensures forall u :: u in old(conversations) && u != t ==> u in conversations && conversations[u] == old(conversations)[u]
    {
      states := states[sid := states[sid].(entry := None)];
      ReleaseIfIdle(t);
    }
  }
}
