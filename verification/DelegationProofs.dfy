/** The registry's guarantees over every interleaving of delegations, expiries and failing database calls. */
module DelegationProofs {
  import opened Ordering
  import opened DelegationSpec

  // ---- a step touches one key, one call and one run ----

  /** Nothing outside key `k`, call `c` and run `e` changes. */
  ghost predicate Frame(s: State, t: State, k: Key, c: CallId, e: RunId) {
    && s.reg.nextId <= t.reg.nextId && s.nextCall <= t.nextCall
    && (forall j :: j != k ==>
          && (j in s.reg.entries <==> j in t.reg.entries) && (j in s.reg.pendingKeys <==> j in t.reg.pendingKeys)
          && (j in s.owner <==> j in t.owner))
    && (forall j :: j != k && j in s.reg.entries ==> s.reg.entries[j] == t.reg.entries[j])
    && (forall j :: j != k && j in s.owner ==> s.owner[j] == t.owner[j])
    && (forall d :: d != e ==> (d in s.reg.heap <==> d in t.reg.heap))
    && (forall d :: d != e && d in s.reg.heap ==> s.reg.heap[d] == t.reg.heap[d])
    && (forall j :: j != k && j in s.reg.entries && s.reg.entries[j] in s.reg.heap && !s.reg.heap[s.reg.entries[j]].busy ==>
          var timer := s.reg.heap[s.reg.entries[j]].timer;
          timer in s.reg.timers ==> timer in t.reg.timers && t.reg.timers[timer] == s.reg.timers[timer])
    && (forall b :: b != c ==> (b in s.calls <==> b in t.calls))
    && (forall b :: b != c && b in s.calls ==> s.calls[b] == t.calls[b])
    && (forall run :: run in t.known ==> run in s.known || run == e)
    && (forall run :: run in t.unconfirmed || run in t.runs ==> run in s.unconfirmed || run in s.runs || run < t.reg.nextId)
  }

  /** Run `e` and key `k` are no other key's and no other claiming call's business. */
  ghost predicate Own(s: State, k: Key, c: CallId, e: RunId) {
    && (forall j :: j in s.reg.entries && s.reg.entries[j] == e ==> j == k)
    && (k in s.reg.entries ==> s.reg.entries[k] == e)
    && (forall b :: b in s.calls && b != c ==>
          && (s.calls[b].HasRun() ==> s.calls[b].run != e)
          && (s.calls[b].Creates() || s.calls[b].Uses() ==> s.calls[b].key != k))
  }

  /** What the new state must satisfy at `k`, `c` and `e`. */
  ghost predicate Local(s: State, t: State, k: Key, c: CallId, e: RunId) {
    && (k in t.reg.entries ==>
          && t.reg.entries[k] == e && e in t.reg.heap && k !in t.reg.pendingKeys
          && (if t.reg.heap[e].busy
              then k in t.owner && t.owner[k] == c && c in t.calls && t.calls[c].Uses()
              else t.reg.heap[e].timer in t.reg.timers && t.reg.timers[t.reg.heap[e].timer] == k))
    && (e in t.reg.heap ==>
          && e < t.reg.nextId && t.reg.heap[e].timer < t.reg.nextId
          && (t.reg.heap[e].timer >= s.reg.nextId || (e in s.reg.heap && t.reg.heap[e].timer == s.reg.heap[e].timer)))
    && (c in t.calls ==> CallOk(t, c, t.calls[c]) && t.calls[c].key == k && (t.calls[c].HasRun() ==> t.calls[c].run == e))
    && (k in t.reg.pendingKeys ==> k in t.owner && t.owner[k] == c && c in t.calls && t.calls[c].Creates())
    && (e in t.known ==> e < t.reg.nextId && (k in t.reg.entries ==> c in t.calls && t.calls[c] == ReadingBack(k, e)))
    && (e in s.known ==> e in t.known)
  }

  lemma FrameRegistry(s: State, t: State, k: Key, c: CallId, e: RunId)
    requires RegistryOk(s.reg) && Frame(s, t, k, c, e) && Own(s, k, c, e) && Local(s, t, k, c, e)
    ensures RegistryOk(t.reg)
  {
    forall j | j in t.reg.entries && j != k ensures t.reg.entries[j] != e && t.reg.entries[j] == s.reg.entries[j] {}
    forall x, y | x in t.reg.heap && y in t.reg.heap && t.reg.heap[x].timer == t.reg.heap[y].timer ensures x == y {}
  }

  lemma FrameCalls(s: State, t: State, k: Key, c: CallId, e: RunId)
    requires CallsOk(s) && Frame(s, t, k, c, e) && Own(s, k, c, e) && Local(s, t, k, c, e)
    ensures CallsOk(t)
  {
    forall b | b in t.calls ensures CallOk(t, b, t.calls[b]) {
      if b != c {
        assert CallOk(s, b, s.calls[b]);
        if t.calls[b].FailingTurn? || t.calls[b].Recording? {
          forall j | j in t.reg.entries ensures t.reg.entries[j] != t.calls[b].run {}
        }
      }
    }
  }

  lemma FrameOwners(s: State, t: State, k: Key, c: CallId, e: RunId)
    requires OwnersOk(s) && Frame(s, t, k, c, e) && Own(s, k, c, e) && Local(s, t, k, c, e)
    requires c in s.calls ==> s.calls[c].key == k
    ensures OwnersOk(t)
  {
    forall j | j in t.reg.entries && j != k ensures t.reg.entries[j] != e && t.reg.entries[j] == s.reg.entries[j] {}
    forall j | j != k && j in s.owner && s.owner[j] in s.calls && s.calls[s.owner[j]].key == j
      ensures j in t.owner && t.owner[j] in t.calls && t.calls[t.owner[j]] == s.calls[s.owner[j]]
    {
      assert s.owner[j] != c;
    }
  }

  lemma FrameKnown(s: State, t: State, k: Key, c: CallId, e: RunId)
    requires KnownOk(s) && Frame(s, t, k, c, e) && Own(s, k, c, e) && Local(s, t, k, c, e)
    requires c in s.calls ==> s.calls[c].key == k
    ensures KnownOk(t)
  {
    forall j | j in t.reg.entries && j != k ensures t.reg.entries[j] != e {}
  }

  lemma FrameKeeps(s: State, t: State, k: Key, c: CallId, e: RunId)
    requires Inv(s) && Frame(s, t, k, c, e) && Own(s, k, c, e) && Local(s, t, k, c, e)
    requires c in s.calls ==> s.calls[c].key == k
    ensures Inv(t)
  {
    FrameRegistry(s, t, k, c, e);
    FrameCalls(s, t, k, c, e);
    FrameOwners(s, t, k, c, e);
    FrameKnown(s, t, k, c, e);
  }

  // ---- the steps ----

  /** A call that claimed its key is the only claimant of the key, and the only call about its run. */
  lemma ClaimIsOwn(s: State, c: CallId)
    requires Inv(s) && c in s.calls && s.calls[c].HasRun() && (s.calls[c].Creates() || s.calls[c].Uses())
    ensures Own(s, s.calls[c].key, c, s.calls[c].run)
  {
    assert CallOk(s, c, s.calls[c]);
    forall b | b in s.calls && b != c
      ensures (s.calls[b].HasRun() ==> s.calls[b].run != s.calls[c].run)
      ensures s.calls[b].Creates() || s.calls[b].Uses() ==> s.calls[b].key != s.calls[c].key
    {
      assert CallOk(s, b, s.calls[b]);
    }
  }

  /** Before a run exists, any unused id can stand for it. */
  lemma ReservationIsOwn(s: State, c: CallId)
    requires Inv(s) && c in s.calls && s.calls[c].Creates() && !s.calls[c].HasRun()
    ensures Own(s, s.calls[c].key, c, s.reg.nextId)
  {
    assert CallOk(s, c, s.calls[c]);
    forall b | b in s.calls && b != c
      ensures (s.calls[b].HasRun() ==> s.calls[b].run != s.reg.nextId)
      ensures s.calls[b].Creates() || s.calls[b].Uses() ==> s.calls[b].key != s.calls[c].key
    {
      assert CallOk(s, b, s.calls[b]);
    }
  }

  lemma IdleIsOwn(s: State, k: Key)
    requires Inv(s) && k in s.reg.entries && !Busy(s.reg, k)
    ensures Own(s, k, s.nextCall, s.reg.entries[k]) && s.nextCall !in s.calls
    ensures s.reg.entries[k] !in s.known && s.reg.entries[k] < s.reg.nextId && s.reg.entries[k] in s.reg.heap
  {
    forall b | b in s.calls
      ensures b < s.nextCall && (s.calls[b].HasRun() ==> s.calls[b].run != s.reg.entries[k])
      ensures s.calls[b].Uses() ==> s.reg.heap[s.calls[b].run].busy && Held(s.reg, s.calls[b].key, s.calls[b].run)
      ensures s.calls[b].Creates() || s.calls[b].Uses() ==> s.calls[b].key != k
    {
      assert CallOk(s, b, s.calls[b]);
    }
  }

  lemma NewKeyIsOwn(s: State, k: Key)
    requires Inv(s) && k !in s.reg.entries && k !in s.reg.pendingKeys
    ensures Own(s, k, s.nextCall, s.reg.nextId) && s.nextCall !in s.calls
    ensures s.reg.nextId !in s.reg.heap && s.reg.nextId !in s.known
  {
    forall b | b in s.calls
      ensures b < s.nextCall && (s.calls[b].HasRun() ==> s.calls[b].run != s.reg.nextId)
      ensures s.calls[b].Creates() || s.calls[b].Uses() ==> s.calls[b].key != k
    {
      assert CallOk(s, b, s.calls[b]);
    }
  }

  /** The run a creating call is about: its own, or the next free id before it has one. */
  function RunOf(s: State, c: CallId): RunId
    requires c in s.calls
  {
    if s.calls[c].HasRun() then s.calls[c].run else s.reg.nextId
  }

  lemma CreatorIsOwn(s: State, c: CallId)
    requires Inv(s) && c in s.calls && s.calls[c].Creates()
    ensures Own(s, s.calls[c].key, c, RunOf(s, c)) && CallOk(s, c, s.calls[c])
    ensures RunOf(s, c) !in s.reg.heap && RunOf(s, c) !in s.known && s.calls[c].key !in s.reg.entries
  {
    assert CallOk(s, c, s.calls[c]);
    if s.calls[c].HasRun() { ClaimIsOwn(s, c); } else { ReservationIsOwn(s, c); }
  }

  // ---- each step keeps the invariant ----

  lemma ReuseFrame(s: State, k: Key, e: RunId)
    requires RegistryOk(s.reg) && s.nextCall !in s.calls && Held(s.reg, k, e) && !Busy(s.reg, k)
    ensures Frame(s, Reuse(s, k), k, s.nextCall, e)
  {
  }

  lemma ReuseIsLocal(s: State, k: Key, e: RunId)
    requires RegistryOk(s.reg) && Held(s.reg, k, e) && !Busy(s.reg, k) && e !in s.known
    ensures Local(s, Reuse(s, k), k, s.nextCall, e)
  {
    var t := Reuse(s, k);
    assert CallOk(t, s.nextCall, t.calls[s.nextCall]);
  }

  lemma ReuseKeeps(s: State, k: Key)
    requires Inv(s) && k in s.reg.entries && !Busy(s.reg, k)
    ensures Inv(Reuse(s, k))
  {
    IdleIsOwn(s, k);
    ReuseFrame(s, k, s.reg.entries[k]);
    ReuseIsLocal(s, k, s.reg.entries[k]);
    FrameKeeps(s, Reuse(s, k), k, s.nextCall, s.reg.entries[k]);
  }

  lemma ReserveIsLocal(s: State, k: Key)
    requires s.nextCall !in s.calls && k !in s.reg.entries && k !in s.reg.pendingKeys
    requires s.reg.nextId !in s.reg.heap && s.reg.nextId !in s.known
    ensures Frame(s, Reserve(s, k), k, s.nextCall, s.reg.nextId) && Local(s, Reserve(s, k), k, s.nextCall, s.reg.nextId)
  {
  }

  lemma ReserveKeeps(s: State, k: Key)
    requires Inv(s) && k !in s.reg.entries && !Busy(s.reg, k)
    ensures Inv(Reserve(s, k))
  {
    NewKeyIsOwn(s, k);
    ReserveIsLocal(s, k);
    FrameKeeps(s, Reserve(s, k), k, s.nextCall, s.reg.nextId);
  }

  /** What is known of a creating call when it resumes. */
  ghost predicate Creating(s: State, c: CallId) {
    && c in s.calls && s.calls[c].Creates() && CallOk(s, c, s.calls[c]) && s.calls[c].key !in s.reg.entries
    && RunOf(s, c) !in s.reg.heap && RunOf(s, c) !in s.known
  }

  lemma ProceedIsLocal(s: State, c: CallId)
    requires Creating(s, c) && Enabled(s, Proceeds(c))
    ensures Frame(s, Proceed(s, c), s.calls[c].key, c, RunOf(s, c)) && Local(s, Proceed(s, c), s.calls[c].key, c, RunOf(s, c))
  {
  }

  lemma ProceedKeeps(s: State, c: CallId)
    requires Inv(s) && Enabled(s, Proceeds(c))
    ensures Inv(Proceed(s, c))
  {
    CreatorIsOwn(s, c);
    ProceedIsLocal(s, c);
    FrameKeeps(s, Proceed(s, c), s.calls[c].key, c, RunOf(s, c));
  }

  lemma AbandonIsLocal(s: State, c: CallId)
    requires Creating(s, c)
    ensures Frame(s, Abandon(s, c), s.calls[c].key, c, RunOf(s, c)) && Local(s, Abandon(s, c), s.calls[c].key, c, RunOf(s, c))
  {
  }

  lemma AbandonKeeps(s: State, c: CallId)
    requires Inv(s) && c in s.calls && s.calls[c].Creates()
    ensures Inv(Abandon(s, c))
  {
    CreatorIsOwn(s, c);
    AbandonIsLocal(s, c);
    FrameKeeps(s, Abandon(s, c), s.calls[c].key, c, RunOf(s, c));
  }

  lemma ThrowIsLocal(s: State, c: CallId)
    requires Creating(s, c) && s.calls[c].Inserting?
    ensures Frame(s, Throw(s, c, true), s.calls[c].key, c, s.reg.nextId) && Local(s, Throw(s, c, true), s.calls[c].key, c, s.reg.nextId)
  {
  }

  lemma ThrowKeeps(s: State, c: CallId, applied: bool)
    requires Inv(s) && c in s.calls && s.calls[c].Creates()
    ensures Inv(Throw(s, c, applied))
  {
    if applied && s.calls[c].Inserting? {
      CreatorIsOwn(s, c);
      ThrowIsLocal(s, c);
      FrameKeeps(s, Throw(s, c, true), s.calls[c].key, c, s.reg.nextId);
    } else {
      AbandonKeeps(s, c);
    }
  }

  lemma FirstTurnEndIsLocal(s: State, c: CallId, ok: bool, k: Key, run: RunId)
    requires Creating(s, c) && s.calls[c] == FirstTurn(k, run)
    requires forall e :: e in s.reg.heap ==> s.reg.heap[e].timer < s.reg.nextId
    ensures Frame(s, FirstTurnEnd(s, c, ok, k, run), k, c, run) && Local(s, FirstTurnEnd(s, c, ok, k, run), k, c, run)
  {
  }

  lemma FirstTurnEndKeeps(s: State, c: CallId, ok: bool)
    requires Inv(s) && c in s.calls && s.calls[c].FirstTurn?
    ensures Inv(FirstTurnEnd(s, c, ok, s.calls[c].key, s.calls[c].run))
  {
    CreatorIsOwn(s, c);
    FirstTurnEndIsLocal(s, c, ok, s.calls[c].key, s.calls[c].run);
    FrameKeeps(s, FirstTurnEnd(s, c, ok, s.calls[c].key, s.calls[c].run), s.calls[c].key, c, s.calls[c].run);
  }

  lemma FirstFailedIsLocal(s: State, c: CallId, closed: bool, k: Key, run: RunId)
    requires Creating(s, c) && s.calls[c] == FailingFirst(k, run)
    ensures Frame(s, FirstFailed(s, c, closed, k, run), k, c, run) && Local(s, FirstFailed(s, c, closed, k, run), k, c, run)
  {
  }

  lemma FirstFailedKeeps(s: State, c: CallId, closed: bool)
    requires Inv(s) && c in s.calls && s.calls[c].FailingFirst?
    ensures Inv(FirstFailed(s, c, closed, s.calls[c].key, s.calls[c].run))
  {
    CreatorIsOwn(s, c);
    FirstFailedIsLocal(s, c, closed, s.calls[c].key, s.calls[c].run);
    FrameKeeps(s, FirstFailed(s, c, closed, s.calls[c].key, s.calls[c].run), s.calls[c].key, c, s.calls[c].run);
  }

  /** What is known of a call that has claimed an entry when it resumes. */
  ghost predicate Using(s: State, c: CallId) {
    && c in s.calls && s.calls[c].Uses() && CallOk(s, c, s.calls[c]) && s.calls[c].key !in s.reg.pendingKeys
    && (forall e :: e in s.reg.heap ==> e < s.reg.nextId && s.reg.heap[e].timer < s.reg.nextId)
    && (forall e :: e in s.reg.heap && s.reg.heap[e].timer == s.reg.heap[s.calls[c].run].timer ==> e == s.calls[c].run)
    && (forall j :: j in s.reg.entries && s.reg.entries[j] == s.calls[c].run ==> j == s.calls[c].key)
    && (s.calls[c].run in s.known ==> s.calls[c].ReadingBack?)
  }

  lemma UserIsOwn(s: State, c: CallId)
    requires Inv(s) && c in s.calls && s.calls[c].Uses()
    ensures Own(s, s.calls[c].key, c, s.calls[c].run) && Using(s, c)
  {
    assert CallOk(s, c, s.calls[c]);
    ClaimIsOwn(s, c);
  }

  lemma TurnEndIsLocal(s: State, c: CallId, ok: bool, k: Key, run: RunId)
    requires Using(s, c) && s.calls[c] == Turn(k, run)
    ensures Frame(s, TurnEnd(s, c, ok, k, run), k, c, run) && Local(s, TurnEnd(s, c, ok, k, run), k, c, run)
  {
  }

  lemma TurnEndKeeps(s: State, c: CallId, ok: bool)
    requires Inv(s) && c in s.calls && s.calls[c].Turn?
    ensures Inv(TurnEnd(s, c, ok, s.calls[c].key, s.calls[c].run))
  {
    UserIsOwn(s, c);
    TurnEndIsLocal(s, c, ok, s.calls[c].key, s.calls[c].run);
    FrameKeeps(s, TurnEnd(s, c, ok, s.calls[c].key, s.calls[c].run), s.calls[c].key, c, s.calls[c].run);
  }

  lemma CloseReturnIsLocal(s: State, c: CallId, k: Key, run: RunId)
    requires Using(s, c) && s.calls[c] == Closing(k, run)
    ensures Frame(s, CloseReturn(s, c, k, run), k, c, run) && Local(s, CloseReturn(s, c, k, run), k, c, run)
  {
  }

  lemma CloseReturnKeeps(s: State, c: CallId)
    requires Inv(s) && c in s.calls && s.calls[c].Closing?
    ensures Inv(CloseReturn(s, c, s.calls[c].key, s.calls[c].run))
  {
    UserIsOwn(s, c);
    CloseReturnIsLocal(s, c, s.calls[c].key, s.calls[c].run);
    FrameKeeps(s, CloseReturn(s, c, s.calls[c].key, s.calls[c].run), s.calls[c].key, c, s.calls[c].run);
  }

  lemma CloseThrowIsLocal(s: State, c: CallId, applied: bool, k: Key, run: RunId)
    requires Using(s, c) && s.calls[c] == Closing(k, run)
    ensures Frame(s, CloseThrow(s, c, applied, k, run), k, c, run) && Local(s, CloseThrow(s, c, applied, k, run), k, c, run)
  {
  }

  lemma CloseThrowKeeps(s: State, c: CallId, applied: bool)
    requires Inv(s) && c in s.calls && s.calls[c].Closing?
    ensures Inv(CloseThrow(s, c, applied, s.calls[c].key, s.calls[c].run))
  {
    UserIsOwn(s, c);
    CloseThrowIsLocal(s, c, applied, s.calls[c].key, s.calls[c].run);
    FrameKeeps(s, CloseThrow(s, c, applied, s.calls[c].key, s.calls[c].run), s.calls[c].key, c, s.calls[c].run);
  }

  lemma ReadBackEndIsLocal(s: State, c: CallId, ok: bool, k: Key, run: RunId)
    requires Using(s, c) && s.calls[c] == ReadingBack(k, run)
    ensures Frame(s, ReadBackEnd(s, c, ok, k, run), k, c, run) && Local(s, ReadBackEnd(s, c, ok, k, run), k, c, run)
  {
  }

  lemma ReadBackEndKeeps(s: State, c: CallId, ok: bool)
    requires Inv(s) && c in s.calls && s.calls[c].ReadingBack?
    ensures Inv(ReadBackEnd(s, c, ok, s.calls[c].key, s.calls[c].run))
  {
    UserIsOwn(s, c);
    ReadBackEndIsLocal(s, c, ok, s.calls[c].key, s.calls[c].run);
    FrameKeeps(s, ReadBackEnd(s, c, ok, s.calls[c].key, s.calls[c].run), s.calls[c].key, c, s.calls[c].run);
  }

  // ---- calls that no longer hold their key ----

  lemma LingersAlone(s: State, c: CallId)
    requires Inv(s) && c in s.calls && (s.calls[c].FailingTurn? || s.calls[c].Recording?)
    ensures forall k :: !Held(s.reg, k, s.calls[c].run)
    ensures forall b :: b in s.calls && b != c && s.calls[b].HasRun() ==> s.calls[b].run != s.calls[c].run
  {
    assert CallOk(s, c, s.calls[c]);
  }

  lemma LateFailureOnlyEnds(s: State, c: CallId, ok: bool)
    requires Inv(s) && Enabled(s, Recorded(c, ok))
    ensures Apply(s, Recorded(c, ok)) == End(s, c)
  {
    LingersAlone(s, c);
  }

  lemma EndedOwners(s: State, c: CallId)
    requires OwnersOk(s) && KnownOk(s) && c in s.calls && !s.calls[c].Creates() && !s.calls[c].Uses()
    ensures OwnersOk(End(s, c)) && KnownOk(End(s, c))
  {
  }

  lemma EndKeeps(s: State, c: CallId)
    requires Inv(s) && c in s.calls && !s.calls[c].Creates() && !s.calls[c].Uses()
    ensures Inv(End(s, c))
  {
    EndedOwners(s, c);
    forall b | b in End(s, c).calls ensures CallOk(End(s, c), b, s.calls[b]) { assert CallOk(s, b, s.calls[b]); }
  }

  lemma LingerRegistry(r: Registry, run: RunId)
    requires RegistryOk(r) && forall k :: !Held(r, k, run)
    ensures RegistryOk(SetBusy(r, run, false))
  {
    assert forall k :: k in r.entries ==> !Held(r, k, run) ==> r.entries[k] != run;
  }

  lemma LingerCalls(s: State, c: CallId, closed: bool, run: RunId)
    requires CallsOk(s) && c in s.calls && s.calls[c].FailingTurn? && s.calls[c].run == run
    requires forall k :: !Held(s.reg, k, run)
    ensures CallsOk(TurnFailed(s, c, closed, run))
  {
    var t := TurnFailed(s, c, closed, run);
    assert CallOk(s, c, s.calls[c]);
    forall b | b in t.calls ensures CallOk(t, b, t.calls[b]) { assert CallOk(s, b, s.calls[b]); }
  }

  lemma LingerOwners(s: State, c: CallId, closed: bool, run: RunId)
    requires OwnersOk(s) && c in s.calls && s.calls[c].FailingTurn?
    requires forall k :: !Held(s.reg, k, run)
    ensures OwnersOk(TurnFailed(s, c, closed, run))
  {
    assert forall k :: k in s.reg.entries ==> !Held(s.reg, k, run) ==> s.reg.entries[k] != run;
  }

  lemma LingerKnown(s: State, c: CallId, closed: bool, run: RunId)
    requires KnownOk(s) && c in s.calls && s.calls[c].FailingTurn? && run < s.reg.nextId
    requires forall k :: !Held(s.reg, k, run)
    ensures KnownOk(TurnFailed(s, c, closed, run))
  {
    assert forall k :: k in s.reg.entries ==> !Held(s.reg, k, run) ==> s.reg.entries[k] != run;
  }

  lemma TurnFailedKeeps(s: State, c: CallId, closed: bool, run: RunId)
    requires Inv(s) && c in s.calls && s.calls[c].FailingTurn? && s.calls[c].run == run
    ensures Inv(TurnFailed(s, c, closed, run))
  {
    LingersAlone(s, c);
    LingerRegistry(s.reg, run);
    LingerCalls(s, c, closed, run);
    LingerOwners(s, c, closed, run);
    assert CallOk(s, c, s.calls[c]);
    LingerKnown(s, c, closed, run);
  }

  lemma OnlyTimers(s: State, timers: map<TimerId, Key>)
    requires Inv(s) && RegistryOk(s.reg.(timers := timers))
    ensures Inv(s.(reg := s.reg.(timers := timers)))
  {
    var t := s.(reg := s.reg.(timers := timers));
    forall b | b in t.calls ensures CallOk(t, b, t.calls[b]) { assert CallOk(s, b, s.calls[b]); }
  }

  lemma FireIsLocal(s: State, timer: TimerId, k: Key, run: RunId)
    requires timer in s.reg.timers && s.reg.timers[timer] == k && Held(s.reg, k, run) && Expires(s.reg, k)
    requires RegistryOk(s.reg) && s.nextCall !in s.calls && run !in s.known
    ensures Frame(s, Fire(s, timer), k, s.nextCall, run) && Local(s, Fire(s, timer), k, s.nextCall, run)
  {
    FireFrame(s, timer, k, run);
    FireLocal(s, timer, k, run);
  }

  lemma FireFrame(s: State, timer: TimerId, k: Key, run: RunId)
    requires timer in s.reg.timers && s.reg.timers[timer] == k && Held(s.reg, k, run) && Expires(s.reg, k)
    requires RegistryOk(s.reg) && s.nextCall !in s.calls
    ensures Frame(s, Fire(s, timer), k, s.nextCall, run)
  {
  }

  lemma FireLocal(s: State, timer: TimerId, k: Key, run: RunId)
    requires timer in s.reg.timers && s.reg.timers[timer] == k && Held(s.reg, k, run) && Expires(s.reg, k)
    requires RegistryOk(s.reg) && run !in s.known
    ensures Local(s, Fire(s, timer), k, s.nextCall, run)
  {
    var t := Fire(s, timer);
    assert CallOk(t, s.nextCall, t.calls[s.nextCall]);
  }

  lemma FireKeeps(s: State, timer: TimerId)
    requires Inv(s) && timer in s.reg.timers
    ensures Inv(Fire(s, timer))
  {
    var k := s.reg.timers[timer];
    if Expires(s.reg, k) {
      IdleIsOwn(s, k);
      FireIsLocal(s, timer, k, s.reg.entries[k]);
      FrameKeeps(s, Fire(s, timer), k, s.nextCall, s.reg.entries[k]);
    } else {
      assert RegistryOk(s.reg.(timers := s.reg.timers - {timer}));
      OnlyTimers(s, s.reg.timers - {timer});
    }
  }

  lemma CloseKeeps(s: State, run: RunId, status: Status)
    requires Inv(s)
    ensures Inv(CloseElsewhere(s, run, status))
  {
    var t := CloseElsewhere(s, run, status);
    forall b | b in t.calls ensures CallOk(t, b, t.calls[b]) { assert CallOk(s, b, s.calls[b]); }
  }

  // ---- every interleaving ----

  lemma CreatorStepKeeps(s: State, step: Step)
    requires Inv(s) && Enabled(s, step) && (step.Proceeds? || step.Refused? || step.Throws? || step.TurnEnds? || step.FailRunSettles?)
    ensures Inv(Apply(s, step))
  {
    match step
    case Proceeds(c) => ProceedKeeps(s, c);
    case Refused(c) => AbandonKeeps(s, c);
    case Throws(c, applied) => ThrowKeeps(s, c, applied);
    case TurnEnds(c, ok) => if s.calls[c].FirstTurn? { FirstTurnEndKeeps(s, c, ok); } else { TurnEndKeeps(s, c, ok); }
    case FailRunSettles(c, closed) =>
      if s.calls[c].FailingFirst? { FirstFailedKeeps(s, c, closed); } else { TurnFailedKeeps(s, c, closed, s.calls[c].run); }
  }

  lemma StepKeeps(s: State, step: Step)
    requires Inv(s)
    ensures Inv(Apply(s, step))
  {
    if Enabled(s, step) {
      match step
      case Delegate(k) => if !Busy(s.reg, k) { if k in s.reg.entries { ReuseKeeps(s, k); } else { ReserveKeeps(s, k); } }
      case TimerFires(t) => FireKeeps(s, t);
      case CloseReturns(c) => CloseReturnKeeps(s, c);
      case CloseThrows(c, applied) => CloseThrowKeeps(s, c, applied);
      case ReadBack(c, ok) => ReadBackEndKeeps(s, c, ok);
      case Recorded(c, ok) => LateFailureOnlyEnds(s, c, ok); EndKeeps(s, c);
      case OtherWriter(run, status) => CloseKeeps(s, run, status);
      case _ => CreatorStepKeeps(s, step);
    }
  }

  lemma {:induction false} RunKeeps(s: State, steps: seq<Step>)
    requires Inv(s)
    ensures Inv(Exec(s, steps))
    decreases |steps|
  {
    if steps != [] {
      StepKeeps(s, steps[0]);
      RunKeeps(Apply(s, steps[0]), steps[1..]);
    }
  }

  // ---- what the registry guarantees ----

  /**
   * A delegation is refused exactly while the key's entry is claimed or the key is being created; otherwise it takes
   * the next turn on the entry's run, claiming the entry, or begins a new session, reserving the key.
   */
  lemma {:induction false} DelegationIsTaken(steps: seq<Step>, k: Key)
    ensures var s, u := Exec(Init, steps), Apply(Exec(Init, steps), Delegate(k));
            if k in s.reg.entries then
              var e := s.reg.entries[k];
              e in s.reg.heap
              && (if s.reg.heap[e].busy then u == s
                  else u.calls == s.calls[s.nextCall := Turn(k, e)] && u.reg.heap == s.reg.heap[e := s.reg.heap[e].(busy := true)])
            else if k in s.reg.pendingKeys then u == s
            else u.calls == s.calls[s.nextCall := Checking(k)] && u.reg.pendingKeys == s.reg.pendingKeys + {k}
  {
    RunKeeps(Init, steps);
  }

  /** At most one session is being created, continued or expired per (supervisor, project) key. */
  lemma {:induction false} OneClaimPerKey(steps: seq<Step>, b: CallId, c: CallId)
    requires var s := Exec(Init, steps);
             && b in s.calls && c in s.calls && s.calls[b].key == s.calls[c].key
             && (s.calls[b].Creates() || s.calls[b].Uses()) && (s.calls[c].Creates() || s.calls[c].Uses())
    ensures b == c
  {
    RunKeeps(Init, steps);
    var s := Exec(Init, steps);
    assert CallOk(s, b, s.calls[b]) && CallOk(s, c, s.calls[c]);
  }

  /** An entry is either claimed by a call in flight or has a pending timer of its own key. */
  lemma {:induction false} IdleEntryHasTimer(steps: seq<Step>, k: Key)
    requires k in Exec(Init, steps).reg.entries
    ensures var s := Exec(Init, steps);
            var e := s.reg.entries[k];
            && e in s.reg.heap
            && (!s.reg.heap[e].busy ==> s.reg.heap[e].timer in s.reg.timers && s.reg.timers[s.reg.heap[e].timer] == k)
            && (s.reg.heap[e].busy ==> exists c :: c in s.calls && s.calls[c].Uses() && s.calls[c].key == k && s.calls[c].run == e)
  {
    RunKeeps(Init, steps);
    var s := Exec(Init, steps);
    if s.reg.heap[s.reg.entries[k]].busy {
      assert CallOk(s, s.owner[k], s.calls[s.owner[k]]);
    }
  }

  /** A late failure of `expire` finds its entry gone and leaves every entry, old or new, and every timer alone. */
  lemma {:induction false} LateFailureTouchesNothing(steps: seq<Step>, c: CallId, ok: bool)
    requires Enabled(Exec(Init, steps), Recorded(c, ok))
    ensures var s := Exec(Init, steps);
            && Apply(s, Recorded(c, ok)).reg == s.reg && Apply(s, Recorded(c, ok)).runs == s.runs
            && (forall k :: k in s.reg.entries ==> s.reg.entries[k] != s.calls[c].run)
  {
    RunKeeps(Init, steps);
    LateFailureOnlyEnds(Exec(Init, steps), c, ok);
    LingersAlone(Exec(Init, steps), c);
    assert forall k :: k in Exec(Init, steps).reg.entries ==> !Held(Exec(Init, steps).reg, k, Exec(Init, steps).calls[c].run);
  }

  /** No turn starts on a run whose end the registry has confirmed. */
  lemma {:induction false} NoTurnOnKnownRun(steps: seq<Step>, step: Step)
    requires StartsTurn(Exec(Init, steps), step).Some?
    ensures StartsTurn(Exec(Init, steps), step).value !in Exec(Init, steps).known
  {
    RunKeeps(Init, steps);
    var s := Exec(Init, steps);
    if step.Delegate? {
      IdleIsOwn(s, step.k);
    } else {
      CreatorIsOwn(s, step.c);
    }
  }

  /** Which stretch of code a resuming call runs. */
  lemma Resumes(s: State, c: CallId, ok: bool)
    requires c in s.calls && s.calls[c].HasRun()
    ensures s.calls[c].Turn? ==> Apply(s, TurnEnds(c, ok)) == TurnEnd(s, c, ok, s.calls[c].key, s.calls[c].run)
    ensures s.calls[c].ReadingBack? ==> Apply(s, ReadBack(c, ok)) == ReadBackEnd(s, c, ok, s.calls[c].key, s.calls[c].run)
    ensures s.calls[c].Closing? && s.calls[c].run in s.runs ==>
              Apply(s, CloseReturns(c)) == CloseReturn(s, c, s.calls[c].key, s.calls[c].run)
    ensures s.calls[c].FailingFirst? ==> Apply(s, FailRunSettles(c, ok)) == FirstFailed(s, c, ok, s.calls[c].key, s.calls[c].run)
    ensures s.calls[c].FailingTurn? ==> Apply(s, FailRunSettles(c, ok)) == TurnFailed(s, c, ok, s.calls[c].run)
  {
  }

  lemma BrokenTurn(s: State, c: CallId)
    requires Inv(s) && c in s.calls && s.calls[c].Turn?
    ensures var k, run := s.calls[c].key, s.calls[c].run;
            var u := TurnEnd(s, c, false, k, run);
            && k !in u.reg.entries && (forall j :: !Held(u.reg, j, run))
            && run in s.reg.heap && s.reg.heap[run].timer !in u.reg.timers && u.runs == s.runs
            && c in u.calls && u.calls[c] == FailingTurn(k, run)
  {
    UserIsOwn(s, c);
    assert Held(s.reg, s.calls[c].key, s.calls[c].run);
  }

  lemma FailedRun(s: State, c: CallId)
    requires RowsOk(s) && c in s.calls && s.calls[c].HasRun()
    ensures var k, run := s.calls[c].key, s.calls[c].run;
            var first, turn := FirstFailed(s, c, true, k, run), TurnFailed(s, c, true, run);
            && run in s.runs && first.runs == turn.runs == (if s.runs[run] == Running then s.runs[run := Error] else s.runs)
            && FirstFailed(s, c, false, k, run).runs == TurnFailed(s, c, false, run).runs == s.runs
            && k !in first.reg.pendingKeys
  {
  }

  /**
   * A continued turn that fails leaves no entry of its run and no timer of that entry before anything else can
   * happen; when its close then takes effect, a run that was still `running` is `error`.
   */
  lemma {:induction false} BrokenTurnIsClosed(steps: seq<Step>, c: CallId)
    requires var s := Exec(Init, steps); c in s.calls && s.calls[c].Turn?
    ensures var s := Exec(Init, steps);
            var k, run, u := s.calls[c].key, s.calls[c].run, Apply(s, TurnEnds(c, false));
            && k !in u.reg.entries && (forall j :: !Held(u.reg, j, run))
            && run in s.reg.heap && s.reg.heap[run].timer !in u.reg.timers && u.runs == s.runs
            && c in u.calls && u.calls[c] == FailingTurn(k, run)
  {
    RunKeeps(Init, steps);
    BrokenTurn(Exec(Init, steps), c);
    Resumes(Exec(Init, steps), c, false);
  }

  lemma {:induction false} FailedRunEndsInError(steps: seq<Step>, c: CallId)
    requires var s := Exec(Init, steps); c in s.calls && (s.calls[c].FailingTurn? || s.calls[c].FailingFirst?)
    ensures var s := Exec(Init, steps);
            var run, u := s.calls[c].run, Apply(s, FailRunSettles(c, true));
            && run in s.runs && u.runs == (if s.runs[run] == Running then s.runs[run := Error] else s.runs)
            && Apply(s, FailRunSettles(c, false)).runs == s.runs
            && (s.calls[c].FailingFirst? ==> s.calls[c].key !in u.reg.pendingKeys)
  {
    RowsKeep(Init, steps);
    FailedRun(Exec(Init, steps), c);
    Resumes(Exec(Init, steps), c, true);
    Resumes(Exec(Init, steps), c, false);
  }

  lemma ClosedRun(s: State, c: CallId)
    requires c in s.calls && s.calls[c].Closing? && s.calls[c].run in s.runs
    ensures var k, run := s.calls[c].key, s.calls[c].run;
            var u := CloseReturn(s, c, k, run);
            if s.runs[run] == Running then u.runs == s.runs[run := Done] && k !in u.reg.entries && u.calls[c] == Recording(k, run, false)
            else u.runs == s.runs && u.calls[c] == ReadingBack(k, run)
  {
  }

  /**
   * An expiry whose close returns on a `running` row leaves it `done` and its entry forgotten. On a row another
   * writer closed nothing is written, and the entry goes with the read back that follows, whether or not it fails.
   */
  lemma {:induction false} ExpiredRunEndsDone(steps: seq<Step>, c: CallId)
    requires var s := Exec(Init, steps); c in s.calls && s.calls[c].Closing?
    ensures var s := Exec(Init, steps);
            var k, run, u := s.calls[c].key, s.calls[c].run, Apply(s, CloseReturns(c));
            && run in s.runs
            && c in u.calls
            && (if s.runs[run] == Running then u.runs == s.runs[run := Done] && k !in u.reg.entries && u.calls[c] == Recording(k, run, false)
                else u.runs == s.runs && u.calls[c] == ReadingBack(k, run))
  {
    RowsKeep(Init, steps);
    ClosedRun(Exec(Init, steps), c);
    Resumes(Exec(Init, steps), c, true);
  }

  lemma ReadBackDrops(s: State, c: CallId, ok: bool)
    requires Inv(s) && c in s.calls && s.calls[c].ReadingBack?
    ensures var t := ReadBackEnd(s, c, ok, s.calls[c].key, s.calls[c].run);
            s.calls[c].key !in t.reg.entries && t.runs == s.runs && forall j :: !Held(t.reg, j, s.calls[c].run)
  {
    UserIsOwn(s, c);
    assert Held(s.reg, s.calls[c].key, s.calls[c].run);
  }

  lemma {:induction false} ReadBackForgets(steps: seq<Step>, c: CallId, ok: bool)
    requires var s := Exec(Init, steps); c in s.calls && s.calls[c].ReadingBack?
    ensures var s := Exec(Init, steps);
            var u := Apply(s, ReadBack(c, ok));
            && s.calls[c].key !in u.reg.entries && (forall j :: !Held(u.reg, j, s.calls[c].run)) && u.runs == s.runs
  {
    RunKeeps(Init, steps);
    var s := Exec(Init, steps);
    ReadBackDrops(s, c, ok);
    Resumes(s, c, ok);
  }

  // ---- the timers ----

  /** A pending timer is the current one of its key's entry. */
  ghost predicate TimersHeld(r: Registry) {
    forall t :: t in r.timers ==> r.timers[t] in r.entries && r.entries[r.timers[t]] in r.heap && r.heap[r.entries[r.timers[t]]].timer == t
  }

  ghost predicate TimersOk(s: State) {
    && TimersHeld(s.reg)
    && ClaimsUntimed(s, s.reg)
  }

  /** No entry claimed by an expiry of `s` has its timer pending in `r`. */
  ghost predicate ClaimsUntimed(s: State, r: Registry) {
    forall c :: c in s.calls && (s.calls[c].Closing? || s.calls[c].ReadingBack?) && s.calls[c].run in r.heap ==>
      r.heap[s.calls[c].run].timer !in r.timers
  }

  lemma CreatorTimers(s: State, c: CallId, ok: bool)
    requires TimersOk(s) && c in s.calls && s.calls[c].Creates()
    ensures TimersOk(Proceed(s, c)) && TimersOk(Abandon(s, c)) && TimersOk(Throw(s, c, ok))
    ensures s.calls[c].FailingFirst? ==> TimersOk(FirstFailed(s, c, ok, s.calls[c].key, s.calls[c].run))
  {
  }

  lemma FirstTurnTimers(s: State, c: CallId, ok: bool)
    requires Inv(s) && TimersOk(s) && c in s.calls && s.calls[c].FirstTurn?
    ensures TimersOk(FirstTurnEnd(s, c, ok, s.calls[c].key, s.calls[c].run))
  {
    CreatorIsOwn(s, c);
  }

  /** Clearing the entry's own timer leaves no timer of its key, so the entry may go or get a new one. */
  lemma ClearedTimers(r: Registry, k: Key, e: RunId)
    requires TimersHeld(r) && Held(r, k, e) && e in r.heap && r.heap[e].timer < r.nextId
    requires forall j :: j in r.entries && r.entries[j] == e ==> j == k
    ensures TimersHeld(Forget(r, k, e)) && TimersHeld(TurnDone(r, k, e))
    ensures r.heap[e].timer !in r.timers ==> TimersHeld(Schedule(r, k, e, false))
  {
    assert forall t :: t in r.timers && r.timers[t] == k ==> t == r.heap[e].timer;
  }

  lemma ClaimsStayUntimed(s: State, c: CallId)
    requires Using(s, c) && Own(s, s.calls[c].key, c, s.calls[c].run) && ClaimsUntimed(s, s.reg)
    ensures var k, e := s.calls[c].key, s.calls[c].run;
            ClaimsUntimed(End(s, c), Forget(s.reg, k, e)) && ClaimsUntimed(End(s, c), TurnDone(s.reg, k, e))
            && ClaimsUntimed(End(s, c), Schedule(s.reg, k, e, false))
  {
  }

  lemma TurnTimers(s: State, c: CallId, ok: bool)
    requires Inv(s) && TimersOk(s) && c in s.calls && s.calls[c].Turn?
    ensures TimersOk(TurnEnd(s, c, ok, s.calls[c].key, s.calls[c].run))
  {
    UserIsOwn(s, c);
    ClearedTimers(s.reg, s.calls[c].key, s.calls[c].run);
    ClaimsStayUntimed(s, c);
  }

  lemma FailedTurnTimers(s: State, c: CallId, closed: bool)
    requires Inv(s) && TimersOk(s) && c in s.calls && s.calls[c].FailingTurn?
    ensures TimersOk(TurnFailed(s, c, closed, s.calls[c].run))
  {
    LingersAlone(s, c);
  }

  lemma ClosingTimers(s: State, c: CallId)
    requires Inv(s) && TimersOk(s) && c in s.calls && s.calls[c].Closing?
    ensures TimersOk(CloseReturn(s, c, s.calls[c].key, s.calls[c].run))
  {
    UserIsOwn(s, c);
    ClearedTimers(s.reg, s.calls[c].key, s.calls[c].run);
    ClaimsStayUntimed(s, c);
  }

  lemma ThrownCloseTimers(s: State, c: CallId, applied: bool)
    requires Inv(s) && TimersOk(s) && c in s.calls && s.calls[c].Closing?
    ensures TimersOk(CloseThrow(s, c, applied, s.calls[c].key, s.calls[c].run))
  {
    UserIsOwn(s, c);
    ClearedTimers(s.reg, s.calls[c].key, s.calls[c].run);
    ClaimsStayUntimed(s, c);
  }

  lemma ReadBackTimers(s: State, c: CallId, ok: bool)
    requires Inv(s) && TimersOk(s) && c in s.calls && s.calls[c].ReadingBack?
    ensures TimersOk(ReadBackEnd(s, c, ok, s.calls[c].key, s.calls[c].run))
  {
    UserIsOwn(s, c);
    ClearedTimers(s.reg, s.calls[c].key, s.calls[c].run);
    ClaimsStayUntimed(s, c);
  }

  lemma FiredHeld(r: Registry, t: TimerId)
    requires TimersHeld(r) && t in r.timers
    ensures TimersHeld(Fired(r, t))
  {
  }

  lemma FiredClaims(s: State, t: TimerId)
    requires t in s.reg.timers && (forall e, f :: e in s.reg.heap && f in s.reg.heap && s.reg.heap[e].timer == s.reg.heap[f].timer ==> e == f)
    requires TimersOk(s) && s.nextCall !in s.calls
    ensures ClaimsUntimed(Fire(s, t), Fire(s, t).reg)
  {
  }

  lemma FiredTimers(s: State, t: TimerId)
    requires Inv(s) && TimersOk(s) && t in s.reg.timers
    ensures TimersOk(Fire(s, t))
  {
    forall b | b in s.calls ensures b < s.nextCall { assert CallOk(s, b, s.calls[b]); }
    FiredHeld(s.reg, t);
    FiredClaims(s, t);
  }

  lemma ClaimedTimers(s: State, k: Key)
    requires Inv(s) && TimersOk(s) && !Busy(s.reg, k)
    ensures TimersOk(if k in s.reg.entries then Reuse(s, k) else Reserve(s, k))
  {
  }

  lemma CreatorStepTimers(s: State, step: Step)
    requires Inv(s) && TimersOk(s) && Enabled(s, step)
    requires step.Proceeds? || step.Refused? || step.Throws? || step.TurnEnds? || step.FailRunSettles?
    ensures TimersOk(Apply(s, step))
  {
    match step
    case Proceeds(c) => CreatorTimers(s, c, true);
    case Refused(c) => CreatorTimers(s, c, true);
    case Throws(c, applied) => CreatorTimers(s, c, applied);
    case TurnEnds(c, ok) => if s.calls[c].FirstTurn? { FirstTurnTimers(s, c, ok); } else { TurnTimers(s, c, ok); }
    case FailRunSettles(c, closed) => if s.calls[c].FailingFirst? { CreatorTimers(s, c, closed); } else { FailedTurnTimers(s, c, closed); }
  }

  lemma StepTimers(s: State, step: Step)
    requires Inv(s) && TimersOk(s)
    ensures TimersOk(Apply(s, step))
  {
    if Enabled(s, step) {
      match step
      case Delegate(k) => if !Busy(s.reg, k) { ClaimedTimers(s, k); }
      case TimerFires(t) => FiredTimers(s, t);
      case CloseReturns(c) => ClosingTimers(s, c);
      case CloseThrows(c, applied) => ThrownCloseTimers(s, c, applied);
      case ReadBack(c, ok) => ReadBackTimers(s, c, ok);
      case Recorded(c, ok) => LateFailureOnlyEnds(s, c, ok);
      case OtherWriter(run, status) =>
      case _ => CreatorStepTimers(s, step);
    }
  }

  lemma {:induction false} RunTimers(s: State, steps: seq<Step>)
    requires Inv(s) && TimersOk(s)
    ensures TimersOk(Exec(s, steps))
    decreases |steps|
  {
    if steps != [] {
      StepKeeps(s, steps[0]);
      StepTimers(s, steps[0]);
      RunTimers(Apply(s, steps[0]), steps[1..]);
    }
  }

  /**
   * Every pending timer is the current timer of its key's entry: a turn that succeeds or a session that is
   * dropped leaves no earlier timer behind, so no entry expires on an old cadence.
   */
  lemma {:induction false} EveryTimerIsAnEntrys(steps: seq<Step>, t: TimerId)
    requires t in Exec(Init, steps).reg.timers
    ensures var r := Exec(Init, steps).reg;
            var k := r.timers[t];
            && k in r.entries && r.entries[k] in r.heap && r.heap[r.entries[k]].timer == t
            && (forall u :: u in r.timers && r.timers[u] == k ==> u == t)
  {
    RunTimers(Init, steps);
  }

  // ---- turns and rows ----

  /** Every run the registry works on has a row. */
  ghost predicate RowsOk(s: State) {
    && (forall k :: k in s.reg.entries ==> s.reg.entries[k] in s.runs)
    && (forall c :: c in s.calls && s.calls[c].HasRun() ==> s.calls[c].run in s.runs)
  }

  /** A row is closed exactly when the registry knows so, an expiry lost the confirmation, or another writer closed it. */
  ghost predicate Accounted(s: State) {
    && s.others <= s.runs.Keys
    && (forall run :: run in s.runs ==>
          (s.runs[run] == Running <==> run !in s.known && run !in s.unconfirmed && run !in s.others))
  }

  /** A step of another writer, or a close that took effect although its call threw. */
  predicate Surprising(step: Step) {
    step.OtherWriter? || (step.CloseThrows? && step.applied)
  }

  lemma RowsKeptByCreator(s: State, c: CallId, ok: bool)
    requires RowsOk(s) && c in s.calls && s.calls[c].Creates()
    ensures RowsOk(Proceed(s, c)) && RowsOk(Abandon(s, c)) && RowsOk(Throw(s, c, ok))
    ensures s.calls[c].HasRun() ==> RowsOk(FirstTurnEnd(s, c, ok, s.calls[c].key, s.calls[c].run))
    ensures s.calls[c].HasRun() ==> RowsOk(FirstFailed(s, c, ok, s.calls[c].key, s.calls[c].run))
  {
  }

  lemma RowsKeptByUser(s: State, c: CallId, ok: bool, k: Key, run: RunId)
    requires RowsOk(s) && c in s.calls && run in s.runs
    ensures RowsOk(TurnEnd(s, c, ok, k, run)) && RowsOk(TurnFailed(s, c, ok, run))
    ensures RowsOk(CloseReturn(s, c, k, run)) && RowsOk(CloseThrow(s, c, ok, k, run))
    ensures RowsOk(ReadBackEnd(s, c, ok, k, run)) && (forall confirmed :: RowsOk(RecordEnd(s, c, ok, k, run, confirmed)))
  {
  }

  lemma RowsKeptWhenStarting(s: State, k: Key, t: TimerId)
    requires RowsOk(s)
    ensures k in s.reg.entries ==> RowsOk(Reuse(s, k))
    ensures RowsOk(Reserve(s, k)) && (t in s.reg.timers ==> RowsOk(Fire(s, t)))
  {
  }

  lemma CreatorRowsKept(s: State, step: Step)
    requires RowsOk(s) && Enabled(s, step) && (step.Proceeds? || step.Refused? || step.Throws? || step.TurnEnds? || step.FailRunSettles?)
    ensures RowsOk(Apply(s, step))
  {
    match step
    case Proceeds(c) => RowsKeptByCreator(s, c, true);
    case Refused(c) => RowsKeptByCreator(s, c, true);
    case Throws(c, applied) => RowsKeptByCreator(s, c, applied);
    case TurnEnds(c, ok) =>
      if s.calls[c].FirstTurn? { RowsKeptByCreator(s, c, ok); } else { RowsKeptByUser(s, c, ok, s.calls[c].key, s.calls[c].run); }
    case FailRunSettles(c, closed) =>
      if s.calls[c].FailingFirst? { RowsKeptByCreator(s, c, closed); }
      else { RowsKeptByUser(s, c, closed, s.calls[c].key, s.calls[c].run); }
  }

  lemma RowsKept(s: State, step: Step)
    requires RowsOk(s)
    ensures RowsOk(Apply(s, step))
  {
    if Enabled(s, step) {
      match step
      case Delegate(k) => RowsKeptWhenStarting(s, k, 0);
      case TimerFires(t) => RowsKeptWhenStarting(s, 0, t);
      case CloseReturns(c) => RowsKeptByUser(s, c, true, s.calls[c].key, s.calls[c].run);
      case CloseThrows(c, applied) => RowsKeptByUser(s, c, applied, s.calls[c].key, s.calls[c].run);
      case ReadBack(c, ok) => RowsKeptByUser(s, c, ok, s.calls[c].key, s.calls[c].run);
      case Recorded(c, ok) => RowsKeptByUser(s, c, ok, s.calls[c].key, s.calls[c].run);
      case OtherWriter(run, status) =>
      case _ => CreatorRowsKept(s, step);
    }
  }

  lemma CreatorAccounted(s: State, c: CallId, ok: bool)
    requires KnownOk(s) && RowsOk(s) && Accounted(s) && c in s.calls && s.calls[c].Creates()
    ensures Accounted(Proceed(s, c)) && Accounted(Abandon(s, c)) && Accounted(Throw(s, c, ok))
    ensures s.calls[c].HasRun() ==> Accounted(FirstTurnEnd(s, c, ok, s.calls[c].key, s.calls[c].run))
    ensures s.calls[c].HasRun() ==> Accounted(FirstFailed(s, c, ok, s.calls[c].key, s.calls[c].run))
  {
    assert s.reg.nextId !in s.runs && s.reg.nextId !in s.known && s.reg.nextId !in s.unconfirmed && s.reg.nextId !in s.others;
  }

  lemma UserAccounted(s: State, c: CallId, ok: bool, k: Key, run: RunId)
    requires Accounted(s) && c in s.calls && run in s.runs
    ensures Accounted(TurnEnd(s, c, ok, k, run)) && Accounted(TurnFailed(s, c, ok, run))
    ensures Accounted(CloseReturn(s, c, k, run)) && Accounted(CloseThrow(s, c, ok, k, run))
    ensures Accounted(ReadBackEnd(s, c, ok, k, run)) && (forall confirmed :: Accounted(RecordEnd(s, c, ok, k, run, confirmed)))
  {
  }

  lemma CreatorStepAccounted(s: State, step: Step)
    requires KnownOk(s) && RowsOk(s) && Accounted(s) && Enabled(s, step)
    requires step.Proceeds? || step.Refused? || step.Throws? || step.TurnEnds? || step.FailRunSettles?
    ensures Accounted(Apply(s, step))
  {
    match step
    case Proceeds(c) => CreatorAccounted(s, c, true);
    case Refused(c) => CreatorAccounted(s, c, true);
    case Throws(c, applied) => CreatorAccounted(s, c, applied);
    case TurnEnds(c, ok) =>
      if s.calls[c].FirstTurn? { CreatorAccounted(s, c, ok); } else { UserAccounted(s, c, ok, s.calls[c].key, s.calls[c].run); }
    case FailRunSettles(c, closed) =>
      if s.calls[c].FailingFirst? { CreatorAccounted(s, c, closed); }
      else { UserAccounted(s, c, closed, s.calls[c].key, s.calls[c].run); }
  }

  lemma AccountedKept(s: State, step: Step)
    requires KnownOk(s) && RowsOk(s) && Accounted(s)
    ensures Accounted(Apply(s, step))
  {
    if Enabled(s, step) {
      match step
      case Delegate(_) =>
      case TimerFires(_) =>
      case CloseReturns(c) => UserAccounted(s, c, true, s.calls[c].key, s.calls[c].run);
      case CloseThrows(c, applied) => UserAccounted(s, c, applied, s.calls[c].key, s.calls[c].run);
      case ReadBack(c, ok) => UserAccounted(s, c, ok, s.calls[c].key, s.calls[c].run);
      case Recorded(c, ok) => UserAccounted(s, c, ok, s.calls[c].key, s.calls[c].run);
      case OtherWriter(run, status) =>
      case _ => CreatorStepAccounted(s, step);
    }
  }

  lemma {:induction false} RowsKeep(s: State, steps: seq<Step>)
    requires Inv(s) && RowsOk(s) && Accounted(s)
    ensures RowsOk(Exec(s, steps)) && Accounted(Exec(s, steps))
    decreases |steps|
  {
    if steps != [] {
      StepKeeps(s, steps[0]);
      RowsKept(s, steps[0]);
      AccountedKept(s, steps[0]);
      RowsKeep(Apply(s, steps[0]), steps[1..]);
    }
  }

  /**
   * In every run, a turn starts on a `running` row exactly when no other writer closed the row and no expiry
   * closed it by a call that threw all the same.
   */
  lemma {:induction false} TurnsStartOnRunningRowsIff(steps: seq<Step>, step: Step)
    requires StartsTurn(Exec(Init, steps), step).Some?
    ensures var s, run := Exec(Init, steps), StartsTurn(Exec(Init, steps), step).value;
            run in s.runs && (s.runs[run] == Running <==> run !in s.unconfirmed && run !in s.others)
  {
    RowsKeep(Init, steps);
    NoTurnOnKnownRun(steps, step);
  }

  lemma {:induction false} NothingSurprising(s: State, steps: seq<Step>)
    requires forall x :: x in steps ==> !Surprising(x)
    ensures Exec(s, steps).unconfirmed == s.unconfirmed && Exec(s, steps).others == s.others
    decreases |steps|
  {
    if steps != [] {
      assert steps[0] in steps;
      NothingSurprising(Apply(s, steps[0]), steps[1..]);
    }
  }

  /** Unless another writer interferes or a close lies about its outcome, every turn starts on a `running` row. */
  lemma {:induction false} TurnsStartOnRunningRows(steps: seq<Step>, step: Step)
    requires forall x :: x in steps ==> !Surprising(x)
    requires StartsTurn(Exec(Init, steps), step).Some?
    ensures var s, run := Exec(Init, steps), StartsTurn(Exec(Init, steps), step).value;
            run in s.runs && s.runs[run] == Running
  {
    TurnsStartOnRunningRowsIff(steps, step);
    NothingSurprising(Init, steps);
  }

  lemma {:induction false} ExecSnoc(s: State, steps: seq<Step>, step: Step)
    ensures Exec(s, steps + [step]) == Apply(Exec(s, steps), step)
    decreases |steps|
  {
    if steps == [] {
      assert [step][1..] == [];
    } else {
      assert (steps + [step])[1..] == steps[1..] + [step];
      ExecSnoc(Apply(s, steps[0]), steps[1..], step);
    }
  }

  /** A first delegation that succeeds leaves an idle entry for run 0 with timer 1. */
  lemma FirstDelegation() returns (steps: seq<Step>)
    ensures Exec(Init, steps) ==
            State(Registry(map[0 := 0], map[0 := Entry(false, 1)], {}, map[1 := 0], 2), map[0 := Running], map[], 1, {}, {}, {}, map[0 := 0])
  {
    steps := [];
    ExecSnoc(Init, steps, Delegate(0));
    steps := steps + [Delegate(0)];
    var i := 0;
    while i < 5
      invariant 0 <= i <= 5
      invariant Exec(Init, steps) ==
                if i < 3
                then State(Registry(map[], map[], {0}, map[], 0), map[],
                           map[0 := if i == 0 then Checking(0) else if i == 1 then Reconstructing(0) else Inserting(0)],
                           1, {}, {}, {}, map[0 := 0])
                else State(Registry(map[], map[], {0}, map[], 1), map[0 := Running],
                           map[0 := if i == 3 then Announcing(0, 0) else if i == 4 then Persisting(0, 0) else FirstTurn(0, 0)],
                           1, {}, {}, {}, map[0 := 0])
    {
      ExecSnoc(Init, steps, Proceeds(0));
      steps := steps + [Proceeds(0)];
      i := i + 1;
    }
    ExecSnoc(Init, steps, TurnEnds(0, true));
    assert map[0 := FirstTurn(0, 0)] - {0} == map[];
    assert {0} - {0} == {};
    steps := steps + [TurnEnds(0, true)];
  }

  /** The expiry of run 0's entry, up to a close that commits although its call throws. */
  function ExpiringAt(claimed: bool): State {
    State(Registry(map[0 := 0], map[0 := Entry(claimed, 1)], {}, if claimed then map[] else map[1 := 0], 2), map[0 := Running],
          if claimed then map[1 := Closing(0, 0)] else map[], if claimed then 2 else 1, {}, {}, {}, map[0 := if claimed then 1 else 0])
  }

  lemma ExpiryClaims()
    ensures Apply(ExpiringAt(false), TimerFires(1)) == ExpiringAt(true)
  {
    var s := ExpiringAt(false);
    assert Apply(s, TimerFires(1)) == Fire(s, 1);
    assert s.reg.timers - {1} == map[];
  }

  lemma CloseLosesConfirmation()
    ensures var u := Apply(ExpiringAt(true), CloseThrows(1, true)); StartsTurn(u, Delegate(0)) == Some(0) && u.runs == map[0 := Done]
  {
    assert Apply(ExpiringAt(true), CloseThrows(1, true)) == CloseThrow(ExpiringAt(true), 1, true, 0, 0);
  }

  /**
   * The exception is real: a close that commits although its call throws leaves the entry behind, and
   * the next delegation continues a session whose row is already `done`.
   */
  lemma LostConfirmationReusesClosedRun() returns (steps: seq<Step>, step: Step)
    ensures var s := Exec(Init, steps);
            StartsTurn(s, step) == Some(0) && 0 in s.runs && s.runs[0] == Done
  {
    var first := FirstDelegation();
    ExpiryClaims();
    CloseLosesConfirmation();
    ExecSnoc(Init, first, TimerFires(1));
    ExecSnoc(Init, first + [TimerFires(1)], CloseThrows(1, true));
    steps, step := first + [TimerFires(1)] + [CloseThrows(1, true)], Delegate(0);
  }
}
