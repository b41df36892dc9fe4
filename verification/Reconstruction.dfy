/** Rebuilding a dormant conversation from its event log, checkpoints included. */
module Reconstruction {
  import opened Ordering
  import opened ToolProtocol

  type EntryId = nat

  datatype ConversationEntry = ConversationEntry(id: EntryId, parentId: Option<EntryId>, seqNo: int, timestamp: int, message: Message)

  /** A row's payload; `Malformed` fails the shape check its row's kind demands. */
  datatype Payload = MessagePayload(message: Message) | EntriesPayload(entries: seq<ConversationEntry>) | Malformed

  datatype RowKind = Compaction | RunStatusRow | Conversational

  /** An `agent_run_events` row of one of the conversation's session runs; `wake` is its run's `wake_seq`. */
  datatype Row = Row(id: nat, wake: nat, kind: RowKind, at: int, payload: Payload)

  datatype Walk = Walk(entries: seq<ConversationEntry>, seqNo: int, parentId: Option<EntryId>)

  const Start := Walk([], 0, None)

  // ---- the walk ----

  function ResumeFrom(entries: seq<ConversationEntry>): Walk {
    if entries == [] then Walk([], 0, None)
    else Walk(entries, entries[|entries| - 1].seqNo + 1, Some(entries[|entries| - 1].id))
  }

  /** One row; `None` is the walk's throw on a malformed payload. */
  function Visit(w: Walk, row: Row): Option<Walk> {
    match row.kind
    case Compaction => if row.payload.EntriesPayload? then Some(ResumeFrom(row.payload.entries)) else None
    case RunStatusRow => Some(w)
    case Conversational =>
      if row.payload.MessagePayload?
      then Some(Walk(w.entries + [ConversationEntry(row.id, w.parentId, w.seqNo, row.at, row.payload.message)], w.seqNo + 1, Some(row.id)))
      else None
  }

  function WalkFrom(w: Walk, rows: seq<Row>): Option<Walk>
    decreases |rows|
  {
    if rows == [] then Some(w)
    else
      var next := Visit(w, rows[0]);
      if next.None? then None else WalkFrom(next.value, rows[1..])
  }

  /** The walk's loop over the rows it was given. */
  method WalkStoredEntries(rows: seq<Row>) returns (entries: Option<seq<ConversationEntry>>)
    ensures entries == var w := WalkFrom(Start, rows); if w.None? then None else Some(w.value.entries)
  {
    if |rows| == 0 { return Some([]); }
    var read: seq<ConversationEntry> := [];
    var seqNo := 0;
    var parentId: Option<EntryId> := None;
    var i := 0;
    assert rows[0..] == rows;
    while i < |rows|
      invariant 0 <= i <= |rows|
      invariant WalkFrom(Start, rows) == WalkFrom(Walk(read, seqNo, parentId), rows[i..])
    {
      var row := rows[i];
      assert rows[i..][0] == row && rows[i..][1..] == rows[i + 1..];
      if row.kind.Compaction? {
        if !row.payload.EntriesPayload? { return None; }
        read := row.payload.entries;
        if |read| > 0 {
          seqNo, parentId := read[|read| - 1].seqNo + 1, Some(read[|read| - 1].id);
        } else {
          seqNo, parentId := 0, None;
        }
      } else if row.kind.Conversational? {
        if !row.payload.MessagePayload? { return None; }
        read := read + [ConversationEntry(row.id, parentId, seqNo, row.at, row.payload.message)];
        seqNo, parentId := seqNo + 1, Some(row.id);
      }
      i := i + 1;
    }
    return Some(read);
  }

  // ---- the query ----

  // A log lists its rows in the query's order, by (`wake`, `id`).

  function LastCompactionId(log: seq<Row>): nat {
    if log == [] then 0
    else
      var rest := LastCompactionId(log[1..]);
      if log[0].kind.Compaction? && log[0].id > rest then log[0].id else rest
  }

  function FromId(log: seq<Row>, id: nat): seq<Row> {
    if log == [] then [] else (if log[0].id >= id then [log[0]] else []) + FromId(log[1..], id)
  }

  /** `listSessionAgentRunEventsFromLastCompaction`. */
  function TailFromLastCompaction(log: seq<Row>): seq<Row> {
    FromId(log, LastCompactionId(log))
  }

  /** A conversation is woken strictly sequentially, so ids grow along the log. */
  ghost predicate Sequential(log: seq<Row>) {
    forall i, j :: 0 <= i < j < |log| ==> log[i].id < log[j].id
  }

  // ---- the whole reconstruction ----

  /** The compaction adapter: the size test, and the reduction, which may reject. */
  datatype Adapter = Adapter(tooLarge: seq<Message> -> bool, compact: seq<ConversationEntry> -> Option<seq<ConversationEntry>>)

  datatype Outcome = Nothing | History(entries: seq<ConversationEntry>, compacted: bool) | Threw

  function Messages(entries: seq<ConversationEntry>): seq<Message> {
    seq(|entries|, i requires 0 <= i < |entries| => entries[i].message)
  }

  /** `reconstructConversationHistory` over the whole stored log. */
  method ReconstructConversationHistory(log: seq<Row>, adapter: Adapter) returns (outcome: Outcome)
    ensures outcome == Reconstructed(log, adapter)
    ensures var w := WalkFrom(Start, TailFromLastCompaction(log));
            && (outcome.Nothing? <==> w.Some? && w.value.entries == [])
            && (outcome.History? ==>
                  && w.Some? && Paired(Messages(w.value.entries)) && Paired(Messages(outcome.entries))
                  && outcome.compacted == adapter.tooLarge(Messages(w.value.entries))
                  && (if outcome.compacted then adapter.compact(w.value.entries) == Some(outcome.entries) else outcome.entries == w.value.entries))
            && (outcome.Threw? <==>
                  || w.None?
                  || (w.value.entries != [] &&
                        (|| !Paired(Messages(w.value.entries))
                         || (adapter.tooLarge(Messages(w.value.entries)) &&
                               (adapter.compact(w.value.entries).None? || !Paired(Messages(adapter.compact(w.value.entries).value)))))))
  {
    var walked := WalkStoredEntries(TailFromLastCompaction(log));
    if walked.None? { return Threw; }
    var entries := walked.value;
    if |entries| == 0 { return Nothing; }
    AcceptedIffPaired(Messages(entries));
    var ok := ValidateProtocolInvariants(Messages(entries));
    if !ok { return Threw; }
    if !adapter.tooLarge(Messages(entries)) { return History(entries, false); }
    var compacted := adapter.compact(entries);
    if compacted.None? { return Threw; }
    AcceptedIffPaired(Messages(compacted.value));
    ok := ValidateProtocolInvariants(Messages(compacted.value));
    if !ok { return Threw; }
    return History(compacted.value, true);
  }

  function Reconstructed(log: seq<Row>, adapter: Adapter): Outcome {
    var w := WalkFrom(Start, TailFromLastCompaction(log));
    if w.None? then Threw
    else if w.value.entries == [] then Nothing
    else if !Accepted(Messages(w.value.entries)) then Threw
    else if !adapter.tooLarge(Messages(w.value.entries)) then History(w.value.entries, false)
    else
      var compacted := adapter.compact(w.value.entries);
      if compacted.None? || !Accepted(Messages(compacted.value)) then Threw else History(compacted.value, true)
  }

  /** `persistCompaction` onto the wake run it seeds: the newest row of the newest wake. */
  function Persisted(log: seq<Row>, row: Row, entries: seq<ConversationEntry>): seq<Row> {
    log + [row.(kind := Compaction, payload := EntriesPayload(entries))]
  }

  // ---- the tail is enough ----

  lemma {:induction false} WalkAppend(w: Walk, a: seq<Row>, b: seq<Row>)
    ensures WalkFrom(w, a + b) == var mid := WalkFrom(w, a); if mid.None? then None else WalkFrom(mid.value, b)
    decreases |a|
  {
    if a == [] {
      assert a + b == b;
    } else {
      assert (a + b)[1..] == a[1..] + b;
      var next := Visit(w, a[0]);
      if next.Some? { WalkAppend(next.value, a[1..], b); }
    }
  }

  lemma {:induction false} FromIdAppend(a: seq<Row>, b: seq<Row>, id: nat)
    ensures FromId(a + b, id) == FromId(a, id) + FromId(b, id)
    decreases |a|
  {
    if a == [] {
      assert a + b == b && [] + FromId(b, id) == FromId(b, id);
    } else {
      var first := if a[0].id >= id then [a[0]] else [];
      assert (a + b)[1..] == a[1..] + b && (a + b)[0] == a[0];
      FromIdAppend(a[1..], b, id);
      assert first + (FromId(a[1..], id) + FromId(b, id)) == (first + FromId(a[1..], id)) + FromId(b, id);
    }
  }

  lemma {:induction false} FromIdAll(a: seq<Row>, id: nat)
    requires forall i :: 0 <= i < |a| ==> a[i].id >= id
    ensures FromId(a, id) == a
    decreases |a|
  {
    if a != [] {
      FromIdAll(a[1..], id);
      assert a == [a[0]] + a[1..];
    }
  }

  lemma {:induction false} FromIdKeepsRows(a: seq<Row>, id: nat)
    ensures forall row :: row in FromId(a, id) ==> row in a
    decreases |a|
  {
    if a != [] {
      FromIdKeepsRows(a[1..], id);
    }
  }

  lemma {:induction false} LastCompactionIs(log: seq<Row>)
    ensures forall i :: 0 <= i < |log| && log[i].kind.Compaction? ==> log[i].id <= LastCompactionId(log)
    ensures LastCompactionId(log) == 0 || exists i :: 0 <= i < |log| && log[i].kind.Compaction? && log[i].id == LastCompactionId(log)
    decreases |log|
  {
    if log != [] {
      LastCompactionIs(log[1..]);
      var rest := LastCompactionId(log[1..]);
      forall i | 0 <= i < |log| && log[i].kind.Compaction? ensures log[i].id <= LastCompactionId(log) {
        if i > 0 { assert log[i] == log[1..][i - 1]; }
      }
      if LastCompactionId(log) == rest && rest != 0 {
        var i :| 0 <= i < |log[1..]| && log[1..][i].kind.Compaction? && log[1..][i].id == rest;
        assert log[i + 1].id == rest;
      } else if LastCompactionId(log) != 0 {
        assert log[0].kind.Compaction? && log[0].id == LastCompactionId(log);
      }
    }
  }

  /** Rows that walk through from one state walk through from every other. */
  lemma {:induction false} WalkingDoesNotDependOnStart(w: Walk, v: Walk, rows: seq<Row>)
    ensures WalkFrom(w, rows).Some? <==> WalkFrom(v, rows).Some?
    decreases |rows|
  {
    if rows != [] {
      var next, other := Visit(w, rows[0]), Visit(v, rows[0]);
      if next.Some? { WalkingDoesNotDependOnStart(next.value, other.value, rows[1..]); }
    }
  }

  lemma {:induction false} FilteredWalks(w: Walk, v: Walk, rows: seq<Row>, id: nat)
    requires WalkFrom(w, rows).Some?
    ensures WalkFrom(v, FromId(rows, id)).Some?
    decreases |rows|
  {
    if rows != [] {
      var next := Visit(w, rows[0]);
      if rows[0].id >= id {
        var other := Visit(v, rows[0]);
        FilteredWalks(next.value, other.value, rows[1..], id);
        assert ([rows[0]] + FromId(rows[1..], id))[1..] == FromId(rows[1..], id);
      } else {
        FilteredWalks(next.value, v, rows[1..], id);
        assert [] + FromId(rows[1..], id) == FromId(rows[1..], id);
      }
    }
  }

  /** The walk restarts at a checkpoint, whatever came before it. */
  lemma {:induction false} CheckpointRestarts(before: seq<Row>, checkpoint: Row, after: seq<Row>)
    requires checkpoint.kind.Compaction? && WalkFrom(Start, before).Some?
    ensures WalkFrom(Start, before + [checkpoint] + after) == WalkFrom(Start, [checkpoint] + after)
  {
    assert before + [checkpoint] + after == before + ([checkpoint] + after);
    WalkAppend(Start, before, [checkpoint] + after);
    assert ([checkpoint] + after)[1..] == after;
  }

  /** The rows from the checkpoint's id on: some that precede it in wake order, then the checkpoint and all behind it. */
  lemma {:induction false} TailSplits(before: seq<Row>, checkpoint: Row, after: seq<Row>)
    requires forall i :: 0 <= i < |after| ==> after[i].id > checkpoint.id
    ensures FromId(before + [checkpoint] + after, checkpoint.id) == FromId(before, checkpoint.id) + [checkpoint] + after
  {
    assert before + [checkpoint] + after == before + ([checkpoint] + after);
    FromIdAppend(before, [checkpoint] + after, checkpoint.id);
    FromIdAll([checkpoint] + after, checkpoint.id);
  }

  lemma {:induction false} PrefixWalks(before: seq<Row>, checkpoint: Row, after: seq<Row>)
    requires WalkFrom(Start, before + [checkpoint] + after).Some?
    ensures WalkFrom(Start, before).Some?
  {
    assert before + [checkpoint] + after == before + ([checkpoint] + after);
    WalkAppend(Start, before, [checkpoint] + after);
  }

  lemma {:induction false} TailFromCheckpoint(before: seq<Row>, checkpoint: Row, after: seq<Row>)
    requires checkpoint.kind.Compaction? && WalkFrom(Start, before + [checkpoint] + after).Some?
    requires forall i :: 0 <= i < |after| ==> after[i].id > checkpoint.id
    ensures WalkFrom(Start, FromId(before + [checkpoint] + after, checkpoint.id)) == WalkFrom(Start, before + [checkpoint] + after)
  {
    PrefixWalks(before, checkpoint, after);
    FilteredWalks(Start, Start, before, checkpoint.id);
    TailSplits(before, checkpoint, after);
    CheckpointRestarts(before, checkpoint, after);
    CheckpointRestarts(FromId(before, checkpoint.id), checkpoint, after);
  }

  /**
   * Walking only the tail gives what walking the whole log gives, as soon as every row behind the last
   * checkpoint in wake order has a larger id than the checkpoint.
   */
  lemma {:induction false} TailIsEnough(log: seq<Row>)
    requires WalkFrom(Start, log).Some?
    requires forall i, j :: 0 <= i < j < |log| && log[i].id == LastCompactionId(log) ==> log[j].id > log[i].id
    ensures WalkFrom(Start, TailFromLastCompaction(log)) == WalkFrom(Start, log)
  {
    LastCompactionIs(log);
    if k :| 0 <= k < |log| && log[k].kind.Compaction? && log[k].id == LastCompactionId(log) {
      assert log == log[..k] + [log[k]] + log[k + 1..];
      TailFromCheckpoint(log[..k], log[k], log[k + 1..]);
    } else {
      FromIdAll(log, LastCompactionId(log));
    }
  }

  /** Strictly sequential wakes satisfy that condition, and then the tail really is one: it begins with the checkpoint. */
  lemma {:induction false} SequentialTailIsEnough(log: seq<Row>)
    requires WalkFrom(Start, log).Some? && Sequential(log)
    ensures WalkFrom(Start, TailFromLastCompaction(log)) == WalkFrom(Start, log)
  {
    TailIsEnough(log);
  }

  lemma {:induction false} SequentialTailBeginsAtCheckpoint(log: seq<Row>, k: nat)
    requires Sequential(log) && k < |log| && log[k].kind.Compaction? && log[k].id == LastCompactionId(log)
    ensures TailFromLastCompaction(log) == log[k..]
  {
    assert log == log[..k] + log[k..];
    FromIdSplits(log[..k], log[k..], log[k].id);
  }

  lemma {:induction false} FromIdSplits(a: seq<Row>, b: seq<Row>, id: nat)
    requires (forall i :: 0 <= i < |a| ==> a[i].id < id) && (forall i :: 0 <= i < |b| ==> b[i].id >= id)
    ensures FromId(a + b, id) == b
  {
    FromIdAppend(a, b, id);
    FromIdAll(b, id);
    FromIdNone(a, id);
  }

  lemma {:induction false} FromIdNone(a: seq<Row>, id: nat)
    requires forall i :: 0 <= i < |a| ==> a[i].id < id
    ensures FromId(a, id) == []
    decreases |a|
  {
    if a != [] {
      FromIdNone(a[1..], id);
    }
  }

  // ---- chains ----

  /** Each entry's parent is the entry before it, and sequence numbers are consecutive. */
  ghost predicate Chain(entries: seq<ConversationEntry>) {
    forall i :: 0 < i < |entries| ==> entries[i].parentId == Some(entries[i - 1].id) && entries[i].seqNo == entries[i - 1].seqNo + 1
  }

  ghost predicate Linked(w: Walk) {
    Chain(w.entries) && w == ResumeFrom(w.entries)
  }

  /** Checkpoints that are linked chains make every walk one linked chain. */
  lemma {:induction false} WalkIsChain(w: Walk, rows: seq<Row>)
    requires Linked(w)
    requires forall i :: 0 <= i < |rows| && rows[i].kind.Compaction? && rows[i].payload.EntriesPayload? ==> Chain(rows[i].payload.entries)
    ensures WalkFrom(w, rows).Some? ==> Linked(WalkFrom(w, rows).value)
    decreases |rows|
  {
    if rows != [] {
      var next := Visit(w, rows[0]);
      if next.Some? {
        assert Linked(next.value);
        forall i | 0 <= i < |rows[1..]| && rows[1..][i].kind.Compaction? && rows[1..][i].payload.EntriesPayload?
          ensures Chain(rows[1..][i].payload.entries)
        {
          assert rows[1..][i] == rows[i + 1];
        }
        WalkIsChain(next.value, rows[1..]);
      }
    }
  }

  /** A conversation without a checkpoint starts its chain at the root, sequence number 0. */
  lemma {:induction false} StoredChain(rows: seq<Row>)
    requires forall i :: 0 <= i < |rows| && rows[i].kind.Compaction? && rows[i].payload.EntriesPayload? ==> Chain(rows[i].payload.entries)
    requires WalkFrom(Start, rows).Some?
    ensures Chain(WalkFrom(Start, rows).value.entries)
  {
    WalkIsChain(Start, rows);
  }

  // ---- what a walk reads ----

  predicate IsMalformed(row: Row) {
    (row.kind.Compaction? && !row.payload.EntriesPayload?) || (row.kind.Conversational? && !row.payload.MessagePayload?)
  }

  /** A walk throws exactly when one of its rows is malformed, wherever it starts. */
  lemma {:induction false} WalkThrowsIff(w: Walk, rows: seq<Row>)
    ensures WalkFrom(w, rows).None? <==> exists i :: 0 <= i < |rows| && IsMalformed(rows[i])
    decreases |rows|
  {
    if rows != [] {
      var next := Visit(w, rows[0]);
      if next.Some? {
        WalkThrowsIff(next.value, rows[1..]);
        if i :| 0 <= i < |rows[1..]| && IsMalformed(rows[1..][i]) { assert IsMalformed(rows[i + 1]); }
        if i :| 0 <= i < |rows| && IsMalformed(rows[i]) { assert i > 0 && rows[1..][i - 1] == rows[i]; }
      } else {
        assert IsMalformed(rows[0]);
      }
    }
  }

  /** The rows that hold a message. */
  function Spoken(rows: seq<Row>): seq<Row> {
    if rows == [] then [] else (if rows[0].kind.Conversational? then [rows[0]] else []) + Spoken(rows[1..])
  }

  /** `entries` continues `before` with one entry per row, each naming its row, its time and its message. */
  ghost predicate Continues(before: seq<ConversationEntry>, entries: seq<ConversationEntry>, rows: seq<Row>) {
    && |entries| == |before| + |rows| && before <= entries
    && (forall i :: 0 <= i < |rows| ==>
          var entry := entries[|before| + i];
          entry.id == rows[i].id && entry.timestamp == rows[i].at
          && rows[i].payload.MessagePayload? && entry.message == rows[i].payload.message)
  }

  lemma {:induction false} WalkReadsRows(w: Walk, rows: seq<Row>)
    requires WalkFrom(w, rows).Some? && forall i :: 0 <= i < |rows| ==> !rows[i].kind.Compaction?
    ensures Continues(w.entries, WalkFrom(w, rows).value.entries, Spoken(rows))
    decreases |rows|
  {
    if rows != [] {
      var next := Visit(w, rows[0]).value;
      forall i | 0 <= i < |rows[1..]| ensures !rows[1..][i].kind.Compaction? { assert rows[1..][i] == rows[i + 1]; }
      WalkReadsRows(next, rows[1..]);
      if rows[0].kind.Conversational? {
        assert next.entries[|w.entries|].id == rows[0].id;
      } else {
        assert [] + Spoken(rows[1..]) == Spoken(rows[1..]);
      }
    }
  }

  /** The message rows of a conversation without a checkpoint are its entries, linked from the root on. */
  lemma {:induction false} PlainLogIsRead(rows: seq<Row>)
    requires WalkFrom(Start, rows).Some? && forall i :: 0 <= i < |rows| ==> !rows[i].kind.Compaction?
    ensures var entries := WalkFrom(Start, rows).value.entries;
            && Continues([], entries, Spoken(rows)) && Chain(entries)
            && (entries != [] ==> entries[0].seqNo == 0 && entries[0].parentId.None?)
  {
    WalkReadsRows(Start, rows);
    StoredChain(rows);
    RootStays(Start, rows);
  }

  predicate Rooted(w: Walk) {
    if w.entries == [] then w.seqNo == 0 && w.parentId.None? else w.entries[0].seqNo == 0 && w.entries[0].parentId.None?
  }

  lemma {:induction false} RootStays(w: Walk, rows: seq<Row>)
    requires Rooted(w) && forall i :: 0 <= i < |rows| ==> !rows[i].kind.Compaction?
    ensures WalkFrom(w, rows).Some? ==> Rooted(WalkFrom(w, rows).value)
    decreases |rows|
  {
    if rows != [] && Visit(w, rows[0]).Some? {
      forall i | 0 <= i < |rows[1..]| ensures !rows[1..][i].kind.Compaction? { assert rows[1..][i] == rows[i + 1]; }
      RootStays(Visit(w, rows[0]).value, rows[1..]);
    }
  }

  /** A checkpoint's entries come first, unchanged, and the message rows behind it continue its chain. */
  lemma {:induction false} CheckpointIsContinued(checkpoint: Row, after: seq<Row>)
    requires checkpoint.kind.Compaction? && checkpoint.payload.EntriesPayload? && Chain(checkpoint.payload.entries)
    requires WalkFrom(Start, [checkpoint] + after).Some? && forall i :: 0 <= i < |after| ==> !after[i].kind.Compaction?
    ensures var entries := WalkFrom(Start, [checkpoint] + after).value.entries;
            Continues(checkpoint.payload.entries, entries, Spoken(after)) && Chain(entries)
  {
    assert ([checkpoint] + after)[1..] == after;
    WalkReadsRows(ResumeFrom(checkpoint.payload.entries), after);
    WalkIsChain(ResumeFrom(checkpoint.payload.entries), after);
  }

  // ---- persisting a compaction ----

  lemma PersistedTail(log: seq<Row>, checkpoint: Row)
    requires checkpoint.kind.Compaction? && forall i :: 0 <= i < |log| ==> log[i].id < checkpoint.id
    ensures TailFromLastCompaction(log + [checkpoint]) == [checkpoint]
  {
    var after := log + [checkpoint];
    LastCompactionIs(after);
    assert after[|log|] == checkpoint;
    FromIdSplits(log, [checkpoint], checkpoint.id);
  }

  lemma CheckpointWalks(checkpoint: Row)
    requires checkpoint.kind.Compaction? && checkpoint.payload.EntriesPayload?
    ensures WalkFrom(Start, [checkpoint]) == Some(ResumeFrom(checkpoint.payload.entries))
  {
    assert [checkpoint][1..] == [];
  }

  /**
   * Reconstructing right after persisting valid entries returns exactly those entries, unless they are none or
   * are still too large.
   */
  lemma {:induction false} PersistedComesBack(log: seq<Row>, row: Row, entries: seq<ConversationEntry>, adapter: Adapter)
    requires Paired(Messages(entries)) && WalkFrom(Start, log).Some? && forall i :: 0 <= i < |log| ==> log[i].id < row.id
    ensures entries == [] ==> Reconstructed(Persisted(log, row, entries), adapter) == Nothing
    ensures entries != [] ==>
              (Reconstructed(Persisted(log, row, entries), adapter) == History(entries, false) <==> !adapter.tooLarge(Messages(entries)))
  {
    var checkpoint := row.(kind := Compaction, payload := EntriesPayload(entries));
    PersistedTail(log, checkpoint);
    CheckpointWalks(checkpoint);
    AcceptedIffPaired(Messages(entries));
  }

  /** What reconstruction hands on always obeys the tool protocol. */
  lemma ReconstructedIsPaired(log: seq<Row>, adapter: Adapter)
    requires Reconstructed(log, adapter).History?
    ensures Paired(Messages(Reconstructed(log, adapter).entries)) && Reconstructed(log, adapter).compacted ==
            adapter.tooLarge(Messages(WalkFrom(Start, TailFromLastCompaction(log)).value.entries))
  {
    AcceptedIffPaired(Messages(Reconstructed(log, adapter).entries));
  }

  // ---- repaired runs are accepted ----

  /** The messages of the rows a walk appends. */
  function RowMessages(rows: seq<Row>): seq<Message> {
    if rows == [] then []
    else (if rows[0].kind.Conversational? && rows[0].payload.MessagePayload? then [rows[0].payload.message] else []) + RowMessages(rows[1..])
  }

  lemma MessagesSnoc(entries: seq<ConversationEntry>, entry: ConversationEntry)
    ensures Messages(entries + [entry]) == Messages(entries) + [entry.message]
  {
  }

  lemma {:induction false} WalkMessages(w: Walk, rows: seq<Row>)
    requires WalkFrom(w, rows).Some? && forall i :: 0 <= i < |rows| ==> !rows[i].kind.Compaction?
    ensures Messages(WalkFrom(w, rows).value.entries) == Messages(w.entries) + RowMessages(rows)
    decreases |rows|
  {
    if rows == [] {
      assert Messages(w.entries) + [] == Messages(w.entries);
    } else {
      var next := Visit(w, rows[0]).value;
      forall i | 0 <= i < |rows[1..]| ensures !rows[1..][i].kind.Compaction? { assert rows[1..][i] == rows[i + 1]; }
      WalkMessages(next, rows[1..]);
      if rows[0].kind.Conversational? {
        MessagesSnoc(w.entries, next.entries[|w.entries|]);
        Reassociate(Messages(w.entries), [rows[0].payload.message], RowMessages(rows[1..]));
      } else {
        assert [] + RowMessages(rows[1..]) == RowMessages(rows[1..]);
      }
    }
  }

  /**
   * A checkpoint that obeys the protocol, followed by runs each of which was repaired from a log that was paired
   * or had one call open at its end, reconstructs to a history the validator accepts.
   */
  lemma {:induction false} RepairedHistoryIsAccepted(checkpoint: Row, after: seq<Row>, logs: seq<seq<Message>>)
    requires checkpoint.kind.Compaction? && checkpoint.payload.EntriesPayload? && Paired(Messages(checkpoint.payload.entries))
    requires forall i :: 0 <= i < |after| ==> !after[i].kind.Compaction?
    requires WalkFrom(Start, [checkpoint] + after).Some?
    requires forall i :: 0 <= i < |logs| ==> Paired(logs[i]) || OneOpenCall(logs[i])
    requires RowMessages(after) == Flatten(seq(|logs|, i requires 0 <= i < |logs| => Repaired(logs[i])))
    ensures Paired(Messages(WalkFrom(Start, [checkpoint] + after).value.entries))
  {
    RepairedRunsArePaired(logs);
    CheckpointThenRuns(checkpoint, after);
    PairedAppend(Messages(checkpoint.payload.entries), RowMessages(after));
  }

  lemma RepairedRunsArePaired(logs: seq<seq<Message>>)
    requires forall i :: 0 <= i < |logs| ==> Paired(logs[i]) || OneOpenCall(logs[i])
    ensures Paired(Flatten(seq(|logs|, i requires 0 <= i < |logs| => Repaired(logs[i]))))
  {
    var segments := seq(|logs|, i requires 0 <= i < |logs| => Repaired(logs[i]));
    forall i | 0 <= i < |segments| ensures Paired(segments[i]) { RepairedIsPairedIff(logs[i]); }
    SegmentsConcatenate(segments);
  }

  lemma {:induction false} CheckpointThenRuns(checkpoint: Row, after: seq<Row>)
    requires checkpoint.kind.Compaction? && checkpoint.payload.EntriesPayload?
    requires forall i :: 0 <= i < |after| ==> !after[i].kind.Compaction?
    requires WalkFrom(Start, [checkpoint] + after).Some?
    ensures Messages(WalkFrom(Start, [checkpoint] + after).value.entries) == Messages(checkpoint.payload.entries) + RowMessages(after)
  {
    assert ([checkpoint] + after)[1..] == after;
    WalkMessages(ResumeFrom(checkpoint.payload.entries), after);
  }
}
