/** What every execution of the protocol guarantees. */
module SyncTheorems {
  import opened Options
  import opened CacheStore
  import opened CacheStoreProperties
  import opened CacheTasks
  import opened TaskRuns
  import opened ClientMachine
  import opened SyncProtocol
  import opened SyncProtocolProofs
  import opened SyncProtocolClients

  // ---------- every execution keeps the invariant ----------

  lemma StartOk(key: ClientId -> TaskKey)
    ensures SysOk(Initial, key)
  {}

  lemma StepKeeps(s: Sys, p: Step, key: ClientId -> TaskKey, hash: Content -> string)
    requires SysOk(s, key) && Enabled(s, p, key)
    ensures SysOk(Perform(s, p, key, hash), key)
  {
    hide SysOk, CanServe, CanSendBatch, CanReceiveAck, CanEndStage, CanEndPush, CanFlush, CanReceiveFlushAck,
      CanSendLive, Served, AssignmentReceived, BatchSent, StageEnded, PushEnded, Flushed, FlushAcknowledged, ReportSent,
      WatchStarted, LiveSent, Current, WellPlanned, Take;
    match p {
      case ServerStep(e) => ServerStepKeeps(s, e, key, hash);
      case ReceiveAssignment(id) => ReceiveAssignmentKeeps(s, id, key);
      case ClientStep(c, m) => ClientStepKeeps(s, c, m, key);
      case MakePlan(id, stages, flags) => MakePlanKeeps(s, id, stages, flags, key);
      case SendBatch(id, b) => SendBatchKeeps(s, id, b, key);
      case ReceiveAck(id, n, rev) => ReceiveAckKeeps(s, id, n, rev, key);
      case EndStage(id) => EndStageKeeps(s, id, key);
      case EndPush(id) => EndPushKeeps(s, id, key);
      case FlushNothing(id) => FlushNothingKeeps(s, id, key);
      case FlushBuffered(id, b, cs) => FlushKeeps(s, id, b, cs, key);
      case ReceiveFlushAck(id, rev) => ReceiveFlushAckKeeps(s, id, rev, key);
      case Report(id) => ReportKeeps(s, id, key);
      case Watch(id) => WatchKeeps(s, id, key);
      case SendLive(c, b, cs) => SendLiveKeeps(s, c, b, cs, key);
      case ReceiveLiveAck(c, id, b, rev) => ReceiveLiveAckKeeps(s, c, id, b, rev, key);
    }
  }

  lemma {:induction false} ExecutionKeeps(ps: seq<Step>, key: ClientId -> TaskKey, hash: Content -> string)
    requires IsExecution(ps, key, hash)
    ensures SysOk(Reached(ps, key, hash), key)
    decreases |ps|
  {
    hide SysOk, Enabled, Perform;
    if ps == [] {
      StartOk(key);
    } else {
      ExecutionKeeps(ps[..|ps| - 1], key, hash);
      StepKeeps(Reached(ps[..|ps| - 1], key, hash), ps[|ps| - 1], key, hash);
    }
  }

  // ---------- ready means synced ----------

  /** A task that is ready has had every batch of the plan made under its assignment written under it, whole, and the
      flushed batch too unless all its changes were duplicates: whatever the network did, whoever else wrote. */
  lemma ReadyMeansSynced(ps: seq<Step>, key: ClientId -> TaskKey, hash: Content -> string, r: nat)
    requires IsExecution(ps, key, hash) && r in Reached(ps, key, hash).server.records
    requires Reached(ps, key, hash).server.records[r].task.phase == Ready
    ensures var s := Reached(ps, key, hash);
      var t := s.server.records[r].task;
      && t.assignment.Some? && t.assignment.value in s.jobs && t.active == Some(s.jobs[t.assignment.value].client)
      && var id, j := t.assignment.value, s.jobs[t.assignment.value];
      && (forall st, n :: 0 <= st < |j.stages| && 0 <= n < |j.stages[st]| ==> Logged(s, id, st, n))
      && (j.live.Some? ==> LoggedOrDropped(s, j.live.value))
  {
    ExecutionKeeps(ps, key, hash);
    ReadyRecord(Reached(ps, key, hash), key, r);
  }

  lemma ReadyRecord(s: Sys, key: ClientId -> TaskKey, r: nat)
    requires SysOk(s, key) && r in s.server.records && s.server.records[r].task.phase == Ready
    ensures var t := s.server.records[r].task;
      && t.assignment.Some? && t.assignment.value in s.jobs && t.active == Some(s.jobs[t.assignment.value].client)
      && var id, j := t.assignment.value, s.jobs[t.assignment.value];
      && HasReported(j) && j.stage == |j.stages|
      && (forall st, n :: 0 <= st < |j.stages| && 0 <= n < |j.stages[st]| ==> Logged(s, id, st, n))
      && (j.live.Some? ==> LoggedOrDropped(s, j.live.value))
  {
    hide Known, AckOk, BatchOk, DeltaOk, EntryOk, SoloOk, ReportOk, ClientOk, Logged, LoggedOrDropped, WellPlanned,
      SentOk, AckedOk, HonestRecord, HonestIssue, LogOk, Ordered;
    assert ReadyOk(s, r) && RecordOk(s.server, r);
    var id := s.server.records[r].task.assignment.value;
    assert JobOk(s, key, id);
  }

  /** A completion report never makes the server issue another assignment to its sender: the reported revision is at
      most the task's, under every network and any number of other writers. */
  lemma ResyncIsUnreachable(ps: seq<Step>, key: ClientId -> TaskKey, hash: Content -> string, r: nat, c: ClientId, id: AssignmentId,
                            base: nat, stored: bool, x: Context)
    requires IsExecution(ps, key, hash) && r in Reached(ps, key, hash).server.records
    requires (c, id, base) in Reached(ps, key, hash).reports
    ensures var t := Reached(ps, key, hash).server.records[r].task;
      && (HoldsAssignment(t, c, id) ==> base <= t.revision)
      && Complete(t, c, id, base, stored, x).assignment == t.assignment && Complete(t, c, id, base, stored, x).revision == t.revision
  {
    hide SysOk, IsExecution, Perform, Enabled;
    ExecutionKeeps(ps, key, hash);
    var s := Reached(ps, key, hash);
    ReportIsKnown(s, key, c, id, base);
    assert s.server.records[r].task.active == Some(c) ==> base <= s.server.records[r].task.revision;
  }

  lemma ReportIsKnown(s: Sys, key: ClientId -> TaskKey, c: ClientId, id: AssignmentId, base: nat)
    requires SysOk(s, key) && (c, id, base) in s.reports
    ensures Known(s.server, key, c, base)
  {
    hide Known, AckOk, BatchOk, DeltaOk, EntryOk, SoloOk, ClientOk, JobOk, ServerOk, ReadyOk;
    assert ReportOk(s, key, c, id, base);
  }

  // ---------- the log of one assignment ----------

  function IndexUnder(log: seq<LogEntry>, id: AssignmentId, i: nat): nat
    requires i <= |log|
  {
    |Under(log[..i], id)|
  }

  /** The entries under an assignment are the log's, in the log's order. */
  lemma {:induction false} UnderHolds(log: seq<LogEntry>, id: AssignmentId, i: nat)
    requires i < |log| && log[i].delta.assignmentId == id
    ensures IndexUnder(log, id, i) < |Under(log, id)| && Under(log, id)[IndexUnder(log, id, i)] == log[i]
  {
    var k := |log| - 1;
    if i < k {
      UnderHolds(log[..k], id, i);
      assert log[..k][..i] == log[..i];
    }
  }

  lemma {:induction false} UnderGrows(log: seq<LogEntry>, id: AssignmentId, i: nat, j: nat)
    requires i < j <= |log| && log[i].delta.assignmentId == id
    ensures IndexUnder(log, id, i) < IndexUnder(log, id, j)
  {
    UnderHolds(log[..j], id, i);
    assert log[..j][..i] == log[..i];
  }

  lemma {:induction false} UnderComesFrom(log: seq<LogEntry>, id: AssignmentId, k: nat) returns (i: nat)
    requires k < |Under(log, id)|
    ensures i < |log| && log[i] == Under(log, id)[k] && log[i].delta.assignmentId == id && IndexUnder(log, id, i) == k
  {
    var n := |log| - 1;
    if k < |Under(log[..n], id)| {
      i := UnderComesFrom(log[..n], id, k);
      assert log[..n][..i] == log[..i];
    } else {
      i := n;
    }
  }

  lemma {:induction false} WrittenConcat(a: seq<LogEntry>, b: seq<LogEntry>)
    ensures Written(a + b) == Written(a) + Written(b)
  {
    if b == [] {
      assert a + b == a;
    } else {
      assert (a + b)[..|a + b| - 1] == a + b[..|b| - 1];
      WrittenConcat(a, b[..|b| - 1]);
    }
  }

  // ---------- the batches of a plan ----------

  /** The plan's batches in the order they are sent. */
  function Flat(stages: seq<seq<seq<Change>>>): seq<seq<Change>> {
    if stages == [] then [] else Flat(stages[..|stages| - 1]) + stages[|stages| - 1]
  }

  function Concat(batches: seq<seq<Change>>): seq<Change> {
    if batches == [] then [] else Concat(batches[..|batches| - 1]) + batches[|batches| - 1]
  }

  lemma {:induction false} OffsetOfPrefix(stages: seq<seq<seq<Change>>>, n: nat, st: nat)
    requires st <= n <= |stages|
    ensures Offset(stages[..n], st) == Offset(stages, st)
  {
    if st > 0 { OffsetOfPrefix(stages, n, st - 1); }
  }

  lemma {:induction false} FlatLength(stages: seq<seq<seq<Change>>>)
    ensures |Flat(stages)| == Offset(stages, |stages|)
  {
    if stages != [] {
      var k := |stages| - 1;
      FlatLength(stages[..k]);
      OffsetOfPrefix(stages, k, k);
    }
  }

  lemma {:induction false} FlatAt(stages: seq<seq<seq<Change>>>, st: nat, n: nat)
    requires st < |stages| && n < |stages[st]|
    ensures Offset(stages, st) + n < |Flat(stages)| && Flat(stages)[Offset(stages, st) + n] == stages[st][n]
  {
    var k := |stages| - 1;
    FlatLength(stages[..k]);
    OffsetOfPrefix(stages, k, k);
    OffsetOfPrefix(stages, k, st);
    if st < k { FlatAt(stages[..k], st, n); }
  }

  lemma {:induction false} FlatFrom(stages: seq<seq<seq<Change>>>, k: nat) returns (st: nat, n: nat)
    requires k < |Flat(stages)|
    ensures st < |stages| && n < |stages[st]| && k == Offset(stages, st) + n
  {
    var l := |stages| - 1;
    FlatLength(stages[..l]);
    OffsetOfPrefix(stages, l, l);
    if k < |Flat(stages[..l])| {
      st, n := FlatFrom(stages[..l], k);
      OffsetOfPrefix(stages, l, st);
    } else {
      st, n := l, k - |Flat(stages[..l])|;
    }
  }

  lemma {:induction false} WrittenIsConcat(es: seq<LogEntry>, batches: seq<seq<Change>>)
    requires |es| == |batches| && forall k :: 0 <= k < |es| ==> es[k].written == batches[k]
    ensures Written(es) == Concat(batches)
  {
    if es != [] { WrittenIsConcat(es[..|es| - 1], batches[..|batches| - 1]); }
  }

  // ---------- the manifest of a solo assignment ----------

  /** Where an entry stands among those of its assignment is what its base says. */
  lemma EntryAt(s: Sys, key: ClientId -> TaskKey, id: AssignmentId, k: nat) returns (i: nat)
    requires SysOk(s, key) && id in s.solo && k < |Under(s.server.log, id)|
    ensures i < |s.server.log| && s.server.log[i] == Under(s.server.log, id)[k] && IndexUnder(s.server.log, id, i) == k
    ensures EntryOk(s, i) && BatchOk(s, s.server.log[i].delta.batchId) && s.server.log[i].delta.assignmentId == id
    ensures s.server.log[i].delta.baseRevision == s.server.issued[id].manifest.revision + k
  {
    hide Known, AckOk, BatchOk, ReportOk, ClientOk, JobOk, ServerOk, ReadyOk, ApplyChanges, Written, Under,
      FlushedBefore;
    i := UnderComesFrom(s.server.log, id, k);
    assert EntryOk(s, i) && SoloOk(s, id);
  }

  lemma SoloIsIssued(s: Sys, key: ClientId -> TaskKey, id: AssignmentId)
    requires SysOk(s, key) && id in s.solo
    ensures id in s.server.issued && SoloOk(s, id)
  {
    hide Known, AckOk, ReportOk, ClientOk, JobOk, ServerOk, ReadyOk, BatchOk, DeltaOk, EntryOk, SoloOk;
  }

  lemma EntryIsOk(s: Sys, key: ClientId -> TaskKey, i: nat)
    requires SysOk(s, key) && i < |s.server.log|
    ensures EntryOk(s, i) && BatchOk(s, s.server.log[i].delta.batchId)
  {
    hide Known, AckOk, ReportOk, ClientOk, ServerOk, ReadyOk, SoloOk, JobOk, PlanBatchOk, LiveBatchOk, FlushedBefore;
    assert EntryOk(s, i);
  }

  predicate IsPlanEntry(s: Sys, e: LogEntry) {
    e.delta.batchId in s.batches && s.batches[e.delta.batchId].PlanBatch?
  }

  /** An entry of a plan batch stands at the place its batch has in the plan. */
  lemma PlanEntryPlace(s: Sys, key: ClientId -> TaskKey, id: AssignmentId, k: nat)
    requires SysOk(s, key) && id in s.solo && id in s.jobs
    requires k < |Under(s.server.log, id)| && IsPlanEntry(s, Under(s.server.log, id)[k])
    ensures var x := s.batches[Under(s.server.log, id)[k].delta.batchId];
      && x.stage < |s.jobs[id].stages| && x.index < |s.jobs[id].stages[x.stage]| && k == Offset(s.jobs[id].stages, x.stage) + x.index
      && k < |Flat(s.jobs[id].stages)| && Under(s.server.log, id)[k].written == Flat(s.jobs[id].stages)[k]
  {
    hide Known, AckOk, ReportOk, ClientOk, JobOk, ServerOk, ReadyOk, ApplyChanges, Written, Under, FlushedBefore,
      SoloOk, Flat, SysOk;
    var i := EntryAt(s, key, id, k);
    SoloIsIssued(s, key, id);
    var x := s.batches[s.server.log[i].delta.batchId];
    FlatAt(s.jobs[id].stages, x.stage, x.index);
  }

  ghost predicate PlanIsLogged(s: Sys, id: AssignmentId)
    requires id in s.jobs
  {
    forall st, n :: 0 <= st < |s.jobs[id].stages| && 0 <= n < |s.jobs[id].stages[st]| ==> Logged(s, id, st, n)
  }

  /** Once all batches of the plan are written, they are the first entries of the assignment. */
  lemma PlanComesFirst(s: Sys, key: ClientId -> TaskKey, id: AssignmentId, k: nat)
    requires SysOk(s, key) && id in s.solo && id in s.jobs && k < |Flat(s.jobs[id].stages)| && PlanIsLogged(s, id)
    ensures k < |Under(s.server.log, id)| && IsPlanEntry(s, Under(s.server.log, id)[k])
    ensures Under(s.server.log, id)[k].written == Flat(s.jobs[id].stages)[k]
  {
    hide Under, Flat, SysOk;
    var log := s.server.log;
    var st, n := FlatFrom(s.jobs[id].stages, k);
    assert Logged(s, id, st, n);
    var i :| 0 <= i < |log| && IsEntryOf(s, i, id, st, n);
    UnderHolds(log, id, i);
    PlanEntryPlace(s, key, id, IndexUnder(log, id, i));
  }

  lemma LiveComesLater(s: Sys, key: ClientId -> TaskKey, id: AssignmentId, k: nat)
    requires SysOk(s, key) && id in s.solo && id in s.jobs && PlanIsLogged(s, id) && k < |Under(s.server.log, id)|
    ensures IsPlanEntry(s, Under(s.server.log, id)[k]) <==> k < |Flat(s.jobs[id].stages)|
  {
    hide Under, Flat, SysOk;
    if k < |Flat(s.jobs[id].stages)| { PlanComesFirst(s, key, id, k); }
    if IsPlanEntry(s, Under(s.server.log, id)[k]) { PlanEntryPlace(s, key, id, k); }
  }

  lemma EntryUnder(s: Sys, key: ClientId -> TaskKey, id: AssignmentId, i: nat)
    requires SysOk(s, key) && i < |s.server.log| && IsFlushOf(s, s.server.log[i].delta.batchId, id)
    ensures s.server.log[i].delta.assignmentId == id && IndexUnder(s.server.log, id, i) < |Under(s.server.log, id)|
    ensures !IsPlanEntry(s, Under(s.server.log, id)[IndexUnder(s.server.log, id, i)])
  {
    hide Under, SysOk, BatchOk, FlushedBefore;
    EntryIsOk(s, key, i);
    UnderHolds(s.server.log, id, i);
  }

  /** The client's buffer was flushed, and not all of it was duplicates. */
  predicate FlushWritten(s: Sys, id: AssignmentId)
    requires id in s.jobs
  {
    s.jobs[id].live.Some? && s.jobs[id].live.value !in s.dropped
  }

  /** The entry of the flushed batch: the buffered changes, without those whose mutation ids the record remembered. */
  predicate IsFlushEntry(s: Sys, id: AssignmentId, e: LogEntry)
    requires id in s.jobs
  {
    && s.jobs[id].live == Some(e.delta.batchId) && e.delta.changes == s.jobs[id].flushed
    && e.written == Unremembered(s.jobs[id].flushed, e.remembered)
  }

  /** No live batch has been sent under the assignment, except the flushed one. */
  predicate NoLiveSent(s: Sys, id: AssignmentId) {
    forall b :: b in s.batches && s.batches[b].LiveBatch? && s.batches[b].id == id ==> s.batches[b].flushed
  }

  /** The entries after the plan's are of live batches, without their duplicates; one that bears the name of the flushed
      batch is of that batch. */
  lemma LiveEntryIs(s: Sys, key: ClientId -> TaskKey, id: AssignmentId, k: nat)
    requires SysOk(s, key) && id in s.solo && id in s.jobs && PlanIsLogged(s, id)
    requires |Flat(s.jobs[id].stages)| <= k < |Under(s.server.log, id)|
    ensures var e := Under(s.server.log, id)[k];
      && e.written == Unremembered(e.delta.changes, e.remembered)
      && (NoLiveSent(s, id) || s.jobs[id].live == Some(e.delta.batchId) ==>
          IsFlushEntry(s, id, e) && e.delta.batchId !in s.dropped)
  {
    hide Under, Flat, SysOk, PlanIsLogged, FlushedBefore, Unremembered;
    var i := EntryAt(s, key, id, k);
    LiveComesLater(s, key, id, k);
    if s.jobs[id].live == Some(s.server.log[i].delta.batchId) { JobFlush(s, key, id); }
    if s.server.log[i].delta.batchId in s.dropped { DroppedIsOk(s, key, s.server.log[i].delta.batchId); }
  }

  lemma DroppedIsOk(s: Sys, key: ClientId -> TaskKey, b: string)
    requires SysOk(s, key) && b in s.dropped
    ensures DroppedOk(s, b)
  {
    hide Known, AckOk, ReportOk, ClientOk, JobOk, ServerOk, ReadyOk, BatchOk, DeltaOk, EntryOk, SoloOk, DroppedOk;
  }

  /** The flushed batch, if it was not dropped as duplicate, has an entry after the plan's. */
  lemma FlushIsWritten(s: Sys, key: ClientId -> TaskKey, id: AssignmentId) returns (k: nat)
    requires SysOk(s, key) && id in s.solo && id in s.jobs && PlanIsLogged(s, id)
    requires FlushWritten(s, id) && LoggedOrDropped(s, s.jobs[id].live.value)
    ensures |Flat(s.jobs[id].stages)| <= k < |Under(s.server.log, id)|
    ensures s.jobs[id].live == Some(Under(s.server.log, id)[k].delta.batchId)
  {
    hide Under, Flat, SysOk, IsPlanEntry, PlanIsLogged;
    var log, b := s.server.log, s.jobs[id].live.value;
    JobFlush(s, key, id);
    var f :| 0 <= f < |log| && log[f].delta.batchId == b;
    EntryUnder(s, key, id, f);
    k := IndexUnder(log, id, f);
    LiveComesLater(s, key, id, k);
    UnderHolds(log, id, f);
  }

  /** It comes right after the plan, unless an earlier sync of the client had set it to watching. */
  lemma FlushComesNext(s: Sys, key: ClientId -> TaskKey, id: AssignmentId)
    requires SysOk(s, key) && id in s.solo && id in s.jobs && PlanIsLogged(s, id)
    requires FlushWritten(s, id) && LoggedOrDropped(s, s.jobs[id].live.value) && (id !in s.raced || NoLiveSent(s, id))
    ensures var n := |Flat(s.jobs[id].stages)|;
      n < |Under(s.server.log, id)| && s.jobs[id].live == Some(Under(s.server.log, id)[n].delta.batchId)
  {
    hide Under, Flat, SysOk, IsPlanEntry, PlanIsLogged, PlanBatchOk, NoLiveSent;
    var n := |Flat(s.jobs[id].stages)|;
    var k := FlushIsWritten(s, key, id);
    var i := EntryAt(s, key, id, n);
    LiveComesLater(s, key, id, n);
    if NoLiveSent(s, id) { LiveEntryIs(s, key, id, n); } else { FirstLiveIsFlush(s, key, id, i); }
  }

  /** The first live entry is the flushed batch: the others are sent after it was acknowledged. */
  lemma FirstLiveIsFlush(s: Sys, key: ClientId -> TaskKey, id: AssignmentId, i: nat)
    requires SysOk(s, key) && id in s.solo && id in s.jobs && PlanIsLogged(s, id)
    requires FlushWritten(s, id) && id !in s.raced
    requires i < |s.server.log| && EntryOk(s, i) && BatchOk(s, s.server.log[i].delta.batchId)
    requires s.server.log[i].delta.assignmentId == id && IndexUnder(s.server.log, id, i) == |Flat(s.jobs[id].stages)|
    requires !IsPlanEntry(s, s.server.log[i])
    ensures s.jobs[id].live == Some(s.server.log[i].delta.batchId)
  {
    hide Under, Flat, SysOk, PlanIsLogged;
    var log, b := s.server.log, s.jobs[id].live.value;
    JobFlush(s, key, id);
    if FlushedBefore(s, b, i) {
      var f :| 0 <= f < i && f < |log| && log[f].delta.batchId == b;
      EntryUnder(s, key, id, f);
      UnderGrows(log, id, f, i);
      LiveComesLater(s, key, id, IndexUnder(log, id, f));
    }
  }

  /** When a task is ready and nobody else wrote the device's manifest since its assignment was issued, the manifest is
      the issued one with the plan's batches applied in order and then the live batches; each batch raised the revision by
      one, and the task is at the store's revision. */
  lemma ReadyManifest(ps: seq<Step>, key: ClientId -> TaskKey, hash: Content -> string, r: nat)
    requires IsExecution(ps, key, hash) && r in Reached(ps, key, hash).server.records
    requires Reached(ps, key, hash).server.records[r].task.phase == Ready
    requires Reached(ps, key, hash).server.records[r].task.assignment.Some?
    requires Reached(ps, key, hash).server.records[r].task.assignment.value in Reached(ps, key, hash).solo
    ensures var s := Reached(ps, key, hash);
      var id := s.server.records[r].task.assignment.value;
      id in s.jobs && id in s.server.issued && ManifestIs(s, id, r)
  {
    hide SysOk, IsExecution, Reached, ManifestIs;
    ExecutionKeeps(ps, key, hash);
    SoloManifest(Reached(ps, key, hash), key, r);
  }

  ghost predicate ManifestIs(s: Sys, id: AssignmentId, r: nat)
    requires id in s.jobs && id in s.server.issued && r in s.server.records
  {
    var issued, now := s.server.issued[id].manifest, TaskRuns.DiskOf(s.server, s.server.records[r].key.deviceId).manifest;
    var plan, w := Flat(s.jobs[id].stages), Under(s.server.log, id);
    && |plan| <= |w|
    && now.entries == ApplyChanges(ApplyChanges(issued.entries, Concat(plan)), Written(w[|plan|..]))
    && now.revision == issued.revision + |w| && s.server.records[r].task.revision == now.revision
    && (forall k :: |plan| <= k < |w| ==> IsLiveEntry(s, id, w[k]))
    && (FlushWritten(s, id) <==> exists k :: |plan| <= k < |w| && IsFlushEntry(s, id, w[k]))
    && (FlushWritten(s, id) && id !in s.raced ==> |plan| < |w| && IsFlushEntry(s, id, w[|plan|]))
    && (NoLiveSent(s, id) ==> |w| == |plan| + (if FlushWritten(s, id) then 1 else 0))
  }

  predicate IsLiveEntry(s: Sys, id: AssignmentId, e: LogEntry)
    requires id in s.jobs
  {
    && !IsPlanEntry(s, e) && e.written == Unremembered(e.delta.changes, e.remembered)
    && (s.jobs[id].live == Some(e.delta.batchId) ==> IsFlushEntry(s, id, e))
  }

  /** Before any other live batch is sent, exactly the flushed batch follows the plan, if there is one that was not all
      duplicates. */
  lemma OnlyFlushFollows(s: Sys, key: ClientId -> TaskKey, id: AssignmentId)
    requires SysOk(s, key) && id in s.solo && id in s.jobs && PlanIsLogged(s, id) && NoLiveSent(s, id)
    requires |Flat(s.jobs[id].stages)| <= |Under(s.server.log, id)|
    requires FlushWritten(s, id) ==> LoggedOrDropped(s, s.jobs[id].live.value)
    ensures |Under(s.server.log, id)| == |Flat(s.jobs[id].stages)| + (if FlushWritten(s, id) then 1 else 0)
  {
    hide Under, Flat, SysOk, PlanIsLogged, IsPlanEntry, FlushedBefore, NoLiveSent, LoggedOrDropped, Unremembered;
    var w, n := Under(s.server.log, id), |Flat(s.jobs[id].stages)|;
    if FlushWritten(s, id) { FlushComesNext(s, key, id); }
    if |w| > n { LiveEntryIs(s, key, id, n); }
    if |w| > n + 1 {
      LiveEntryIs(s, key, id, n + 1);
      FlushBase(s, key, id, n);
      FlushBase(s, key, id, n + 1);
    }
  }

  lemma FlushBase(s: Sys, key: ClientId -> TaskKey, id: AssignmentId, k: nat)
    requires SysOk(s, key) && id in s.solo && id in s.jobs && k < |Under(s.server.log, id)|
    requires s.jobs[id].live == Some(Under(s.server.log, id)[k].delta.batchId)
    ensures id in s.server.issued && s.jobs[id].live.value in s.batches
    ensures s.batches[s.jobs[id].live.value].base == s.server.issued[id].manifest.revision + k
  {
    hide Under, SysOk, FlushedBefore;
    var i := EntryAt(s, key, id, k);
    SoloIsIssued(s, key, id);
  }

  lemma SoloManifest(s: Sys, key: ClientId -> TaskKey, r: nat)
    requires SysOk(s, key) && r in s.server.records && s.server.records[r].task.phase == Ready
    requires s.server.records[r].task.assignment.Some? && s.server.records[r].task.assignment.value in s.solo
    ensures var id := s.server.records[r].task.assignment.value;
      id in s.jobs && id in s.server.issued && ManifestIs(s, id, r)
  {
    hide SysOk, Flat, Under, Written, ApplyChanges, IsPlanEntry, Offset, NoLiveSent, IsFlushEntry, FlushWritten;
    var id := s.server.records[r].task.assignment.value;
    ReadyRecord(s, key, r);
    SoloIsIssued(s, key, id);
    RecordOfIssue(s, key, id, r);
    var plan, w := Flat(s.jobs[id].stages), Under(s.server.log, id);
    assert |plan| <= |w| by { if |plan| > 0 { PlanComesFirst(s, key, id, |plan| - 1); } }
    PlanWritten(s, key, id);
    FlushPart(s, key, id);
  }

  /** The live part of the manifest. */
  lemma FlushPart(s: Sys, key: ClientId -> TaskKey, id: AssignmentId)
    requires SysOk(s, key) && id in s.solo && id in s.jobs && PlanIsLogged(s, id)
    requires |Flat(s.jobs[id].stages)| <= |Under(s.server.log, id)|
    requires s.jobs[id].live.Some? ==> LoggedOrDropped(s, s.jobs[id].live.value)
    ensures var plan, w := Flat(s.jobs[id].stages), Under(s.server.log, id);
      && (forall k :: |plan| <= k < |w| ==> IsLiveEntry(s, id, w[k]))
      && (FlushWritten(s, id) <==> exists k :: |plan| <= k < |w| && IsFlushEntry(s, id, w[k]))
      && (FlushWritten(s, id) && id !in s.raced ==> |plan| < |w| && IsFlushEntry(s, id, w[|plan|]))
      && (NoLiveSent(s, id) ==> |w| == |plan| + (if FlushWritten(s, id) then 1 else 0))
  {
    hide SysOk, Flat, Under, IsPlanEntry, NoLiveSent, Unremembered, PlanIsLogged, LoggedOrDropped;
    var plan, w := Flat(s.jobs[id].stages), Under(s.server.log, id);
    forall k | |plan| <= k < |w| ensures IsLiveEntry(s, id, w[k]) && (IsFlushEntry(s, id, w[k]) ==> FlushWritten(s, id)) {
      LiveComesLater(s, key, id, k);
      LiveEntryIs(s, key, id, k);
    }
    if NoLiveSent(s, id) { OnlyFlushFollows(s, key, id); }
    if FlushWritten(s, id) {
      var k := FlushIsWritten(s, key, id);
      LiveEntryIs(s, key, id, k);
      if id !in s.raced { FlushComesNext(s, key, id); LiveEntryIs(s, key, id, |plan|); }
    }
  }

  /** In the common case the manifest is the issued one, then the plan, then the buffered changes: when no live batch has
      been sent but the flushed one and the buffered changes carry no mutation ids. */
  lemma ReadyIsPlanAndFlush(ps: seq<Step>, key: ClientId -> TaskKey, hash: Content -> string, r: nat)
    requires IsExecution(ps, key, hash) && r in Reached(ps, key, hash).server.records
    requires Reached(ps, key, hash).server.records[r].task.phase == Ready
    requires Reached(ps, key, hash).server.records[r].task.assignment.Some?
    requires Reached(ps, key, hash).server.records[r].task.assignment.value in Reached(ps, key, hash).solo
    requires var s := Reached(ps, key, hash);
      var id := s.server.records[r].task.assignment.value;
      NoLiveSent(s, id) && (id in s.jobs ==> forall c :: c in s.jobs[id].flushed ==> MutationOf(c).None?)
    ensures var s := Reached(ps, key, hash);
      var id := s.server.records[r].task.assignment.value;
      && id in s.jobs && id in s.server.issued
      && var issued, now := s.server.issued[id].manifest, TaskRuns.DiskOf(s.server, s.server.records[r].key.deviceId).manifest;
      var j, plan := s.jobs[id], Flat(s.jobs[id].stages);
      && now.entries == ApplyChanges(ApplyChanges(issued.entries, Concat(plan)), if j.live.Some? then j.flushed else [])
      && now.revision == issued.revision + |plan| + (if j.live.Some? then 1 else 0)
  {
    hide SysOk, IsExecution, Reached, ManifestIs, NoLiveSent;
    ExecutionKeeps(ps, key, hash);
    ReadyManifest(ps, key, hash, r);
    PlainFlush(Reached(ps, key, hash), key, Reached(ps, key, hash).server.records[r].task.assignment.value, r);
  }

  lemma PlainFlush(s: Sys, key: ClientId -> TaskKey, id: AssignmentId, r: nat)
    requires SysOk(s, key) && id in s.jobs && id in s.server.issued && r in s.server.records && ManifestIs(s, id, r)
    requires NoLiveSent(s, id) && forall c :: c in s.jobs[id].flushed ==> MutationOf(c).None?
    ensures var issued, now := s.server.issued[id].manifest, TaskRuns.DiskOf(s.server, s.server.records[r].key.deviceId).manifest;
      var j, plan := s.jobs[id], Flat(s.jobs[id].stages);
      && now.entries == ApplyChanges(ApplyChanges(issued.entries, Concat(plan)), if j.live.Some? then j.flushed else [])
      && now.revision == issued.revision + |plan| + (if j.live.Some? then 1 else 0)
  {
    hide SysOk, Flat, Under, NoLiveSent, Unremembered, IsLiveEntry;
    var now := TaskRuns.DiskOf(s.server, s.server.records[r].key.deviceId).manifest;
    var plan, w := Flat(s.jobs[id].stages), Under(s.server.log, id);
    PlainIsNotDropped(s, key, id);
    if FlushWritten(s, id) {
      var k :| |plan| <= k < |w| && IsFlushEntry(s, id, w[k]);
      PlainPasses(s.jobs[id].flushed, w[k].remembered);
      assert w[|plan|..] == [w[k]];
      WrittenSnoc([], w[k]);
      assert [] + [w[k]] == [w[k]];
      assert Written([w[k]]) == s.jobs[id].flushed;
    } else {
      assert w[|plan|..] == [];
      assert ApplyChanges(now.entries, []) == now.entries;
    }
  }

  lemma PlainIsNotDropped(s: Sys, key: ClientId -> TaskKey, id: AssignmentId)
    requires SysOk(s, key) && id in s.jobs && forall c :: c in s.jobs[id].flushed ==> MutationOf(c).None?
    ensures FlushWritten(s, id) <==> s.jobs[id].live.Some?
  {
    hide SysOk, NotLogged, StillDropped;
    if s.jobs[id].live.Some? {
      JobFlush(s, key, id);
      assert s.jobs[id].flushed[0] in s.jobs[id].flushed;
      if s.jobs[id].live.value in s.dropped { DroppedIsOk(s, key, s.jobs[id].live.value); }
    }
  }

  lemma RecordOfIssue(s: Sys, key: ClientId -> TaskKey, id: AssignmentId, r: nat)
    requires SysOk(s, key) && r in s.server.records && s.server.records[r].task.assignment == Some(id)
    ensures id in s.server.issued && s.server.issued[id].record == r
  {
    hide Known, AckOk, ReportOk, ClientOk, JobOk, ReadyOk, BatchOk, DeltaOk, EntryOk, SoloOk, LogOk, Ordered,
      HonestIssue, HonestRecord;
    assert RecordOk(s.server, r);
  }

  lemma JobFlush(s: Sys, key: ClientId -> TaskKey, id: AssignmentId)
    requires SysOk(s, key) && id in s.jobs && s.jobs[id].live.Some?
    ensures IsFlushOf(s, s.jobs[id].live.value, id) && s.jobs[id].flushed != []
  {
    hide Known, AckOk, ReportOk, ClientOk, ServerOk, ReadyOk, BatchOk, DeltaOk, EntryOk, SoloOk, SentOk, WellPlanned,
      AckedOk, StagesLogged, LoggedOrDropped;
    assert JobOk(s, key, id);
  }

  lemma PlanWritten(s: Sys, key: ClientId -> TaskKey, id: AssignmentId)
    requires SysOk(s, key) && id in s.solo && id in s.jobs && id in s.server.issued && SoloOk(s, id) && PlanIsLogged(s, id)
    requires |Flat(s.jobs[id].stages)| <= |Under(s.server.log, id)|
    ensures var plan, w := Flat(s.jobs[id].stages), Under(s.server.log, id);
      TaskRuns.DiskOf(s.server, DeviceOf(s.server, id)).manifest.entries
      == ApplyChanges(ApplyChanges(s.server.issued[id].manifest.entries, Concat(plan)), Written(w[|plan|..]))
  {
    hide SysOk, Flat, Under, Written, ApplyChanges, IsPlanEntry, Offset, PlanIsLogged;
    var plan, w := Flat(s.jobs[id].stages), Under(s.server.log, id);
    forall k | 0 <= k < |plan| ensures w[k].written == plan[k] { PlanComesFirst(s, key, id, k); }
    WrittenIsConcat(w[..|plan|], plan);
    WrittenConcat(w[..|plan|], w[|plan|..]);
    assert w == w[..|plan|] + w[|plan|..];
    ApplyConcat(s.server.issued[id].manifest.entries, Concat(plan), Written(w[|plan|..]));
  }
}
