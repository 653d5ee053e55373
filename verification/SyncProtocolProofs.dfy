/** Every step of the protocol keeps its invariant. */
module SyncProtocolProofs {
  import opened Options
  import opened CacheStore
  import opened CacheTasks
  import opened CacheTaskProperties
  import opened TaskRuns
  import opened ClientMachine
  import opened SyncProtocol

  // ---------- server steps ----------

  /** Without mutation ids nothing is a duplicate. */
  lemma {:induction false} PlainPasses(cs: seq<Change>, ids: set<string>)
    requires forall c :: c in cs ==> MutationOf(c).None?
    ensures Unremembered(cs, ids) == cs
  {
    if cs != [] {
      var k := |cs| - 1;
      assert cs[k] in cs;
      PlainPasses(cs[..k], ids);
      assert cs == cs[..k] + [cs[k]];
    }
  }

  lemma PlainBatchPasses(t: Task, cs: seq<Change>)
    requires forall c :: c in cs ==> c.mutationId == None
    ensures FilterDuplicates(t, cs) == cs
  {
    PlainPasses(cs, t.recentIds);
  }

  lemma {:induction false} ApplyConcat(es: map<FileKey, CacheEntry>, a: seq<Change>, b: seq<Change>)
    ensures ApplyChanges(es, a + b) == ApplyChanges(ApplyChanges(es, a), b)
  {
    if b == [] {
      assert a + b == a;
    } else {
      assert (a + b)[..|a + b| - 1] == a + b[..|b| - 1];
      ApplyConcat(es, a, b[..|b| - 1]);
    }
  }

  /** The log only grows. */
  lemma LogStep(v: Server, e: Event, hash: Content -> string)
    requires Inv(v) && Possible(v, e)
    ensures v.log <= Next(v, e, hash).log
  {
    IssuedStep(v, e, hash);
  }

  lemma LoggedStays(s: Sys, t: Sys, id: AssignmentId, st: nat, n: nat)
    requires Logged(s, id, st, n) && s.server.log <= t.server.log && id in t.jobs && t.jobs[id].stages == s.jobs[id].stages
    requires forall b :: b in s.batches ==> b in t.batches && t.batches[b] == s.batches[b]
    ensures Logged(t, id, st, n)
  {
    var i :| 0 <= i < |s.server.log| && IsEntryOf(s, i, id, st, n);
    assert IsEntryOf(t, i, id, st, n);
  }

  lemma LoggedOrDroppedStays(s: Sys, t: Sys, b: string)
    requires LoggedOrDropped(s, b) && s.server.log <= t.server.log && s.dropped <= t.dropped
    ensures LoggedOrDropped(t, b)
  {
    if b !in s.dropped {
      var i :| 0 <= i < |s.server.log| && s.server.log[i].delta.batchId == b;
      assert t.server.log[i].delta.batchId == b;
    }
  }

  /** What stays true of the client side when only the server moves on. */
  ghost predicate ServerMoved(s: Sys, t: Sys, key: ClientId -> TaskKey) {
    && t.clients == s.clients && t.jobs == s.jobs && t.batches == s.batches && t.deltas == s.deltas && t.reports == s.reports
    && s.server.log <= t.server.log && s.dropped <= t.dropped
    && (forall c, rev :: Known(s.server, key, c, rev) ==> Known(t.server, key, c, rev))
    && (forall id :: id in s.server.issued ==> id in t.server.issued && t.server.issued[id] == s.server.issued[id])
    && t.solo * s.server.issued.Keys <= s.solo && t.raced == s.raced
  }

  lemma AckStays(s: Sys, t: Sys, key: ClientId -> TaskKey, c: ClientId, id: AssignmentId, b: string, rev: nat)
    requires ServerMoved(s, t, key) && AckOk(s, key, c, id, b, rev) && id in s.jobs && id in s.server.issued
    ensures AckOk(t, key, c, id, b, rev)
  {
    LoggedOrDroppedStays(s, t, b);
    if s.batches[b].PlanBatch? {
      assert Logged(s, id, s.batches[b].stage, s.batches[b].index);
      LoggedStays(s, t, id, s.batches[b].stage, s.batches[b].index);
    }
  }

  lemma JobStays(s: Sys, t: Sys, key: ClientId -> TaskKey, id: AssignmentId)
    requires ServerMoved(s, t, key) && id in s.jobs && JobOk(s, key, id)
    ensures JobOk(t, key, id)
  {
    hide Known, WellPlanned;
    var j := t.jobs[id];
    AckedStay(s, t, key, id, j);
    forall st, n | 0 <= st < j.stage && 0 <= n < |j.stages[st]| ensures Logged(t, id, st, n) {
      LoggedStays(s, t, id, st, n);
    }
    if HasFlushed(j) && j.live.Some? { LoggedOrDroppedStays(s, t, j.live.value); }
  }

  lemma AckedStay(s: Sys, t: Sys, key: ClientId -> TaskKey, id: AssignmentId, j: Job)
    requires ServerMoved(s, t, key) && id in s.jobs && id in s.server.issued && AckedOk(s, key, id, j)
    ensures AckedOk(t, key, id, j)
  {
    hide AckOk;
    forall n | n in j.acked && n < |j.sent| ensures AckOk(t, key, j.client, id, j.sent[n], j.acked[n]) {
      AckStays(s, t, key, j.client, id, j.sent[n], j.acked[n]);
    }
  }

  lemma SoloShrinks(s: Sys, e: Event, t: Server, id: AssignmentId)
    requires Possible(s.server, e) && id in SoloAfter(s, e, t) && id in s.server.issued
    ensures id in s.solo
    ensures e.OtherWrite? ==> DeviceOf(s.server, id) != e.deviceId
    ensures e.DeltaEvent? && |t.log| != |s.server.log| ==>
      id == e.delta.assignmentId || DeviceOf(s.server, id) != s.server.records[e.record].key.deviceId
  {}

  lemma AllKnownStay(v: Server, e: Event, key: ClientId -> TaskKey, hash: Content -> string)
    requires ServerOk(v, key) && HonestEvent(v, e, key)
    ensures forall c, rev :: Known(v, key, c, rev) ==> Known(Next(v, e, hash), key, c, rev)
  {
    hide Known, Next, ServerOk;
    forall c, rev | Known(v, key, c, rev) ensures Known(Next(v, e, hash), key, c, rev) {
      KnownStays(v, e, key, hash, c, rev);
    }
  }

  lemma ServerMoves(s: Sys, e: Event, key: ClientId -> TaskKey, hash: Content -> string)
    requires SysOk(s, key) && CanServe(s, e, key)
    ensures ServerMoved(s, Served(s, e, hash), key)
    ensures ServerOk(Next(s.server, e, hash), key)
  {
    hide Known, AckOk, BatchOk, ReadyOk, SoloOk, ClientOk, ReportOk, JobOk, DeltaOk, EntryOk, Next, Inv, FreshIssue,
      SameEntries, SoloAfter, HonestRecord, HonestIssue, ApplyDelta;
    var t := Served(s, e, hash);
    LogStep(s.server, e, hash);
    IssuedStep(s.server, e, hash);
    ServerStaysOk(s.server, e, key, hash);
    AllKnownStay(s.server, e, key, hash);
    forall id | id in t.solo && id in s.server.issued ensures id in s.solo { SoloShrinks(s, e, t.server, id); }
  }

  /** A record becomes ready only by a completion report for the assignment it holds. */
  lemma ReadyStep(v: Server, e: Event, hash: Content -> string, r: nat)
    requires Inv(v) && Possible(v, e) && r in Next(v, e, hash).records && Next(v, e, hash).records[r].task.phase == Ready
    ensures var u := Next(v, e, hash).records[r].task;
      || (r in v.records && v.records[r].task.phase == Ready && v.records[r].task.assignment == u.assignment)
      || (e.SectionEvent? && e.record == r && e.section.CompleteSection? && u.assignment == Some(e.section.id))
  {
    hide RecordsOk, DeadOk, LogsOk, Hello, RunSection, ApplyDelta;
    if r in v.records { RecordIsOk(v, r); }
    match e {
      case HelloEvent(k, c, n, id, now) =>
        var (v1, q) := GetOrCreate(v, k, n);
        if r == q {
          ReadyAfterHello(v1.records[q].task, c, Context(v.registry, TaskRuns.DiskOf(v, k.deviceId).manifest, id, now));
        }
      case SectionEvent(q, c, id, now) =>
        if r == q {
          ReadyAfterSection(v.records[q].task, c, Context(v.registry, TaskRuns.DiskOf(v, v.records[q].key.deviceId).manifest, id, now));
        }
      case DeltaEvent(q, c, d, allowed) =>
        if r == q { DeltaFence(v.records[r].task, c, d, TaskRuns.DiskOf(v, v.records[r].key.deviceId), hash, allowed); }
      case _ =>
    }
  }

  lemma ReadyAfterHello(t: Task, c: ClientId, x: Context)
    ensures Hello(t, c, x).phase == Ready ==> t.phase == Ready && Hello(t, c, x).assignment == t.assignment
  {}

  lemma ReadyAfterSection(t: Task, c: Section, x: Context)
    ensures RunSection(t, c, x).phase == Ready ==>
      || (t.phase == Ready && RunSection(t, c, x).assignment == t.assignment)
      || (c.CompleteSection? && RunSection(t, c, x).assignment == Some(c.id))
  {}

  lemma {:induction false} NoneUnder(log: seq<LogEntry>, id: AssignmentId)
    requires forall i :: 0 <= i < |log| ==> log[i].delta.assignmentId != id
    ensures Under(log, id) == []
  {
    if log != [] { NoneUnder(log[..|log| - 1], id); }
  }

  lemma UnderSnoc(log: seq<LogEntry>, e: LogEntry, id: AssignmentId)
    ensures Under(log + [e], id) == Under(log, id) + (if e.delta.assignmentId == id then [e] else [])
  {
    assert (log + [e])[..|log|] == log;
  }

  lemma WrittenSnoc(es: seq<LogEntry>, e: LogEntry)
    ensures Written(es + [e]) == Written(es) + e.written
  {
    assert (es + [e])[..|es|] == es;
  }

  /** Nothing is logged yet under an assignment that is not issued yet. */
  lemma UnissuedUnlogged(v: Server, id: AssignmentId)
    requires Inv(v) && id !in v.issued
    ensures Under(v.log, id) == []
  {
    hide RecordOk, Ordered, Under;
    forall i | 0 <= i < |v.log| ensures v.log[i].delta.assignmentId != id { assert LogOk(v, i); }
    NoneUnder(v.log, id);
  }

  /** A new assignment starts from the manifest as it is. */
  lemma SoloStarts(s: Sys, e: Event, key: ClientId -> TaskKey, hash: Content -> string, id: AssignmentId)
    requires SysOk(s, key) && CanServe(s, e, key)
    requires id in Next(s.server, e, hash).issued && id !in s.server.issued
    ensures SoloOk(Served(s, e, hash), id)
  {
    hide Known, AckOk, BatchOk, ReadyOk, ClientOk, ReportOk, DeltaOk, EntryOk, Next, HonestRecord, HonestIssue,
      SentOk, AckedOk, StagesLogged, FlushOk, JobShape, Inv, Under, ApplyDelta, SoloAfter;
    var v, w := s.server, Next(s.server, e, hash);
    IssuedStep(v, e, hash);
    NextKeeps(v, e, hash);
    assert FreshIssue(v, w, id);
    UnissuedUnlogged(v, id);
    RecordsStep(v, e, key, hash, w.issued[id].record);
    RecordIsOk(w, w.issued[id].record);
    assert SameEntries(v, w);
    assert id in s.jobs ==> JobOk(s, key, id);
  }

  // ---------- deltas ----------

  /** The new entry a written delta adds. */
  function EntryFor(v: Server, w: Server, e: Event): LogEntry
    requires e.DeltaEvent? && e.record in v.records && e.record in w.records
  {
    LogEntry(e.record, e.client, e.delta, v.records[e.record].task.recentIds,
             FilterDuplicates(v.records[e.record].task, e.delta.changes), w.records[e.record].task.revision)
  }

  /** A delta is written, or it changes no manifest and no log. */
  ghost predicate DeltaShape(v: Server, w: Server, e: Event)
    requires e.DeltaEvent? && e.record in v.records && e.record in w.records
  {
    var dev := v.records[e.record].key.deviceId;
    var m := TaskRuns.DiskOf(v, dev).manifest;
    && w.issued == v.issued && w.records.Keys == v.records.Keys
    && (forall q :: q in v.records && q != e.record ==> w.records[q] == v.records[q])
    && w.records[e.record].key == v.records[e.record].key
    && SameAssignment(v.records[e.record].task, w.records[e.record].task)
    && (forall d :: d != dev ==> TaskRuns.DiskOf(w, d) == TaskRuns.DiskOf(v, d))
    && (w.log == v.log ==> TaskRuns.DiskOf(w, dev).manifest == m && w.records[e.record].task.revision == v.records[e.record].task.revision)
    && (w.log != v.log ==> WrittenShape(v, w, e))
  }

  ghost predicate WrittenShape(v: Server, w: Server, e: Event)
    requires e.DeltaEvent? && e.record in v.records && e.record in w.records
  {
    var dev := v.records[e.record].key.deviceId;
    var t := v.records[e.record].task;
    && w.log == v.log + [EntryFor(v, w, e)]
    && HoldsAssignment(t, e.client, e.delta.assignmentId) && e.delta.baseRevision == t.revision
    && TaskRuns.DiskOf(w, dev).manifest == NextManifest(TaskRuns.DiskOf(v, dev).manifest, FilterDuplicates(t, e.delta.changes))
    && w.records[e.record].task.revision == TaskRuns.DiskOf(w, dev).manifest.revision
  }

  lemma DeltaSteps(v: Server, e: Event, hash: Content -> string)
    requires e.DeltaEvent? && e.record in v.records && RecordOk(v, e.record)
    ensures var w := Next(v, e, hash);
      && e.record in w.records && DeltaShape(v, w, e)
      && (Answer(v, e, hash).ack.Accepted? ==>
          && Answer(v, e, hash).ack == Accepted(e.delta.assignmentId, e.delta.batchId, w.records[e.record].task.revision)
          && HoldsAssignment(v.records[e.record].task, e.client, e.delta.assignmentId)
          && (w.log == v.log <==> FilterDuplicates(v.records[e.record].task, e.delta.changes) == []))
  {
    var t := v.records[e.record].task;
    var disk := TaskRuns.DiskOf(v, v.records[e.record].key.deviceId);
    DeltaFence(t, e.client, e.delta, disk, hash, e.allowed);
    var o := ApplyDelta(t, e.client, e.delta, disk, hash, e.allowed);
    var w := Next(v, e, hash);
    if o.applied != [] { assert w.log[|v.log|] == EntryFor(v, w, e); assert |w.log| != |v.log|; }
  }

  // ---------- solo assignments ----------

  /** A step that leaves a device's entries and the log of an assignment alone keeps the assignment solo. */
  lemma SoloStays(s: Sys, t: Sys, id: AssignmentId)
    requires id in s.server.issued && SoloOk(s, id) && t.jobs == s.jobs
    requires id in t.server.issued && t.server.issued[id] == s.server.issued[id]
    requires DeviceOf(t.server, id) == DeviceOf(s.server, id)
    requires Under(t.server.log, id) == Under(s.server.log, id)
    requires var r := s.server.issued[id].record;
      && r in s.server.records && r in t.server.records && RecordOk(t.server, r)
      && (t.server.records[r].task.assignment == Some(id) ==>
          s.server.records[r].task.assignment == Some(id) && t.server.records[r].task.revision >= s.server.records[r].task.revision)
    requires var d := DeviceOf(s.server, id);
      && TaskRuns.DiskOf(t.server, d).manifest.entries == TaskRuns.DiskOf(s.server, d).manifest.entries
      && TaskRuns.DiskOf(t.server, d).manifest.revision == TaskRuns.DiskOf(s.server, d).manifest.revision
    ensures SoloOk(t, id)
  {}

  /** A delta written under a solo assignment extends its entries by one. */
  lemma SoloGrows(s: Sys, t: Sys, e: Event)
    requires e.DeltaEvent? && e.record in s.server.records && e.record in t.server.records && t.jobs == s.jobs
    requires DeltaShape(s.server, t.server, e) && t.server.log != s.server.log
    requires RecordOk(s.server, e.record) && e.delta.assignmentId in s.server.issued && SoloOk(s, e.delta.assignmentId)
    ensures SoloOk(t, e.delta.assignmentId)
  {
    hide FilterDuplicates, ApplyChanges, Written, Under, NextManifest, Consistent, Offset;
    var v, w, id := s.server, t.server, e.delta.assignmentId;
    var entry := EntryFor(v, w, e);
    UnderSnoc(v.log, entry, id);
    SoloExtends(v.issued[id].manifest, TaskRuns.DiskOf(v, DeviceOf(v, id)).manifest, Under(v.log, id), entry,
      TaskRuns.DiskOf(w, DeviceOf(v, id)).manifest);
  }

  lemma SoloExtends(m0: Manifest, m: Manifest, w: seq<LogEntry>, e: LogEntry, m': Manifest)
    requires m.entries == ApplyChanges(m0.entries, Written(w)) && m.revision == m0.revision + |w|
    requires m' == NextManifest(m, e.written) && e.delta.baseRevision == m.revision && e.revision == m'.revision
    ensures m'.entries == ApplyChanges(m0.entries, Written(w + [e])) && m'.revision == m0.revision + |w + [e]|
    ensures (w + [e])[|w|].delta.baseRevision == m0.revision + |w| && (w + [e])[|w|].revision == m0.revision + |w| + 1
  {
    WrittenSnoc(w, e);
    ApplyConcat(m0.entries, Written(w), e.written);
  }

  lemma SoloAfterDelta(s: Sys, t: Sys, e: Event, id: AssignmentId)
    requires e.DeltaEvent? && e.record in s.server.records && e.record in t.server.records && t.jobs == s.jobs
    requires DeltaShape(s.server, t.server, e) && RecordOk(s.server, e.record) && id in s.server.issued && SoloOk(s, id)
    requires s.server.issued[id].record in s.server.records && RecordOk(t.server, s.server.issued[id].record)
    requires t.server.log == s.server.log || id == e.delta.assignmentId
      || DeviceOf(s.server, id) != s.server.records[e.record].key.deviceId
    ensures SoloOk(t, id)
  {
    if t.server.log != s.server.log && id == e.delta.assignmentId {
      SoloGrows(s, t, e);
    } else {
      if t.server.log != s.server.log { UnderSnoc(s.server.log, EntryFor(s.server, t.server, e), id); }
      SoloStays(s, t, id);
    }
  }

  lemma OtherWriteElsewhere(v: Server, e: Event, hash: Content -> string, d: string)
    requires e.OtherWrite? && Possible(v, e) && d != e.deviceId
    ensures var w := Next(v, e, hash);
      TaskRuns.DiskOf(w, d) == TaskRuns.DiskOf(v, d) && w.log == v.log && w.records == v.records && w.issued == v.issued
  {}

  /** A step that is neither a delta nor a write to its device leaves a solo assignment's facts alone. */
  lemma SoloAfterOther(s: Sys, t: Sys, e: Event, key: ClientId -> TaskKey, hash: Content -> string, id: AssignmentId)
    requires ServerOk(s.server, key) && HonestEvent(s.server, e, key) && id in s.server.issued && SoloOk(s, id)
    requires t.server == Next(s.server, e, hash) && t.jobs == s.jobs
    requires !e.DeltaEvent? && (e.OtherWrite? ==> DeviceOf(s.server, id) != e.deviceId)
    ensures id in t.server.issued && SoloOk(t, id)
  {
    hide SoloOk, Known, ApplyChanges, Written, Next, Inv, FreshIssue, HonestRecord;
    var r := s.server.issued[id].record;
    IssuedStep(s.server, e, hash);
    NextKeeps(s.server, e, hash);
    assert HonestIssue(s.server, key, id);
    RecordsStep(s.server, e, key, hash, r);
    RecordIsOk(s.server, r);
    RecordIsOk(t.server, r);
    if e.OtherWrite? { OtherWriteElsewhere(s.server, e, hash, DeviceOf(s.server, id)); }
    SoloStays(s, t, id);
  }

  lemma SoloAfterServerStep(s: Sys, e: Event, key: ClientId -> TaskKey, hash: Content -> string, id: AssignmentId)
    requires SysOk(s, key) && CanServe(s, e, key)
    requires id in Served(s, e, hash).solo
    ensures id in Next(s.server, e, hash).issued && SoloOk(Served(s, e, hash), id)
  {
    hide Known, AckOk, BatchOk, ReadyOk, ClientOk, ReportOk, JobOk, EntryOk, DeltaOk, SoloOk, Next, HonestRecord,
      HonestIssue, Inv, SoloAfter, ApplyDelta, SameAssignment;
    var v, t := s.server, Served(s, e, hash);
    if id !in v.issued {
      SoloIssued(s, e, t.server, id);
      SoloStarts(s, e, key, hash, id);
    } else {
      SoloShrinks(s, e, t.server, id);
      if e.DeltaEvent? { SoloAfterServedDelta(s, t, e, key, hash, id); } else {
        SoloAfterOther(s, t, e, key, hash, id);
      }
    }
  }

  lemma SoloAfterServedDelta(s: Sys, t: Sys, e: Event, key: ClientId -> TaskKey, hash: Content -> string, id: AssignmentId)
    requires ServerOk(s.server, key) && e.DeltaEvent? && Possible(s.server, e) && id in s.server.issued && SoloOk(s, id)
    requires t.server == Next(s.server, e, hash) && t.jobs == s.jobs
    requires |t.server.log| != |s.server.log| ==>
      id == e.delta.assignmentId || DeviceOf(s.server, id) != s.server.records[e.record].key.deviceId
    ensures id in t.server.issued && SoloOk(t, id)
  {
    hide Known, SoloOk, Next, HonestRecord, Inv, ApplyDelta, RecordOk;
    assert HonestIssue(s.server, key, id);
    RecordIsOk(s.server, e.record);
    DeltaSteps(s.server, e, hash);
    NextKeeps(s.server, e, hash);
    RecordIsOk(t.server, s.server.issued[id].record);
    SoloAfterDelta(s, t, e, id);
  }

  lemma SoloIssued(s: Sys, e: Event, t: Server, id: AssignmentId)
    requires Possible(s.server, e) && id in SoloAfter(s, e, t) && s.solo <= s.server.issued.Keys && id !in s.server.issued
    ensures id in t.issued
  {}

  // ---------- acks ----------

  /** What a delta writes is what was sent, when it belongs to a plan. */
  lemma NewEntryIsPlanned(s: Sys, t: Sys, e: Event, key: ClientId -> TaskKey)
    requires e.DeltaEvent? && e.record in s.server.records && e.record in t.server.records
    requires t.jobs == s.jobs && t.batches == s.batches && DeltaShape(s.server, t.server, e) && t.server.log != s.server.log
    requires DeltaOk(s, e.client, e.delta) && JobOk(s, key, e.delta.assignmentId) && s.batches[e.delta.batchId].PlanBatch?
    ensures t.server.log[|s.server.log|].written == e.delta.changes
    ensures IsEntryOf(t, |s.server.log|, e.delta.assignmentId, s.batches[e.delta.batchId].stage, s.batches[e.delta.batchId].index)
  {
    hide Known, SentOk, AckedOk, StagesLogged, FlushOk, FilterDuplicates, NextManifest;
    assert PlainBatch(e.delta.changes);
    PlainBatchPasses(s.server.records[e.record].task, e.delta.changes);
  }

  lemma NewEntryOk(s: Sys, t: Sys, e: Event, key: ClientId -> TaskKey)
    requires e.DeltaEvent? && e.record in s.server.records && e.record in t.server.records
    requires t.jobs == s.jobs && t.batches == s.batches && s.dropped <= t.dropped && t.raced == s.raced
    requires DeltaShape(s.server, t.server, e) && t.server.log != s.server.log
    requires DeltaOk(s, e.client, e.delta) && JobOk(s, key, e.delta.assignmentId) && BatchOk(s, e.delta.batchId)
    ensures EntryOk(t, |s.server.log|)
  {
    hide Known, SentOk, AckedOk, StagesLogged, JobShape, FilterDuplicates, NextManifest, Unremembered;
    FilterIs(s.server.records[e.record].task, e.delta.changes);
    if s.batches[e.delta.batchId].PlanBatch? {
      NewEntryIsPlanned(s, t, e, key);
    } else if IsLateLive(s, e.delta) && s.jobs[e.delta.assignmentId].live.Some? {
      FlushIsBefore(s, t, s.jobs[e.delta.assignmentId].live.value);
    }
  }

  lemma FlushIsBefore(s: Sys, t: Sys, b: string)
    requires LoggedOrDropped(s, b) && s.server.log <= t.server.log && s.dropped <= t.dropped
    ensures FlushedBefore(t, b, |s.server.log|)
  {
    if b !in s.dropped {
      var i :| 0 <= i < |s.server.log| && s.server.log[i].delta.batchId == b;
      assert t.server.log[i].delta.batchId == b;
    }
  }

  lemma EntryStays(s: Sys, t: Sys, i: nat)
    requires i < |s.server.log| && s.server.log <= t.server.log && s.dropped <= t.dropped
    requires t.jobs == s.jobs && t.batches == s.batches && t.raced == s.raced
    requires EntryOk(s, i)
    ensures EntryOk(t, i)
  {
    var e := s.server.log[i];
    if IsLateLive(s, e.delta) && s.jobs[e.delta.assignmentId].live.Some? {
      var b := s.jobs[e.delta.assignmentId].live.value;
      if b !in s.dropped {
        var k :| 0 <= k < i && k < |s.server.log| && s.server.log[k].delta.batchId == b;
        assert t.server.log[k].delta.batchId == b;
      }
    }
  }

  lemma NewAckOk(s: Sys, t: Sys, e: Event, key: ClientId -> TaskKey, hash: Content -> string)
    requires e.DeltaEvent? && e.record in s.server.records && e.record in t.server.records
    requires RecordOk(s.server, e.record) && DeltaOk(s, e.client, e.delta) && JobOk(s, key, e.delta.assignmentId)
    requires e.delta.assignmentId in s.solo ==> e.delta.assignmentId in s.server.issued && SoloOk(s, e.delta.assignmentId)
    requires ServerOk(t.server, key) && t.server == Next(s.server, e, hash)
    requires t.jobs == s.jobs && t.batches == s.batches && t.solo * s.server.issued.Keys <= s.solo
    requires Answer(s.server, e, hash).ack.Accepted?
    requires t.server.log == s.server.log ==> e.delta.batchId in t.dropped
    ensures AckOk(t, key, e.client, e.delta.assignmentId, e.delta.batchId, Answer(s.server, e, hash).ack.appliedRevision)
  {
    var v, d := s.server, e.delta;
    DeltaSteps(v, e, hash);
    HolderKnows(t.server, key, e.record, e.client);
    if t.server.log != v.log {
      assert t.server.log[|v.log|].delta.batchId == d.batchId;
      if s.batches[d.batchId].PlanBatch? { NewEntryIsPlanned(s, t, e, key); }
    }
    if s.batches[d.batchId].PlanBatch? {
      assert PlainBatch(d.changes);
      PlainBatchPasses(v.records[e.record].task, d.changes);
    }
  }

  // ---------- the invariant after a server step ----------

  lemma ClientSideStays(s: Sys, t: Sys, key: ClientId -> TaskKey)
    requires SysOk(s, key) && ServerMoved(s, t, key)
    ensures (forall c :: ClientOk(t, key, c)) && (forall id :: id in t.jobs ==> JobOk(t, key, id))
    ensures (forall b :: b in t.batches ==> BatchOk(t, b)) && (forall c, d :: (c, d) in t.deltas ==> DeltaOk(t, c, d))
    ensures forall c, id, base :: (c, id, base) in t.reports ==> ReportOk(t, key, c, id, base)
  {
    hide Known, ServerOk, EntryOk, ReadyOk, SoloOk, Offset, AckOk;
    forall c ensures ClientOk(t, key, c) { assert ClientOk(s, key, c); }
    forall id | id in t.jobs ensures JobOk(t, key, id) { JobStays(s, t, key, id); }
    forall b | b in t.batches ensures BatchOk(t, b) { assert BatchOk(s, b) && JobOk(s, key, s.batches[b].id); }
    forall c, d | (c, d) in t.deltas ensures DeltaOk(t, c, d) { assert DeltaOk(s, c, d); }
    forall c, id, base | (c, id, base) in t.reports ensures ReportOk(t, key, c, id, base) {
      assert ReportOk(s, key, c, id, base);
    }
  }

  lemma OldAcksStay(s: Sys, t: Sys, key: ClientId -> TaskKey)
    requires SysOk(s, key) && ServerMoved(s, t, key)
    ensures forall c, id, b, rev :: (c, Accepted(id, b, rev)) in s.acks ==> AckOk(t, key, c, id, b, rev)
  {
    hide Known, ServerOk, EntryOk, ReadyOk, SoloOk, ClientOk, ReportOk, DeltaOk, LoggedOrDropped, PlanAckOk;
    forall c, id, b, rev | (c, Accepted(id, b, rev)) in s.acks ensures AckOk(t, key, c, id, b, rev) {
      assert AckOk(s, key, c, id, b, rev) && BatchOk(s, b) && JobOk(s, key, id);
      AckStays(s, t, key, c, id, b, rev);
    }
  }

  /** Only written deltas lengthen the log. */
  lemma OnlyDeltasLog(v: Server, e: Event, hash: Content -> string)
    requires Inv(v) && Possible(v, e) && Next(v, e, hash).log != v.log
    ensures e.DeltaEvent?
  {
    IssuedStep(v, e, hash);
  }

  lemma EntriesStay(s: Sys, t: Sys, e: Event, key: ClientId -> TaskKey, hash: Content -> string)
    requires Inv(s.server) && Possible(s.server, e) && t.server == Next(s.server, e, hash)
    requires t.jobs == s.jobs && t.batches == s.batches && s.dropped <= t.dropped && t.raced == s.raced
    requires forall i :: 0 <= i < |s.server.log| ==> EntryOk(s, i)
    requires e.DeltaEvent? ==> DeltaServed(s, e, key)
    ensures forall i :: 0 <= i < |t.server.log| ==> EntryOk(t, i)
  {
    hide BatchOk, Next, EntryOk, RecordOk, JobOk, DeltaOk, Inv, Possible;
    LogStep(s.server, e, hash);
    if t.server.log != s.server.log {
      OnlyDeltasLog(s.server, e, hash);
      DeltaSteps(s.server, e, hash);
      NewEntryOk(s, t, e, key);
      NewLogLength(s.server, t.server, e);
    }
    forall i | 0 <= i < |t.server.log| ensures EntryOk(t, i) {
      if i < |s.server.log| { EntryStays(s, t, i); }
    }
  }

  ghost predicate DeltaServed(s: Sys, e: Event, key: ClientId -> TaskKey)
    requires e.DeltaEvent?
  {
    && e.record in s.server.records && RecordOk(s.server, e.record) && DeltaOk(s, e.client, e.delta)
    && JobOk(s, key, e.delta.assignmentId) && BatchOk(s, e.delta.batchId)
  }

  lemma DeltaIsServed(s: Sys, e: Event, key: ClientId -> TaskKey)
    requires SysOk(s, key) && CanServe(s, e, key) && e.DeltaEvent?
    ensures DeltaServed(s, e, key)
  {
    hide Known, AckOk, BatchOk, ReadyOk, SoloOk, ClientOk, ReportOk, EntryOk, JobOk, HonestRecord, HonestIssue, LogOk,
      Ordered;
    assert RecordOk(s.server, e.record) && DeltaOk(s, e.client, e.delta);
  }

  lemma NewLogLength(v: Server, w: Server, e: Event)
    requires e.DeltaEvent? && e.record in v.records && e.record in w.records && DeltaShape(v, w, e) && w.log != v.log
    ensures |w.log| == |v.log| + 1
  {
    hide FilterDuplicates, NextManifest, SameAssignment;
  }

  lemma AcksStay(s: Sys, e: Event, key: ClientId -> TaskKey, hash: Content -> string)
    requires SysOk(s, key) && CanServe(s, e, key) && e.DeltaEvent? && Answer(s.server, e, hash).ack.Accepted?
    ensures AckOk(Served(s, e, hash), key, e.client, e.delta.assignmentId, e.delta.batchId,
               Answer(s.server, e, hash).ack.appliedRevision)
  {
    hide Known, AckOk, BatchOk, ReadyOk, SoloOk, ClientOk, ReportOk, JobOk, DeltaOk, EntryOk, Next, SoloAfter, Inv,
      HonestRecord, HonestIssue, ApplyDelta;
    var t := Served(s, e, hash);
    ServerMoves(s, e, key, hash);
    DeltaIsServed(s, e, key);
    JobIsIssued(s, e, key);
    DeltaSteps(s.server, e, hash);
    DroppedWhenUnwritten(s.server, e, hash);
    NewAckOk(s, t, e, key, hash);
  }

  lemma JobIsIssued(s: Sys, e: Event, key: ClientId -> TaskKey)
    requires e.DeltaEvent? && DeltaServed(s, e, key)
    ensures e.delta.assignmentId in s.server.issued
  {}

  lemma DroppedWhenUnwritten(v: Server, e: Event, hash: Content -> string)
    requires e.DeltaEvent? && e.record in v.records && RecordOk(v, e.record)
    ensures Next(v, e, hash).log == v.log <==> Answer(v, e, hash).applied == []
  {
    if Answer(v, e, hash).applied != [] { assert |Next(v, e, hash).log| == |v.log| + 1; }
  }

  lemma ReadyStays(s: Sys, e: Event, key: ClientId -> TaskKey, hash: Content -> string, r: nat)
    requires SysOk(s, key) && CanServe(s, e, key) && r in Next(s.server, e, hash).records
    ensures ReadyOk(Served(s, e, hash), r)
  {
    hide Known, AckOk, BatchOk, ClientOk, JobOk, EntryOk, DeltaOk, SoloOk, Next, HonestRecord, HonestIssue, Inv,
      SoloAfter, ApplyDelta;
    var w := Next(s.server, e, hash);
    NextKeeps(s.server, e, hash);
    RecordIsOk(w, r);
    if w.records[r].task.phase == Ready {
      ReadyStep(s.server, e, hash, r);
      if r in s.server.records { assert ReadyOk(s, r); }
      if e.SectionEvent? && e.section.CompleteSection? {
        assert ReportOk(s, key, e.section.client, e.section.id, e.section.baseRevision);
      }
    }
  }

  // ---------- dropped batches ----------

  /** While a record keeps assignment and revision, it remembers the same ids. */
  lemma WindowStep(v: Server, e: Event, hash: Content -> string, r: nat)
    requires Inv(v) && Possible(v, e) && r in v.records && r in Next(v, e, hash).records
    ensures var t, u := v.records[r].task, Next(v, e, hash).records[r].task;
      u.revision == t.revision ==> u.recentIds == t.recentIds
  {
    hide Hello, RunSection, ApplyDelta, RecordsOk, DeadOk, LogsOk;
    match e {
      case HelloEvent(k, c, n, id, now) =>
        var (v1, q) := GetOrCreate(v, k, n);
        HelloKeepsWindow(v1.records[q].task, c, Context(v.registry, TaskRuns.DiskOf(v, k.deviceId).manifest, id, now));
      case SectionEvent(q, c, id, now) =>
        SectionKeepsWindow(v.records[q].task, c,
          Context(v.registry, TaskRuns.DiskOf(v, v.records[q].key.deviceId).manifest, id, now));
      case DeltaEvent(q, c, d, allowed) =>
        RecordIsOk(v, r);
        if r == q { DeltaFence(v.records[r].task, c, d, TaskRuns.DiskOf(v, v.records[r].key.deviceId), hash, allowed); }
      case _ =>
    }
  }

  /** What is written is not all remembered. */
  lemma WrittenIsNotRemembered(v: Server, e: Event, hash: Content -> string)
    requires e.DeltaEvent? && e.record in v.records && RecordOk(v, e.record) && Next(v, e, hash).log != v.log
    ensures FilterDuplicates(v.records[e.record].task, e.delta.changes) != []
  {
    hide ApplyDelta, FilterDuplicates;
    DroppedWhenUnwritten(v, e, hash);
    DeltaFence(v.records[e.record].task, e.client, e.delta, TaskRuns.DiskOf(v, v.records[e.record].key.deviceId), hash, e.allowed);
  }

  /** A batch dropped before is not written now. */
  lemma DroppedStaysUnlogged(s: Sys, t: Sys, e: Event, hash: Content -> string, key: ClientId -> TaskKey, b: string)
    requires Inv(s.server) && Possible(s.server, e) && t.server == Next(s.server, e, hash)
    requires b in s.batches && s.batches[b].id in s.jobs && IsFlushOf(s, b, s.batches[b].id) && DroppedOk(s, b)
    requires e.DeltaEvent? ==> DeltaServed(s, e, key)
    ensures NotLogged(t.server, b)
  {
    hide Next, Inv, RecordOk, JobOk, BatchOk, FilterDuplicates, Possible;
    LogStep(s.server, e, hash);
    if t.server.log != s.server.log {
      OnlyDeltasLog(s.server, e, hash);
      DeltaSteps(s.server, e, hash);
      WrittenIsNotRemembered(s.server, e, hash);
      NewLogLength(s.server, t.server, e);
      assert StillDropped(s, b, e.record);
      FilterIs(s.server.records[e.record].task, e.delta.changes);
    }
  }

  lemma DroppedStays(s: Sys, t: Sys, e: Event, hash: Content -> string, key: ClientId -> TaskKey, b: string)
    requires ServerOk(s.server, key) && HonestEvent(s.server, e, key) && t.server == Next(s.server, e, hash)
    requires t.jobs == s.jobs && t.batches == s.batches && DroppedOk(s, b)
    requires s.batches[b].id in s.server.issued
    requires e.DeltaEvent? ==> DeltaServed(s, e, key)
    ensures DroppedOk(t, b)
  {
    hide Next, Inv, RecordOk, JobOk, BatchOk, DeltaServed, HonestRecord, HonestIssue, NotLogged;
    if IsFlushOf(s, b, s.batches[b].id) {
      DroppedStaysUnlogged(s, t, e, hash, key, b);
      forall r | r in t.server.records ensures StillDropped(t, b, r) {
        RecordsStep(s.server, e, key, hash, r);
        NextKeeps(s.server, e, hash);
        RecordIsOk(t.server, r);
        ActiveIfAssigned(t.server, r);
        if r in s.server.records {
          WindowStep(s.server, e, hash, r);
          assert StillDropped(s, b, r);
        }
      }
    }
  }

  lemma ActiveIfAssigned(v: Server, r: nat)
    requires r in v.records && RecordOk(v, r)
    ensures v.records[r].task.assignment.Some? ==> v.records[r].task.active.Some?
  {}

  /** What is remembered whole consists of changes with mutation ids. */
  lemma {:induction false} RememberedIsIdentified(cs: seq<Change>, ids: set<string>)
    requires Unremembered(cs, ids) == []
    ensures AllIdentified(cs)
  {
    if cs != [] {
      var k := |cs| - 1;
      RememberedIsIdentified(cs[..k], ids);
      assert cs == cs[..k] + [cs[k]];
    }
  }

  /** A flushed batch that is dropped now was not written before, since then the record would be past its base. */
  lemma DroppedNow(s: Sys, t: Sys, e: Event, hash: Content -> string, key: ClientId -> TaskKey)
    requires Inv(s.server) && e.DeltaEvent? && DeltaServed(s, e, key) && t.server == Next(s.server, e, hash)
    requires t.jobs == s.jobs && t.batches == s.batches && forall i :: 0 <= i < |s.server.log| ==> EntryOk(s, i)
    requires Answer(s.server, e, hash).ack.Accepted? && Answer(s.server, e, hash).applied == []
    ensures DroppedOk(t, e.delta.batchId)
  {
    hide ApplyDelta, RecordsOk, DeadOk, LiveOk, JobOk, BatchOk;
    var v, b, r := s.server, e.delta.batchId, e.record;
    DeltaFence(v.records[r].task, e.client, e.delta, TaskRuns.DiskOf(v, v.records[r].key.deviceId), hash, e.allowed);
    FilterIs(v.records[r].task, e.delta.changes);
    RememberedIsIdentified(e.delta.changes, v.records[r].task.recentIds);
    assert t.server.records == v.records && t.server.log == v.log;
    forall i | 0 <= i < |v.log| ensures v.log[i].delta.batchId != b { assert EntryOk(s, i) && LogOk(v, i); }
    forall q | q in t.server.records ensures q == r || v.records[q].task.assignment != Some(e.delta.assignmentId) {
      RecordIsOk(v, q);
    }
  }

  lemma DroppedIsIssued(s: Sys, key: ClientId -> TaskKey, b: string)
    requires SysOk(s, key) && b in s.dropped
    ensures DroppedOk(s, b) && s.batches[b].id in s.server.issued
  {
    hide Known, ServerOk, AckOk, BatchOk, ReadyOk, SoloOk, ClientOk, ReportOk, DeltaOk, EntryOk, JobShape, SentOk, AckedOk,
      StagesLogged, FlushOk;
    assert DroppedOk(s, b) && JobOk(s, key, s.batches[b].id);
  }

  lemma DroppedAfterServerStep(s: Sys, e: Event, key: ClientId -> TaskKey, hash: Content -> string, b: string)
    requires SysOk(s, key) && CanServe(s, e, key) && b in Served(s, e, hash).dropped
    ensures DroppedOk(Served(s, e, hash), b)
  {
    hide Known, AckOk, ReadyOk, SoloOk, ClientOk, ReportOk, DeltaOk, EntryOk, Next, SoloAfter, Inv, HonestRecord, HonestIssue,
      DeltaServed, DroppedOk, PlanBatchOk, LiveBatchOk, ApplyDelta;
    var t := Served(s, e, hash);
    if e.DeltaEvent? { DeltaIsServed(s, e, key); }
    if b in s.dropped {
      DroppedIsIssued(s, key, b);
      DroppedStays(s, t, e, hash, key, b);
    } else {
      DroppedNow(s, t, e, hash, key);
    }
  }

  lemma ServerStepKeeps(s: Sys, e: Event, key: ClientId -> TaskKey, hash: Content -> string)
    requires SysOk(s, key) && CanServe(s, e, key)
    ensures SysOk(Served(s, e, hash), key)
  {
    hide Known, AckOk, BatchOk, ReadyOk, SoloOk, ClientOk, ReportOk, JobOk, DeltaOk, EntryOk, Next, SoloAfter, Inv,
      HonestRecord, HonestIssue, DeltaServed, DroppedOk;
    var t := Served(s, e, hash);
    ServerMoves(s, e, key, hash);
    ClientSideStays(s, t, key);
    OldAcksStay(s, t, key);
    if e.DeltaEvent? { DeltaIsServed(s, e, key); }
    EntriesStay(s, t, e, key, hash);
    forall c, id, b, rev | (c, Accepted(id, b, rev)) in t.acks ensures AckOk(t, key, c, id, b, rev) {
      if (c, Accepted(id, b, rev)) !in s.acks { AcksStay(s, e, key, hash); }
    }
    forall r | r in t.server.records ensures ReadyOk(t, r) { ReadyStays(s, e, key, hash, r); }
    forall id | id in t.solo ensures id in t.server.issued && SoloOk(t, id) {
      SoloAfterServerStep(s, e, key, hash, id);
    }
    forall b | b in t.dropped ensures DroppedOk(t, b) { DroppedAfterServerStep(s, e, key, hash, b); }
  }
}
