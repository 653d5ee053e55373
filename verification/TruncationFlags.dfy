/** What the manifest says about truncation, traced back to the plans that were made. */
module TruncationFlags {
  import opened Options
  import opened CacheStore
  import opened CacheTasks
  import opened CacheTaskProperties
  import opened TaskRuns
  import opened ClientMachine
  import opened SyncProtocol
  import opened SyncTheorems
  import opened Walk
  import opened Mirror
  import SyncProtocolProofs
  import SectionMeanings
  import R = Reconcile

  /** A completion report of the record's holder, not ahead of its task, whose flags are stored. */
  predicate IsStoredReport(v: Server, e: Event) {
    && e.SectionEvent? && e.section.CompleteSection? && e.section.stored && e.record in v.records
    && var t := v.records[e.record].task;
    t.active == Some(e.section.client) && t.assignment == Some(e.section.id) && e.section.baseRevision <= t.revision
  }

  /** The assignment whose report was the last to be stored for the device, if nobody else has written its manifest since. */
  ghost function LastReport(ps: seq<Step>, dev: string, key: ClientId -> TaskKey, hash: Content -> string): Option<AssignmentId>
    requires IsExecution(ps, key, hash)
    decreases |ps|
  {
    if ps == [] then None
    else
      var before, p := ps[..|ps| - 1], ps[|ps| - 1];
      var v := Reached(before, key, hash).server;
      if p.ServerStep? && IsStoredReport(v, p.event) && v.records[p.event.record].key.deviceId == dev then Some(p.event.section.id)
      else if p.ServerStep? && p.event.OtherWrite? && p.event.deviceId == dev then None
      else LastReport(before, dev, key, hash)
  }

  /** The manifest has the flags that the plans of the assignment's sync gave. */
  predicate HasFlagsOf(s: Sys, dev: string, id: AssignmentId) {
    && id in s.jobs && HasReported(s.jobs[id])
    && forall sc :: sc in s.jobs[id].flags ==>
      var m := TaskRuns.DiskOf(s.server, dev).manifest; sc in m.truncated && m.truncated[sc] == s.jobs[id].flags[sc]
  }

  // ---------- one step ----------

  /** Only completion reports and other writers change a device's flags. */
  lemma FlagsStay(v: Server, e: Event, hash: Content -> string, dev: string)
    requires Inv(v) && Possible(v, e) && !(e.OtherWrite? && e.deviceId == dev)
    requires !(IsStoredReport(v, e) && v.records[e.record].key.deviceId == dev)
    ensures TaskRuns.DiskOf(Next(v, e, hash), dev).manifest.truncated == TaskRuns.DiskOf(v, dev).manifest.truncated
  {
    hide Inv, Hello, RunSection, ApplyDelta;
    match e {
      case DeltaEvent(r, c, d, allowed) =>
        RecordIsOk(v, r);
        DeltaFence(v.records[r].task, c, d, TaskRuns.DiskOf(v, v.records[r].key.deviceId), hash, allowed);
      case _ =>
    }
  }

  /** A job that has reported keeps the flags of its plans. */
  lemma ReportedStays(s: Sys, p: Step, key: ClientId -> TaskKey, hash: Content -> string, id: AssignmentId)
    requires Enabled(s, p, key) && id in s.jobs && HasReported(s.jobs[id])
    ensures var t := Perform(s, p, key, hash); id in t.jobs && HasReported(t.jobs[id]) && t.jobs[id].flags == s.jobs[id].flags
  {
    hide CanServe, Lists, Served, KeyedBy, WellPlanned, MaxRevision, Take, ClientOf;
    match p {
      case ServerStep(e) => ServedKeepsJobs(s, e, key, hash);
      case _ =>
    }
  }

  lemma ServedKeepsJobs(s: Sys, e: Event, key: ClientId -> TaskKey, hash: Content -> string)
    requires CanServe(s, e, key)
    ensures Served(s, e, hash).jobs == s.jobs && Served(s, e, hash).server == Next(s.server, e, hash)
  {
    hide Next, SoloAfter, Answer;
  }

  lemma ReporterIsJob(s: Sys, e: Event, key: ClientId -> TaskKey)
    requires SysOk(s, key) && CanServe(s, e, key) && e.SectionEvent? && e.section.CompleteSection?
    ensures e.section.id in s.jobs && HasReported(s.jobs[e.section.id]) && e.section.flags == s.jobs[e.section.id].flags
  {
    hide Known, ServerOk, AckOk, BatchOk, DeltaOk, EntryOk, SoloOk, ClientOk, JobOk, ReadyOk, DroppedOk;
    assert ReportOk(s, key, e.section.client, e.section.id, e.section.baseRevision);
  }

  lemma ReportSets(s: Sys, e: Event, key: ClientId -> TaskKey, hash: Content -> string)
    requires SysOk(s, key) && CanServe(s, e, key) && IsStoredReport(s.server, e)
    ensures HasFlagsOf(Served(s, e, hash), s.server.records[e.record].key.deviceId, e.section.id)
  {
    hide SysOk, RunSection, Next, Served, HasReported;
    ReporterIsJob(s, e, key);
    ServedKeepsJobs(s, e, key, hash);
    SameKey(s.server, e, hash, e.record);
    SectionMeanings.CompletionMeans(s.server, e, hash);
  }

  predicate TouchesFlags(v: Server, p: Step, dev: string) {
    p.ServerStep?
    && ((p.event.OtherWrite? && p.event.deviceId == dev)
        || (IsStoredReport(v, p.event) && v.records[p.event.record].key.deviceId == dev))
  }

  lemma OneMoreStep(s: Sys, p: Step, key: ClientId -> TaskKey, hash: Content -> string, dev: string, id: AssignmentId)
    requires SysOk(s, key) && Enabled(s, p, key) && HasFlagsOf(s, dev, id) && !TouchesFlags(s.server, p, dev)
    ensures HasFlagsOf(Perform(s, p, key, hash), dev, id)
  {
    hide Next, Served, Inv, Perform, SysOk, HasReported, IsStoredReport;
    ReportedStays(s, p, key, hash, id);
    ServerIsOk(s, key);
    if p.ServerStep? {
      StepServes(s, p, key, hash);
      ServedKeepsJobs(s, p.event, key, hash);
      FlagsStay(s.server, p.event, hash, dev);
    } else {
      SameServer(s, p, key, hash);
    }
  }

  // ---------- executions ----------

  /** In every execution the manifest has, scope by scope, the flags of the sync whose report was stored last. */
  lemma {:induction false} FlagsAreReported(ps: seq<Step>, dev: string, key: ClientId -> TaskKey, hash: Content -> string)
    requires IsExecution(ps, key, hash) && LastReport(ps, dev, key, hash).Some?
    ensures HasFlagsOf(Reached(ps, key, hash), dev, LastReport(ps, dev, key, hash).value)
    decreases |ps|
  {
    hide SysOk, HasFlagsOf, Perform, CanSendBatch, CanReceiveAck, CanEndStage, CanEndPush, CanFlush, CanReceiveFlushAck,
      CanSendLive, Served, Next;
    var before, p := ps[..|ps| - 1], ps[|ps| - 1];
    var s := Reached(before, key, hash);
    ExecutionKeeps(before, key, hash);
    if p.ServerStep? && IsStoredReport(s.server, p.event) && s.server.records[p.event.record].key.deviceId == dev {
      ReportSets(s, p.event, key, hash);
      assert Reached(ps, key, hash) == Served(s, p.event, hash) by { StepServes(s, p, key, hash); }
    } else {
      FlagsAreReported(before, dev, key, hash);
      OneMoreStep(s, p, key, hash, dev, LastReport(before, dev, key, hash).value);
    }
  }

  lemma StepServes(s: Sys, p: Step, key: ClientId -> TaskKey, hash: Content -> string)
    requires Enabled(s, p, key) && p.ServerStep?
    ensures Perform(s, p, key, hash) == Served(s, p.event, hash)
  {
    hide Served, CanServe;
  }

  /** The step that makes a task ready stores the report of its assignment. */
  lemma ReadyByReport(ps: seq<Step>, p: Step, key: ClientId -> TaskKey, hash: Content -> string, r: nat)
    requires IsExecution(ps + [p], key, hash) && IsExecution(ps, key, hash)
    requires r in Reached(ps + [p], key, hash).server.records && Reached(ps + [p], key, hash).server.records[r].task.phase == Ready
    requires r in Reached(ps, key, hash).server.records ==> Reached(ps, key, hash).server.records[r].task.phase != Ready
    ensures var u := Reached(ps + [p], key, hash).server.records[r];
      u.task.assignment.Some? && LastReport(ps + [p], u.key.deviceId, key, hash) == u.task.assignment
  {
    hide SysOk, Perform, Served, Next, Inv, RunSection, LastReport, CanSendBatch, CanReceiveAck, CanEndStage, CanEndPush,
      CanFlush, CanReceiveFlushAck, CanSendLive, SectionMeanings.IsNewlyHeld;
    var s := Reached(ps, key, hash);
    assert (ps + [p])[..|ps|] == ps;
    ExecutionKeeps(ps, key, hash);
    ServerIsOk(s, key);
    if !p.ServerStep? {
      SameServer(s, p, key, hash);
    } else {
      StepServes(s, p, key, hash);
      ServedKeepsJobs(s, p.event, key, hash);
      SyncProtocolProofs.ReadyStep(s.server, p.event, hash, r);
      SectionMeanings.CompletionMeans(s.server, p.event, hash);
      SameKey(s.server, p.event, hash, r);
      LastReportNow(ps, p, key, hash);
    }
  }

  lemma LastReportNow(ps: seq<Step>, p: Step, key: ClientId -> TaskKey, hash: Content -> string)
    requires IsExecution(ps + [p], key, hash) && IsExecution(ps, key, hash) && p.ServerStep?
    requires IsStoredReport(Reached(ps, key, hash).server, p.event)
    ensures LastReport(ps + [p], Reached(ps, key, hash).server.records[p.event.record].key.deviceId, key, hash)
      == Some(p.event.section.id)
  {
    hide Perform, Enabled;
    assert (ps + [p])[..|ps|] == ps;
  }

  lemma ServerIsOk(s: Sys, key: ClientId -> TaskKey)
    requires SysOk(s, key)
    ensures Inv(s.server)
  {
    hide Inv, Known;
  }

  lemma SameServer(s: Sys, p: Step, key: ClientId -> TaskKey, hash: Content -> string)
    requires Enabled(s, p, key) && !p.ServerStep?
    ensures Perform(s, p, key, hash).server == s.server
  {
    hide Lists, KeyedBy, Take, ClientOf, WellPlanned, MaxRevision;
  }

  lemma SameKey(v: Server, e: Event, hash: Content -> string, r: nat)
    requires Possible(v, e) && r in v.records
    ensures r in Next(v, e, hash).records && Next(v, e, hash).records[r].key == v.records[r].key
  {
    hide Hello, RunSection, ApplyDelta;
  }

  // ---------- the plans ----------

  /** When a task has become ready, and until another report is stored for the device or somebody else writes its manifest,
      the manifest says of each scope that it is truncated if and only if the budget dropped one of the files found there. */
  lemma ReadyFlagsArePlans(ps: seq<Step>, key: ClientId -> TaskKey, hash: Content -> string, r: nat, es: R.Remote,
                           home: Scanned, json: Scanned, x: R.Hashing)
    requires IsExecution(ps, key, hash) && r in Reached(ps, key, hash).server.records
    requires var s := Reached(ps, key, hash);
      var u := s.server.records[r];
      && u.task.phase == Ready && u.task.assignment.Some?
      && LastReport(ps, u.key.deviceId, key, hash) == u.task.assignment
      && u.task.assignment.value in s.jobs && s.jobs[u.task.assignment.value].flags == FlagsFor(es, home, json, x)
    ensures var m := TaskRuns.DiskOf(Reached(ps, key, hash).server, Reached(ps, key, hash).server.records[r].key.deviceId).manifest;
      && ClaudeHome in m.truncated && ClaudeJson in m.truncated
      && (m.truncated[ClaudeHome] <==> exists i :: 0 <= i < |home.locals| && R.IsRejected(es, home.scope, home.locals, x, home.locals[i]))
      && (m.truncated[ClaudeJson] <==> exists i :: 0 <= i < |json.locals| && R.IsRejected(es, json.scope, json.locals, x, json.locals[i]))
  {
    hide IsExecution, Reached, LastReport, PlanOf, R.IsRejected;
    FlagsAreReported(ps, Reached(ps, key, hash).server.records[r].key.deviceId, key, hash);
    TruncatedIfRejected(es, home, x);
    TruncatedIfRejected(es, json, x);
  }

  lemma TruncatedIfRejected(es: R.Remote, f: Scanned, x: R.Hashing)
    ensures PlanOf(es, f, x).truncated <==>
      exists i :: 0 <= i < |f.locals| && R.IsRejected(es, f.scope, f.locals, x, f.locals[i])
  {
    hide R.Adds, R.Chosen, R.Deletes;
    var rejected := R.Rejected(es, f.scope, f.locals, x);
    if rejected != [] {
      R.RejectedIsAdd(es, f.scope, f.locals, x, rejected[0]);
      R.AddsExactly(es, f.scope, f.locals, x, rejected[0]);
    }
  }
}
