/** One execution in full: a client says hello, uploads its one file, and its task becomes ready. And the same execution
    with a change that the watcher reports too late to be sent. */
module SyncExample {
  import opened Options
  import opened CacheStore
  import opened CacheTasks
  import opened TaskRuns
  import opened ClientMachine
  import opened SyncProtocol
  import opened SyncTheorems
  import opened WatcherChanges
  import opened Walk
  import opened Mirror
  import ScopeBudget
  import R = Reconcile

  /** What the execution uses, all arbitrary: client, key, assignment, batch, the client's file, and an unused id. */
  datatype Names = Names(c: ClientId, k: TaskKey, id: AssignmentId, b: string, file: LocalEntry, unused: AssignmentId)

  /** The file is within the limits and has a hash. */
  predicate Proper(n: Names, key: ClientId -> TaskKey, x: R.Hashing) {
    && key(n.c) == n.k && n.unused != n.id
    && n.file.size <= x.maxFileBytes && n.file.size <= x.maxScopeBytes && x.hash(x.read(n.file.relPath)) != ""
  }

  function Home(n: Names): Scanned {
    Scanned(ClaudeHome, [n.file], [])
  }

  const Json: Scanned := Scanned(ClaudeJson, [], [])

  function Upload(n: Names, x: R.Hashing): Change {
    var content := x.read(n.file.relPath);
    Upsert(FileKey(ClaudeHome, n.file.relPath), n.file.size, n.file.mtime, Some(x.hash(content)), Some(content), false, None)
  }

  /** The upload alone, and nothing for the second scope. */
  function Plan(n: Names, x: R.Hashing): seq<seq<seq<Change>>> {
    [[[Upload(n, x)]], []]
  }

  /** Neither scope is truncated. */
  const NotTruncated: map<Scope, bool> := map[ClaudeHome := false, ClaudeJson := false]

  function Sent(n: Names, x: R.Hashing): Delta {
    Delta(n.id, n.b, 0, [Upload(n, x)])
  }

  function Steps(n: Names, x: R.Hashing): seq<Step> {
    [ ServerStep(RegistryEvent(map[n.c := ClientInfo(0, 0, true)])),
      ServerStep(HelloEvent(n.k, n.c, 0, n.id, 0)),
      ReceiveAssignment(n.id),
      MakePlan(n.id, Plan(n, x), NotTruncated),
      SendBatch(n.id, n.b),
      ServerStep(DeltaEvent(0, n.c, Sent(n, x), 2)),
      ReceiveAck(n.id, 0, 1),
      EndStage(n.id),
      EndStage(n.id),
      EndPush(n.id),
      FlushNothing(n.id) ]
  }

  /** How the sync ends. */
  function Ending(n: Names): seq<Step> {
    [Report(n.id), Watch(n.id), ServerStep(SectionEvent(0, CompleteSection(n.c, n.id, 1, true, NotTruncated), n.unused, 0))]
  }

  // ---------- the plan ----------

  lemma OneFilePlan(n: Names, key: ClientId -> TaskKey, x: R.Hashing)
    requires Proper(n, key, x)
    ensures PlanOf(map[], Home(n), x) == R.ScopePlan([Upload(n, x)], [], false)
  {
    var ls, u := [n.file], Upload(n, x);
    assert ls[..0] == [] && R.Adds(map[], ClaudeHome, [], x) == [];
    assert R.Adds(map[], ClaudeHome, ls, x) == [u];
    assert [u][..0] == [] && ScopeBudget.SortNewestFirst([]) == [] && ScopeBudget.SortNewestFirst([u]) == [u];
    assert ScopeBudget.Kept([], x.maxScopeBytes) == [] && ScopeBudget.Dropped([], x.maxScopeBytes) == [];
    assert ScopeBudget.Bytes([]) == 0;
    assert ScopeBudget.Kept([u], x.maxScopeBytes) == [u] && ScopeBudget.Dropped([u], x.maxScopeBytes) == [];
    assert R.Those([], true) == [] && R.Those([], false) == [];
    assert R.Those([u], true) == [] && R.Those([u], false) == [u];
  }

  lemma NoFilePlan(x: R.Hashing)
    ensures PlanOf(map[], Json, x) == R.ScopePlan([], [], false)
  {
    assert R.Adds(map[], ClaudeJson, [], x) == [] && ScopeBudget.SortNewestFirst([]) == [];
    assert ScopeBudget.Kept([], x.maxScopeBytes) == [] && ScopeBudget.Dropped([], x.maxScopeBytes) == [];
  }

  /** The plan is the one the client makes of its files against the empty manifest. */
  lemma PlanIsMade(n: Names, key: ClientId -> TaskKey, x: R.Hashing)
    requires Proper(n, key, x)
    ensures WellScanned(map[], Home(n), Json) && StagesFor(map[], Home(n), Json, x) == Plan(n, x) && WellPlanned(Plan(n, x))
    ensures FlagsFor(map[], Home(n), Json, x) == NotTruncated
  {
    hide PlanOf;
    OneFilePlan(n, key, x);
    NoFilePlan(x);
    assert [Upload(n, x)][..0] == [] && Singly([]) == [];
    assert Singly([Upload(n, x)]) == [[Upload(n, x)]];
    StagesAreWellPlanned(map[], Home(n), Json, x);
  }

  // ---------- the states on the way ----------

  function Assigned(n: Names, revision: nat, phase: Phase): Task {
    Task(phase, Some(n.c), Some(n.id), revision, {n.c}, map[], {}, [], Some(0), None)
  }

  function EmptyManifest(): Manifest {
    Manifest(0, map[], map[])
  }

  function ServerAt(n: Names, task: Task, disks: map<string, Disk>, log: seq<LogEntry>): Server {
    Server(map[0 := Record(n.k, task)], map[n.k := 0], map[n.c := ClientInfo(0, 0, true)], disks,
           map[n.id := Issue(0, n.c, EmptyManifest(), 0)], log)
  }

  function Entry(n: Names, x: R.Hashing): LogEntry {
    LogEntry(0, n.c, Sent(n, x), {}, [Upload(n, x)], 1)
  }

  /** The manifest and blobs after the delta. */
  function Disk1(n: Names, x: R.Hashing): Disk {
    var u := Upload(n, x);
    Disk(Manifest(1, map[u.key := EntryOf(u)], map[]), map[u.sha256.value := u.content.value])
  }

  function Before(n: Names): Server {
    ServerAt(n, Assigned(n, 0, Syncing), map[], [])
  }

  function After1(n: Names, x: R.Hashing): Server {
    ServerAt(n, Assigned(n, 1, Syncing), map[n.k.deviceId := Disk1(n, x)], [Entry(n, x)])
  }

  /** The system when nobody but the one client and its one assignment is there. */
  function SysAt(n: Names, v: Server, m: Machine, j: Job, batches: map<string, Batch>, deltas: set<(ClientId, Delta)>,
                 acks: set<(ClientId, Ack)>, reports: set<(ClientId, AssignmentId, nat)>): Sys
  {
    Sys(v, map[n.c := m], map[n.id := j], batches, deltas, acks, reports, {}, {n.id}, {})
  }

  function JobAt(n: Names, phase: JobPhase, revision: nat, stages: seq<seq<seq<Change>>>, stage: nat, sent: seq<string>,
                 acked: map<nat, nat>): Job
  {
    Job(n.c, 1, phase, revision, stages, stage, sent, acked, None, [], if phase == Planning then map[] else NotTruncated)
  }

  function MachineAt(n: Names, state: State, revision: nat, buffered: ChangeMap): Machine {
    Machine(state, Some(n.id), revision, 1, buffered, map[])
  }

  function Batches(n: Names): map<string, Batch> {
    map[n.b := PlanBatch(n.id, 0, 0, 0)]
  }

  function Ack1(n: Names): (ClientId, Ack) {
    (n.c, Accepted(n.id, n.b, 1))
  }

  /** The state after the first `i` steps of the push. */
  function PushAt(n: Names, x: R.Hashing, i: nat): Sys
    requires 2 <= i <= 8
  {
    var m, p, d := MachineAt(n, AssignedSyncing, 0, map[]), Plan(n, x), {(n.c, Sent(n, x))};
    if i == 2 then Sys(Before(n), map[], map[], map[], {}, {}, {}, {}, {n.id}, {})
    else if i == 3 then SysAt(n, Before(n), m, JobAt(n, Planning, 0, [], 0, [], map[]), map[], {}, {}, {})
    else if i == 4 then SysAt(n, Before(n), m, JobAt(n, Pushing, 0, p, 0, [], map[]), map[], {}, {}, {})
    else if i == 5 then SysAt(n, Before(n), m, JobAt(n, Pushing, 0, p, 0, [n.b], map[]), Batches(n), d, {}, {})
    else if i == 6 then SysAt(n, After1(n, x), m, JobAt(n, Pushing, 0, p, 0, [n.b], map[]), Batches(n), d, {Ack1(n)}, {})
    else if i == 7 then SysAt(n, After1(n, x), m, JobAt(n, Pushing, 0, p, 0, [n.b], map[0 := 1]), Batches(n), d, {Ack1(n)}, {})
    else Pushed(n, x, JobAt(n, Pushing, 1, p, 1, [], map[]), m, {})
  }

  /** The states from the first stage's end on. */
  function Pushed(n: Names, x: R.Hashing, j: Job, m: Machine, reports: set<(ClientId, AssignmentId, nat)>): Sys {
    SysAt(n, After1(n, x), m, j, Batches(n), {(n.c, Sent(n, x))}, {Ack1(n)}, reports)
  }

  /** The states at the end, with what the client has buffered by then. */
  function EndAt(n: Names, x: R.Hashing, i: nat, buffered: ChangeMap): Sys
    requires 9 <= i <= 13
  {
    var m, p := MachineAt(n, AssignedSyncing, 1, buffered), Plan(n, x);
    if i == 9 then Pushed(n, x, JobAt(n, Pushing, 1, p, 2, [], map[]), MachineAt(n, AssignedSyncing, 0, buffered), {})
    else if i == 10 then Pushed(n, x, JobAt(n, Flushing, 1, p, 2, [], map[]), m, {})
    else if i == 11 then Pushed(n, x, JobAt(n, Reporting, 1, p, 2, [], map[]), m, {})
    else if i == 12 then Pushed(n, x, JobAt(n, Reported, 1, p, 2, [], map[]), m, {(n.c, n.id, 1)})
    else
      Pushed(n, x, JobAt(n, Finished, 1, p, 2, [], map[]), MachineAt(n, AssignedWatching, 1, buffered), {(n.c, n.id, 1)})
  }

  function StateAt(n: Names, x: R.Hashing, i: nat): Sys
    requires 2 <= i <= 11
  {
    if i <= 8 then PushAt(n, x, i) else EndAt(n, x, i, map[])
  }

  // ---------- one step after another ----------

  lemma HelloElects(n: Names)
    ensures var x := Context(map[n.c := ClientInfo(0, 0, true)], EmptyManifest(), n.id, 0);
      Hello(NewTask, n.c, x) == Assigned(n, 0, Syncing)
  {
    var reg := map[n.c := ClientInfo(0, 0, true)];
    assert NewTask.candidates + {n.c} == {n.c};
    ElectedUnique(Some(n.c), Winner({n.c}, reg), {n.c}, reg);
  }

  lemma Step2(n: Names, hash: Content -> string)
    ensures var v := Start.(registry := map[n.c := ClientInfo(0, 0, true)]);
      var e := HelloEvent(n.k, n.c, 0, n.id, 0);
      Possible(v, e) && TaskRuns.Next(v, e, hash) == Before(n)
  {
    hide Hello;
    HelloElects(n);
  }

  /** The step leads from the one state to the other. */
  ghost predicate Leads(s: Sys, p: Step, t: Sys, key: ClientId -> TaskKey, hash: Content -> string) {
    Enabled(s, p, key) && Perform(s, p, key, hash) == t
  }

  lemma AssignmentStep(n: Names, key: ClientId -> TaskKey, x: R.Hashing)
    requires Proper(n, key, x)
    ensures Leads(PushAt(n, x, 2), ReceiveAssignment(n.id), PushAt(n, x, 3), key, x.hash)
  {
    hide Plan, CanServe, CanSendBatch, CanReceiveAck, CanEndStage, CanEndPush, CanFlush, CanReceiveFlushAck,
      CanSendLive, Served, BatchSent, StageEnded, PushEnded, Flushed, FlushAcknowledged, ReportSent, WatchStarted,
      LiveSent, Take, WellPlanned;
  }

  lemma PlanStep(n: Names, key: ClientId -> TaskKey, x: R.Hashing)
    requires Proper(n, key, x)
    ensures Leads(PushAt(n, x, 3), MakePlan(n.id, Plan(n, x), NotTruncated), PushAt(n, x, 4), key, x.hash)
  {
    hide Plan, WellPlanned, StagesFor, FlagsFor, WellScanned, Upload, CanServe, CanSendBatch, CanReceiveAck, CanEndStage, CanEndPush, CanFlush,
      CanReceiveFlushAck, CanSendLive, Served, AssignmentReceived, BatchSent, StageEnded, PushEnded, Flushed,
      FlushAcknowledged, ReportSent, WatchStarted, LiveSent, Take;
    PlanIsMade(n, key, x);
  }

  lemma SendStep(n: Names, key: ClientId -> TaskKey, x: R.Hashing)
    requires Proper(n, key, x)
    ensures Leads(PushAt(n, x, 4), SendBatch(n.id, n.b), PushAt(n, x, 5), key, x.hash)
  {
    hide Upload, CanServe, CanReceiveAck, CanEndStage, CanEndPush, CanFlush, CanReceiveFlushAck, CanSendLive, Served,
      AssignmentReceived, StageEnded, PushEnded, Flushed, FlushAcknowledged, ReportSent, WatchStarted, LiveSent,
      Take, WellPlanned;
    var j := PushAt(n, x, 4).jobs[n.id];
    assert j.sent + [n.b] == [n.b];
    assert Plan(n, x)[0] == [[Upload(n, x)]];
  }

  lemma EffectOnEmpty(n: Names, key: ClientId -> TaskKey, x: R.Hashing)
    requires Proper(n, key, x)
    ensures DeltaEffect(EmptyDisk, [Upload(n, x)], x.hash, 2) == (Disk1(n, x), Applied(1))
  {
    var u, hash := Upload(n, x), x.hash;
    var cs := [u];
    assert cs[..0] == [];
    assert FirstRefusal([], hash) == None && BlobWrites([], map[], hash) == [] && ApplyChanges(map[], []) == map[];
    assert FirstRefusal(cs, hash) == None;
    var put := PutBlob(u.sha256.value, u.content.value);
    assert BlobWrites(cs, map[], hash) == [put] by {
      assert WriteAll(Disk(Manifest(0, map[], map[]), map[]), []).blobs == map[];
    }
    assert ApplyChanges(map[], cs) == Disk1(n, x).manifest.entries;
    var ws := DeltaWrites(EmptyDisk, cs, hash);
    assert ws == [put, PutManifest(Disk1(n, x).manifest)];
    assert ws[..1] == [put] && [put][..0] == [];
    assert WriteAll(EmptyDisk, []) == EmptyDisk;
    assert WriteAll(EmptyDisk, [put]) == EmptyDisk.(blobs := Disk1(n, x).blobs);
  }

  lemma DeltaIsWritten(n: Names, key: ClientId -> TaskKey, x: R.Hashing)
    requires Proper(n, key, x)
    ensures ApplyDelta(Assigned(n, 0, Syncing), n.c, Sent(n, x), EmptyDisk, x.hash, 2)
      == DeltaOutcome(Assigned(n, 1, Syncing), Disk1(n, x), Accepted(n.id, n.b, 1), [Upload(n, x)])
  {
    hide DeltaEffect, CodeOf, Contains;
    var cs, t := [Upload(n, x)], Assigned(n, 1, Syncing);
    assert cs[..0] == [];
    EffectOnEmpty(n, key, x);
    assert FilterDuplicates(Assigned(n, 0, Syncing), []) == [];
    assert FilterDuplicates(Assigned(n, 0, Syncing), cs) == cs;
    assert Remember(t, []) == t && ClearBypass(t, []) == t;
    assert Remember(t, cs) == t && ClearBypass(t, cs) == t;
  }

  lemma DeltaStep(n: Names, key: ClientId -> TaskKey, x: R.Hashing)
    requires Proper(n, key, x)
    ensures Leads(PushAt(n, x, 5), ServerStep(DeltaEvent(0, n.c, Sent(n, x), 2)), PushAt(n, x, 6), key, x.hash)
  {
    hide ApplyDelta, Upload, CanSendBatch, CanReceiveAck, CanEndStage, CanEndPush, CanFlush, CanReceiveFlushAck, CanSendLive,
      AssignmentReceived, BatchSent, StageEnded, PushEnded, Flushed, FlushAcknowledged, ReportSent, WatchStarted, LiveSent,
      Take, WellPlanned;
    DeltaIsWritten(n, key, x);
  }

  lemma AckStep(n: Names, key: ClientId -> TaskKey, x: R.Hashing)
    requires Proper(n, key, x)
    ensures Leads(PushAt(n, x, 6), ReceiveAck(n.id, 0, 1), PushAt(n, x, 7), key, x.hash)
  {
    hide Plan, CanServe, CanSendBatch, CanEndStage, CanEndPush, CanFlush, CanReceiveFlushAck, CanSendLive, Served,
      AssignmentReceived, BatchSent, StageEnded, PushEnded, Flushed, FlushAcknowledged, ReportSent, WatchStarted,
      LiveSent, Take, WellPlanned;
  }

  lemma StageStep(n: Names, key: ClientId -> TaskKey, x: R.Hashing)
    requires Proper(n, key, x)
    ensures Leads(PushAt(n, x, 7), EndStage(n.id), PushAt(n, x, 8), key, x.hash)
  {
    hide Upload, CanServe, CanSendBatch, CanReceiveAck, CanEndPush, CanFlush, CanReceiveFlushAck, CanSendLive,
      Served, AssignmentReceived, BatchSent, PushEnded, Flushed, FlushAcknowledged, ReportSent, WatchStarted,
      LiveSent, Take, WellPlanned;
    assert MaxRevision(0, map[0 := 1], 0) == 0;
    assert MaxRevision(0, map[0 := 1], 1) == 1;
  }

  lemma EmptyStageStep(n: Names, key: ClientId -> TaskKey, x: R.Hashing)
    requires Proper(n, key, x)
    ensures Leads(PushAt(n, x, 8), EndStage(n.id), EndAt(n, x, 9, map[]), key, x.hash)
  {
    hide Upload, CanServe, CanSendBatch, CanReceiveAck, CanEndPush, CanFlush, CanReceiveFlushAck, CanSendLive,
      Served, AssignmentReceived, BatchSent, PushEnded, Flushed, FlushAcknowledged, ReportSent, WatchStarted,
      LiveSent, Take, WellPlanned;
    assert MaxRevision(1, map[], 0) == 1;
  }

  lemma PushStep(n: Names, key: ClientId -> TaskKey, x: R.Hashing)
    requires Proper(n, key, x)
    ensures Leads(EndAt(n, x, 9, map[]), EndPush(n.id), EndAt(n, x, 10, map[]), key, x.hash)
  {
    hide Upload, CanServe, CanSendBatch, CanReceiveAck, CanEndStage, CanFlush, CanReceiveFlushAck, CanSendLive,
      Served, AssignmentReceived, BatchSent, StageEnded, Flushed, FlushAcknowledged, ReportSent, WatchStarted,
      LiveSent, Take, WellPlanned;
  }

  lemma FlushStep(n: Names, key: ClientId -> TaskKey, x: R.Hashing)
    requires Proper(n, key, x)
    ensures Leads(EndAt(n, x, 10, map[]), FlushNothing(n.id), EndAt(n, x, 11, map[]), key, x.hash)
  {
    hide Plan, CanServe, CanSendBatch, CanReceiveAck, CanEndStage, CanEndPush, CanFlush, CanReceiveFlushAck,
      CanSendLive, Served, AssignmentReceived, BatchSent, StageEnded, PushEnded, Flushed, FlushAcknowledged,
      ReportSent, WatchStarted, LiveSent, Take, WellPlanned;
  }

  lemma ReportStep(n: Names, key: ClientId -> TaskKey, x: R.Hashing, buffered: ChangeMap)
    requires Proper(n, key, x)
    ensures Leads(EndAt(n, x, 11, buffered), Report(n.id), EndAt(n, x, 12, buffered), key, x.hash)
  {
    hide Plan, CanServe, CanSendBatch, CanReceiveAck, CanEndStage, CanEndPush, CanFlush, CanReceiveFlushAck,
      CanSendLive, Served, AssignmentReceived, BatchSent, StageEnded, PushEnded, Flushed, FlushAcknowledged,
      WatchStarted, LiveSent, Take, WellPlanned;
  }

  lemma WatchStep(n: Names, key: ClientId -> TaskKey, x: R.Hashing, buffered: ChangeMap)
    requires Proper(n, key, x)
    ensures Leads(EndAt(n, x, 12, buffered), Watch(n.id), EndAt(n, x, 13, buffered), key, x.hash)
  {
    hide Plan, CanServe, CanSendBatch, CanReceiveAck, CanEndStage, CanEndPush, CanFlush, CanReceiveFlushAck,
      CanSendLive, Served, AssignmentReceived, BatchSent, StageEnded, PushEnded, Flushed, FlushAcknowledged,
      ReportSent, LiveSent, Take, WellPlanned;
  }

  lemma EachLeads(n: Names, i: nat, key: ClientId -> TaskKey, x: R.Hashing)
    requires 2 <= i < 11 && Proper(n, key, x)
    ensures Leads(StateAt(n, x, i), Steps(n, x)[i], StateAt(n, x, i + 1), key, x.hash)
  {
    hide Leads, Proper, PushAt, EndAt;
    match i {
      case 2 => AssignmentStep(n, key, x);
      case 3 => PlanStep(n, key, x);
      case 4 => SendStep(n, key, x);
      case 5 => DeltaStep(n, key, x);
      case 6 => AckStep(n, key, x);
      case 7 => StageStep(n, key, x);
      case 8 => EmptyStageStep(n, key, x);
      case 9 => PushStep(n, key, x);
      case _ => FlushStep(n, key, x);
    }
  }

  // ---------- the execution ----------

  ghost predicate LeadsTo(ps: seq<Step>, t: Sys, key: ClientId -> TaskKey, hash: Content -> string) {
    IsExecution(ps, key, hash) && Reached(ps, key, hash) == t
  }

  lemma OneMore(ps: seq<Step>, s: Sys, p: Step, t: Sys, key: ClientId -> TaskKey, hash: Content -> string)
    requires LeadsTo(ps, s, key, hash) && Leads(s, p, t, key, hash)
    ensures LeadsTo(ps + [p], t, key, hash)
  {
    hide Enabled, Perform, IsExecution, Reached;
    Append(ps, p, key, hash);
  }

  lemma FirstStep(n: Names, key: ClientId -> TaskKey, x: R.Hashing)
    ensures Leads(Initial, Steps(n, x)[0], Initial.(server := Start.(registry := map[n.c := ClientInfo(0, 0, true)])), key, x.hash)
  {
    hide Plan, Sent;
  }

  lemma SecondStep(n: Names, key: ClientId -> TaskKey, x: R.Hashing)
    requires Proper(n, key, x)
    ensures Leads(Initial.(server := Start.(registry := map[n.c := ClientInfo(0, 0, true)])), Steps(n, x)[1], PushAt(n, x, 2), key,
               x.hash)
  {
    hide TaskRuns.Next, Plan, Sent;
    Step2(n, x.hash);
  }

  lemma StepsLength(n: Names, x: R.Hashing)
    ensures |Steps(n, x)| == 11
  {}

  lemma {:induction false} Reaches(n: Names, i: nat, key: ClientId -> TaskKey, x: R.Hashing)
    requires 2 <= i <= 11 && Proper(n, key, x)
    ensures |Steps(n, x)| == 11 && LeadsTo(Steps(n, x)[..i], StateAt(n, x, i), key, x.hash)
  {
    hide Leads, LeadsTo, PushAt, EndAt, Proper, Steps;
    StepsLength(n, x);
    var ps := Steps(n, x);
    if i == 2 {
      assert LeadsTo([], Initial, key, x.hash) by { NoSteps(key, x.hash); }
      FirstStep(n, key, x);
      SecondStep(n, key, x);
      var s1 := Initial.(server := Start.(registry := map[n.c := ClientInfo(0, 0, true)]));
      OneMore([], Initial, ps[0], s1, key, x.hash);
      OneMore([] + [ps[0]], s1, ps[1], PushAt(n, x, 2), key, x.hash);
      assert [] + [ps[0]] + [ps[1]] == ps[..2];
    } else {
      Reaches(n, i - 1, key, x);
      EachLeads(n, i - 1, key, x);
      OneMore(ps[..i - 1], StateAt(n, x, i - 1), ps[i - 1], StateAt(n, x, i), key, x.hash);
      assert ps[..i - 1] + [ps[i - 1]] == ps[..i];
    }
  }

  lemma NoSteps(key: ClientId -> TaskKey, hash: Content -> string)
    ensures LeadsTo([], Initial, key, hash)
  {}

  /** What the ending leaves. */
  ghost predicate IsReadyWith(n: Names, x: R.Hashing, s: Sys, buffered: ChangeMap) {
    && s.server.records == map[0 := Record(n.k, Assigned(n, 1, Ready))]
    && s.clients == EndAt(n, x, 13, buffered).clients && s.jobs == EndAt(n, x, 13, buffered).jobs && s.solo == {n.id}
    && s.server.issued == map[n.id := Issue(0, n.c, EmptyManifest(), 0)]
  }

  lemma CompletedTask(n: Names, x: Context)
    ensures RunSection(Assigned(n, 1, Syncing), CompleteSection(n.c, n.id, 1, true, NotTruncated), x) == Assigned(n, 1, Ready)
  {}

  lemma CompletedServer(n: Names, x: R.Hashing)
    requires n.unused != n.id
    ensures var v, e := After1(n, x), SectionEvent(0, CompleteSection(n.c, n.id, 1, true, NotTruncated), n.unused, 0);
      && Possible(v, e)
      && var w := TaskRuns.Next(v, e, x.hash);
      w.records == map[0 := Record(n.k, Assigned(n, 1, Ready))] && w.issued == v.issued && w.log == v.log
  {
    hide RunSection, Disk1, Entry;
    var v := After1(n, x);
    CompletedTask(n, Context(v.registry, TaskRuns.DiskOf(v, n.k.deviceId).manifest, n.unused, 0));
  }

  lemma CompleteStep(n: Names, key: ClientId -> TaskKey, x: R.Hashing, buffered: ChangeMap)
    requires Proper(n, key, x)
    ensures Enabled(EndAt(n, x, 13, buffered), Ending(n)[2], key)
    ensures IsReadyWith(n, x, Perform(EndAt(n, x, 13, buffered), Ending(n)[2], key, x.hash), buffered)
  {
    hide TaskRuns.Next, Possible, Plan, Sent, Disk1, Entry, CanSendBatch, CanReceiveAck, CanEndStage, CanEndPush, CanFlush,
      CanReceiveFlushAck, CanSendLive, AssignmentReceived, BatchSent, StageEnded, PushEnded, Flushed,
      FlushAcknowledged, ReportSent, WatchStarted, LiveSent, Take, WellPlanned;
    CompletedServer(n, x);
  }

  lemma Ends(n: Names, ps: seq<Step>, key: ClientId -> TaskKey, x: R.Hashing, buffered: ChangeMap)
    requires Proper(n, key, x) && LeadsTo(ps, EndAt(n, x, 11, buffered), key, x.hash)
    ensures IsExecution(ps + Ending(n), key, x.hash) && IsReadyWith(n, x, Reached(ps + Ending(n), key, x.hash), buffered)
  {
    hide Leads, EndAt, Proper, IsReadyWith, Perform, Enabled, IsExecution, Reached;
    var es := Ending(n);
    ReportStep(n, key, x, buffered);
    WatchStep(n, key, x, buffered);
    CompleteStep(n, key, x, buffered);
    OneMore(ps, EndAt(n, x, 11, buffered), es[0], EndAt(n, x, 12, buffered), key, x.hash);
    OneMore(ps + [es[0]], EndAt(n, x, 12, buffered), es[1], EndAt(n, x, 13, buffered), key, x.hash);
    Append(ps + [es[0]] + [es[1]], es[2], key, x.hash);
    assert ps + [es[0]] + [es[1]] + [es[2]] == ps + es;
  }

  /** Tasks do become ready, after a sync that uploads the client's file and without another writer: there is an execution
      of the kind the theorems speak of. */
  lemma ReadyIsReached(n: Names, key: ClientId -> TaskKey, x: R.Hashing)
    requires Proper(n, key, x)
    ensures IsExecution(Steps(n, x) + Ending(n), key, x.hash)
    ensures var s := Reached(Steps(n, x) + Ending(n), key, x.hash);
      && 0 in s.server.records && s.server.records[0].task.phase == Ready && s.server.records[0].task.assignment == Some(n.id)
      && n.id in s.solo && n.id in s.jobs && n.id in s.server.issued
      && WellScanned(s.server.issued[n.id].manifest.entries, Home(n), Json)
      && s.jobs[n.id].stages == StagesFor(s.server.issued[n.id].manifest.entries, Home(n), Json, x)
      && s.jobs[n.id].flags == FlagsFor(s.server.issued[n.id].manifest.entries, Home(n), Json, x)
      && Flat(s.jobs[n.id].stages) == [[Upload(n, x)]]
  {
    hide LeadsTo, IsExecution, Reached, Proper, StagesFor, FlagsFor, WellScanned, Upload;
    Reaches(n, 11, key, x);
    assert Steps(n, x)[..11] == Steps(n, x);
    Ends(n, Steps(n, x), key, x, map[]);
    PlanIsMade(n, key, x);
    var plan := Plan(n, x);
    assert plan[..1] == [[[Upload(n, x)]]];
    FlatOne([[Upload(n, x)]]);
    assert Flat(plan) == Flat(plan[..1]) + [];
  }

  // ---------- a change that comes too late ----------

  lemma LateReport(n: Names, key: ClientId -> TaskKey, x: R.Hashing, y: Change)
    requires Proper(n, key, x)
    ensures Leads(EndAt(n, x, 11, map[]), ClientStep(n.c, WatcherStep([y])), EndAt(n, x, 11, map[y.key := y]), key, x.hash)
  {
    hide Plan, CanServe, CanSendBatch, CanReceiveAck, CanEndStage, CanEndPush, CanFlush, CanReceiveFlushAck,
      CanSendLive, Served, AssignmentReceived, BatchSent, StageEnded, PushEnded, Flushed, FlushAcknowledged,
      ReportSent, WatchStarted, LiveSent, WellPlanned;
    assert [y][..0] == [];
    assert KeyedBy([y]) == map[y.key := y];
    assert map[] + map[y.key := y] == map[y.key := y];
  }

  lemma NotHeardWhileReporting(n: Names, x: R.Hashing)
    ensures var s := EndAt(n, x, 11, map[]); ClientOf(s, n.c).assignment == Some(n.id) && !IsHeard(s, n.c, n.id)
  {
    hide Plan;
  }

  lemma WatchesInTheEnd(n: Names, x: R.Hashing, t: Sys, buffered: ChangeMap)
    requires IsReadyWith(n, x, t, buffered)
    ensures 0 in t.server.records && t.server.records[0].task.phase == Ready && t.server.records[0].task.assignment == Some(n.id)
    ensures ClientOf(t, n.c).state == AssignedWatching && ClientOf(t, n.c).assignment == Some(n.id)
  {
    hide Plan;
  }

  lemma EndingLeaves(n: Names, key: FileKey)
    ensures forall p :: p in Ending(n) ==> Leaves(p, n.c, key)
  {}

  /** The same execution, in which the watcher reports a change while the completion report is being made: the task becomes
      ready, the client watches, and the change is in the buffer and in no live batch. */
  lemma LateChangeIsStranded(n: Names, key: ClientId -> TaskKey, x: R.Hashing, y: Change)
    requires Proper(n, key, x)
    ensures var ps := Steps(n, x) + [ClientStep(n.c, WatcherStep([y]))] + Ending(n);
      && IsExecution(ps, key, x.hash) && IsExecution(Steps(n, x), key, x.hash)
      && var s, t := Reached(Steps(n, x), key, x.hash), Reached(ps, key, x.hash);
      && 0 in t.server.records && t.server.records[0].task.phase == Ready && t.server.records[0].task.assignment == Some(n.id)
      && ClientOf(t, n.c).state == AssignedWatching && IsStranded(t, n.c, n.id, y) && NothingSentSince(s, t, n.c, n.id, y.key)
  {
    hide LeadsTo, IsExecution, Reached, Proper, KeyedBy, NothingSentSince, IsStranded, EndAt, Leads, IsReadyWith, IsHeard, Holds,
      SentSince, CanStillSend, Leaves, Steps, Ending;
    var late := ClientStep(n.c, WatcherStep([y]));
    Reaches(n, 11, key, x);
    assert Steps(n, x)[..11] == Steps(n, x);
    LateReport(n, key, x, y);
    OneMore(Steps(n, x), EndAt(n, x, 11, map[]), late, EndAt(n, x, 11, map[y.key := y]), key, x.hash);
    Ends(n, Steps(n, x) + [late], key, x, map[y.key := y]);
    LeadsThere(Steps(n, x), EndAt(n, x, 11, map[]), key, x.hash);
    NotHeardWhileReporting(n, x);
    WatchesInTheEnd(n, x, Reached(Steps(n, x) + [late] + Ending(n), key, x.hash), map[y.key := y]);
    EndingLeaves(n, y.key);
    OneIsKeyed(y);
    SentIffHeard(Steps(n, x), Ending(n), n.c, [y], n.id, y, key, x.hash);
  }

  lemma LeadsThere(ps: seq<Step>, t: Sys, key: ClientId -> TaskKey, hash: Content -> string)
    requires LeadsTo(ps, t, key, hash)
    ensures IsExecution(ps, key, hash) && Reached(ps, key, hash) == t
  {}

  lemma OneIsKeyed(y: Change)
    ensures Holds(KeyedBy([y]), y)
  {
    assert [y][..0] == [];
  }
}
