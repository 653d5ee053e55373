/** The whole cache-sync protocol: the server's task manager, clients that run the initial-sync program, and a network
    that may lose, repeat and reorder deltas, acks and completion reports. Batch ids are fresh names. */
module SyncProtocol {
  import opened Options
  import opened CacheStore
  import opened CacheTasks
  import opened CacheTaskProperties
  import opened TaskRuns
  import opened ClientMachine

  // ---------- clients ----------

  datatype JobPhase = Planning | Pushing | Flushing | AwaitingLive | Reporting | Reported | Finished

  /** The continuation of one initial sync. A stage is a group of batches sent without waiting for one another: the
      metadata batch of a scope alone, or its uploads. `revision` is the base of the stage's first batch. Continuations
      whose assignment has been superseded may keep running; only the steps that check the generation stop. `live` and
      `flushed` are the flushed batch and its changes, `flags` what the plans say about truncation. */
  datatype Job = Job(
    client: ClientId,
    generation: nat,
    phase: JobPhase,
    revision: nat,
    stages: seq<seq<seq<Change>>>,
    stage: nat,
    sent: seq<string>,
    acked: map<nat, nat>,
    live: Option<string>,
    flushed: seq<Change>,
    flags: map<Scope, bool>)

  datatype Batch =
    | PlanBatch(id: AssignmentId, stage: nat, index: nat, base: nat)
    | LiveBatch(id: AssignmentId, flushed: bool, base: nat)

  /** History: `dropped` are the batches the server accepted without writing, because all their changes were duplicates;
      `solo` are the assignments since whose issue nobody else wrote the device's manifest; `raced` are those whose client
      was set to watching by the end of an earlier assignment's sync. */
  datatype Sys = Sys(
    server: Server,
    clients: map<ClientId, Machine>,
    jobs: map<AssignmentId, Job>,
    batches: map<string, Batch>,
    deltas: set<(ClientId, Delta)>,
    acks: set<(ClientId, Ack)>,
    reports: set<(ClientId, AssignmentId, nat)>,
    dropped: set<string>,
    solo: set<AssignmentId>,
    raced: set<AssignmentId>)

  const Initial: Sys := Sys(Start, map[], map[], map[], {}, {}, {}, {}, {}, {})

  datatype Step =
    | ServerStep(event: Event)
    | ReceiveAssignment(id: AssignmentId)
    | ClientStep(client: ClientId, step: MachineStep)
    | MakePlan(id: AssignmentId, stages: seq<seq<seq<Change>>>, flags: map<Scope, bool>)
    | SendBatch(id: AssignmentId, batchId: string)
    | ReceiveAck(id: AssignmentId, index: nat, revision: nat)
    | EndStage(id: AssignmentId)
    | EndPush(id: AssignmentId)
    | FlushNothing(id: AssignmentId)
    | FlushBuffered(id: AssignmentId, batchId: string, changes: seq<Change>)
    | ReceiveFlushAck(id: AssignmentId, revision: nat)
    | Report(id: AssignmentId)
    | Watch(id: AssignmentId)
    | SendLive(client: ClientId, batchId: string, changes: seq<Change>)
    | ReceiveLiveAck(client: ClientId, id: AssignmentId, batchId: string, revision: nat)

  function ClientOf(s: Sys, c: ClientId): Machine {
    if c in s.clients then s.clients[c] else Fresh
  }

  /** What hashing produces: no empty batch, and no mutation ids. */
  predicate WellPlanned(stages: seq<seq<seq<Change>>>) {
    forall st, j :: 0 <= st < |stages| && 0 <= j < |stages[st]| ==> PlainBatch(stages[st][j])
  }

  predicate PlainBatch(cs: seq<Change>) {
    cs != [] && forall c :: c in cs ==> c.mutationId == None
  }

  /** The largest of the base revision and the acknowledged revisions. */
  function MaxRevision(base: nat, acked: map<nat, nat>, n: nat): nat
    requires forall j :: 0 <= j < n ==> j in acked
  {
    if n == 0 then base
    else
      var m := MaxRevision(base, acked, n - 1);
      if acked[n - 1] > m then acked[n - 1] else m
  }

  predicate InPhase(s: Sys, id: AssignmentId, phase: JobPhase) {
    id in s.jobs && s.jobs[id].phase == phase
  }

  /** The job's generation check. */
  predicate Current(s: Sys, id: AssignmentId) {
    id in s.jobs && IsCurrent(ClientOf(s, s.jobs[id].client), s.jobs[id].generation, id)
  }

  /** Clients say hello for their own device and directory, and the server handles what clients sent. */
  ghost predicate CanServe(s: Sys, e: Event, key: ClientId -> TaskKey) {
    && Possible(s.server, e)
    && (e.HelloEvent? ==> e.key == key(e.client))
    && (e.DeltaEvent? ==> (e.client, e.delta) in s.deltas)
    && (e.SectionEvent? && e.section.CompleteSection? ==> IsReport(s, e.section))
  }

  /** What the server handles is a report that was sent, with the flags of the reported sync's plans. */
  predicate IsReport(s: Sys, p: Section)
    requires p.CompleteSection?
  {
    && (p.client, p.id, p.baseRevision) in s.reports
    && (p.id in s.jobs ==> p.flags == s.jobs[p.id].flags)
  }

  predicate CanSendBatch(s: Sys, id: AssignmentId, b: string) {
    && InPhase(s, id, Pushing) && b !in s.batches
    && var j := s.jobs[id]; j.stage < |j.stages| && |j.sent| < |j.stages[j.stage]|
  }

  predicate CanReceiveAck(s: Sys, id: AssignmentId, n: nat, rev: nat) {
    && InPhase(s, id, Pushing)
    && var j := s.jobs[id]; n < |j.sent| && n !in j.acked && (j.client, Accepted(id, j.sent[n], rev)) in s.acks
  }

  predicate CanEndStage(s: Sys, id: AssignmentId) {
    && InPhase(s, id, Pushing)
    && var j := s.jobs[id]; j.stage < |j.stages| && forall n :: 0 <= n < |j.stages[j.stage]| ==> n in j.acked
  }

  predicate CanEndPush(s: Sys, id: AssignmentId) {
    InPhase(s, id, Pushing) && s.jobs[id].stage == |s.jobs[id].stages|
  }

  ghost predicate CanFlush(s: Sys, id: AssignmentId, b: string, cs: seq<Change>) {
    && InPhase(s, id, Flushing) && Current(s, id) && b !in s.batches
    && cs != [] && Lists(cs, ClientOf(s, s.jobs[id].client).buffered)
  }

  predicate CanReceiveFlushAck(s: Sys, id: AssignmentId, rev: nat) {
    && InPhase(s, id, AwaitingLive)
    && var j := s.jobs[id]; j.live.Some? && (j.client, Accepted(id, j.live.value, rev)) in s.acks
  }

  ghost predicate CanSendLive(s: Sys, c: ClientId, b: string, cs: seq<Change>) {
    && ClientOf(s, c).state == AssignedWatching && ClientOf(s, c).assignment.Some? && b !in s.batches
    && cs != [] && Lists(cs, ClientOf(s, c).pendingLive)
  }

  ghost predicate Enabled(s: Sys, p: Step, key: ClientId -> TaskKey) {
    match p
    case ServerStep(e) => CanServe(s, e, key)
    case ReceiveAssignment(id) => id in s.server.issued && id !in s.jobs
    case ClientStep(c, m) => true
    case MakePlan(id, stages, _) => InPhase(s, id, Planning) && Current(s, id) && WellPlanned(stages)
    case SendBatch(id, b) => CanSendBatch(s, id, b)
    case ReceiveAck(id, n, rev) => CanReceiveAck(s, id, n, rev)
    case EndStage(id) => CanEndStage(s, id)
    case EndPush(id) => CanEndPush(s, id)
    case FlushNothing(id) => InPhase(s, id, Flushing) && Current(s, id) && ClientOf(s, s.jobs[id].client).buffered == map[]
    case FlushBuffered(id, b, cs) => CanFlush(s, id, b, cs)
    case ReceiveFlushAck(id, rev) => CanReceiveFlushAck(s, id, rev)
    case Report(id) => InPhase(s, id, Reporting) && Current(s, id)
    case Watch(id) => InPhase(s, id, Reported)
    case SendLive(c, b, cs) => CanSendLive(s, c, b, cs)
    case ReceiveLiveAck(c, id, b, rev) =>
      b in s.batches && s.batches[b].LiveBatch? && (c, Accepted(id, b, rev)) in s.acks
  }

  /** Who else's manifest writes an event ends: everyone's on that device except the written assignment's. */
  ghost function SoloAfter(s: Sys, e: Event, t: Server): set<AssignmentId>
    requires Possible(s.server, e)
  {
    var stays := match e
      case OtherWrite(d, _) => set id | id in s.solo && OnOtherDevice(s.server, id, d)
      case DeltaEvent(r, _, delta, _) =>
        if |t.log| == |s.server.log| then s.solo
        else set id | id in s.solo && (id == delta.assignmentId || OnOtherDevice(s.server, id, s.server.records[r].key.deviceId))
      case _ => s.solo;
    stays + (t.issued.Keys - s.server.issued.Keys)
  }

  predicate OnOtherDevice(v: Server, id: AssignmentId, deviceId: string) {
    id in v.issued && DeviceOf(v, id) != deviceId
  }

  function DeviceOf(v: Server, id: AssignmentId): string
    requires id in v.issued
  {
    if v.issued[id].record in v.records then v.records[v.issued[id].record].key.deviceId else ""
  }

  function Answer(v: Server, e: Event, hash: Content -> string): DeltaOutcome
    requires e.DeltaEvent? && e.record in v.records
  {
    ApplyDelta(v.records[e.record].task, e.client, e.delta, TaskRuns.DiskOf(v, v.records[e.record].key.deviceId), hash, e.allowed)
  }

  ghost function Served(s: Sys, e: Event, hash: Content -> string): Sys
    requires Possible(s.server, e)
  {
    var t := Next(s.server, e, hash);
    var s1 := s.(server := t, solo := SoloAfter(s, e, t));
    if e.DeltaEvent? then
      var o := Answer(s.server, e, hash);
      s1.(acks := s.acks + {(e.client, o.ack)},
          dropped := if o.ack.Accepted? && o.applied == [] then s.dropped + {e.delta.batchId} else s.dropped)
    else s1
  }

  function AssignmentReceived(s: Sys, id: AssignmentId): Sys
    requires id in s.server.issued
  {
    var i := s.server.issued[id];
    var m := Activated(ClientOf(s, i.client), id, i.manifest.revision);
    s.(clients := s.clients[i.client := m],
       jobs := s.jobs[id := Job(i.client, m.generation, Planning, i.manifest.revision, [], 0, [], map[], None, [], map[])])
  }

  function BatchSent(s: Sys, id: AssignmentId, b: string): Sys
    requires CanSendBatch(s, id, b)
  {
    var j := s.jobs[id];
    var base := j.revision + |j.sent|;
    s.(jobs := s.jobs[id := j.(sent := j.sent + [b])],
       batches := s.batches[b := PlanBatch(id, j.stage, |j.sent|, base)],
       deltas := s.deltas + {(j.client, Delta(id, b, base, j.stages[j.stage][|j.sent|]))})
  }

  function StageEnded(s: Sys, id: AssignmentId): Sys
    requires CanEndStage(s, id)
  {
    var j := s.jobs[id];
    s.(jobs := s.jobs[id := j.(revision := MaxRevision(j.revision, j.acked, |j.stages[j.stage]|),
                               stage := j.stage + 1, sent := [], acked := map[])])
  }

  function PushEnded(s: Sys, id: AssignmentId): Sys
    requires id in s.jobs
  {
    var j := s.jobs[id];
    s.(jobs := s.jobs[id := j.(phase := Flushing)],
       clients := s.clients[j.client := WithRevision(ClientOf(s, j.client), j.revision)])
  }

  function Flushed(s: Sys, id: AssignmentId, b: string, cs: seq<Change>): Sys
    requires id in s.jobs
  {
    var j := s.jobs[id];
    var m := ClientOf(s, j.client);
    s.(jobs := s.jobs[id := j.(phase := AwaitingLive, live := Some(b), flushed := cs)],
       clients := s.clients[j.client := BufferTaken(m)],
       batches := s.batches[b := LiveBatch(id, true, m.revision)],
       deltas := s.deltas + {(j.client, Delta(id, b, m.revision, cs))})
  }

  function FlushAcknowledged(s: Sys, id: AssignmentId, rev: nat): Sys
    requires id in s.jobs
  {
    var j := s.jobs[id];
    s.(jobs := s.jobs[id := j.(phase := Reporting)],
       clients := s.clients[j.client := WithRevision(ClientOf(s, j.client), rev)])
  }

  function ReportSent(s: Sys, id: AssignmentId): Sys
    requires id in s.jobs
  {
    var j := s.jobs[id];
    s.(jobs := s.jobs[id := j.(phase := Reported)],
       reports := s.reports + {(j.client, id, ClientOf(s, j.client).revision)})
  }

  /** The sync sets the state when its report has gone out, whatever assignment the client has by then. */
  function WatchStarted(s: Sys, id: AssignmentId): Sys
    requires id in s.jobs
  {
    var j := s.jobs[id];
    var m := ClientOf(s, j.client);
    s.(jobs := s.jobs[id := j.(phase := Finished)],
       clients := s.clients[j.client := Watching(m)],
       raced := if m.assignment.Some? && m.assignment.value != id then s.raced + {m.assignment.value} else s.raced)
  }

  function LiveSent(s: Sys, c: ClientId, b: string, cs: seq<Change>): Sys
    requires ClientOf(s, c).assignment.Some?
  {
    var m := ClientOf(s, c);
    s.(clients := s.clients[c := PendingTaken(m)],
       batches := s.batches[b := LiveBatch(m.assignment.value, false, m.revision)],
       deltas := s.deltas + {(c, Delta(m.assignment.value, b, m.revision, cs))})
  }

  ghost function Perform(s: Sys, p: Step, key: ClientId -> TaskKey, hash: Content -> string): Sys
    requires Enabled(s, p, key)
  {
    match p
    case ServerStep(e) => Served(s, e, hash)
    case ReceiveAssignment(id) => AssignmentReceived(s, id)
    case ClientStep(c, m) => s.(clients := s.clients[c := Take(ClientOf(s, c), m)])
    case MakePlan(id, stages, flags) => s.(jobs := s.jobs[id := s.jobs[id].(phase := Pushing, stages := stages, flags := flags)])
    case SendBatch(id, b) => BatchSent(s, id, b)
    case ReceiveAck(id, n, rev) => s.(jobs := s.jobs[id := s.jobs[id].(acked := s.jobs[id].acked[n := rev])])
    case EndStage(id) => StageEnded(s, id)
    case EndPush(id) => PushEnded(s, id)
    case FlushNothing(id) => s.(jobs := s.jobs[id := s.jobs[id].(phase := Reporting)])
    case FlushBuffered(id, b, cs) => Flushed(s, id, b, cs)
    case ReceiveFlushAck(id, rev) => FlushAcknowledged(s, id, rev)
    case Report(id) => ReportSent(s, id)
    case Watch(id) => WatchStarted(s, id)
    case SendLive(c, b, cs) => LiveSent(s, c, b, cs)
    case ReceiveLiveAck(c, id, b, rev) => s.(clients := s.clients[c := WithRevision(ClientOf(s, c), rev)])
  }

  ghost predicate IsExecution(ps: seq<Step>, key: ClientId -> TaskKey, hash: Content -> string)
    decreases |ps|, 0
  {
    ps == [] || (IsExecution(ps[..|ps| - 1], key, hash) && Enabled(Reached(ps[..|ps| - 1], key, hash), ps[|ps| - 1], key))
  }

  ghost function Reached(ps: seq<Step>, key: ClientId -> TaskKey, hash: Content -> string): Sys
    requires IsExecution(ps, key, hash)
    decreases |ps|, 1
  {
    if ps == [] then Initial else Perform(Reached(ps[..|ps| - 1], key, hash), ps[|ps| - 1], key, hash)
  }

  // ---------- facts about the log ----------

  /** The entries written under one assignment, in order. */
  function Under(log: seq<LogEntry>, id: AssignmentId): seq<LogEntry> {
    if log == [] then []
    else
      var k := |log| - 1;
      Under(log[..k], id) + (if log[k].delta.assignmentId == id then [log[k]] else [])
  }

  function Written(es: seq<LogEntry>): seq<Change> {
    if es == [] then [] else Written(es[..|es| - 1]) + es[|es| - 1].written
  }

  /** The batch of a plan at a stage and index has been written under its assignment, whole. */
  ghost predicate Logged(s: Sys, id: AssignmentId, st: nat, n: nat) {
    exists i :: 0 <= i < |s.server.log| && IsEntryOf(s, i, id, st, n)
  }

  ghost predicate IsEntryOf(s: Sys, i: nat, id: AssignmentId, st: nat, n: nat) {
    && i < |s.server.log| && id in s.jobs && st < |s.jobs[id].stages| && n < |s.jobs[id].stages[st]|
    && var e := s.server.log[i];
    && e.delta.assignmentId == id && e.delta.batchId in s.batches
    && s.batches[e.delta.batchId].PlanBatch? && s.batches[e.delta.batchId].stage == st && s.batches[e.delta.batchId].index == n
    && e.written == s.jobs[id].stages[st][n]
  }

  /** An accepted batch was either written or consisted of remembered changes only. */
  ghost predicate LoggedOrDropped(s: Sys, b: string) {
    b in s.dropped || exists i :: 0 <= i < |s.server.log| && s.server.log[i].delta.batchId == b
  }

  // ---------- the invariant ----------

  /** `rev` is a revision the store has reached and no assignment held by `c` is behind. */
  ghost predicate Known(v: Server, key: ClientId -> TaskKey, c: ClientId, rev: nat) {
    && rev <= TaskRuns.DiskOf(v, key(c).deviceId).manifest.revision
    && forall r :: r in v.records && v.records[r].task.active == Some(c) ==> rev <= v.records[r].task.revision
  }

  ghost predicate HonestRecord(v: Server, key: ClientId -> TaskKey, r: nat)
    requires r in v.records
  {
    forall c :: c in v.records[r].task.candidates ==> key(c) == v.records[r].key
  }

  ghost predicate HonestIssue(v: Server, key: ClientId -> TaskKey, id: AssignmentId)
    requires id in v.issued
  {
    var i := v.issued[id];
    i.record in v.records && v.records[i.record].key == key(i.client) && Known(v, key, i.client, i.manifest.revision)
  }

  ghost predicate ServerOk(v: Server, key: ClientId -> TaskKey) {
    && Inv(v)
    && (forall r :: r in v.records ==> HonestRecord(v, key, r))
    && (forall id :: id in v.issued ==> HonestIssue(v, key, id))
  }

  ghost predicate ClientOk(s: Sys, key: ClientId -> TaskKey, c: ClientId) {
    var m := ClientOf(s, c);
    && Known(s.server, key, c, m.revision)
    && (m.assignment.Some? ==> m.assignment.value in s.jobs && s.jobs[m.assignment.value].client == c)
    && (m.assignment.Some? ==> s.jobs[m.assignment.value].generation == m.generation)
    && (m.assignment.Some? ==> m.state == AssignedSyncing || m.state == AssignedWatching)
    && (m.assignment.Some? && m.state == AssignedWatching ==>
        InPhase(s, m.assignment.value, Finished) || m.assignment.value in s.raced)
    && (m.assignment.Some? && InPhase(s, m.assignment.value, Finished) ==> m.state == AssignedWatching)
    && (m.state == AssignedSyncing ==> m.pendingLive == map[])
  }

  ghost predicate JobOk(s: Sys, key: ClientId -> TaskKey, id: AssignmentId)
    requires id in s.jobs
  {
    var j := s.jobs[id];
    && id in s.server.issued && s.server.issued[id].client == j.client
    && Known(s.server, key, j.client, j.revision)
    && JobShape(j) && SentOk(s, id, j) && AckedOk(s, key, id, j) && StagesLogged(s, id, j) && FlushOk(s, id, j)
  }

  predicate JobShape(j: Job) {
    && WellPlanned(j.stages) && j.stage <= |j.stages|
    && (j.phase == Planning ==> j.stages == [])
    && (j.phase == Planning || j.phase == Pushing || j.phase == Flushing ==> j.live == None)
    && (j.live.Some? ==> j.flushed != [])
    && (j.phase != Planning && j.phase != Pushing ==> j.stage == |j.stages|)
    && |j.sent| <= (if j.stage < |j.stages| then |j.stages[j.stage]| else 0)
    && (forall n :: n in j.acked ==> n < |j.sent|)
  }

  /** The batches of the current stage went out on predicted bases: one, two, ... above the stage's base. */
  predicate SentOk(s: Sys, id: AssignmentId, j: Job) {
    forall n :: 0 <= n < |j.sent| ==>
      j.sent[n] in s.batches && s.batches[j.sent[n]] == PlanBatch(id, j.stage, n, j.revision + n)
  }

  ghost predicate AckedOk(s: Sys, key: ClientId -> TaskKey, id: AssignmentId, j: Job) {
    forall n :: n in j.acked && n < |j.sent| ==> AckOk(s, key, j.client, id, j.sent[n], j.acked[n])
  }

  ghost predicate StagesLogged(s: Sys, id: AssignmentId, j: Job) {
    forall st, n :: 0 <= st < j.stage && st < |j.stages| && 0 <= n < |j.stages[st]| ==> Logged(s, id, st, n)
  }

  ghost predicate FlushOk(s: Sys, id: AssignmentId, j: Job) {
    && (j.live.Some? ==> IsFlushOf(s, j.live.value, id))
    && (HasFlushed(j) && j.live.Some? ==> LoggedOrDropped(s, j.live.value))
  }

  /** The sync has nothing left to flush. */
  predicate HasFlushed(j: Job) {
    j.phase == Reporting || j.phase == Reported || j.phase == Finished
  }

  predicate HasReported(j: Job) {
    j.phase == Reported || j.phase == Finished
  }

  predicate IsFlushOf(s: Sys, b: string, id: AssignmentId) {
    b in s.batches && s.batches[b].LiveBatch? && s.batches[b].id == id && s.batches[b].flushed
  }

  /** What a positive ack means. */
  ghost predicate AckOk(s: Sys, key: ClientId -> TaskKey, c: ClientId, id: AssignmentId, b: string, rev: nat) {
    && b in s.batches && s.batches[b].id == id && Known(s.server, key, c, rev) && LoggedOrDropped(s, b)
    && (s.batches[b].PlanBatch? ==> PlanAckOk(s, id, b, rev))
  }

  ghost predicate PlanAckOk(s: Sys, id: AssignmentId, b: string, rev: nat)
    requires b in s.batches && s.batches[b].PlanBatch?
  {
    && (exists i :: 0 <= i < |s.server.log| && IsEntryOf(s, i, id, s.batches[b].stage, s.batches[b].index))
    && (id in s.solo ==> rev == s.batches[b].base + 1)
  }

  ghost predicate BatchOk(s: Sys, b: string)
    requires b in s.batches
  {
    s.batches[b].id in s.jobs && (if s.batches[b].PlanBatch? then PlanBatchOk(s, b) else LiveBatchOk(s, b))
  }

  ghost predicate PlanBatchOk(s: Sys, b: string)
    requires b in s.batches && s.batches[b].id in s.jobs && s.batches[b].PlanBatch?
  {
    var x := s.batches[b];
    var j := s.jobs[x.id];
    && x.stage <= j.stage && x.stage < |j.stages| && x.index < |j.stages[x.stage]|
    && (x.id in s.solo && x.id in s.server.issued ==>
        x.base == s.server.issued[x.id].manifest.revision + Offset(j.stages, x.stage) + x.index)
  }

  /** A job flushes at most one batch; other live batches go out when it has finished, or before, if the end of an earlier
      sync has set the client to watching. */
  predicate LiveBatchOk(s: Sys, b: string)
    requires b in s.batches && s.batches[b].id in s.jobs && s.batches[b].LiveBatch?
  {
    var j := s.jobs[s.batches[b].id];
    if s.batches[b].flushed then j.live == Some(b) else j.phase == Finished || s.batches[b].id in s.raced
  }

  ghost predicate DeltaOk(s: Sys, c: ClientId, d: Delta) {
    && d.batchId in s.batches && s.batches[d.batchId].id == d.assignmentId && d.baseRevision == s.batches[d.batchId].base
    && d.assignmentId in s.jobs && s.jobs[d.assignmentId].client == c
    && (s.batches[d.batchId].PlanBatch? ==>
        var x := s.batches[d.batchId];
        var j := s.jobs[d.assignmentId];
        x.stage < |j.stages| && x.index < |j.stages[x.stage]| && d.changes == j.stages[x.stage][x.index])
    && (IsFlushOf(s, d.batchId, d.assignmentId) ==> d.changes == s.jobs[d.assignmentId].flushed)
  }

  ghost predicate EntryOk(s: Sys, i: nat)
    requires i < |s.server.log|
  {
    var e := s.server.log[i];
    && DeltaOk(s, e.client, e.delta)
    && e.written == Unremembered(e.delta.changes, e.remembered)
    && (s.batches[e.delta.batchId].PlanBatch? ==> e.written == e.delta.changes)
    && (IsLateLive(s, e.delta) && s.jobs[e.delta.assignmentId].live.Some? ==>
        FlushedBefore(s, s.jobs[e.delta.assignmentId].live.value, i))
  }

  /** The delta of a live batch that went out after its sync had finished. */
  predicate IsLateLive(s: Sys, d: Delta) {
    d.batchId in s.batches && s.batches[d.batchId].LiveBatch? && !s.batches[d.batchId].flushed && d.assignmentId !in s.raced
  }

  /** The flushed batch was accepted before the log's entry `i`. */
  ghost predicate FlushedBefore(s: Sys, b: string, i: nat) {
    b in s.dropped || exists k :: 0 <= k < i && k < |s.server.log| && s.server.log[k].delta.batchId == b
  }

  /** How many batches the stages before `st` hold. */
  function Offset(stages: seq<seq<seq<Change>>>, st: nat): nat
    requires st <= |stages|
  {
    if st == 0 then 0 else Offset(stages, st - 1) + |stages[st - 1]|
  }

  /** With no other writer since `id` was issued, the manifest is the issued one with exactly the entries of `id` applied,
      each of which raised the revision by one. */
  ghost predicate SoloOk(s: Sys, id: AssignmentId)
    requires id in s.server.issued
  {
    var v := s.server;
    var m0, m := v.issued[id].manifest, TaskRuns.DiskOf(v, DeviceOf(v, id)).manifest;
    var w := Under(v.log, id);
    && m.entries == ApplyChanges(m0.entries, Written(w)) && m.revision == m0.revision + |w|
    && (forall k :: 0 <= k < |w| ==> w[k].delta.baseRevision == m0.revision + k && w[k].revision == m0.revision + k + 1)
    && (v.issued[id].record in v.records && v.records[v.issued[id].record].task.assignment == Some(id) ==>
        v.records[v.issued[id].record].task.revision == m.revision)
    && (id in s.jobs && s.jobs[id].stage <= |s.jobs[id].stages| ==>
        s.jobs[id].revision == m0.revision + Offset(s.jobs[id].stages, s.jobs[id].stage))
  }

  ghost predicate ReadyOk(s: Sys, r: nat)
    requires r in s.server.records
  {
    var t := s.server.records[r].task;
    t.phase == Ready ==> t.assignment.Some? && t.assignment.value in s.jobs && HasReported(s.jobs[t.assignment.value])
  }

  ghost predicate ReportOk(s: Sys, key: ClientId -> TaskKey, c: ClientId, id: AssignmentId, base: nat) {
    id in s.jobs && HasReported(s.jobs[id]) && s.jobs[id].client == c && Known(s.server, key, c, base)
  }

  /** A flushed batch that was dropped as duplicate is not written later either: while its base is the revision of the
      record, all its changes are remembered. */
  ghost predicate DroppedOk(s: Sys, b: string) {
    && b in s.batches && s.batches[b].id in s.jobs
    && (IsFlushOf(s, b, s.batches[b].id) ==>
        && NotLogged(s.server, b) && AllIdentified(s.jobs[s.batches[b].id].flushed)
        && forall r :: r in s.server.records ==> StillDropped(s, b, r))
  }

  predicate AllIdentified(cs: seq<Change>) {
    forall c :: c in cs ==> MutationOf(c).Some?
  }

  predicate NotLogged(v: Server, b: string) {
    forall i :: 0 <= i < |v.log| ==> v.log[i].delta.batchId != b
  }

  predicate StillDropped(s: Sys, b: string, r: nat)
    requires b in s.batches && s.batches[b].id in s.jobs && r in s.server.records
  {
    var t := s.server.records[r].task;
    t.assignment == Some(s.batches[b].id) ==>
      && s.batches[b].base <= t.revision
      && (s.batches[b].base == t.revision ==> Unremembered(s.jobs[s.batches[b].id].flushed, t.recentIds) == [])
  }

  ghost predicate SysOk(s: Sys, key: ClientId -> TaskKey) {
    && ServerOk(s.server, key)
    && (forall c :: ClientOk(s, key, c))
    && (forall id :: id in s.jobs ==> JobOk(s, key, id))
    && (forall b :: b in s.batches ==> BatchOk(s, b))
    && (forall c, d :: (c, d) in s.deltas ==> DeltaOk(s, c, d))
    && (forall i :: 0 <= i < |s.server.log| ==> EntryOk(s, i))
    && (forall c, id, b, rev :: (c, Accepted(id, b, rev)) in s.acks ==> AckOk(s, key, c, id, b, rev))
    && (forall c, id, base :: (c, id, base) in s.reports ==> ReportOk(s, key, c, id, base))
    && (forall r :: r in s.server.records ==> ReadyOk(s, r))
    && s.solo <= s.server.issued.Keys
    && (forall id :: id in s.solo ==> SoloOk(s, id))
    && (forall b :: b in s.dropped ==> DroppedOk(s, b))
  }

  // ---------- what a server step does ----------

  /** A record keeps its holder's assignment at a revision no smaller, or carries a new one at the store's revision. */
  ghost predicate RecordStep(v: Server, w: Server, key: ClientId -> TaskKey, r: nat)
    requires r in w.records
  {
    var u := w.records[r].task;
    && HonestRecord(w, key, r)
    && (r in v.records ==> w.records[r].key == v.records[r].key)
    && (u.active.Some? ==>
        || (r in v.records && u.active == v.records[r].task.active && u.assignment == v.records[r].task.assignment
            && u.revision >= v.records[r].task.revision)
        || (u.assignment.Some? && u.assignment.value !in v.issued
            && u.revision == TaskRuns.DiskOf(v, w.records[r].key.deviceId).manifest.revision))
  }

  ghost predicate HonestEvent(v: Server, e: Event, key: ClientId -> TaskKey) {
    Possible(v, e) && (e.HelloEvent? ==> e.key == key(e.client))
  }

  /** Storing a good change of one record is a step of every record. */
  lemma StoredRecordsStep(v: Server, q: nat, u: Task, x: Context, key: ClientId -> TaskKey, r: nat)
    requires q in v.records && r in v.records && RecordOk(v, r) && HonestRecord(v, key, r)
    requires GoodChange(v.records[q].task, u, x) && x.newId !in v.issued
    requires x.manifest.revision == TaskRuns.DiskOf(v, v.records[q].key.deviceId).manifest.revision
    requires forall c :: c in u.candidates ==> key(c) == v.records[q].key
    ensures RecordStep(v, WithTask(v, q, u, x), key, r)
  {}

  lemma HelloRecordsStep(v: Server, e: Event, key: ClientId -> TaskKey, hash: Content -> string, r: nat)
    requires ServerOk(v, key) && HonestEvent(v, e, key) && e.HelloEvent? && r in Next(v, e, hash).records
    ensures RecordStep(v, Next(v, e, hash), key, r)
  {
    hide Inv, Hello, GoodChange, RecordOk, HonestIssue, RecordStep;
    var x := Context(v.registry, TaskRuns.DiskOf(v, e.key.deviceId).manifest, e.newId, e.now);
    var (v1, q) := GetOrCreate(v, e.key, e.slot);
    GetOrCreateKeeps(v, e.key, e.slot);
    if r in v.records { assert HonestRecord(v, key, r); }
    if q in v.records { assert HonestRecord(v, key, q); }
    RecordIsOk(v1, q);
    RecordIsOk(v1, r);
    ConsistentRecord(v1, q);
    HelloIsGood(v1.records[q].task, e.client, x);
    StoredRecordsStep(v1, q, Hello(v1.records[q].task, e.client, x), x, key, r);
    CreatedRecordStep(v, v1, Next(v, e, hash), key, r);
  }

  lemma ConsistentRecord(v: Server, r: nat)
    requires r in v.records && RecordOk(v, r)
    ensures Consistent(v.records[r].task)
  {}

  lemma CreatedRecordStep(v: Server, v1: Server, w: Server, key: ClientId -> TaskKey, r: nat)
    requires r in w.records && RecordStep(v1, w, key, r) && v1.issued == v.issued && v1.disks == v.disks
    requires forall q :: q in v.records ==> q in v1.records && v1.records[q] == v.records[q]
    requires forall q :: q in v1.records && q !in v.records ==> v1.records[q].task == NewTask
    ensures RecordStep(v, w, key, r)
  {}

  lemma SectionRecordsStep(v: Server, e: Event, key: ClientId -> TaskKey, hash: Content -> string, r: nat)
    requires ServerOk(v, key) && HonestEvent(v, e, key) && e.SectionEvent? && r in Next(v, e, hash).records
    ensures RecordStep(v, Next(v, e, hash), key, r)
  {
    hide Inv, RunSection, GoodChange, HonestIssue;
    var q := e.record;
    var x := Context(v.registry, TaskRuns.DiskOf(v, v.records[q].key.deviceId).manifest, e.newId, e.now);
    assert HonestRecord(v, key, r) && HonestRecord(v, key, q);
    RecordIsOk(v, r);
    RecordIsOk(v, q);
    SectionIsGood(v.records[q].task, e.section, x);
    StoredRecordsStep(v, q, RunSection(v.records[q].task, e.section, x), x, key, r);
  }

  lemma RecordsStep(v: Server, e: Event, key: ClientId -> TaskKey, hash: Content -> string, r: nat)
    requires ServerOk(v, key) && HonestEvent(v, e, key) && r in Next(v, e, hash).records
    ensures RecordStep(v, Next(v, e, hash), key, r)
  {
    hide Inv, ApplyDelta, RunSection, Hello, HonestIssue, Consistent;
    match e {
      case HelloEvent(_, _, _, _, _) => HelloRecordsStep(v, e, key, hash, r);
      case SectionEvent(_, _, _, _) => SectionRecordsStep(v, e, key, hash, r);
      case DeltaEvent(q, c, d, allowed) =>
        assert HonestRecord(v, key, r);
        RecordIsOk(v, r);
        if r == q { DeltaFence(v.records[r].task, c, d, TaskRuns.DiskOf(v, v.records[r].key.deviceId), hash, allowed); }
      case _ => assert HonestRecord(v, key, r);
    }
  }

  lemma DisksStep(v: Server, e: Event, hash: Content -> string, d: string)
    requires Inv(v) && Possible(v, e)
    ensures TaskRuns.DiskOf(Next(v, e, hash), d).manifest.revision >= TaskRuns.DiskOf(v, d).manifest.revision
  {
    match e {
      case DeltaEvent(r, c, delta, allowed) =>
        assert RecordOk(v, r);
        DeltaFence(v.records[r].task, c, delta, TaskRuns.DiskOf(v, v.records[r].key.deviceId), hash, allowed);
      case _ =>
    }
  }

  lemma KnownStays(v: Server, e: Event, key: ClientId -> TaskKey, hash: Content -> string, c: ClientId, rev: nat)
    requires ServerOk(v, key) && HonestEvent(v, e, key) && Known(v, key, c, rev)
    ensures Known(Next(v, e, hash), key, c, rev)
  {
    var w := Next(v, e, hash);
    DisksStep(v, e, hash, key(c).deviceId);
    NextKeeps(v, e, hash);
    forall r | r in w.records && w.records[r].task.active == Some(c) ensures rev <= w.records[r].task.revision {
      RecordsStep(v, e, key, hash, r);
      assert RecordOk(w, r) && HonestRecord(w, key, r);
    }
  }

  /** Two records never have the same active client. */
  lemma OneRecordPerClient(v: Server, key: ClientId -> TaskKey, q: nat, r: nat, c: ClientId)
    requires ServerOk(v, key) && q in v.records && r in v.records
    requires v.records[q].task.active == Some(c) && v.records[r].task.active == Some(c)
    ensures q == r
  {
    assert HonestRecord(v, key, q) && HonestRecord(v, key, r);
    SameHolder(v, key, q, r, c);
  }

  /** The revision of the record whose active client is `c`, when it is the store's, is known to `c`. */
  lemma HolderKnows(v: Server, key: ClientId -> TaskKey, r: nat, c: ClientId)
    requires ServerOk(v, key) && r in v.records && v.records[r].task.active == Some(c)
    ensures Known(v, key, c, v.records[r].task.revision)
  {
    assert RecordOk(v, r) && HonestRecord(v, key, r);
    forall q | q in v.records && v.records[q].task.active == Some(c) ensures q == r {
      OneRecordPerClient(v, key, q, r, c);
    }
  }

  /** What the issue of a new assignment records. */
  ghost predicate FreshIssue(v: Server, w: Server, id: AssignmentId)
    requires id in w.issued
  {
    var i := w.issued[id];
    && i.record in w.records && w.records[i.record].task.assignment == Some(id)
    && w.records[i.record].task.active == Some(i.client)
    && i.manifest == TaskRuns.DiskOf(v, w.records[i.record].key.deviceId).manifest
    && w.log == v.log
  }

  ghost predicate SameEntries(v: Server, w: Server) {
    forall d :: TaskRuns.DiskOf(w, d).manifest.entries == TaskRuns.DiskOf(v, d).manifest.entries
             && TaskRuns.DiskOf(w, d).manifest.revision == TaskRuns.DiskOf(v, d).manifest.revision
  }

  /** What `w` may have issued since `v`, with unchanged manifests. */
  ghost predicate IssueStep(v: Server, w: Server) {
    && v.issued.Keys <= w.issued.Keys && (forall id :: id in v.issued ==> w.issued[id] == v.issued[id])
    && v.records.Keys <= w.records.Keys
    && (forall id :: id in w.issued && id !in v.issued ==> FreshIssue(v, w, id))
  }

  lemma StoredIssueStep(v: Server, q: nat, u: Task, x: Context)
    requires q in v.records && x.newId !in v.issued
    requires x.manifest == TaskRuns.DiskOf(v, v.records[q].key.deviceId).manifest
    ensures IssueStep(v, WithTask(v, q, u, x))
  {}

  lemma HelloIssueStep(v: Server, e: Event, hash: Content -> string)
    requires Possible(v, e) && e.HelloEvent?
    requires e.key in v.live && v.live[e.key] in v.records ==> v.records[v.live[e.key]].key == e.key
    ensures IssueStep(v, Next(v, e, hash)) && SameEntries(v, Next(v, e, hash)) && Next(v, e, hash).log == v.log
  {
    var x := Context(v.registry, TaskRuns.DiskOf(v, e.key.deviceId).manifest, e.newId, e.now);
    var (v1, q) := GetOrCreate(v, e.key, e.slot);
    StoredIssueStep(v1, q, Hello(v1.records[q].task, e.client, x), x);
    CreatedIssueStep(v, v1, Next(v, e, hash));
  }

  lemma CreatedIssueStep(v: Server, v1: Server, w: Server)
    requires v1.issued == v.issued && v.records.Keys <= v1.records.Keys && v1.disks == v.disks && v1.log == v.log
    requires IssueStep(v1, w)
    ensures IssueStep(v, w)
  {
    forall id | id in w.issued && id !in v.issued ensures FreshIssue(v, w, id) { assert FreshIssue(v1, w, id); }
  }

  lemma FlagsKeepEntries(v: Server, r: nat, c: Section)
    requires r in v.records
    ensures SameEntries(v, FlagWrite(v, r, c))
  {}

  lemma SectionIssueStep(v: Server, e: Event, hash: Content -> string)
    requires Possible(v, e) && e.SectionEvent?
    ensures IssueStep(v, Next(v, e, hash)) && SameEntries(v, Next(v, e, hash)) && Next(v, e, hash).log == v.log
  {
    hide RunSection, WithTruncated, IssueStep;
    var x := Context(v.registry, TaskRuns.DiskOf(v, v.records[e.record].key.deviceId).manifest, e.newId, e.now);
    FlagsKeepEntries(v, e.record, e.section);
    StoredAfterFlags(v, FlagWrite(v, e.record, e.section), e.record, RunSection(v.records[e.record].task, e.section, x), x);
  }

  lemma StoredAfterFlags(v: Server, v1: Server, q: nat, u: Task, x: Context)
    requires v1.records == v.records && v1.issued == v.issued && v1.log == v.log && q in v.records && x.newId !in v.issued
    requires x.manifest == TaskRuns.DiskOf(v, v.records[q].key.deviceId).manifest
    ensures IssueStep(v, WithTask(v1, q, u, x))
  {}

  lemma IssuedStep(v: Server, e: Event, hash: Content -> string)
    requires Inv(v) && Possible(v, e)
    ensures IssueStep(v, Next(v, e, hash))
    ensures !e.OtherWrite? && !e.DeltaEvent? ==> SameEntries(v, Next(v, e, hash)) && Next(v, e, hash).log == v.log
    ensures e.OtherWrite? || e.DeltaEvent? ==> Next(v, e, hash).issued == v.issued
  {
    hide RecordsOk, DeadOk, LogsOk, Hello, RunSection, ApplyDelta;
    match e {
      case HelloEvent(_, _, _, _, _) => HelloIssueStep(v, e, hash);
      case SectionEvent(_, _, _, _) => SectionIssueStep(v, e, hash);
      case _ =>
    }
  }

  lemma ServerStaysOk(v: Server, e: Event, key: ClientId -> TaskKey, hash: Content -> string)
    requires ServerOk(v, key) && HonestEvent(v, e, key)
    ensures ServerOk(Next(v, e, hash), key)
  {
    var w := Next(v, e, hash);
    NextKeeps(v, e, hash);
    forall r | r in w.records ensures HonestRecord(w, key, r) { RecordsStep(v, e, key, hash, r); }
    IssuedStep(v, e, hash);
    forall id | id in w.issued ensures HonestIssue(w, key, id) {
      if id in v.issued {
        assert HonestIssue(v, key, id);
        RecordsStep(v, e, key, hash, v.issued[id].record);
        KnownStays(v, e, key, hash, v.issued[id].client, v.issued[id].manifest.revision);
      } else {
        NewIssueIsHonest(v, e, key, hash, id);
      }
    }
  }

  lemma NewIssueIsHonest(v: Server, e: Event, key: ClientId -> TaskKey, hash: Content -> string, id: AssignmentId)
    requires ServerOk(v, key) && HonestEvent(v, e, key)
    requires id in Next(v, e, hash).issued && id !in v.issued
    ensures HonestIssue(Next(v, e, hash), key, id)
  {
    var w := Next(v, e, hash);
    NextKeeps(v, e, hash);
    IssuedStep(v, e, hash);
    assert FreshIssue(v, w, id);
    var i := w.issued[id];
    RecordsStep(v, e, key, hash, i.record);
    assert RecordOk(w, i.record) && HonestRecord(w, key, i.record);
    DisksStep(v, e, hash, key(i.client).deviceId);
    forall r | r in w.records && w.records[r].task.active == Some(i.client) ensures i.manifest.revision <= w.records[r].task.revision {
      RecordsStep(v, e, key, hash, r);
      SameHolder(w, key, r, i.record, i.client);
    }
  }

  lemma SameHolder(w: Server, key: ClientId -> TaskKey, q: nat, r: nat, c: ClientId)
    requires Inv(w) && q in w.records && r in w.records && HonestRecord(w, key, q) && HonestRecord(w, key, r)
    requires w.records[q].task.active == Some(c) && w.records[r].task.active == Some(c)
    ensures q == r
  {
    assert RecordOk(w, q) && RecordOk(w, r);
    assert IsLive(w, q) && IsLive(w, r);
  }
}
