/** What clients do keeps the protocol's invariant. */
module SyncProtocolClients {
  import opened Options
  import opened CacheStore
  import opened CacheTasks
  import opened TaskRuns
  import opened ClientMachine
  import opened SyncProtocol

  // ---------- moving only the client side ----------

  predicate JobAdvances(j: Job, k: Job) {
    && k.client == j.client && k.generation == j.generation && (k.stages == j.stages || j.stages == []) && j.stage <= k.stage
    && (j.live.Some? ==> k.live == j.live && k.flushed == j.flushed)
    && (HasReported(j) ==> HasReported(k)) && (j.phase == Finished ==> k == j)
  }

  /** Only clients, jobs and messages from clients move; batches and jobs are never taken back. */
  ghost predicate ClientSideMoved(s: Sys, t: Sys) {
    && t.server == s.server && t.acks == s.acks && t.dropped == s.dropped && t.solo == s.solo
    && s.raced <= t.raced
    && (forall b :: b in s.batches ==> b in t.batches && t.batches[b] == s.batches[b])
    && (forall id :: id in s.jobs ==> id in t.jobs && JobAdvances(s.jobs[id], t.jobs[id]))
  }

  ghost predicate NewJobsOk(s: Sys, t: Sys, key: ClientId -> TaskKey) {
    forall id :: id in t.jobs && (id in s.jobs ==> t.jobs[id] != s.jobs[id]) ==> JobOk(t, key, id) && (id in t.solo ==> SoloJobOk(t, id))
  }

  /** What a solo assignment says about the job that works under it. */
  ghost predicate SoloJobOk(t: Sys, id: AssignmentId)
    requires id in t.jobs
  {
    id in t.server.issued && t.jobs[id].stage <= |t.jobs[id].stages| ==>
      t.jobs[id].revision == t.server.issued[id].manifest.revision + Offset(t.jobs[id].stages, t.jobs[id].stage)
  }

  ghost predicate NewMessagesOk(s: Sys, t: Sys, key: ClientId -> TaskKey) {
    && (forall b :: b in t.batches && b !in s.batches ==> BatchOk(t, b))
    && (forall c, d :: (c, d) in t.deltas && (c, d) !in s.deltas ==> DeltaOk(t, c, d))
    && (forall c, id, base :: (c, id, base) in t.reports && (c, id, base) !in s.reports ==> ReportOk(t, key, c, id, base))
  }

  ghost predicate NewClientsOk(s: Sys, t: Sys, key: ClientId -> TaskKey) {
    forall c :: ClientOf(t, c) != ClientOf(s, c) || SyncEnds(s, t, ClientOf(t, c)) ==> ClientOk(t, key, c)
  }

  predicate SyncEnds(s: Sys, t: Sys, m: Machine) {
    m.assignment.Some? && InPhase(t, m.assignment.value, Finished) && !InPhase(s, m.assignment.value, Finished)
  }

  lemma EntryOfMoves(s: Sys, t: Sys, i: nat, id: AssignmentId, st: nat, n: nat)
    requires ClientSideMoved(s, t) && i < |s.server.log| && IsEntryOf(s, i, id, st, n)
    ensures IsEntryOf(t, i, id, st, n)
  {}

  lemma AckMoves(s: Sys, t: Sys, key: ClientId -> TaskKey, c: ClientId, id: AssignmentId, b: string, rev: nat)
    requires ClientSideMoved(s, t) && AckOk(s, key, c, id, b, rev)
    ensures AckOk(t, key, c, id, b, rev)
  {
    hide Known, IsEntryOf;
    if s.batches[b].PlanBatch? {
      var i :| 0 <= i < |s.server.log| && IsEntryOf(s, i, id, s.batches[b].stage, s.batches[b].index);
      EntryOfMoves(s, t, i, id, s.batches[b].stage, s.batches[b].index);
    }
  }

  lemma LoggedMoves(s: Sys, t: Sys, id: AssignmentId, st: nat, n: nat)
    requires ClientSideMoved(s, t) && Logged(s, id, st, n)
    ensures Logged(t, id, st, n)
  {
    hide IsEntryOf;
    var i :| 0 <= i < |s.server.log| && IsEntryOf(s, i, id, st, n);
    EntryOfMoves(s, t, i, id, st, n);
  }

  lemma AckedMoves(s: Sys, t: Sys, key: ClientId -> TaskKey, id: AssignmentId, j: Job)
    requires ClientSideMoved(s, t) && AckedOk(s, key, id, j)
    ensures AckedOk(t, key, id, j)
  {
    hide AckOk, ClientSideMoved;
    forall n | n in j.acked && n < |j.sent| ensures AckOk(t, key, j.client, id, j.sent[n], j.acked[n]) {
      AckMoves(s, t, key, j.client, id, j.sent[n], j.acked[n]);
    }
  }

  lemma StagesMove(s: Sys, t: Sys, id: AssignmentId, j: Job)
    requires ClientSideMoved(s, t) && StagesLogged(s, id, j)
    ensures StagesLogged(t, id, j)
  {
    hide Logged, ClientSideMoved;
    forall st, n | 0 <= st < j.stage && st < |j.stages| && 0 <= n < |j.stages[st]| ensures Logged(t, id, st, n) {
      LoggedMoves(s, t, id, st, n);
    }
  }

  lemma JobMoves(s: Sys, t: Sys, key: ClientId -> TaskKey, id: AssignmentId)
    requires ClientSideMoved(s, t) && id in s.jobs && JobOk(s, key, id) && t.jobs[id] == s.jobs[id]
    ensures JobOk(t, key, id)
  {
    hide Known, AckedOk, StagesLogged, JobShape, JobAdvances;
    AckedMoves(s, t, key, id, s.jobs[id]);
    StagesMove(s, t, id, s.jobs[id]);
  }

  lemma DeltaMoves(s: Sys, t: Sys, c: ClientId, d: Delta)
    requires ClientSideMoved(s, t) && DeltaOk(s, c, d) && BatchOk(s, d.batchId)
    ensures DeltaOk(t, c, d)
  {}

  lemma BatchMoves(s: Sys, t: Sys, b: string)
    requires ClientSideMoved(s, t) && b in s.batches && BatchOk(s, b)
    ensures BatchOk(t, b)
  {
    hide Offset;
  }

  lemma SoloMoves(s: Sys, t: Sys, key: ClientId -> TaskKey, id: AssignmentId)
    requires ClientSideMoved(s, t) && id in s.server.issued && SoloOk(s, id) && id in s.solo && NewJobsOk(s, t, key)
    ensures SoloOk(t, id)
  {
    hide ApplyChanges, Written, Under, Offset, JobOk, JobAdvances;
    if id in t.jobs && (id in s.jobs ==> t.jobs[id] != s.jobs[id]) { assert SoloJobOk(t, id); }
  }

  lemma JobsMove(s: Sys, t: Sys, key: ClientId -> TaskKey)
    requires SysOk(s, key) && ClientSideMoved(s, t) && NewJobsOk(s, t, key) && NewClientsOk(s, t, key)
    ensures (forall c :: ClientOk(t, key, c)) && (forall id :: id in t.jobs ==> JobOk(t, key, id))
    ensures forall id :: id in t.solo ==> id in t.server.issued && SoloOk(t, id)
  {
    hide Known, JobOk, ServerOk, AckOk, BatchOk, DeltaOk, EntryOk, ReportOk, ReadyOk, SoloOk, SoloJobOk;
    forall c ensures ClientOk(t, key, c) { assert ClientOk(s, key, c); }
    forall id | id in t.jobs ensures JobOk(t, key, id) {
      if id in s.jobs && t.jobs[id] == s.jobs[id] { JobMoves(s, t, key, id); }
    }
    forall id | id in t.solo ensures id in t.server.issued && SoloOk(t, id) { SoloMoves(s, t, key, id); }
  }

  lemma MessagesMove(s: Sys, t: Sys, key: ClientId -> TaskKey)
    requires SysOk(s, key) && ClientSideMoved(s, t) && NewMessagesOk(s, t, key)
    ensures (forall b :: b in t.batches ==> BatchOk(t, b)) && (forall c, d :: (c, d) in t.deltas ==> DeltaOk(t, c, d))
    ensures forall i :: 0 <= i < |t.server.log| ==> EntryOk(t, i)
    ensures forall c, id, b, rev :: (c, Accepted(id, b, rev)) in t.acks ==> AckOk(t, key, c, id, b, rev)
  {
    hide Known, JobOk, ServerOk, AckOk, BatchOk, DeltaOk, ReportOk, ReadyOk, SoloOk, ClientOk, EntryOk;
    forall b | b in t.batches ensures BatchOk(t, b) { if b in s.batches { BatchMoves(s, t, b); } }
    forall c, d | (c, d) in t.deltas ensures DeltaOk(t, c, d) {
      if (c, d) in s.deltas {
        BatchOfDelta(s, c, d);
        DeltaMoves(s, t, c, d);
      }
    }
    forall i | 0 <= i < |t.server.log| ensures EntryOk(t, i) {
      assert EntryOk(s, i);
      BatchOfEntry(s, i);
      EntryMoves(s, t, i);
    }
    forall c, id, b, rev | (c, Accepted(id, b, rev)) in t.acks ensures AckOk(t, key, c, id, b, rev) {
      AckMoves(s, t, key, c, id, b, rev);
    }
  }

  lemma EntryMoves(s: Sys, t: Sys, i: nat)
    requires ClientSideMoved(s, t) && i < |s.server.log| && EntryOk(s, i)
    requires s.server.log[i].delta.batchId in s.batches && BatchOk(s, s.server.log[i].delta.batchId)
    ensures EntryOk(t, i)
  {
    hide PlanBatchOk, Offset;
    DeltaMoves(s, t, s.server.log[i].client, s.server.log[i].delta);
  }

  lemma BatchOfDelta(s: Sys, c: ClientId, d: Delta)
    requires DeltaOk(s, c, d)
    ensures d.batchId in s.batches
  {}

  lemma BatchOfEntry(s: Sys, i: nat)
    requires i < |s.server.log| && EntryOk(s, i)
    ensures s.server.log[i].delta.batchId in s.batches
  {}

  lemma ReportsMove(s: Sys, t: Sys, key: ClientId -> TaskKey)
    requires SysOk(s, key) && ClientSideMoved(s, t) && NewMessagesOk(s, t, key)
    ensures forall c, id, base :: (c, id, base) in t.reports ==> ReportOk(t, key, c, id, base)
    ensures forall r :: r in t.server.records ==> ReadyOk(t, r)
  {
    hide Known, JobOk, ServerOk, AckOk, BatchOk, DeltaOk, SoloOk, ClientOk, EntryOk;
    forall c, id, base | (c, id, base) in t.reports ensures ReportOk(t, key, c, id, base) {
      if (c, id, base) in s.reports { assert ReportOk(s, key, c, id, base); }
    }
    forall r | r in t.server.records ensures ReadyOk(t, r) { assert ReadyOk(s, r); }
  }

  lemma DroppedMove(s: Sys, t: Sys, key: ClientId -> TaskKey)
    requires SysOk(s, key) && ClientSideMoved(s, t)
    ensures forall b :: b in t.dropped ==> DroppedOk(t, b)
  {
    hide Known, JobOk, ServerOk, AckOk, DeltaOk, ReportOk, ReadyOk, SoloOk, ClientOk, EntryOk, PlanBatchOk, NotLogged,
      Unremembered;
    forall b | b in t.dropped ensures DroppedOk(t, b) {
      assert DroppedOk(s, b) && BatchOk(s, b);
      if IsFlushOf(s, b, s.batches[b].id) {
        forall r | r in t.server.records ensures StillDropped(t, b, r) { assert StillDropped(s, b, r); }
      }
    }
  }

  /** If only the client side moves, only what is new has to be checked. */
  lemma ClientSideKeeps(s: Sys, t: Sys, key: ClientId -> TaskKey)
    requires SysOk(s, key) && ClientSideMoved(s, t)
    requires NewJobsOk(s, t, key) && NewMessagesOk(s, t, key) && NewClientsOk(s, t, key)
    ensures SysOk(t, key)
  {
    hide Known, JobOk, ServerOk, AckOk, BatchOk, DeltaOk, ReportOk, ReadyOk, SoloOk, ClientOk, EntryOk, NewJobsOk,
      NewMessagesOk, NewClientsOk, JobAdvances;
    JobsMove(s, t, key);
    MessagesMove(s, t, key);
    ReportsMove(s, t, key);
    DroppedMove(s, t, key);
  }

  // ---------- steps of a job ----------

  lemma ReceiveAssignmentKeeps(s: Sys, id: AssignmentId, key: ClientId -> TaskKey)
    requires SysOk(s, key) && id in s.server.issued && id !in s.jobs
    ensures SysOk(AssignmentReceived(s, id), key)
  {
    hide Known, Inv, JobOk, AckOk, BatchOk, DeltaOk, ReportOk, ReadyOk, SoloOk, EntryOk, HonestRecord, SentOk,
      AckedOk, StagesLogged;
    var t := AssignmentReceived(s, id);
    var c := s.server.issued[id].client;
    assert HonestIssue(s.server, key, id) && ClientOk(s, key, c);
    assert NewJobsOk(s, t, key) by { FirstJobOk(s, t, key, id); }
    ClientSideKeeps(s, t, key);
  }

  lemma FirstJobOk(s: Sys, t: Sys, key: ClientId -> TaskKey, id: AssignmentId)
    requires id in s.server.issued && HonestIssue(s.server, key, id) && t == AssignmentReceived(s, id)
    ensures JobOk(t, key, id) && SoloJobOk(t, id)
  {
    hide Known;
  }

  /** Steps that change nothing but one job. */
  lemma JobStepKeeps(s: Sys, id: AssignmentId, k: Job, key: ClientId -> TaskKey)
    requires SysOk(s, key) && id in s.jobs && JobAdvances(s.jobs[id], k) && k.phase != Finished
    requires var t := s.(jobs := s.jobs[id := k]); JobOk(t, key, id) && (id in s.solo ==> SoloJobOk(t, id))
    ensures SysOk(s.(jobs := s.jobs[id := k]), key)
  {
    hide Known, JobOk, ServerOk, AckOk, BatchOk, DeltaOk, ReportOk, ReadyOk, SoloOk, EntryOk, JobAdvances, SoloJobOk;
    var t := s.(jobs := s.jobs[id := k]);
    forall c ensures ClientOf(t, c) == ClientOf(s, c) {}
    assert ClientSideMoved(s, t) by { AdvancesItself(s); }
    ClientSideKeeps(s, t, key);
  }

  lemma AdvancesItself(s: Sys)
    ensures forall id :: id in s.jobs ==> JobAdvances(s.jobs[id], s.jobs[id])
  {}

  /** While it is solo, a job's revision is the issued one plus the batches of the finished stages. */
  lemma SoloRevision(s: Sys, key: ClientId -> TaskKey, id: AssignmentId)
    requires SysOk(s, key) && id in s.jobs && id in s.solo
    ensures SoloJobOk(s, id)
  {
    hide Known, JobOk, ServerOk, AckOk, BatchOk, DeltaOk, ReportOk, ReadyOk, EntryOk, ClientOk;
    assert SoloOk(s, id);
  }

  lemma MakePlanKeeps(s: Sys, id: AssignmentId, stages: seq<seq<seq<Change>>>, flags: map<Scope, bool>, key: ClientId -> TaskKey)
    requires SysOk(s, key) && InPhase(s, id, Planning) && WellPlanned(stages)
    ensures SysOk(s.(jobs := s.jobs[id := s.jobs[id].(phase := Pushing, stages := stages, flags := flags)]), key)
  {
    hide Known, ServerOk, AckOk, BatchOk, DeltaOk, ReportOk, ReadyOk, EntryOk, ClientOk, SoloOk, WellPlanned;
    assert JobOk(s, key, id);
    if id in s.solo { SoloRevision(s, key, id); }
    JobStepKeeps(s, id, s.jobs[id].(phase := Pushing, stages := stages, flags := flags), key);
  }

  /** A job that only moves to another phase, or learns of an ack, stays well formed. */
  lemma PhaseOk(s: Sys, id: AssignmentId, k: Job, key: ClientId -> TaskKey)
    requires id in s.jobs && JobOk(s, key, id) && ClientSideMoved(s, s.(jobs := s.jobs[id := k])) && JobShape(k)
    requires k == s.jobs[id].(phase := k.phase, acked := k.acked) && AckedOk(s, key, id, k)
    requires k.phase != AwaitingLive && (k.live.Some? ==> k.phase == s.jobs[id].phase || LoggedOrDropped(s, k.live.value))
    ensures JobOk(s.(jobs := s.jobs[id := k]), key, id) && (SoloJobOk(s, id) ==> SoloJobOk(s.(jobs := s.jobs[id := k]), id))
  {
    hide Known, AckedOk, StagesLogged, JobShape, ClientSideMoved;
    var t := s.(jobs := s.jobs[id := k]);
    AckedMoves(s, t, key, id, k);
    StagesMove(s, t, id, s.jobs[id]);
    assert StagesLogged(t, id, k) by { SameStages(t, id, s.jobs[id], k); }
  }

  lemma SameStages(t: Sys, id: AssignmentId, j: Job, k: Job)
    requires StagesLogged(t, id, j) && k.stages == j.stages && k.stage == j.stage
    ensures StagesLogged(t, id, k)
  {
    hide Logged;
  }

  lemma ReceiveAckKeeps(s: Sys, id: AssignmentId, n: nat, rev: nat, key: ClientId -> TaskKey)
    requires SysOk(s, key) && CanReceiveAck(s, id, n, rev)
    ensures SysOk(s.(jobs := s.jobs[id := s.jobs[id].(acked := s.jobs[id].acked[n := rev])]), key)
  {
    hide Known, ServerOk, AckOk, BatchOk, DeltaOk, ReportOk, ReadyOk, EntryOk, ClientOk, SoloOk, SoloJobOk,
      WellPlanned, Logged, SentOk;
    var j := s.jobs[id];
    var k := j.(acked := j.acked[n := rev]);
    assert JobOk(s, key, id) && AckOk(s, key, j.client, id, j.sent[n], rev);
    if id in s.solo { SoloRevision(s, key, id); }
    PhaseOk(s, id, k, key);
    JobStepKeeps(s, id, k, key);
  }

  /** The revision after a stage is known, and counts the stage's batches while the assignment is solo. */
  lemma {:induction false} MaxRevisionOk(s: Sys, id: AssignmentId, j: Job, n: nat, key: ClientId -> TaskKey)
    requires Known(s.server, key, j.client, j.revision) && n <= |j.sent| && SentOk(s, id, j) && AckedOk(s, key, id, j)
    requires forall k :: 0 <= k < n ==> k in j.acked
    ensures Known(s.server, key, j.client, MaxRevision(j.revision, j.acked, n))
    ensures id in s.solo ==> MaxRevision(j.revision, j.acked, n) == j.revision + n
  {
    hide Known, LoggedOrDropped;
    if n > 0 {
      MaxRevisionOk(s, id, j, n - 1, key);
      assert AckOk(s, key, j.client, id, j.sent[n - 1], j.acked[n - 1]);
    }
  }

  /** All acks of a stage mean that all its batches are written. */
  lemma StageIsLogged(s: Sys, id: AssignmentId, j: Job, n: nat, key: ClientId -> TaskKey)
    requires n < |j.sent| && n in j.acked && SentOk(s, id, j) && AckedOk(s, key, id, j)
    ensures Logged(s, id, j.stage, n)
  {
    hide Known, LoggedOrDropped, IsEntryOf;
    assert AckOk(s, key, j.client, id, j.sent[n], j.acked[n]);
  }

  lemma EndedStageOk(s: Sys, id: AssignmentId, key: ClientId -> TaskKey)
    requires CanEndStage(s, id) && JobOk(s, key, id) && ClientSideMoved(s, StageEnded(s, id))
    ensures StagesLogged(StageEnded(s, id), id, StageEnded(s, id).jobs[id])
  {
    hide Known, AckedOk, WellPlanned, IsEntryOf, Logged, ClientSideMoved;
    var j := s.jobs[id];
    var t := StageEnded(s, id);
    StageIsSent(j);
    StagesMove(s, t, id, j);
    forall n | 0 <= n < |j.stages[j.stage]| ensures Logged(t, id, j.stage, n) {
      StageIsLogged(s, id, j, n, key);
      LoggedMoves(s, t, id, j.stage, n);
    }
  }

  lemma EndedJobOk(s: Sys, id: AssignmentId, key: ClientId -> TaskKey)
    requires CanEndStage(s, id) && JobOk(s, key, id) && ClientSideMoved(s, StageEnded(s, id)) && (id in s.solo ==> SoloJobOk(s, id))
    ensures JobOk(StageEnded(s, id), key, id) && (id in s.solo ==> SoloJobOk(StageEnded(s, id), id))
  {
    hide Known, WellPlanned, StagesLogged, ClientSideMoved, AckOk;
    var j := s.jobs[id];
    StageIsSent(j);
    MaxRevisionOk(s, id, j, |j.sent|, key);
    EndedStageOk(s, id, key);
  }

  lemma EndStageKeeps(s: Sys, id: AssignmentId, key: ClientId -> TaskKey)
    requires SysOk(s, key) && CanEndStage(s, id)
    ensures SysOk(StageEnded(s, id), key)
  {
    hide Known, ServerOk, AckOk, BatchOk, DeltaOk, ReportOk, ReadyOk, EntryOk, ClientOk, SoloOk, WellPlanned, JobOk,
      SoloJobOk;
    assert JobOk(s, key, id);
    if id in s.solo { SoloRevision(s, key, id); }
    assert ClientSideMoved(s, StageEnded(s, id));
    EndedJobOk(s, id, key);
    JobStepKeeps(s, id, StageEnded(s, id).jobs[id], key);
  }

  lemma StageIsSent(j: Job)
    requires JobShape(j) && j.stage < |j.stages| && forall n :: 0 <= n < |j.stages[j.stage]| ==> n in j.acked
    ensures |j.sent| == |j.stages[j.stage]|
  {
    var n := |j.stages[j.stage]|;
    assert n > 0 ==> n - 1 in j.acked;
  }

  lemma FlushNothingKeeps(s: Sys, id: AssignmentId, key: ClientId -> TaskKey)
    requires SysOk(s, key) && InPhase(s, id, Flushing)
    ensures SysOk(s.(jobs := s.jobs[id := s.jobs[id].(phase := Reporting)]), key)
  {
    hide Known, ServerOk, AckOk, BatchOk, DeltaOk, ReportOk, ReadyOk, EntryOk, ClientOk, SoloOk, SoloJobOk,
      WellPlanned, Logged, SentOk;
    var k := s.jobs[id].(phase := Reporting);
    assert JobOk(s, key, id);
    if id in s.solo { SoloRevision(s, key, id); }
    PhaseOk(s, id, k, key);
    JobStepKeeps(s, id, k, key);
  }

  // ---------- steps that send ----------

  lemma SendBatchKeeps(s: Sys, id: AssignmentId, b: string, key: ClientId -> TaskKey)
    requires SysOk(s, key) && CanSendBatch(s, id, b)
    ensures SysOk(BatchSent(s, id, b), key)
  {
    hide Known, ServerOk, AckOk, ReportOk, ReadyOk, EntryOk, ClientOk, SoloOk, WellPlanned, SoloJobOk, BatchOk,
      DeltaOk, JobOk;
    var t := BatchSent(s, id, b);
    assert JobOk(s, key, id);
    if id in s.solo { SoloRevision(s, key, id); }
    assert ClientSideMoved(s, t) by { AdvancesItself(s); }
    assert NewClientsOk(s, t, key);
    assert NewMessagesOk(s, t, key) by { SentMessageOk(s, id, b, key); }
    SentJobOk(s, id, b, key);
    assert NewJobsOk(s, t, key);
    hide ClientSideMoved, NewMessagesOk, NewClientsOk, NewJobsOk;
    ClientSideKeeps(s, t, key);
  }

  lemma SentJobOk(s: Sys, id: AssignmentId, b: string, key: ClientId -> TaskKey)
    requires CanSendBatch(s, id, b) && JobOk(s, key, id) && ClientSideMoved(s, BatchSent(s, id, b))
    ensures JobOk(BatchSent(s, id, b), key, id) && (SoloJobOk(s, id) ==> SoloJobOk(BatchSent(s, id, b), id))
  {
    hide Known, StagesLogged, ClientSideMoved, AckOk, WellPlanned;
    var j, t := s.jobs[id], BatchSent(s, id, b);
    AckedMoves(s, t, key, id, j);
    StagesMove(s, t, id, j);
    SameStages(t, id, j, t.jobs[id]);
    assert forall n :: n in j.acked ==> t.jobs[id].sent[n] == j.sent[n];
  }

  lemma SentMessageOk(s: Sys, id: AssignmentId, b: string, key: ClientId -> TaskKey)
    requires CanSendBatch(s, id, b) && JobOk(s, key, id) && (id in s.solo ==> SoloJobOk(s, id))
    ensures BatchOk(BatchSent(s, id, b), b)
    ensures DeltaOk(BatchSent(s, id, b), s.jobs[id].client,
      Delta(id, b, s.jobs[id].revision + |s.jobs[id].sent|, s.jobs[id].stages[s.jobs[id].stage][|s.jobs[id].sent|]))
  {
    hide Known, AckedOk, StagesLogged, WellPlanned, FlushOk;
  }

  // ---------- steps of the machine ----------

  /** Steps that change only one client, whose revision stays known and whose assignment is the old one or none. */
  lemma MachineStepKeeps(s: Sys, c: ClientId, m: Machine, key: ClientId -> TaskKey)
    requires SysOk(s, key) && Known(s.server, key, c, m.revision)
    requires m.assignment.Some? ==>
      m.assignment == ClientOf(s, c).assignment && m.state == ClientOf(s, c).state && m.generation == ClientOf(s, c).generation
    requires m.state == AssignedSyncing ==> m.pendingLive == map[]
    ensures SysOk(s.(clients := s.clients[c := m]), key)
  {
    hide Known, ServerOk, AckOk, ReportOk, ReadyOk, EntryOk, SoloOk, BatchOk, DeltaOk, JobOk;
    var t := s.(clients := s.clients[c := m]);
    assert ClientOk(s, key, c);
    assert ClientSideMoved(s, t) by { AdvancesItself(s); }
    ClientSideKeeps(s, t, key);
  }

  /** Zero is known to everyone. */
  lemma ZeroIsKnown(v: Server, key: ClientId -> TaskKey, c: ClientId)
    ensures Known(v, key, c, 0)
  {}

  lemma ClientStepKeeps(s: Sys, c: ClientId, p: MachineStep, key: ClientId -> TaskKey)
    requires SysOk(s, key)
    ensures SysOk(s.(clients := s.clients[c := Take(ClientOf(s, c), p)]), key)
  {
    hide Known, ServerOk, AckOk, ReportOk, ReadyOk, EntryOk, SoloOk, BatchOk, DeltaOk, JobOk, KeyedBy;
    assert ClientOk(s, key, c);
    ZeroIsKnown(s.server, key, c);
    MachineStepKeeps(s, c, Take(ClientOf(s, c), p), key);
  }

  lemma MachineIsOk(s: Sys, key: ClientId -> TaskKey, c: ClientId)
    requires SysOk(s, key)
    ensures ClientOk(s, key, c)
  {
    hide Known, ServerOk, AckOk, ReportOk, ReadyOk, EntryOk, SoloOk, BatchOk, DeltaOk, JobOk;
  }

  lemma NothingPending(s: Sys, key: ClientId -> TaskKey, c: ClientId)
    requires ClientOk(s, key, c)
    ensures ClientOf(s, c).state == AssignedSyncing ==> ClientOf(s, c).pendingLive == map[]
  {}

  lemma ReceiveLiveAckKeeps(s: Sys, c: ClientId, id: AssignmentId, b: string, rev: nat, key: ClientId -> TaskKey)
    requires SysOk(s, key) && (c, Accepted(id, b, rev)) in s.acks
    ensures SysOk(s.(clients := s.clients[c := WithRevision(ClientOf(s, c), rev)]), key)
  {
    hide Known, ServerOk, ReportOk, ReadyOk, EntryOk, SoloOk, BatchOk, DeltaOk, JobOk, ClientOk, LoggedOrDropped;
    assert AckOk(s, key, c, id, b, rev);
    MachineIsOk(s, key, c);
    NothingPending(s, key, c);
    MachineStepKeeps(s, c, WithRevision(ClientOf(s, c), rev), key);
  }

  // ---------- steps of a job and its machine ----------

  /** A job moves to a new phase and its client's machine changes with it. */
  lemma JobAndMachineKeep(s: Sys, id: AssignmentId, k: Job, m: Machine, key: ClientId -> TaskKey)
    requires SysOk(s, key) && id in s.jobs && JobAdvances(s.jobs[id], k) && k.phase != Finished
    requires var t := s.(jobs := s.jobs[id := k]); JobOk(t, key, id) && (id in s.solo ==> SoloJobOk(t, id))
    requires Known(s.server, key, k.client, m.revision)
    requires m == WithRevision(ClientOf(s, k.client), m.revision)
    ensures SysOk(s.(jobs := s.jobs[id := k], clients := s.clients[k.client := m]), key)
  {
    hide Known, JobOk, ServerOk, AckOk, BatchOk, DeltaOk, ReportOk, ReadyOk, SoloOk, EntryOk, SoloJobOk, JobAdvances,
      ClientOk;
    var t := s.(jobs := s.jobs[id := k]);
    JobStepKeeps(s, id, k, key);
    MachineIsOk(s, key, k.client);
    NothingPending(s, key, k.client);
    MachineStepKeeps(t, k.client, m, key);
  }

  lemma EndPushKeeps(s: Sys, id: AssignmentId, key: ClientId -> TaskKey)
    requires SysOk(s, key) && CanEndPush(s, id)
    ensures SysOk(PushEnded(s, id), key)
  {
    hide Known, ServerOk, AckOk, BatchOk, DeltaOk, ReportOk, ReadyOk, EntryOk, ClientOk, SoloOk, SoloJobOk,
      WellPlanned, Logged, SentOk;
    var k := s.jobs[id].(phase := Flushing);
    assert JobOk(s, key, id);
    if id in s.solo { SoloRevision(s, key, id); }
    PhaseOk(s, id, k, key);
    JobAndMachineKeep(s, id, k, WithRevision(ClientOf(s, k.client), k.revision), key);
  }

  lemma ReceiveFlushAckKeeps(s: Sys, id: AssignmentId, rev: nat, key: ClientId -> TaskKey)
    requires SysOk(s, key) && CanReceiveFlushAck(s, id, rev)
    ensures SysOk(FlushAcknowledged(s, id, rev), key)
  {
    hide Known, ServerOk, BatchOk, DeltaOk, ReportOk, ReadyOk, EntryOk, ClientOk, SoloOk, SoloJobOk, WellPlanned,
      Logged, SentOk, LoggedOrDropped;
    var j := s.jobs[id];
    var k := j.(phase := Reporting);
    assert JobOk(s, key, id) && AckOk(s, key, j.client, id, j.live.value, rev);
    if id in s.solo { SoloRevision(s, key, id); }
    PhaseOk(s, id, k, key);
    JobAndMachineKeep(s, id, k, WithRevision(ClientOf(s, k.client), rev), key);
  }

  // ---------- live batches and the report ----------

  /** A live batch goes out: a new name, and a delta whose sender owns the assignment. */
  lemma LiveMessageKeeps(s: Sys, b: string, id: AssignmentId, flushed: bool, d: Delta, k: Job, m: Machine, key: ClientId -> TaskKey)
    requires SysOk(s, key) && b !in s.batches && id in s.jobs && d.assignmentId == id && d.batchId == b
    requires Known(s.server, key, k.client, m.revision) && m.assignment == ClientOf(s, k.client).assignment == Some(id)
    requires m == BufferTaken(ClientOf(s, k.client)) || m == PendingTaken(ClientOf(s, k.client))
    requires JobAdvances(s.jobs[id], k) && IsLiveOf(s, b, id, flushed, d, k) && (flushed || k == s.jobs[id])
    requires k.phase == Finished ==> k == s.jobs[id]
    requires var t := LiveMessage(s, b, id, flushed, d, k, m); JobOk(t, key, id) && (id in s.solo ==> SoloJobOk(t, id))
    ensures SysOk(LiveMessage(s, b, id, flushed, d, k, m), key)
  {
    hide Known, ServerOk, AckOk, ReportOk, ReadyOk, EntryOk, SoloOk, JobOk, SoloJobOk, BatchOk, DeltaOk;
    var t := LiveMessage(s, b, id, flushed, d, k, m);
    assert ClientSideMoved(s, t) by { AdvancesItself(s); }
    assert NewMessagesOk(s, t, key) by { LiveMessageOk(s, b, id, flushed, d, k, m); }
    assert NewClientsOk(s, t, key) by { LiveClientsOk(s, b, id, flushed, d, k, m, key); }
    assert NewJobsOk(s, t, key);
    hide ClientSideMoved, NewMessagesOk, NewClientsOk, NewJobsOk, ClientOk, JobAdvances;
    ClientSideKeeps(s, t, key);
  }

  lemma LiveClientsOk(s: Sys, b: string, id: AssignmentId, flushed: bool, d: Delta, k: Job, m: Machine, key: ClientId -> TaskKey)
    requires SysOk(s, key) && id in s.jobs && JobAdvances(s.jobs[id], k) && (k.phase == Finished ==> k == s.jobs[id])
    requires Known(s.server, key, k.client, m.revision) && ClientOf(s, k.client).assignment == Some(id)
    requires m == BufferTaken(ClientOf(s, k.client)) || m == PendingTaken(ClientOf(s, k.client))
    ensures NewClientsOk(s, LiveMessage(s, b, id, flushed, d, k, m), key)
  {
    hide Known, ServerOk, AckOk, ReportOk, ReadyOk, EntryOk, SoloOk, JobOk, SoloJobOk, BatchOk, DeltaOk, DroppedOk;
    var t := LiveMessage(s, b, id, flushed, d, k, m);
    assert ClientOk(s, key, k.client);
    assert forall c :: c != k.client ==> ClientOf(t, c) == ClientOf(s, c);
  }

  lemma LiveMessageOk(s: Sys, b: string, id: AssignmentId, flushed: bool, d: Delta, k: Job, m: Machine)
    requires d.assignmentId == id && d.batchId == b && IsLiveOf(s, b, id, flushed, d, k)
    ensures var t := LiveMessage(s, b, id, flushed, d, k, m); BatchOk(t, b) && DeltaOk(t, k.client, d)
  {}

  /** A flushed batch is its job's; other live batches go out when the job has finished or was raced. */
  predicate IsLiveOf(s: Sys, b: string, id: AssignmentId, flushed: bool, d: Delta, k: Job) {
    if flushed then k.live == Some(b) && k.flushed == d.changes else k.phase == Finished || id in s.raced
  }

  function LiveMessage(s: Sys, b: string, id: AssignmentId, flushed: bool, d: Delta, k: Job, m: Machine): Sys {
    s.(jobs := s.jobs[id := k], clients := s.clients[k.client := m],
       batches := s.batches[b := LiveBatch(id, flushed, d.baseRevision)],
       deltas := s.deltas + {(k.client, d)})
  }

  lemma FlushKeeps(s: Sys, id: AssignmentId, b: string, cs: seq<Change>, key: ClientId -> TaskKey)
    requires SysOk(s, key) && CanFlush(s, id, b, cs)
    ensures SysOk(Flushed(s, id, b, cs), key)
  {
    hide Known, ServerOk, AckOk, BatchOk, DeltaOk, ReportOk, ReadyOk, EntryOk, SoloOk, SoloJobOk, WellPlanned, Logged,
      SentOk, Lists;
    var k := s.jobs[id].(phase := AwaitingLive, live := Some(b), flushed := cs);
    var m := BufferTaken(ClientOf(s, k.client));
    assert JobOk(s, key, id) && ClientOk(s, key, k.client);
    if id in s.solo { SoloRevision(s, key, id); }
    FlushedJobOk(s, id, b, Delta(id, b, m.revision, cs), k, m, key);
    LiveMessageKeeps(s, b, id, true, Delta(id, b, m.revision, cs), k, m, key);
  }

  lemma FlushedJobOk(s: Sys, id: AssignmentId, b: string, d: Delta, k: Job, m: Machine, key: ClientId -> TaskKey)
    requires id in s.jobs && JobOk(s, key, id) && s.jobs[id].phase == Flushing && b !in s.batches
    requires d.changes != [] && k == s.jobs[id].(phase := AwaitingLive, live := Some(b), flushed := d.changes)
    requires id in s.solo ==> SoloJobOk(s, id)
    ensures JobOk(LiveMessage(s, b, id, true, d, k, m), key, id)
    ensures id in s.solo ==> SoloJobOk(LiveMessage(s, b, id, true, d, k, m), id)
  {
    hide Known, AckedOk, StagesLogged, WellPlanned;
    var t := LiveMessage(s, b, id, true, d, k, m);
    assert ClientSideMoved(s, t) by { AdvancesItself(s); }
    AckedMoves(s, t, key, id, s.jobs[id]);
    SameAcks(t, key, id, s.jobs[id], k);
    StagesMove(s, t, id, s.jobs[id]);
    SameStages(t, id, s.jobs[id], k);
  }

  lemma SameAcks(t: Sys, key: ClientId -> TaskKey, id: AssignmentId, j: Job, k: Job)
    requires AckedOk(t, key, id, j) && k.sent == j.sent && k.acked == j.acked && k.client == j.client
    ensures AckedOk(t, key, id, k)
  {
    hide AckOk;
  }

  lemma SendLiveKeeps(s: Sys, c: ClientId, b: string, cs: seq<Change>, key: ClientId -> TaskKey)
    requires SysOk(s, key) && CanSendLive(s, c, b, cs)
    ensures SysOk(LiveSent(s, c, b, cs), key)
  {
    hide Known, ServerOk, AckOk, BatchOk, DeltaOk, ReportOk, ReadyOk, EntryOk, SoloOk, JobOk, SoloJobOk, Lists;
    var m := PendingTaken(ClientOf(s, c));
    assert ClientOk(s, key, c);
    var id := m.assignment.value;
    var d := Delta(id, b, m.revision, cs);
    var t := LiveMessage(s, b, id, false, d, s.jobs[id], m);
    assert t.jobs == s.jobs;
    assert JobOk(t, key, id) by {
      assert ClientSideMoved(s, t) by { AdvancesItself(s); }
      JobMoves(s, t, key, id);
    }
    if id in s.solo { SoloRevision(s, key, id); SameSolo(s, t, id); }
    LiveMessageKeeps(s, b, id, false, d, s.jobs[id], m, key);
  }

  lemma SameSolo(s: Sys, t: Sys, id: AssignmentId)
    requires id in s.jobs && t.jobs == s.jobs && t.server == s.server && SoloJobOk(s, id)
    ensures SoloJobOk(t, id)
  {}

  lemma ReportKeeps(s: Sys, id: AssignmentId, key: ClientId -> TaskKey)
    requires SysOk(s, key) && InPhase(s, id, Reporting)
    ensures SysOk(ReportSent(s, id), key)
  {
    hide Known, ServerOk, AckOk, BatchOk, DeltaOk, ReadyOk, EntryOk, SoloOk, SoloJobOk, WellPlanned, Logged, SentOk;
    var k := s.jobs[id].(phase := Reported);
    assert JobOk(s, key, id) && ClientOk(s, key, k.client);
    if id in s.solo { SoloRevision(s, key, id); }
    PhaseOk(s, id, k, key);
    ReportedKeeps(s, id, k, key);
  }

  lemma ReportedKeeps(s: Sys, id: AssignmentId, k: Job, key: ClientId -> TaskKey)
    requires SysOk(s, key) && InPhase(s, id, Reporting)
    requires k == s.jobs[id].(phase := Reported) && Known(s.server, key, k.client, ClientOf(s, k.client).revision)
    requires var t := s.(jobs := s.jobs[id := k]); JobOk(t, key, id) && (id in s.solo ==> SoloJobOk(t, id))
    ensures SysOk(ReportSent(s, id), key)
  {
    hide Known, ServerOk, AckOk, BatchOk, DeltaOk, EntryOk, SoloOk, SoloJobOk, JobOk, ReadyOk, ClientOk;
    var t1, t := s.(jobs := s.jobs[id := k]), ReportSent(s, id);
    JobStepKeeps(s, id, k, key);
    assert ClientSideMoved(t1, t) by { AdvancesItself(t1); }
    ClientSideKeeps(t1, t, key);
  }

  lemma WatchKeeps(s: Sys, id: AssignmentId, key: ClientId -> TaskKey)
    requires SysOk(s, key) && InPhase(s, id, Reported)
    ensures SysOk(WatchStarted(s, id), key)
  {
    hide Known, ServerOk, AckOk, BatchOk, DeltaOk, ReportOk, ReadyOk, EntryOk, SoloOk, SoloJobOk, ClientOk, JobOk, WatchStarted;
    var t := WatchStarted(s, id);
    WatchMoves(s, id);
    assert NewJobsOk(s, t, key) by { WatchedJobOk(s, id, key); }
    assert NewClientsOk(s, t, key) by {
      forall c | ClientOf(t, c) != ClientOf(s, c) || SyncEnds(s, t, ClientOf(t, c)) ensures ClientOk(t, key, c) {
        WatchingClientOk(s, id, c, key);
      }
    }
    assert NewMessagesOk(s, t, key);
    hide ClientSideMoved, NewMessagesOk, NewClientsOk, NewJobsOk;
    ClientSideKeeps(s, t, key);
  }

  lemma WatchMoves(s: Sys, id: AssignmentId)
    requires InPhase(s, id, Reported)
    ensures var t := WatchStarted(s, id);
      && ClientSideMoved(s, t) && t.batches == s.batches && t.deltas == s.deltas && t.reports == s.reports
      && t.jobs == s.jobs[id := s.jobs[id].(phase := Finished)]
  {}

  lemma WatchAfterPhase(s: Sys, id: AssignmentId)
    requires InPhase(s, id, Reported)
    ensures var t1, t := s.(jobs := s.jobs[id := s.jobs[id].(phase := Finished)]), WatchStarted(s, id);
      ClientSideMoved(t1, t) && t.jobs == t1.jobs && t.server == t1.server
  {
    AdvancesItself(s.(jobs := s.jobs[id := s.jobs[id].(phase := Finished)]));
    hide JobAdvances;
  }

  lemma WatchedJobOk(s: Sys, id: AssignmentId, key: ClientId -> TaskKey)
    requires SysOk(s, key) && InPhase(s, id, Reported)
    ensures JobOk(WatchStarted(s, id), key, id) && (id in s.solo ==> SoloJobOk(WatchStarted(s, id), id))
  {
    hide Known, ServerOk, AckOk, BatchOk, DeltaOk, ReportOk, ReadyOk, EntryOk, ClientOk, SoloOk, SoloJobOk, WellPlanned,
      Logged, SentOk, DroppedOk, WatchStarted;
    var k := s.jobs[id].(phase := Finished);
    var t1, t := s.(jobs := s.jobs[id := k]), WatchStarted(s, id);
    assert JobOk(s, key, id);
    if id in s.solo { SoloRevision(s, key, id); }
    PhaseOk(s, id, k, key);
    WatchAfterPhase(s, id);
    hide JobOk, ClientSideMoved, SysOk;
    JobMoves(t1, t, key, id);
    if id in s.solo { SameSolo(t1, t, id); }
  }

  lemma WatchingClientOk(s: Sys, id: AssignmentId, c: ClientId, key: ClientId -> TaskKey)
    requires SysOk(s, key) && InPhase(s, id, Reported)
    requires ClientOf(WatchStarted(s, id), c) != ClientOf(s, c) || SyncEnds(s, WatchStarted(s, id), ClientOf(s, c))
    ensures ClientOk(WatchStarted(s, id), key, c)
  {
    hide Known, ServerOk, AckOk, BatchOk, DeltaOk, ReportOk, ReadyOk, EntryOk, SoloOk, JobOk;
    assert ClientOk(s, key, c);
  }
}
