/** How many assignments a client can be issued: no more than it has said hello. */
module Assignments {
  import opened Options
  import opened CacheStore
  import opened CacheTasks
  import opened TaskRuns
  import opened ClientMachine
  import opened SyncProtocol
  import SyncProtocolProofs
  import opened SyncTheorems

  /** Standing as a candidate that is not active. */
  predicate Waits(t: Task, c: ClientId) {
    c in t.candidates && t.active != Some(c)
  }

  predicate IsIssued(t: Task, x: Context, c: ClientId) {
    t.assignment == Some(x.newId) && t.active == Some(c)
  }

  function IssuedTo(v: Server, c: ClientId): set<AssignmentId> {
    set id | id in v.issued && v.issued[id].client == c
  }

  predicate WaitsSomewhere(v: Server, c: ClientId) {
    exists r :: r in v.records && Waits(v.records[r].task, c)
  }

  /** The assignments a client has been issued, and the one it may yet be. */
  function Claims(v: Server, c: ClientId): nat {
    |IssuedTo(v, c)| + (if WaitsSomewhere(v, c) then 1 else 0)
  }

  // ---------- sections ----------

  /** A section issues assignments only to waiting candidates, and a deposed client waits no more. */
  lemma SectionSpends(t: Task, p: Section, x: Context, c: ClientId)
    requires Consistent(t) && t.assignment != Some(x.newId)
    requires p.CompleteSection? && HoldsAssignment(t, p.client, p.id) ==> p.baseRevision <= t.revision
    ensures var u := RunSection(t, p, x);
      (Waits(u, c) ==> Waits(t, c)) && (IsIssued(u, x, c) ==> Waits(t, c))
  {
    hide Overdue, Before;
  }

  lemma HelloSpends(t: Task, d: ClientId, x: Context, c: ClientId)
    requires Consistent(t) && t.assignment != Some(x.newId) && c != d
    ensures var u := Hello(t, d, x);
      (Waits(u, c) ==> Waits(t, c)) && (IsIssued(u, x, c) ==> Waits(t, c))
  {
    hide Before;
  }

  // ---------- events ----------

  /** A client is a candidate in one record only. */
  lemma OneRecordOf(v: Server, key: ClientId -> TaskKey, q: nat, r: nat, c: ClientId)
    requires ServerOk(v, key) && q in v.records && r in v.records
    requires c in v.records[q].task.candidates && c in v.records[r].task.candidates
    ensures q == r
  {
    assert HonestRecord(v, key, q) && HonestRecord(v, key, r);
    assert IsLive(v, q) && IsLive(v, r);
  }

  /** What storing one record's new value does to a client's claims, of which `extra` are new. */
  lemma ClaimsAfter(v: Server, w: Server, key: ClientId -> TaskKey, r: nat, x: Context, c: ClientId, extra: nat)
    requires r in v.records && w.records.Keys == v.records.Keys && x.newId !in v.issued && ServerOk(w, key)
    requires forall q :: q in v.records && q != r ==> w.records[q] == v.records[q]
    requires IssuedTo(w, c) == IssuedTo(v, c) + (if IsIssued(w.records[r].task, x, c) then {x.newId} else {})
    requires Waits(w.records[r].task, c) || IsIssued(w.records[r].task, x, c) ==> Waits(v.records[r].task, c) || extra == 1
    ensures Claims(w, c) <= Claims(v, c) + extra
  {
    hide Inv, HonestIssue, HonestRecord;
    if IsIssued(w.records[r].task, x, c) {
      assert c in w.records[r].task.candidates by {
        NextIsConsistent(w, r);
      }
      forall q | q in w.records ensures !Waits(w.records[q].task, c) {
        if c in w.records[q].task.candidates { OneRecordOf(w, key, q, r, c); }
      }
    } else if q :| q in w.records && Waits(w.records[q].task, c) {
      assert q != r ==> Waits(v.records[q].task, c);
    }
  }

  lemma NextIsConsistent(w: Server, r: nat)
    requires Inv(w) && r in w.records
    ensures Consistent(w.records[r].task)
  {
    hide Consistent;
    RecordIsOk(w, r);
  }

  lemma IssuedAfter(v: Server, r: nat, u: Task, x: Context, c: ClientId)
    requires r in v.records && x.newId !in v.issued && Consistent(u)
    ensures IssuedTo(WithTask(v, r, u, x), c) == IssuedTo(v, c) + (if IsIssued(u, x, c) then {x.newId} else {})
  {}

  lemma FreshId(v: Server, r: nat, id: AssignmentId)
    requires Inv(v) && r in v.records && id !in v.issued
    ensures v.records[r].task.assignment != Some(id) && Consistent(v.records[r].task)
  {
    RecordIsOk(v, r);
  }

  /** No completion report is ahead of the task. */
  predicate NoResync(v: Server, e: Event) {
    e.SectionEvent? && e.section.CompleteSection? && e.record in v.records ==>
      var t, p := v.records[e.record].task, e.section;
      HoldsAssignment(t, p.client, p.id) ==> p.baseRevision <= t.revision
  }

  lemma SectionClaims(v: Server, e: Event, key: ClientId -> TaskKey, hash: Content -> string, c: ClientId)
    requires ServerOk(v, key) && HonestEvent(v, e, key) && e.SectionEvent? && NoResync(v, e)
    ensures Claims(Next(v, e, hash), c) <= Claims(v, c)
  {
    hide Inv, RunSection, HonestIssue, HonestRecord, Claims, Consistent, Waits, IsIssued, IssuedTo;
    var r, w := e.record, Next(v, e, hash);
    var x := Context(v.registry, TaskRuns.DiskOf(v, v.records[r].key.deviceId).manifest, e.newId, e.now);
    FreshId(v, r, e.newId);
    SectionSpends(v.records[r].task, e.section, x, c);
    ServerStaysOk(v, e, key, hash);
    NextIsConsistent(w, r);
    IssuedAfter(FlagWrite(v, r, e.section), r, RunSection(v.records[r].task, e.section, x), x, c);
    SameIssued(v, FlagWrite(v, r, e.section), c);
    ClaimsAfter(v, w, key, r, x, c, 0);
  }

  lemma SameIssued(v: Server, w: Server, c: ClientId)
    requires w.issued == v.issued
    ensures IssuedTo(w, c) == IssuedTo(v, c)
  {}

  lemma HelloClaims(v: Server, e: Event, key: ClientId -> TaskKey, hash: Content -> string, c: ClientId)
    requires ServerOk(v, key) && HonestEvent(v, e, key) && e.HelloEvent?
    ensures Claims(Next(v, e, hash), c) <= Claims(v, c) + (if e.client == c then 1 else 0)
  {
    hide Inv, Hello, HonestIssue, HonestRecord, Claims, Consistent, Waits, IsIssued, IssuedTo;
    var w := Next(v, e, hash);
    var x := Context(v.registry, TaskRuns.DiskOf(v, e.key.deviceId).manifest, e.newId, e.now);
    var (v1, r) := GetOrCreate(v, e.key, e.slot);
    GetOrCreateKeeps(v, e.key, e.slot);
    FreshId(v1, r, e.newId);
    if e.client != c { HelloSpends(v1.records[r].task, e.client, x, c); }
    ServerStaysOk(v, e, key, hash);
    NextIsConsistent(w, r);
    IssuedAfter(v1, r, Hello(v1.records[r].task, e.client, x), x, c);
    ClaimsAfter(v1, w, key, r, x, c, if e.client == c then 1 else 0);
    CreatedClaims(v, e.key, e.slot, c);
  }

  /** A record that is just created has no candidates. */
  lemma CreatedClaims(v: Server, key: TaskKey, slot: nat, c: ClientId)
    requires slot !in v.records
    ensures Claims(GetOrCreate(v, key, slot).0, c) == Claims(v, c)
  {
    var v1 := GetOrCreate(v, key, slot).0;
    SameIssued(v, v1, c);
    hide IssuedTo;
    if r :| r in v1.records && Waits(v1.records[r].task, c) { assert r in v.records; }
    if r :| r in v.records && Waits(v.records[r].task, c) { assert v1.records[r] == v.records[r]; }
  }

  /** Only a hello of its own gives a client a new claim. */
  lemma EventClaims(v: Server, e: Event, key: ClientId -> TaskKey, hash: Content -> string, c: ClientId)
    requires ServerOk(v, key) && HonestEvent(v, e, key) && NoResync(v, e)
    ensures Claims(Next(v, e, hash), c) <= Claims(v, c) + (if e.HelloEvent? && e.client == c then 1 else 0)
  {
    hide Inv, HonestIssue, HonestRecord, Claims, Hello, RunSection, NoResync;
    match e {
      case HelloEvent(_, _, _, _, _) => HelloClaims(v, e, key, hash, c);
      case SectionEvent(_, _, _, _) => SectionClaims(v, e, key, hash, c);
      case DeltaEvent(r, d, delta, allowed) =>
        var w := Next(v, e, hash);
        RecordIsOk(v, r);
        SyncProtocolProofs.DeltaSteps(v, e, hash);
        SameClaims(v, w, c);
      case _ => SameClaims(v, Next(v, e, hash), c);
    }
  }

  lemma SameClaims(v: Server, w: Server, c: ClientId)
    requires w.issued == v.issued && w.records.Keys == v.records.Keys
    requires forall r :: r in v.records ==>
      w.records[r].task.candidates == v.records[r].task.candidates && w.records[r].task.active == v.records[r].task.active
    ensures Claims(w, c) == Claims(v, c)
  {
    SameIssued(v, w, c);
    hide IssuedTo;
    assert forall r :: r in v.records ==> (Waits(w.records[r].task, c) <==> Waits(v.records[r].task, c));
  }

  // ---------- executions ----------

  predicate IsHelloOf(p: Step, c: ClientId) {
    p.ServerStep? && p.event.HelloEvent? && p.event.client == c
  }

  function Hellos(ps: seq<Step>, c: ClientId): nat {
    if ps == [] then 0 else Hellos(ps[..|ps| - 1], c) + (if IsHelloOf(ps[|ps| - 1], c) then 1 else 0)
  }

  /** In every execution a client has been issued at most as many assignments as it has said hello. */
  lemma {:induction false} AssignmentsPerHello(ps: seq<Step>, key: ClientId -> TaskKey, hash: Content -> string, c: ClientId)
    requires IsExecution(ps, key, hash)
    ensures Claims(Reached(ps, key, hash).server, c) <= Hellos(ps, c)
    ensures |IssuedTo(Reached(ps, key, hash).server, c)| <= Hellos(ps, c)
    decreases |ps|
  {
    hide Enabled, Perform, IssuedTo, WaitsSomewhere, SysOk;
    if ps == [] {
      assert IssuedTo(Start, c) == {} && !WaitsSomewhere(Start, c) by { NothingIssued(c); }
    } else {
      var s, p := Reached(ps[..|ps| - 1], key, hash), ps[|ps| - 1];
      AssignmentsPerHello(ps[..|ps| - 1], key, hash, c);
      ExecutionKeeps(ps[..|ps| - 1], key, hash);
      StepClaims(s, p, key, hash, c);
    }
  }

  lemma NothingIssued(c: ClientId)
    ensures IssuedTo(Start, c) == {} && !WaitsSomewhere(Start, c)
  {}

  lemma StepClaims(s: Sys, p: Step, key: ClientId -> TaskKey, hash: Content -> string, c: ClientId)
    requires SysOk(s, key) && Enabled(s, p, key)
    ensures Claims(Perform(s, p, key, hash).server, c) <= Claims(s.server, c) + (if IsHelloOf(p, c) then 1 else 0)
  {
    hide SysOk, Claims, CanSendBatch, CanReceiveAck, CanEndStage, CanEndPush, CanFlush, CanReceiveFlushAck, CanSendLive, Current,
      WellPlanned, Take, Next, Possible;
    match p {
      case ServerStep(e) =>
        ReportsAreNotAhead(s, e, key);
        EventClaims(s.server, e, key, hash, c);
      case _ =>
    }
  }

  lemma ReportsAreNotAhead(s: Sys, e: Event, key: ClientId -> TaskKey)
    requires SysOk(s, key) && CanServe(s, e, key)
    ensures ServerOk(s.server, key) && NoResync(s.server, e)
  {
    hide AckOk, BatchOk, DeltaOk, EntryOk, SoloOk, ClientOk, JobOk, ReadyOk, DroppedOk, HonestRecord, HonestIssue, Inv;
    if e.SectionEvent? && e.section.CompleteSection? {
      ReportIsKnown(s, key, e.section.client, e.section.id, e.section.baseRevision);
    }
  }

  /** Clients that say hello once are assigned at most once, so no assignment ever overtakes another of the same client. */
  lemma {:induction false} NeverRaced(ps: seq<Step>, key: ClientId -> TaskKey, hash: Content -> string)
    requires IsExecution(ps, key, hash) && forall c :: Hellos(ps, c) <= 1
    ensures Reached(ps, key, hash).raced == {}
    decreases |ps|
  {
    hide Enabled, Perform, SysOk;
    if ps != [] {
      var before := ps[..|ps| - 1];
      var s, p := Reached(before, key, hash), ps[|ps| - 1];
      forall c ensures Hellos(before, c) <= 1 { assert Hellos(before, c) <= Hellos(ps, c); }
      NeverRaced(before, key, hash);
      RacedByWatch(s, p, key, hash);
      if p.Watch? {
        ExecutionKeeps(before, key, hash);
        AssignmentsPerHello(before, key, hash, s.jobs[p.id].client);
        WatchesItsOwn(s, p.id, key);
      }
    }
  }

  lemma RacedByWatch(s: Sys, p: Step, key: ClientId -> TaskKey, hash: Content -> string)
    requires Enabled(s, p, key)
    ensures p.Watch? ==> p.id in s.jobs
    ensures var t := Perform(s, p, key, hash);
      t.raced == s.raced || (p.Watch? && ClientOf(s, s.jobs[p.id].client).assignment.Some?
                             && ClientOf(s, s.jobs[p.id].client).assignment != Some(p.id))
  {
    hide CanServe, CanSendBatch, CanReceiveAck, CanEndStage, CanEndPush, CanFlush, CanReceiveFlushAck, CanSendLive, Current,
      WellPlanned, Take, Next, SoloAfter, Answer;
  }

  lemma WatchesItsOwn(s: Sys, id: AssignmentId, key: ClientId -> TaskKey)
    requires SysOk(s, key) && id in s.jobs && |IssuedTo(s.server, s.jobs[id].client)| <= 1
    ensures var m := ClientOf(s, s.jobs[id].client); m.assignment.Some? ==> m.assignment == Some(id)
  {
    hide Known, ServerOk, AckOk, BatchOk, DeltaOk, EntryOk, SoloOk, ReadyOk, DroppedOk, ReportOk, JobShape, SentOk, AckedOk,
      StagesLogged, FlushOk, IssuedTo;
    var c := s.jobs[id].client;
    var m := ClientOf(s, c);
    assert JobOk(s, key, id) && ClientOk(s, key, c);
    if m.assignment.Some? {
      assert JobOk(s, key, m.assignment.value);
      OnlyOne(s.server, c, id, m.assignment.value);
    }
  }

  lemma OnlyOne(v: Server, c: ClientId, a: AssignmentId, b: AssignmentId)
    requires a in v.issued && b in v.issued && v.issued[a].client == c && v.issued[b].client == c && |IssuedTo(v, c)| <= 1
    ensures a == b
  {
    var ids := IssuedTo(v, c);
    assert a in ids && b in ids;
    assert |ids - {a}| == |ids| - 1;
    assert b !in ids - {a};
  }
}
