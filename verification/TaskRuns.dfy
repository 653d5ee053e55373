/** Runs of the task manager: critical sections of any handlers on any records, in any order, for any messages,
    between which other writers may change the store. A section is one step: what other tasks' store writes do after
    its own store access commutes with the rest of the section, which touches only its own record. */
module TaskRuns {
  import opened Options
  import opened CacheStore
  import opened CacheStoreProperties
  import opened CacheTasks
  import opened CacheTaskProperties

  datatype TaskKey = TaskKey(deviceId: string, cwd: string)

  /** A task record is an object: a handler that looked it up before waiting for the lock may still use it after the
      task map dropped it. Records are named by numbers and never disappear. */
  datatype Record = Record(key: TaskKey, task: Task)

  /** History: to whom an assignment was issued, on which record, with which manifest, after how many log entries. */
  datatype Issue = Issue(record: nat, client: ClientId, manifest: Manifest, logged: nat)

  /** History: one delta that was written to the store, and the mutation ids the record remembered at that moment. */
  datatype LogEntry = LogEntry(
    record: nat, client: ClientId, delta: Delta, remembered: set<string>, written: seq<Change>, revision: nat)

  datatype Server = Server(
    records: map<nat, Record>,
    live: map<TaskKey, nat>,
    registry: Registry,
    disks: map<string, Disk>,
    issued: map<AssignmentId, Issue>,
    log: seq<LogEntry>)

  const EmptyDisk: Disk := Disk(Manifest(0, map[], map[]), map[])

  function DiskOf(s: Server, deviceId: string): Disk {
    if deviceId in s.disks then s.disks[deviceId] else EmptyDisk
  }

  const Start: Server := Server(map[], map[], map[], map[], map[], [])

  datatype Section =
    | DisconnectSection(client: ClientId)
    | HeartbeatSection(client: ClientId, id: AssignmentId)
    | FaultSection(client: ClientId, id: AssignmentId, fatal: bool)
    | SweepSection(timing: Timing)
    | CompleteSection(client: ClientId, id: AssignmentId, baseRevision: nat, stored: bool, flags: map<Scope, bool>)
    | HintSection(keys: set<FileKey>, bypass: Bypass)

  datatype Event =
    | RegistryEvent(registry: Registry)
    | HelloEvent(key: TaskKey, client: ClientId, slot: nat, newId: AssignmentId, now: int)
    | SectionEvent(record: nat, section: Section, newId: AssignmentId, now: int)
    | DeltaEvent(record: nat, client: ClientId, delta: Delta, allowed: nat)
    | CleanupEvent(key: TaskKey)
    | OtherWrite(deviceId: string, disk: Disk)

  /** New ids are new, sections work on records that exist, and no writer ever takes the revision back. */
  predicate Possible(s: Server, e: Event) {
    match e
    case HelloEvent(_, _, n, id, _) => n !in s.records && id !in s.issued
    case SectionEvent(r, _, id, _) => r in s.records && id !in s.issued
    case DeltaEvent(r, _, _, _) => r in s.records
    case OtherWrite(d, disk) => disk.manifest.revision >= DiskOf(s, d).manifest.revision
    case _ => true
  }

  ghost function RunSection(t: Task, c: Section, x: Context): Task {
    match c
    case DisconnectSection(cl) => Disconnect(t, cl, x)
    case HeartbeatSection(cl, id) => Heartbeat(t, cl, id, x)
    case FaultSection(cl, id, fatal) => Fault(t, cl, id, fatal, x)
    case SweepSection(timing) => Sweep(t, timing, x)
    case CompleteSection(cl, id, base, stored, _) => Complete(t, cl, id, base, stored, x)
    case HintSection(keys, b) => Hint(t, keys, b)
  }

  /** Stores the new value of a record, and if it carries the new assignment id, the history of that id. */
  function WithTask(s: Server, r: nat, t: Task, x: Context): Server
    requires r in s.records
  {
    s.(records := s.records[r := s.records[r].(task := t)],
       issued := if t.assignment == Some(x.newId) && t.active.Some?
                 then s.issued[x.newId := Issue(r, t.active.value, x.manifest, |s.log|)] else s.issued)
  }

  /** The live record of a key, created if there is none. */
  function GetOrCreate(s: Server, key: TaskKey, slot: nat): (r: (Server, nat))
    ensures r.1 in r.0.records
  {
    if key in s.live && s.live[key] in s.records then (s, s.live[key])
    else (s.(records := s.records[slot := Record(key, NewTask)], live := s.live[key := slot]), slot)
  }

  function FlagWrite(s: Server, r: nat, c: Section): Server
    requires r in s.records
  {
    if c.CompleteSection? && c.stored && HoldsAssignment(s.records[r].task, c.client, c.id)
       && s.records[r].task.revision >= c.baseRevision
    then
      var dev := s.records[r].key.deviceId;
      s.(disks := s.disks[dev := DiskOf(s, dev).(manifest := WithTruncated(DiskOf(s, dev).manifest, c.flags))])
    else s
  }

  ghost function Next(s: Server, e: Event, hash: Content -> string): Server
    requires Possible(s, e)
  {
    match e
    case RegistryEvent(reg) => s.(registry := reg)
    case HelloEvent(key, c, n, id, now) =>
      var (s1, r) := GetOrCreate(s, key, n);
      var x := Context(s.registry, DiskOf(s, key.deviceId).manifest, id, now);
      WithTask(s1, r, Hello(s1.records[r].task, c, x), x)
    case SectionEvent(r, c, id, now) =>
      var x := Context(s.registry, DiskOf(s, s.records[r].key.deviceId).manifest, id, now);
      WithTask(FlagWrite(s, r, c), r, RunSection(s.records[r].task, c, x), x)
    case DeltaEvent(r, c, d, allowed) =>
      var dev := s.records[r].key.deviceId;
      var o := ApplyDelta(s.records[r].task, c, d, DiskOf(s, dev), hash, allowed);
      s.(records := s.records[r := s.records[r].(task := o.task)],
         disks := s.disks[dev := o.disk],
         log := if o.applied == [] then s.log
                else s.log + [LogEntry(r, c, d, s.records[r].task.recentIds, o.applied, o.disk.manifest.revision)])
    case CleanupEvent(key) =>
      if key in s.live && s.live[key] in s.records && Vacant(s.records[s.live[key]].task)
      then s.(live := s.live - {key}) else s
    case OtherWrite(d, disk) => s.(disks := s.disks[d := disk])
  }

  predicate Vacant(t: Task) {
    t.active.None? && t.candidates == {}
  }

  ghost predicate IsRun(es: seq<Event>, hash: Content -> string)
    decreases |es|, 0
  {
    es == [] || (IsRun(es[..|es| - 1], hash) && Possible(After(es[..|es| - 1], hash), es[|es| - 1]))
  }

  ghost function After(es: seq<Event>, hash: Content -> string): Server
    requires IsRun(es, hash)
    decreases |es|, 1
  {
    if es == [] then Start else Next(After(es[..|es| - 1], hash), es[|es| - 1], hash)
  }

  // ---------- the invariant ----------

  /** The consistency of one record between critical sections. */
  predicate Consistent(t: Task) {
    && (t.active.Some? <==> t.assignment.Some?) && (t.active.Some? <==> t.lastHeartbeat.Some?)
    && (t.active.Some? ==> t.active.value in t.candidates)
    && (t.active.Some? <==> t.phase == Syncing || t.phase == Ready)
    && t.phase != Degraded
  }

  ghost predicate RecordOk(s: Server, r: nat)
    requires r in s.records
  {
    var t := s.records[r].task;
    && Consistent(t)
    && t.revision <= DiskOf(s, s.records[r].key.deviceId).manifest.revision
    && (t.assignment.Some? ==>
        && t.assignment.value in s.issued && s.issued[t.assignment.value].record == r
        && s.issued[t.assignment.value].client == t.active.value
        && s.issued[t.assignment.value].manifest.revision <= t.revision)
  }

  ghost predicate LogOk(s: Server, i: nat)
    requires i < |s.log|
  {
    var e := s.log[i];
    && e.record in s.records && e.delta.assignmentId in s.issued
    && s.issued[e.delta.assignmentId].record == e.record && s.issued[e.delta.assignmentId].client == e.client
    && s.issued[e.delta.assignmentId].logged <= i
    && s.issued[e.delta.assignmentId].manifest.revision <= e.delta.baseRevision < e.revision
    && e.revision <= DiskOf(s, s.records[e.record].key.deviceId).manifest.revision
    && (s.records[e.record].task.assignment == Some(e.delta.assignmentId) ==> e.revision <= s.records[e.record].task.revision)
  }

  /** Later entries under the same assignment start no earlier than where this one ended. */
  ghost predicate Ordered(s: Server, i: nat, j: nat)
    requires i < j < |s.log|
  {
    s.log[i].delta.assignmentId == s.log[j].delta.assignmentId ==> s.log[i].revision <= s.log[j].delta.baseRevision
  }

  ghost predicate Inv(s: Server) {
    LiveOk(s) && RecordsOk(s) && DeadOk(s) && LogsOk(s)
  }

  predicate LiveOk(s: Server) {
    forall k :: k in s.live ==> s.live[k] in s.records && s.records[s.live[k]].key == k
  }

  ghost predicate RecordsOk(s: Server) {
    forall r :: r in s.records ==> RecordOk(s, r)
  }

  /** A record that the task map no longer holds has no active client and no candidates. */
  ghost predicate DeadOk(s: Server) {
    forall r :: r in s.records && !IsLive(s, r) ==> Vacant(s.records[r].task)
  }

  ghost predicate LogsOk(s: Server) {
    && (forall i :: 0 <= i < |s.log| ==> LogOk(s, i))
    && (forall i, j :: 0 <= i < j < |s.log| ==> Ordered(s, i, j))
    && (forall id :: id in s.issued ==> s.issued[id].logged <= |s.log|)
  }

  predicate IsLive(s: Server, r: nat)
    requires r in s.records
  {
    s.records[r].key in s.live && s.live[s.records[r].key] == r
  }

  // ---------- each section keeps its record consistent ----------

  /** What a section may do to a record: keep assignment and revision, drop the assignment, or take the new one. */
  ghost predicate GoodChange(t: Task, u: Task, x: Context) {
    && Consistent(u)
    && (u.revision == t.revision || u.revision == x.manifest.revision)
    && (u.assignment.Some? ==>
        || (u.assignment == t.assignment && u.active == t.active && u.revision == t.revision)
        || (u.assignment == Some(x.newId) && u.revision == x.manifest.revision))
  }

  lemma ElectIsGood(t: Task, x: Context, failover: bool)
    requires t.active.None? && t.assignment.None? && t.lastHeartbeat.None?
    ensures GoodChange(t, Elect(t, x, failover), x) && Elect(t, x, failover).candidates == t.candidates
  {}

  lemma FailOverIsGood(t: Task, c: ClientId, remove: bool, x: Context)
    ensures GoodChange(t, FailOver(t, c, remove, x), x)
    ensures FailOver(t, c, remove, x).candidates == if remove then t.candidates - {c} else t.candidates
  {
    var t1 := if remove then t.(candidates := t.candidates - {c}) else t;
    if t1.candidates != {} { ElectIsGood(Unassigned(t1, Degraded), x, true); }
  }

  lemma HelloIsGood(t: Task, c: ClientId, x: Context)
    requires Consistent(t)
    ensures GoodChange(t, Hello(t, c, x), x) && Hello(t, c, x).candidates == t.candidates + {c}
  {
    if t.active == None { ElectIsGood(t.(candidates := t.candidates + {c}), x, false); }
  }

  lemma SectionIsGood(t: Task, c: Section, x: Context)
    requires Consistent(t)
    ensures GoodChange(t, RunSection(t, c, x), x) && RunSection(t, c, x).candidates <= t.candidates
    ensures Vacant(t) ==> Vacant(RunSection(t, c, x))
  {
    match c {
      case DisconnectSection(cl) => FailOverIsGood(t.(candidates := t.candidates - {cl}), cl, false, x);
      case FaultSection(cl, _, _) => FailOverIsGood(t, cl, true, x);
      case SweepSection(timing) => if t.active.Some? { FailOverIsGood(t, t.active.value, true, x); }
      case _ =>
    }
  }

  predicate SameWindow(t: Task, u: Task) {
    u.recentIds == t.recentIds && u.recentOrder == t.recentOrder
  }

  lemma SectionKeepsWindow(t: Task, c: Section, x: Context)
    ensures SameWindow(t, RunSection(t, c, x))
  {
    hide Winner, Overdue;
  }

  lemma HelloKeepsWindow(t: Task, c: ClientId, x: Context)
    ensures SameWindow(t, Hello(t, c, x))
  {
    hide Winner;
  }

  // ---------- every run keeps the invariant ----------

  /** No store goes back, nothing issued is forgotten, and no record returns to an assignment it has lost. */
  ghost predicate Onward(s: Server, s': Server) {
    && s'.log == s.log
    && (forall d :: DiskOf(s', d).manifest.revision >= DiskOf(s, d).manifest.revision)
    && (forall id :: id in s.issued ==> id in s'.issued && s'.issued[id] == s.issued[id])
    && (forall id :: id in s'.issued && id !in s.issued ==> s'.issued[id].logged == |s.log|)
    && (forall r :: r in s.records ==>
        r in s'.records && s'.records[r].key == s.records[r].key && TaskOnward(s, s.records[r].task, s'.records[r].task))
  }

  predicate TaskOnward(s: Server, t: Task, u: Task) {
    u.assignment.Some? && u.assignment.value in s.issued ==> t.assignment == u.assignment && t.revision <= u.revision
  }

  lemma LogsKept(s: Server, s': Server)
    requires LogsOk(s) && Onward(s, s')
    ensures LogsOk(s')
  {
    forall i | 0 <= i < |s'.log| ensures LogOk(s', i) { assert LogOk(s, i); }
    forall i, j | 0 <= i < j < |s'.log| ensures Ordered(s', i, j) { assert Ordered(s, i, j); }
  }

  lemma DisksGrow(s: Server, disks: map<string, Disk>)
    requires Inv(s)
    requires forall d :: DiskOf(s.(disks := disks), d).manifest.revision >= DiskOf(s, d).manifest.revision
    ensures Inv(s.(disks := disks))
  {
    hide LogsOk, Consistent, Vacant;
    var s' := s.(disks := disks);
    LogsKept(s, s');
    forall r | r in s'.records ensures RecordOk(s', r) { assert RecordOk(s, r); }
    assert forall r :: r in s'.records ==> IsLive(s', r) == IsLive(s, r);
  }

  lemma RecordChanges(s: Server, r: nat, u: Task, x: Context)
    requires Inv(s) && r in s.records && GoodChange(s.records[r].task, u, x) && x.newId !in s.issued
    requires x.manifest.revision == DiskOf(s, s.records[r].key.deviceId).manifest.revision
    requires !IsLive(s, r) ==> Vacant(u)
    ensures Inv(WithTask(s, r, u, x))
  {
    hide LogsOk, RecordsOk, DeadOk, GoodChange, RecordOk, Vacant;
    var s' := WithTask(s, r, u, x);
    RecordsAfterChange(s, r, u, x);
    assert Onward(s, s') by { ChangeIsOnward(s, r, u, x); }
    LogsKept(s, s');
    assert DeadOk(s') by { DeadAfterChange(s, r, u, x); }
  }

  lemma DeadAfterChange(s: Server, r: nat, u: Task, x: Context)
    requires DeadOk(s) && r in s.records && (!IsLive(s, r) ==> Vacant(u))
    ensures DeadOk(WithTask(s, r, u, x))
  {
    hide Vacant;
    var s' := WithTask(s, r, u, x);
    forall q | q in s'.records && !IsLive(s', q) ensures Vacant(s'.records[q].task) {
      assert IsLive(s', q) == IsLive(s, q);
    }
  }

  lemma RecordsAfterChange(s: Server, r: nat, u: Task, x: Context)
    requires RecordsOk(s) && r in s.records && GoodChange(s.records[r].task, u, x) && x.newId !in s.issued
    requires x.manifest.revision == DiskOf(s, s.records[r].key.deviceId).manifest.revision
    ensures RecordsOk(WithTask(s, r, u, x))
  {
    var s' := WithTask(s, r, u, x);
    assert RecordOk(s, r);
    forall q | q in s'.records ensures RecordOk(s', q) { assert RecordOk(s, q); }
  }

  lemma ChangeIsOnward(s: Server, r: nat, u: Task, x: Context)
    requires RecordsOk(s) && r in s.records && GoodChange(s.records[r].task, u, x) && x.newId !in s.issued
    ensures Onward(s, WithTask(s, r, u, x))
  {
    assert RecordOk(s, r);
  }

  lemma HelloKeeps(s: Server, key: TaskKey, c: ClientId, n: nat, id: AssignmentId, now: int, hash: Content -> string)
    requires Inv(s) && Possible(s, HelloEvent(key, c, n, id, now))
    ensures Inv(Next(s, HelloEvent(key, c, n, id, now), hash))
  {
    hide Hello, GoodChange, LogsOk, Vacant;
    var x := Context(s.registry, DiskOf(s, key.deviceId).manifest, id, now);
    var (s1, r) := GetOrCreate(s, key, n);
    GetOrCreateKeeps(s, key, n);
    assert RecordOk(s1, r);
    HelloIsGood(s1.records[r].task, c, x);
    RecordChanges(s1, r, Hello(s1.records[r].task, c, x), x);
  }

  lemma GetOrCreateKeeps(s: Server, key: TaskKey, n: nat)
    requires Inv(s) && n !in s.records
    ensures var (s1, r) := GetOrCreate(s, key, n);
      Inv(s1) && IsLive(s1, r) && s1.records[r].key == key
  {
    if key !in s.live { CreateKeeps(s, key, n); }
  }

  function Created(s: Server, key: TaskKey, n: nat): Server {
    s.(records := s.records[n := Record(key, NewTask)], live := s.live[key := n])
  }

  lemma CreateKeeps(s: Server, key: TaskKey, n: nat)
    requires Inv(s) && n !in s.records && key !in s.live
    ensures Inv(Created(s, key, n))
  {
    hide LogsOk, DeadOk, RecordsOk;
    LogsKept(s, Created(s, key, n));
    CreatedRecordsOk(s, key, n);
    CreatedDeadOk(s, key, n);
  }

  lemma CreatedRecordsOk(s: Server, key: TaskKey, n: nat)
    requires RecordsOk(s) && n !in s.records
    ensures RecordsOk(Created(s, key, n))
  {
    hide Consistent;
    var s1 := Created(s, key, n);
    NewRecordOk(s1, n);
    forall q | q in s1.records ensures RecordOk(s1, q) { if q != n { assert RecordOk(s, q); } }
  }

  lemma CreatedDeadOk(s: Server, key: TaskKey, n: nat)
    requires DeadOk(s) && n !in s.records && key !in s.live
    ensures DeadOk(Created(s, key, n))
  {
    hide Vacant;
    var s1 := Created(s, key, n);
    forall q | q in s1.records && !IsLive(s1, q) ensures Vacant(s1.records[q].task) {
      if q != n { assert !IsLive(s, q); }
    }
  }

  lemma NewRecordOk(s: Server, n: nat)
    requires n in s.records && s.records[n].task == NewTask
    ensures RecordOk(s, n) && Vacant(s.records[n].task)
  {}

  lemma SectionKeeps(s: Server, r: nat, c: Section, id: AssignmentId, now: int, hash: Content -> string)
    requires Inv(s) && Possible(s, SectionEvent(r, c, id, now))
    ensures Inv(Next(s, SectionEvent(r, c, id, now), hash))
  {
    hide RunSection, GoodChange, LogsOk, Vacant, DeadOk;
    var s1 := FlagWrite(s, r, c);
    DisksGrow(s, s1.disks);
    var x := Context(s.registry, DiskOf(s, s.records[r].key.deviceId).manifest, id, now);
    assert RecordOk(s, r);
    SectionIsGood(s.records[r].task, c, x);
    assert !IsLive(s1, r) ==> Vacant(RunSection(s.records[r].task, c, x)) by { DeadStay(s, r, c, x); }
    RecordChanges(s1, r, RunSection(s.records[r].task, c, x), x);
  }

  lemma DeadStay(s: Server, r: nat, c: Section, x: Context)
    requires DeadOk(s) && r in s.records && (Vacant(s.records[r].task) ==> Vacant(RunSection(s.records[r].task, c, x)))
    ensures !IsLive(s, r) ==> Vacant(RunSection(s.records[r].task, c, x))
  {
    hide RunSection, Vacant;
  }

  lemma DeltaKeeps(s: Server, r: nat, c: ClientId, d: Delta, allowed: nat, hash: Content -> string)
    requires Inv(s) && r in s.records
    ensures Inv(Next(s, DeltaEvent(r, c, d, allowed), hash))
  {
    hide ApplyDelta, LogsOk, DeadOk, Consistent, FilterDuplicates, ApplyChanges;
    var dev := s.records[r].key.deviceId;
    var t := s.records[r].task;
    assert RecordOk(s, r);
    var o := ApplyDelta(t, c, d, DiskOf(s, dev), hash, allowed);
    DeltaFence(t, c, d, DiskOf(s, dev), hash, allowed);
    var s1 := s.(disks := s.disks[dev := o.disk]);
    DisksGrow(s, s1.disks);
    if o.applied == [] {
      assert s1.records[r := s1.records[r].(task := o.task)] == s1.records;
    } else {
      LogExtends(s1, r, c, d, o.applied, o.task);
    }
  }

  /** What a written delta does to records and log, the store having moved already. */
  function Logging(s: Server, r: nat, c: ClientId, d: Delta, written: seq<Change>, u: Task): Server
    requires r in s.records
  {
    s.(records := s.records[r := s.records[r].(task := u)],
       log := s.log + [LogEntry(r, c, d, s.records[r].task.recentIds, written, u.revision)])
  }

  /** A written delta moves its record to the new store revision and is logged. */
  lemma LogExtends(s: Server, r: nat, c: ClientId, d: Delta, written: seq<Change>, u: Task)
    requires Inv(s) && r in s.records
    requires HoldsAssignment(s.records[r].task, c, d.assignmentId) && d.baseRevision == s.records[r].task.revision
    requires SameAssignment(s.records[r].task, u)
    requires s.records[r].task.revision < u.revision == DiskOf(s, s.records[r].key.deviceId).manifest.revision
    ensures Inv(Logging(s, r, c, d, written, u))
  {
    hide LogsOk;
    var s' := Logging(s, r, c, d, written, u);
    assert RecordOk(s, r);
    forall q | q in s'.records ensures RecordOk(s', q) { assert RecordOk(s, q); }
    forall q | q in s'.records && !IsLive(s', q) ensures Vacant(s'.records[q].task) {
      assert IsLive(s', q) == IsLive(s, q);
    }
    LogsAfterDelta(s, r, c, d, written, u);
  }

  lemma LogsAfterDelta(s: Server, r: nat, c: ClientId, d: Delta, written: seq<Change>, u: Task)
    requires LogsOk(s) && r in s.records && RecordOk(s, r)
    requires HoldsAssignment(s.records[r].task, c, d.assignmentId) && d.baseRevision == s.records[r].task.revision
    requires SameAssignment(s.records[r].task, u)
    requires s.records[r].task.revision < u.revision == DiskOf(s, s.records[r].key.deviceId).manifest.revision
    ensures LogsOk(Logging(s, r, c, d, written, u))
  {
    hide Consistent;
    var s' := Logging(s, r, c, d, written, u);
    forall i | 0 <= i < |s'.log| ensures LogOk(s', i) { if i < |s.log| { assert LogOk(s, i); } }
    forall i, j | 0 <= i < j < |s'.log| ensures Ordered(s', i, j) {
      assert LogOk(s, i);
      if j < |s.log| { assert Ordered(s, i, j); }
    }
  }

  lemma NextKeeps(s: Server, e: Event, hash: Content -> string)
    requires Inv(s) && Possible(s, e)
    ensures Inv(Next(s, e, hash))
  {
    var s' := Next(s, e, hash);
    match e {
      case RegistryEvent(reg) => DisksGrow(s, s.disks); RegistryKeeps(s, reg);
      case HelloEvent(key, c, n, id, now) => HelloKeeps(s, key, c, n, id, now, hash);
      case SectionEvent(r, c, id, now) => SectionKeeps(s, r, c, id, now, hash);
      case DeltaEvent(r, c, d, allowed) => DeltaKeeps(s, r, c, d, allowed, hash);
      case CleanupEvent(key) => CleanupKeeps(s, key, hash);
      case OtherWrite(d, disk) => DisksGrow(s, s'.disks);
    }
  }

  lemma RegistryKeeps(s: Server, reg: Registry)
    requires Inv(s)
    ensures Inv(s.(registry := reg))
  {
    hide LogsOk, Consistent, Vacant;
    var s' := s.(registry := reg);
    LogsKept(s, s');
    forall r | r in s'.records ensures RecordOk(s', r) { assert RecordOk(s, r); }
    assert forall r :: r in s'.records ==> IsLive(s', r) == IsLive(s, r);
  }

  lemma CleanupKeeps(s: Server, key: TaskKey, hash: Content -> string)
    requires Inv(s)
    ensures Inv(Next(s, CleanupEvent(key), hash))
  {
    hide Inv;
    if key in s.live && s.live[key] in s.records && Vacant(s.records[s.live[key]].task) { LiveShrinks(s, key); }
  }

  lemma LiveShrinks(s: Server, key: TaskKey)
    requires Inv(s) && key in s.live && s.live[key] in s.records && Vacant(s.records[s.live[key]].task)
    ensures Inv(s.(live := s.live - {key}))
  {
    hide LogsOk, RecordOk, Vacant;
    var s' := s.(live := s.live - {key});
    LogsKept(s, s');
    SameRecordsOk(s, s');
    forall r | r in s'.records && !IsLive(s', r) ensures Vacant(s'.records[r].task) {
      assert IsLive(s, r) ==> s.records[r].key == key;
    }
  }

  lemma SameRecordsOk(s: Server, s': Server)
    requires RecordsOk(s) && s'.records == s.records && s'.disks == s.disks && s'.issued == s.issued
    ensures RecordsOk(s')
  {
    hide Consistent;
    forall r | r in s'.records ensures RecordOk(s', r) { assert RecordOk(s, r); }
  }

  /** The record's part of the invariant. */
  lemma RecordIsOk(s: Server, r: nat)
    requires Inv(s) && r in s.records
    ensures RecordOk(s, r)
  {
    hide LogsOk, DeadOk, LiveOk;
  }
}
