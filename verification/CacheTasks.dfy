/** One cache task per (device, cwd): who is active, under which assignment, at which revision.
    The functions say what each critical section under the task lock does to the task's value. */
module CacheTasks {
  import opened StringOrder
  import opened Options
  import opened CacheStore

  type ClientId = string
  type AssignmentId = string

  datatype Phase = Idle | Syncing | Ready | Degraded

  /** `collation` is where the client's id stands in the order that breaks ties, whatever order that is; ids that this
      order does not tell apart are ordered by code units. */
  datatype ClientInfo = ClientInfo(connectedAt: int, collation: int, cacheTaskV1: bool)
  type Registry = map<ClientId, ClientInfo>

  datatype Bypass = Bypass(mutationId: string, expiresAt: int)

  datatype Task = Task(
    phase: Phase,
    active: Option<ClientId>,
    assignment: Option<AssignmentId>,
    revision: nat,
    candidates: set<ClientId>,
    bypass: map<FileKey, Bypass>,
    recentIds: set<string>,
    recentOrder: seq<string>,
    lastHeartbeat: Option<int>,
    lastFailover: Option<int>)

  const NewTask: Task := Task(Idle, None, None, 0, {}, map[], {}, [], None, None)

  datatype Reason = Elected | Failover | Resync | Standby | CapabilityMissing

  datatype Outbound =
    | Activate(client: ClientId, id: AssignmentId, reason: Reason, manifest: Manifest)
    | Deactivate(client: ClientId, id: AssignmentId, reason: Reason)

  datatype Delta = Delta(assignmentId: AssignmentId, batchId: string, baseRevision: nat, changes: seq<Change>)

  datatype RejectCode = NotActive | StaleAssignment | StaleRevision | Sha256Mismatch | StoreWriteFailed

  datatype Ack =
    | Accepted(assignmentId: AssignmentId, batchId: string, appliedRevision: nat)
    | Rejected(assignmentId: AssignmentId, batchId: string, code: RejectCode, resyncRequired: bool)

  // ---------- election ----------

  predicate Capable(reg: Registry, c: ClientId) {
    c in reg && reg[c].cacheTaskV1
  }

  /** Earlier connection first, ties broken by id. */
  predicate Before(reg: Registry, a: ClientId, b: ClientId)
    requires a in reg && b in reg
  {
    || reg[a].connectedAt < reg[b].connectedAt
    || (reg[a].connectedAt == reg[b].connectedAt
        && (reg[a].collation < reg[b].collation || (reg[a].collation == reg[b].collation && Less(a, b))))
  }

  predicate IsWinner(w: ClientId, candidates: set<ClientId>, reg: Registry) {
    && w in candidates && Capable(reg, w)
    && forall c :: c in candidates && Capable(reg, c) && c != w ==> Before(reg, w, c)
  }

  ghost predicate IsElected(w: Option<ClientId>, candidates: set<ClientId>, reg: Registry) {
    match w
    case None => forall c :: c in candidates ==> !Capable(reg, c)
    case Some(c) => IsWinner(c, candidates, reg)
  }

  lemma {:induction false} SomeoneIsElected(candidates: set<ClientId>, reg: Registry) returns (w: Option<ClientId>)
    ensures IsElected(w, candidates, reg)
    decreases |candidates|
  {
    w := None;
    if c :| c in candidates {
      w := SomeoneIsElected(candidates - {c}, reg);
      w := Better(w, c, candidates - {c}, reg);
      assert candidates == candidates - {c} + {c};
    }
  }

  /** The winner among `candidates` and one more client. */
  function Better(w: Option<ClientId>, c: ClientId, candidates: set<ClientId>, reg: Registry): (r: Option<ClientId>)
    requires IsElected(w, candidates, reg)
    ensures IsElected(r, candidates + {c}, reg)
  {
    if !Capable(reg, c) then w
    else if w.None? then Some(c)
    else
      BeforeIsTotal(reg, w.value, c);
      if w.value == c || Before(reg, w.value, c) then w
      else
        assert forall d :: d in candidates && Capable(reg, d) && d != w.value && d != c ==> Before(reg, c, d) by {
          forall d | d in candidates && Capable(reg, d) && d != w.value && d != c ensures Before(reg, c, d) {
            BeforeIsTransitive(reg, c, w.value, d);
          }
        }
        Some(c)
  }

  lemma BeforeIsTotal(reg: Registry, a: ClientId, b: ClientId)
    requires a in reg && b in reg
    ensures Before(reg, a, b) || a == b || Before(reg, b, a)
    ensures Before(reg, a, b) ==> !Before(reg, b, a) && a != b
  {
    Trichotomy(a, b);
    Irreflexive(a);
    if Less(a, b) { Asymmetric(a, b); }
  }

  lemma BeforeIsTransitive(reg: Registry, a: ClientId, b: ClientId, c: ClientId)
    requires a in reg && b in reg && c in reg && Before(reg, a, b) && Before(reg, b, c)
    ensures Before(reg, a, c)
  {
    if Less(a, b) && Less(b, c) { Transitive(a, b, c); }
  }

  /** The election has exactly one outcome. */
  lemma ElectedUnique(v: Option<ClientId>, w: Option<ClientId>, candidates: set<ClientId>, reg: Registry)
    requires IsElected(v, candidates, reg) && IsElected(w, candidates, reg)
    ensures v == w
  {
    if v.Some? && w.Some? { BeforeIsTotal(reg, v.value, w.value); }
  }

  ghost function Winner(candidates: set<ClientId>, reg: Registry): (w: Option<ClientId>)
    ensures IsElected(w, candidates, reg)
  {
    assert exists v :: IsElected(v, candidates, reg) by { var v := SomeoneIsElected(candidates, reg); }
    var v :| IsElected(v, candidates, reg);
    v
  }

  // ---------- the critical sections ----------

  /** What a section may need from outside: the connected clients, the manifest it loads, a new id, the clock. */
  datatype Context = Context(registry: Registry, manifest: Manifest, newId: AssignmentId, now: int)

  function Unassigned(t: Task, phase: Phase): Task {
    t.(active := None, assignment := None, lastHeartbeat := None, phase := phase)
  }

  /** A fresh assignment to `c` at the revision of the manifest it is sent. */
  function Assign(t: Task, c: ClientId, x: Context): Task {
    t.(active := Some(c), assignment := Some(x.newId), phase := Syncing, revision := x.manifest.revision,
       lastHeartbeat := Some(x.now))
  }

  ghost function Elect(t: Task, x: Context, failover: bool): Task {
    match Winner(t.candidates, x.registry)
    case None => Unassigned(t, Idle)
    case Some(w) =>
      var t' := Assign(t, w, x);
      if failover then t'.(lastFailover := Some(x.now)) else t'
  }

  ghost function FailOver(t: Task, previous: ClientId, remove: bool, x: Context): Task {
    var t1 := if remove then t.(candidates := t.candidates - {previous}) else t;
    if t1.candidates == {} then Unassigned(t1, Idle) else Elect(Unassigned(t1, Degraded), x, true)
  }

  ghost function Hello(t: Task, c: ClientId, x: Context): Task {
    var t1 := t.(candidates := t.candidates + {c});
    if t.active == None then Elect(t1, x, false)
    else if t.active == Some(c) then Assign(t1, c, x)
    else t1
  }

  ghost function Disconnect(t: Task, c: ClientId, x: Context): Task {
    var t1 := t.(candidates := t.candidates - {c});
    if t.active == Some(c) then FailOver(t1, c, false, x)
    else if t.active == None && t1.candidates == {} then t1.(phase := Idle)
    else t1
  }

  predicate HoldsAssignment(t: Task, c: ClientId, id: AssignmentId) {
    t.active == Some(c) && t.assignment == Some(id)
  }

  function Heartbeat(t: Task, c: ClientId, id: AssignmentId, x: Context): Task {
    if HoldsAssignment(t, c, id) then t.(lastHeartbeat := Some(x.now)) else t
  }

  ghost function Fault(t: Task, c: ClientId, id: AssignmentId, fatal: bool, x: Context): Task {
    if !HoldsAssignment(t, c, id) then t
    else if !fatal then t.(lastHeartbeat := Some(x.now))
    else FailOver(t, c, true, x)
  }

  datatype Timing = Timing(heartbeatTimeoutMs: int, failoverCooldownMs: int)

  /** The heartbeat is overdue and the last failover (a zero time counts as none) is not too recent. */
  predicate Overdue(t: Task, now: int, timing: Timing) {
    && t.active.Some? && t.lastHeartbeat.Some?
    && now - t.lastHeartbeat.value > timing.heartbeatTimeoutMs
    && !(t.lastFailover.Some? && t.lastFailover.value != 0 && now - t.lastFailover.value < timing.failoverCooldownMs)
  }

  ghost function Sweep(t: Task, timing: Timing, x: Context): Task {
    if Overdue(t, x.now, timing) then FailOver(t, t.active.value, true, x) else t
  }

  /** `stored` says whether the truncation flags could be written; if not, the section ends there. */
  function Complete(t: Task, c: ClientId, id: AssignmentId, baseRevision: nat, stored: bool, x: Context): Task {
    if !HoldsAssignment(t, c, id) then t
    else if t.revision < baseRevision then Assign(t, c, x)
    else if !stored then t
    else t.(phase := Ready)
  }

  /** Reads of these files bypass the cache until a change with this mutation id arrives. */
  function Hint(t: Task, keys: set<FileKey>, b: Bypass): Task {
    if t.active.Some? && t.assignment.Some? then t.(bypass := t.bypass + map k | k in keys :: b) else t
  }

  /** Reads go past the cache unless the task is ready, and for a hinted file until the hint expires. */
  predicate MustBypass(t: Task, key: FileKey, now: int) {
    t.phase != Ready || (key in t.bypass && t.bypass[key].expiresAt > now)
  }

  /** What asking leaves: without the bypass of the file, if it was asked for and has expired. */
  function Pruned(t: Task, key: FileKey, now: int): Task {
    if t.phase == Ready && key in t.bypass && t.bypass[key].expiresAt <= now then t.(bypass := t.bypass - {key}) else t
  }

  // ---------- deltas ----------

  const RECENT_MUTATION_ID_CAP: nat := 64

  /** An absent or empty mutation id does not count. */
  function MutationOf(c: Change): Option<string> {
    if c.mutationId == Some("") then None else c.mutationId
  }

  predicate IsDuplicate(t: Task, c: Change) {
    MutationOf(c).Some? && MutationOf(c).value in t.recentIds
  }

  /** The changes whose mutation id is none of `ids`, whatever path they name. */
  function Unremembered(cs: seq<Change>, ids: set<string>): seq<Change> {
    if cs == [] then []
    else
      var k := |cs| - 1;
      Unremembered(cs[..k], ids) + (if MutationOf(cs[k]).Some? && MutationOf(cs[k]).value in ids then [] else [cs[k]])
  }

  /** Drops every change whose mutation id is remembered. */
  function FilterDuplicates(t: Task, cs: seq<Change>): seq<Change> {
    Unremembered(cs, t.recentIds)
  }

  function RememberId(t: Task, id: string): Task {
    var order := t.recentOrder + [id];
    if |order| > RECENT_MUTATION_ID_CAP && order[0] != ""
    then t.(recentOrder := order[1..], recentIds := t.recentIds + {id} - {order[0]})
    else if |order| > RECENT_MUTATION_ID_CAP then t.(recentOrder := order[1..], recentIds := t.recentIds + {id})
    else t.(recentOrder := order, recentIds := t.recentIds + {id})
  }

  function Remember(t: Task, cs: seq<Change>): Task {
    if cs == [] then t
    else
      var k := |cs| - 1;
      var t1 := Remember(t, cs[..k]);
      if MutationOf(cs[k]).None? || MutationOf(cs[k]).value in t1.recentIds then t1
      else RememberId(t1, MutationOf(cs[k]).value)
  }

  predicate ClearsBypass(t: Task, c: Change) {
    c.key in t.bypass && (MutationOf(c).None? || MutationOf(c).value == t.bypass[c.key].mutationId)
  }

  function ClearBypass(t: Task, cs: seq<Change>): Task {
    if cs == [] then t
    else
      var k := |cs| - 1;
      var t1 := ClearBypass(t, cs[..k]);
      if ClearsBypass(t1, cs[k]) then t1.(bypass := t1.bypass - {cs[k].key}) else t1
  }

  /** An error whose message contains "sha256"; the messages quote the path. */
  function CodeOf(e: StoreError): RejectCode {
    match e
    case MissingSha(_) => Sha256Mismatch
    case ShaMismatch(_) => Sha256Mismatch
    case MissingContent(key) => if Contains(key.path, "sha256") then Sha256Mismatch else StoreWriteFailed
    case WriteFailed => StoreWriteFailed
  }

  predicate Contains(s: string, part: string) {
    |part| <= |s| && (part <= s || (s != "" && Contains(s[1..], part)))
  }

  function StaleCode(t: Task, c: ClientId, d: Delta): Option<RejectCode> {
    if t.active != Some(c) then Some(NotActive)
    else if t.assignment != Some(d.assignmentId) then Some(StaleAssignment)
    else if t.revision != d.baseRevision then Some(StaleRevision)
    else None
  }

  datatype DeltaOutcome = DeltaOutcome(task: Task, disk: Disk, ack: Ack, applied: seq<Change>)

  /** What a delta does to the task and the disk, which accepts the first `allowed` writes. */
  function ApplyDelta(t: Task, c: ClientId, d: Delta, disk: Disk, hash: Content -> string, allowed: nat): DeltaOutcome {
    var stale := StaleCode(t, c, d);
    if stale.Some? then DeltaOutcome(t, disk, Rejected(d.assignmentId, d.batchId, stale.value, true), [])
    else
      var cs := FilterDuplicates(t, d.changes);
      if cs == [] then DeltaOutcome(t, disk, Accepted(d.assignmentId, d.batchId, t.revision), [])
      else
        var (disk', r) := DeltaEffect(disk, cs, hash, allowed);
        match r
        case Failed(e) =>
          DeltaOutcome(t, disk', Rejected(d.assignmentId, d.batchId, CodeOf(e), CodeOf(e) != StoreWriteFailed), [])
        case Applied(rev) =>
          DeltaOutcome(ClearBypass(Remember(t.(revision := rev), cs), cs), disk', Accepted(d.assignmentId, d.batchId, rev), cs)
  }
}
