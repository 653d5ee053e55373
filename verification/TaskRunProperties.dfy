/** What the invariant says about every run of the task manager. */
module TaskRunProperties {
  import opened Options
  import opened CacheStore
  import opened CacheTasks
  import opened CacheTaskProperties
  import opened TaskRuns

  lemma {:induction false} RunKeeps(es: seq<Event>, hash: Content -> string)
    requires IsRun(es, hash)
    ensures Inv(After(es, hash))
    decreases |es|
  {
    if es != [] {
      RunKeeps(es[..|es| - 1], hash);
      NextKeeps(After(es[..|es| - 1], hash), es[|es| - 1], hash);
    }
  }

  // ---------- what the invariant says about every run ----------

  /** At every lock boundary of every run, each record is consistent and behind or at the store; a record that the task
      map has dropped has no active client and no candidates, so handlers still holding it do nothing. */
  lemma EveryRecordIsConsistent(es: seq<Event>, r: nat, hash: Content -> string)
    requires IsRun(es, hash) && r in After(es, hash).records
    ensures var s := After(es, hash);
      var t := s.records[r].task;
      && Consistent(t) && t.revision <= TaskRuns.DiskOf(s, s.records[r].key.deviceId).manifest.revision
      && (!IsLive(s, r) ==> Vacant(t))
  {
    RunKeeps(es, hash);
    assert RecordOk(After(es, hash), r);
  }

  /** Handlers that still hold a dropped record change nothing but, at most, its phase, and reject every delta. */
  lemma DroppedRecordIsInert(t: Task, c: Section, x: Context, cl: ClientId, d: Delta, disk: Disk, hash: Content -> string, allowed: nat)
    requires Consistent(t) && Vacant(t)
    ensures RunSection(t, c, x) == t
    ensures ApplyDelta(t, cl, d, disk, hash, allowed) == DeltaOutcome(t, disk, Rejected(d.assignmentId, d.batchId, NotActive, true), [])
  {
    if c.DisconnectSection? { assert t.candidates - {c.client} == t.candidates; }
  }

  /** No pair of assignment and base revision is written twice, in any run. */
  lemma EachBaseIsConsumedOnce(es: seq<Event>, i: nat, j: nat, hash: Content -> string)
    requires IsRun(es, hash) && i < j < |After(es, hash).log|
    ensures var a, b := After(es, hash).log[i].delta, After(es, hash).log[j].delta;
      a.assignmentId == b.assignmentId ==> a.baseRevision < b.baseRevision
  {
    RunKeeps(es, hash);
    var s := After(es, hash);
    assert LogOk(s, i) && Ordered(s, i, j);
  }

  // ---------- election and failover ----------

  /** An election gives the assignment to a client exactly if it is a capable candidate that connected before every
      other one (ties broken by id); with no capable candidate the task is idle. */
  lemma ElectionPicksEarliest(t: Task, x: Context, failover: bool, w: ClientId)
    ensures Elect(t, x, failover).active == Some(w) <==> IsWinner(w, t.candidates, x.registry)
    ensures Elect(t, x, failover).active == Some(w) ==> forall c :: c in t.candidates && c in x.registry && x.registry[c].cacheTaskV1 ==>
      w in x.registry && x.registry[w].connectedAt <= x.registry[c].connectedAt
    ensures Elect(t, x, failover).active.None? ==> Elect(t, x, failover).phase == Idle
  {
    if IsWinner(w, t.candidates, x.registry) {
      ElectedUnique(Some(w), Winner(t.candidates, x.registry), t.candidates, x.registry);
    }
  }

  /** The active client is deposed: it disconnects, reports a fatal fault, or misses its heartbeats. */
  ghost predicate IsFailover(s: Server, r: nat, e: Event) {
    e.SectionEvent? && e.record == r && r in s.records && Deposes(s.records[r].task, e.section, e.now)
  }

  ghost predicate IsHelloFor(s: Server, r: nat, e: Event) {
    e.HelloEvent? && r in s.records && IsLive(s, r) && e.key == s.records[r].key
  }

  ghost function CountFailovers(r: nat, es: seq<Event>, from: nat, hash: Content -> string): nat
    requires IsRun(es, hash)
    decreases |es|
  {
    if |es| <= from then 0
    else CountFailovers(r, es[..|es| - 1], from, hash) + (if IsFailover(After(es[..|es| - 1], hash), r, es[|es| - 1]) then 1 else 0)
  }

  ghost predicate NoHello(r: nat, es: seq<Event>, from: nat, hash: Content -> string)
    requires IsRun(es, hash)
    decreases |es|
  {
    |es| <= from || (NoHello(r, es[..|es| - 1], from, hash) && !IsHelloFor(After(es[..|es| - 1], hash), r, es[|es| - 1]))
  }

  ghost predicate Deposes(t: Task, c: Section, now: int) {
    match c
    case DisconnectSection(cl) => t.active == Some(cl)
    case FaultSection(cl, id, fatal) => HoldsAssignment(t, cl, id) && fatal
    case SweepSection(timing) => Overdue(t, now, timing)
    case _ => false
  }

  /** Sections add no candidate, and one that deposes the active client takes it out of the candidates. */
  lemma SectionShrinks(t: Task, c: Section, x: Context)
    requires Consistent(t)
    ensures var u := RunSection(t, c, x);
      u.candidates <= t.candidates && (Deposes(t, c, x.now) ==> u.candidates < t.candidates)
  {
    hide Winner, Before;
    SectionIsGood(t, c, x);
    match c {
      case DisconnectSection(cl) => FailOverIsGood(t.(candidates := t.candidates - {cl}), cl, false, x);
      case FaultSection(cl, _, _) => FailOverIsGood(t, cl, true, x);
      case SweepSection(timing) => if t.active.Some? { FailOverIsGood(t, t.active.value, true, x); }
      case _ =>
    }
  }

  /** Each failover takes the deposed client out of the candidates; only a hello adds one. */
  lemma CandidatesShrink(s: Server, r: nat, e: Event, hash: Content -> string)
    requires Inv(s) && Possible(s, e) && r in s.records && !IsHelloFor(s, r, e)
    ensures var s' := Next(s, e, hash);
      && r in s'.records && s'.records[r].task.candidates <= s.records[r].task.candidates
      && (IsFailover(s, r, e) ==> s'.records[r].task.candidates < s.records[r].task.candidates)
  {
    hide RunSection, Hello, ApplyDelta, RecordsOk, DeadOk, LogsOk, Deposes;
    RecordIsOk(s, r);
    match e {
      case SectionEvent(q, c, id, now) =>
        if q == r {
          SectionShrinks(s.records[r].task, c, Context(s.registry, TaskRuns.DiskOf(s, s.records[r].key.deviceId).manifest, id, now));
        }
      case DeltaEvent(q, c, d, allowed) =>
        if q == r { DeltaFence(s.records[r].task, c, d, TaskRuns.DiskOf(s, s.records[r].key.deviceId), hash, allowed); }
      case _ =>
    }
  }

  /** Without new hellos, a record sees at most as many failovers as it has candidates. */
  lemma {:induction false} FailoversEnd(r: nat, es: seq<Event>, from: nat, hash: Content -> string)
    requires from <= |es| && IsRun(es, hash) && IsRun(es[..from], hash)
    requires r in After(es[..from], hash).records && NoHello(r, es, from, hash)
    ensures r in After(es, hash).records
    ensures CountFailovers(r, es, from, hash) + |After(es, hash).records[r].task.candidates|
         <= |After(es[..from], hash).records[r].task.candidates|
    decreases |es|
  {
    if |es| == from {
      assert es[..from] == es;
    } else {
      var before := es[..|es| - 1];
      assert before[..from] == es[..from];
      FailoversEnd(r, before, from, hash);
      RunKeeps(before, hash);
      var s := After(before, hash);
      CandidatesShrink(s, r, es[|es| - 1], hash);
      SmallerSet(After(es, hash).records[r].task.candidates, s.records[r].task.candidates);
    }
  }

  lemma SmallerSet<T>(a: set<T>, b: set<T>)
    requires a <= b
    ensures |a| <= |b| && (a < b ==> |a| < |b|)
  {
    assert |b - a| + |a| == |b| by { assert b == a + (b - a); }
    if a < b { var x :| x in b - a; }
  }
}
