/** What each critical section does to a record, told in the record's own fields. */
module SectionMeanings {
  import opened StringOrder
  import opened Options
  import opened CacheStore
  import opened CacheStoreProperties
  import opened CacheTasks
  import opened CacheTaskProperties
  import opened TaskRuns

  function TaskAt(s: Server, r: nat): Task
    requires r in s.records
  {
    s.records[r].task
  }

  function ManifestAt(s: Server, r: nat): Manifest
    requires r in s.records
  {
    TaskRuns.DiskOf(s, s.records[r].key.deviceId).manifest
  }

  predicate IsAble(reg: Registry, c: ClientId) {
    c in reg && reg[c].cacheTaskV1
  }

  /** Among the candidates that can serve, this one connected first; at the same time, it comes first in the order of ids. */
  predicate IsEarliest(w: ClientId, candidates: set<ClientId>, reg: Registry) {
    && w in candidates && IsAble(reg, w)
    && forall c :: c in candidates && IsAble(reg, c) ==> IsNoLater(reg, w, c)
  }

  predicate IsNoLater(reg: Registry, w: ClientId, c: ClientId)
    requires w in reg && c in reg
  {
    || reg[w].connectedAt < reg[c].connectedAt
    || (reg[w].connectedAt == reg[c].connectedAt
        && (reg[w].collation < reg[c].collation || (reg[w].collation == reg[c].collation && !Less(c, w))))
  }

  /** The assignment is new, at the revision of the store, and its holder counts as just heard of. */
  predicate IsNewlyHeld(u: Task, c: ClientId, newId: AssignmentId, m: Manifest, now: int) {
    && u.active == Some(c) && u.assignment == Some(newId) && u.phase == Syncing && u.revision == m.revision
    && u.lastHeartbeat == Some(now)
  }

  /** The record's place has been filled: by the earliest of the candidates that can serve, or by nobody if none can. */
  predicate IsFilled(u: Task, candidates: set<ClientId>, reg: Registry, newId: AssignmentId, m: Manifest, now: int) {
    && u.candidates == candidates
    && match u.active
       case Some(w) => IsEarliest(w, candidates, reg) && IsNewlyHeld(u, w, newId, m, now)
       case None => u.assignment == None && u.lastHeartbeat == None && u.phase == Idle && forall c :: c in candidates ==> !IsAble(reg, c)
  }

  /** Everything but the place and its times. */
  predicate SameBesides(t: Task, u: Task) {
    u.bypass == t.bypass && u.recentIds == t.recentIds && u.recentOrder == t.recentOrder
  }

  lemma WinnerIsEarliest(w: ClientId, candidates: set<ClientId>, reg: Registry)
    requires IsWinner(w, candidates, reg)
    ensures IsEarliest(w, candidates, reg)
  {
    Irreflexive(w);
    forall c | c in candidates && IsAble(reg, c) && c != w ensures IsNoLater(reg, w, c) {
      if Less(w, c) { Asymmetric(w, c); }
    }
  }

  lemma ElectFills(t: Task, x: Context, failover: bool)
    ensures var u := Elect(t, x, failover);
      && IsFilled(u, t.candidates, x.registry, x.newId, x.manifest, x.now) && SameBesides(t, u)
      && u.lastFailover == (if failover && u.active.Some? then Some(x.now) else t.lastFailover)
  {
    var w := Winner(t.candidates, x.registry);
    if w.Some? { WinnerIsEarliest(w.value, t.candidates, x.registry); }
  }

  /** What becomes of a record whose holder has lost its place. */
  lemma FailOverFills(t: Task, previous: ClientId, remove: bool, x: Context)
    ensures var u, left := FailOver(t, previous, remove, x), if remove then t.candidates - {previous} else t.candidates;
      && IsFilled(u, left, x.registry, x.newId, x.manifest, x.now) && SameBesides(t, u)
      && u.lastFailover == (if u.active.Some? then Some(x.now) else t.lastFailover)
  {
    var t1 := if remove then t.(candidates := t.candidates - {previous}) else t;
    if t1.candidates != {} { ElectFills(Unassigned(t1, Degraded), x, true); }
  }

  // ---------- hello ----------

  /** A hello makes its sender a candidate. A free place is filled; a holder that says hello again gets a new assignment at
      the store's revision; any other holder keeps its own. */
  lemma HelloMeans(s: Server, e: Event, hash: Content -> string, r: nat)
    requires Inv(s) && Possible(s, e) && e.HelloEvent? && r in s.records && e.key in s.live && s.live[e.key] == r
    ensures var t, w := TaskAt(s, r), Next(s, e, hash);
      && r in w.records && var u := TaskAt(w, r);
      && u.candidates == t.candidates + {e.client} && SameBesides(t, u) && u.lastFailover == t.lastFailover
      && (t.active == None ==> IsFilled(u, t.candidates + {e.client}, s.registry, e.newId, ManifestAt(s, r), e.now))
      && (t.active == Some(e.client) ==> IsNewlyHeld(u, e.client, e.newId, ManifestAt(s, r), e.now))
      && (t.active !in {None, Some(e.client)} ==> u == t.(candidates := t.candidates + {e.client}))
  {
    hide Elect;
    var t, x := TaskAt(s, r), Context(s.registry, ManifestAt(s, r), e.newId, e.now);
    ElectFills(t.(candidates := t.candidates + {e.client}), x, false);
  }

  /** The first hello for a key opens a record with its sender as only candidate. */
  lemma FirstHelloMeans(s: Server, e: Event, hash: Content -> string)
    requires Inv(s) && Possible(s, e) && e.HelloEvent? && e.key !in s.live
    ensures var w := Next(s, e, hash);
      && e.slot in w.records && w.records[e.slot].key == e.key && e.key in w.live && w.live[e.key] == e.slot
      && IsFilled(TaskAt(w, e.slot), {e.client}, s.registry, e.newId, TaskRuns.DiskOf(s, e.key.deviceId).manifest, e.now)
      && forall q :: q in s.records ==> w.records[q] == s.records[q]
  {
    hide Elect;
    var t1 := NewTask.(candidates := NewTask.candidates + {e.client});
    assert t1.candidates == {e.client};
    ElectFills(t1, Context(s.registry, TaskRuns.DiskOf(s, e.key.deviceId).manifest, e.newId, e.now), false);
  }

  // ---------- losing the place ----------

  /** A client that disconnects is no candidate any more; if it held the place, the place is filled from the others. */
  lemma DisconnectMeans(s: Server, e: Event, hash: Content -> string)
    requires Inv(s) && Possible(s, e) && e.SectionEvent? && e.section.DisconnectSection?
    ensures var t, u, c := TaskAt(s, e.record), TaskAt(Next(s, e, hash), e.record), e.section.client;
      && u.candidates == t.candidates - {c} && u.active != Some(c)
      && (t.active == Some(c) ==>
          IsFilled(u, t.candidates - {c}, s.registry, e.newId, ManifestAt(s, e.record), e.now) && SameBesides(t, u))
      && (t.active.Some? && t.active != Some(c) ==> u == t.(candidates := t.candidates - {c}))
      && (t.active.None? ==> u.active.None? && u.revision == t.revision && SameBesides(t, u))
  {
    hide FailOver;
    RecordIsOk(s, e.record);
    var t, c := TaskAt(s, e.record), e.section.client;
    FailOverFills(t.(candidates := t.candidates - {c}), c, false, Context(s.registry, ManifestAt(s, e.record), e.newId, e.now));
  }

  /** A fatal fault costs its reporter the place and the candidacy, if it held the assignment it names; a fault that is not
      fatal counts as a sign of life; and of anybody else a fault changes nothing. */
  lemma FaultMeans(s: Server, e: Event, hash: Content -> string)
    requires Inv(s) && Possible(s, e) && e.SectionEvent? && e.section.FaultSection?
    ensures var t, u, p := TaskAt(s, e.record), TaskAt(Next(s, e, hash), e.record), e.section;
      if t.active != Some(p.client) || t.assignment != Some(p.id) then u == t
      else if !p.fatal then u == t.(lastHeartbeat := Some(e.now))
      else IsFilled(u, t.candidates - {p.client}, s.registry, e.newId, ManifestAt(s, e.record), e.now) && SameBesides(t, u)
  {
    hide FailOver;
    FailOverFills(TaskAt(s, e.record), e.section.client, true, Context(s.registry, ManifestAt(s, e.record), e.newId, e.now));
  }

  // ---------- the end of a sync ----------

  /** A completion report makes the task ready exactly if it names the assignment its sender holds, is not ahead of the
      task, and its flags could be stored; a report that is ahead gets a new assignment; any other changes nothing. When it
      makes the task ready, its flags are those of the manifest from then on, scope by scope. */
  lemma CompletionMeans(s: Server, e: Event, hash: Content -> string)
    requires Possible(s, e) && e.SectionEvent? && e.section.CompleteSection?
    ensures var t, w, p := TaskAt(s, e.record), Next(s, e, hash), e.section;
      var u, holds := TaskAt(w, e.record), t.active == Some(p.client) && t.assignment == Some(p.id);
      && (holds && p.baseRevision <= t.revision && p.stored ==>
          u == t.(phase := Ready) && Flagged(ManifestAt(s, e.record), ManifestAt(w, e.record), p.flags))
      && (holds && p.baseRevision > t.revision ==> IsNewlyHeld(u, p.client, e.newId, ManifestAt(s, e.record), e.now))
      && (!holds || (p.baseRevision <= t.revision && !p.stored) ==> u == t)
      && (!(holds && p.baseRevision <= t.revision && p.stored) ==> w.disks == s.disks)
      && (forall d :: d != s.records[e.record].key.deviceId ==> TaskRuns.DiskOf(w, d) == TaskRuns.DiskOf(s, d))
  {
    ReportIsStored(ManifestAt(s, e.record), e.section.flags);
  }
}
