/** What becomes of a change that the watcher reports while its client syncs or watches, over all executions. */
module WatcherChanges {
  import opened Options
  import opened CacheStore
  import opened CacheTasks
  import opened TaskRuns
  import opened ClientMachine
  import opened SyncProtocol
  import opened SyncProtocolClients
  import opened SyncTheorems

  // ---------- maps of changes ----------

  lemma {:induction false} KeysAreNamed(cs: seq<Change>, x: Change)
    requires x in cs
    ensures x.key in KeyedBy(cs)
  {
    var k := |cs| - 1;
    if x != cs[k] { KeysAreNamed(cs[..k], x); }
  }

  /** The map's change of a key is one of the listed, and has that key. */
  lemma {:induction false} MappedIsListed(cs: seq<Change>, key: FileKey)
    requires key in KeyedBy(cs)
    ensures KeyedBy(cs)[key] in cs && KeyedBy(cs)[key].key == key
  {
    var k := |cs| - 1;
    if key != cs[k].key { MappedIsListed(cs[..k], key); }
  }

  predicate WellKeyed(m: ChangeMap) {
    forall k :: k in m ==> m[k].key == k
  }

  lemma ListSnoc(cs: seq<Change>, m: ChangeMap, k: FileKey)
    requires k in m && m[k].key == k && Lists(cs, m - {k})
    ensures Lists(cs + [m[k]], m)
  {
    var ds := cs + [m[k]];
    assert ds[..|ds| - 1] == cs;
    assert (m - {k})[k := m[k]] == m;
    assert m.Keys == (m - {k}).Keys + {k};
  }

  /** Every map of changes can be listed. */
  lemma {:induction false} ListOf(m: ChangeMap) returns (cs: seq<Change>)
    requires WellKeyed(m)
    ensures Lists(cs, m)
    decreases |m|
  {
    hide Lists;
    if k :| k in m {
      assert m.Keys == (m - {k}).Keys + {k};
      cs := ListOf(m - {k});
      ListSnoc(cs, m, k);
      cs := cs + [m[k]];
    } else {
      cs := [];
      assert Lists(cs, m) by { NothingLists(m); }
    }
  }

  lemma NothingLists(m: ChangeMap)
    requires forall k :: k !in m
    ensures Lists([], m)
  {
    assert m == map[];
  }

  predicate Holds(m: ChangeMap, x: Change) {
    x.key in m && m[x.key] == x
  }

  lemma HeldIsListed(cs: seq<Change>, m: ChangeMap, x: Change)
    requires Lists(cs, m) && Holds(m, x)
    ensures x in cs
  {
    MappedIsListed(cs, x.key);
  }

  // ---------- one assignment's stretch ----------

  /** The sync has not yet taken the buffered changes out. */
  predicate BeforeFlush(s: Sys, id: AssignmentId) {
    InPhase(s, id, Planning) || InPhase(s, id, Pushing) || InPhase(s, id, Flushing)
  }

  /** What decides a change's fate, when the watcher reports it. */
  predicate IsHeard(s: Sys, c: ClientId, id: AssignmentId) {
    ClientOf(s, c).state == AssignedWatching || BeforeFlush(s, id)
  }

  /** The change waits where the next live batch, or the flush still to come, takes it from. */
  predicate CanStillSend(s: Sys, c: ClientId, id: AssignmentId, x: Change) {
    var m := ClientOf(s, c);
    && m.assignment == Some(id)
    && ((m.state == AssignedWatching && Holds(m.pendingLive, x)) || (BeforeFlush(s, id) && Holds(m.buffered, x)))
  }

  /** The change waits in a buffer that nothing takes out any more. */
  predicate IsStranded(s: Sys, c: ClientId, id: AssignmentId, x: Change) {
    var m := ClientOf(s, c);
    m.assignment == Some(id) && id in s.jobs && !BeforeFlush(s, id) && Holds(m.buffered, x) && x.key !in m.pendingLive
  }

  /** A live delta of the assignment, sent between the two states. */
  predicate IsLiveSince(s: Sys, t: Sys, c: ClientId, id: AssignmentId, d: Delta) {
    && (c, d) in t.deltas && d.assignmentId == id && d.batchId !in s.batches
    && d.batchId in t.batches && t.batches[d.batchId].LiveBatch?
  }

  ghost predicate SentSince(s: Sys, t: Sys, c: ClientId, id: AssignmentId, x: Change) {
    exists d :: IsLiveSince(s, t, c, id, d) && x in d.changes
  }

  ghost predicate NothingSentSince(s: Sys, t: Sys, c: ClientId, id: AssignmentId, key: FileKey) {
    forall d, y :: IsLiveSince(s, t, c, id, d) && y in d.changes ==> y.key != key
  }

  /** The step is not a later report of the same file. */
  predicate Leaves(p: Step, c: ClientId, key: FileKey) {
    p.ClientStep? && p.client == c && p.step.WatcherStep? ==> key !in KeyedBy(p.step.changes)
  }

  // ---------- steps ----------

  lemma ServedMoves(s: Sys, e: Event, hash: Content -> string, key: ClientId -> TaskKey)
    requires CanServe(s, e, key)
    ensures var t := Served(s, e, hash);
      t.clients == s.clients && t.jobs == s.jobs && t.batches == s.batches && t.deltas == s.deltas && t.raced == s.raced
  {
    hide Next, SoloAfter, Answer;
  }

  /** What a step does to one client's machine. */
  lemma MachineEffect(s: Sys, p: Step, key: ClientId -> TaskKey, hash: Content -> string, c: ClientId)
    requires Enabled(s, p, key)
    ensures var m, n := ClientOf(s, c), ClientOf(Perform(s, p, key, hash), c);
      || n == WithRevision(m, n.revision)
      || n == Watching(m)
      || (p.FlushBuffered? && p.id in s.jobs && s.jobs[p.id].client == c && n == BufferTaken(m))
      || (p.SendLive? && p.client == c && n == PendingTaken(m))
      || (p.ClientStep? && p.client == c && n == Take(m, p.step))
      || (n.generation > m.generation && n.buffered == map[] && n.pendingLive == map[])
  {
    hide CanServe, CanReceiveFlushAck, Lists, Served, KeyedBy, WellPlanned, MaxRevision, Take;
    match p {
      case ServerStep(e) => ServedMoves(s, e, hash, key);
      case _ =>
    }
  }

  lemma TakeGrows(m: Machine, p: MachineStep)
    ensures m.generation <= Take(m, p).generation
  {}

  /** Batches and deltas are never taken back. */
  lemma MessagesGrow(s: Sys, p: Step, key: ClientId -> TaskKey, hash: Content -> string)
    requires Enabled(s, p, key)
    ensures var t := Perform(s, p, key, hash);
      && s.deltas <= t.deltas && (forall b :: b in s.batches ==> b in t.batches && t.batches[b] == s.batches[b])
      && (forall d :: d in t.deltas && d !in s.deltas ==> d.1.batchId !in s.batches)
  {
    hide CanServe, CanReceiveFlushAck, Lists, Served, KeyedBy, WellPlanned, MaxRevision, Take, ClientOf;
    match p {
      case ServerStep(e) => ServedMoves(s, e, hash, key);
      case _ =>
    }
  }

  lemma JobsGrow(s: Sys, p: Step, key: ClientId -> TaskKey, hash: Content -> string)
    requires Enabled(s, p, key)
    ensures var t := Perform(s, p, key, hash);
      forall id :: id in s.jobs ==> id in t.jobs && t.jobs[id].generation == s.jobs[id].generation
  {
    hide CanServe, CanReceiveFlushAck, Lists, Served, KeyedBy, WellPlanned, MaxRevision, Take, ClientOf;
    match p {
      case ServerStep(e) => ServedMoves(s, e, hash, key);
      case _ =>
    }
  }

  /** Batches and deltas are never taken back, generations never go back, and jobs keep theirs. */
  lemma StepGrows(s: Sys, p: Step, key: ClientId -> TaskKey, hash: Content -> string, c: ClientId)
    requires Enabled(s, p, key)
    ensures var t := Perform(s, p, key, hash);
      && s.deltas <= t.deltas && (forall b :: b in s.batches ==> b in t.batches && t.batches[b] == s.batches[b])
      && (forall d :: d in t.deltas && d !in s.deltas ==> d.1.batchId !in s.batches)
      && ClientOf(s, c).generation <= ClientOf(t, c).generation
      && (forall id :: id in s.jobs ==> id in t.jobs && t.jobs[id].generation == s.jobs[id].generation)
  {
    hide Enabled, Perform, Take, ClientOf;
    MessagesGrow(s, p, key, hash);
    JobsGrow(s, p, key, hash);
    MachineEffect(s, p, key, hash, c);
    if p.ClientStep? { TakeGrows(ClientOf(s, c), p.step); }
  }

  /** Only the flush ends the phases before it, and no step leads back. */
  lemma PhaseEffect(s: Sys, p: Step, key: ClientId -> TaskKey, hash: Content -> string, id: AssignmentId)
    requires Enabled(s, p, key) && id in s.jobs
    ensures var t := Perform(s, p, key, hash);
      && id in t.jobs
      && (BeforeFlush(t, id) ==> BeforeFlush(s, id))
      && (BeforeFlush(s, id) && !BeforeFlush(t, id) ==> p == FlushNothing(id) || (p.FlushBuffered? && p.id == id))
  {
    hide CanServe, Lists, Served, KeyedBy, WellPlanned, MaxRevision, Take, ClientOf, Activated, Current, Watching,
      WithRevision, BufferTaken, PendingTaken;
    match p {
      case ServerStep(e) => ServedMoves(s, e, hash, key);
      case _ =>
    }
  }

  /** Only flushing and sending live put live batches on the way. */
  lemma LiveEffect(s: Sys, p: Step, key: ClientId -> TaskKey, hash: Content -> string, c: ClientId, id: AssignmentId, d: Delta)
    requires Enabled(s, p, key) && (forall e :: e in s.deltas ==> e.1.batchId in s.batches)
    requires IsLiveSince(s, Perform(s, p, key, hash), c, id, d)
    ensures (p.FlushBuffered? && p.id == id && p.changes == d.changes) || (p.SendLive? && p.client == c && p.changes == d.changes)
  {
    hide CanServe, CanReceiveFlushAck, Lists, Served, KeyedBy, WellPlanned, MaxRevision, Take;
    match p {
      case ServerStep(e) => ServedMoves(s, e, hash, key);
      case _ =>
    }
  }

  lemma Flushes(s: Sys, p: Step, key: ClientId -> TaskKey, hash: Content -> string)
    requires Enabled(s, p, key) && p.FlushBuffered?
    ensures var c := s.jobs[p.id].client; var t := Perform(s, p, key, hash);
      && ClientOf(s, c).assignment == Some(p.id) && Lists(p.changes, ClientOf(s, c).buffered) && BeforeFlush(s, p.id)
      && IsLiveSince(s, t, c, p.id, Delta(p.id, p.batchId, ClientOf(s, c).revision, p.changes))
  {
    hide Lists;
  }

  lemma Sends(s: Sys, p: Step, key: ClientId -> TaskKey, hash: Content -> string)
    requires Enabled(s, p, key) && p.SendLive?
    ensures var m := ClientOf(s, p.client); var t := Perform(s, p, key, hash);
      && m.assignment.Some? && Lists(p.changes, m.pendingLive)
      && IsLiveSince(s, t, p.client, m.assignment.value, Delta(m.assignment.value, p.batchId, m.revision, p.changes))
  {
    hide Lists;
  }

  /** A watcher report of other files leaves a waiting change alone. */
  lemma ReportLeaves(m: Machine, cs: seq<Change>, x: Change)
    requires x.key !in KeyedBy(cs)
    ensures var n := WatcherChanged(m, cs);
      && n.assignment == m.assignment && n.state == m.state
      && (Holds(n.buffered, x) <==> Holds(m.buffered, x)) && (Holds(n.pendingLive, x) <==> Holds(m.pendingLive, x))
      && (x.key in n.pendingLive <==> x.key in m.pendingLive)
  {
    hide KeyedBy;
  }

  /** A waiting change goes on waiting until it is sent. */
  lemma WaitingStep(s: Sys, p: Step, key: ClientId -> TaskKey, hash: Content -> string, c: ClientId, id: AssignmentId, x: Change)
    requires SysOk(s, key) && Enabled(s, p, key) && CanStillSend(s, c, id, x) && Leaves(p, c, x.key)
    requires ClientOf(Perform(s, p, key, hash), c).generation == ClientOf(s, c).generation
    ensures CanStillSend(Perform(s, p, key, hash), c, id, x) || SentSince(s, Perform(s, p, key, hash), c, id, x)
  {
    hide SysOk, Lists, KeyedBy, SentSince, Perform, BeforeFlush, WatcherChanged, IsLiveSince;
    var t := Perform(s, p, key, hash);
    AssignedJob(s, key, c);
    MachineEffect(s, p, key, hash, c);
    PhaseEffect(s, p, key, hash, id);
    if p.ClientStep? && p.client == c && p.step.WatcherStep? { ReportLeaves(ClientOf(s, c), p.step.changes, x); }
    if p.FlushBuffered? && Holds(ClientOf(s, c).buffered, x) {
      Flushes(s, p, key, hash);
      if p.id == id {
        HeldIsListed(p.changes, ClientOf(s, c).buffered, x);
        SentNow(s, t, c, id, x, Delta(id, p.batchId, ClientOf(s, c).revision, p.changes));
      }
    }
    if p.SendLive? && p.client == c && Holds(ClientOf(s, c).pendingLive, x) {
      Sends(s, p, key, hash);
      HeldIsListed(p.changes, ClientOf(s, c).pendingLive, x);
      SentNow(s, t, c, id, x, Delta(id, p.batchId, ClientOf(s, c).revision, p.changes));
    }
  }

  lemma SentNow(s: Sys, t: Sys, c: ClientId, id: AssignmentId, x: Change, d: Delta)
    requires IsLiveSince(s, t, c, id, d) && x in d.changes
    ensures SentSince(s, t, c, id, x)
  {}

  /** A client's assignment is the assignment of one of its jobs. */
  lemma AssignedJob(s: Sys, key: ClientId -> TaskKey, c: ClientId)
    requires SysOk(s, key)
    ensures var m := ClientOf(s, c);
      && (m.assignment.Some? ==>
          && m.assignment.value in s.jobs && s.jobs[m.assignment.value].client == c
          && s.jobs[m.assignment.value].generation == m.generation && (m.state == AssignedSyncing || m.state == AssignedWatching)
          && (m.state == AssignedSyncing ==> m.pendingLive == map[] && !InPhase(s, m.assignment.value, Finished)))
  {
    hide Known;
    MachineIsOk(s, key, c);
  }

  /** A stranded change stays where it is, and no live batch names its file. */
  lemma StrandedStep(s: Sys, p: Step, key: ClientId -> TaskKey, hash: Content -> string, c: ClientId, id: AssignmentId, x: Change)
    requires SysOk(s, key) && Enabled(s, p, key) && IsStranded(s, c, id, x) && Leaves(p, c, x.key)
    requires ClientOf(Perform(s, p, key, hash), c).generation == ClientOf(s, c).generation
    ensures IsStranded(Perform(s, p, key, hash), c, id, x)
    ensures NothingSentSince(s, Perform(s, p, key, hash), c, id, x.key)
  {
    hide SysOk, Lists, KeyedBy, Perform, WatcherChanged, IsLiveSince, BeforeFlush;
    var t := Perform(s, p, key, hash);
    AssignedJob(s, key, c);
    MachineEffect(s, p, key, hash, c);
    PhaseEffect(s, p, key, hash, id);
    if p.FlushBuffered? { Flushes(s, p, key, hash); }
    if p.ClientStep? && p.client == c && p.step.WatcherStep? { ReportLeaves(ClientOf(s, c), p.step.changes, x); }
    forall d, y | IsLiveSince(s, t, c, id, d) && y in d.changes ensures y.key != x.key {
      DeltasAreNamed(s, key);
      LiveEffect(s, p, key, hash, c, id, d);
      if p.SendLive? {
        Sends(s, p, key, hash);
        ListedIsHeld(p.changes, ClientOf(s, c).pendingLive, y);
      }
    }
  }

  lemma DeltasAreNamed(s: Sys, key: ClientId -> TaskKey)
    requires SysOk(s, key)
    ensures forall e :: e in s.deltas ==> e.1.batchId in s.batches
  {
    hide Known, ServerOk, AckOk, ReportOk, ReadyOk, EntryOk, SoloOk, BatchOk, JobOk, ClientOk, DroppedOk;
    forall e | e in s.deltas ensures e.1.batchId in s.batches { assert DeltaOk(s, e.0, e.1); }
  }

  lemma ListedIsHeld(cs: seq<Change>, m: ChangeMap, y: Change)
    requires Lists(cs, m) && y in cs
    ensures y.key in m
  {
    KeysAreNamed(cs, y);
  }

  // ---------- executions ----------

  lemma {:induction false} PrefixRuns(a: seq<Step>, b: seq<Step>, key: ClientId -> TaskKey, hash: Content -> string)
    requires IsExecution(a + b, key, hash)
    ensures IsExecution(a, key, hash)
    decreases |b|
  {
    hide Enabled, Perform;
    if b == [] {
      assert a + b == a;
    } else {
      assert (a + b)[..|a + b| - 1] == a + b[..|b| - 1];
      PrefixRuns(a, b[..|b| - 1], key, hash);
    }
  }

  /** One step more. */
  lemma LastStep(a: seq<Step>, b: seq<Step>, key: ClientId -> TaskKey, hash: Content -> string)
    requires IsExecution(a + b, key, hash) && b != []
    ensures var ps, p := a + b[..|b| - 1], b[|b| - 1];
      && IsExecution(ps, key, hash) && Enabled(Reached(ps, key, hash), p, key)
      && Reached(a + b, key, hash) == Perform(Reached(ps, key, hash), p, key, hash)
  {
    hide Enabled, Perform;
    assert (a + b)[..|a + b| - 1] == a + b[..|b| - 1];
  }

  ghost predicate Grown(s: Sys, t: Sys, c: ClientId) {
    && s.deltas <= t.deltas && (forall b :: b in s.batches ==> b in t.batches && t.batches[b] == s.batches[b])
    && ClientOf(s, c).generation <= ClientOf(t, c).generation
    && (forall id :: id in s.jobs ==> id in t.jobs && t.jobs[id].generation == s.jobs[id].generation)
  }

  lemma {:induction false} RunGrows(a: seq<Step>, b: seq<Step>, key: ClientId -> TaskKey, hash: Content -> string, c: ClientId)
    requires IsExecution(a + b, key, hash)
    ensures IsExecution(a, key, hash) && Grown(Reached(a, key, hash), Reached(a + b, key, hash), c)
    decreases |b|
  {
    hide IsExecution, Reached, Enabled, Perform;
    PrefixRuns(a, b, key, hash);
    if b == [] {
      assert a + b == a;
    } else {
      LastStep(a, b, key, hash);
      RunGrows(a, b[..|b| - 1], key, hash, c);
      StepGrows(Reached(a + b[..|b| - 1], key, hash), b[|b| - 1], key, hash, c);
    }
  }

  /** The report itself puts the change where its fate is decided. */
  lemma ReportPlaces(s: Sys, c: ClientId, cs: seq<Change>, id: AssignmentId, x: Change, key: ClientId -> TaskKey,
                     hash: Content -> string)
    requires SysOk(s, key) && ClientOf(s, c).assignment == Some(id) && Holds(KeyedBy(cs), x)
    ensures var t := Perform(s, ClientStep(c, WatcherStep(cs)), key, hash);
      && (IsHeard(s, c, id) ==> CanStillSend(t, c, id, x))
      && (!IsHeard(s, c, id) ==> IsStranded(t, c, id, x) && NothingSentSince(s, t, c, id, x.key))
  {
    hide SysOk, KeyedBy;
    AssignedJob(s, key, c);
    DeltasAreNamed(s, key);
    assert cs != [] by { ReportIsNotEmpty(cs, x); }
  }

  lemma ReportIsNotEmpty(cs: seq<Change>, x: Change)
    requires Holds(KeyedBy(cs), x)
    ensures cs != []
  {}

  /** What was sent, or not sent, up to a state and in the step after it. */
  lemma SentAddsUp(s: Sys, u: Sys, t: Sys, key: ClientId -> TaskKey, c: ClientId, id: AssignmentId, x: Change)
    requires Grown(s, u, c) && Grown(u, t, c) && SysOk(u, key)
    requires forall d :: d in t.deltas && d !in u.deltas ==> d.1.batchId !in u.batches
    ensures SentSince(s, u, c, id, x) || SentSince(u, t, c, id, x) ==> SentSince(s, t, c, id, x)
    ensures NothingSentSince(s, u, c, id, x.key) && NothingSentSince(u, t, c, id, x.key) ==> NothingSentSince(s, t, c, id, x.key)
  {
    hide SysOk;
    DeltasAreNamed(u, key);
    if SentSince(s, u, c, id, x) {
      var d :| IsLiveSince(s, u, c, id, d) && x in d.changes;
      SentNow(s, t, c, id, x, d);
    } else if SentSince(u, t, c, id, x) {
      var d :| IsLiveSince(u, t, c, id, d) && x in d.changes;
      SentNow(s, t, c, id, x, d);
    }
    if NothingSentSince(s, u, c, id, x.key) && NothingSentSince(u, t, c, id, x.key) {
      forall d, y | IsLiveSince(s, t, c, id, d) && y in d.changes ensures y.key != x.key {
        assert if (c, d) in u.deltas then IsLiveSince(s, u, c, id, d) else IsLiveSince(u, t, c, id, d);
      }
    }
  }

  /** From the report on, as long as the generation stays. */
  lemma {:induction false} Fate(a: seq<Step>, b: seq<Step>, c: ClientId, cs: seq<Change>, id: AssignmentId, x: Change,
                                key: ClientId -> TaskKey, hash: Content -> string)
    requires IsExecution(a + [ClientStep(c, WatcherStep(cs))] + b, key, hash) && IsExecution(a, key, hash)
    requires ClientOf(Reached(a, key, hash), c).assignment == Some(id) && Holds(KeyedBy(cs), x)
    requires forall p :: p in b ==> Leaves(p, c, x.key)
    requires ClientOf(Reached(a + [ClientStep(c, WatcherStep(cs))] + b, key, hash), c).generation
      == ClientOf(Reached(a, key, hash), c).generation
    ensures var s, t := Reached(a, key, hash), Reached(a + [ClientStep(c, WatcherStep(cs))] + b, key, hash);
      && (IsHeard(s, c, id) ==> CanStillSend(t, c, id, x) || SentSince(s, t, c, id, x))
      && (!IsHeard(s, c, id) ==> IsStranded(t, c, id, x) && NothingSentSince(s, t, c, id, x.key))
    decreases |b|
  {
    hide IsExecution, Reached, Enabled, Perform, SysOk, Grown, IsHeard, CanStillSend, IsStranded, SentSince, NothingSentSince,
      Holds, Leaves, KeyedBy;
    var p := ClientStep(c, WatcherStep(cs));
    var s, t := Reached(a, key, hash), Reached(a + [p] + b, key, hash);
    ExecutionKeeps(a, key, hash);
    if b == [] {
      assert a + [p] + b == a + [p];
      LastStep(a, [p], key, hash);
      assert a + [p][..0] == a;
      ReportPlaces(s, c, cs, id, x, key, hash);
    } else {
      var k := |b| - 1;
      LastStep(a + [p], b, key, hash);
      var u := Reached(a + [p] + b[..k], key, hash);
      ExecutionKeeps(a + [p] + b[..k], key, hash);
      assert a + [p] + b[..k] == a + ([p] + b[..k]);
      RunGrows(a, [p] + b[..k], key, hash, c);
      StepGrows(u, b[k], key, hash, c);
      GrownOnce(u, t, c);
      SameGeneration(s, u, t, c);
      Fate(a, b[..k], c, cs, id, x, key, hash);
      SentAddsUp(s, u, t, key, c, id, x);
      if !IsHeard(s, c, id) {
        StrandedStep(u, b[k], key, hash, c, id, x);
      } else if CanStillSend(u, c, id, x) {
        WaitingStep(u, b[k], key, hash, c, id, x);
      }
    }
  }

  lemma GrownOnce(u: Sys, t: Sys, c: ClientId)
    requires u.deltas <= t.deltas && (forall b :: b in u.batches ==> b in t.batches && t.batches[b] == u.batches[b])
    requires ClientOf(u, c).generation <= ClientOf(t, c).generation
    requires forall id :: id in u.jobs ==> id in t.jobs && t.jobs[id].generation == u.jobs[id].generation
    ensures Grown(u, t, c)
  {}

  lemma SameGeneration(s: Sys, u: Sys, t: Sys, c: ClientId)
    requires Grown(s, u, c) && Grown(u, t, c) && ClientOf(t, c).generation == ClientOf(s, c).generation
    ensures ClientOf(u, c).generation == ClientOf(s, c).generation
  {}

  /** A change that the watcher reports under an assignment, and that it does not report anew, is sent under that
      assignment or still waits to be sent, as long as the assignment lasts, if and only if the client was already
      watching or the sync had not yet flushed its buffer when the change was reported. Otherwise the change stays in the
      buffer, and no live batch names its file. */
  lemma SentIffHeard(a: seq<Step>, b: seq<Step>, c: ClientId, cs: seq<Change>, id: AssignmentId, x: Change,
                     key: ClientId -> TaskKey, hash: Content -> string)
    requires IsExecution(a + [ClientStep(c, WatcherStep(cs))] + b, key, hash) && IsExecution(a, key, hash)
    requires ClientOf(Reached(a, key, hash), c).assignment == Some(id) && Holds(KeyedBy(cs), x)
    requires forall p :: p in b ==> Leaves(p, c, x.key)
    requires ClientOf(Reached(a + [ClientStep(c, WatcherStep(cs))] + b, key, hash), c).assignment == Some(id)
    ensures var s, t := Reached(a, key, hash), Reached(a + [ClientStep(c, WatcherStep(cs))] + b, key, hash);
      && (SentSince(s, t, c, id, x) || CanStillSend(t, c, id, x) <==> IsHeard(s, c, id))
      && (!IsHeard(s, c, id) ==> IsStranded(t, c, id, x) && NothingSentSince(s, t, c, id, x.key))
  {
    hide IsExecution, Reached, Enabled, Perform, SysOk, IsHeard, Holds, Leaves, KeyedBy, IsLiveSince;
    var p := ClientStep(c, WatcherStep(cs));
    var s, t := Reached(a, key, hash), Reached(a + [p] + b, key, hash);
    ExecutionKeeps(a, key, hash);
    ExecutionKeeps(a + [p] + b, key, hash);
    AssignedJob(s, key, c);
    AssignedJob(t, key, c);
    assert a + [p] + b == a + ([p] + b);
    RunGrows(a, [p] + b, key, hash, c);
    Fate(a, b, c, cs, id, x, key, hash);
    if IsStranded(t, c, id, x) { StrandedIsStuck(t, c, id, x); }
  }

  /** Unless an earlier sync of the client has set it to watching, what decides is the phase: not yet flushed, or finished. */
  lemma HeardByPhase(ps: seq<Step>, c: ClientId, id: AssignmentId, key: ClientId -> TaskKey, hash: Content -> string)
    requires IsExecution(ps, key, hash) && ClientOf(Reached(ps, key, hash), c).assignment == Some(id)
    requires id !in Reached(ps, key, hash).raced
    ensures var s := Reached(ps, key, hash); IsHeard(s, c, id) <==> BeforeFlush(s, id) || InPhase(s, id, Finished)
  {
    ExecutionKeeps(ps, key, hash);
    MachineIsOk(Reached(ps, key, hash), key, c);
  }

  lemma StrandedIsStuck(t: Sys, c: ClientId, id: AssignmentId, x: Change)
    requires IsStranded(t, c, id, x)
    ensures !CanStillSend(t, c, id, x)
  {}

  // ---------- waiting changes can be sent ----------

  ghost predicate MapsAreKeyed(s: Sys) {
    forall c :: WellKeyed(ClientOf(s, c).buffered) && WellKeyed(ClientOf(s, c).pendingLive)
  }

  lemma ReportIsKeyed(cs: seq<Change>)
    ensures WellKeyed(KeyedBy(cs))
  {
    forall k | k in KeyedBy(cs) ensures KeyedBy(cs)[k].key == k { MappedIsListed(cs, k); }
  }

  lemma TakeKeepsKeyed(m: Machine, p: MachineStep)
    requires WellKeyed(m.buffered) && WellKeyed(m.pendingLive)
    ensures WellKeyed(Take(m, p).buffered) && WellKeyed(Take(m, p).pendingLive)
  {
    hide KeyedBy;
    if p.WatcherStep? { ReportIsKeyed(p.changes); }
  }

  lemma {:induction false} ExecutionKeepsKeyed(ps: seq<Step>, key: ClientId -> TaskKey, hash: Content -> string)
    requires IsExecution(ps, key, hash)
    ensures MapsAreKeyed(Reached(ps, key, hash))
    decreases |ps|
  {
    hide Enabled, Perform, WellKeyed, Take;
    if ps == [] {
      assert WellKeyed(map[]) by { EmptyIsKeyed(); }
    } else {
      var s := Reached(ps[..|ps| - 1], key, hash);
      ExecutionKeepsKeyed(ps[..|ps| - 1], key, hash);
      assert WellKeyed(map[]) by { EmptyIsKeyed(); }
      forall c ensures var n := ClientOf(Reached(ps, key, hash), c); WellKeyed(n.buffered) && WellKeyed(n.pendingLive) {
        MachineEffect(s, ps[|ps| - 1], key, hash, c);
        if ps[|ps| - 1].ClientStep? { TakeKeepsKeyed(ClientOf(s, c), ps[|ps| - 1].step); }
      }
    }
  }

  lemma EmptyIsKeyed()
    ensures WellKeyed(map[])
  {}

  /** A waiting change can be sent at once when its client watches; and a buffered one when the push has ended. */
  lemma WaitingCanBeSent(ps: seq<Step>, c: ClientId, id: AssignmentId, x: Change, b: string,
                         key: ClientId -> TaskKey, hash: Content -> string) returns (p: Step)
    requires IsExecution(ps, key, hash) && CanStillSend(Reached(ps, key, hash), c, id, x) && b !in Reached(ps, key, hash).batches
    requires (ClientOf(Reached(ps, key, hash), c).state == AssignedWatching && Holds(ClientOf(Reached(ps, key, hash), c).pendingLive, x))
      || InPhase(Reached(ps, key, hash), id, Flushing)
    ensures Enabled(Reached(ps, key, hash), p, key) && IsExecution(ps + [p], key, hash)
    ensures SentSince(Reached(ps, key, hash), Reached(ps + [p], key, hash), c, id, x)
  {
    hide SysOk, Perform, Lists, KeyedBy, IsExecution, Reached, SentSince, IsLiveSince, WellKeyed;
    var s := Reached(ps, key, hash);
    var m := ClientOf(s, c);
    ExecutionKeeps(ps, key, hash);
    ExecutionKeepsKeyed(ps, key, hash);
    AssignedJob(s, key, c);
    var live := m.state == AssignedWatching && Holds(m.pendingLive, x);
    var cs := ListOf(if live then m.pendingLive else m.buffered);
    HeldIsListed(cs, if live then m.pendingLive else m.buffered, x);
    p := if live then SendLive(c, b, cs) else FlushBuffered(id, b, cs);
    if live { Sends(s, p, key, hash); } else { Flushes(s, p, key, hash); }
    SentNow(s, Perform(s, p, key, hash), c, id, x, Delta(id, b, m.revision, cs));
    Append(ps, p, key, hash);
  }

  lemma Append(ps: seq<Step>, p: Step, key: ClientId -> TaskKey, hash: Content -> string)
    requires IsExecution(ps, key, hash) && Enabled(Reached(ps, key, hash), p, key)
    ensures IsExecution(ps + [p], key, hash) && Reached(ps + [p], key, hash) == Perform(Reached(ps, key, hash), p, key, hash)
  {
    hide Perform, Enabled;
    assert (ps + [p])[..|ps|] == ps;
  }
}
