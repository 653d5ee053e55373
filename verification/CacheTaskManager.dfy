/** The server's task manager: the bodies that run under the task lock, on the task records they mutate. */
module CacheTaskManager {
  import opened Options
  import opened CacheStore
  import opened CacheTasks

  class CacheTaskRecord {
    var phase: Phase
    var activeClientId: Option<ClientId>
    var assignmentId: Option<AssignmentId>
    var revision: nat
    var candidateClientIds: set<ClientId>
    var pendingReadBypass: map<FileKey, Bypass>
    var recentMutationIds: set<string>
    var recentMutationOrder: seq<string>
    var lastHeartbeatAt: Option<int>
    var lastFailoverAt: Option<int>

    constructor ()
      ensures Value() == NewTask
    {
      phase, activeClientId, assignmentId, revision, candidateClientIds := Idle, None, None, 0, {};
      pendingReadBypass, recentMutationIds, recentMutationOrder := map[], {}, [];
      lastHeartbeatAt, lastFailoverAt := None, None;
    }

    function Value(): Task reads this {
      Task(phase, activeClientId, assignmentId, revision, candidateClientIds, pendingReadBypass,
           recentMutationIds, recentMutationOrder, lastHeartbeatAt, lastFailoverAt)
    }
  }

  /** The winner is told its assignment first, then every other candidate that it is on standby. */
  ghost predicate Announces(actions: seq<Outbound>, t: Task, x: Context, reason: Reason)
    requires t.active.Some? && t.assignment.Some?
  {
    && actions != [] && actions[0] == Activate(t.active.value, t.assignment.value, reason, x.manifest)
    && (forall a :: a in actions[1..] ==> a.Deactivate? && a.reason == Standby && a.id == t.assignment.value)
    && (forall a :: a in actions[1..] ==> a.client in t.candidates - {t.active.value})
    && forall c :: c in t.candidates - {t.active.value} ==> Deactivate(c, t.assignment.value, Standby) in actions[1..]
  }

  /** Whoever is told to be active holds the announced assignment in the record, which is syncing at the revision of the
      manifest that is sent along. */
  ghost predicate TellsTruth(actions: seq<Outbound>, t: Task) {
    forall a :: a in actions && a.Activate? ==>
      t.active == Some(a.client) && t.assignment == Some(a.id) && t.phase == Syncing && t.revision == a.manifest.revision
  }

  /** Whoever has got an assignment is told, with the loaded manifest. */
  ghost predicate TellsHolder(actions: seq<Outbound>, before: Option<AssignmentId>, t: Task, x: Context) {
    t.assignment != before && t.assignment.Some? ==>
      && t.active.Some? && t.assignment == Some(x.newId)
      && exists a :: a in actions && a.Activate? && a.client == t.active.value && a.id == x.newId && a.manifest == x.manifest
  }

  predicate WasSilent(t: Task, now: int, timing: Timing) {
    t.lastHeartbeat.Some? && now - t.lastHeartbeat.value > timing.heartbeatTimeoutMs
  }

  predicate IsStandby(actions: seq<Outbound>, c: ClientId, id: Option<AssignmentId>) {
    |actions| == 1 && actions[0].Deactivate? && actions[0].client == c && actions[0].reason == Standby
    && (id.Some? ==> actions[0].id == id.value)
  }

  class CacheTaskManager {
    const timing: Timing
    var tasks: map<string, CacheTaskRecord>

    constructor (timing: Timing)
      ensures this.timing == timing && tasks == map[]
    {
      this.timing := timing;
      tasks := map[];
    }

    method GetOrCreateTask(cacheKey: string) returns (task: CacheTaskRecord)
      modifies this
      ensures tasks == old(tasks)[cacheKey := task]
      ensures if cacheKey in old(tasks) then task == old(tasks)[cacheKey] else fresh(task) && task.Value() == NewTask
    {
      if cacheKey in tasks { return tasks[cacheKey]; }
      task := new CacheTaskRecord();
      tasks := tasks[cacheKey := task];
    }

    method CleanupIdleTask(cacheKey: string)
      modifies this
      ensures tasks == if cacheKey in old(tasks) && old(tasks[cacheKey].activeClientId).None? && old(tasks[cacheKey].candidateClientIds) == {}
                       then old(tasks) - {cacheKey} else old(tasks)
    {
      if cacheKey !in tasks { return; }
      var task := tasks[cacheKey];
      if task.activeClientId.Some? || |task.candidateClientIds| > 0 { return; }
      tasks := tasks - {cacheKey};
    }

    method ElectCandidate(candidates: set<ClientId>, registry: Registry) returns (winner: Option<ClientId>)
      ensures IsElected(winner, candidates, registry)
    {
      winner := None;
      var seen: set<ClientId> := {};
      while seen < candidates
        invariant seen <= candidates && IsElected(winner, seen, registry)
        decreases |candidates - seen|
      {
        var c :| c in candidates - seen;
        winner := Better(winner, c, seen, registry);
        assert candidates - (seen + {c}) == candidates - seen - {c};
        seen := seen + {c};
      }
      assert seen == candidates;
    }

    method ElectActiveClient(task: CacheTaskRecord, reason: Reason, x: Context) returns (actions: seq<Outbound>)
      requires reason == Elected || reason == Failover
      modifies task
      ensures task.Value() == Elect(old(task.Value()), x, reason == Failover)
      ensures if task.activeClientId.None? then actions == [] else Announces(actions, task.Value(), x, reason)
      ensures TellsTruth(actions, task.Value()) && TellsHolder(actions, old(task.assignmentId), task.Value(), x)
    {
      var winner := ElectCandidate(task.candidateClientIds, x.registry);
      ElectedUnique(winner, Winner(task.candidateClientIds, x.registry), task.candidateClientIds, x.registry);
      if winner.None? {
        task.activeClientId, task.assignmentId, task.phase, task.lastHeartbeatAt := None, None, Idle, None;
        return [];
      }
      var w := winner.value;
      task.activeClientId := Some(w);
      task.assignmentId := Some(x.newId);
      task.phase := Syncing;
      task.revision := x.manifest.revision;
      task.lastHeartbeatAt := Some(x.now);
      if reason == Failover { task.lastFailoverAt := Some(x.now); }
      var standby := StandbyMessages(task.candidateClientIds - {w}, x.newId);
      actions := [Activate(w, x.newId, reason, x.manifest)] + standby;
      assert actions[1..] == standby;
    }

    method StandbyMessages(clients: set<ClientId>, id: AssignmentId) returns (actions: seq<Outbound>)
      ensures forall a :: a in actions ==> a.Deactivate? && a.reason == Standby && a.id == id && a.client in clients
      ensures forall c :: c in clients ==> Deactivate(c, id, Standby) in actions
    {
      actions := [];
      var left := clients;
      while left != {}
        invariant left <= clients
        invariant forall a :: a in actions ==> a.Deactivate? && a.reason == Standby && a.id == id && a.client in clients
        invariant forall c :: c in clients - left ==> Deactivate(c, id, Standby) in actions
        decreases |left|
      {
        var c :| c in left;
        actions := actions + [Deactivate(c, id, Standby)];
        left := left - {c};
      }
    }

    method ReassignActiveClient(task: CacheTaskRecord, clientId: ClientId, x: Context) returns (actions: seq<Outbound>)
      modifies task
      ensures task.Value() == Assign(old(task.Value()), clientId, x)
      ensures actions == [Activate(clientId, x.newId, Resync, x.manifest)]
      ensures TellsTruth(actions, task.Value()) && TellsHolder(actions, old(task.assignmentId), task.Value(), x)
    {
      task.activeClientId := Some(clientId);
      task.assignmentId := Some(x.newId);
      task.phase := Syncing;
      task.revision := x.manifest.revision;
      task.lastHeartbeatAt := Some(x.now);
      actions := [Activate(clientId, x.newId, Resync, x.manifest)];
    }

    method FailoverTask(task: CacheTaskRecord, previous: ClientId, removePrevious: bool, x: Context) returns (actions: seq<Outbound>)
      modifies task
      ensures task.Value() == FailOver(old(task.Value()), previous, removePrevious, x)
      ensures if task.activeClientId.None? then actions == [] else Announces(actions, task.Value(), x, Failover)
      ensures TellsTruth(actions, task.Value()) && TellsHolder(actions, old(task.assignmentId), task.Value(), x)
    {
      if removePrevious { task.candidateClientIds := task.candidateClientIds - {previous}; }
      task.activeClientId, task.assignmentId, task.lastHeartbeatAt := None, None, None;
      task.phase := if |task.candidateClientIds| > 0 then Degraded else Idle;
      if |task.candidateClientIds| == 0 { return []; }
      actions := ElectActiveClient(task, Failover, x);
    }

    method RegisterHelloLocked(cacheKey: string, clientId: ClientId, x: Context) returns (task: CacheTaskRecord, actions: seq<Outbound>)
      modifies this, tasks.Values
      ensures tasks == old(tasks)[cacheKey := task]
      ensures if cacheKey in old(tasks)
        then task == old(tasks)[cacheKey] && task.Value() == Hello(old(tasks[cacheKey].Value()), clientId, x)
        else fresh(task) && task.Value() == Hello(NewTask, clientId, x)
      ensures forall k :: k in old(tasks) && old(tasks)[k] != task ==> tasks[k].Value() == old(tasks[k].Value())
      ensures cacheKey !in old(tasks) && task.activeClientId.Some? ==> Announces(actions, task.Value(), x, Elected)
      ensures cacheKey in old(tasks) && old(tasks[cacheKey].activeClientId).None? && task.activeClientId.Some? ==>
        Announces(actions, task.Value(), x, Elected)
      ensures cacheKey in old(tasks) && old(tasks[cacheKey].activeClientId) == Some(clientId) ==>
        task.assignmentId == Some(x.newId) && actions == [Activate(clientId, x.newId, Resync, x.manifest)]
      ensures cacheKey in old(tasks) && old(tasks[cacheKey].activeClientId) !in {None, Some(clientId)} ==>
        IsStandby(actions, clientId, task.assignmentId)
      ensures clientId in task.candidateClientIds && TellsTruth(actions, task.Value())
      ensures TellsHolder(actions, if cacheKey in old(tasks) then old(tasks[cacheKey].assignmentId) else None, task.Value(), x)
    {
      task := GetOrCreateTask(cacheKey);
      task.candidateClientIds := task.candidateClientIds + {clientId};
      if task.activeClientId.None? {
        actions := ElectActiveClient(task, Elected, x);
      } else if task.activeClientId == Some(clientId) {
        actions := ReassignActiveClient(task, clientId, x);
      } else {
        actions := [Deactivate(clientId, if task.assignmentId.Some? then task.assignmentId.value else "inactive", Standby)];
      }
    }

    method HandleDisconnectLocked(task: CacheTaskRecord, clientId: ClientId, x: Context) returns (actions: seq<Outbound>)
      modifies task
      ensures task.Value() == Disconnect(old(task.Value()), clientId, x)
      ensures if old(task.activeClientId) == Some(clientId) && task.activeClientId.Some?
        then Announces(actions, task.Value(), x, Failover) else actions == []
      ensures TellsTruth(actions, task.Value()) && TellsHolder(actions, old(task.assignmentId), task.Value(), x)
    {
      task.candidateClientIds := task.candidateClientIds - {clientId};
      if task.activeClientId != Some(clientId) {
        if task.activeClientId.None? && |task.candidateClientIds| == 0 { task.phase := Idle; }
        return [];
      }
      actions := FailoverTask(task, clientId, false, x);
    }

    method HandleHeartbeatLocked(task: CacheTaskRecord, clientId: ClientId, id: AssignmentId, x: Context)
      modifies task
      ensures task.Value() == Heartbeat(old(task.Value()), clientId, id, x)
      ensures old(task.activeClientId) == Some(clientId) && old(task.assignmentId) == Some(id) ==> task.lastHeartbeatAt == Some(x.now)
    {
      if task.activeClientId != Some(clientId) { return; }
      if task.assignmentId != Some(id) { return; }
      task.lastHeartbeatAt := Some(x.now);
    }

    method HandleFaultLocked(task: CacheTaskRecord, clientId: ClientId, id: AssignmentId, fatal: bool, x: Context)
      returns (actions: seq<Outbound>)
      modifies task
      ensures task.Value() == Fault(old(task.Value()), clientId, id, fatal, x)
      ensures if HoldsAssignment(old(task.Value()), clientId, id) && fatal && task.activeClientId.Some?
        then Announces(actions, task.Value(), x, Failover) else actions == []
      ensures TellsTruth(actions, task.Value()) && TellsHolder(actions, old(task.assignmentId), task.Value(), x)
    {
      if task.activeClientId != Some(clientId) || task.assignmentId != Some(id) { return []; }
      if !fatal {
        task.lastHeartbeatAt := Some(x.now);
        return [];
      }
      actions := FailoverTask(task, clientId, true, x);
    }

    method SweepLocked(task: CacheTaskRecord, x: Context) returns (actions: seq<Outbound>)
      modifies task
      ensures task.Value() == Sweep(old(task.Value()), timing, x)
      ensures old(task.lastHeartbeatAt).Some? && x.now - old(task.lastHeartbeatAt).value <= timing.heartbeatTimeoutMs ==>
        task.Value() == old(task.Value()) && actions == []
      ensures var t := old(task.Value()); t.active.Some? && t.lastFailover.None? && WasSilent(t, x.now, timing) ==>
        task.candidateClientIds == t.candidates - {t.active.value} && task.activeClientId != t.active
      ensures if Overdue(old(task.Value()), x.now, timing) && task.activeClientId.Some?
        then Announces(actions, task.Value(), x, Failover) else actions == []
      ensures TellsTruth(actions, task.Value()) && TellsHolder(actions, old(task.assignmentId), task.Value(), x)
    {
      if task.activeClientId.None? || task.lastHeartbeatAt.None? { return []; }
      if x.now - task.lastHeartbeatAt.value <= timing.heartbeatTimeoutMs { return []; }
      if task.lastFailoverAt.Some? && task.lastFailoverAt.value != 0
        && x.now - task.lastFailoverAt.value < timing.failoverCooldownMs { return []; }
      actions := FailoverTask(task, task.activeClientId.value, true, x);
    }

    method CompleteInitialSyncLocked(task: CacheTaskRecord, store: ClientCacheStore, deviceId: string, clientId: ClientId,
        id: AssignmentId, baseRevision: nat, scopeTruncated: map<Scope, bool>, x: Context)
      returns (actions: seq<Outbound>, stored: bool)
      modifies task, store
      ensures task.Value() == Complete(old(task.Value()), clientId, id, baseRevision, stored, x)
      ensures if HoldsAssignment(old(task.Value()), clientId, id) && old(task.revision) < baseRevision
        then actions == [Activate(clientId, x.newId, Resync, x.manifest)] else actions == []
      ensures TellsTruth(actions, task.Value()) && TellsHolder(actions, old(task.assignmentId), task.Value(), x)
      ensures store.DiskOf(deviceId).blobs == old(store.DiskOf(deviceId)).blobs
      ensures if stored && HoldsAssignment(old(task.Value()), clientId, id) && old(task.revision) >= baseRevision
        then Flagged(old(store.DiskOf(deviceId)).manifest, store.DiskOf(deviceId).manifest, scopeTruncated)
          && store.DiskOf(deviceId).manifest == WithTruncated(old(store.DiskOf(deviceId)).manifest, scopeTruncated)
        else store.DiskOf(deviceId).manifest == old(store.DiskOf(deviceId)).manifest
      ensures forall d :: d != deviceId ==> store.DiskOf(d) == old(store.DiskOf(d))
    {
      stored := true;
      actions := [];
      if task.activeClientId != Some(clientId) || task.assignmentId != Some(id) { return; }
      if task.revision < baseRevision {
        actions := ReassignActiveClient(task, clientId, x);
        return;
      }
      stored := store.UpdateScopeTruncated(deviceId, scopeTruncated);
      if !stored { return; }
      task.phase := Ready;
    }

    method RegisterMutationHintLocked(task: CacheTaskRecord, keys: set<FileKey>, mutationId: string, expiresAt: int)
      modifies task
      ensures task.Value() == Hint(old(task.Value()), keys, Bypass(mutationId, expiresAt))
    {
      if task.activeClientId.None? || task.assignmentId.None? { return; }
      task.pendingReadBypass := task.pendingReadBypass + map k | k in keys :: Bypass(mutationId, expiresAt);
    }

    /** Whether a read of a file must not be served from the cache. An expired bypass is dropped on the way. */
    method ShouldBypassCacheRead(task: CacheTaskRecord, key: FileKey, now: int) returns (bypass: bool)
      modifies task
      ensures bypass == MustBypass(old(task.Value()), key, now)
      ensures task.Value() == Pruned(old(task.Value()), key, now)
    {
      if task.phase != Ready { return true; }
      if key !in task.pendingReadBypass { return false; }
      if task.pendingReadBypass[key].expiresAt <= now {
        task.pendingReadBypass := task.pendingReadBypass - {key};
        return false;
      }
      bypass := true;
    }

    method FilterDuplicateMutationChanges(task: CacheTaskRecord, changes: seq<Change>) returns (filtered: seq<Change>)
      ensures filtered == FilterDuplicates(task.Value(), changes)
    {
      filtered := [];
      var n := 0;
      while n < |changes|
        invariant 0 <= n <= |changes|
        invariant filtered == FilterDuplicates(task.Value(), changes[..n])
      {
        assert changes[..n + 1][..n] == changes[..n];
        var c := changes[n];
        if !(c.mutationId.Some? && c.mutationId.value != "" && c.mutationId.value in task.recentMutationIds) {
          filtered := filtered + [c];
        }
        n := n + 1;
      }
      assert changes[..n] == changes;
    }

    method RememberMutationIds(task: CacheTaskRecord, changes: seq<Change>)
      modifies task
      ensures task.Value() == Remember(old(task.Value()), changes)
    {
      var n := 0;
      while n < |changes|
        invariant 0 <= n <= |changes|
        invariant task.Value() == Remember(old(task.Value()), changes[..n])
      {
        assert changes[..n + 1][..n] == changes[..n];
        var c := changes[n];
        n := n + 1;
        if c.mutationId.None? || c.mutationId.value == "" || c.mutationId.value in task.recentMutationIds { continue; }
        task.recentMutationIds := task.recentMutationIds + {c.mutationId.value};
        task.recentMutationOrder := task.recentMutationOrder + [c.mutationId.value];
        if |task.recentMutationOrder| > RECENT_MUTATION_ID_CAP {
          var evicted := task.recentMutationOrder[0];
          task.recentMutationOrder := task.recentMutationOrder[1..];
          if evicted != "" { task.recentMutationIds := task.recentMutationIds - {evicted}; }
        }
      }
      assert changes[..n] == changes;
    }

    method ClearReadBypass(task: CacheTaskRecord, changes: seq<Change>)
      modifies task
      ensures task.Value() == ClearBypass(old(task.Value()), changes)
    {
      var n := 0;
      while n < |changes|
        invariant 0 <= n <= |changes|
        invariant task.Value() == ClearBypass(old(task.Value()), changes[..n])
      {
        assert changes[..n + 1][..n] == changes[..n];
        var c := changes[n];
        n := n + 1;
        if c.key !in task.pendingReadBypass { continue; }
        if c.mutationId.None? || c.mutationId.value == "" || c.mutationId.value == task.pendingReadBypass[c.key].mutationId {
          task.pendingReadBypass := task.pendingReadBypass - {c.key};
        }
      }
      assert changes[..n] == changes;
    }

    method ApplyDeltaLocked(task: CacheTaskRecord, store: ClientCacheStore, deviceId: string, clientId: ClientId, delta: Delta)
      returns (ack: Ack, applied: seq<Change>)
      modifies task, store
      ensures DeltaOutcome(task.Value(), store.DiskOf(deviceId), ack, applied)
        == ApplyDelta(old(task.Value()), clientId, delta, old(store.DiskOf(deviceId)), store.hash, old(store.allowed))
      ensures forall d :: d != deviceId ==> store.DiskOf(d) == old(store.DiskOf(d))
    {
      applied := [];
      if task.activeClientId != Some(clientId) {
        return Rejected(delta.assignmentId, delta.batchId, NotActive, true), [];
      }
      if task.assignmentId != Some(delta.assignmentId) {
        return Rejected(delta.assignmentId, delta.batchId, StaleAssignment, true), [];
      }
      if task.revision != delta.baseRevision {
        return Rejected(delta.assignmentId, delta.batchId, StaleRevision, true), [];
      }
      var changes := FilterDuplicateMutationChanges(task, delta.changes);
      if |changes| == 0 { return Accepted(delta.assignmentId, delta.batchId, task.revision), []; }
      var result := store.ApplyDelta(deviceId, changes);
      if result.Failed? {
        var code := CodeOf(result.error);
        return Rejected(delta.assignmentId, delta.batchId, code, code != StoreWriteFailed), [];
      }
      task.revision := result.revision;
      RememberMutationIds(task, changes);
      ClearReadBypass(task, changes);
      ack, applied := Accepted(delta.assignmentId, delta.batchId, result.revision), changes;
    }
  }
}
