/** The client's cache-task state machine. Its asynchronous methods are cut at their awaits: each function is what one
    uninterrupted stretch does to the fields. */
module ClientMachine {
  import opened Options
  import opened CacheStore
  import opened CacheTasks

  datatype State = Disconnected | ConnectedPassive | AssignedSyncing | AssignedWatching

  type ChangeMap = map<FileKey, Change>

  datatype Machine = Machine(
    state: State,
    assignment: Option<AssignmentId>,
    revision: nat,
    generation: nat,
    buffered: ChangeMap,
    pendingLive: ChangeMap)

  const Fresh: Machine := Machine(Disconnected, None, 0, 0, map[], map[])

  function Activated(m: Machine, id: AssignmentId, revision: nat): Machine {
    Machine(AssignedSyncing, Some(id), revision, m.generation + 1, map[], map[])
  }

  function Passive(m: Machine): Machine {
    Machine(ConnectedPassive, None, 0, m.generation + 1, map[], map[])
  }

  function Dropped(m: Machine): Machine {
    Machine(Disconnected, None, 0, m.generation + 1, map[], map[])
  }

  predicate IsCurrent(m: Machine, generation: nat, id: AssignmentId) {
    generation == m.generation && m.assignment == Some(id)
  }

  function KeyedBy(cs: seq<Change>): ChangeMap {
    if cs == [] then map[] else KeyedBy(cs[..|cs| - 1])[cs[|cs| - 1].key := cs[|cs| - 1]]
  }

  /** Of each file the latest change stays. */
  lemma {:induction false} LatestStays(cs: seq<Change>, key: FileKey)
    ensures key in KeyedBy(cs) <==> exists i :: 0 <= i < |cs| && cs[i].key == key
    ensures forall i :: 0 <= i < |cs| && cs[i].key == key && (forall j :: i < j < |cs| ==> cs[j].key != key) ==>
      key in KeyedBy(cs) && KeyedBy(cs)[key] == cs[i]
  {
    if cs != [] {
      var k := |cs| - 1;
      LatestStays(cs[..k], key);
      assert forall i :: 0 <= i < k ==> cs[..k][i] == cs[i];
    }
  }

  /** Whatever ends or replaces an assignment makes every stretch that began before it stop at its next check. */
  lemma NothingOldIsCurrent(m: Machine, generation: nat, id: AssignmentId, newId: AssignmentId, revision: nat)
    requires generation <= m.generation
    ensures !IsCurrent(Activated(m, newId, revision), generation, id)
    ensures !IsCurrent(Passive(m), generation, id) && !IsCurrent(Dropped(m), generation, id)
    ensures IsCurrent(Activated(m, newId, revision), Activated(m, newId, revision).generation, newId)
  {}

  function WatcherChanged(m: Machine, cs: seq<Change>): Machine {
    if cs == [] || m.assignment.None? then m
    else if m.state == AssignedSyncing then m.(buffered := m.buffered + KeyedBy(cs))
    else m.(pendingLive := m.pendingLive + KeyedBy(cs))
  }

  /** One change goes to the buffer while syncing and to the pending live changes otherwise; the last of a key stays. */
  function Taken(m: Machine, c: Change): Machine {
    if m.state == AssignedSyncing then m.(buffered := m.buffered[c.key := c]) else m.(pendingLive := m.pendingLive[c.key := c])
  }

  lemma WatcherTakesOne(m: Machine, cs: seq<Change>, n: nat)
    requires n < |cs| && m.assignment.Some?
    ensures WatcherChanged(m, cs[..n + 1]) == Taken(WatcherChanged(m, cs[..n]), cs[n])
  {
    assert cs[..n + 1][..n] == cs[..n];
    var k, c := KeyedBy(cs[..n]), cs[n];
    assert m.buffered + k[c.key := c] == (m.buffered + k)[c.key := c];
    assert m.pendingLive + k[c.key := c] == (m.pendingLive + k)[c.key := c];
  }

  function WithRevision(m: Machine, r: nat): Machine {
    m.(revision := r)
  }

  function BufferTaken(m: Machine): Machine {
    m.(buffered := map[])
  }

  function PendingTaken(m: Machine): Machine {
    m.(pendingLive := map[])
  }

  function Watching(m: Machine): Machine {
    m.(state := AssignedWatching)
  }

  /** The changes of a map in some order. */
  ghost predicate Lists(cs: seq<Change>, m: ChangeMap) {
    KeyedBy(cs) == m && |cs| == |m|
  }

  // ---------- the object ----------

  class CacheTaskStateMachine {
    var state: State
    var assignment: Option<AssignmentId>
    var revision: nat
    var generation: nat
    var bufferedChanges: ChangeMap
    var pendingLiveChanges: ChangeMap

    constructor ()
      ensures Value() == Fresh
    {
      state, assignment, revision, generation := Disconnected, None, 0, 0;
      bufferedChanges, pendingLiveChanges := map[], map[];
    }

    function Value(): Machine reads this {
      Machine(state, assignment, revision, generation, bufferedChanges, pendingLiveChanges)
    }

    method OnDisconnected()
      modifies this
      ensures Value() == Dropped(old(Value()))
      ensures state == Disconnected && assignment == None && generation > old(generation)
      ensures bufferedChanges == map[] && pendingLiveChanges == map[]
    {
      generation := generation + 1;
      assignment := None;
      revision := 0;
      bufferedChanges, pendingLiveChanges := map[], map[];
      state := Disconnected;
    }

    method TransitionToPassive()
      modifies this
      ensures Value() == Passive(old(Value()))
      ensures state == ConnectedPassive && assignment == None && generation > old(generation)
      ensures bufferedChanges == map[] && pendingLiveChanges == map[]
    {
      generation := generation + 1;
      state := ConnectedPassive;
      assignment := None;
      revision := 0;
      bufferedChanges, pendingLiveChanges := map[], map[];
    }

    method HandleActiveAssignment(id: AssignmentId, manifest: Manifest) returns (startedGeneration: nat)
      modifies this
      ensures Value() == Activated(old(Value()), id, manifest.revision) && startedGeneration == generation
      ensures state == AssignedSyncing && assignment == Some(id) && revision == manifest.revision && generation > old(generation)
      ensures bufferedChanges == map[] && pendingLiveChanges == map[]
    {
      generation := generation + 1;
      startedGeneration := generation;
      assignment := Some(id);
      revision := manifest.revision;
      bufferedChanges, pendingLiveChanges := map[], map[];
      state := AssignedSyncing;
    }

    method HandleWatcherChanges(changes: seq<Change>)
      modifies this
      ensures Value() == WatcherChanged(old(Value()), changes)
    {
      if |changes| == 0 || assignment.None? { return; }
      var n := 0;
      while n < |changes|
        invariant 0 <= n <= |changes| && assignment.Some?
        invariant Value() == WatcherChanged(old(Value()), changes[..n])
      {
        WatcherTakesOne(old(Value()), changes, n);
        if state == AssignedSyncing { bufferedChanges := bufferedChanges[changes[n].key := changes[n]]; }
        else { pendingLiveChanges := pendingLiveChanges[changes[n].key := changes[n]]; }
        n := n + 1;
      }
      assert changes[..n] == changes;
    }

    /** Stores the revision an initial push ended at, or the revision an acknowledged live batch was applied at. */
    method SetRevision(r: nat)
      modifies this
      ensures Value() == WithRevision(old(Value()), r) && revision == r && state == old(state) && assignment == old(assignment)
    { revision := r; }

    /** Takes the buffered changes out to send them. */
    method TakeBuffered() returns (batch: ChangeMap)
      modifies this
      ensures batch == old(bufferedChanges) && Value() == BufferTaken(old(Value()))
      ensures bufferedChanges == map[] && pendingLiveChanges == old(pendingLiveChanges)
    {
      batch := bufferedChanges;
      bufferedChanges := map[];
    }

    /** Takes the pending live changes out to send them. */
    method TakePending() returns (batch: ChangeMap)
      modifies this
      ensures batch == old(pendingLiveChanges) && Value() == PendingTaken(old(Value()))
      ensures pendingLiveChanges == map[] && bufferedChanges == old(bufferedChanges)
    {
      batch := pendingLiveChanges;
      pendingLiveChanges := map[];
    }

    /** What the initial sync does once its completion report has gone out, without looking at the assignment again. */
    method StartWatching()
      modifies this
      ensures Value() == Watching(old(Value())) && state == AssignedWatching && assignment == old(assignment)
    { state := AssignedWatching; }
  }

  // ---------- what can happen to the machine besides its initial sync ----------

  datatype MachineStep = WatcherStep(changes: seq<Change>) | PassiveStep | DropStep

  function Take(m: Machine, s: MachineStep): Machine {
    match s
    case WatcherStep(cs) => WatcherChanged(m, cs)
    case PassiveStep => Passive(m)
    case DropStep => Dropped(m)
  }
}
