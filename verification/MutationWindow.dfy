/** The window of recently applied mutation ids, and what it does to deltas that are sent again. */
module MutationWindow {
  import opened Options
  import opened CacheStore
  import opened CacheStoreProperties
  import opened CacheTasks
  import opened CacheTaskProperties
  import opened TaskRuns

  /** The set holds exactly the ids of the order, none of them empty, each once, and at most 64. */
  ghost predicate WindowOk(t: Task) {
    && (forall id :: id in t.recentIds <==> id in t.recentOrder)
    && (forall i, j :: 0 <= i < j < |t.recentOrder| ==> t.recentOrder[i] != t.recentOrder[j])
    && "" !in t.recentOrder && |t.recentOrder| <= RECENT_MUTATION_ID_CAP
  }

  function Last(s: seq<string>, n: nat): seq<string> {
    if |s| <= n then s else s[|s| - n..]
  }

  /** The ids that remembering `cs` newly adds, in order. */
  function Added(t: Task, cs: seq<Change>): seq<string> {
    if cs == [] then []
    else
      var k := |cs| - 1;
      var id := MutationOf(cs[k]);
      Added(t, cs[..k]) + (if id.None? || id.value in Remember(t, cs[..k]).recentIds then [] else [id.value])
  }

  lemma RememberIdKeeps(t: Task, id: string)
    requires WindowOk(t) && id !in t.recentIds && id != ""
    ensures WindowOk(RememberId(t, id))
    ensures RememberId(t, id).recentOrder == Last(t.recentOrder + [id], RECENT_MUTATION_ID_CAP)
    ensures id in RememberId(t, id).recentIds
  {
    var order, u := t.recentOrder + [id], RememberId(t, id);
    if |order| > RECENT_MUTATION_ID_CAP {
      assert order[0] in t.recentOrder;
      forall x ensures x in u.recentIds <==> x in u.recentOrder { InRest(order, x); }
    }
  }

  lemma InRest(order: seq<string>, x: string)
    requires order != [] && forall i, j :: 0 <= i < j < |order| ==> order[i] != order[j]
    ensures x in order[1..] <==> x in order && x != order[0]
  {
    if x in order && x != order[0] {
      var i :| 0 <= i < |order| && order[i] == x;
      assert order[1..][i - 1] == x;
    }
  }

  lemma LastOfLast(a: seq<string>, id: string, n: nat)
    requires n > 0
    ensures Last(Last(a, n) + [id], n) == Last(a + [id], n)
  {}

  /** The window stays consistent, and holds the last 64 ids that were ever added. */
  lemma {:induction false} RememberExactly(t: Task, cs: seq<Change>)
    requires WindowOk(t)
    ensures WindowOk(Remember(t, cs))
    ensures Remember(t, cs).recentOrder == Last(t.recentOrder + Added(t, cs), RECENT_MUTATION_ID_CAP)
  {
    hide WindowOk, Last, RememberId;
    if cs != [] {
      var k := |cs| - 1;
      RememberExactly(t, cs[..k]);
      var u, id := Remember(t, cs[..k]), MutationOf(cs[k]);
      if id.Some? && id.value !in u.recentIds {
        RememberIdKeeps(u, id.value);
        LastOfLast(t.recentOrder + Added(t, cs[..k]), id.value, RECENT_MUTATION_ID_CAP);
        assert t.recentOrder + Added(t, cs) == t.recentOrder + Added(t, cs[..k]) + [id.value];
      } else {
        assert Added(t, cs) == Added(t, cs[..k]);
      }
    } else {
      assert t.recentOrder + [] == t.recentOrder;
      WindowIsShort(t);
    }
  }

  lemma WindowIsShort(t: Task)
    requires WindowOk(t)
    ensures Last(t.recentOrder, RECENT_MUTATION_ID_CAP) == t.recentOrder
  {}

  // ---------- deltas that are sent again ----------

  /** The revision plays no part in remembering. */
  lemma {:induction false} RevisionIsApart(t: Task, rev: nat, cs: seq<Change>)
    ensures Remember(t.(revision := rev), cs) == Remember(t, cs).(revision := rev)
    ensures Added(t.(revision := rev), cs) == Added(t, cs)
  {
    if cs != [] { RevisionIsApart(t, rev, cs[..|cs| - 1]); }
  }

  lemma InLast(order: seq<string>, n: nat, x: string)
    requires x in Last(order, n)
    ensures x in order
  {}

  predicate BroughtBefore(cs: seq<Change>, n: nat, id: string)
    requires n <= |cs|
  {
    exists i :: 0 <= i < n && MutationOf(cs[i]) == Some(id)
  }

  lemma NothingBrought(cs: seq<Change>, id: string)
    ensures !BroughtBefore(cs, 0, id)
  {}

  lemma BroughtSnoc(cs: seq<Change>, k: nat, id: string)
    requires k + 1 == |cs|
    ensures BroughtBefore(cs, |cs|, id) <==> BroughtBefore(cs[..k], k, id) || MutationOf(cs[k]) == Some(id)
  {
    hide MutationOf;
    assert forall i :: 0 <= i < k ==> cs[..k][i] == cs[i];
    if BroughtBefore(cs[..k], k, id) {
      var i :| 0 <= i < k && MutationOf(cs[..k][i]) == Some(id);
      assert MutationOf(cs[i]) == Some(id);
    }
  }

  /** An id that the window did not hold is added when a change brings it. */
  lemma {:induction false} NewIdIsAdded(t: Task, cs: seq<Change>, id: string)
    requires WindowOk(t) && id !in t.recentIds && id != "" && BroughtBefore(cs, |cs|, id)
    ensures id in Added(t, cs)
  {
    hide WindowOk, Last, MutationOf, BroughtBefore;
    if cs == [] {
      NothingBrought(cs, id);
    } else {
      var k := |cs| - 1;
      var a := Added(t, cs[..k]);
      BroughtSnoc(cs, k, id);
      assert a <= Added(t, cs);
      if BroughtBefore(cs[..k], k, id) {
        NewIdIsAdded(t, cs[..k], id);
        PrefixHolds(a, Added(t, cs), id);
      } else {
        RememberExactly(t, cs[..k]);
        SameMembers(Remember(t, cs[..k]), id);
        SameMembers(t, id);
        if id in Remember(t, cs[..k]).recentIds {
          InLast(t.recentOrder + a, RECENT_MUTATION_ID_CAP, id);
          PrefixHolds(a, Added(t, cs), id);
        } else {
          assert Added(t, cs) == a + [id];
        }
      }
    }
  }

  lemma PrefixHolds(a: seq<string>, b: seq<string>, x: string)
    requires a <= b && x in a
    ensures x in b
  {
    var i :| 0 <= i < |a| && a[i] == x;
    assert b[i] == x;
  }

  lemma SameMembers(t: Task, id: string)
    requires WindowOk(t)
    ensures id in t.recentIds <==> id in t.recentOrder
  {}

  lemma {:induction false} FilterNone(t: Task, cs: seq<Change>)
    ensures FilterDuplicates(t, cs) == [] <==> forall i :: 0 <= i < |cs| ==> IsDuplicate(t, cs[i])
  {
    hide MutationOf;
    if cs != [] {
      var k := |cs| - 1;
      FilterNone(t, cs[..k]);
      assert forall i :: 0 <= i < k ==> cs[..k][i] == cs[i];
    }
  }

  /** The window after a written delta: the last 64 of the ids it held and those the delta newly brought. */
  function WindowAfter(t: Task, cs: seq<Change>): seq<string> {
    Last(t.recentOrder + Added(t, FilterDuplicates(t, cs)), RECENT_MUTATION_ID_CAP)
  }

  lemma WindowAfterDelta(t: Task, c: ClientId, d: Delta, disk: Disk, hash: Content -> string, allowed: nat)
    requires WindowOk(t) && t.revision <= disk.manifest.revision && ApplyDelta(t, c, d, disk, hash, allowed).applied != []
    ensures var u := ApplyDelta(t, c, d, disk, hash, allowed).task;
      && WindowOk(u) && u.recentOrder == WindowAfter(t, d.changes) && u.active == t.active && u.assignment == t.assignment
  {
    hide FilterDuplicates, DeltaEffect, CodeOf, Contains, Remember, ClearBypass, Added, Last;
    var u, cs := ApplyDelta(t, c, d, disk, hash, allowed).task, FilterDuplicates(t, d.changes);
    var t1 := t.(revision := u.revision);
    DeltaFence(t, c, d, disk, hash, allowed);
    ClearOnlyBypass(Remember(t1, cs), cs);
    assert u == ClearBypass(Remember(t1, cs), cs);
    RememberExactly(t1, cs);
    RevisionIsApart(t, u.revision, cs);
  }

  /** The change has an id and the window holds it. */
  predicate IsIn(window: seq<string>, c: Change) {
    MutationOf(c).Some? && MutationOf(c).value in window
  }

  /** A delta that was written and is sent again on the new revision is acknowledged without writing anything, if and only
      if each of its changes has a mutation id and the window after the first time holds it. */
  lemma ReplayWritesNothing(t: Task, c: ClientId, d: Delta, disk: Disk, hash: Content -> string, allowed: nat, allowed': nat)
    requires WindowOk(t) && t.revision <= disk.manifest.revision && ApplyDelta(t, c, d, disk, hash, allowed).applied != []
    ensures var o := ApplyDelta(t, c, d, disk, hash, allowed);
      ApplyDelta(o.task, c, d.(baseRevision := o.task.revision), o.disk, hash, allowed')
      == DeltaOutcome(o.task, o.disk, Accepted(d.assignmentId, d.batchId, o.task.revision), [])
      <==> forall i :: 0 <= i < |d.changes| ==> IsIn(WindowAfter(t, d.changes), d.changes[i])
  {
    hide FilterDuplicates, DeltaEffect, CodeOf, Contains, Remember, ClearBypass, Last, Added, WindowAfter;
    var o := ApplyDelta(t, c, d, disk, hash, allowed);
    DeltaFence(t, c, d, disk, hash, allowed);
    WindowAfterDelta(t, c, d, disk, hash, allowed);
    FilterNone(o.task, d.changes);
    forall i | 0 <= i < |d.changes| ensures IsDuplicate(o.task, d.changes[i]) <==> IsIn(WindowAfter(t, d.changes), d.changes[i]) {
      DuplicateIfIn(o.task, d.changes[i]);
    }
  }

  lemma DuplicateIfIn(t: Task, c: Change)
    requires WindowOk(t)
    ensures IsDuplicate(t, c) <==> IsIn(t.recentOrder, c)
  {}

  lemma EndStays(a: seq<string>, b: seq<string>, n: nat, x: string)
    requires x in b && |b| <= n
    ensures x in Last(a + b, n)
  {
    var i :| 0 <= i < |b| && b[i] == x;
    assert (a + b)[|a| + i] == x;
    if |a + b| > n { assert Last(a + b, n)[|a| + i - (|a + b| - n)] == x; }
  }

  /** So nothing is written again when all changes were new and brought at most 64 different ids. */
  lemma SmallReplay(t: Task, cs: seq<Change>)
    requires WindowOk(t) && FilterDuplicates(t, cs) == cs && |Added(t, cs)| <= RECENT_MUTATION_ID_CAP
    requires forall i :: 0 <= i < |cs| ==> MutationOf(cs[i]).Some? && MutationOf(cs[i]).value !in t.recentIds
    ensures forall i :: 0 <= i < |cs| ==> IsIn(WindowAfter(t, cs), cs[i])
  {
    hide Added, Last, WindowOk, FilterDuplicates;
    forall i | 0 <= i < |cs| ensures IsIn(WindowAfter(t, cs), cs[i]) {
      var id := MutationOf(cs[i]).value;
      assert BroughtBefore(cs, |cs|, id);
      NewIdIsAdded(t, cs, id);
      EndStays(t.recentOrder, Added(t, cs), RECENT_MUTATION_ID_CAP, id);
    }
  }

  predicate AllNew(t: Task, cs: seq<Change>) {
    && (forall i :: 0 <= i < |cs| ==> MutationOf(cs[i]).Some? && MutationOf(cs[i]).value !in t.recentIds)
    && (forall i, j :: 0 <= i < j < |cs| ==> MutationOf(cs[i]) != MutationOf(cs[j]))
  }

  lemma {:induction false} AllAdded(t: Task, cs: seq<Change>)
    requires WindowOk(t) && AllNew(t, cs)
    ensures |Added(t, cs)| == |cs| && forall i :: 0 <= i < |cs| ==> Added(t, cs)[i] == MutationOf(cs[i]).value
  {
    hide WindowOk;
    if cs != [] {
      var k := |cs| - 1;
      AllAdded(t, cs[..k]);
      assert forall i :: 0 <= i < k ==> cs[..k][i] == cs[i];
      var id := MutationOf(cs[k]).value;
      if id in Remember(t, cs[..k]).recentIds {
        RememberExactly(t, cs[..k]);
        SameMembers(Remember(t, cs[..k]), id);
        SameMembers(t, id);
        InLast(t.recentOrder + Added(t, cs[..k]), RECENT_MUTATION_ID_CAP, id);
      }
    }
  }

  /** What is left of changes the last of which are remembered, and the first not. */
  lemma {:induction false} FirstRemain(cs: seq<Change>, ids: set<string>, n: nat)
    requires n <= |cs|
    requires forall i :: 0 <= i < |cs| ==> (MutationOf(cs[i]).Some? && MutationOf(cs[i]).value in ids <==> n <= i)
    ensures Unremembered(cs, ids) == cs[..n]
  {
    if cs != [] {
      var k := |cs| - 1;
      assert forall i :: 0 <= i < k ==> cs[..k][i] == cs[i];
      FirstRemain(cs[..k], ids, if n <= k then n else k);
      assert if n <= k then cs[..k][..n] == cs[..n] else cs[..k] + [cs[k]] == cs[..n];
    }
  }

  lemma LastOfDistinct(order: seq<string>, added: seq<string>, n: nat, i: nat)
    requires n < |added| && i < |added| && forall j, k :: 0 <= j < k < |added| ==> added[j] != added[k]
    ensures added[i] in Last(order + added, n) <==> |added| - n <= i
  {
    var last := Last(order + added, n);
    assert last == added[|added| - n..];
    if |added| - n <= i { assert last[i - (|added| - n)] == added[i]; }
  }

  lemma LastIds(t: Task, cs: seq<Change>, i: nat)
    requires WindowOk(t) && AllNew(t, cs) && |cs| > RECENT_MUTATION_ID_CAP && i < |cs|
    ensures MutationOf(cs[i]).value in Last(t.recentOrder + Added(t, cs), RECENT_MUTATION_ID_CAP)
      <==> |cs| - RECENT_MUTATION_ID_CAP <= i
  {
    hide Added, Last, WindowOk;
    AllAdded(t, cs);
    LastOfDistinct(t.recentOrder, Added(t, cs), RECENT_MUTATION_ID_CAP, i);
  }

  /** The window forgets: of more than 64 new, distinct ids only the last 64 are kept, and the delta sent again writes all
      its other changes once more, or is refused. */
  lemma LargeReplayWrites(t: Task, c: ClientId, d: Delta, disk: Disk, hash: Content -> string, allowed: nat, allowed': nat)
    requires WindowOk(t) && t.revision <= disk.manifest.revision && ApplyDelta(t, c, d, disk, hash, allowed).applied == d.changes
    requires AllNew(t, d.changes) && |d.changes| > RECENT_MUTATION_ID_CAP
    ensures var o := ApplyDelta(t, c, d, disk, hash, allowed);
      var again := ApplyDelta(o.task, c, d.(baseRevision := o.task.revision), o.disk, hash, allowed');
      again.ack.Rejected? || again.applied == d.changes[..|d.changes| - RECENT_MUTATION_ID_CAP]
  {
    hide FilterDuplicates, DeltaEffect, CodeOf, Contains, Remember, ClearBypass, Last, Added, AllNew;
    var o := ApplyDelta(t, c, d, disk, hash, allowed);
    var cs, n := d.changes, |d.changes| - RECENT_MUTATION_ID_CAP;
    DeltaFence(t, c, d, disk, hash, allowed);
    WindowAfterDelta(t, c, d, disk, hash, allowed);
    forall i | 0 <= i < |cs| ensures MutationOf(cs[i]).Some? && MutationOf(cs[i]).value in o.task.recentIds <==> n <= i {
      IdentifiedIfNew(t, cs, i);
      LastIds(t, cs, i);
      SameMembers(o.task, MutationOf(cs[i]).value);
    }
    FirstRemain(cs, o.task.recentIds, n);
    FilterIs(o.task, cs);
    assert cs[..n] != [];
  }

  lemma IdentifiedIfNew(t: Task, cs: seq<Change>, i: nat)
    requires AllNew(t, cs) && i < |cs|
    ensures MutationOf(cs[i]).Some?
  {}

  /** Which changes are dropped depends on their ids alone, whatever files they name: of two lists with the same ids in the
      same places, the same places are left. */
  lemma {:induction false} DroppedWhateverItsPath(t: Task, cs: seq<Change>, ds: seq<Change>) returns (left: seq<nat>)
    requires |cs| == |ds| && forall i :: 0 <= i < |cs| ==> MutationOf(cs[i]) == MutationOf(ds[i])
    ensures |FilterDuplicates(t, cs)| == |FilterDuplicates(t, ds)| == |left|
    ensures forall j :: 0 <= j < |left| ==>
      left[j] < |cs| && FilterDuplicates(t, cs)[j] == cs[left[j]] && FilterDuplicates(t, ds)[j] == ds[left[j]]
  {
    hide MutationOf;
    left := [];
    if cs != [] {
      var k := |cs| - 1;
      left := DroppedWhateverItsPath(t, cs[..k], ds[..k]);
      if !IsDuplicate(t, cs[k]) { left := left + [k]; }
    }
  }

  // ---------- in every run ----------

  lemma DeltaKeepsWindow(t: Task, c: ClientId, d: Delta, disk: Disk, hash: Content -> string, allowed: nat)
    requires WindowOk(t)
    ensures WindowOk(ApplyDelta(t, c, d, disk, hash, allowed).task)
  {
    hide FilterDuplicates, DeltaEffect, CodeOf, Remember, ClearBypass;
    var cs := FilterDuplicates(t, d.changes);
    var (disk', r) := DeltaEffect(disk, cs, hash, allowed);
    if r.Applied? {
      RememberExactly(t.(revision := r.revision), cs);
      ClearOnlyBypass(Remember(t.(revision := r.revision), cs), cs);
    }
  }

  /** The window is consistent at every lock boundary of every run. */
  lemma {:induction false} WindowInEveryRun(es: seq<Event>, r: nat, hash: Content -> string)
    requires IsRun(es, hash) && r in After(es, hash).records
    ensures WindowOk(After(es, hash).records[r].task)
    decreases |es|
  {
    if es != [] {
      var before, e := After(es[..|es| - 1], hash), es[|es| - 1];
      if r in before.records { WindowInEveryRun(es[..|es| - 1], r, hash); }
      NextKeepsWindow(before, e, r, hash);
    }
  }

  lemma NextKeepsWindow(s: Server, e: Event, r: nat, hash: Content -> string)
    requires Possible(s, e) && r in Next(s, e, hash).records && (r in s.records ==> WindowOk(s.records[r].task))
    ensures WindowOk(Next(s, e, hash).records[r].task)
  {
    hide Hello, RunSection, ApplyDelta;
    match e {
      case HelloEvent(key, c, n, id, now) =>
        var (s1, q) := GetOrCreate(s, key, n);
        HelloKeepsWindow(s1.records[q].task, c, Context(s.registry, TaskRuns.DiskOf(s, key.deviceId).manifest, id, now));
      case SectionEvent(q, c, id, now) =>
        SectionKeepsWindow(s.records[q].task, c,
          Context(s.registry, TaskRuns.DiskOf(s, s.records[q].key.deviceId).manifest, id, now));
      case DeltaEvent(q, c, d, allowed) =>
        if q == r {
          DeltaKeepsWindow(s.records[q].task, c, d, TaskRuns.DiskOf(s, s.records[q].key.deviceId), hash, allowed);
        }
      case _ =>
    }
  }
}
