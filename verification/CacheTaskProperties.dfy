/** What a delta does to a task, whatever the task, the store and the delta. */
module CacheTaskProperties {
  import opened Options
  import opened CacheStore
  import opened CacheStoreProperties
  import opened CacheTasks

  predicate SameAssignment(t: Task, u: Task) {
    && u.phase == t.phase && u.active == t.active && u.assignment == t.assignment && u.candidates == t.candidates
    && u.lastHeartbeat == t.lastHeartbeat && u.lastFailover == t.lastFailover
  }

  lemma RememberKeeps(t: Task, cs: seq<Change>)
    ensures var u := ClearBypass(Remember(t, cs), cs);
      SameAssignment(t, u) && u.revision == t.revision
  {
    RememberOnlyIds(t, cs);
    ClearOnlyBypass(Remember(t, cs), cs);
  }

  lemma FilterIs(t: Task, cs: seq<Change>)
    ensures FilterDuplicates(t, cs) == Unremembered(cs, t.recentIds)
  {}

  lemma {:induction false} RememberOnlyIds(t: Task, cs: seq<Change>)
    ensures Remember(t, cs) == t.(recentIds := Remember(t, cs).recentIds, recentOrder := Remember(t, cs).recentOrder)
  {
    if cs != [] { RememberOnlyIds(t, cs[..|cs| - 1]); }
  }

  lemma {:induction false} ClearOnlyBypass(t: Task, cs: seq<Change>)
    ensures ClearBypass(t, cs) == t.(bypass := ClearBypass(t, cs).bypass)
  {
    if cs != [] { ClearOnlyBypass(t, cs[..|cs| - 1]); }
  }

  /** A delta writes the store only when its sender is the active client and it carries the current assignment and
      the task's revision; then the task moves to the new, greater revision of the store, and the store's manifest gains
      the changes that are not duplicates. In every other case task and manifest stay as they are. */
  lemma DeltaFence(t: Task, c: ClientId, d: Delta, disk: Disk, hash: Content -> string, allowed: nat)
    requires t.revision <= disk.manifest.revision
    ensures var o := ApplyDelta(t, c, d, disk, hash, allowed);
      && (o.disk.manifest != disk.manifest <==> o.applied != [])
      && (o.applied != [] ==>
          && HoldsAssignment(t, c, d.assignmentId) && d.baseRevision == t.revision
          && o.applied == FilterDuplicates(t, d.changes)
          && o.disk.manifest == NextManifest(disk.manifest, o.applied)
          && t.revision < o.task.revision == o.disk.manifest.revision
          && o.ack == Accepted(d.assignmentId, d.batchId, o.task.revision))
      && (o.applied == [] ==> o.task == t)
      && (o.ack.Accepted? ==>
          && HoldsAssignment(t, c, d.assignmentId) && d.baseRevision == t.revision
          && o.ack.appliedRevision == o.task.revision && o.applied == FilterDuplicates(t, d.changes))
      && SameAssignment(t, o.task)
  {
    var cs := FilterDuplicates(t, d.changes);
    if StaleCode(t, c, d).None? && cs != [] {
      DeltaWritesManifest(disk, cs, hash, allowed);
      var rev := disk.manifest.revision + 1;
      RememberKeeps(t.(revision := rev), cs);
    }
  }

  // ---------- answers ----------

  predicate IsFresh(t: Task, c: ClientId, d: Delta) {
    t.active == Some(c) && t.assignment == Some(d.assignmentId) && t.revision == d.baseRevision
  }

  /** The first change of the list that does not declare the hash of the content it carries. */
  predicate IsFirstDishonest(cs: seq<Change>, i: nat, hash: Content -> string) {
    i < |cs| && !IsHonest(cs[i], hash) && forall j :: 0 <= j < i ==> IsHonest(cs[j], hash)
  }

  predicate StandsAt(s: string, part: string, i: nat) {
    i + |part| <= |s| && s[i..i + |part|] == part
  }

  predicate Mentions(s: string, part: string) {
    exists i: nat :: i <= |s| && StandsAt(s, part, i)
  }

  lemma {:induction false} ContainsMeans(s: string, part: string)
    ensures Contains(s, part) <==> Mentions(s, part)
  {
    if part <= s {
      assert StandsAt(s, part, 0);
    } else if s == "" {
      assert forall i: nat :: !StandsAt(s, part, i);
    } else {
      ContainsMeans(s[1..], part);
      assert forall i: nat :: StandsAt(s[1..], part, i) <==> StandsAt(s, part, i + 1);
      if Mentions(s[1..], part) {
        var i: nat :| i <= |s[1..]| && StandsAt(s[1..], part, i);
        assert i + 1 <= |s| && StandsAt(s, part, i + 1);
      }
      if Mentions(s, part) {
        var i: nat :| i <= |s| && StandsAt(s, part, i);
        assert i > 0 && StandsAt(s[1..], part, i - 1);
      }
    }
  }

  /** Missing content is reported by a message that quotes the path and otherwise does not speak of hashes. */
  predicate IsHashTrouble(c: Change) {
    c.Upsert? && (c.content.Some? || Mentions(c.key.path, "sha256"))
  }

  lemma DishonestIsRefused(cs: seq<Change>, i: nat, hash: Content -> string)
    requires IsFirstDishonest(cs, i, hash)
    ensures FirstRefusal(cs, hash) == Refusal(cs[i], hash) && FirstRefusal(cs, hash).Some?
    ensures CodeOf(FirstRefusal(cs, hash).value) == if IsHashTrouble(cs[i]) then Sha256Mismatch else StoreWriteFailed
  {
    FirstRefusalIsFirst(cs, hash);
    forall c ensures Refusal(c, hash).None? <==> IsHonest(c, hash) { RefusedUnlessHonest(c, hash); }
    assert cs[i] in cs;
    var n :| IsFirstRefusal(cs, hash, n);
    assert n == i;
    ContainsMeans(cs[i].key.path, "sha256");
  }

  /** How a delta is answered. A sender that is not active, names another assignment or has another base is told so, in this
      order, and asked to resynchronise. A fresh delta without anything new is accepted as it is. Otherwise, if the disk
      holds, it is accepted if all its changes are honest; the first that is not decides whether the hash is blamed, with
      a resynchronisation, or the store, without one. */
  lemma AnswersMean(t: Task, c: ClientId, d: Delta, disk: Disk, hash: Content -> string, allowed: nat)
    ensures var ack, cs := ApplyDelta(t, c, d, disk, hash, allowed).ack, Unremembered(d.changes, t.recentIds);
      && ack.assignmentId == d.assignmentId && ack.batchId == d.batchId
      && (t.active != Some(c) <==> ack.Rejected? && ack.code == NotActive)
      && (t.active == Some(c) && t.assignment != Some(d.assignmentId) <==> ack.Rejected? && ack.code == StaleAssignment)
      && (HoldsAssignment(t, c, d.assignmentId) && t.revision != d.baseRevision <==> ack.Rejected? && ack.code == StaleRevision)
      && (ack.Rejected? ==> (ack.resyncRequired <==> ack.code != StoreWriteFailed))
      && (IsFresh(t, c, d) && (cs == [] || (allowed > |cs| && forall ch :: ch in cs ==> IsHonest(ch, hash))) ==> ack.Accepted?)
      && (IsFresh(t, c, d) && allowed > |cs| ==> forall i: nat :: IsFirstDishonest(cs, i, hash) ==>
          ack.Rejected? && ack.code == if IsHashTrouble(cs[i]) then Sha256Mismatch else StoreWriteFailed)
  {
    hide DeltaEffect, Contains, Refusal, FirstRefusal, ClearBypass, Remember, Unremembered, CodeOf, IsHashTrouble, IsHonest;
    var cs := Unremembered(d.changes, t.recentIds);
    HonestIsApplied(disk, cs, hash, allowed);
    EffectOfRefusal(disk, cs, hash, allowed);
    CodesOfStore();
    forall i: nat | IsFirstDishonest(cs, i, hash)
      ensures FirstRefusal(cs, hash).Some?
      ensures CodeOf(FirstRefusal(cs, hash).value) == if IsHashTrouble(cs[i]) then Sha256Mismatch else StoreWriteFailed
    {
      DishonestIsRefused(cs, i, hash);
    }
  }

  lemma CodesOfStore()
    ensures forall e :: CodeOf(e) == Sha256Mismatch || CodeOf(e) == StoreWriteFailed
  {}

  lemma EffectOfRefusal(d: Disk, cs: seq<Change>, hash: Content -> string, allowed: nat)
    ensures allowed > |cs| && FirstRefusal(cs, hash).Some? ==> DeltaEffect(d, cs, hash, allowed).1 == Failed(FirstRefusal(cs, hash).value)
  {
    FewBlobWrites(cs, d.blobs, hash);
  }
}
