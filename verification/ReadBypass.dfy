/** Reads that must not be served from the cache: from the session's own change of a file until that change has come back
    from the client. */
module ReadBypass {
  import opened Options
  import opened CacheStore
  import opened CacheTasks
  import opened CacheTaskProperties
  import opened TaskRuns
  import opened TaskRunProperties

  /** A change of the file that answers the mutation `id`: it carries this id, or none. */
  predicate Answers(c: Change, key: FileKey, id: string) {
    c.key == key && (c.mutationId == None || c.mutationId == Some("") || c.mutationId == Some(id))
  }

  ghost predicate AnsweredBy(cs: seq<Change>, key: FileKey, id: string) {
    exists i :: 0 <= i < |cs| && Answers(cs[i], key, id)
  }

  predicate IsPending(t: Task, key: FileKey, b: Bypass) {
    key in t.bypass && t.bypass[key] == b
  }

  // ---------- one delta ----------

  lemma {:induction false} ClearingMeans(t: Task, cs: seq<Change>, key: FileKey)
    requires key in t.bypass
    ensures AnsweredBy(cs, key, t.bypass[key].mutationId) ==> key !in ClearBypass(t, cs).bypass
    ensures !AnsweredBy(cs, key, t.bypass[key].mutationId) ==> IsPending(ClearBypass(t, cs), key, t.bypass[key])
  {
    if cs != [] {
      var k := |cs| - 1;
      var id := t.bypass[key].mutationId;
      ClearingMeans(t, cs[..k], key);
      assert forall i :: 0 <= i < k ==> cs[..k][i] == cs[i];
      assert AnsweredBy(cs, key, id) <==> AnsweredBy(cs[..k], key, id) || Answers(cs[k], key, id);
    }
  }

  lemma {:induction false} NothingToClear(t: Task, cs: seq<Change>, key: FileKey)
    requires key !in t.bypass
    ensures key !in ClearBypass(t, cs).bypass
  {
    if cs != [] { NothingToClear(t, cs[..|cs| - 1], key); }
  }

  lemma DeltaBypass(t: Task, c: ClientId, d: Delta, disk: Disk, hash: Content -> string, allowed: nat, key: FileKey)
    ensures var o := ApplyDelta(t, c, d, disk, hash, allowed);
      && (key !in t.bypass ==> key !in o.task.bypass)
      && (key in t.bypass ==>
          if AnsweredBy(o.applied, key, t.bypass[key].mutationId) then key !in o.task.bypass
          else IsPending(o.task, key, t.bypass[key]))
  {
    hide FilterDuplicates, DeltaEffect, CodeOf, Remember, ClearBypass;
    var cs := FilterDuplicates(t, d.changes);
    var (disk', r) := DeltaEffect(disk, cs, hash, allowed);
    if r.Applied? {
      var t1 := Remember(t.(revision := r.revision), cs);
      RememberOnlyIds(t.(revision := r.revision), cs);
      if key !in t.bypass { NothingToClear(t1, cs, key); } else { ClearingMeans(t1, cs, key); }
    }
  }

  // ---------- one event ----------

  /** The event has written a change to the store, under this record, that answers the mutation. */
  ghost predicate HasAnswered(v: Server, w: Server, r: nat, key: FileKey, id: string) {
    |w.log| == |v.log| + 1 && w.log[|v.log|].record == r && AnsweredBy(w.log[|v.log|].written, key, id)
  }

  /** The session changes the file anew. */
  predicate IsHintFor(e: Event, r: nat, key: FileKey) {
    e.SectionEvent? && e.record == r && e.section.HintSection? && key in e.section.keys
  }

  lemma EventBypass(v: Server, e: Event, hash: Content -> string, r: nat, key: FileKey)
    requires Inv(v) && Possible(v, e) && r in v.records && !IsHintFor(e, r, key)
    ensures var w := Next(v, e, hash);
      && r in w.records && var t, u := v.records[r].task, w.records[r].task;
      && (key !in t.bypass ==> key !in u.bypass)
      && (key in t.bypass ==>
          if HasAnswered(v, w, r, key, t.bypass[key].mutationId) then key !in u.bypass else IsPending(u, key, t.bypass[key]))
  {
    hide Hello, RunSection, ApplyDelta, Inv, AnsweredBy;
    match e {
      case HelloEvent(k, c, n, id, now) =>
        var (v1, q) := GetOrCreate(v, k, n);
        HelloKeepsBypass(v1.records[q].task, c, Context(v.registry, TaskRuns.DiskOf(v, k.deviceId).manifest, id, now));
      case SectionEvent(q, p, id, now) =>
        if q == r {
          SectionKeepsBypass(v.records[q].task, p,
            Context(v.registry, TaskRuns.DiskOf(v, v.records[q].key.deviceId).manifest, id, now), key);
        }
      case DeltaEvent(q, c, d, allowed) => DeltaEventBypass(v, e, hash, r, key);
      case _ =>
    }
  }

  lemma DeltaEventBypass(v: Server, e: Event, hash: Content -> string, r: nat, key: FileKey)
    requires e.DeltaEvent? && Possible(v, e) && r in v.records
    ensures var w := Next(v, e, hash); var t, u := v.records[r].task, w.records[r].task;
      && (key !in t.bypass ==> key !in u.bypass)
      && (key in t.bypass ==>
          if HasAnswered(v, w, r, key, t.bypass[key].mutationId) then key !in u.bypass else IsPending(u, key, t.bypass[key]))
  {
    hide ApplyDelta;
    var t, disk := v.records[e.record].task, TaskRuns.DiskOf(v, v.records[e.record].key.deviceId);
    DeltaBypass(t, e.client, e.delta, disk, hash, e.allowed, key);
    var o := ApplyDelta(t, e.client, e.delta, disk, hash, e.allowed);
    if o.applied == [] { assert !AnsweredBy(o.applied, key, ""); assert forall id :: !AnsweredBy(o.applied, key, id); }
  }

  lemma HelloKeepsBypass(t: Task, c: ClientId, x: Context)
    ensures Hello(t, c, x).bypass == t.bypass
  {
    hide Winner;
  }

  lemma SectionKeepsBypass(t: Task, p: Section, x: Context, key: FileKey)
    requires p.HintSection? ==> key !in p.keys
    ensures var u := RunSection(t, p, x); (key in u.bypass <==> key in t.bypass) && (key in t.bypass ==> u.bypass[key] == t.bypass[key])
  {
    hide Winner, Overdue;
  }

  // ---------- runs ----------

  /** A change that answers the mutation has been written since the first `from` events. */
  ghost predicate AnsweredSince(es: seq<Event>, from: nat, r: nat, key: FileKey, id: string, hash: Content -> string)
    requires IsRun(es, hash)
    decreases |es|
  {
    |es| > from
    && (AnsweredSince(es[..|es| - 1], from, r, key, id, hash)
        || HasAnswered(After(es[..|es| - 1], hash), After(es, hash), r, key, id))
  }

  ghost predicate NoHintSince(es: seq<Event>, from: nat, r: nat, key: FileKey) {
    forall i :: from <= i < |es| ==> !IsHintFor(es[i], r, key)
  }

  lemma {:induction false} PendingUntilAnswered(es: seq<Event>, from: nat, r: nat, key: FileKey, b: Bypass, hash: Content -> string)
    requires IsRun(es, hash) && from <= |es| && IsRun(es[..from], hash) && r in After(es[..from], hash).records
    requires IsPending(After(es[..from], hash).records[r].task, key, b) && NoHintSince(es, from, r, key)
    ensures r in After(es, hash).records
    ensures var u := After(es, hash).records[r].task;
      if AnsweredSince(es, from, r, key, b.mutationId, hash) then key !in u.bypass else IsPending(u, key, b)
    decreases |es|
  {
    hide Next, Possible, Inv, HasAnswered, IsHintFor;
    if |es| == from {
      assert es[..from] == es;
    } else {
      var before := es[..|es| - 1];
      assert before[..from] == es[..from];
      PendingUntilAnswered(before, from, r, key, b, hash);
      RunKeeps(before, hash);
      EventBypass(After(before, hash), es[|es| - 1], hash, r, key);
    }
  }

  /** From the moment the session has changed a file through an assigned task, reads of this file go past the cache,
      whatever happens, until the change has come back from the client and been written, or the time is over; and of a
      ready task not any longer. */
  lemma BypassedUntilAnswered(es: seq<Event>, from: nat, r: nat, key: FileKey, b: Bypass, now: int, hash: Content -> string)
    requires IsRun(es, hash) && from < |es| && IsRun(es[..from], hash) && IsRun(es[..from + 1], hash)
    requires r in After(es[..from], hash).records && After(es[..from], hash).records[r].task.active.Some?
    requires IsHintFor(es[from], r, key) && es[from].section.bypass == b && NoHintSince(es, from + 1, r, key)
    ensures r in After(es, hash).records
    ensures var t := After(es, hash).records[r].task;
      MustBypass(t, key, now) <==> t.phase != Ready || (now < b.expiresAt && !AnsweredSince(es, from + 1, r, key, b.mutationId, hash))
  {
    hide Inv, AnsweredSince, NoHintSince;
    var v := After(es[..from], hash);
    assert es[..from + 1][..from] == es[..from];
    RunKeeps(es[..from], hash);
    RecordIsOk(v, r);
    HintIsPending(v, es[from], hash, r, key);
    PendingUntilAnswered(es, from + 1, r, key, b, hash);
  }

  lemma HintIsPending(v: Server, e: Event, hash: Content -> string, r: nat, key: FileKey)
    requires Possible(v, e) && IsHintFor(e, r, key) && r in v.records && Consistent(v.records[r].task)
    requires v.records[r].task.active.Some?
    ensures var w := Next(v, e, hash); r in w.records && IsPending(w.records[r].task, key, e.section.bypass)
  {}

  /** Asking drops what has expired, which changes no later answer. */
  lemma AskingIsInvisible(t: Task, asked: FileKey, now: int, key: FileKey, later: int)
    requires now <= later
    ensures MustBypass(Pruned(t, asked, now), key, later) <==> MustBypass(t, key, later)
  {}
}
