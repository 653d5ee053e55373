/** Who loses the place for being silent: the history of a record's holder, and what the sweep makes of it. */
module Heartbeats {
  import opened Options
  import opened CacheStore
  import opened CacheTasks
  import opened CacheTaskProperties
  import opened TaskRuns
  import opened TaskRunProperties
  import opened SectionMeanings

  predicate HasClock(e: Event) {
    e.HelloEvent? || e.SectionEvent?
  }

  /** The event has given the record an assignment that is new. */
  predicate Assigns(w: Server, r: nat, e: Event) {
    HasClock(e) && r in w.records && w.records[r].task.assignment == Some(e.newId)
  }

  /** The event comes from the record's holder, under its assignment: a heartbeat, or a fault that is not fatal. */
  predicate IsFromHolder(v: Server, r: nat, e: Event) {
    && e.SectionEvent? && e.record == r && r in v.records
    && (e.section.HeartbeatSection? || (e.section.FaultSection? && !e.section.fatal))
    && v.records[r].task.active == Some(e.section.client) && v.records[r].task.assignment == Some(e.section.id)
  }

  /** When the record's present holder was last heard of: when it was assigned, or when it reported since. */
  ghost function LastHeard(es: seq<Event>, r: nat, hash: Content -> string): Option<int>
    requires IsRun(es, hash)
    decreases |es|
  {
    if es == [] then None
    else
      var before, e := es[..|es| - 1], es[|es| - 1];
      if Assigns(After(es, hash), r, e) || IsFromHolder(After(before, hash), r, e) then Some(e.now) else LastHeard(before, r, hash)
  }

  /** The event has put another client in the place of a holder that left, failed or was silent. */
  predicate Replaces(w: Server, r: nat, e: Event) {
    && e.SectionEvent? && e.record == r && Assigns(w, r, e)
    && (e.section.DisconnectSection? || e.section.FaultSection? || e.section.SweepSection?)
  }

  /** When the record's holder was last replaced. */
  ghost function LastReplaced(es: seq<Event>, r: nat, hash: Content -> string): Option<int>
    requires IsRun(es, hash)
    decreases |es|
  {
    if es == [] then None
    else if Replaces(After(es, hash), r, es[|es| - 1]) then Some(es[|es| - 1].now)
    else LastReplaced(es[..|es| - 1], r, hash)
  }

  // ---------- one event ----------

  /** The two times of a record after one event, from those before it. */
  ghost predicate TimesStep(v: Server, w: Server, r: nat, e: Event)
    requires r in w.records
  {
    var u := w.records[r].task;
    && (u.active.Some? ==>
        if Assigns(w, r, e) || IsFromHolder(v, r, e) then HasClock(e) && u.lastHeartbeat == Some(e.now)
        else r in v.records && v.records[r].task.active.Some? && u.lastHeartbeat == v.records[r].task.lastHeartbeat)
    && (if Replaces(w, r, e) then u.lastFailover == Some(e.now)
        else u.lastFailover == if r in v.records then v.records[r].task.lastFailover else None)
  }

  lemma HelloTaskTimes(t: Task, d: ClientId, x: Context)
    requires Consistent(t)
    ensures var u := Hello(t, d, x);
      && (u.active.Some? && u.assignment == Some(x.newId) && t.assignment != Some(x.newId) ==> u.lastHeartbeat == Some(x.now))
      && (u.active.Some? && u.assignment != Some(x.newId) ==> t.active.Some? && u.lastHeartbeat == t.lastHeartbeat)
      && u.lastFailover == t.lastFailover
  {
    hide Winner;
  }

  lemma HelloTimes(v: Server, e: Event, hash: Content -> string, r: nat)
    requires Inv(v) && Possible(v, e) && e.HelloEvent? && r in Next(v, e, hash).records
    ensures TimesStep(v, Next(v, e, hash), r, e)
  {
    hide Hello, RecordsOk, DeadOk, LogsOk, LiveOk;
    if r in v.records { RecordIsOk(v, r); }
    var (v1, q) := GetOrCreate(v, e.key, e.slot);
    if q == r {
      HelloTaskTimes(v1.records[q].task, e.client, Context(v.registry, TaskRuns.DiskOf(v, e.key.deviceId).manifest, e.newId, e.now));
    }
  }

  lemma SectionTimes(t: Task, p: Section, x: Context)
    requires Consistent(t) && t.assignment != Some(x.newId)
    ensures var u := RunSection(t, p, x);
      && (u.active.Some? && u.assignment == Some(x.newId) ==> u.lastHeartbeat == Some(x.now))
      && (u.active.Some? && u.assignment != Some(x.newId) ==>
          t.active.Some? && u.lastHeartbeat == if Reports(t, p) then Some(x.now) else t.lastHeartbeat)
      && u.lastFailover == (if TakesPlace(p) && u.assignment == Some(x.newId) then Some(x.now) else t.lastFailover)
  {
    hide Winner, Overdue;
  }

  predicate Reports(t: Task, p: Section) {
    && (p.HeartbeatSection? || (p.FaultSection? && !p.fatal))
    && t.active == Some(p.client) && t.assignment == Some(p.id)
  }

  predicate TakesPlace(p: Section) {
    p.DisconnectSection? || p.FaultSection? || p.SweepSection?
  }

  lemma OneStep(v: Server, e: Event, hash: Content -> string, r: nat)
    requires Inv(v) && Possible(v, e) && r in Next(v, e, hash).records
    ensures TimesStep(v, Next(v, e, hash), r, e)
  {
    hide Hello, RunSection, ApplyDelta, RecordsOk, DeadOk, LogsOk, SameAssignment;
    if r in v.records { RecordIsOk(v, r); }
    match e {
      case HelloEvent(_, _, _, _, _) => HelloTimes(v, e, hash, r);
      case SectionEvent(q, p, id, now) =>
        if q == r {
          SectionTimes(v.records[r].task, p, Context(v.registry, TaskRuns.DiskOf(v, v.records[r].key.deviceId).manifest, id, now));
        }
      case DeltaEvent(q, c, d, allowed) => if q == r { DeltaTimes(v, e, hash); }
      case _ =>
    }
  }

  lemma DeltaTimes(v: Server, e: Event, hash: Content -> string)
    requires Inv(v) && e.DeltaEvent? && e.record in v.records
    ensures SameAssignment(v.records[e.record].task, Next(v, e, hash).records[e.record].task)
  {
    RecordIsOk(v, e.record);
    var t := v.records[e.record].task;
    DeltaFence(t, e.client, e.delta, TaskRuns.DiskOf(v, v.records[e.record].key.deviceId), hash, e.allowed);
  }

  // ---------- runs ----------

  /** The record keeps exactly these two times. */
  lemma {:induction false} TimesAreHistory(es: seq<Event>, r: nat, hash: Content -> string)
    requires IsRun(es, hash) && r in After(es, hash).records
    ensures var t := After(es, hash).records[r].task;
      && (t.active.Some? ==> t.lastHeartbeat.Some? && t.lastHeartbeat == LastHeard(es, r, hash))
      && t.lastFailover == LastReplaced(es, r, hash)
    decreases |es|
  {
    hide Next, Possible, Inv, Assigns, IsFromHolder, Replaces;
    if es != [] {
      var before, e := es[..|es| - 1], es[|es| - 1];
      var v := After(before, hash);
      RunKeeps(before, hash);
      OneStep(v, e, hash, r);
      if r in v.records { TimesAreHistory(before, r, hash); } else { NeverThere(before, r, hash); }
    }
  }

  /** A record that does not exist has no history. */
  lemma {:induction false} NeverThere(es: seq<Event>, r: nat, hash: Content -> string)
    requires IsRun(es, hash) && r !in After(es, hash).records
    ensures LastReplaced(es, r, hash) == None
    decreases |es|
  {
    hide Possible;
    if es != [] {
      var before := es[..|es| - 1];
      assert r !in After(before, hash).records by { RecordsRemain(After(before, hash), es[|es| - 1], hash); }
      NeverThere(before, r, hash);
    }
  }

  lemma RecordsRemain(v: Server, e: Event, hash: Content -> string)
    requires Possible(v, e)
    ensures v.records.Keys <= Next(v, e, hash).records.Keys
  {
    hide Hello, RunSection, ApplyDelta;
  }

  /** A sweep leaves a holder its place that was assigned, sent a heartbeat or reported a lesser fault no longer ago than the
      timeout, and also one that replaced another less than the cooldown ago (a replacement at time zero does not count);
      every other holder it takes out of the candidates, and fills the place from the rest. */
  lemma SweepDeposesTheSilent(es: seq<Event>, r: nat, timing: Timing, newId: AssignmentId, now: int, hash: Content -> string)
    requires IsRun(es, hash) && r in After(es, hash).records && newId !in After(es, hash).issued
    ensures var s, e := After(es, hash), SectionEvent(r, SweepSection(timing), newId, now);
      && Possible(s, e) && r in Next(s, e, hash).records
      && var t, u := TaskAt(s, r), TaskAt(Next(s, e, hash), r);
      && (t.active.None? ==> u == t)
      && (t.active.Some? ==>
          && LastHeard(es, r, hash).Some?
          && var silence, cooling := now - LastHeard(es, r, hash).value, LastReplaced(es, r, hash);
          if silence <= timing.heartbeatTimeoutMs || (cooling.Some? && cooling.value != 0 && now - cooling.value < timing.failoverCooldownMs)
          then u == t
          else
            && u.active != t.active && t.active.value !in u.candidates
            && IsFilled(u, t.candidates - {t.active.value}, s.registry, newId, ManifestAt(s, r), now))
  {
    hide FailOver, IsRun, After;
    var s := After(es, hash);
    var t := TaskAt(s, r);
    TimesAreHistory(es, r, hash);
    if t.active.Some? { FailOverFills(t, t.active.value, true, Context(s.registry, ManifestAt(s, r), newId, now)); }
  }
}
