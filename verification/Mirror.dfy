/** What the whole amounts to: a task that becomes ready without other writers holds a manifest of the client's files. */
module Mirror {
  import opened Options
  import opened CacheStore
  import opened CacheStoreProperties
  import opened CacheTasks
  import opened TaskRuns
  import opened SyncProtocol
  import opened SyncTheorems
  import opened Instructions
  import opened Walk
  import ScopeBudget
  import SyncProtocolProofs
  import R = Reconcile

  /** The files found in one scope, and the scope's remote paths in the manifest's order. */
  datatype Scanned = Scanned(scope: Scope, locals: seq<LocalEntry>, remotePaths: seq<string>)

  const WholeScope: Instruction := Instruction([], [], [])

  function PlanOf(es: R.Remote, f: Scanned, x: R.Hashing): R.ScopePlan {
    R.PlanFor(es, f.scope, f.locals, f.remotePaths, WholeScope, x)
  }

  function Singly(cs: seq<Change>): seq<seq<Change>> {
    if cs == [] then [] else Singly(cs[..|cs| - 1]) + [[cs[|cs| - 1]]]
  }

  /** The stages in which one scope's plan is pushed: its metadata batch alone, then each upload in a batch of its own. */
  function StagesOf(plan: R.ScopePlan): seq<seq<seq<Change>>> {
    (if plan.metaChanges == [] then [] else [[plan.metaChanges]]) + [Singly(plan.uploads)]
  }

  /** The initial sync plans both scopes against the manifest it was assigned, and pushes them one after the other. */
  function StagesFor(es: R.Remote, home: Scanned, json: Scanned, x: R.Hashing): seq<seq<seq<Change>>> {
    StagesOf(PlanOf(es, home, x)) + StagesOf(PlanOf(es, json, x))
  }

  /** What the client reports for the two scopes: whether each plan's budget dropped a file. */
  function FlagsFor(es: R.Remote, home: Scanned, json: Scanned, x: R.Hashing): map<Scope, bool> {
    map[ClaudeHome := PlanOf(es, home, x).truncated, ClaudeJson := PlanOf(es, json, x).truncated]
  }

  // ---------- the pushed changes in order ----------

  lemma {:induction false} ConcatOfTwo(a: seq<seq<Change>>, b: seq<seq<Change>>)
    ensures Concat(a + b) == Concat(a) + Concat(b)
  {
    if b == [] {
      assert a + b == a;
    } else {
      assert (a + b)[..|a + b| - 1] == a + b[..|b| - 1];
      ConcatOfTwo(a, b[..|b| - 1]);
    }
  }

  lemma {:induction false} FlatOfTwo(a: seq<seq<seq<Change>>>, b: seq<seq<seq<Change>>>)
    ensures Flat(a + b) == Flat(a) + Flat(b)
  {
    if b == [] {
      assert a + b == a;
    } else {
      assert (a + b)[..|a + b| - 1] == a + b[..|b| - 1];
      FlatOfTwo(a, b[..|b| - 1]);
    }
  }

  lemma {:induction false} SinglyConcat(cs: seq<Change>)
    ensures Concat(Singly(cs)) == cs
  {
    if cs != [] {
      var k := |cs| - 1;
      SinglyConcat(cs[..k]);
      assert Singly(cs)[..|Singly(cs)| - 1] == Singly(cs[..k]);
      assert cs == cs[..k] + [cs[k]];
    }
  }

  lemma FlatOne(batches: seq<seq<Change>>)
    ensures Flat([batches]) == batches
  {
    assert [batches][..0] == [] && Flat([]) == [];
  }

  lemma StagesInOrder(plan: R.ScopePlan)
    ensures Concat(Flat(StagesOf(plan))) == plan.metaChanges + plan.uploads
  {
    FlatOne(Singly(plan.uploads));
    SinglyConcat(plan.uploads);
    if plan.metaChanges != [] {
      FlatOfTwo([[plan.metaChanges]], [Singly(plan.uploads)]);
      FlatOne([plan.metaChanges]);
      ConcatOfTwo([plan.metaChanges], Singly(plan.uploads));
      assert [plan.metaChanges][..0] == [] && Concat([]) == [];
      assert Concat([plan.metaChanges]) == plan.metaChanges;
    } else {
      assert StagesOf(plan) == [Singly(plan.uploads)];
    }
  }

  /** The plans of two scopes are plans a sync can be made of: no batch is empty, and no change has a mutation id. */
  lemma StagesAreWellPlanned(es: R.Remote, home: Scanned, json: Scanned, x: R.Hashing)
    requires WellScanned(es, home, json)
    ensures WellPlanned(StagesFor(es, home, json, x))
  {
    hide PlanOf, StagesOf;
    ScopeIsWellPlanned(es, home, x);
    ScopeIsWellPlanned(es, json, x);
    var a, b := StagesOf(PlanOf(es, home, x)), StagesOf(PlanOf(es, json, x));
    forall st, j | 0 <= st < |a + b| && 0 <= j < |(a + b)[st]| ensures PlainBatch((a + b)[st][j]) {
      if st < |a| { assert PlainBatch(a[st][j]); } else { assert PlainBatch(b[st - |a|][j]); }
    }
  }

  lemma ScopeIsWellPlanned(es: R.Remote, f: Scanned, x: R.Hashing)
    requires R.RemotePathsOf(es, f.scope, f.remotePaths) && DistinctLocals(f.locals)
    ensures WellPlanned(StagesOf(PlanOf(es, f, x)))
  {
    hide R.PlanFor, R.Chosen, R.Adds, Covered;
    var plan := PlanOf(es, f, x);
    forall c | c in plan.metaChanges + plan.uploads ensures c.mutationId == None {
      R.PlanExactly(es, f.scope, f.locals, f.remotePaths, WholeScope, x, c);
      if c in R.Chosen(es, f.scope, f.locals, x) {
        R.ChosenOrRejected(es, f.scope, f.locals, x, c);
        R.AddsExactly(es, f.scope, f.locals, x, c);
      }
    }
    BatchesArePlain(plan);
  }

  lemma BatchesArePlain(plan: R.ScopePlan)
    requires forall c :: c in plan.metaChanges + plan.uploads ==> c.mutationId == None
    ensures WellPlanned(StagesOf(plan))
  {
    var us := Singly(plan.uploads);
    forall j | 0 <= j < |us| ensures PlainBatch(us[j]) { SinglyAt(plan.uploads, j); }
    assert plan.metaChanges != [] ==> PlainBatch(plan.metaChanges);
  }

  lemma {:induction false} SinglyAt(cs: seq<Change>, j: nat)
    requires j < |Singly(cs)|
    ensures j < |cs| && Singly(cs)[j] == [cs[j]]
  {
    SinglyLength(cs[..|cs| - 1]);
    if j < |cs| - 1 { SinglyAt(cs[..|cs| - 1], j); }
  }

  lemma {:induction false} SinglyLength(cs: seq<Change>)
    ensures |Singly(cs)| == |cs|
  {
    if cs != [] { SinglyLength(cs[..|cs| - 1]); }
  }

  // ---------- two scopes ----------

  /** Outside its scope a plan changes nothing. */
  lemma OtherScopeStays(es: R.Remote, base: R.Remote, f: Scanned, x: R.Hashing, key: FileKey)
    requires R.RemotePathsOf(base, f.scope, f.remotePaths) && DistinctLocals(f.locals) && key.scope != f.scope
    ensures var after := R.Applied(es, PlanOf(base, f, x));
      (key in after <==> key in es) && (key in es ==> after[key] == es[key])
  {
    hide R.PlanFor, R.Chosen, R.Rejected, R.Adds, Covered;
    var plan := PlanOf(base, f, x);
    forall d | d in plan.metaChanges + plan.uploads ensures d.key != key {
      R.PlanExactly(base, f.scope, f.locals, f.remotePaths, WholeScope, x, d);
      if d in R.Chosen(base, f.scope, f.locals, x) {
        R.ChosenOrRejected(base, f.scope, f.locals, x, d);
        R.ChosenIsLocal(base, f.scope, f.locals, x, d);
      }
    }
    R.UntouchedStays(es, plan.metaChanges + plan.uploads, key);
  }

  /** Within its scope a plan does the same to any manifest that agrees there with the one it was made for. */
  lemma SameScopeSame(es: R.Remote, base: R.Remote, f: Scanned, x: R.Hashing, key: FileKey)
    requires R.RemotePathsOf(base, f.scope, f.remotePaths) && DistinctLocals(f.locals)
    requires (key in es <==> key in base) && (key in es ==> es[key] == base[key])
    ensures var after, alone := R.Applied(es, PlanOf(base, f, x)), R.Applied(base, PlanOf(base, f, x));
      (key in after <==> key in alone) && (key in after ==> after[key] == alone[key])
  {
    hide R.PlanFor, Covered;
    var plan := PlanOf(base, f, x);
    var cs := plan.metaChanges + plan.uploads;
    R.PlanIsKeyedOnce(base, f.scope, f.locals, f.remotePaths, WholeScope, x);
    if c :| c in cs && c.key == key {
      R.AppliedAt(es, cs, c);
      R.AppliedAt(base, cs, c);
    } else {
      R.UntouchedStays(es, cs, key);
      R.UntouchedStays(base, cs, key);
    }
  }

  /** The manifest after both plans. */
  function Mirrored(es: R.Remote, home: Scanned, json: Scanned, x: R.Hashing): R.Remote {
    R.Applied(R.Applied(es, PlanOf(es, home, x)), PlanOf(es, json, x))
  }

  ghost predicate WellScanned(es: R.Remote, home: Scanned, json: Scanned) {
    && home.scope == ClaudeHome && json.scope == ClaudeJson
    && R.RemotePathsOf(es, ClaudeHome, home.remotePaths) && DistinctLocals(home.locals)
    && R.RemotePathsOf(es, ClaudeJson, json.remotePaths) && DistinctLocals(json.locals)
  }

  /** Both plans together do to each file what the plan of its scope does alone. */
  lemma MirroredByScope(es: R.Remote, home: Scanned, json: Scanned, x: R.Hashing, key: FileKey)
    requires WellScanned(es, home, json)
    ensures var f := if key.scope == ClaudeHome then home else json;
      var after, alone := Mirrored(es, home, json, x), R.Applied(es, PlanOf(es, f, x));
      (key in after <==> key in alone) && (key in after ==> after[key] == alone[key])
  {
    hide R.Applied, PlanOf, R.RemotePathsOf, DistinctLocals;
    var middle := R.Applied(es, PlanOf(es, home, x));
    if key.scope == ClaudeHome {
      OtherScopeStays(middle, es, json, x, key);
    } else {
      OtherScopeStays(es, es, home, x, key);
      SameScopeSame(middle, es, json, x, key);
    }
  }

  /** The manifest has the local size and time of every file that the budget did not drop, with the hash of the local
      content if it had another size or time before, what it had before of one that was dropped, and no file that is not
      local. */
  ghost predicate MirrorsClient(m: R.Remote, es: R.Remote, f: Scanned, x: R.Hashing) {
    && (forall i :: 0 <= i < |f.locals| ==> MirrorsFile(m, es, f, x, f.locals[i]))
    && (forall key: FileKey :: key in m && key.scope == f.scope ==> R.IsLocal(f.locals, key.path))
  }

  predicate MirrorsFile(m: R.Remote, es: R.Remote, f: Scanned, x: R.Hashing, l: LocalEntry) {
    var key := FileKey(f.scope, l.relPath);
    && (R.UpToDate(m, f.scope, l) <==> !R.IsRejected(es, f.scope, f.locals, x, l))
    && (R.IsRejected(es, f.scope, f.locals, x, l) || R.UpToDate(es, f.scope, l) ==> SameAt(es, m, key))
    && (!R.IsRejected(es, f.scope, f.locals, x, l) && !R.UpToDate(es, f.scope, l) ==> key in m && R.HasContentOf(m[key], l, x))
  }

  lemma MirrorsOne(m: R.Remote, es: R.Remote, f: Scanned, x: R.Hashing)
    requires R.RemotePathsOf(es, f.scope, f.remotePaths) && DistinctLocals(f.locals)
    requires forall key: FileKey :: key.scope == f.scope ==>
      (key in m <==> key in R.Applied(es, PlanOf(es, f, x))) && (key in m ==> m[key] == R.Applied(es, PlanOf(es, f, x))[key])
    ensures MirrorsClient(m, es, f, x)
  {
    hide R.Applied, R.PlanFor, R.IsRejected, R.IsLocal;
    var after := R.Applied(es, PlanOf(es, f, x));
    forall i | 0 <= i < |f.locals| ensures MirrorsFile(m, es, f, x, f.locals[i]) {
      R.LocalsArrive(es, f.scope, f.locals, f.remotePaths, WholeScope, x, i);
      assert FileKey(f.scope, f.locals[i].relPath) in m <==> FileKey(f.scope, f.locals[i].relPath) in after;
    }
    forall key: FileKey | key in m && key.scope == f.scope ensures R.IsLocal(f.locals, key.path) {
      if !R.IsLocal(f.locals, key.path) { R.OthersLeaveOrStay(es, f.scope, f.locals, f.remotePaths, WholeScope, x, key); }
    }
  }

  lemma MirroredMirrors(es: R.Remote, home: Scanned, json: Scanned, x: R.Hashing)
    requires WellScanned(es, home, json)
    ensures MirrorsClient(Mirrored(es, home, json, x), es, home, x)
    ensures MirrorsClient(Mirrored(es, home, json, x), es, json, x)
  {
    hide R.Applied, PlanOf, MirrorsClient, R.RemotePathsOf, DistinctLocals;
    var m := Mirrored(es, home, json, x);
    forall key: FileKey { MirroredByScope(es, home, json, x, key); }
    hide Mirrored;
    MirrorsOne(m, es, home, x);
    MirrorsOne(m, es, json, x);
  }

  lemma StagesMakeMirror(es: R.Remote, home: Scanned, json: Scanned, x: R.Hashing)
    ensures ApplyChanges(es, Concat(Flat(StagesFor(es, home, json, x)))) == Mirrored(es, home, json, x)
  {
    hide PlanOf, StagesOf;
    var p, q := PlanOf(es, home, x), PlanOf(es, json, x);
    FlatOfTwo(StagesOf(p), StagesOf(q));
    ConcatOfTwo(Flat(StagesOf(p)), Flat(StagesOf(q)));
    StagesInOrder(p);
    StagesInOrder(q);
    SyncProtocolProofs.ApplyConcat(es, p.metaChanges + p.uploads, q.metaChanges + q.uploads);
  }

  /** When a task becomes ready without other writers, after a sync that planned both scopes against the assigned manifest,
      the server's manifest is a mirror of the client's files, up to what the budget dropped, followed by what was
      written live. */
  lemma ReadyMirrorsClient(ps: seq<Step>, key: ClientId -> TaskKey, hash: Content -> string, r: nat,
                           home: Scanned, json: Scanned, x: R.Hashing)
    requires IsExecution(ps, key, hash) && r in Reached(ps, key, hash).server.records
    requires Reached(ps, key, hash).server.records[r].task.phase == Ready
    requires Reached(ps, key, hash).server.records[r].task.assignment.Some?
    requires var s := Reached(ps, key, hash);
      var id := s.server.records[r].task.assignment.value;
      && id in s.solo && id in s.jobs && id in s.server.issued
      && WellScanned(s.server.issued[id].manifest.entries, home, json)
      && s.jobs[id].stages == StagesFor(s.server.issued[id].manifest.entries, home, json, x)
    ensures var s := Reached(ps, key, hash);
      var id := s.server.records[r].task.assignment.value;
      var issued := s.server.issued[id].manifest.entries;
      var mirror := Mirrored(issued, home, json, x);
      var n := |Flat(s.jobs[id].stages)|;
      && MirrorsClient(mirror, issued, home, x) && MirrorsClient(mirror, issued, json, x)
      && n <= |Under(s.server.log, id)|
      && TaskRuns.DiskOf(s.server, s.server.records[r].key.deviceId).manifest.entries
         == ApplyChanges(mirror, Written(Under(s.server.log, id)[n..]))
  {
    hide IsExecution, Reached, StagesFor, Mirrored, MirrorsClient, WellScanned, Flat, Under, Written, ApplyChanges;
    ReadyManifest(ps, key, hash, r);
    var s := Reached(ps, key, hash);
    var issued := s.server.issued[s.server.records[r].task.assignment.value].manifest.entries;
    StagesMakeMirror(issued, home, json, x);
    MirroredMirrors(issued, home, json, x);
  }
}
