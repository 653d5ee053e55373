/** From the access ledger to the directory snapshot: the server plans from the ledger, the client scans for the plan and
    syncs, and the server builds its snapshot from the manifest that the sync leaves. */
module EndToEnd {
  import opened Options
  import opened StringOrder
  import opened Paths
  import opened CacheStore
  import opened CacheStoreProperties
  import opened CacheTasks
  import opened TaskRuns
  import opened AccessLedger
  import opened Instructions
  import opened ScanFilter
  import opened Walk
  import opened Mirror
  import SyncProtocol
  import SyncTheorems
  import TruncationFlags
  import Scan
  import SyncPlan
  import Snapshot
  import R = Reconcile

  /** One device: its files under `~/.claude` and what its filter skips, the server's ledger of its accesses, and the
      instruction for that scope. */
  datatype Device = Device(homedir: string, tree: Node, skip: string -> bool, ledger: Entries, instruction: Instruction)

  ghost predicate IsPlanned(d: Device) {
    (forall p :: p in d.ledger ==> AbsPath(p)) && SyncPlan.IsInstructionFor(d.instruction, d.ledger, SyncPlan.Root(d.homedir))
  }

  /** What the client's walk finds: an instruction that lists nothing means the whole scope. */
  predicate IsFound(d: Device, r: string) {
    if IsWholeScope(d.instruction) then Scan.FileAt(d.tree, r) && r != "" && !d.skip(r)
    else Scan.Scanned(d.tree, d.instruction, d.skip, r)
  }

  ghost predicate AreFound(ls: seq<LocalEntry>, d: Device) {
    && DistinctLocals(ls)
    && (forall r :: R.IsLocal(ls, r) <==> IsFound(d, r))
    && (forall i :: 0 <= i < |ls| ==> Scan.FileAt(d.tree, ls[i].relPath) && ls[i] == Scan.EntryAt(d.tree, ls[i].relPath))
  }

  // ---------- the client's part ----------

  ghost predicate ListsMap(ls: seq<LocalEntry>, found: map<string, LocalEntry>) {
    && (forall i :: 0 <= i < |ls| ==> ls[i].relPath in found && found[ls[i].relPath] == ls[i])
    && (forall r :: r in found ==> R.IsLocal(ls, r)) && DistinctLocals(ls)
  }

  lemma ListsOneMore(ls: seq<LocalEntry>, found: map<string, LocalEntry>, r: string)
    requires ListsMap(ls, found - {r}) && r in found && found[r].relPath == r
    ensures ListsMap(ls + [found[r]], found)
  {
    var all := ls + [found[r]];
    forall q | q in found ensures R.IsLocal(all, q) {
      if q == r { assert all[|ls|].relPath == q; } else {
        assert q in found - {r};
        var i :| 0 <= i < |ls| && ls[i].relPath == q;
        assert all[i].relPath == q;
      }
    }
  }

  /** The values of the scan's result map. */
  method ListFound(found: map<string, LocalEntry>) returns (ls: seq<LocalEntry>)
    requires forall r :: r in found ==> found[r].relPath == r
    ensures ListsMap(ls, found)
  {
    ls := [];
    var done: map<string, LocalEntry> := map[];
    var left := found.Keys;
    while left != {}
      invariant left <= found.Keys && done == map r | r in found && r !in left :: found[r]
      invariant ListsMap(ls, done)
      decreases left
    {
      var r :| r in left;
      ghost var next := done[r := found[r]];
      assert next - {r} == done;
      ListsOneMore(ls, next, r);
      ls := ls + [found[r]];
      done := done[r := found[r]];
      left := left - {r};
    }
    assert done == found;
  }

  /** The client walks the scope for its instruction. */
  method WalkHome(d: Device) returns (ls: seq<LocalEntry>)
    requires WellNamed(d.tree) && KeepsAncestors(d.skip) && !d.skip("")
    ensures AreFound(ls, d)
  {
    hide KeepsAncestors, WellNamed;
    if IsWholeScope(d.instruction) {
      ls := Scan.ScanLocalFiles(d.tree, d.skip);
      hide Scan.FileAt, DistinctLocals;
      forall r ensures R.IsLocal(ls, r) <==> IsFound(d, r) {
        if R.IsLocal(ls, r) { var i :| 0 <= i < |ls| && ls[i].relPath == r; assert ls[i] in ls; }
        if IsFound(d, r) { assert Scan.EntryAt(d.tree, r) in ls; }
      }
    } else {
      var found := Scan.ScanInstructionFiles(d.tree, d.instruction, d.skip);
      ls := ListFound(found);
      hide Scan.Scanned, Scan.FileAt, DistinctLocals;
      forall r ensures R.IsLocal(ls, r) <==> IsFound(d, r) {
        if R.IsLocal(ls, r) { var i :| 0 <= i < |ls| && ls[i].relPath == r; }
      }
    }
  }

  /** It then diffs what it found against the whole scope. */
  method PlanHome(d: Device, es: R.Remote, remotePaths: seq<string>, x: R.Hashing) returns (f: Scanned, plan: R.ScopePlan)
    requires WellNamed(d.tree) && KeepsAncestors(d.skip) && !d.skip("")
    ensures f.scope == ClaudeHome && f.remotePaths == remotePaths && AreFound(f.locals, d) && plan == PlanOf(es, f, x)
  {
    hide R.PlanFor, KeepsAncestors, WellNamed, AreFound;
    var ls := WalkHome(d);
    f := Scanned(ClaudeHome, ls, remotePaths);
    plan := R.HashScope(es, ClaudeHome, ls, remotePaths, WholeScope, x);
  }

  // ---------- which accessed files the client finds ----------

  /** Of the files that the server has seen being read, the client finds those that exist and are not skipped, except
      where the file lies two or more levels below a directory that was seen but never read. */
  lemma AccessedIsFound(d: Device, p: string)
    requires IsPlanned(d) && p in d.ledger && d.ledger[p].File? && AtOrUnder(p, SyncPlan.Root(d.homedir))
    ensures var root, r := SyncPlan.Root(d.homedir), SyncPlan.Rel(SyncPlan.Root(d.homedir), p);
      IsFound(d, r) <==> Scan.FileAt(d.tree, r) && !d.skip(r) && !(exists t :: SyncPlan.TooDeep(d.ledger, root, t, r))
  {
    hide WithinSubtree, SyncPlan.TooDeep, Scan.FileAt;
    var root, r, h := SyncPlan.Root(d.homedir), SyncPlan.Rel(SyncPlan.Root(d.homedir), p), d.instruction;
    SyncPlan.AbsRel(root, p);
    SyncPlan.PresentListedOnce(h, d.ledger, root, p);
    SyncPlan.PresentFileCovered(h, d.ledger, root, p);
    forall i | 0 <= i < |h.subtrees| ensures h.subtrees[i].relPath != r { NoFileRoot(d, i, p); }
  }

  /** No subtree stands at a file. */
  lemma NoFileRoot(d: Device, i: nat, p: string)
    requires IsPlanned(d) && p in d.ledger && d.ledger[p].File? && AtOrUnder(p, SyncPlan.Root(d.homedir))
    requires i < |d.instruction.subtrees|
    ensures d.instruction.subtrees[i].relPath != SyncPlan.Rel(SyncPlan.Root(d.homedir), p)
  {
    var root, t := SyncPlan.Root(d.homedir), d.instruction.subtrees[i];
    SyncPlan.AbsRel(root, p);
    assert Subtree(t.relPath, t.maxDepth) in d.instruction.subtrees;
  }

  /** What the server knows to be missing, the client confirms: with the plan's instruction such a path is never looked for,
      and a remote entry that is still there is deleted. */
  lemma MissingIsDeleted(d: Device, p: string, es: R.Remote, ls: seq<LocalEntry>, remotePaths: seq<string>, x: R.Hashing)
    requires IsPlanned(d) && IsMissing(d.ledger, p) && AtOrUnder(p, SyncPlan.Root(d.homedir))
    requires R.RemotePathsOf(es, ClaudeHome, remotePaths) && AreFound(ls, d)
    ensures var r := SyncPlan.Rel(SyncPlan.Root(d.homedir), p);
      && !IsFound(d, r)
      && FileKey(ClaudeHome, r) !in R.Applied(es, R.PlanFor(es, ClaudeHome, ls, remotePaths, d.instruction, x))
  {
    hide R.PlanFor, R.Applied, Scan.FileAt, Within;
    var root, h := SyncPlan.Root(d.homedir), d.instruction;
    var r := SyncPlan.Rel(root, p);
    SyncPlan.AbsRel(root, p);
    assert r in h.knownMissing;
    R.OthersLeaveOrStay(es, ClaudeHome, ls, remotePaths, h, x, FileKey(ClaudeHome, r));
  }

  // ---------- what the server shows ----------

  /** The scope's part of a manifest. */
  function HomeOf(es: R.Remote): map<string, CacheEntry> {
    map k | k in es && k.scope == ClaudeHome :: k.path := es[k]
  }

  lemma HomeOfAt(es: R.Remote, r: string)
    ensures r in HomeOf(es) <==> FileKey(ClaudeHome, r) in es
    ensures r in HomeOf(es) ==> HomeOf(es)[r] == es[FileKey(ClaudeHome, r)]
  {
    assert FileKey(ClaudeHome, r) in es ==> FileKey(ClaudeHome, r).path in HomeOf(es);
  }

  /** The snapshot shows a file of this size and time at a path of the scope. */
  predicate ShowsFile(out: seq<Snapshot.SnapshotEntry>, root: string, r: string, size: nat, mtime: int) {
    exists e :: e in out && e.FileEntry? && e.path == SyncPlan.Abs(root, r) && e.entry.size == size && e.entry.mtime == mtime
  }

  predicate ShowsNoFile(out: seq<Snapshot.SnapshotEntry>, root: string, r: string) {
    forall e :: e in out && e.path == SyncPlan.Abs(root, r) ==> !e.FileEntry?
  }

  ghost predicate ShowsManifest(out: seq<Snapshot.SnapshotEntry>, m: R.Remote, homedir: string) {
    exists json, blobs :: Snapshot.IsSnapshot(out, HomeOf(m), json, homedir, blobs)
  }

  /** A snapshot shows exactly the files of its manifest. */
  lemma SnapshotShows(out: seq<Snapshot.SnapshotEntry>, m: R.Remote, homedir: string, r: string)
    requires ShowsManifest(out, m, homedir)
    ensures var root, k := SyncPlan.Root(homedir), FileKey(ClaudeHome, r);
      if k in m then ShowsFile(out, root, r, m[k].size, m[k].mtime) else ShowsNoFile(out, root, r)
  {
    hide Snapshot.IsDirEntry, Snapshot.DataOf;
    var root := SyncPlan.Root(homedir);
    var json, blobs :| Snapshot.IsSnapshot(out, HomeOf(m), json, homedir, blobs);
    HomeOfAt(m, r);
    if r in HomeOf(m) {
      var e := Snapshot.FileEntry(SyncPlan.Abs(root, r), HomeOf(m)[r], Snapshot.DataOf(HomeOf(m)[r], blobs));
      assert Snapshot.HasFileEntry(out, SyncPlan.Abs(root, r), HomeOf(m)[r], blobs);
      assert e in out && e.FileEntry?;
    } else {
      forall e | e in out && e.path == SyncPlan.Abs(root, r) ensures !e.FileEntry? {
        assert Snapshot.EntryAt(out, root, r, e);
        Snapshot.WhatStandsAt(out, HomeOf(m), json, homedir, blobs, r, e);
      }
    }
  }

  /** What a mirror of the client says of one of its files. */
  lemma MirrorAt(m: R.Remote, es: R.Remote, f: Scanned, x: R.Hashing, d: Device, r: string)
    requires MirrorsClient(m, es, f, x) && f.scope == ClaudeHome && AreFound(f.locals, d)
    ensures FileKey(ClaudeHome, r) in m ==> IsFound(d, r)
    ensures IsFound(d, r) ==> Scan.FileAt(d.tree, r) && MirrorsFile(m, es, f, x, Scan.EntryAt(d.tree, r))
  {
    hide IsFound, Scan.FileAt, MirrorsFile, DistinctLocals;
    if FileKey(ClaudeHome, r) in m { assert R.IsLocal(f.locals, FileKey(ClaudeHome, r).path); }
    if IsFound(d, r) { var i :| 0 <= i < |f.locals| && f.locals[i].relPath == r; }
  }

  /** The whole way. A device's task becomes ready with no other writer, after a sync that scanned for the plan made from
      the ledger; the server then shows, of the files it has seen being read and no live batch has changed, exactly those
      that exist on the client, are not skipped and lie within the plan's depth, with the client's size and time; of those
      that the budget dropped it shows what it showed before. */
  lemma AccessedFilesAreShown(ps: seq<SyncProtocol.Step>, key: ClientId -> TaskKey, hash: Content -> string, q: nat,
                              home: Scanned, json: Scanned, x: R.Hashing, d: Device, out: seq<Snapshot.SnapshotEntry>, p: string)
    requires SyncProtocol.IsExecution(ps, key, hash) && q in SyncProtocol.Reached(ps, key, hash).server.records
    requires var t := SyncProtocol.Reached(ps, key, hash).server.records[q].task; t.phase == Ready && t.assignment.Some?
    requires IsPlanned(d) && AreFound(home.locals, d)
    requires ShowsManifest(out, ManifestNow(SyncProtocol.Reached(ps, key, hash), q), d.homedir)
    requires p in d.ledger && d.ledger[p].File? && AtOrUnder(p, SyncPlan.Root(d.homedir))
    requires var s := SyncProtocol.Reached(ps, key, hash);
      var id := s.server.records[q].task.assignment.value;
      && id in s.solo && id in s.jobs && id in s.server.issued
      && WellScanned(s.server.issued[id].manifest.entries, home, json)
      && s.jobs[id].stages == StagesFor(s.server.issued[id].manifest.entries, home, json, x)
      && !R.Touches(LiveChanges(s, id), FileKey(ClaudeHome, SyncPlan.Rel(SyncPlan.Root(d.homedir), p)))
    ensures var s := SyncProtocol.Reached(ps, key, hash);
      var before := s.server.issued[s.server.records[q].task.assignment.value].manifest.entries;
      IsShownAsFound(out, before, home, x, d, SyncPlan.Rel(SyncPlan.Root(d.homedir), p))
  {
    hide SyncProtocol.IsExecution, SyncProtocol.Reached, StagesFor, Mirrored, WellScanned, ShowsManifest, AreFound, IsPlanned,
      IsShownAsFound, SyncProtocol.Under, SyncProtocol.Written, SyncTheorems.Flat;
    var s := SyncProtocol.Reached(ps, key, hash);
    var id := s.server.records[q].task.assignment.value;
    var before := s.server.issued[id].manifest.entries;
    var mirror := Mirrored(before, home, json, x);
    ReadyMirrorsClient(ps, key, hash, q, home, json, x);
    R.UntouchedStays(mirror, LiveChanges(s, id), FileKey(ClaudeHome, SyncPlan.Rel(SyncPlan.Root(d.homedir), p)));
    assert home.scope == ClaudeHome by { ScopeOfHome(before, home, json); }
    ShownAsFound(ManifestNow(s, q), mirror, before, home, x, d, out, p);
  }

  function ManifestNow(s: SyncProtocol.Sys, q: nat): R.Remote
    requires q in s.server.records
  {
    TaskRuns.DiskOf(s.server, s.server.records[q].key.deviceId).manifest.entries
  }

  /** What was written under an assignment after its plan. */
  function LiveChanges(s: SyncProtocol.Sys, id: AssignmentId): seq<Change>
    requires id in s.jobs
  {
    var w, n := SyncProtocol.Under(s.server.log, id), |SyncTheorems.Flat(s.jobs[id].stages)|;
    if n <= |w| then SyncProtocol.Written(w[n..]) else []
  }

  lemma ScopeOfHome(es: R.Remote, home: Scanned, json: Scanned)
    requires WellScanned(es, home, json)
    ensures home.scope == ClaudeHome
  {}

  /** What the server shows of a file. */
  ghost predicate IsShownAsFound(out: seq<Snapshot.SnapshotEntry>, before: R.Remote, home: Scanned, x: R.Hashing, d: Device,
                                 r: string)
  {
    var root, k := SyncPlan.Root(d.homedir), FileKey(ClaudeHome, r);
    if !Scan.FileAt(d.tree, r) || d.skip(r) || exists t :: SyncPlan.TooDeep(d.ledger, root, t, r) then ShowsNoFile(out, root, r)
    else
      var l := Scan.EntryAt(d.tree, r);
      if !R.IsRejected(before, ClaudeHome, home.locals, x, l) then ShowsFile(out, root, r, l.size, l.mtime)
      else if k in before then ShowsFile(out, root, r, before[k].size, before[k].mtime)
      else ShowsNoFile(out, root, r)
  }

  lemma ShownAsFound(m: R.Remote, mirror: R.Remote, before: R.Remote, home: Scanned, x: R.Hashing, d: Device,
                     out: seq<Snapshot.SnapshotEntry>, p: string)
    requires MirrorsClient(mirror, before, home, x) && home.scope == ClaudeHome && AreFound(home.locals, d) && IsPlanned(d)
    requires ShowsManifest(out, m, d.homedir)
    requires p in d.ledger && d.ledger[p].File? && AtOrUnder(p, SyncPlan.Root(d.homedir))
    requires var k := FileKey(ClaudeHome, SyncPlan.Rel(SyncPlan.Root(d.homedir), p));
      (k in m <==> k in mirror) && (k in m ==> m[k] == mirror[k])
    ensures IsShownAsFound(out, before, home, x, d, SyncPlan.Rel(SyncPlan.Root(d.homedir), p))
  {
    hide MirrorsClient, AreFound, IsPlanned, ShowsManifest, IsFound, Scan.FileAt, SyncPlan.TooDeep, ShowsFile, ShowsNoFile,
      R.IsRejected;
    var r := SyncPlan.Rel(SyncPlan.Root(d.homedir), p);
    AccessedIsFound(d, p);
    MirrorAt(mirror, before, home, x, d, r);
    SnapshotShows(out, m, d.homedir, r);
  }

  // ---------- the content that is shown ----------

  /** Whoever else writes a manifest leaves the device's store sound. */
  ghost predicate OthersAreSound(ps: seq<SyncProtocol.Step>, hash: Content -> string) {
    forall p :: p in ps && p.ServerStep? && p.event.OtherWrite? ==> Sound(p.event.disk, hash)
  }

  lemma EventKeepsSound(v: Server, e: Event, hash: Content -> string, dev: string)
    requires Possible(v, e) && (forall d :: Sound(TaskRuns.DiskOf(v, d), hash)) && (e.OtherWrite? ==> Sound(e.disk, hash))
    ensures Sound(TaskRuns.DiskOf(Next(v, e, hash), dev), hash)
  {
    hide Hello, RunSection, DeltaEffect;
    match e {
      case DeltaEvent(r, c, d, allowed) =>
        var t, disk := v.records[r].task, TaskRuns.DiskOf(v, v.records[r].key.deviceId);
        DeltaKeepsSound(disk, FilterDuplicates(t, d.changes), hash, allowed);
      case _ => assert Sound(TaskRuns.DiskOf(v, dev), hash);
    }
  }

  /** Then in every execution every device's store is sound: blobs have their own hash as name, and every entry that is not
      skipped has its blob. */
  lemma {:induction false} StoresAreSound(ps: seq<SyncProtocol.Step>, key: ClientId -> TaskKey, hash: Content -> string, dev: string)
    requires SyncProtocol.IsExecution(ps, key, hash) && OthersAreSound(ps, hash)
    ensures Sound(TaskRuns.DiskOf(SyncProtocol.Reached(ps, key, hash).server, dev), hash)
    decreases |ps|
  {
    if ps != [] {
      var before, p := ps[..|ps| - 1], ps[|ps| - 1];
      var s := SyncProtocol.Reached(before, key, hash);
      assert p in ps && forall q :: q in before ==> q in ps;
      forall d ensures Sound(TaskRuns.DiskOf(s.server, d), hash) { StoresAreSound(before, key, hash, d); }
      hide Sound;
      StepKeepsSound(s, p, key, hash, dev);
    }
  }

  lemma StepKeepsSound(s: SyncProtocol.Sys, p: SyncProtocol.Step, key: ClientId -> TaskKey, hash: Content -> string, dev: string)
    requires SyncProtocol.Enabled(s, p, key) && forall d :: Sound(TaskRuns.DiskOf(s.server, d), hash)
    requires p.ServerStep? && p.event.OtherWrite? ==> Sound(p.event.disk, hash)
    ensures Sound(TaskRuns.DiskOf(SyncProtocol.Perform(s, p, key, hash).server, dev), hash)
  {
    hide Sound, Next;
    if p.ServerStep? {
      EventKeepsSound(s.server, p.event, hash, dev);
      TruncationFlags.StepServes(s, p, key, hash);
      TruncationFlags.ServedKeepsJobs(s, p.event, key, hash);
    } else {
      hide SyncProtocol.Perform, SyncProtocol.Enabled;
      TruncationFlags.SameServer(s, p, key, hash);
    }
  }

  /** The data that a snapshot's file comes with: none for a skipped file, and otherwise content of the entry's hash. */
  lemma DataMeans(d: Disk, k: FileKey, hash: Content -> string)
    requires Sound(d, hash) && k in d.manifest.entries
    ensures var e, data := d.manifest.entries[k], Snapshot.DataOf(d.manifest.entries[k], d.blobs);
      (data.None? <==> e.skipped) && (data.Some? ==> e.sha256 == Some(hash(data.value)))
  {}

  /** The snapshot shows a file at a path of the scope, with this data. */
  predicate ShowsData(out: seq<Snapshot.SnapshotEntry>, root: string, r: string, data: Option<Content>) {
    exists e :: e in out && e.FileEntry? && e.path == SyncPlan.Abs(root, r) && e.data == data
  }

  /** The server's snapshot of a disk. */
  ghost predicate ShowsDisk(out: seq<Snapshot.SnapshotEntry>, disk: Disk, homedir: string) {
    exists json :: Snapshot.IsSnapshot(out, HomeOf(disk.manifest.entries), json, homedir, disk.blobs)
  }

  lemma SnapshotShowsData(out: seq<Snapshot.SnapshotEntry>, disk: Disk, homedir: string, r: string)
    requires ShowsDisk(out, disk, homedir) && FileKey(ClaudeHome, r) in disk.manifest.entries
    ensures ShowsData(out, SyncPlan.Root(homedir), r,
              Snapshot.DataOf(disk.manifest.entries[FileKey(ClaudeHome, r)], disk.blobs))
  {
    hide Snapshot.IsDirEntry, Snapshot.DataOf;
    var root, m := SyncPlan.Root(homedir), disk.manifest.entries;
    var json :| Snapshot.IsSnapshot(out, HomeOf(m), json, homedir, disk.blobs);
    HomeOfAt(m, r);
    assert Snapshot.HasFileEntry(out, SyncPlan.Abs(root, r), HomeOf(m)[r], disk.blobs);
    var e := Snapshot.FileEntry(SyncPlan.Abs(root, r), HomeOf(m)[r], Snapshot.DataOf(HomeOf(m)[r], disk.blobs));
    assert e in out && e.FileEntry?;
  }

  /** What the snapshot has of a file that the client found: the content the client read, as far as its hash tells, if the
      file was new or changed and the limits let it through; no data if it is over the file limit; and content of the hash
      the manifest had before if its size and time had not changed. */
  ghost predicate IsShownWithContent(out: seq<Snapshot.SnapshotEntry>, before: R.Remote, home: Scanned, x: R.Hashing, d: Device,
                                     r: string, hash: Content -> string)
    requires Scan.FileAt(d.tree, r)
  {
    var root, l, k := SyncPlan.Root(d.homedir), Scan.EntryAt(d.tree, r), FileKey(ClaudeHome, r);
    && (R.UpToDate(before, ClaudeHome, l) ==> exists data :: ShowsData(out, root, r, data) && ShowsOld(before[k], data, hash))
    && (!R.UpToDate(before, ClaudeHome, l) && !R.IsRejected(before, ClaudeHome, home.locals, x, l) ==>
          exists data :: ShowsData(out, root, r, data) && ShowsRead(data, l, x, hash))
  }

  predicate ShowsOld(e: CacheEntry, data: Option<Content>, hash: Content -> string) {
    if data.None? then e.skipped else e.sha256 == Some(hash(data.value))
  }

  predicate ShowsRead(data: Option<Content>, l: LocalEntry, x: R.Hashing, hash: Content -> string) {
    if l.size > x.maxFileBytes then data.None? else data.Some? && hash(data.value) == x.hash(x.read(l.relPath))
  }

  lemma ShownWithContent(disk: Disk, mirror: R.Remote, before: R.Remote, home: Scanned, x: R.Hashing, d: Device,
                         out: seq<Snapshot.SnapshotEntry>, r: string, hash: Content -> string)
    requires MirrorsClient(mirror, before, home, x) && home.scope == ClaudeHome && AreFound(home.locals, d) && IsFound(d, r)
    requires ShowsDisk(out, disk, d.homedir) && Sound(disk, hash)
    requires SameAt(mirror, disk.manifest.entries, FileKey(ClaudeHome, r))
    ensures Scan.FileAt(d.tree, r) && IsShownWithContent(out, before, home, x, d, r, hash)
  {
    hide MirrorsClient, AreFound, ShowsDisk, IsFound, Scan.FileAt, ShowsData, R.IsRejected, Sound, Snapshot.DataOf;
    var k := FileKey(ClaudeHome, r);
    MirrorAt(mirror, before, home, x, d, r);
    var l := Scan.EntryAt(d.tree, r);
    if k in disk.manifest.entries {
      SnapshotShowsData(out, disk, d.homedir, r);
      DataMeans(disk, k, hash);
      var data := Snapshot.DataOf(disk.manifest.entries[k], disk.blobs);
      assert ShowsData(out, SyncPlan.Root(d.homedir), r, data);
      assert R.UpToDate(before, ClaudeHome, l) ==> ShowsOld(before[k], data, hash);
      assert !R.UpToDate(before, ClaudeHome, l) && !R.IsRejected(before, ClaudeHome, home.locals, x, l) ==> ShowsRead(data, l, x, hash);
    }
  }

  /** The content of the same execution: of a file that the client found and no live batch has changed, the server shows what
      the client read. */
  lemma FoundContentIsShown(ps: seq<SyncProtocol.Step>, key: ClientId -> TaskKey, hash: Content -> string, q: nat,
                            home: Scanned, json: Scanned, x: R.Hashing, d: Device, out: seq<Snapshot.SnapshotEntry>, r: string)
    requires SyncProtocol.IsExecution(ps, key, hash) && q in SyncProtocol.Reached(ps, key, hash).server.records
    requires OthersAreSound(ps, hash) && AreFound(home.locals, d) && IsFound(d, r)
    requires var t := SyncProtocol.Reached(ps, key, hash).server.records[q].task; t.phase == Ready && t.assignment.Some?
    requires ShowsDisk(out, DiskNow(SyncProtocol.Reached(ps, key, hash), q), d.homedir)
    requires var s := SyncProtocol.Reached(ps, key, hash);
      var id := s.server.records[q].task.assignment.value;
      && id in s.solo && id in s.jobs && id in s.server.issued
      && WellScanned(s.server.issued[id].manifest.entries, home, json)
      && s.jobs[id].stages == StagesFor(s.server.issued[id].manifest.entries, home, json, x)
      && !R.Touches(LiveChanges(s, id), FileKey(ClaudeHome, r))
    ensures var s := SyncProtocol.Reached(ps, key, hash);
      var before := s.server.issued[s.server.records[q].task.assignment.value].manifest.entries;
      Scan.FileAt(d.tree, r) && IsShownWithContent(out, before, home, x, d, r, hash)
  {
    hide SyncProtocol.IsExecution, SyncProtocol.Reached, StagesFor, Mirrored, WellScanned, ShowsDisk, AreFound, IsFound, Scan.FileAt,
      IsShownWithContent, SyncProtocol.Under, SyncProtocol.Written, SyncTheorems.Flat, OthersAreSound, Sound;
    var s := SyncProtocol.Reached(ps, key, hash);
    var id := s.server.records[q].task.assignment.value;
    var before := s.server.issued[id].manifest.entries;
    var mirror := Mirrored(before, home, json, x);
    ReadyMirrorsClient(ps, key, hash, q, home, json, x);
    R.UntouchedStays(mirror, LiveChanges(s, id), FileKey(ClaudeHome, r));
    StoresAreSound(ps, key, hash, s.server.records[q].key.deviceId);
    assert home.scope == ClaudeHome by { ScopeOfHome(before, home, json); }
    ShownWithContent(DiskNow(s, q), mirror, before, home, x, d, out, r, hash);
  }

  function DiskNow(s: SyncProtocol.Sys, q: nat): Disk
    requires q in s.server.records
  {
    TaskRuns.DiskOf(s.server, s.server.records[q].key.deviceId)
  }
}
