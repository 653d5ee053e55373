/** Diffing the scanned files of a scope against the remote manifest, and what applying the diff leaves. */
module Reconcile {
  import opened Options
  import opened StringOrder
  import opened Paths
  import opened CacheStore
  import opened CacheStoreProperties
  import opened Instructions
  import opened ScanFilter
  import opened Walk
  import opened Scan
  import opened ScopeBudget

  type Remote = map<FileKey, CacheEntry>

  datatype ScopePlan = ScopePlan(uploads: seq<Change>, metaChanges: seq<Change>, truncated: bool)

  /** What hashing needs: the files' contents, the hash, and the two limits. */
  datatype Hashing = Hashing(read: string -> Content, hash: Content -> string, maxFileBytes: nat, maxScopeBytes: nat)

  /** A file over the limit is described without its content. */
  function ChangeFor(sc: Scope, l: LocalEntry, x: Hashing): (c: Change)
    ensures c.Upsert?
  {
    if l.size > x.maxFileBytes
    then Upsert(FileKey(sc, l.relPath), l.size, l.mtime, None, None, true, None)
    else Upsert(FileKey(sc, l.relPath), l.size, l.mtime, Some(x.hash(x.read(l.relPath))), Some(x.read(l.relPath)), false, None)
  }

  /** Size and time decide; content is not compared. */
  predicate UpToDate(es: Remote, sc: Scope, l: LocalEntry) {
    FileKey(sc, l.relPath) in es && es[FileKey(sc, l.relPath)].size == l.size && es[FileKey(sc, l.relPath)].mtime == l.mtime
  }

  function Adds(es: Remote, sc: Scope, ls: seq<LocalEntry>, x: Hashing): (cs: seq<Change>)
    ensures AllUpserts(cs)
  {
    if ls == [] then []
    else
      var k := |ls| - 1;
      Adds(es, sc, ls[..k], x) + (if UpToDate(es, sc, ls[k]) then [] else [ChangeFor(sc, ls[k], x)])
  }

  predicate IsLocal(ls: seq<LocalEntry>, r: string) {
    exists i :: 0 <= i < |ls| && ls[i].relPath == r
  }

  function Deletes(sc: Scope, ls: seq<LocalEntry>, remotePaths: seq<string>, h: Instruction): seq<Change> {
    if remotePaths == [] then []
    else
      var k := |remotePaths| - 1;
      var r := remotePaths[k];
      Deletes(sc, ls, remotePaths[..k], h) + (if !IsLocal(ls, r) && Covered(r, h) then [Delete(FileKey(sc, r), None)] else [])
  }

  function Those(cs: seq<Change>, skipped: bool): (r: seq<Change>)
    requires AllUpserts(cs)
  {
    if cs == [] then []
    else
      var k := |cs| - 1;
      Those(cs[..k], skipped) + (if cs[k].skipped == skipped then [cs[k]] else [])
  }

  function Chosen(es: Remote, sc: Scope, ls: seq<LocalEntry>, x: Hashing): (r: seq<Change>)
    ensures AllUpserts(r)
  {
    Kept(SortNewestFirst(Adds(es, sc, ls, x)), x.maxScopeBytes)
  }

  function Rejected(es: Remote, sc: Scope, ls: seq<LocalEntry>, x: Hashing): (r: seq<Change>)
    ensures AllUpserts(r)
  {
    Dropped(SortNewestFirst(Adds(es, sc, ls, x)), x.maxScopeBytes)
  }

  function PlanFor(es: Remote, sc: Scope, ls: seq<LocalEntry>, remotePaths: seq<string>, h: Instruction, x: Hashing): ScopePlan {
    var kept := Chosen(es, sc, ls, x);
    ScopePlan(Those(kept, false), Deletes(sc, ls, remotePaths, h) + Those(kept, true), Rejected(es, sc, ls, x) != [])
  }

  /** The loop over the local files. */
  method CollectAdds(es: Remote, sc: Scope, ls: seq<LocalEntry>, x: Hashing) returns (adds: seq<Change>)
    ensures adds == Adds(es, sc, ls, x)
  {
    adds := [];
    var n := 0;
    while n < |ls|
      invariant 0 <= n <= |ls|
      invariant adds == Adds(es, sc, ls[..n], x)
    {
      var local := ls[n];
      assert ls[..n + 1][..n] == ls[..n];
      n := n + 1;
      var key := FileKey(sc, local.relPath);
      if key in es && es[key].size == local.size && es[key].mtime == local.mtime { continue; }
      adds := adds + [ChangeFor(sc, local, x)];
    }
    assert ls[..n] == ls;
  }

  /** The loop over the remote paths. */
  method CollectDeletes(sc: Scope, ls: seq<LocalEntry>, remotePaths: seq<string>, h: Instruction) returns (deletes: seq<Change>)
    ensures deletes == Deletes(sc, ls, remotePaths, h)
  {
    var localPaths := set l | l in ls :: l.relPath;
    forall r ensures r in localPaths <==> IsLocal(ls, r) {
      if r in localPaths { var l :| l in ls && l.relPath == r; var i :| 0 <= i < |ls| && ls[i] == l; }
    }
    hide IsLocal, Covered;
    deletes := [];
    var n := 0;
    while n < |remotePaths|
      invariant 0 <= n <= |remotePaths|
      invariant deletes == Deletes(sc, ls, remotePaths[..n], h)
    {
      assert remotePaths[..n + 1][..n] == remotePaths[..n];
      if remotePaths[n] !in localPaths && Covered(remotePaths[n], h) {
        deletes := deletes + [Delete(FileKey(sc, remotePaths[n]), None)];
      }
      n := n + 1;
    }
    assert remotePaths[..n] == remotePaths;
  }

  method HashScope(es: Remote, sc: Scope, ls: seq<LocalEntry>, remotePaths: seq<string>, h: Instruction, x: Hashing)
    returns (plan: ScopePlan)
    ensures plan == PlanFor(es, sc, ls, remotePaths, h, x)
  {
    hide Adds, Deletes, Kept, Dropped, SortNewestFirst;
    var adds := CollectAdds(es, sc, ls, x);
    var deletes := CollectDeletes(sc, ls, remotePaths, h);
    var kept, truncated := ApplyScopeBudget(adds, x.maxScopeBytes);
    var uploads: seq<Change> := [];
    var metaChanges := deletes;
    var n := 0;
    while n < |kept|
      invariant 0 <= n <= |kept| && AllUpserts(kept)
      invariant uploads == Those(kept[..n], false) && metaChanges == deletes + Those(kept[..n], true)
    {
      assert kept[..n + 1][..n] == kept[..n];
      if kept[n].skipped { metaChanges := metaChanges + [kept[n]]; } else { uploads := uploads + [kept[n]]; }
      n := n + 1;
    }
    assert kept[..n] == kept;
    plan := ScopePlan(uploads, metaChanges, truncated);
  }

  // ---------- what the lists hold ----------

  lemma {:induction false} AddsExactly(es: Remote, sc: Scope, ls: seq<LocalEntry>, x: Hashing, c: Change)
    ensures c in Adds(es, sc, ls, x) <==> exists i :: 0 <= i < |ls| && !UpToDate(es, sc, ls[i]) && c == ChangeFor(sc, ls[i], x)
  {
    if ls != [] {
      var k := |ls| - 1;
      AddsExactly(es, sc, ls[..k], x, c);
      if c in Adds(es, sc, ls[..k], x) {
        var i :| 0 <= i < k && !UpToDate(es, sc, ls[..k][i]) && c == ChangeFor(sc, ls[..k][i], x);
        assert ls[..k][i] == ls[i];
      }
      if i :| 0 <= i < |ls| && !UpToDate(es, sc, ls[i]) && c == ChangeFor(sc, ls[i], x) {
        if i < k { assert ls[..k][i] == ls[i]; }
      }
    }
  }

  lemma {:induction false} DeletesExactly(sc: Scope, ls: seq<LocalEntry>, remotePaths: seq<string>, h: Instruction, c: Change)
    ensures c in Deletes(sc, ls, remotePaths, h) <==>
      exists i :: 0 <= i < |remotePaths| && !IsLocal(ls, remotePaths[i]) && Covered(remotePaths[i], h)
        && c == Delete(FileKey(sc, remotePaths[i]), None)
  {
    hide Covered, IsLocal;
    if remotePaths != [] {
      var k := |remotePaths| - 1;
      DeletesExactly(sc, ls, remotePaths[..k], h, c);
      assert forall i :: 0 <= i < k ==> remotePaths[..k][i] == remotePaths[i];
    }
  }

  lemma {:induction false} ThoseExactly(cs: seq<Change>, skipped: bool, c: Change)
    requires AllUpserts(cs)
    ensures c in Those(cs, skipped) <==> c in cs && c.Upsert? && c.skipped == skipped
  {
    if cs != [] {
      var k := |cs| - 1;
      ThoseExactly(cs[..k], skipped, c);
      assert cs == cs[..k] + [cs[k]];
    }
  }

  /** Each outdated file's change is either chosen or rejected, never both. */
  lemma ChosenOrRejected(es: Remote, sc: Scope, ls: seq<LocalEntry>, x: Hashing, c: Change)
    requires DistinctLocals(ls)
    ensures c in Adds(es, sc, ls, x) <==> c in Chosen(es, sc, ls, x) || c in Rejected(es, sc, ls, x)
    ensures c in Chosen(es, sc, ls, x) ==> c !in Rejected(es, sc, ls, x)
  {
    hide Kept, Dropped, Adds, SortNewestFirst;
    var adds := Adds(es, sc, ls, x);
    BudgetIsSound(adds, x.maxScopeBytes);
    var kept, dropped := Chosen(es, sc, ls, x), Rejected(es, sc, ls, x);
    assert c in adds <==> c in multiset(adds);
    assert c in kept <==> c in multiset(kept);
    assert c in dropped <==> c in multiset(dropped);
    AddsAreDistinct(es, sc, ls, x, c);
  }

  lemma {:induction false} AddsAreDistinct(es: Remote, sc: Scope, ls: seq<LocalEntry>, x: Hashing, c: Change)
    requires DistinctLocals(ls)
    ensures multiset(Adds(es, sc, ls, x))[c] <= 1
  {
    if ls != [] {
      var k := |ls| - 1;
      AddsAreDistinct(es, sc, ls[..k], x, c);
      LastIsNew(es, sc, ls, x);
      hide ChangeFor;
    }
  }

  lemma LastIsNew(es: Remote, sc: Scope, ls: seq<LocalEntry>, x: Hashing)
    requires DistinctLocals(ls) && ls != []
    ensures ChangeFor(sc, ls[|ls| - 1], x) !in Adds(es, sc, ls[..|ls| - 1], x)
  {
    hide Adds;
    var k := |ls| - 1;
    AddsExactly(es, sc, ls[..k], x, ChangeFor(sc, ls[k], x));
    assert forall i :: 0 <= i < k ==> ls[..k][i] == ls[i];
  }

  // ---------- applying a plan ----------

  /** No two changes disagree about a file. */
  predicate KeyedOnce(cs: seq<Change>) {
    forall c, d :: c in cs && d in cs && c.key == d.key ==> c == d
  }

  predicate Touches(cs: seq<Change>, key: FileKey) {
    exists c :: c in cs && c.key == key
  }

  /** Applying changes that agree does to each file what its change says, and nothing to the others. */
  lemma {:induction false} AppliedAt(es: Remote, cs: seq<Change>, c: Change)
    requires KeyedOnce(cs) && c in cs
    ensures IsStoredAs(ApplyChanges(es, cs), c)
  {
    var k := |cs| - 1;
    assert cs[k] in cs;
    if c != cs[k] {
      var i :| 0 <= i < |cs| && cs[i] == c;
      assert cs[..k][i] == c;
      assert forall d :: d in cs[..k] ==> d in cs;
      AppliedAt(es, cs[..k], c);
    }
  }

  lemma UntouchedStays(es: Remote, cs: seq<Change>, key: FileKey)
    requires !Touches(cs, key)
    ensures SameAt(es, ApplyChanges(es, cs), key)
  {
    assert forall i :: 0 <= i < |cs| ==> cs[i] in cs;
    UnchangedStays(es, cs, key);
  }

  /** What the server's manifest holds after the metadata batch and the uploads. */
  function Applied(es: Remote, plan: ScopePlan): Remote {
    ApplyChanges(es, plan.metaChanges + plan.uploads)
  }

  ghost predicate RemotePathsOf(es: Remote, sc: Scope, remotePaths: seq<string>) {
    && (forall r :: FileKey(sc, r) in es <==> r in remotePaths)
    && (forall i, j :: 0 <= i < j < |remotePaths| ==> remotePaths[i] != remotePaths[j])
  }

  /** The plan's changes: a delete for each covered remote path that is not local, and the chosen upserts. */
  lemma PlanExactly(es: Remote, sc: Scope, ls: seq<LocalEntry>, remotePaths: seq<string>, h: Instruction, x: Hashing, c: Change)
    requires RemotePathsOf(es, sc, remotePaths)
    ensures var plan := PlanFor(es, sc, ls, remotePaths, h, x);
      c in plan.metaChanges + plan.uploads <==> IsDeleteFor(es, sc, ls, h, c) || c in Chosen(es, sc, ls, x)
  {
    hide Chosen, Rejected, Covered, IsLocal, Deletes, Those;
    var kept := Chosen(es, sc, ls, x);
    ThoseExactly(kept, true, c);
    ThoseExactly(kept, false, c);
    DeletesExactly(sc, ls, remotePaths, h, c);
    if IsDeleteFor(es, sc, ls, h, c) {
      var i :| 0 <= i < |remotePaths| && remotePaths[i] == c.key.path;
    }
    if c in kept { assert c.Upsert?; }
  }

  predicate IsDeleteFor(es: Remote, sc: Scope, ls: seq<LocalEntry>, h: Instruction, c: Change) {
    && c.Delete? && c.key.scope == sc && c.key in es && c.mutationId == None
    && !IsLocal(ls, c.key.path) && Covered(c.key.path, h)
  }

  lemma ChosenIsLocal(es: Remote, sc: Scope, ls: seq<LocalEntry>, x: Hashing, c: Change)
    requires DistinctLocals(ls) && c in Adds(es, sc, ls, x)
    ensures c.Upsert? && c.key.scope == sc && IsLocal(ls, c.key.path)
  {
    AddsExactly(es, sc, ls, x, c);
  }

  lemma SameKeySameAdd(es: Remote, sc: Scope, ls: seq<LocalEntry>, x: Hashing, c: Change, d: Change)
    requires DistinctLocals(ls) && c in Adds(es, sc, ls, x) && d in Adds(es, sc, ls, x) && c.key == d.key
    ensures c == d
  {
    AddsExactly(es, sc, ls, x, c);
    AddsExactly(es, sc, ls, x, d);
  }

  lemma PlanIsKeyedOnce(es: Remote, sc: Scope, ls: seq<LocalEntry>, remotePaths: seq<string>, h: Instruction, x: Hashing)
    requires RemotePathsOf(es, sc, remotePaths) && DistinctLocals(ls)
    ensures var plan := PlanFor(es, sc, ls, remotePaths, h, x); KeyedOnce(plan.metaChanges + plan.uploads)
  {
    hide PlanFor, Covered, IsLocal, Chosen, Rejected, Adds;
    var plan := PlanFor(es, sc, ls, remotePaths, h, x);
    var cs := plan.metaChanges + plan.uploads;
    forall c, d | c in cs && d in cs && c.key == d.key ensures c == d {
      PlanExactly(es, sc, ls, remotePaths, h, x, c);
      PlanExactly(es, sc, ls, remotePaths, h, x, d);
      ChosenOrRejected(es, sc, ls, x, c);
      ChosenOrRejected(es, sc, ls, x, d);
      if c in Chosen(es, sc, ls, x) { ChosenIsLocal(es, sc, ls, x, c); }
      if d in Chosen(es, sc, ls, x) { ChosenIsLocal(es, sc, ls, x, d); }
      if c in Chosen(es, sc, ls, x) && d in Chosen(es, sc, ls, x) { SameKeySameAdd(es, sc, ls, x, c, d); }
    }
  }

  // ---------- what applying a plan achieves ----------

  lemma RejectedIsAdd(es: Remote, sc: Scope, ls: seq<LocalEntry>, x: Hashing, c: Change)
    requires c in Rejected(es, sc, ls, x)
    ensures c in Adds(es, sc, ls, x)
  {
    hide Kept, Dropped, Adds, SortNewestFirst;
    BudgetIsSound(Adds(es, sc, ls, x), x.maxScopeBytes);
    assert c in multiset(Rejected(es, sc, ls, x)) && c in multiset(Chosen(es, sc, ls, x)) + multiset(Rejected(es, sc, ls, x));
    assert c in multiset(Adds(es, sc, ls, x));
  }

  /** The entry names the content that was read of the file, or none if the file is over the file limit. */
  predicate HasContentOf(e: CacheEntry, l: LocalEntry, x: Hashing) {
    if l.size > x.maxFileBytes then e.skipped && e.sha256 == None
    else !e.skipped && e.sha256 == Some(x.hash(x.read(l.relPath)))
  }

  predicate IsRejected(es: Remote, sc: Scope, ls: seq<LocalEntry>, x: Hashing, l: LocalEntry) {
    ChangeFor(sc, l, x) in Rejected(es, sc, ls, x)
  }

  /** Every local file that the budget did not drop has its local size and time in the manifest, and the hash of its
      content if it was outdated; for one that was dropped the manifest says what it said before, which is not that. */
  lemma LocalsArrive(es: Remote, sc: Scope, ls: seq<LocalEntry>, remotePaths: seq<string>, h: Instruction, x: Hashing, i: nat)
    requires RemotePathsOf(es, sc, remotePaths) && DistinctLocals(ls) && i < |ls|
    ensures var after, key := Applied(es, PlanFor(es, sc, ls, remotePaths, h, x)), FileKey(sc, ls[i].relPath);
      && (UpToDate(after, sc, ls[i]) <==> !IsRejected(es, sc, ls, x, ls[i]))
      && (IsRejected(es, sc, ls, x, ls[i]) || UpToDate(es, sc, ls[i]) ==> SameAt(es, after, key))
      && (!IsRejected(es, sc, ls, x, ls[i]) && !UpToDate(es, sc, ls[i]) ==> key in after && HasContentOf(after[key], ls[i], x))
  {
    hide PlanFor, Covered, Chosen, Rejected, Adds, DistinctLocals;
    var plan := PlanFor(es, sc, ls, remotePaths, h, x);
    var cs, c, key := plan.metaChanges + plan.uploads, ChangeFor(sc, ls[i], x), FileKey(sc, ls[i].relPath);
    PlanIsKeyedOnce(es, sc, ls, remotePaths, h, x);
    PlanExactly(es, sc, ls, remotePaths, h, x, c);
    AddsExactly(es, sc, ls, x, c);
    ChosenOrRejected(es, sc, ls, x, c);
    if c in Chosen(es, sc, ls, x) {
      AppliedAt(es, cs, c);
    } else {
      forall d | d in cs ensures d.key != key { NotTouched(es, sc, ls, remotePaths, h, x, i, d); }
      UntouchedStays(es, cs, key);
      OutdatedIsAdd(es, sc, ls, x, i);
    }
  }

  lemma OutdatedIsAdd(es: Remote, sc: Scope, ls: seq<LocalEntry>, x: Hashing, i: nat)
    requires DistinctLocals(ls) && i < |ls|
    ensures !UpToDate(es, sc, ls[i]) <==> ChangeFor(sc, ls[i], x) in Adds(es, sc, ls, x)
  {
    AddsExactly(es, sc, ls, x, ChangeFor(sc, ls[i], x));
  }

  /** Nothing in the plan touches a local file whose change was not chosen. */
  lemma NotTouched(es: Remote, sc: Scope, ls: seq<LocalEntry>, remotePaths: seq<string>, h: Instruction, x: Hashing, i: nat, d: Change)
    requires RemotePathsOf(es, sc, remotePaths) && DistinctLocals(ls) && i < |ls|
    requires var plan := PlanFor(es, sc, ls, remotePaths, h, x); d in plan.metaChanges + plan.uploads
    requires ChangeFor(sc, ls[i], x) !in Chosen(es, sc, ls, x)
    ensures d.key != FileKey(sc, ls[i].relPath)
  {
    hide PlanFor, Covered, Chosen, Rejected, Adds;
    PlanExactly(es, sc, ls, remotePaths, h, x, d);
    if d in Chosen(es, sc, ls, x) {
      ChosenOrRejected(es, sc, ls, x, d);
      AddsExactly(es, sc, ls, x, d);
    }
  }

  /** A remote path disappears exactly if it is covered and not local; a file of another scope, or one that is neither
      local nor covered, keeps its entry. */
  lemma OthersLeaveOrStay(es: Remote, sc: Scope, ls: seq<LocalEntry>, remotePaths: seq<string>, h: Instruction, x: Hashing,
                          key: FileKey)
    requires RemotePathsOf(es, sc, remotePaths) && DistinctLocals(ls) && !(key.scope == sc && IsLocal(ls, key.path))
    ensures var after := Applied(es, PlanFor(es, sc, ls, remotePaths, h, x));
      && (key in after <==> key in es && !(key.scope == sc && Covered(key.path, h)))
      && (key in after ==> after[key] == es[key])
  {
    hide PlanFor, Covered, Chosen, Rejected, Adds, IsLocal;
    var plan := PlanFor(es, sc, ls, remotePaths, h, x);
    var cs := plan.metaChanges + plan.uploads;
    PlanIsKeyedOnce(es, sc, ls, remotePaths, h, x);
    if key in es && key.scope == sc && Covered(key.path, h) {
      PlanExactly(es, sc, ls, remotePaths, h, x, Delete(key, None));
      AppliedAt(es, cs, Delete(key, None));
    } else {
      forall d | d in cs ensures d.key != key {
        PlanExactly(es, sc, ls, remotePaths, h, x, d);
        if d in Chosen(es, sc, ls, x) {
          ChosenOrRejected(es, sc, ls, x, d);
          ChosenIsLocal(es, sc, ls, x, d);
        }
      }
      UntouchedStays(es, cs, key);
    }
  }

  // ---------- a second round ----------

  /** What a second round still has to add is exactly what the budget dropped in the first. */
  lemma SecondRoundAdds(es: Remote, sc: Scope, ls: seq<LocalEntry>, remotePaths: seq<string>, h: Instruction, x: Hashing, c: Change)
    requires RemotePathsOf(es, sc, remotePaths) && DistinctLocals(ls)
    ensures c in Adds(Applied(es, PlanFor(es, sc, ls, remotePaths, h, x)), sc, ls, x) <==> c in Rejected(es, sc, ls, x)
  {
    hide PlanFor, Applied, Covered, Chosen, Rejected, Adds;
    var after := Applied(es, PlanFor(es, sc, ls, remotePaths, h, x));
    AddsExactly(after, sc, ls, x, c);
    AddsExactly(es, sc, ls, x, c);
    ChosenOrRejected(es, sc, ls, x, c);
    forall i | 0 <= i < |ls| ensures UpToDate(after, sc, ls[i]) <==> !IsRejected(es, sc, ls, x, ls[i]) {
      LocalsArrive(es, sc, ls, remotePaths, h, x, i);
    }
  }

  /** Something is kept if and only if some change fits on its own. */
  lemma {:induction false} SomethingIsKept(cs: seq<Change>, max: nat)
    requires AllUpserts(cs)
    ensures Kept(cs, max) != [] <==> exists i :: 0 <= i < |cs| && Fits(0, cs[i], max)
  {
    hide Fits;
    if cs != [] {
      var k := |cs| - 1;
      SomethingIsKept(cs[..k], max);
      assert forall i :: 0 <= i < k ==> cs[..k][i] == cs[i];
      assert Bytes([]) == 0;
    }
  }

  /** The limits let a file through: it is over the file limit and described without content, or it fits the scope's
      limit alone. */
  predicate CanArrive(l: LocalEntry, x: Hashing) {
    l.size > x.maxFileBytes || l.size <= x.maxScopeBytes
  }

  predicate Awaits(es: Remote, sc: Scope, ls: seq<LocalEntry>, x: Hashing, i: nat)
    requires i < |ls|
  {
    !UpToDate(es, sc, ls[i]) && CanArrive(ls[i], x)
  }

  lemma SortKeepsMembers(cs: seq<Change>, c: Change)
    requires AllUpserts(cs)
    ensures c in SortNewestFirst(cs) <==> c in cs
  {
    hide SortNewestFirst;
    assert c in multiset(SortNewestFirst(cs)) <==> c in multiset(cs);
  }

  lemma FitsIfCanArrive(sc: Scope, l: LocalEntry, x: Hashing)
    ensures Fits(0, ChangeFor(sc, l, x), x.maxScopeBytes) <==> CanArrive(l, x)
  {}

  lemma ChosenIffSomeFits(es: Remote, sc: Scope, ls: seq<LocalEntry>, x: Hashing)
    ensures Chosen(es, sc, ls, x) != [] <==> exists i :: 0 <= i < |ls| && Awaits(es, sc, ls, x, i)
  {
    hide Adds, SortNewestFirst, Kept, Fits, ChangeFor, CanArrive, UpToDate;
    var adds, sorted := Adds(es, sc, ls, x), SortNewestFirst(Adds(es, sc, ls, x));
    SomethingIsKept(sorted, x.maxScopeBytes);
    if i :| 0 <= i < |sorted| && Fits(0, sorted[i], x.maxScopeBytes) {
      SortKeepsMembers(adds, sorted[i]);
      AddsExactly(es, sc, ls, x, sorted[i]);
      var j :| 0 <= j < |ls| && !UpToDate(es, sc, ls[j]) && sorted[i] == ChangeFor(sc, ls[j], x);
      FitsIfCanArrive(sc, ls[j], x);
      assert Awaits(es, sc, ls, x, j);
    }
    if j :| 0 <= j < |ls| && Awaits(es, sc, ls, x, j) {
      AddsExactly(es, sc, ls, x, ChangeFor(sc, ls[j], x));
      SortKeepsMembers(adds, ChangeFor(sc, ls[j], x));
      FitsIfCanArrive(sc, ls[j], x);
    }
  }

  /** The second round deletes nothing: what was covered and not local is gone. */
  lemma NoSecondDeletes(es: Remote, sc: Scope, ls: seq<LocalEntry>, first: seq<string>, second: seq<string>, h: Instruction, x: Hashing)
    requires RemotePathsOf(es, sc, first) && DistinctLocals(ls)
    requires RemotePathsOf(Applied(es, PlanFor(es, sc, ls, first, h, x)), sc, second)
    ensures Deletes(sc, ls, second, h) == []
  {
    hide PlanFor, Applied, Covered, IsLocal, Deletes;
    var after := Applied(es, PlanFor(es, sc, ls, first, h, x));
    var deletes := Deletes(sc, ls, second, h);
    forall c ensures c !in deletes {
      DeletesExactly(sc, ls, second, h, c);
      if c in deletes {
        var i :| 0 <= i < |second| && !IsLocal(ls, second[i]) && Covered(second[i], h) && c == Delete(FileKey(sc, second[i]), None);
        OthersLeaveOrStay(es, sc, ls, first, h, x, FileKey(sc, second[i]));
      }
    }
    SomeIn(deletes);
  }

  lemma SomeIn(cs: seq<Change>)
    ensures cs == [] || exists c :: c in cs
  {
    if cs != [] { assert cs[0] in cs; }
  }

  /** A second scan against the result, with the same files and the same instruction, has nothing to do if and only if
      each file that the first budget dropped is over the scope's limit alone; in particular if it dropped none. */
  lemma SecondRoundIsEmpty(es: Remote, sc: Scope, ls: seq<LocalEntry>, first: seq<string>, second: seq<string>, h: Instruction,
                           x: Hashing)
    requires RemotePathsOf(es, sc, first) && DistinctLocals(ls)
    requires RemotePathsOf(Applied(es, PlanFor(es, sc, ls, first, h, x)), sc, second)
    ensures var plan := PlanFor(es, sc, ls, first, h, x);
      var again := PlanFor(Applied(es, plan), sc, ls, second, h, x);
      && (again.uploads == [] && again.metaChanges == [] <==>
          forall i :: 0 <= i < |ls| && IsRejected(es, sc, ls, x, ls[i]) ==> ls[i].size > x.maxScopeBytes)
      && (!plan.truncated ==> again.uploads == [] && again.metaChanges == [])
  {
    hide Applied, Covered, IsLocal, Deletes, Adds, Kept, Dropped, SortNewestFirst, UpToDate, DistinctLocals;
    var plan := PlanFor(es, sc, ls, first, h, x);
    var after := Applied(es, plan);
    NoSecondDeletes(es, sc, ls, first, second, h, x);
    ChosenIffSomeFits(after, sc, ls, x);
    forall i | 0 <= i < |ls| ensures IsRejected(es, sc, ls, x, ls[i]) <==> !UpToDate(after, sc, ls[i]) {
      LocalsArrive(es, sc, ls, first, h, x, i);
    }
    forall i | 0 <= i < |ls| && IsRejected(es, sc, ls, x, ls[i])
      ensures Awaits(after, sc, ls, x, i) <==> ls[i].size <= x.maxScopeBytes
    {
      RejectedIsNotSkipped(es, sc, ls, x, i);
    }
    var kept := Chosen(after, sc, ls, x);
    if kept != [] {
      ThoseExactly(kept, true, kept[0]);
      ThoseExactly(kept, false, kept[0]);
      assert kept[0] in kept;
    }
  }

  lemma RejectedIsNotSkipped(es: Remote, sc: Scope, ls: seq<LocalEntry>, x: Hashing, i: nat)
    requires i < |ls| && IsRejected(es, sc, ls, x, ls[i])
    ensures ls[i].size <= x.maxFileBytes
  {
    hide Kept, Dropped, Adds, SortNewestFirst;
    BudgetIsSound(Adds(es, sc, ls, x), x.maxScopeBytes);
  }

  /** Each round brings no file out of date, and it brings some file up to date if and only if there is an outdated one
      that the limits let through: one that is skipped, or that fits the scope's limit alone. */
  lemma RoundsConverge(es: Remote, sc: Scope, ls: seq<LocalEntry>, remotePaths: seq<string>, h: Instruction, x: Hashing)
    requires RemotePathsOf(es, sc, remotePaths) && DistinctLocals(ls)
    ensures var after := Applied(es, PlanFor(es, sc, ls, remotePaths, h, x));
      && (forall i :: 0 <= i < |ls| && UpToDate(es, sc, ls[i]) ==> UpToDate(after, sc, ls[i]))
      && ((exists i :: 0 <= i < |ls| && !UpToDate(es, sc, ls[i]) && UpToDate(after, sc, ls[i])) <==>
          (exists i :: 0 <= i < |ls| && Awaits(es, sc, ls, x, i)))
  {
    hide PlanFor, Applied, Chosen, Rejected, Adds, UpToDate, Awaits, DistinctLocals;
    var after := Applied(es, PlanFor(es, sc, ls, remotePaths, h, x));
    ChosenIffSomeFits(es, sc, ls, x);
    forall i | 0 <= i < |ls|
      ensures UpToDate(es, sc, ls[i]) ==> UpToDate(after, sc, ls[i])
      ensures !UpToDate(es, sc, ls[i]) && UpToDate(after, sc, ls[i]) <==> ChangeFor(sc, ls[i], x) in Chosen(es, sc, ls, x)
    {
      LocalsArrive(es, sc, ls, remotePaths, h, x, i);
      OutdatedIsAdd(es, sc, ls, x, i);
      ChosenOrRejected(es, sc, ls, x, ChangeFor(sc, ls[i], x));
    }
    if Chosen(es, sc, ls, x) != [] {
      var c := Chosen(es, sc, ls, x)[0];
      ChosenOrRejected(es, sc, ls, x, c);
      AddsExactly(es, sc, ls, x, c);
      var i :| 0 <= i < |ls| && !UpToDate(es, sc, ls[i]) && c == ChangeFor(sc, ls[i], x);
      assert ChangeFor(sc, ls[i], x) in Chosen(es, sc, ls, x);
    }
  }

  // ---------- deletes and existing files ----------

  /** The scanned files of the scope. */
  ghost predicate AreScanned(ls: seq<LocalEntry>, root: Node, h: Instruction, skip: string -> bool) {
    forall r :: IsLocal(ls, r) <==> Scanned(root, h, skip, r)
  }

  /** The remote entry of a path that is not local is deleted exactly if the instruction speaks for the path: it is empty, it
      lists the path as a file or as missing, or the path lies at or below one of its subtrees and within that one's depth. */
  lemma AbsentIsDeleted(es: Remote, sc: Scope, ls: seq<LocalEntry>, remotePaths: seq<string>, h: Instruction, x: Hashing, r: string)
    requires RemotePathsOf(es, sc, remotePaths) && DistinctLocals(ls) && FileKey(sc, r) in es && !IsLocal(ls, r)
    ensures FileKey(sc, r) !in Applied(es, PlanFor(es, sc, ls, remotePaths, h, x)) <==>
      (h.subtrees == [] && h.files == [] && h.knownMissing == []) || r in h.files || r in h.knownMissing
      || exists t :: t in h.subtrees && Within(r, t.relPath) && (t.maxDepth < 0 || Depth(Remaining(r, t.relPath)) <= t.maxDepth + 1)
  {
    hide PlanFor, Applied, Within, IsLocal;
    OthersLeaveOrStay(es, sc, ls, remotePaths, h, x, FileKey(sc, r));
  }

  /** With the instruction it scanned for, the client never deletes the remote entry of a file that exists, is not
      excluded and is not known as missing to the server, unless the file stands at the root of one of the subtrees. */
  lemma DeletesAreSafe(es: Remote, sc: Scope, ls: seq<LocalEntry>, remotePaths: seq<string>, h: Instruction, x: Hashing,
                       root: Node, skip: string -> bool, r: string)
    requires RemotePathsOf(es, sc, remotePaths) && AreScanned(ls, root, h, skip) && DistinctLocals(ls)
    requires FileAt(root, r) && !skip(r) && r !in h.knownMissing && !IsWholeScope(h)
    requires forall i :: 0 <= i < |h.subtrees| ==> h.subtrees[i].relPath != r
    requires FileKey(sc, r) in es
    ensures FileKey(sc, r) in Applied(es, PlanFor(es, sc, ls, remotePaths, h, x))
  {
    hide PlanFor, Applied, Scanned, WithinSubtree;
    if !IsLocal(ls, r) {
      OthersLeaveOrStay(es, sc, ls, remotePaths, h, x, FileKey(sc, r));
      if Covered(r, h) { MissedExactly(root, h, skip, r); }
    } else {
      var i :| 0 <= i < |ls| && ls[i].relPath == r;
      LocalsArrive(es, sc, ls, remotePaths, h, x, i);
    }
  }

  /** The initial sync scans for the instruction but diffs against the whole scope: there the remote entry of an existing,
      not excluded file is deleted exactly if the instruction does not lead the scan to it. */
  lemma InitialSyncDeletes(es: Remote, sc: Scope, ls: seq<LocalEntry>, remotePaths: seq<string>, h: Instruction, x: Hashing,
                           root: Node, skip: string -> bool, r: string)
    requires RemotePathsOf(es, sc, remotePaths) && AreScanned(ls, root, h, skip) && DistinctLocals(ls)
    requires FileAt(root, r) && !skip(r) && FileKey(sc, r) in es
    ensures FileKey(sc, r) !in Applied(es, PlanFor(es, sc, ls, remotePaths, Instruction([], [], []), x)) <==>
      r in h.knownMissing || (r !in h.files && !BelowSome(r, h.subtrees))
  {
    hide PlanFor, Applied, WithinSubtree;
    var whole := Instruction([], [], []);
    if !IsLocal(ls, r) {
      OthersLeaveOrStay(es, sc, ls, remotePaths, whole, x, FileKey(sc, r));
    } else {
      var i :| 0 <= i < |ls| && ls[i].relPath == r;
      LocalsArrive(es, sc, ls, remotePaths, whole, x, i);
    }
    assert IsLocal(ls, r) <==> Scanned(root, h, skip, r);
  }
}
