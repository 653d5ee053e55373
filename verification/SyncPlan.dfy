/** The walk instruction the server computes from a device's access ledger. */
module SyncPlan {
  import opened StringOrder
  import opened Paths
  import opened AccessLedger
  import opened Instructions

  /** With an empty ledger the plan is the seed whitelist; else one instruction for `~/.claude`, and `~/.claude.json` whole. */
  datatype Plan = SeedWhitelist | Scopes(home: Instruction, claudeJson: Instruction)

  function Root(homedir: string): string {
    homedir + "/.claude"
  }

  /** `path.join(root, rel)` for a path of the scope. */
  function Abs(root: string, r: string): string {
    if r == "" then root else root + "/" + r
  }

  function Rel(root: string, p: string): string
    requires AtOrUnder(p, root)
  {
    if p == root then ""
    else
      UnderShape(p, root);
      p[|root| + 1..]
  }

  lemma AbsRel(root: string, p: string)
    requires AtOrUnder(p, root) && AbsPath(p)
    ensures Abs(root, Rel(root, p)) == p && ScopePath(Rel(root, p))
  {
    UnderShape(p, root);
    if p != root {
      var r := Rel(root, p);
      assert p == p[..|root|] + [p[|root|]] + r;
      assert r != "" by { assert p[|p| - 1] != '/'; }
      forall i | 0 <= i < |"/" + r| - 1 ensures !(("/" + r)[i] == '/' && ("/" + r)[i + 1] == '/') {
        assert ("/" + r)[i] == p[|root| + i] && ("/" + r)[i + 1] == p[|root| + i + 1];
      }
    }
  }

  lemma RelAbs(root: string, r: string)
    ensures AtOrUnder(Abs(root, r), root) && Rel(root, Abs(root, r)) == r
  {
    UnderShape(Abs(root, r), root);
  }

  /** Containment among scope paths is containment among the absolute ones. */
  lemma AbsWithin(root: string, r: string, a: string)
    ensures AtOrUnder(Abs(root, r), Abs(root, a)) <==> Within(r, a)
  {
    UnderShape(Abs(root, r), Abs(root, a));
    UnderShape(r, a);
    if a == "" {
      RelAbs(root, r);
    } else if r != "" && |a| < |r| {
      assert Abs(root, r)[..|Abs(root, a)|] == root + "/" + r[..|a|];
      assert root + "/" + r[..|a|] == root + "/" + a <==> r[..|a|] == a by {
        assert (root + "/" + r[..|a|])[|root| + 1..] == r[..|a|] && (root + "/" + a)[|root| + 1..] == a;
      }
    } else if r != "" {
      assert (root + "/" + r)[|root| + 1..] == r && (root + "/" + a)[|root| + 1..] == a;
    }
  }

  // ---------- what the plan says, in terms of the ledger ----------

  predicate IsDir(es: Entries, p: string) {
    p in es && es[p].Dir?
  }

  /** Stored directories of the scope at or above `p`. */
  predicate DirAbove(es: Entries, root: string, a: string, p: string) {
    IsDir(es, a) && AtOrUnder(a, root) && AtOrUnder(p, a)
  }

  ghost predicate UnderDir(es: Entries, root: string, p: string) {
    exists a :: DirAbove(es, root, a, p)
  }

  /** A stored directory with no other stored directory of the scope above it. */
  ghost predicate TopDir(es: Entries, root: string, p: string) {
    DirAbove(es, root, p, p) && forall a :: DirAbove(es, root, a, p) ==> a == p
  }

  function DepthFor(es: Entries, p: string): int
    requires IsDir(es, p)
  {
    if es[p].readdirObserved then -1 else 0
  }

  ghost predicate LooseFile(es: Entries, root: string, p: string) {
    p in es && es[p].File? && AtOrUnder(p, root) && !UnderDir(es, root, p)
  }

  /** Something that the plan names as a file or as missing lies below `r`. */
  ghost predicate AboveNamed(es: Entries, root: string, r: string) {
    exists s :: NamedBelow(es, root, s, r)
  }

  ghost predicate NamedBelow(es: Entries, root: string, s: string, r: string) {
    r != "" && Under(s, r) && (LooseFile(es, root, Abs(root, s)) || IsMissing(es, Abs(root, s)))
  }

  /** Ancestors that neither a subtree nor the ledger's missing paths account for. */
  ghost predicate Intermediate(es: Entries, root: string, r: string) {
    AboveNamed(es, root, r) && !IsMissing(es, Abs(root, r)) && !UnderDir(es, root, Abs(root, r))
  }

  /** What the instruction lists, exactly. */
  ghost predicate IsInstructionFor(h: Instruction, es: Entries, root: string) {
    && (forall r, d :: Subtree(r, d) in h.subtrees <==> TopDir(es, root, Abs(root, r)) && d == DepthFor(es, Abs(root, r)))
    && (forall r :: r in h.files <==> LooseFile(es, root, Abs(root, r)) || Intermediate(es, root, r))
    && (forall r :: r in h.knownMissing <==> IsMissing(es, Abs(root, r)))
  }

  // ---------- computing it ----------

  method IsUnderAnySubtree(absPath: string, subtrees: seq<Subtree>, root: string) returns (under: bool)
    ensures under <==> exists i :: 0 <= i < |subtrees| && AtOrUnder(absPath, Abs(root, subtrees[i].relPath))
  {
    var n := 0;
    while n < |subtrees|
      invariant 0 <= n <= |subtrees|
      invariant forall i :: 0 <= i < n ==> !AtOrUnder(absPath, Abs(root, subtrees[i].relPath))
    {
      var subtreeAbs := if subtrees[n].relPath != "" then root + "/" + subtrees[n].relPath else root;
      if absPath == subtreeAbs || StartsWith(absPath, subtreeAbs + "/") { return true; }
      n := n + 1;
    }
    under := false;
  }

  /** No component of a normalised path is ".". */
  predicate NoDot(r: string) {
    !AtOrUnder(r, ".")
  }

  /** Every directory strictly above a path of the scope, its root excepted. */
  method AncestorsOf(r: string) returns (ancestors: set<string>)
    requires RelPath(r) && NoDot(r)
    ensures forall a :: a in ancestors <==> a != "" && Under(r, a)
  {
    ancestors := {};
    var parent := Dirname(r);
    DirnameOfRel(r);
    while parent != "" && parent != "." && parent != "/"
      invariant parent == "." || (RelPath(parent) && Under(r, parent))
      invariant forall a :: a != "" && Under(r, a) <==> a in ancestors || (parent != "." && a != "" && AtOrUnder(parent, a))
      decreases if parent == "." then 0 else |parent|
    {
      ancestors := ancestors + {parent};
      UnderTransitive(r, parent, parent);
      DirnameOfRel(parent);
      DotAbove(r, parent);
      var next := Dirname(parent);
      if next == parent { break; }
      parent := next;
    }
    if parent != "." { NotSpecial(parent); }
  }

  lemma NotSpecial(r: string)
    requires RelPath(r)
    ensures r != "" && r != "/"
  {
    assert |r| >= 1 && ("/" + r)[|r|] == r[|r| - 1];
  }

  lemma DotAbove(r: string, parent: string)
    requires NoDot(r) && Under(r, parent)
    ensures NoDot(parent)
  {
    if AtOrUnder(parent, ".") { UnderTransitive(r, parent, "."); }
  }

  /** `dirname` of a path of the scope is its nearest ancestor, or "." if there is none. */
  lemma DirnameOfRel(r: string)
    requires RelPath(r) && NoDot(r)
    ensures var d := Dirname(r);
      && d != r && (d == "." || (RelPath(d) && Under(r, d) && |d| < |r|))
      && forall a :: a != "" && Under(r, a) <==> d != "." && a != "" && AtOrUnder(d, a)
  {
    var i := LastSlash(r);
    assert r[0] != '/' by { assert ("/" + r)[0] == '/' && ("/" + r)[1] == r[0]; }
    assert r[|r| - 1] != '/' by { assert ("/" + r)[|r|] == r[|r| - 1]; }
    if i < 0 {
      forall a | a != "" ensures !Under(r, a) { UnderShape(r, a); }
    } else {
      var d := r[..i];
      UnderShape(r, d);
      assert Under("/" + r, "/" + d) by { UnderShape("/" + r, "/" + d); }
      AncestorIsAbs("/" + r, "/" + d);
      assert d != "." by { UnderShape(r, "."); }
      forall a | a != "" ensures Under(r, a) <==> AtOrUnder(d, a) {
        UnderShape(r, a);
        UnderShape(d, a);
        if Under(r, a) { assert |a| <= i; if |a| < i { assert d[..|a|] == r[..|a|]; } else { assert a == d; } }
        if AtOrUnder(d, a) { UnderTransitive(r, d, a); }
      }
    }
  }

  /** The keys of the ledger below the scope's root are normalised. */
  predicate NoDots(es: Entries, root: string) {
    forall p :: p in es ==> !AtOrUnder(p, root + "/.")
  }

  /** The walk over the paths seen so far has listed what it should. */
  ghost predicate ListedSoFar(h: Instruction, es: Entries, root: string, seen: seq<string>) {
    SubtreesSoFar(h.subtrees, es, root, seen) && FilesSoFar(h.files, es, root, seen) && MissingSoFar(h.knownMissing, es, root, seen)
  }

  ghost predicate SubtreesSoFar(ts: seq<Subtree>, es: Entries, root: string, seen: seq<string>) {
    forall r, d :: Subtree(r, d) in ts <==> Abs(root, r) in seen && TopDir(es, root, Abs(root, r)) && d == DepthFor(es, Abs(root, r))
  }

  ghost predicate FilesSoFar(fs: seq<string>, es: Entries, root: string, seen: seq<string>) {
    forall r :: r in fs <==> Abs(root, r) in seen && LooseFile(es, root, Abs(root, r))
  }

  ghost predicate MissingSoFar(ms: seq<string>, es: Entries, root: string, seen: seq<string>) {
    forall r :: r in ms <==> Abs(root, r) in seen && IsMissing(es, Abs(root, r))
  }

  /** A stored directory above a path has a topmost one above it. */
  lemma {:induction false} TopAbove(es: Entries, root: string, a: string, p: string) returns (t: string)
    requires DirAbove(es, root, a, p)
    ensures TopDir(es, root, t) && AtOrUnder(p, t) && AtOrUnder(a, t)
    decreases |a|
  {
    if b :| DirAbove(es, root, b, a) && b != a {
      UnderShape(a, b);
      t := TopAbove(es, root, b, a);
      UnderTransitive(p, a, t);
    } else {
      t := a;
    }
  }

  ghost predicate OtherDirAbove(es: Entries, root: string, p: string) {
    exists a :: a != p && DirAbove(es, root, a, p)
  }

  /** Since ancestors sort before their descendants, the subtrees listed so far decide whether a path is below a
      directory of the ledger. */
  lemma ListedDecides(h: Instruction, es: Entries, root: string, seen: seq<string>, p: string)
    requires ListedSoFar(h, es, root, seen) && p in es && p !in seen && AtOrUnder(p, root)
    requires forall q :: q in es ==> AbsPath(q) && (Less(q, p) ==> q in seen)
    ensures (exists i :: 0 <= i < |h.subtrees| && AtOrUnder(p, Abs(root, h.subtrees[i].relPath))) <==> OtherDirAbove(es, root, p)
  {
    forall i | 0 <= i < |h.subtrees| && AtOrUnder(p, Abs(root, h.subtrees[i].relPath)) ensures OtherDirAbove(es, root, p) {
      var t := h.subtrees[i];
      assert Subtree(t.relPath, t.maxDepth) in h.subtrees;
      assert Abs(root, t.relPath) in seen && DirAbove(es, root, Abs(root, t.relPath), p);
    }
    if OtherDirAbove(es, root, p) {
      var a :| a != p && DirAbove(es, root, a, p);
      var t := TopAbove(es, root, a, p);
      UnderShape(p, a);
      UnderShape(a, t);
      UnderIsGreater(p, t);
      AbsRel(root, t);
      assert Subtree(Rel(root, t), DepthFor(es, t)) in h.subtrees;
    }
  }

  lemma OtherDirMeans(es: Entries, root: string, p: string)
    requires p in es && AtOrUnder(p, root)
    ensures es[p].Dir? ==> (TopDir(es, root, p) <==> !OtherDirAbove(es, root, p))
    ensures es[p].File? ==> (LooseFile(es, root, p) <==> !OtherDirAbove(es, root, p))
  {}

  /** Outside the scope, `p` is no scope path's absolute path; inside, it is exactly one's. */
  ghost predicate NamesOnly(root: string, p: string, r: string) {
    forall q :: Abs(root, q) == p <==> AtOrUnder(p, root) && q == r
  }

  lemma NamesOnlyRel(root: string, p: string)
    requires AbsPath(p)
    ensures NamesOnly(root, p, if AtOrUnder(p, root) then Rel(root, p) else "")
  {
    if AtOrUnder(p, root) { AbsRel(root, p); }
    forall q ensures Abs(root, q) == p ==> AtOrUnder(p, root) && q == Rel(root, p) { RelAbs(root, q); }
  }

  lemma MissingOneMore(ms: seq<string>, es: Entries, root: string, seen: seq<string>, p: string, r: string)
    requires MissingSoFar(ms, es, root, seen) && p !in seen && NamesOnly(root, p, r)
    ensures MissingSoFar(if AtOrUnder(p, root) && IsMissing(es, p) then ms + [r] else ms, es, root, seen + [p])
  {
    hide AtOrUnder, Abs, IsMissing;
  }

  lemma FilesOneMore(fs: seq<string>, es: Entries, root: string, seen: seq<string>, p: string, r: string)
    requires FilesSoFar(fs, es, root, seen) && p !in seen && NamesOnly(root, p, r)
    ensures FilesSoFar(if AtOrUnder(p, root) && LooseFile(es, root, p) then fs + [r] else fs, es, root, seen + [p])
  {
    hide AtOrUnder, Abs, LooseFile;
  }

  lemma SubtreesOneMore(ts: seq<Subtree>, es: Entries, root: string, seen: seq<string>, p: string, r: string)
    requires SubtreesSoFar(ts, es, root, seen) && p !in seen && NamesOnly(root, p, r)
    ensures SubtreesSoFar(if AtOrUnder(p, root) && TopDir(es, root, p) then ts + [Subtree(r, DepthFor(es, p))] else ts, es, root, seen + [p])
  {
    hide AtOrUnder, Abs, DirAbove;
  }

  /** One more path of the ledger, listed where it belongs. */
  lemma ListedOneMore(h: Instruction, k: Instruction, es: Entries, root: string, seen: seq<string>, p: string)
    requires ListedSoFar(h, es, root, seen) && p !in seen && p in es && AbsPath(p)
    requires k == if AtOrUnder(p, root) then Listed(h, es, root, p) else h
    ensures ListedSoFar(k, es, root, seen + [p])
  {
    hide AtOrUnder, SubtreesSoFar, FilesSoFar, MissingSoFar, NamesOnly, OtherDirAbove;
    var r := if AtOrUnder(p, root) then Rel(root, p) else "";
    NamesOnlyRel(root, p);
    MissingOneMore(h.knownMissing, es, root, seen, p, r);
    FilesOneMore(h.files, es, root, seen, p, r);
    SubtreesOneMore(h.subtrees, es, root, seen, p, r);
    if AtOrUnder(p, root) { OtherDirMeans(es, root, p); }
  }

  ghost function Listed(h: Instruction, es: Entries, root: string, p: string): Instruction
    requires p in es && AtOrUnder(p, root)
  {
    var r := Rel(root, p);
    if es[p].Missing? then h.(knownMissing := h.knownMissing + [r])
    else if OtherDirAbove(es, root, p) then h
    else if es[p].Dir? then h.(subtrees := h.subtrees + [Subtree(r, DepthFor(es, p))])
    else h.(files := h.files + [r])
  }

  /** The loop body: lists one path of the ledger. */
  method ListPath(h: Instruction, es: Entries, root: string, absPath: string, claudeJson: string) returns (k: Instruction)
    requires absPath in es && !AtOrUnder(claudeJson, root)
    requires AtOrUnder(absPath, root) ==>
      ((exists i :: 0 <= i < |h.subtrees| && AtOrUnder(absPath, Abs(root, h.subtrees[i].relPath))) <==> OtherDirAbove(es, root, absPath))
    ensures k == if AtOrUnder(absPath, root) then Listed(h, es, root, absPath) else h
  {
    k := h;
    if absPath == claudeJson { return; }
    if absPath != root && !StartsWith(absPath, root + "/") { return; }
    var relPath := if absPath == root then "" else absPath[|root + "/"|..];
    if es[absPath].Missing? { return h.(knownMissing := h.knownMissing + [relPath]); }
    var under := IsUnderAnySubtree(absPath, h.subtrees, root);
    if under { return; }
    if es[absPath].Dir? && es[absPath].readdirObserved {
      k := h.(subtrees := h.subtrees + [Subtree(relPath, -1)]);
    } else if es[absPath].Dir? {
      k := h.(subtrees := h.subtrees + [Subtree(relPath, 0)]);
    } else if es[absPath].File? {
      k := h.(files := h.files + [relPath]);
    }
  }

  method ListLedger(es: Entries, allPaths: seq<string>, root: string, claudeJson: string) returns (h: Instruction)
    requires Sorted(allPaths) && Elems(allPaths) == es.Keys && (forall p :: p in es ==> AbsPath(p)) && !AtOrUnder(claudeJson, root)
    ensures ListedSoFar(h, es, root, allPaths)
  {
    h := Instruction([], [], []);
    var n := 0;
    while n < |allPaths|
      invariant 0 <= n <= |allPaths|
      invariant ListedSoFar(h, es, root, allPaths[..n])
    {
      ghost var before, seen := h, allPaths[..n];
      SeenIsBefore(es, allPaths, n);
      hide ListedSoFar, Listed, AbsPath;
      if AtOrUnder(allPaths[n], root) { ListedDecides(h, es, root, seen, allPaths[n]); }
      h := ListPath(h, es, root, allPaths[n], claudeJson);
      ListedOneMore(before, h, es, root, seen, allPaths[n]);
      assert allPaths[..n + 1] == seen + [allPaths[n]];
      n := n + 1;
    }
    assert allPaths[..n] == allPaths;
  }

  lemma SeenIsBefore(es: Entries, allPaths: seq<string>, n: nat)
    requires Sorted(allPaths) && Elems(allPaths) == es.Keys && n < |allPaths|
    ensures allPaths[n] in es && allPaths[n] !in allPaths[..n]
    ensures forall q :: q in es && Less(q, allPaths[n]) ==> q in allPaths[..n]
  {
    assert allPaths[n] in Elems(allPaths);
    forall i | 0 <= i < n ensures allPaths[i] != allPaths[n] { Irreflexive(allPaths[n]); }
    forall q | q in es && Less(q, allPaths[n]) ensures q in allPaths[..n] {
      var i :| 0 <= i < |allPaths| && allPaths[i] == q;
      Irreflexive(q);
      if i > n { Asymmetric(q, allPaths[n]); }
      assert allPaths[..n][i] == q;
    }
  }

  predicate InSubtree(h: Instruction, root: string, r: string) {
    exists i :: 0 <= i < |h.subtrees| && AtOrUnder(Abs(root, r), Abs(root, h.subtrees[i].relPath))
  }

  predicate AboveSeed(seeds: seq<string>, r: string) {
    r != "" && exists i :: 0 <= i < |seeds| && Under(seeds[i], r)
  }

  /** Adds the directories above every listed file and missing path that nothing else accounts for. */
  method CollectIntermediateAncestors(h: Instruction, root: string) returns (files: seq<string>)
    requires forall r :: r in h.files + h.knownMissing && r != "" ==> RelPath(r) && NoDot(r)
    ensures forall r :: r in files <==>
      r in h.files || (AboveSeed(h.files + h.knownMissing, r) && r !in h.knownMissing && !InSubtree(h, root, r))
  {
    var ancestors: set<string> := {};
    var seeds := h.files + h.knownMissing;
    var n := 0;
    while n < |seeds|
      invariant 0 <= n <= |seeds|
      invariant forall r :: r in ancestors <==> AboveSeed(seeds[..n], r)
    {
      assert seeds[n] in seeds;
      ghost var before := ancestors;
      if seeds[n] != "" {
        var more := AncestorsOf(seeds[n]);
        ancestors := ancestors + more;
      }
      forall r ensures r in ancestors <==> AboveSeed(seeds[..n + 1], r) {
        UnderShape("", r);
        AboveOneMore(seeds, n, r);
      }
      n := n + 1;
    }
    assert seeds[..n] == seeds;
    files := h.files;
    var left := ancestors;
    while left != {}
      invariant left <= ancestors
      invariant forall r :: r in files <==>
        r in h.files || (r in ancestors && r !in left && r !in h.knownMissing && !InSubtree(h, root, r))
      decreases left
    {
      var r :| r in left;
      var under := IsUnderAnySubtree(root + "/" + r, h.subtrees, root);
      assert under == InSubtree(h, root, r);
      if r !in h.files && !under && r !in h.knownMissing { files := files + [r]; }
      left := left - {r};
    }
  }

  lemma AboveOneMore(seeds: seq<string>, n: nat, r: string)
    requires n < |seeds|
    ensures AboveSeed(seeds[..n + 1], r) <==> AboveSeed(seeds[..n], r) || (r != "" && Under(seeds[n], r))
  {
    var more, less := seeds[..n + 1], seeds[..n];
    if AboveSeed(more, r) {
      var i :| 0 <= i < |more| && Under(more[i], r);
      assert i < n ==> less[i] == more[i];
    }
    if AboveSeed(less, r) {
      var i :| 0 <= i < |less| && Under(less[i], r);
      assert more[i] == less[i];
    }
    assert more[n] == seeds[n];
  }

  lemma InSubtreeIsUnderDir(h: Instruction, es: Entries, root: string, seen: seq<string>, r: string)
    requires SubtreesSoFar(h.subtrees, es, root, seen) && (forall q :: q in es ==> q in seen && AbsPath(q))
    ensures InSubtree(h, root, r) <==> UnderDir(es, root, Abs(root, r))
  {
    var p := Abs(root, r);
    if InSubtree(h, root, r) {
      var i :| 0 <= i < |h.subtrees| && AtOrUnder(p, Abs(root, h.subtrees[i].relPath));
      assert Subtree(h.subtrees[i].relPath, h.subtrees[i].maxDepth) in h.subtrees;
      assert DirAbove(es, root, Abs(root, h.subtrees[i].relPath), p);
    }
    if UnderDir(es, root, p) {
      var a :| DirAbove(es, root, a, p);
      var t := TopAbove(es, root, a, p);
      AbsRel(root, t);
      assert Subtree(Rel(root, t), DepthFor(es, t)) in h.subtrees;
    }
  }

  lemma AboveSeedIsAboveNamed(h: Instruction, es: Entries, root: string, seen: seq<string>, r: string)
    requires FilesSoFar(h.files, es, root, seen) && MissingSoFar(h.knownMissing, es, root, seen) && (forall q :: q in es ==> q in seen)
    ensures AboveSeed(h.files + h.knownMissing, r) <==> AboveNamed(es, root, r)
  {
    hide Under, Abs, UnderDir;
    var seeds := h.files + h.knownMissing;
    if AboveSeed(seeds, r) {
      var i :| 0 <= i < |seeds| && Under(seeds[i], r);
      assert seeds[i] in h.files || seeds[i] in h.knownMissing;
      assert NamedBelow(es, root, seeds[i], r);
    }
    if AboveNamed(es, root, r) {
      var s :| NamedBelow(es, root, s, r);
      assert s in seeds;
      var i :| 0 <= i < |seeds| && seeds[i] == s;
    }
  }

  lemma ListedIsNormal(h: Instruction, es: Entries, root: string, seen: seq<string>, r: string)
    requires ListedSoFar(h, es, root, seen) && r in h.files + h.knownMissing && r != "" && NoDots(es, root)
    requires forall q :: q in es ==> AbsPath(q)
    ensures RelPath(r) && NoDot(r)
  {
    assert Abs(root, r) in es;
    AbsRel(root, Abs(root, r)) by { RelAbs(root, r); }
    RelAbs(root, r);
    AbsWithin(root, r, ".");
  }

  lemma FinalInstruction(h: Instruction, files: seq<string>, es: Entries, root: string, seen: seq<string>)
    requires ListedSoFar(h, es, root, seen) && (forall q :: q in es <==> q in seen) && (forall q :: q in es ==> AbsPath(q))
    requires forall r :: r in files <==>
      r in h.files || (AboveSeed(h.files + h.knownMissing, r) && r !in h.knownMissing && !InSubtree(h, root, r))
    ensures IsInstructionFor(h.(files := files), es, root)
  {
    forall r ensures InSubtree(h, root, r) <==> UnderDir(es, root, Abs(root, r)) {
      InSubtreeIsUnderDir(h, es, root, seen, r);
    }
    forall r ensures AboveSeed(h.files + h.knownMissing, r) <==> AboveNamed(es, root, r) {
      AboveSeedIsAboveNamed(h, es, root, seen, r);
    }
    hide InSubtree, AboveSeed, AboveNamed, UnderDir, Abs, AtOrUnder;
  }

  /** The plan for a ledger whose sorted path list holds exactly its keys. */
  method ComputeSyncPlan(es: Entries, allPaths: seq<string>, homedir: string) returns (plan: Plan)
    requires Sorted(allPaths) && Elems(allPaths) == es.Keys && (forall p :: p in es ==> AbsPath(p)) && NoDots(es, Root(homedir))
    ensures plan.SeedWhitelist? <==> es == map[]
    ensures plan.Scopes? ==> IsInstructionFor(plan.home, es, Root(homedir)) && plan.claudeJson == Instruction([Subtree("", 0)], [], [])
  {
    if |allPaths| == 0 { return SeedWhitelist; }
    assert allPaths[0] in Elems(allPaths);
    var root := Root(homedir);
    JsonIsOutside(homedir);
    var h := ListLedger(es, allPaths, root, homedir + "/.claude.json");
    forall r | r in h.files + h.knownMissing && r != "" ensures RelPath(r) && NoDot(r) {
      ListedIsNormal(h, es, root, allPaths, r);
    }
    var files := CollectIntermediateAncestors(h, root);
    assert forall q :: q in es <==> q in Elems(allPaths);
    FinalInstruction(h, files, es, root, allPaths);
    plan := Scopes(h.(files := files), Instruction([Subtree("", 0)], [], []));
  }

  lemma JsonIsOutside(homedir: string)
    ensures !AtOrUnder(homedir + "/.claude.json", Root(homedir))
  {
    var json, root := homedir + "/.claude.json", homedir + "/.claude";
    UnderShape(json, root);
    assert json[|root|] == '.';
  }

  // ---------- what follows ----------

  /** The plan's subtrees are pairwise non-nested. */
  lemma SubtreesNotNested(h: Instruction, es: Entries, root: string, i: nat, j: nat)
    requires IsInstructionFor(h, es, root) && i < |h.subtrees| && j < |h.subtrees|
    requires Within(h.subtrees[j].relPath, h.subtrees[i].relPath)
    ensures h.subtrees[j] == h.subtrees[i]
  {
    var s, t := h.subtrees[i], h.subtrees[j];
    assert Subtree(s.relPath, s.maxDepth) in h.subtrees && Subtree(t.relPath, t.maxDepth) in h.subtrees;
    AbsWithin(root, t.relPath, s.relPath);
    assert DirAbove(es, root, Abs(root, s.relPath), Abs(root, t.relPath));
    RelAbs(root, s.relPath);
    RelAbs(root, t.relPath);
  }

  ghost predicate BelowSubtree(h: Instruction, r: string) {
    exists i :: 0 <= i < |h.subtrees| && Within(r, h.subtrees[i].relPath)
  }

  lemma BelowSubtreeIsUnderDir(h: Instruction, es: Entries, root: string, r: string)
    requires IsInstructionFor(h, es, root) && forall q :: q in es ==> AbsPath(q)
    ensures BelowSubtree(h, r) <==> UnderDir(es, root, Abs(root, r))
  {
    var p := Abs(root, r);
    forall i | 0 <= i < |h.subtrees| && Within(r, h.subtrees[i].relPath) ensures UnderDir(es, root, p) {
      assert Subtree(h.subtrees[i].relPath, h.subtrees[i].maxDepth) in h.subtrees;
      AbsWithin(root, r, h.subtrees[i].relPath);
      assert DirAbove(es, root, Abs(root, h.subtrees[i].relPath), p);
    }
    if UnderDir(es, root, p) {
      var a :| DirAbove(es, root, a, p);
      var t := TopAbove(es, root, a, p);
      AbsRel(root, t);
      AbsWithin(root, r, Rel(root, t));
      assert Subtree(Rel(root, t), DepthFor(es, t)) in h.subtrees;
    }
  }

  /** Every present path of the scope is a listed file or lies at or below a subtree, never both; the missing ones are
      exactly the known-missing ones; and no listed file, stored or not, lies at or below a subtree. */
  lemma PresentListedOnce(h: Instruction, es: Entries, root: string, p: string)
    requires IsInstructionFor(h, es, root) && (forall q :: q in es ==> AbsPath(q)) && p in es && AtOrUnder(p, root)
    ensures var r := Rel(root, p);
      if es[p].Missing? then r in h.knownMissing && r !in h.files
      else r !in h.knownMissing && (r in h.files <==> !BelowSubtree(h, r))
  {
    AbsRel(root, p);
    BelowSubtreeIsUnderDir(h, es, root, Rel(root, p));
    assert es[p].Dir? ==> DirAbove(es, root, p, p);
  }

  lemma ListedFileNotBelow(h: Instruction, es: Entries, root: string, r: string)
    requires IsInstructionFor(h, es, root) && (forall q :: q in es ==> AbsPath(q)) && r in h.files
    ensures !BelowSubtree(h, r) && r !in h.knownMissing
  {
    BelowSubtreeIsUnderDir(h, es, root, r);
  }

  /** Every directory above a listed file or missing path is itself a listed file, known missing, or at or below a
      subtree. */
  lemma AncestorsAccountedFor(h: Instruction, es: Entries, root: string, r: string, a: string)
    requires IsInstructionFor(h, es, root) && (forall q :: q in es ==> AbsPath(q))
    requires r in h.files || r in h.knownMissing
    requires a != "" && Under(r, a)
    ensures a in h.files || a in h.knownMissing || BelowSubtree(h, a)
  {
    BelowSubtreeIsUnderDir(h, es, root, a);
    if Intermediate(es, root, r) {
      var s :| NamedBelow(es, root, s, r);
      UnderTransitive(s, r, a);
      assert NamedBelow(es, root, s, a);
    } else {
      assert NamedBelow(es, root, r, a);
    }
  }

  /** The plan ignores depths when it decides what a subtree takes care of, the client does not: a present file is covered
      by the instruction exactly if no unlisted directory lies between it and a topmost directory that was never read. */
  lemma PresentFileCovered(h: Instruction, es: Entries, root: string, p: string)
    requires IsInstructionFor(h, es, root) && (forall q :: q in es ==> AbsPath(q)) && p in es && es[p].File? && AtOrUnder(p, root)
    ensures var r := Rel(root, p);
      Covered(r, h) <==> !(exists t :: TooDeep(es, root, t, r))
  {
    hide Depth;
    var r := Rel(root, p);
    AbsRel(root, p);
    PresentListedOnce(h, es, root, p);
    BelowSubtreeIsUnderDir(h, es, root, r);
    if UnderDir(es, root, p) {
      var a :| DirAbove(es, root, a, p);
      var t := TopAbove(es, root, a, p);
      AbsRel(root, t);
      AbsWithin(root, r, Rel(root, t));
      assert Subtree(Rel(root, t), DepthFor(es, t)) in h.subtrees;
      forall u | TopDir(es, root, u) && AtOrUnder(p, u) ensures u == t { TopsAgree(es, root, t, u, p); }
      CoveredByTop(h, es, root, r, t);
    } else {
      assert r in h.files;
      forall t ensures !TooDeep(es, root, t, r) {
        AbsWithin(root, r, t);
        assert TopDir(es, root, Abs(root, t)) && AtOrUnder(p, Abs(root, t)) ==> DirAbove(es, root, Abs(root, t), p);
      }
    }
  }

  /** A directory that was seen but never read, without another one above it, two or more levels above `r`. */
  ghost predicate TooDeep(es: Entries, root: string, t: string, r: string) {
    TopDir(es, root, Abs(root, t)) && !es[Abs(root, t)].readdirObserved && Within(r, t) && Depth(Remaining(r, t)) > 1
  }

  lemma TopsAgree(es: Entries, root: string, t: string, u: string, p: string)
    requires TopDir(es, root, t) && TopDir(es, root, u) && AtOrUnder(p, t) && AtOrUnder(p, u)
    ensures t == u
  {
    AncestorsLinear(p, t, u);
    assert AtOrUnder(t, u) ==> DirAbove(es, root, u, t);
    assert AtOrUnder(u, t) ==> DirAbove(es, root, t, u);
  }

  lemma CoveredByTop(h: Instruction, es: Entries, root: string, r: string, t: string)
    requires IsInstructionFor(h, es, root) && TopDir(es, root, t) && AtOrUnder(Abs(root, r), t) && AbsPath(t)
    requires r !in h.files && r !in h.knownMissing
    requires forall u :: TopDir(es, root, u) && AtOrUnder(Abs(root, r), u) ==> u == t
    ensures Covered(r, h) <==> !(exists u :: TooDeep(es, root, u, r))
  {
    hide Depth, Remaining;
    AbsRel(root, t);
    var top := Subtree(Rel(root, t), DepthFor(es, t));
    AbsWithin(root, r, top.relPath);
    assert top in h.subtrees;
    forall i | 0 <= i < |h.subtrees| && Within(r, h.subtrees[i].relPath) ensures h.subtrees[i] == top {
      var s := h.subtrees[i];
      assert Subtree(s.relPath, s.maxDepth) in h.subtrees;
      AbsWithin(root, r, s.relPath);
      RelAbs(root, s.relPath);
    }
    var i :| 0 <= i < |h.subtrees| && h.subtrees[i] == top;
    assert CoveredBySome(r, h.subtrees) <==> WithinSubtree(r, top);
    forall u | TooDeep(es, root, u, r) ensures u == top.relPath {
      AbsWithin(root, r, u);
      RelAbs(root, u);
    }
    assert TooDeep(es, root, top.relPath, r) <==> !WithinSubtree(r, top);
  }
}
