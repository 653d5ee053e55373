/** The client's directory walk: a finite tree, depth limits, pruning, and what the walk returns. */
module Walk {
  import opened Options
  import opened StringOrder
  import opened Paths
  import opened Instructions
  import opened ScanFilter

  datatype Node =
    | FileNode(size: nat, mtime: int)
    | DirNode(entries: seq<DirEnt>)
    | OtherNode

  datatype DirEnt = DirEnt(name: string, node: Node)

  datatype LocalEntry = LocalEntry(relPath: string, size: nat, mtime: int)

  predicate DistinctLocals(ls: seq<LocalEntry>) {
    forall i, j :: 0 <= i < j < |ls| ==> ls[i].relPath != ls[j].relPath
  }

  /** Directory entries have distinct, non-empty names without '/'. */
  predicate WellNamed(node: Node) {
    node.DirNode? ==>
      && (forall i :: 0 <= i < |node.entries| ==> PlainName(node.entries[i].name) && WellNamed(node.entries[i].node))
      && (forall i, j :: 0 <= i < j < |node.entries| ==> node.entries[i].name != node.entries[j].name)
  }

  /** What the path `r` names in the tree whose root stands at `at`. */
  function Lookup(node: Node, at: string, r: string): Option<Node>
    decreases node, 1, 0
  {
    if r == at then Some(node)
    else if node.DirNode? then LookupFrom(node, at, r, 0)
    else None
  }

  function LookupFrom(node: Node, at: string, r: string, i: nat): Option<Node>
    requires node.DirNode? && i <= |node.entries|
    decreases node, 0, |node.entries| - i
  {
    if i == |node.entries| then None
    else if AtOrUnder(r, Child(at, node.entries[i].name)) then Lookup(node.entries[i].node, Child(at, node.entries[i].name), r)
    else LookupFrom(node, at, r, i + 1)
  }

  // ---------- facts about paths and the tree ----------

  lemma ChildWithin(at: string, name: string)
    requires PlainName(name)
    ensures Within(Child(at, name), at) && Child(at, name) != at && Child(at, name) != ""
  {
    UnderShape(Child(at, name), at);
  }

  /** A path lies at or below one child only. */
  lemma ChildrenAreApart(at: string, m: string, n: string, r: string)
    requires PlainName(m) && PlainName(n) && AtOrUnder(r, Child(at, m)) && AtOrUnder(r, Child(at, n))
    ensures m == n
  {
    AncestorsLinear(r, Child(at, m), Child(at, n));
    ChildNotBelowSibling(at, m, n);
    ChildNotBelowSibling(at, n, m);
    SameChild(at, m, n);
  }

  lemma SameChild(at: string, m: string, n: string)
    ensures Child(at, m) == Child(at, n) ==> m == n
  {
    assert (at + "/" + m)[|at| + 1..] == m && (at + "/" + n)[|at| + 1..] == n;
  }

  lemma ChildNotBelowSibling(at: string, m: string, n: string)
    requires PlainName(m) && PlainName(n)
    ensures !Under(Child(at, m), Child(at, n))
  {
    var c, d := Child(at, m), Child(at, n);
    UnderShape(c, d);
    var k := if at == "" then |d| else |d| - |at| - 1;
    assert |d| < |c| ==> 0 <= k < |m| && c[|d|] == m[k] && m[k] in m;
  }

  lemma WithinTransitive(r: string, s: string, t: string)
    requires Within(r, s) && Within(s, t)
    ensures Within(r, t)
  {
    if t != "" && s != "" { UnderTransitive(r, s, t); }
    if t != "" && s == "" { UnderShape(s, t); }
  }

  /** What a lookup finds below a directory it finds through one child. */
  lemma {:induction false} LookupThroughChild(node: Node, at: string, r: string, i: nat, k: nat)
    requires node.DirNode? && WellNamed(node) && i <= k < |node.entries| && AtOrUnder(r, Child(at, node.entries[k].name))
    ensures LookupFrom(node, at, r, i) == Lookup(node.entries[k].node, Child(at, node.entries[k].name), r)
    decreases k - i
  {
    hide Under, Child;
    if i < k {
      if AtOrUnder(r, Child(at, node.entries[i].name)) {
        ChildrenAreApart(at, node.entries[i].name, node.entries[k].name, r);
      }
      LookupThroughChild(node, at, r, i + 1, k);
    }
  }

  lemma {:induction false} LookupNowhere(node: Node, at: string, r: string, i: nat)
    requires node.DirNode? && i <= |node.entries|
    requires forall k :: i <= k < |node.entries| ==> !AtOrUnder(r, Child(at, node.entries[k].name))
    ensures LookupFrom(node, at, r, i) == None
    decreases |node.entries| - i
  {
    if i < |node.entries| { LookupNowhere(node, at, r, i + 1); }
  }

  /** What is found lies at or below where the search started. */
  lemma {:induction false} FoundWithin(node: Node, at: string, r: string)
    requires WellNamed(node) && Lookup(node, at, r).Some?
    ensures Within(r, at)
    decreases node
  {
    if r != at && node.DirNode? {
      if k :| 0 <= k < |node.entries| && AtOrUnder(r, Child(at, node.entries[k].name)) {
        LookupThroughChild(node, at, r, 0, k);
        ChildWithin(at, node.entries[k].name);
        WithinTransitive(r, Child(at, node.entries[k].name), at);
      } else {
        LookupNowhere(node, at, r, 0);
      }
    }
  }

  /** A lookup can be continued from any directory on the way. */
  lemma {:induction false} LookupFromThere(node: Node, at: string, s: string, r: string)
    requires WellNamed(node) && Lookup(node, at, s).Some? && Within(r, s)
    ensures Lookup(node, at, r) == Lookup(Lookup(node, at, s).value, s, r)
    decreases node
  {
    if s != at {
      if k :| 0 <= k < |node.entries| && AtOrUnder(s, Child(at, node.entries[k].name)) {
        var c := Child(at, node.entries[k].name);
        LookupThroughChild(node, at, s, 0, k);
        ChildWithin(at, node.entries[k].name);
        FoundWithin(node.entries[k].node, c, s);
        assert s != "" by { UnderShape(s, c); }
        UnderTransitive(r, s, c);
        LookupThroughChild(node, at, r, 0, k);
        LookupFromThere(node.entries[k].node, c, s, r);
        NotAbove(r, s, c, at, node.entries[k].name);
      } else {
        LookupNowhere(node, at, s, 0);
      }
    }
  }

  lemma NotAbove(r: string, s: string, c: string, at: string, name: string)
    requires c == Child(at, name) && PlainName(name) && AtOrUnder(s, c) && AtOrUnder(r, s)
    ensures r != at
  {
    UnderShape(s, c);
    UnderShape(r, s);
  }

  // ---------- the walk ----------

  /** How deep below `at` a path lies. */
  function Below(r: string, at: string): nat
    requires Within(r, at)
  {
    Depth(Remaining(r, at))
  }

  lemma {:induction false} SlashesAfter(a: string, b: string)
    ensures Slashes(a + b) == Slashes(a) + Slashes(b)
  {
    if a == "" {
      assert a + b == b;
    } else {
      SlashesAfter(a[1..], b);
      assert (a + b)[1..] == a[1..] + b;
    }
  }

  lemma {:induction false} NoSlashes(a: string)
    requires '/' !in a
    ensures Slashes(a) == 0
  {
    if a != "" { assert a[0] in a; NoSlashes(a[1..]); }
  }

  /** What remains of a path below a directory, given what remains below the directory's child. */
  lemma RemainingChild(r: string, at: string, name: string)
    requires PlainName(name) && AtOrUnder(r, Child(at, name))
    ensures Within(r, at)
    ensures Remaining(r, at) == if r == Child(at, name) then name else name + "/" + Remaining(r, Child(at, name))
  {
    var c := Child(at, name);
    ChildWithin(at, name);
    WithinTransitive(r, c, at);
    UnderShape(r, c);
    UnderShape(r, at);
    if r != c { assert r == c + "/" + r[|c| + 1..]; }
  }

  /** A path is one component further below a directory than below the directory's child. */
  lemma BelowChild(r: string, at: string, name: string)
    requires PlainName(name) && AtOrUnder(r, Child(at, name)) && r != Child(at, name) + "/"
    ensures Within(r, at) && Below(r, at) == 1 + Below(r, Child(at, name))
  {
    RemainingChild(r, at, name);
    NoSlashes(name);
    var c := Child(at, name);
    if r != c {
      var rest := Remaining(r, c);
      BelowIsPositive(r, c);
      hide Under, Remaining;
      SlashesAfter(name + "/", rest);
      SlashesAfter(name, "/");
      OneSlash();
    }
  }

  lemma OneSlash()
    ensures Slashes("/") == 1
  {
    assert "/"[1..] == "";
  }

  lemma TrailingSlashNotFound(node: Node, c: string)
    requires WellNamed(node) && c != ""
    ensures Lookup(node, c, c + "/") == None
  {
    if node.DirNode? {
      forall k | 0 <= k < |node.entries| ensures !AtOrUnder(c + "/", Child(c, node.entries[k].name)) {
        UnderShape(c + "/", Child(c, node.entries[k].name));
      }
      LookupNowhere(node, c, c + "/", 0);
    }
  }

  /** What a walk from `at` may return: a file below `at`, not too deep, neither skipped nor known to be missing. */
  predicate Walked(node: Node, at: string, e: LocalEntry, skip: string -> bool, missing: set<string>, levels: int) {
    && e.relPath != at && Lookup(node, at, e.relPath) == Some(FileNode(e.size, e.mtime))
    && !skip(e.relPath) && e.relPath !in missing
    && (levels < 0 || (Within(e.relPath, at) && Below(e.relPath, at) <= levels + 1))
  }

  predicate InFirst(node: Node, at: string, r: string, n: nat)
    requires node.DirNode? && n <= |node.entries|
  {
    exists k :: 0 <= k < n && AtOrUnder(r, Child(at, node.entries[k].name))
  }

  /** Everything walked lies at or below one of the entries. */
  lemma WalkedInSome(node: Node, at: string, e: LocalEntry, skip: string -> bool, missing: set<string>, levels: int)
    requires node.DirNode? && WellNamed(node) && Walked(node, at, e, skip, missing, levels)
    ensures InFirst(node, at, e.relPath, |node.entries|)
  {
    if !InFirst(node, at, e.relPath, |node.entries|) { LookupNowhere(node, at, e.relPath, 0); }
  }

  /** What one directory entry contributes: itself if it is a file, or what is walked from it one level down. */
  predicate FromEntry(node: Node, at: string, k: nat, e: LocalEntry, skip: string -> bool, missing: set<string>, levels: int)
    requires node.DirNode? && k < |node.entries|
  {
    var c := Child(at, node.entries[k].name);
    match node.entries[k].node
    case FileNode(size, mtime) => !skip(c) && c !in missing && e == LocalEntry(c, size, mtime)
    case DirNode(_) =>
      !skip(c) && levels != 0 && Walked(node.entries[k].node, c, e, skip, missing, if levels < 0 then -1 else levels - 1)
    case OtherNode => false
  }

  lemma WalkedThroughEntry(node: Node, at: string, k: nat, e: LocalEntry, skip: string -> bool, missing: set<string>, levels: int)
    requires node.DirNode? && WellNamed(node) && k < |node.entries| && KeepsAncestors(skip) && levels >= -1
    requires AtOrUnder(e.relPath, Child(at, node.entries[k].name))
    ensures Walked(node, at, e, skip, missing, levels) <==> FromEntry(node, at, k, e, skip, missing, levels)
  {
    var name, x, r := node.entries[k].name, node.entries[k].node, e.relPath;
    var c := Child(at, name);
    LookupThroughChild(node, at, r, 0, k);
    ChildWithin(at, name);
    NotAbove(r, r, c, at, name);
    TrailingSlashNotFound(x, c);
    if r != c + "/" {
      BelowChild(r, at, name);
      assert Below(c, c) == 0;
      if r != c { BelowIsPositive(r, c); }
    }
  }

  lemma FromEntryIsBelow(node: Node, at: string, k: nat, e: LocalEntry, skip: string -> bool, missing: set<string>, levels: int)
    requires node.DirNode? && WellNamed(node) && k < |node.entries| && FromEntry(node, at, k, e, skip, missing, levels)
    ensures AtOrUnder(e.relPath, Child(at, node.entries[k].name))
  {
    ChildWithin(at, node.entries[k].name);
    if node.entries[k].node.DirNode? { FoundWithin(node.entries[k].node, Child(at, node.entries[k].name), e.relPath); }
  }

  /** One more directory entry. */
  lemma OneMoreEntry(node: Node, at: string, n: nat, e: LocalEntry, skip: string -> bool, missing: set<string>, levels: int)
    requires node.DirNode? && WellNamed(node) && n < |node.entries| && KeepsAncestors(skip) && levels >= -1
    ensures Walked(node, at, e, skip, missing, levels) && InFirst(node, at, e.relPath, n + 1) <==>
      (Walked(node, at, e, skip, missing, levels) && InFirst(node, at, e.relPath, n)) || FromEntry(node, at, n, e, skip, missing, levels)
  {
    hide Walked, FromEntry;
    if AtOrUnder(e.relPath, Child(at, node.entries[n].name)) {
      WalkedThroughEntry(node, at, n, e, skip, missing, levels);
    } else if FromEntry(node, at, n, e, skip, missing, levels) {
      FromEntryIsBelow(node, at, n, e, skip, missing, levels);
    }
  }

  lemma BelowIsPositive(r: string, c: string)
    requires Under(r, c) && c != "" && r != c + "/"
    ensures Within(r, c) && Below(r, c) >= 1 && Remaining(r, c) != ""
  {
    UnderShape(r, c);
    assert r == c + "/" + Remaining(r, c);
  }

  /** What one entry contributes lies elsewhere than what the entries before it contributed. */
  lemma ApartStaysDistinct(node: Node, at: string, n: nat, before: seq<LocalEntry>, more: seq<LocalEntry>)
    requires node.DirNode? && WellNamed(node) && n < |node.entries|
    requires DistinctLocals(before) && DistinctLocals(more)
    requires forall e :: e in before ==> InFirst(node, at, e.relPath, n)
    requires forall e :: e in more ==> AtOrUnder(e.relPath, Child(at, node.entries[n].name))
    ensures DistinctLocals(before + more)
  {
    forall i, j | 0 <= i < |before| && 0 <= j < |more| ensures before[i].relPath != more[j].relPath {
      var r := before[i].relPath;
      assert before[i] in before && more[j] in more;
      var k :| 0 <= k < n && AtOrUnder(r, Child(at, node.entries[k].name));
      if r == more[j].relPath { ChildrenAreApart(at, node.entries[k].name, node.entries[n].name, r); }
    }
  }

  /** The walk returns exactly the files it may. Its levels count down from the depth limit; -1 means no limit. */
  method WalkDir(node: Node, at: string, skip: string -> bool, missing: set<string>, maxDepth: int, currentDepth: nat)
    returns (out: seq<LocalEntry>)
    requires WellNamed(node) && KeepsAncestors(skip) && (maxDepth >= 0 ==> currentDepth <= maxDepth)
    ensures forall e :: e in out <==> Walked(node, at, e, skip, missing, if maxDepth < 0 then -1 else maxDepth - currentDepth)
    ensures DistinctLocals(out)
    decreases node
  {
    out := [];
    if !node.DirNode? { return; }
    ghost var levels := if maxDepth < 0 then -1 else maxDepth - currentDepth;
    var n := 0;
    while n < |node.entries|
      invariant 0 <= n <= |node.entries|
      invariant forall e :: e in out <==> Walked(node, at, e, skip, missing, levels) && InFirst(node, at, e.relPath, n)
      invariant DistinctLocals(out)
    {
      ghost var before := out;
      var more: seq<LocalEntry> := [];
      var entry := node.entries[n];
      var relPath := Child(at, entry.name);
      match entry.node {
        case DirNode(_) =>
          if !skip(relPath) && (maxDepth < 0 || currentDepth < maxDepth) {
            more := WalkDir(entry.node, relPath, skip, missing, maxDepth, currentDepth + 1);
          }
        case FileNode(size, mtime) =>
          if !skip(relPath) && relPath !in missing { more := [LocalEntry(relPath, size, mtime)]; }
        case OtherNode =>
      }
      out := out + more;
      assert forall e :: e in more <==> FromEntry(node, at, n, e, skip, missing, levels);
      assert DistinctLocals(more);
      hide DistinctLocals;
      forall e | e in more ensures AtOrUnder(e.relPath, Child(at, entry.name)) {
        FromEntryIsBelow(node, at, n, e, skip, missing, levels);
      }
      ApartStaysDistinct(node, at, n, before, more);
      hide Walked, FromEntry, InFirst;
      forall e { OneMoreEntry(node, at, n, e, skip, missing, levels); }
      n := n + 1;
    }
    forall e | Walked(node, at, e, skip, missing, levels) ensures e in out {
      WalkedInSome(node, at, e, skip, missing, levels);
    }
  }
}
