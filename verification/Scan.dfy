/** Scanning a scope for an instruction, and which remote paths its deletes may name. */
module Scan {
  import opened Options
  import opened StringOrder
  import opened Paths
  import opened Instructions
  import opened ScanFilter
  import opened Walk

  /** A regular file stands at `r`. */
  predicate FileAt(root: Node, r: string) {
    Lookup(root, "", r).Some? && Lookup(root, "", r).value.FileNode?
  }

  function EntryAt(root: Node, r: string): LocalEntry
    requires FileAt(root, r)
  {
    LocalEntry(r, Lookup(root, "", r).value.size, Lookup(root, "", r).value.mtime)
  }

  /** Properly below a subtree's root, within its depth. */
  predicate BelowSome(r: string, ts: seq<Subtree>) {
    exists i :: 0 <= i < |ts| && r != ts[i].relPath && WithinSubtree(r, ts[i])
  }

  /** The files a scan for the instruction returns. */
  predicate Scanned(root: Node, h: Instruction, skip: string -> bool, r: string) {
    FileAt(root, r) && !skip(r) && r !in h.knownMissing && (r in h.files || BelowSome(r, h.subtrees))
  }

  lemma BetweenChild(s: string, at: string, name: string)
    requires PlainName(name) && Within(s, at) && s != at
    ensures !Under(Child(at, name), s) || s == ""
  {
    var c := Child(at, name);
    UnderShape(c, s);
    UnderShape(s, at);
    var k := if at == "" then |s| else |s| - |at| - 1;
    assert |s| < |c| && k >= 0 ==> k < |name| && c[|s|] == name[k] && name[k] in name;
  }

  /** Every path above something in the tree is a directory of the tree. */
  lemma {:induction false} AboveIsDir(node: Node, at: string, s: string, r: string)
    requires WellNamed(node) && Lookup(node, at, r).Some? && Within(r, s) && r != s && Within(s, at) && (s == "" ==> at == "")
    ensures Lookup(node, at, s).Some? && Lookup(node, at, s).value.DirNode?
    decreases node
  {
    if r == at {
      if at != "" { UnderShape(r, s); UnderShape(s, at); }
      else { UnderShape(r, s); }
    } else if s != at {
      if k :| 0 <= k < |node.entries| && AtOrUnder(r, Child(at, node.entries[k].name)) {
        var c := Child(at, node.entries[k].name);
        LookupThroughChild(node, at, r, 0, k);
        AncestorsLinear(r, s, c);
        BetweenChild(s, at, node.entries[k].name);
        LookupThroughChild(node, at, s, 0, k);
        AboveIsDir(node.entries[k].node, c, s, r);
      } else {
        LookupNowhere(node, at, r, 0);
      }
    }
  }

  /** Walking one subtree of the instruction finds exactly the tree's kept files properly below its root, to its depth. */
  lemma SubtreeWalked(root: Node, t: Subtree, skip: string -> bool, missing: set<string>, e: LocalEntry)
    requires WellNamed(root) && KeepsAncestors(skip)
    ensures var d := Lookup(root, "", t.relPath);
      (FileAt(root, e.relPath) && e == EntryAt(root, e.relPath) && !skip(e.relPath) && e.relPath !in missing
       && e.relPath != t.relPath && WithinSubtree(e.relPath, t))
      <==> d.Some? && d.value.DirNode? && Walked(d.value, t.relPath, e, skip, missing, if t.maxDepth < 0 then -1 else t.maxDepth)
  {
    hide Depth;
    var s, r := t.relPath, e.relPath;
    var d := Lookup(root, "", s);
    if FileAt(root, r) && r != s && Within(r, s) {
      AboveIsDir(root, "", s, r);
      LookupFromThere(root, "", s, r);
    }
    if d.Some? && r != s && Lookup(d.value, s, r).Some? {
      FoundIsWellNamed(root, "", s);
      FoundWithin(d.value, s, r);
      LookupFromThere(root, "", s, r);
    }
  }

  lemma {:induction false} FoundIsWellNamed(node: Node, at: string, r: string)
    requires WellNamed(node) && Lookup(node, at, r).Some?
    ensures WellNamed(Lookup(node, at, r).value)
    decreases node
  {
    if r != at {
      if k :| 0 <= k < |node.entries| && AtOrUnder(r, Child(at, node.entries[k].name)) {
        LookupThroughChild(node, at, r, 0, k);
        FoundIsWellNamed(node.entries[k].node, Child(at, node.entries[k].name), r);
      } else {
        LookupNowhere(node, at, r, 0);
      }
    }
  }

  /** Below a skipped directory everything is skipped. */
  lemma SkippedSubtree(root: Node, t: Subtree, skip: string -> bool, r: string)
    requires KeepsAncestors(skip) && skip(t.relPath) && !skip("") && WithinSubtree(r, t)
    ensures skip(r)
  {
    assert t.relPath != "";
  }

  /** One subtree: nothing if it is skipped or not a directory, else its walk. */
  method ScanSubtree(root: Node, t: Subtree, skip: string -> bool, missing: set<string>) returns (out: seq<LocalEntry>)
    requires WellNamed(root) && KeepsAncestors(skip) && !skip("")
    ensures forall e :: e in out <==>
      && FileAt(root, e.relPath) && e == EntryAt(root, e.relPath) && !skip(e.relPath) && e.relPath !in missing
      && e.relPath != t.relPath && WithinSubtree(e.relPath, t)
  {
    out := [];
    forall e { SubtreeWalked(root, t, skip, missing, e); }
    if skip(t.relPath) {
      forall r | WithinSubtree(r, t) ensures skip(r) { SkippedSubtree(root, t, skip, r); }
      return;
    }
    hide Walked, WithinSubtree;
    var d := Lookup(root, "", t.relPath);
    if d.Some? && d.value.DirNode? {
      FoundIsWellNamed(root, "", t.relPath);
      out := WalkDir(d.value, t.relPath, skip, missing, t.maxDepth, 0);
    }
  }

  predicate InFirst(r: string, ts: seq<Subtree>, n: nat)
    requires n <= |ts|
  {
    exists i :: 0 <= i < n && r != ts[i].relPath && WithinSubtree(r, ts[i])
  }

  predicate IsKept(root: Node, skip: string -> bool, missing: set<string>, r: string) {
    FileAt(root, r) && !skip(r) && r !in missing
  }

  method ScanInstructionFiles(root: Node, h: Instruction, skip: string -> bool) returns (results: map<string, LocalEntry>)
    requires WellNamed(root) && KeepsAncestors(skip) && !skip("")
    ensures forall r :: r in results <==> Scanned(root, h, skip, r)
    ensures forall r :: r in results ==> FileAt(root, r) && results[r] == EntryAt(root, r)
  {
    var missing := set r | r in h.knownMissing;
    results := map[];
    var n := 0;
    while n < |h.subtrees|
      invariant 0 <= n <= |h.subtrees|
      invariant forall r :: r in results <==> IsKept(root, skip, missing, r) && InFirst(r, h.subtrees, n)
      invariant forall r :: r in results ==> FileAt(root, r) && results[r] == EntryAt(root, r)
    {
      var found := ScanSubtree(root, h.subtrees[n], skip, missing);
      hide WithinSubtree, Lookup;
      forall r ensures InFirst(r, h.subtrees, n + 1) <==>
        InFirst(r, h.subtrees, n) || (r != h.subtrees[n].relPath && WithinSubtree(r, h.subtrees[n])) {}
      forall r | IsKept(root, skip, missing, r) && r != h.subtrees[n].relPath && WithinSubtree(r, h.subtrees[n])
        ensures EntryAt(root, r) in found {}
      results := AddAll(results, found, root);
      n := n + 1;
    }
    hide WithinSubtree, Lookup;
    var i := 0;
    while i < |h.files|
      invariant 0 <= i <= |h.files|
      invariant forall r :: r in results <==> IsKept(root, skip, missing, r) && (r in h.files[..i] || BelowSome(r, h.subtrees))
      invariant forall r :: r in results ==> FileAt(root, r) && results[r] == EntryAt(root, r)
    {
      var r := h.files[i];
      if r !in missing && !skip(r) && FileAt(root, r) { results := results[r := EntryAt(root, r)]; }
      i := i + 1;
    }
    assert h.files[..i] == h.files;
  }

  method AddAll(results: map<string, LocalEntry>, found: seq<LocalEntry>, root: Node) returns (r: map<string, LocalEntry>)
    requires forall e :: e in found ==> FileAt(root, e.relPath) && e == EntryAt(root, e.relPath)
    requires forall p :: p in results ==> FileAt(root, p) && results[p] == EntryAt(root, p)
    ensures forall p :: p in r <==> p in results || (FileAt(root, p) && EntryAt(root, p) in found)
    ensures forall p :: p in r ==> FileAt(root, p) && r[p] == EntryAt(root, p)
  {
    r := results;
    var n := 0;
    while n < |found|
      invariant 0 <= n <= |found|
      invariant forall p :: p in r <==> p in results || (FileAt(root, p) && EntryAt(root, p) in found[..n])
      invariant forall p :: p in r ==> FileAt(root, p) && r[p] == EntryAt(root, p)
    {
      assert found[n] in found;
      r := r[found[n].relPath := found[n]];
      n := n + 1;
    }
    assert found[..n] == found;
  }

  /** Scanning a whole scope: the root is walked without limit. */
  method ScanLocalFiles(root: Node, skip: string -> bool) returns (out: seq<LocalEntry>)
    requires WellNamed(root) && KeepsAncestors(skip)
    ensures forall e :: e in out <==> FileAt(root, e.relPath) && e == EntryAt(root, e.relPath) && e.relPath != "" && !skip(e.relPath)
    ensures DistinctLocals(out)
  {
    out := WalkDir(root, "", skip, {}, -1, 0);
  }

  // ---------- which existing files a scan's deletes can name ----------

  /** Among existing kept files that an instruction covers, those its own scan misses, and whose remote entry it would
      therefore delete, are the ones the server knows as missing and those that stand at a subtree's root and nowhere
      else in the instruction. */
  lemma MissedExactly(root: Node, h: Instruction, skip: string -> bool, r: string)
    requires FileAt(root, r) && !skip(r) && !IsWholeScope(h) && Covered(r, h)
    ensures !Scanned(root, h, skip, r) <==>
      r in h.knownMissing || (r !in h.files && !BelowSome(r, h.subtrees) && CoveredBySome(r, h.subtrees))
    ensures !Scanned(root, h, skip, r) && r !in h.knownMissing ==> exists i :: 0 <= i < |h.subtrees| && h.subtrees[i].relPath == r
  {
    hide WithinSubtree;
    if !Scanned(root, h, skip, r) && r !in h.knownMissing {
      var i :| 0 <= i < |h.subtrees| && WithinSubtree(r, h.subtrees[i]);
      assert h.subtrees[i].relPath == r;
    }
  }
}
