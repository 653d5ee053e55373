/** The FUSE host's cache of paths known not to exist: a sorted list and a set, queried by predecessor search.
    Arguments are the normalised paths that `_normalize` returns. */
module NegativeCache {
  import opened StringOrder
  import opened Paths
  import opened PathScan

  predicate Normalised(p: string) {
    p == "" || p == "/" || AbsPath(p)
  }

  predicate Normal(s: set<string>) {
    forall p :: p in s ==> p == "/" || AbsPath(p)
  }

  /** The greatest stored path not after `p` is `p` or one of its ancestors. */
  ghost predicate Hit(s: set<string>, p: string) {
    exists c :: c in s && IsPredecessor(s, p, c) && AtOrUnder(p, c)
  }

  ghost predicate IsPredecessor(s: set<string>, p: string, c: string) {
    Leq(c, p) && forall d :: d in s && Leq(d, p) ==> Leq(d, c)
  }

  ghost function PutIn(s: set<string>, p: string): set<string> {
    if p == "" || Hit(s, p) then s else s - Scanned(s, p) + {p}
  }

  /** `p` and the directories above it, "/" excepted. */
  function Chain(p: string): set<string>
    requires p == "/" || AbsPath(p)
  {
    ProperAncestors(p) + {p} - {"/"}
  }

  ghost function InvalidateIn(s: set<string>, p: string): set<string>
    requires Normalised(p)
  {
    if p == "" then s
    else
      var rest := s - Chain(p);
      rest - Scanned(rest, p)
  }

  class NegativeCache {
    var sorted: seq<string>
    var paths: set<string>

    /** The list is strictly ascending and holds the same paths as the set. */
    ghost predicate Valid() reads this {
      Sorted(sorted) && Elems(sorted) == paths
    }

    constructor ()
      ensures Valid() && paths == {}
    { sorted, paths := [], {}; }

    /** The probe that `contains` and `put` share: the element before the insertion point. */
    method Probe(p: string) returns (hit: bool, idx: nat)
      requires Valid()
      ensures hit <==> Hit(paths, p)
    {
      idx := UpperBound(sorted, p);
      hit := false;
      if idx > 0 {
        var candidate := sorted[idx - 1];
        hit := p == candidate || candidate + "/" <= p;
        assert candidate in Elems(sorted);
        assert IsPredecessor(paths, p, candidate) by {
          forall d | d in paths && Leq(d, p) ensures Leq(d, candidate) {
            var i :| 0 <= i < |sorted| && sorted[i] == d;
            if i >= idx { TotalOrder(p, d); }
          }
        }
        forall c | c in paths && IsPredecessor(paths, p, c) ensures c == candidate { LeqAntisymmetric(c, candidate); }
      } else {
        forall c | c in paths ensures !Leq(c, p) {
          var i :| 0 <= i < |sorted| && sorted[i] == c;
          TotalOrder(p, c);
        }
      }
    }

    method Contains(p: string) returns (r: bool)
      requires Valid() && Normalised(p)
      ensures r <==> p != "" && Hit(paths, p)
    {
      if p == "" { return false; }
      var hit, _ := Probe(p);
      r := hit;
    }

    /** Deletes the run of stored paths that starts at the insertion point of `p` and is at or below `p`. */
    method DropRun(p: string)
      requires Valid()
      modifies this
      ensures Valid() && paths == old(paths) - Scanned(old(paths), p)
    {
      var start := LowerBound(sorted, p);
      var end := start;
      while end < |sorted| && (sorted[end] == p || p + "/" <= sorted[end])
        invariant start <= end <= |sorted|
        invariant forall i :: start <= i < end ==> AtOrUnder(sorted[i], p)
      {
        end := end + 1;
      }
      ScanCollects(sorted, p, start, end);
      RemoveRange(sorted, start, end);
      paths := paths - Elems(sorted[start..end]);
      sorted := sorted[..start] + sorted[end..];
    }

    method Put(p: string)
      requires Valid() && Normalised(p)
      modifies this
      ensures Valid() && paths == PutIn(old(paths), p)
    {
      if p == "" { return; }
      var hit, _ := Probe(p);
      if hit { return; }
      DropRun(p);
      sorted := InsertSorted(sorted, p);
      paths := paths + {p};
    }

    method InvalidatePrefix(prefix: string)
      requires Valid() && Normalised(prefix)
      modifies this
      ensures Valid() && paths == InvalidateIn(old(paths), prefix)
    {
      if prefix == "" { return; }
      var current := prefix;
      while current != "" && current != "/"
        invariant Valid() && (current == "/" || AbsPath(current))
        invariant paths - Chain(current) == old(paths) - Chain(prefix)
        decreases |current|
      {
        DirnameOfAbs(current);
        if current in paths {
          paths := paths - {current};
          sorted := RemoveFromSorted(sorted, current);
        }
        var parent := Dirname(current);
        if parent == current { break; }
        current := parent;
      }
      assert Chain("/") == {};
      DropRun(prefix);
    }

    method Clear()
      modifies this
      ensures Valid() && paths == {}
    { sorted, paths := [], {}; }
  }

  lemma RemoveRange(s: seq<string>, lo: nat, hi: nat)
    requires Sorted(s) && lo <= hi <= |s|
    ensures Sorted(s[..lo] + s[hi..])
    ensures Elems(s[..lo] + s[hi..]) == Elems(s) - Elems(s[lo..hi])
  {
    var r := s[..lo] + s[hi..];
    assert forall i :: 0 <= i < |r| ==> r[i] == s[if i < lo then i else i - lo + hi];
    forall j | lo <= j < hi ensures s[j] in Elems(s[lo..hi]) { assert s[lo..hi][j - lo] == s[j]; }
    forall x | x in Elems(s) - Elems(s[lo..hi]) ensures x in Elems(r) {
      var i :| 0 <= i < |s| && s[i] == x;
      assert r[if i < lo then i else i - hi + lo] == x;
    }
    forall i, j | 0 <= i < |r| && lo <= j < hi ensures r[i] != s[j] {
      var k := if i < lo then i else i - lo + hi;
      Irreflexive(s[j]);
      assert Less(s[k], s[j]) || Less(s[j], s[k]);
    }
    assert forall j :: 0 <= j < hi - lo ==> s[lo..hi][j] == s[lo + j];
  }

  // ---------- what a query means ----------

  /** `p` is, or lies below, a stored path. */
  ghost predicate Covered(s: set<string>, p: string) {
    exists a :: a in s && AtOrUnder(p, a)
  }

  ghost predicate Antichain(s: set<string>) {
    forall a, b :: a in s && b in s ==> !Under(a, b)
  }

  /** `q` continues the string `p` with a character that sorts before '/', as `/a-b` continues `/a`. */
  predicate LowExtension(p: string, q: string) {
    p < q && q[|p|] < '/'
  }

  ghost predicate NoLowExtension(s: set<string>) {
    forall a, b :: a in s && b in s ==> !LowExtension(a, b)
  }

  /** A hit is never wrong: some stored path is the queried path or one of its ancestors. */
  lemma HitIsSound(s: set<string>, p: string)
    requires Hit(s, p)
    ensures Covered(s, p)
  {}

  /** Among stored paths none of which lies below another, between an ancestor of `p` and `p` only low extensions
      of that ancestor can sort. */
  lemma BetweenAncestorAndPath(a: string, c: string, p: string)
    requires Leq(a, c) && Leq(c, p) && AtOrUnder(p, a)
    ensures a == c || LowExtension(a, c) || Under(c, a)
  {
    UnderShape(p, a);
    PrefixInterval(a, c, p);
    if a != c && p != a && c[|a|] > '/' {
      CompareAfterPrefix(a, p, c);
      TotalOrder(p, c);
    } else if p == a {
      LeqAntisymmetric(a, c);
    } else if a != c && c[|a|] == '/' {
      UnderShape(c, a);
    }
  }

  /** Every finite non-empty set of strings has a greatest element. */
  lemma {:induction false} Greatest(s: set<string>) returns (g: string)
    requires s != {}
    ensures g in s && forall d :: d in s ==> Leq(d, g)
    decreases |s|
  {
    var x :| x in s;
    if s == {x} { return x; }
    var rest := s - {x};
    assert |rest| < |s|;
    g := Greatest(rest);
    TotalOrder(x, g);
    if Less(g, x) {
      forall d | d in s ensures Leq(d, x) { if d != x { LeqTransitive(d, g, x); } }
      g := x;
    }
  }

  lemma HasPredecessor(s: set<string>, p: string, a: string) returns (c: string)
    requires a in s && Leq(a, p)
    ensures c in s && IsPredecessor(s, p, c) && Leq(a, c)
  {
    var below := set d | d in s && Leq(d, p);
    assert a in below;
    c := Greatest(below);
  }

  /** On an antichain of normalised paths, the single predecessor probe decides ancestor containment for every path
      exactly when no stored path is a low extension of another. */
  lemma ProbeIsExact(s: set<string>)
    requires Normal(s) && Antichain(s)
    ensures (forall p :: AbsPath(p) ==> (Hit(s, p) <==> Covered(s, p))) <==> NoLowExtension(s - {"/"})
  {
    if NoLowExtension(s - {"/"}) {
      forall p | AbsPath(p) && Covered(s, p) ensures Hit(s, p) { ProbeFinds(s, p); }
      assert forall p :: Hit(s, p) ==> Covered(s, p);
    } else {
      var a, b :| a in s - {"/"} && b in s - {"/"} && LowExtension(a, b);
      ProbeMisses(s, a, b);
      ChildIsAbs(a);
    }
  }

  lemma ProbeFinds(s: set<string>, p: string)
    requires Normal(s) && Antichain(s) && NoLowExtension(s - {"/"}) && AbsPath(p) && Covered(s, p)
    ensures Hit(s, p)
  {
    var a :| a in s && AtOrUnder(p, a);
    if p != a { UnderIsGreater(p, a); }
    UnderShape(p, a);
    var c := HasPredecessor(s, p, a);
    BetweenAncestorAndPath(a, c, p);
  }

  lemma ChildIsAbs(a: string)
    requires AbsPath(a)
    ensures AbsPath(a + "/x") && Under(a + "/x", a)
  {
    UnderShape(a + "/x", a);
  }

  /** With `a` and a low extension `b` of it stored, a path below `a` is missed. */
  lemma ProbeMisses(s: set<string>, a: string, b: string)
    requires Antichain(s) && a in s && b in s && LowExtension(a, b)
    ensures Covered(s, a + "/x") && !Hit(s, a + "/x")
  {
    var p := a + "/x";
    UnderShape(p, a);
    CompareAfterPrefix(a, b, p);
    PrefixIsLeq(a, b);
    forall c | c in s && IsPredecessor(s, p, c) ensures !AtOrUnder(p, c) {
      LeqTransitive(a, b, c);
      Irreflexive(a);
      assert c != a;
      if AtOrUnder(p, c) {
        AncestorsLinear(p, a, c);
        if Under(a, c) { UnderIsGreater(a, c); Asymmetric(a, c); }
      }
    }
  }

  // ---------- what the operations keep ----------

  lemma PutHits(s: set<string>, p: string)
    requires p != ""
    ensures Hit(PutIn(s, p), p)
  {
    if !Hit(s, p) { assert IsPredecessor(PutIn(s, p), p, p) && AtOrUnder(p, p); }
  }

  /** After an invalidation nothing stored is the path or an ancestor of it, so the path is no longer a hit. */
  lemma InvalidateClears(s: set<string>, p: string)
    requires Normal(s) && AbsPath(p)
    ensures !Covered(InvalidateIn(s, p), p) && !Hit(InvalidateIn(s, p), p)
  {
    forall a | a in InvalidateIn(s, p) ensures !AtOrUnder(p, a) {
      ProperAncestorsExact(p, a);
      UnderShape(p, a);
    }
  }

  /** Invalidation removes exactly the path, its ancestors and its descendants, unless a stored path blocks the scan. */
  lemma InvalidateExact(s: set<string>, p: string)
    requires Normal(s) && AbsPath(p)
    ensures InvalidateIn(s, p) == (set q | q in s && !AtOrUnder(p, q) && !AtOrUnder(q, p))
      <==> !ScanBlocked(s - Chain(p), p)
  {
    var rest := s - Chain(p);
    ScanComplete(rest, p);
    forall q | q in s ensures q in Chain(p) <==> AtOrUnder(p, q) {
      ProperAncestorsExact(p, q);
      UnderShape(p, q);
    }
    var below := set k | k in rest && AtOrUnder(k, p);
    assert (set q | q in s && !AtOrUnder(p, q) && !AtOrUnder(q, p)) == rest - below;
    assert Scanned(rest, p) <= below <= rest;
    assert rest - Scanned(rest, p) == rest - below <==> Scanned(rest, p) == below;
  }

  /** If the result holds no low extension, putting `p` keeps the antichain and covers exactly the subtree of `p` more. */
  lemma PutKeeps(s: set<string>, p: string)
    requires Normal(s) && Antichain(s) && NoLowExtension(s - {"/"}) && AbsPath(p)
    requires NoLowExtension(PutIn(s, p) - {"/"})
    ensures Normal(PutIn(s, p)) && Antichain(PutIn(s, p))
    ensures forall q :: Covered(PutIn(s, p), q) <==> Covered(s, q) || AtOrUnder(q, p)
  {
    var t := PutIn(s, p);
    if Hit(s, p) {
      var a :| a in s && AtOrUnder(p, a);
      forall q | AtOrUnder(q, p) ensures Covered(s, q) { UnderTransitive(q, p, a); }
    } else {
      if Covered(s, p) { ProbeFinds(s, p); }
      ScanComplete(s, p);
      forall b | b in s && Less(p, b) ensures !Less(b, p + "/") {
        if Less(b, p + "/") { BlockerIsLow(p, b); }
      }
      assert Scanned(s, p) == set k | k in s && AtOrUnder(k, p);
      UnderNotReflexive(p);
      forall q ensures Covered(t, q) <==> Covered(s, q) || AtOrUnder(q, p) {
        if AtOrUnder(q, p) { assert p in t; }
        else if Covered(s, q) {
          var a :| a in s && AtOrUnder(q, a);
          assert a !in Scanned(s, p) by { if AtOrUnder(a, p) { UnderTransitive(q, a, p); } }
          assert a in t;
        }
      }
    }
  }

  lemma BelowSlash(r: string)
    requires r != "" && Less(r, "/")
    ensures r[0] < '/'
  {
    assert !Less(r[1..], "");
  }

  lemma BlockerIsLow(p: string, b: string)
    requires Less(p, b) && Less(b, p + "/")
    ensures LowExtension(p, b) && !AtOrUnder(b, p)
  {
    PrefixIsLeq(p, p + "/");
    PrefixInterval(p, b, p + "/");
    Irreflexive(p);
    var r := b[|p|..];
    assert b == p + r;
    assert p + "" == p;
    CancelPrefix(p, r, "/");
    BelowSlash(r);
    assert r[0] == b[|p|];
    UnderShape(b, p);
  }

  datatype Op = PutOp(path: string) | InvalidateOp(path: string) | ClearOp

  ghost function Step(s: set<string>, op: Op): set<string>
    requires !op.ClearOp? ==> AbsPath(op.path)
  {
    match op
    case PutOp(p) => PutIn(s, p)
    case InvalidateOp(p) => InvalidateIn(s, p)
    case ClearOp => {}
  }

  ghost function Run(ops: seq<Op>): set<string>
    requires forall op :: op in ops && !op.ClearOp? ==> AbsPath(op.path)
  {
    if ops == [] then {} else Step(Run(ops[..|ops| - 1]), ops[|ops| - 1])
  }

  /** In every run whose states never hold a low extension, the stored paths form an antichain, and the probe decides
      ancestor containment exactly after every step. */
  lemma {:induction false} RunKeepsAntichain(ops: seq<Op>)
    requires forall op :: op in ops && !op.ClearOp? ==> AbsPath(op.path)
    requires forall k :: 0 <= k <= |ops| ==> NoLowExtension(Run(ops[..k]))
    ensures Normal(Run(ops)) && Antichain(Run(ops))
    ensures forall p :: AbsPath(p) ==> (Hit(Run(ops), p) <==> Covered(Run(ops), p))
  {
    assert ops[..|ops|] == ops;
    if ops != [] {
      var k := |ops| - 1;
      assert forall i :: 0 <= i <= k ==> ops[..k][..i] == ops[..i];
      RunKeepsAntichain(ops[..k]);
      var s := Run(ops[..k]);
      assert NoLowExtension(s);
      match ops[k] {
        case PutOp(p) => PutKeeps(s, p);
        case InvalidateOp(p) =>
        case ClearOp =>
      }
    }
    ProbeIsExact(Run(ops));
  }
}
