/** Code-unit lexicographic order on strings, the order JavaScript's `<` and Python's `bisect` use.
    (Dafny's own `<` on sequences is the proper-prefix relation.) */
module StringOrder {

  /** Strict lexicographic order. */
  predicate Less(a: string, b: string) {
    b != [] && (a == [] || a[0] < b[0] || (a[0] == b[0] && Less(a[1..], b[1..])))
  }

  predicate Leq(a: string, b: string) {
    a == b || Less(a, b)
  }

  predicate StartsWith(s: string, prefix: string) {
    prefix <= s
  }

  lemma {:induction false} Irreflexive(a: string)
    ensures !Less(a, a)
  {
    if a != [] { Irreflexive(a[1..]); }
  }

  lemma {:induction false} Trichotomy(a: string, b: string)
    ensures Less(a, b) || a == b || Less(b, a)
  {
    if a != [] && b != [] && a[0] == b[0] {
      Trichotomy(a[1..], b[1..]);
      assert a == [a[0]] + a[1..] && b == [b[0]] + b[1..];
    }
  }

  lemma {:induction false} Transitive(a: string, b: string, c: string)
    requires Less(a, b) && Less(b, c)
    ensures Less(a, c)
  {
    if a != [] && a[0] == b[0] == c[0] { Transitive(a[1..], b[1..], c[1..]); }
  }

  lemma Asymmetric(a: string, b: string)
    requires Less(a, b)
    ensures !Less(b, a) && a != b
  {
    Irreflexive(a);
    if Less(b, a) { Transitive(a, b, a); }
  }

  /** Less is a strict total order: exactly one of the three relations holds. */
  lemma TotalOrder(a: string, b: string)
    ensures !Less(a, b) <==> Leq(b, a)
  {
    Trichotomy(a, b);
    if Less(a, b) { Asymmetric(a, b); }
  }

  lemma LeqTransitive(a: string, b: string, c: string)
    requires Leq(a, b) && Leq(b, c)
    ensures Leq(a, c)
    ensures (a != b && Less(a, b)) || (b != c && Less(b, c)) ==> Less(a, c)
  {
    if Less(a, b) && Less(b, c) { Transitive(a, b, c); }
  }

  lemma LeqAntisymmetric(a: string, b: string)
    requires Leq(a, b) && Leq(b, a)
    ensures a == b
  {
    TotalOrder(a, b);
  }

  /** A common prefix does not change the comparison. */
  lemma {:induction false} CancelPrefix(p: string, a: string, b: string)
    ensures Less(p + a, p + b) <==> Less(a, b)
  {
    if p == [] {
      assert p + a == a && p + b == b;
    } else {
      CancelPrefix(p[1..], a, b);
      assert (p + a)[1..] == p[1..] + a && (p + b)[1..] == p[1..] + b;
    }
  }

  /** A proper prefix comes first. */
  lemma PrefixIsLeq(p: string, s: string)
    requires StartsWith(s, p)
    ensures Leq(p, s)
  {
    assert s == p + s[|p|..] && p == p + [];
    CancelPrefix(p, [], s[|p|..]);
  }

  /** The strings that start with `p` form an interval whose least element is `p`. */
  lemma {:induction false} PrefixInterval(p: string, x: string, s: string)
    requires StartsWith(s, p) && Leq(p, x) && Leq(x, s)
    ensures StartsWith(x, p)
  {
    if p != [] && x != p && x != s {
      assert x != [];
      assert p[0] == s[0];
      assert p[0] <= x[0] <= s[0];
      assert p == [p[0]] + p[1..] && x == [x[0]] + x[1..] && s == [s[0]] + s[1..];
      PrefixInterval(p[1..], x[1..], s[1..]);
    }
  }

  /** Two strings that extend `p` compare as their first characters after `p` do, when these differ. */
  lemma CompareAfterPrefix(p: string, x: string, y: string)
    requires p < x && p < y && x[|p|] < y[|p|]
    ensures Less(x, y)
  {
    assert x == p + x[|p|..] && y == p + y[|p|..];
    CancelPrefix(p, x[|p|..], y[|p|..]);
  }

  /** Strictly ascending, hence without duplicates. */
  predicate Sorted(s: seq<string>) {
    forall i, j :: 0 <= i < j < |s| ==> Less(s[i], s[j])
  }

  function Elems(s: seq<string>): (r: set<string>) {
    set i | 0 <= i < |s| :: s[i]
  }

  lemma ElemsEmpty(s: seq<string>)
    ensures Elems(s) == {} <==> s == []
  {
    if s != [] { assert s[0] in Elems(s); }
  }

  /** A strictly ascending sequence is determined by its set of elements. */
  lemma {:induction false} SortedUnique(s: seq<string>, t: seq<string>)
    requires Sorted(s) && Sorted(t) && Elems(s) == Elems(t)
    ensures s == t
  {
    ElemsEmpty(s);
    ElemsEmpty(t);
    if s != [] {
      assert s[0] in Elems(t) && t[0] in Elems(s);
      LeqAntisymmetric(s[0], t[0]);
      TailElems(s);
      TailElems(t);
      SortedUnique(s[1..], t[1..]);
      assert s == [s[0]] + s[1..] && t == [t[0]] + t[1..];
    }
  }

  lemma TailElems(s: seq<string>)
    requires Sorted(s) && s != []
    ensures Sorted(s[1..]) && Elems(s[1..]) == Elems(s) - {s[0]}
  {
    Irreflexive(s[0]);
    forall x | x in Elems(s) - {s[0]} ensures x in Elems(s[1..]) {
      var i :| 0 <= i < |s| && s[i] == x;
      assert s[1..][i - 1] == x;
    }
    forall x | x in Elems(s[1..]) ensures x in Elems(s) - {s[0]} {
      var i :| 0 <= i < |s| - 1 && s[1..][i] == x;
      assert s[i + 1] == x && Less(s[0], s[i + 1]);
    }
  }

  /** First index whose element is not less than `item`, by bisection. */
  method LowerBound(s: seq<string>, item: string) returns (lo: nat)
    requires Sorted(s)
    ensures lo <= |s|
    ensures forall i :: 0 <= i < lo ==> Less(s[i], item)
    ensures forall i :: lo <= i < |s| ==> Leq(item, s[i])
  {
    lo := 0;
    var hi := |s|;
    while lo < hi
      invariant 0 <= lo <= hi <= |s|
      invariant forall i :: 0 <= i < lo ==> Less(s[i], item)
      invariant forall i :: hi <= i < |s| ==> Leq(item, s[i])
    {
      var mid := (lo + hi) / 2;
      TotalOrder(s[mid], item);
      if Less(s[mid], item) {
        forall i | 0 <= i < mid ensures Less(s[i], item) { Transitive(s[i], s[mid], item); }
        lo := mid + 1;
      } else {
        forall i | mid < i < |s| ensures Leq(item, s[i]) { LeqTransitive(item, s[mid], s[i]); }
        hi := mid;
      }
    }
  }

  /** First index whose element is greater than `item`, by bisection. */
  method UpperBound(s: seq<string>, item: string) returns (lo: nat)
    requires Sorted(s)
    ensures lo <= |s|
    ensures forall i :: 0 <= i < lo ==> Leq(s[i], item)
    ensures forall i :: lo <= i < |s| ==> Less(item, s[i])
  {
    lo := LowerBound(s, item);
    if lo < |s| && s[lo] == item {
      lo := lo + 1;
    } else {
      forall i | lo <= i < |s| ensures Less(item, s[i]) {
        if i > lo && s[i] == item {
          Asymmetric(s[lo], s[i]) by { assert Less(s[lo], s[i]); } assert Leq(item, s[lo]);
          TotalOrder(s[lo], item);
        }
      }
    }
  }

  /** The sorted array with `item` spliced in where bisection puts it, unless already there. */
  method InsertSorted(s: seq<string>, item: string) returns (r: seq<string>)
    requires Sorted(s)
    ensures Sorted(r) && Elems(r) == Elems(s) + {item}
  {
    var idx := LowerBound(s, item);
    if idx < |s| && s[idx] == item {
      assert item in Elems(s);
      return s;
    }
    r := s[..idx] + [item] + s[idx..];
    forall i | idx <= i < |s| ensures Less(item, s[i]) {
      if s[i] == item && idx < i { assert Less(s[idx], s[i]); TotalOrder(s[idx], item); }
    }
    forall x | x in Elems(s) + {item} ensures x in Elems(r) {
      if x == item { assert r[idx] == item; } else {
        var i :| 0 <= i < |s| && s[i] == x;
        assert r[if i < idx then i else i + 1] == x;
      }
    }
    assert forall i :: 0 <= i < |r| ==> r[i] == if i < idx then s[i] else if i == idx then item else s[i - 1];
  }

  /** The sorted array with `item` spliced out, if bisection finds it. */
  method RemoveFromSorted(s: seq<string>, item: string) returns (r: seq<string>)
    requires Sorted(s)
    ensures Sorted(r) && Elems(r) == Elems(s) - {item}
  {
    var idx := LowerBound(s, item);
    Irreflexive(item);
    if idx < |s| && s[idx] == item {
      r := s[..idx] + s[idx + 1..];
      forall x | x in Elems(s) - {item} ensures x in Elems(r) {
        var i :| 0 <= i < |s| && s[i] == x;
        assert r[if i < idx then i else i - 1] == x;
      }
      assert forall i :: 0 <= i < |r| ==> r[i] == if i < idx then s[i] else s[i + 1];
      assert forall i :: 0 <= i < |r| ==> Less(r[i], item) || Less(item, r[i]);
    } else {
      r := s;
      forall i | 0 <= i < |s| ensures s[i] != item {
        if s[i] == item && idx < i { assert Less(s[idx], s[i]); TotalOrder(s[idx], item); }
      }
    }
  }
}
