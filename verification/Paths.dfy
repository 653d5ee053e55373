/** Normalised POSIX paths as strings: containment, `dirname`, parent chains, `split`/`join` on '/'. */
module Paths {
  import opened StringOrder

  /** An absolute, normalised path other than "/": no empty component, no trailing slash. */
  predicate AbsPath(p: string) {
    && |p| >= 2 && p[0] == '/' && p[|p| - 1] != '/'
    && forall i :: 0 <= i < |p| - 1 ==> !(p[i] == '/' && p[i + 1] == '/')
  }

  /** A relative, normalised, non-empty path. */
  predicate RelPath(r: string) {
    AbsPath("/" + r)
  }

  /** A single component. */
  predicate PlainName(name: string) {
    name != "" && '/' !in name
  }

  /** The child of a directory, where the empty path is the root. */
  function Child(dir: string, name: string): string {
    if dir == "" then name else dir + "/" + name
  }

  /** `p` lies strictly below `a`: the source's `p.startsWith(a + "/")`. */
  predicate Under(p: string, a: string) {
    StartsWith(p, a + "/")
  }

  predicate AtOrUnder(p: string, a: string) {
    p == a || Under(p, a)
  }

  lemma UnderShape(p: string, a: string)
    ensures Under(p, a) <==> |a| < |p| && p[..|a|] == a && p[|a|] == '/'
  {
    if |a| < |p| { assert p[..|a| + 1] == p[..|a|] + [p[|a|]]; }
    assert (a + "/")[..|a|] == a;
  }

  lemma UnderTransitive(p: string, q: string, r: string)
    requires AtOrUnder(p, q) && AtOrUnder(q, r)
    ensures AtOrUnder(p, r)
    ensures p != q || q != r ==> Under(p, r)
  {
    UnderShape(p, q); UnderShape(q, r); UnderShape(p, r);
    if Under(p, q) && Under(q, r) { assert p[..|r|] == p[..|q|][..|r|]; }
  }

  lemma UnderNotReflexive(p: string)
    ensures !Under(p, p)
  { UnderShape(p, p); }

  /** The ancestors of one path form a chain. */
  lemma AncestorsLinear(p: string, a: string, b: string)
    requires AtOrUnder(p, a) && AtOrUnder(p, b)
    ensures AtOrUnder(a, b) || AtOrUnder(b, a)
  {
    UnderShape(p, a); UnderShape(p, b); UnderShape(a, b); UnderShape(b, a);
    if |a| < |b| { assert b[..|a|] == p[..|b|][..|a|]; }
    if |b| < |a| { assert a[..|b|] == p[..|a|][..|b|]; }
  }

  lemma UnderIsGreater(p: string, a: string)
    requires Under(p, a)
    ensures Less(a, p) && Leq(a + "/", p)
  {
    UnderShape(p, a);
    PrefixIsLeq(a, p);
    PrefixIsLeq(a + "/", p);
  }

  function LastSlash(p: string): (i: int)
    ensures -1 <= i < |p|
    ensures i >= 0 ==> p[i] == '/'
    ensures forall j :: i < j < |p| ==> p[j] != '/'
  {
    if p == "" then -1
    else if p[|p| - 1] == '/' then |p| - 1
    else LastSlash(p[..|p| - 1])
  }

  /** `path.posix.dirname` on normalised paths. */
  function Dirname(p: string): (d: string)
    ensures d == p || d == "." || |d| < |p|
  {
    var i := LastSlash(p);
    if i < 0 then "." else if i == 0 then "/" else p[..i]
  }

  lemma DirnameOfAbs(p: string)
    requires AbsPath(p)
    ensures |Dirname(p)| < |p|
    ensures Dirname(p) == "/" || (AbsPath(Dirname(p)) && Under(p, Dirname(p)))
  {
    var i := LastSlash(p);
    assert i >= 0;
    if i > 0 { UnderShape(p, p[..i]); assert p[i - 1] != '/'; assert p[0] == '/'; assert i >= 2; }
  }

  /** Every directory strictly above an absolute path, "/" included: what a loop over `dirname` visits. */
  function ProperAncestors(p: string): set<string>
    requires p == "/" || AbsPath(p)
    decreases |p|
  {
    if p == "/" then {}
    else
      DirnameOfAbs(p);
      {Dirname(p)} + ProperAncestors(Dirname(p))
  }

  lemma {:induction false} ProperAncestorsExact(p: string, a: string)
    requires AbsPath(p)
    ensures a in ProperAncestors(p) <==> a == "/" || (a != "" && Under(p, a))
    decreases |p|
  {
    DirnameOfAbs(p);
    var d := Dirname(p);
    if a != "" && a != "/" && Under(p, a) && a != d {
      UnderShape(p, a);
      var i := LastSlash(p);
      assert |a| < i;
      UnderShape(d, a);
      assert d[..|a|] == a;
      ProperAncestorsExact(d, a);
    } else if a == d {
      if d != "/" { assert Under(p, a); }
    } else if a != "/" && d != "/" {
      ProperAncestorsExact(d, a);
      if a != "" && Under(d, a) { UnderTransitive(p, d, a); }
    } else if d != "/" {
      ProperAncestorsExact(d, a);
    } else if a != "" && a != "/" {
      UnderShape(p, a);
    }
    if a == "/" { UnderShape(p, a); }
  }

  /** An ancestor of a normalised path is normalised. */
  lemma AncestorIsAbs(p: string, a: string)
    requires AbsPath(p) && a != "" && Under(p, a)
    ensures AbsPath(a)
  {
    UnderShape(p, a);
    assert forall i :: 0 <= i < |a| ==> a[i] == p[i];
    assert p[|a|] == '/';
    assert p[|a| - 1] != '/';
  }

  /** Moving a path from below `a` to below `b` keeps it normalised. */
  lemma MovedIsAbs(p: string, a: string, b: string)
    requires AbsPath(p) && AbsPath(a) && AbsPath(b) && AtOrUnder(p, a)
    ensures AbsPath(b + p[|a|..])
  {
    UnderShape(p, a);
    var q := b + p[|a|..];
    assert |p| >= |a|;
    forall i | 0 <= i < |q| - 1 ensures !(q[i] == '/' && q[i + 1] == '/') {
      if i >= |b| { assert q[i] == p[i - |b| + |a|] && q[i + 1] == p[i + 1 - |b| + |a|]; }
      else if i + 1 < |b| { assert q[i] == b[i] && q[i + 1] == b[i + 1]; }
      else { assert q[i] == b[|b| - 1]; }
    }
    if |p| > |a| { assert q[|q| - 1] == p[|p| - 1]; }
  }

  /** Moving preserves and reflects containment. */
  lemma MovedUnder(p: string, q: string, a: string, b: string)
    requires AtOrUnder(p, a) && AtOrUnder(q, a)
    ensures Under(b + p[|a|..], b + q[|a|..]) <==> Under(p, q)
    ensures b + p[|a|..] == b + q[|a|..] <==> p == q
    ensures AtOrUnder(b + p[|a|..], b)
  {
    UnderShape(p, a); UnderShape(q, a); UnderShape(p, q);
    var p', q' := b + p[|a|..], b + q[|a|..];
    UnderShape(p', q'); UnderShape(p', b);
    assert p == a + p[|a|..] && q == a + q[|a|..];
    assert p'[|b|..] == p[|a|..] && q'[|b|..] == q[|a|..];
    if |p| > |q| {
      assert p'[..|q'|] == b + p[|a|..][..|q| - |a|];
      assert p[..|q|] == a + p[|a|..][..|q| - |a|];
      assert p'[..|q'|] == q' <==> p[..|q|] == q by {
        if p'[..|q'|] == q' { assert p[|a|..][..|q| - |a|] == p'[..|q'|][|b|..]; }
        if p[..|q|] == q { assert p[|a|..][..|q| - |a|] == p[..|q|][|a|..]; }
      }
    }
  }
}
