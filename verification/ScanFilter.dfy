/** Which paths the client's include and exclude lists keep out of a scan. */
module ScanFilter {
  import opened StringOrder
  import opened Paths

  predicate IsUnderOrAncestorOf(r: string, prefix: string) {
    prefix == "" || r == "" || r == prefix || StartsWith(r, prefix + "/") || StartsWith(prefix, r + "/")
  }

  /** Configured directories are trimmed of slashes; those that become empty do not count. */
  function Nonempty(dirs: seq<string>): seq<string> {
    if dirs == [] then []
    else if dirs[|dirs| - 1] == "" then Nonempty(dirs[..|dirs| - 1])
    else Nonempty(dirs[..|dirs| - 1]) + [dirs[|dirs| - 1]]
  }

  /** True if the path is to be skipped. Paths without '/' pass the include list always. */
  predicate Skips(includeDirs: seq<string>, excludeDirs: seq<string>, r: string) {
    var includes, excludes := Nonempty(includeDirs), Nonempty(excludeDirs);
    || (|includes| > 0 && '/' in r && !exists i :: 0 <= i < |includes| && IsUnderOrAncestorOf(r, includes[i]))
    || exists i :: 0 <= i < |excludes| && (r == excludes[i] || StartsWith(r, excludes[i] + "/"))
  }

  function Filter(includeDirs: seq<string>, excludeDirs: seq<string>): string -> bool {
    r => Skips(includeDirs, excludeDirs, r)
  }

  /** Whoever keeps a path keeps every directory above it, so that a walk that prunes skipped directories finds it. */
  ghost predicate KeepsAncestors(skip: string -> bool) {
    forall r, a :: a != "" && Under(r, a) && !skip(r) ==> !skip(a)
  }

  lemma FilterKeepsAncestor(includeDirs: seq<string>, excludeDirs: seq<string>, r: string, a: string)
    requires a != "" && Under(r, a) && !Skips(includeDirs, excludeDirs, r)
    ensures !Skips(includeDirs, excludeDirs, a)
  {
    var includes, excludes := Nonempty(includeDirs), Nonempty(excludeDirs);
    forall i | 0 <= i < |excludes| ensures !AtOrUnder(a, excludes[i]) {
      if AtOrUnder(a, excludes[i]) { UnderTransitive(r, a, excludes[i]); }
    }
    UnderShape(r, a);
    assert '/' in r by { assert r[|a|] == '/'; }
    if |includes| > 0 {
      var i :| 0 <= i < |includes| && IsUnderOrAncestorOf(r, includes[i]);
      if Under(includes[i], r) { UnderTransitive(includes[i], r, a); }
      if AtOrUnder(r, includes[i]) { AncestorsLinear(r, a, includes[i]); }
      assert IsUnderOrAncestorOf(a, includes[i]);
    }
  }

  /** The scan filter keeps the ancestors of what it keeps. */
  lemma FilterKeepsAncestors(includeDirs: seq<string>, excludeDirs: seq<string>)
    ensures KeepsAncestors(Filter(includeDirs, excludeDirs))
  {
    forall r, a | a != "" && Under(r, a) && !Skips(includeDirs, excludeDirs, r) ensures !Skips(includeDirs, excludeDirs, a) {
      FilterKeepsAncestor(includeDirs, excludeDirs, r, a);
    }
  }

  /** A kept path below the top level lies in the cone of some include directory and in no excluded one, and conversely. */
  lemma KeptExactly(includeDirs: seq<string>, excludeDirs: seq<string>, r: string)
    ensures !Skips(includeDirs, excludeDirs, r) <==>
      && (Nonempty(includeDirs) == [] || '/' !in r || r == ""
          || exists d :: d in includeDirs && d != "" && (AtOrUnder(r, d) || Under(d, r)))
      && !exists d :: d in excludeDirs && d != "" && AtOrUnder(r, d)
  {
    NonemptyExactly(includeDirs);
    NonemptyExactly(excludeDirs);
    var includes, excludes := Nonempty(includeDirs), Nonempty(excludeDirs);
    forall d | d in includes && (AtOrUnder(r, d) || Under(d, r))
      ensures exists i :: 0 <= i < |includes| && IsUnderOrAncestorOf(r, includes[i])
    {
      var i :| 0 <= i < |includes| && includes[i] == d;
      assert IsUnderOrAncestorOf(r, includes[i]);
    }
    forall i | 0 <= i < |includes| && IsUnderOrAncestorOf(r, includes[i]) ensures includes[i] in includes {}
    forall d | d in excludes && AtOrUnder(r, d) ensures exists i :: 0 <= i < |excludes| && AtOrUnder(r, excludes[i]) {
      var i :| 0 <= i < |excludes| && excludes[i] == d;
    }
    forall i | 0 <= i < |excludes| ensures excludes[i] in excludes {}
  }

  lemma {:induction false} NonemptyExactly(dirs: seq<string>)
    ensures forall d :: d in Nonempty(dirs) <==> d in dirs && d != ""
  {
    if dirs != [] {
      NonemptyExactly(dirs[..|dirs| - 1]);
      assert dirs == dirs[..|dirs| - 1] + [dirs[|dirs| - 1]];
    }
  }
}
