/** Range scans over a sorted array of paths. */
module PathScan {
  import opened StringOrder
  import opened Paths

  /** What a scan of the sorted keys from `dir` collects before it meets a path that is not at or below `dir`. */
  ghost function Scanned(keys: set<string>, dir: string): set<string> {
    set k | k in keys && AtOrUnder(k, dir) && ScanReaches(keys, dir, k)
  }

  ghost predicate ScanReaches(keys: set<string>, dir: string, k: string) {
    forall q :: q in keys && Leq(dir, q) && Leq(q, k) ==> AtOrUnder(q, dir)
  }

  /** A scan that starts at the first key not below `dir` and stops at the first key outside collects `Scanned`. */
  lemma ScanCollects(all: seq<string>, dir: string, lo: nat, hi: nat)
    requires Sorted(all) && lo <= hi <= |all|
    requires forall i :: 0 <= i < lo ==> Less(all[i], dir)
    requires forall i :: lo <= i < |all| ==> Leq(dir, all[i])
    requires forall i :: lo <= i < hi ==> AtOrUnder(all[i], dir)
    requires hi < |all| ==> !AtOrUnder(all[hi], dir)
    ensures Elems(all[lo..hi]) == Scanned(Elems(all), dir)
  {
    forall k | k in Elems(all[lo..hi]) ensures k in Scanned(Elems(all), dir) {
      var i :| 0 <= i < hi - lo && all[lo..hi][i] == k;
      assert all[lo + i] == k;
      forall q | q in Elems(all) && Leq(dir, q) && Leq(q, k) ensures AtOrUnder(q, dir) {
        var j :| 0 <= j < |all| && all[j] == q;
        TotalOrder(q, dir);
        if j > lo + i { TotalOrder(k, q); }
      }
    }
    forall k | k in Scanned(Elems(all), dir) ensures k in Elems(all[lo..hi]) {
      var j :| 0 <= j < |all| && all[j] == k;
      if k != dir { UnderIsGreater(k, dir); }
      TotalOrder(k, dir);
      forall i | hi <= i < |all| ensures all[i] !in Scanned(Elems(all), dir) { BeyondScan(all, dir, hi, i); }
      assert all[lo..hi][j - lo] == k;
    }
  }

  /** Nothing at or after the key that stopped the scan is collected. */
  lemma BeyondScan(all: seq<string>, dir: string, hi: nat, i: nat)
    requires Sorted(all) && hi <= i < |all| && Leq(dir, all[hi]) && !AtOrUnder(all[hi], dir)
    ensures all[i] !in Scanned(Elems(all), dir)
  {
    assert all[hi] in Elems(all) && Leq(all[hi], all[i]);
  }

  /** A scan from the first key not below `prefix` collects every key that starts with `prefix`. */
  lemma PrefixScanCollects(all: seq<string>, prefix: string, lo: nat, hi: nat)
    requires Sorted(all) && lo <= hi <= |all|
    requires forall i :: 0 <= i < lo ==> Less(all[i], prefix)
    requires forall i :: lo <= i < |all| ==> Leq(prefix, all[i])
    requires forall i :: lo <= i < hi ==> StartsWith(all[i], prefix)
    requires hi < |all| ==> !StartsWith(all[hi], prefix)
    ensures Elems(all[lo..hi]) == set m | m in Elems(all) && StartsWith(m, prefix)
  {
    forall k | k in Elems(all[lo..hi]) ensures k in Elems(all) && StartsWith(k, prefix) {
      var i :| 0 <= i < hi - lo && all[lo..hi][i] == k;
      assert all[lo + i] == k;
    }
    forall k | k in Elems(all) && StartsWith(k, prefix) ensures k in Elems(all[lo..hi]) {
      var j :| 0 <= j < |all| && all[j] == k;
      PrefixIsLeq(prefix, k);
      TotalOrder(k, prefix);
      if j >= hi {
        PrefixInterval(prefix, all[hi], k);
        assert false;
      }
      assert all[lo..hi][j - lo] == k;
    }
  }

  /** A stored path between `dir` and `dir + "/"` with a stored path below `dir` after it. */
  ghost predicate ScanBlocked(keys: set<string>, dir: string) {
    exists b, d :: b in keys && d in keys && Less(dir, b) && Less(b, dir + "/") && Under(d, dir)
  }

  /** A scan touches only the directory and what lies below it. It touches all of that exactly when no stored path
      such as `dir-x` or `dir.x` sorts between the directory and a stored descendant. */
  lemma ScanComplete(keys: set<string>, dir: string)
    ensures Scanned(keys, dir) <= (set k | k in keys && AtOrUnder(k, dir))
    ensures Scanned(keys, dir) == (set k | k in keys && AtOrUnder(k, dir)) <==> !ScanBlocked(keys, dir)
  {
    var all := set k | k in keys && AtOrUnder(k, dir);
    if ScanBlocked(keys, dir) {
      var b, d :| b in keys && d in keys && Less(dir, b) && Less(b, dir + "/") && Under(d, dir);
      UnderIsGreater(d, dir);
      LeqTransitive(b, dir + "/", d);
      assert !AtOrUnder(b, dir) by {
        Asymmetric(dir, b);
        if Under(b, dir) { UnderIsGreater(b, dir); TotalOrder(b, dir + "/"); }
      }
      assert d in all && d !in Scanned(keys, dir);
    }
    if Scanned(keys, dir) != all {
      var k :| k in all && k !in Scanned(keys, dir);
      var q :| q in keys && Leq(dir, q) && Leq(q, k) && !AtOrUnder(q, dir);
      assert Under(k, dir) by {
        if k == dir { LeqAntisymmetric(q, k); }
      }
      assert Less(q, dir + "/") by {
        TotalOrder(q, dir + "/");
        if Leq(dir + "/", q) { PrefixInterval(dir + "/", q, k); }
      }
      assert q in keys && k in keys && Less(dir, q);
    }
  }
}
