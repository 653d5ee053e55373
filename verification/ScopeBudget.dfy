/** The byte budget of one scope: newest files first, as many as fit. */
module ScopeBudget {
  import opened Options
  import opened CacheStore

  /** Newest first; files of the same time stay in their order. */
  predicate NewestFirst(cs: seq<Change>)
    requires AllUpserts(cs)
  {
    forall i, j :: 0 <= i < j < |cs| ==> cs[i].mtime >= cs[j].mtime
  }

  predicate AllUpserts(cs: seq<Change>) {
    forall i :: 0 <= i < |cs| ==> cs[i].Upsert?
  }

  /** Places a change behind all that are not older: stable insertion. */
  function Insert(cs: seq<Change>, c: Change): (r: seq<Change>)
    requires AllUpserts(cs) && c.Upsert?
    ensures AllUpserts(r) && multiset(r) == multiset(cs) + multiset{c}
  {
    if cs == [] then [c]
    else
      var k := |cs| - 1;
      if cs[k].mtime >= c.mtime then cs + [c]
      else
        assert cs == cs[..k] + [cs[k]];
        Insert(cs[..k], c) + [cs[k]]
  }

  /** What the code's stable sort by descending time returns. */
  function SortNewestFirst(cs: seq<Change>): (r: seq<Change>)
    requires AllUpserts(cs)
    ensures AllUpserts(r) && multiset(r) == multiset(cs)
  {
    if cs == [] then []
    else
      var k := |cs| - 1;
      assert cs == cs[..k] + [cs[k]];
      Insert(SortNewestFirst(cs[..k]), cs[k])
  }

  lemma AppendOrdered(cs: seq<Change>, c: Change)
    requires AllUpserts(cs) && c.Upsert? && NewestFirst(cs) && forall x :: x in cs ==> x.Upsert? && x.mtime >= c.mtime
    ensures NewestFirst(cs + [c])
  {}

  lemma InsertMembers(cs: seq<Change>, c: Change, x: Change)
    requires AllUpserts(cs) && c.Upsert? && x in Insert(cs, c)
    ensures x in cs || x == c
  {
    assert x in multiset(Insert(cs, c));
  }

  lemma {:induction false} InsertKeepsOrder(cs: seq<Change>, c: Change)
    requires AllUpserts(cs) && c.Upsert? && NewestFirst(cs)
    ensures NewestFirst(Insert(cs, c))
  {
    if cs != [] {
      var k := |cs| - 1;
      if cs[k].mtime < c.mtime {
        InsertKeepsOrder(cs[..k], c);
        forall x | x in Insert(cs[..k], c) ensures x.Upsert? && x.mtime >= cs[k].mtime { InsertMembers(cs[..k], c, x); }
        hide NewestFirst;
        AppendOrdered(Insert(cs[..k], c), cs[k]);
      }
    }
  }

  lemma {:induction false} SortIsNewestFirst(cs: seq<Change>)
    requires AllUpserts(cs)
    ensures NewestFirst(SortNewestFirst(cs))
  {
    if cs != [] {
      SortIsNewestFirst(cs[..|cs| - 1]);
      InsertKeepsOrder(SortNewestFirst(cs[..|cs| - 1]), cs[|cs| - 1]);
    }
  }

  function OfTime(cs: seq<Change>, time: int): seq<Change>
    requires AllUpserts(cs)
  {
    if cs == [] then []
    else OfTime(cs[..|cs| - 1], time) + (if cs[|cs| - 1].mtime == time then [cs[|cs| - 1]] else [])
  }

  lemma {:induction false} InsertIsStable(cs: seq<Change>, c: Change, time: int)
    requires AllUpserts(cs) && c.Upsert?
    ensures OfTime(Insert(cs, c), time) == OfTime(cs, time) + (if c.mtime == time then [c] else [])
  {
    if cs == [] {
      OfTimeSnoc(cs, c, time);
    } else {
      var k := |cs| - 1;
      if cs[k].mtime >= c.mtime {
        OfTimeSnoc(cs, c, time);
      } else {
        InsertIsStable(cs[..k], c, time);
        OfTimeSnoc(Insert(cs[..k], c), cs[k], time);
        NotBoth(OfTime(cs[..k], time), if c.mtime == time then [c] else [], if cs[k].mtime == time then [cs[k]] else []);
      }
    }
  }

  lemma NotBoth(p: seq<Change>, x: seq<Change>, y: seq<Change>)
    requires x == [] || y == []
    ensures p + x + y == p + y + x
  {
    assert p + x + y == p + y + x;
  }

  lemma OfTimeSnoc(cs: seq<Change>, c: Change, time: int)
    requires AllUpserts(cs) && c.Upsert?
    ensures AllUpserts(cs + [c]) && OfTime(cs + [c], time) == OfTime(cs, time) + (if c.mtime == time then [c] else [])
  {
    assert (cs + [c])[..|cs|] == cs;
  }

  /** The sort is stable: the files of each time keep their order. */
  lemma {:induction false} SortIsStable(cs: seq<Change>, time: int)
    requires AllUpserts(cs)
    ensures OfTime(SortNewestFirst(cs), time) == OfTime(cs, time)
  {
    if cs != [] {
      var k := |cs| - 1;
      SortIsStable(cs[..k], time);
      InsertIsStable(SortNewestFirst(cs[..k]), cs[k], time);
    }
  }

  // ---------- the greedy choice ----------

  function ContentSize(c: Change): nat
    requires c.Upsert?
  {
    if c.skipped then 0 else c.size
  }

  function Bytes(cs: seq<Change>): nat
    requires AllUpserts(cs)
  {
    if cs == [] then 0 else Bytes(cs[..|cs| - 1]) + ContentSize(cs[|cs| - 1])
  }

  predicate Fits(used: nat, c: Change, max: nat)
    requires c.Upsert?
  {
    c.skipped || used + c.size <= max
  }

  function Kept(cs: seq<Change>, max: nat): (r: seq<Change>)
    requires AllUpserts(cs)
    ensures AllUpserts(r)
  {
    if cs == [] then []
    else
      var k := |cs| - 1;
      var r := Kept(cs[..k], max);
      if Fits(Bytes(r), cs[k], max) then r + [cs[k]] else r
  }

  function Dropped(cs: seq<Change>, max: nat): (r: seq<Change>)
    requires AllUpserts(cs)
    ensures AllUpserts(r)
  {
    if cs == [] then []
    else
      var k := |cs| - 1;
      var r := Dropped(cs[..k], max);
      if Fits(Bytes(Kept(cs[..k], max)), cs[k], max) then r else r + [cs[k]]
  }

  /** The loop over the sorted changes. */
  method ApplyScopeBudget(adds: seq<Change>, max: nat) returns (kept: seq<Change>, truncated: bool)
    requires AllUpserts(adds)
    ensures kept == Kept(SortNewestFirst(adds), max)
    ensures truncated <==> Dropped(SortNewestFirst(adds), max) != []
  {
    var sorted := SortNewestFirst(adds);
    kept := [];
    var usedBytes := 0;
    truncated := false;
    var n := 0;
    while n < |sorted|
      invariant 0 <= n <= |sorted|
      invariant kept == Kept(sorted[..n], max) && usedBytes == Bytes(kept)
      invariant truncated <==> Dropped(sorted[..n], max) != []
    {
      var entry := sorted[n];
      assert sorted[..n + 1][..n] == sorted[..n];
      assert (kept + [entry])[..|kept|] == kept;
      n := n + 1;
      if entry.skipped { kept := kept + [entry]; continue; }
      if usedBytes + entry.size > max { truncated := true; continue; }
      usedBytes := usedBytes + entry.size;
      kept := kept + [entry];
    }
    assert sorted[..n] == sorted;
  }

  // ---------- what the budget guarantees ----------

  lemma BytesSnoc(cs: seq<Change>, c: Change)
    requires AllUpserts(cs) && c.Upsert?
    ensures AllUpserts(cs + [c]) && Bytes(cs + [c]) == Bytes(cs) + ContentSize(c)
  {
    assert (cs + [c])[..|cs|] == cs;
  }

  lemma {:induction false} GreedySplits(cs: seq<Change>, max: nat)
    requires AllUpserts(cs)
    ensures multiset(Kept(cs, max)) + multiset(Dropped(cs, max)) == multiset(cs)
  {
    if cs != [] {
      var k := |cs| - 1;
      GreedySplits(cs[..k], max);
      hide Bytes, Fits;
      var kept, dropped, c := Kept(cs[..k], max), Dropped(cs[..k], max), cs[k];
      assert cs == cs[..k] + [c];
      if Fits(Bytes(kept), c, max) {
        assert Kept(cs, max) == kept + [c] && Dropped(cs, max) == dropped;
      } else {
        assert Kept(cs, max) == kept && Dropped(cs, max) == dropped + [c];
      }
    }
  }

  /** The kept content fits, and no dropped file would fit beside what was kept in the end. */
  lemma {:induction false} GreedyIsTight(cs: seq<Change>, max: nat)
    requires AllUpserts(cs)
    ensures Bytes(Kept(cs, max)) <= max
    ensures forall c :: c in Dropped(cs, max) ==> c.Upsert? && !c.skipped && Bytes(Kept(cs, max)) + c.size > max
  {
    if cs != [] {
      var k := |cs| - 1;
      GreedyIsTight(cs[..k], max);
      BytesSnoc(Kept(cs[..k], max), cs[k]);
    }
  }

  /** The same of the budget as a whole: it splits its input, keeps all that is skipped, stays within the limit, reports
      truncation exactly when it drops something, and drops nothing that would still fit. */
  lemma BudgetIsSound(adds: seq<Change>, max: nat)
    requires AllUpserts(adds)
    ensures var sorted := SortNewestFirst(adds);
      && multiset(Kept(sorted, max)) + multiset(Dropped(sorted, max)) == multiset(adds)
      && Bytes(Kept(sorted, max)) <= max
      && (forall c :: c in Dropped(sorted, max) ==> c.Upsert? && !c.skipped && Bytes(Kept(sorted, max)) + c.size > max)
      && (Dropped(sorted, max) == [] <==> multiset(Kept(sorted, max)) == multiset(adds))
  {
    GreedySplits(SortNewestFirst(adds), max);
    GreedyIsTight(SortNewestFirst(adds), max);
    hide Bytes, Kept, Dropped;
    var d := Dropped(SortNewestFirst(adds), max);
    if d != [] { assert d[0] in multiset(d); assert |multiset(d)| == |d|; }
  }

  // ---------- newer files come first ----------

  /** The files that are at least as new. */
  function NoOlder(cs: seq<Change>, time: int): (r: seq<Change>)
    requires AllUpserts(cs)
    ensures AllUpserts(r)
    ensures (forall c :: c in cs ==> c.Upsert? && c.mtime >= time) ==> r == cs
  {
    if cs == [] then []
    else
      var k := |cs| - 1;
      assert cs == cs[..k] + [cs[k]];
      NoOlder(cs[..k], time) + (if cs[k].mtime >= time then [cs[k]] else [])
  }

  lemma NoOlderSnoc(cs: seq<Change>, c: Change, time: int)
    requires AllUpserts(cs) && c.Upsert?
    ensures AllUpserts(cs + [c]) && NoOlder(cs + [c], time) == NoOlder(cs, time) + (if c.mtime >= time then [c] else [])
    ensures Bytes(NoOlder(cs + [c], time)) >= Bytes(NoOlder(cs, time))
  {
    assert (cs + [c])[..|cs|] == cs;
    assert NoOlder(cs, time) + [] == NoOlder(cs, time);
    BytesSnoc(NoOlder(cs, time), c);
  }

  lemma {:induction false} KeptAreMembers(cs: seq<Change>, max: nat, c: Change)
    requires AllUpserts(cs) && (c in Kept(cs, max) || c in Dropped(cs, max))
    ensures c in cs
  {
    GreedySplits(cs, max);
    hide Kept, Dropped;
    assert c in multiset(Kept(cs, max)) + multiset(Dropped(cs, max));
    assert c in multiset(cs);
  }

  /** For a dropped file the kept files that are at least as new leave no room. */
  lemma {:induction false} NewerFilesFill(cs: seq<Change>, max: nat, c: Change)
    requires AllUpserts(cs) && NewestFirst(cs) && c in Dropped(cs, max)
    ensures c.Upsert? && !c.skipped && Bytes(NoOlder(Kept(cs, max), c.mtime)) + c.size > max
  {
    var k := |cs| - 1;
    var r := Kept(cs[..k], max);
    assert NewestFirst(cs[..k]);
    if c in Dropped(cs[..k], max) {
      NewerFilesFill(cs[..k], max, c);
      NoOlderSnoc(r, cs[k], c.mtime);
    } else {
      forall d | d in r ensures d.Upsert? && d.mtime >= c.mtime { KeptAreMembers(cs[..k], max, d); }
      assert NoOlder(r, c.mtime) == r;
    }
  }

  lemma {:induction false} OlderTakesMore(cs: seq<Change>, time: int, d: Change)
    requires AllUpserts(cs) && d in cs && !d.skipped && d.mtime < time
    ensures Bytes(NoOlder(cs, time)) + d.size <= Bytes(cs)
  {
    var k := |cs| - 1;
    assert cs == cs[..k] + [cs[k]];
    NoOlderSnoc(cs[..k], cs[k], time);
    BytesSnoc(NoOlder(cs[..k], time), cs[k]);
    BytesSnoc(cs[..k], cs[k]);
    assert NoOlder(cs, time) == NoOlder(cs[..k], time) + if cs[k].mtime >= time then [cs[k]] else [];
    assert NoOlder(cs[..k], time) + [] == NoOlder(cs[..k], time);
    if d in cs[..k] { OlderTakesMore(cs[..k], time, d); } else { NoOlderIsLess(cs[..k], time); }
  }

  lemma {:induction false} NoOlderIsLess(cs: seq<Change>, time: int)
    requires AllUpserts(cs)
    ensures Bytes(NoOlder(cs, time)) <= Bytes(cs)
  {
    if cs != [] {
      var k := |cs| - 1;
      NoOlderIsLess(cs[..k], time);
      assert cs == cs[..k] + [cs[k]];
      BytesSnoc(NoOlder(cs[..k], time), cs[k]);
      assert NoOlder(cs[..k], time) + [] == NoOlder(cs[..k], time);
    }
  }

  /** A file is dropped exactly because of files that are at least as new: they fill the budget so far that it does not fit.
      Whatever older content is kept is smaller than it. */
  lemma NewerFilesWin(adds: seq<Change>, max: nat, c: Change)
    requires AllUpserts(adds) && c in Dropped(SortNewestFirst(adds), max)
    ensures var kept := Kept(SortNewestFirst(adds), max);
      && c.Upsert? && !c.skipped && Bytes(NoOlder(kept, c.mtime)) + c.size > max
      && forall d :: d in kept && d.Upsert? && !d.skipped && d.mtime < c.mtime ==> d.size < c.size
  {
    hide Kept, Dropped, Bytes, NoOlder, NewestFirst;
    var sorted := SortNewestFirst(adds);
    SortIsNewestFirst(adds);
    NewerFilesFill(sorted, max, c);
    GreedyIsTight(sorted, max);
    var kept := Kept(sorted, max);
    forall d | d in kept && d.Upsert? && !d.skipped && d.mtime < c.mtime ensures d.size < c.size {
      OlderTakesMore(kept, c.mtime, d);
    }
  }

  /** Without ties in time the outcome does not depend on the order of the input. */
  predicate DistinctTimes(cs: seq<Change>)
    requires AllUpserts(cs)
  {
    forall i, j :: 0 <= i < |cs| && 0 <= j < |cs| && i != j ==> cs[i].mtime != cs[j].mtime
  }

  lemma LastIsSame(a: seq<Change>, b: seq<Change>)
    requires AllUpserts(a) && AllUpserts(b) && NewestFirst(a) && NewestFirst(b) && DistinctTimes(a) && multiset(a) == multiset(b)
    requires a != [] && |a| == |b|
    ensures a[|a| - 1] == b[|b| - 1]
  {
    var k := |a| - 1;
    assert a[k] in multiset(b) && b[k] in multiset(a);
    var i :| 0 <= i < |b| && b[i] == a[k];
    var j :| 0 <= j < |a| && a[j] == b[k];
    assert b[i].mtime >= b[k].mtime && a[j].mtime >= a[k].mtime;
  }

  lemma SameWithoutLast(a: seq<Change>, b: seq<Change>)
    requires a != [] && |a| == |b| && a[|a| - 1] == b[|b| - 1] && multiset(a) == multiset(b)
    ensures multiset(a[..|a| - 1]) == multiset(b[..|b| - 1])
  {
    var k := |a| - 1;
    assert a == a[..k] + [a[k]] && b == b[..k] + [b[k]];
    assert multiset(a[..k]) == multiset(a) - multiset{a[k]};
    assert multiset(b[..k]) == multiset(b) - multiset{a[k]};
  }

  /** Two descending lists of the same changes with distinct times are the same list. */
  lemma {:induction false} DescendingUnique(a: seq<Change>, b: seq<Change>)
    requires AllUpserts(a) && AllUpserts(b) && NewestFirst(a) && NewestFirst(b) && DistinctTimes(a) && multiset(a) == multiset(b)
    ensures a == b
  {
    assert |a| == |multiset(a)| == |multiset(b)| == |b|;
    if a != [] {
      var k := |a| - 1;
      LastIsSame(a, b);
      assert NewestFirst(a[..k]) && NewestFirst(b[..k]) && DistinctTimes(a[..k]);
      hide NewestFirst, DistinctTimes;
      SameWithoutLast(a, b);
      DescendingUnique(a[..k], b[..k]);
      assert a == a[..k] + [a[k]] && b == b[..k] + [b[k]];
    }
  }

  lemma SortKeepsTimesDistinct(cs: seq<Change>)
    requires AllUpserts(cs) && DistinctTimes(cs)
    ensures DistinctTimes(SortNewestFirst(cs))
  {
    SameTimesDistinct(cs, SortNewestFirst(cs));
  }

  /** A permutation of changes with distinct times has distinct times. */
  lemma {:induction false} SameTimesDistinct(a: seq<Change>, b: seq<Change>)
    requires AllUpserts(a) && AllUpserts(b) && DistinctTimes(a) && multiset(a) == multiset(b)
    ensures DistinctTimes(b)
  {
    forall i, j | 0 <= i < j < |b| ensures b[i].mtime != b[j].mtime {
      assert b[i] in multiset(a) && b[j] in multiset(a);
      var x :| 0 <= x < |a| && a[x] == b[i];
      var y :| 0 <= y < |a| && a[y] == b[j];
      if x == y { TwiceIn(b, i, j); OnceIn(a, x); }
    }
  }

  lemma TwiceIn(b: seq<Change>, i: nat, j: nat)
    requires i < j < |b| && b[i] == b[j]
    ensures multiset(b)[b[i]] >= 2
  {
    assert b == b[..j] + [b[j]] + b[j + 1..];
    assert b[i] in b[..j];
    assert multiset(b) == multiset(b[..j]) + multiset{b[j]} + multiset(b[j + 1..]);
  }

  lemma OnceIn(a: seq<Change>, x: nat)
    requires AllUpserts(a) && DistinctTimes(a) && x < |a|
    ensures multiset(a)[a[x]] == 1
  {
    assert a == a[..x] + [a[x]] + a[x + 1..];
    assert a[x] !in a[..x] && a[x] !in a[x + 1..];
    assert multiset(a) == multiset(a[..x]) + multiset{a[x]} + multiset(a[x + 1..]);
  }

  lemma OrderIsIrrelevant(adds: seq<Change>, other: seq<Change>, max: nat)
    requires AllUpserts(adds) && AllUpserts(other) && DistinctTimes(adds) && multiset(adds) == multiset(other)
    ensures Kept(SortNewestFirst(adds), max) == Kept(SortNewestFirst(other), max)
    ensures Dropped(SortNewestFirst(adds), max) == Dropped(SortNewestFirst(other), max)
  {
    SortIsNewestFirst(adds);
    SortIsNewestFirst(other);
    SortKeepsTimesDistinct(adds);
    DescendingUnique(SortNewestFirst(adds), SortNewestFirst(other));
  }

  /** With a tie, order matters: of two files of the same time that fit alone but not together, the first is kept. */
  lemma TiesDependOnOrder(a: Change, b: Change, max: nat)
    requires a.Upsert? && b.Upsert? && a.mtime == b.mtime && !a.skipped && !b.skipped
    requires a.size <= max && b.size <= max && a.size + b.size > max
    ensures Kept(SortNewestFirst([a, b]), max) == [a] && Kept(SortNewestFirst([b, a]), max) == [b]
  {
    KeptOfTwo(a, b, max);
    KeptOfTwo(b, a, max);
  }

  lemma KeptOfTwo(a: Change, b: Change, max: nat)
    requires a.Upsert? && b.Upsert? && a.mtime == b.mtime && !a.skipped && !b.skipped
    requires a.size <= max && b.size <= max && a.size + b.size > max
    ensures Kept(SortNewestFirst([a, b]), max) == [a]
  {
    assert [a, b][..1] == [a] && [a][..0] == [];
    assert SortNewestFirst([a]) == [a];
    assert SortNewestFirst([a, b]) == [a, b];
    assert Kept([], max) == [] && Bytes([]) == 0;
    assert Kept([a], max) == [a];
    assert Bytes([a]) == a.size;
  }
}
