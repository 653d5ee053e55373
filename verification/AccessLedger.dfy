/** The access ledger of one device: which paths were seen as files, directories or missing.
    `View` is the value of the runtime object; the functions on it say what each operation does. */
module AccessLedger {
  import opened StringOrder
  import opened Paths
  import opened PathScan

  datatype Entry =
    | File(lastAccessedAt: int)
    | Dir(lastAccessedAt: int, readdirObserved: bool)
    | Missing(lastAccessedAt: int)

  type Entries = map<string, Entry>

  /** The map, and the contents of the two secondary indexes that the code keeps beside it. */
  datatype View = View(entries: Entries, missing: set<string>, observed: set<string>, revision: int)

  predicate IsMissing(es: Entries, p: string) {
    p in es && es[p].Missing?
  }

  predicate IsObserved(es: Entries, p: string) {
    p in es && es[p].Dir? && es[p].readdirObserved
  }

  function MissingKeys(es: Entries): set<string> {
    set p | p in es && es[p].Missing?
  }

  function ObservedKeys(es: Entries): set<string> {
    set p | p in es && es[p].Dir? && es[p].readdirObserved
  }

  /** Both indexes say exactly what the map says. */
  predicate Agrees(v: View) {
    v.missing == MissingKeys(v.entries) && v.observed == ObservedKeys(v.entries)
  }

  /** Every stored path is normalised; "/" is never stored. */
  predicate Normal(v: View) {
    forall p :: p in v.entries ==> AbsPath(p)
  }

  // ---------- what the operations do ----------

  function UpsertFile(v: View, p: string, at: int): View {
    v.(entries := v.entries[p := File(at)],
       missing := if IsMissing(v.entries, p) then v.missing - {p} else v.missing,
       observed := if p in v.entries && v.entries[p].Dir? then v.observed - {p} else v.observed)
  }

  function UpsertDir(v: View, p: string, at: int, readdir: bool): View {
    var r := readdir || IsObserved(v.entries, p);
    v.(entries := v.entries[p := Dir(at, r)],
       missing := if IsMissing(v.entries, p) then v.missing - {p} else v.missing,
       observed := if r then v.observed + {p} else v.observed)
  }

  function RemovePaths(v: View, ps: set<string>): View {
    v.(entries := v.entries - ps, missing := v.missing - ps, observed := v.observed - ps)
  }

  function RemoveFile(v: View, p: string): View {
    if p in v.entries then RemovePaths(v, {p}) else v
  }

  predicate HasMissingAncestor(es: Entries, p: string)
    requires AbsPath(p)
  {
    exists a :: a in ProperAncestors(p) && IsMissing(es, a)
  }

  /** The entries of the missing index that lie strictly below `p`. */
  function Absorbed(v: View, p: string): set<string> {
    set m | m in v.missing && Under(m, p)
  }

  function UpsertMissing(v: View, p: string, at: int): View
    requires AbsPath(p)
  {
    if HasMissingAncestor(v.entries, p) then
      if IsMissing(v.entries, p) && at > v.entries[p].lastAccessedAt
      then v.(entries := v.entries[p := Missing(at)]) else v
    else
      var absorbed := Absorbed(v, p);
      var es := v.entries - absorbed;
      v.(entries := es[p := Missing(at)],
         missing := v.missing - absorbed + {p},
         observed := if p in es && es[p].Dir? then v.observed - {p} else v.observed)
  }

  /** The missing entries among `p` and its ancestors, "/" excepted. */
  function Invalidated(es: Entries, p: string): set<string>
    requires AbsPath(p)
  {
    set a | a in ProperAncestors(p) + {p} && a != "/" && IsMissing(es, a)
  }

  function InvalidateMissing(v: View, p: string): View
    requires AbsPath(p)
  {
    var d := Invalidated(v.entries, p);
    v.(entries := v.entries - d, missing := v.missing - d)
  }

  /** The same, one directory at a time. */
  function InvalidateFrom(v: View, p: string): View
    requires p == "/" || AbsPath(p)
    decreases |p|
  {
    if p == "/" then v
    else
      DirnameOfAbs(p);
      InvalidateFrom(if IsMissing(v.entries, p) then v.(entries := v.entries - {p}, missing := v.missing - {p}) else v, Dirname(p))
  }

  lemma LongerThanAncestors(p: string, a: string)
    requires p == "/" || AbsPath(p)
    requires a in ProperAncestors(p)
    ensures |a| < |p|
    decreases |p|
  {
    DirnameOfAbs(p);
    if a != Dirname(p) { LongerThanAncestors(Dirname(p), a); }
  }

  lemma {:induction false} InvalidateFromExact(v: View, p: string)
    requires AbsPath(p)
    ensures InvalidateFrom(v, p) == InvalidateMissing(v, p)
    decreases |p|
  {
    DirnameOfAbs(p);
    var d := Dirname(p);
    var v1 := if IsMissing(v.entries, p) then v.(entries := v.entries - {p}, missing := v.missing - {p}) else v;
    forall a | a in ProperAncestors(d) + {d} ensures a != p {
      if a in ProperAncestors(d) { LongerThanAncestors(d, a); }
    }
    if d == "/" {
      assert Invalidated(v.entries, p) == if IsMissing(v.entries, p) then {p} else {};
    } else {
      InvalidateFromExact(v1, d);
      assert Invalidated(v.entries, p) == Invalidated(v1.entries, d) + if IsMissing(v.entries, p) then {p} else {};
    }
  }

  ghost function RemoveSubtree(v: View, dir: string): View {
    RemovePaths(v, Scanned(v.entries.Keys, dir))
  }

  function Moved(p: string, from: string, to: string): string
    requires AtOrUnder(p, from)
  {
    UnderShape(p, from);
    to + p[|from|..]
  }

  /** The moved entries, at their new paths. */
  ghost function MovedEntries(es: Entries, ps: set<string>, from: string, to: string): (r: Entries)
    requires ps <= es.Keys && forall p :: p in ps ==> AtOrUnder(p, from)
    ensures forall p :: p in ps ==> Moved(p, from, to) in r && r[Moved(p, from, to)] == es[p]
    ensures forall t :: t in r ==> exists p :: p in ps && t == Moved(p, from, to)
  {
    assert forall p, q | p in ps && q in ps && Moved(p, from, to) == Moved(q, from, to) :: p == q by {
      forall p, q | p in ps && q in ps && Moved(p, from, to) == Moved(q, from, to) ensures p == q {
        MovedUnder(p, q, from, to);
      }
    }
    map p | p in ps :: Moved(p, from, to) := es[p]
  }

  /** Stores `m` over `v`; the indexes only ever gain paths. */
  function PutAll(v: View, m: Entries): View {
    v.(entries := v.entries + m, missing := v.missing + MissingKeys(m), observed := v.observed + ObservedKeys(m))
  }

  function Put(v: View, p: string, e: Entry): View {
    v.(entries := v.entries[p := e],
       missing := if e.Missing? then v.missing + {p} else v.missing,
       observed := if e.Dir? && e.readdirObserved then v.observed + {p} else v.observed)
  }

  ghost function Rename(v: View, from: string, to: string): View {
    var ps := Scanned(v.entries.Keys, from);
    PutAll(RemovePaths(v, ps), MovedEntries(v.entries, ps, from, to))
  }

  function WithTime(e: Entry, at: int): Entry {
    match e
    case File(_) => File(at)
    case Dir(_, r) => Dir(at, r)
    case Missing(_) => Missing(at)
  }

  function Touch(v: View, p: string, at: int): View {
    if p in v.entries then v.(entries := v.entries[p := WithTime(v.entries[p], at)]) else v
  }

  function Expired(v: View, cutoff: int): set<string> {
    set m | m in v.missing && IsMissing(v.entries, m) && v.entries[m].lastAccessedAt < cutoff
  }

  function Age(v: View, now: int, ageMs: int): View {
    var d := Expired(v, now - ageMs);
    v.(entries := v.entries - d, missing := v.missing - d)
  }

  // ---------- the runtime object ----------

  lemma ElemsSnoc(s: seq<string>, n: nat)
    requires n < |s|
    ensures Elems(s[..n + 1]) == Elems(s[..n]) + {s[n]}
  {
    forall x | x in Elems(s[..n]) + {s[n]} ensures x in Elems(s[..n + 1]) {
      if x == s[n] { assert s[..n + 1][n] == x; }
      else { var i :| 0 <= i < n && s[..n][i] == x; assert s[..n + 1][i] == x; }
    }
  }

  class AccessLedgerRuntime {
    const deviceId: string
    var entries: Entries
    var missingSorted: seq<string>
    var allPathsSorted: seq<string>
    var dirsReaddirObserved: set<string>
    var revision: int

    /** The arrays are strictly ascending, and `allPathsSorted` holds exactly the keys of the map. */
    ghost predicate Valid() reads this {
      Sorted(missingSorted) && Sorted(allPathsSorted) && Elems(allPathsSorted) == entries.Keys
    }

    ghost function Value(): View reads this {
      View(entries, Elems(missingSorted), dirsReaddirObserved, revision)
    }

    constructor (deviceId: string)
      ensures Valid() && this.deviceId == deviceId
      ensures Value() == View(map[], {}, {}, 0)
    {
      this.deviceId := deviceId;
      entries, missingSorted, allPathsSorted, dirsReaddirObserved, revision := map[], [], [], {}, 0;
    }

    method SetRevision(r: int)
      requires Valid()
      modifies this
      ensures Valid() && Value() == old(Value()).(revision := r)
    { revision := r; }

    method BumpRevision()
      requires Valid()
      modifies this
      ensures Valid() && Value() == old(Value()).(revision := old(revision) + 1)
    { revision := revision + 1; }

    method UpsertFilePresent(path: string, at: int)
      requires Valid()
      modifies this
      ensures Valid() && Value() == UpsertFile(old(Value()), path, at)
    {
      var existed := path in entries;
      if existed && entries[path].Dir? { dirsReaddirObserved := dirsReaddirObserved - {path}; }
      if existed && entries[path].Missing? { missingSorted := RemoveFromSorted(missingSorted, path); }
      entries := entries[path := File(at)];
      if !existed { allPathsSorted := InsertSorted(allPathsSorted, path); }
    }

    method UpsertDirPresent(path: string, at: int, readdirObserved: bool)
      requires Valid()
      modifies this
      ensures Valid() && Value() == UpsertDir(old(Value()), path, at, readdirObserved)
    {
      var existed := path in entries;
      var prevReaddir := if existed && entries[path].Dir? then entries[path].readdirObserved else false;
      var finalReaddir := prevReaddir || readdirObserved;
      if existed && entries[path].Missing? { missingSorted := RemoveFromSorted(missingSorted, path); }
      entries := entries[path := Dir(at, finalReaddir)];
      if !existed { allPathsSorted := InsertSorted(allPathsSorted, path); }
      if finalReaddir { dirsReaddirObserved := dirsReaddirObserved + {path}; }
    }

    method RemoveFilePresent(path: string)
      requires Valid()
      modifies this
      ensures Valid() && Value() == RemoveFile(old(Value()), path)
    {
      if path in entries {
        entries := entries - {path};
        allPathsSorted := RemoveFromSorted(allPathsSorted, path);
        missingSorted := RemoveFromSorted(missingSorted, path);
        dirsReaddirObserved := dirsReaddirObserved - {path};
      }
    }

    method HasMissingAncestorOf(path: string) returns (found: bool)
      requires AbsPath(path)
      ensures found <==> HasMissingAncestor(entries, path)
    {
      var current := path;
      while current != "/" && current != ""
        invariant current == "/" || AbsPath(current)
        invariant forall a :: a in ProperAncestors(path) - ProperAncestors(current) ==> !IsMissing(entries, a)
        invariant ProperAncestors(current) <= ProperAncestors(path)
        decreases |current|
      {
        DirnameOfAbs(current);
        var parent := Dirname(current);
        if parent == current { break; }
        if parent in entries && entries[parent].Missing? { return true; }
        current := parent;
      }
      found := false;
    }

    method UpsertMissingEntry(ancestor: string, at: int)
      requires Valid() && AbsPath(ancestor)
      modifies this
      ensures Valid() && Value() == UpsertMissing(old(Value()), ancestor, at)
    {
      var covered := HasMissingAncestorOf(ancestor);
      if covered {
        if ancestor in entries && entries[ancestor].Missing? && at > entries[ancestor].lastAccessedAt {
          entries := entries[ancestor := Missing(at)];
        }
        return;
      }
      var prefix := ancestor + "/";
      var lo := LowerBound(missingSorted, prefix);
      var idx := lo;
      while idx < |missingSorted| && prefix <= missingSorted[idx]
        invariant lo <= idx <= |missingSorted|
        invariant forall i :: lo <= i < idx ==> StartsWith(missingSorted[i], prefix)
      {
        idx := idx + 1;
      }
      var toAbsorb := missingSorted[lo..idx];
      PrefixScanCollects(missingSorted, prefix, lo, idx);
      assert Elems(toAbsorb) == Absorbed(Value(), ancestor);
      DeleteMissing(toAbsorb);

      var existed := ancestor in entries;
      if existed && entries[ancestor].Dir? { dirsReaddirObserved := dirsReaddirObserved - {ancestor}; }
      entries := entries[ancestor := Missing(at)];
      if !existed { allPathsSorted := InsertSorted(allPathsSorted, ancestor); }
      missingSorted := InsertSorted(missingSorted, ancestor);
    }

    /** The shared loop body of absorption and aging: drops entries known to be missing. */
    method DeleteMissing(ps: seq<string>)
      requires Valid()
      modifies this
      ensures Valid()
      ensures Value() == old(Value()).(entries := old(entries) - Elems(ps), missing := old(Value().missing) - Elems(ps))
    {
      var n := 0;
      while n < |ps|
        invariant 0 <= n <= |ps| && Valid()
        invariant Value() == old(Value()).(entries := old(entries) - Elems(ps[..n]), missing := old(Value().missing) - Elems(ps[..n]))
      {
        ElemsSnoc(ps, n);
        entries := entries - {ps[n]};
        missingSorted := RemoveFromSorted(missingSorted, ps[n]);
        allPathsSorted := RemoveFromSorted(allPathsSorted, ps[n]);
        n := n + 1;
      }
      assert ps[..n] == ps;
    }

    method InvalidateMissingPrefixes(path: string)
      requires Valid() && AbsPath(path)
      modifies this
      ensures Valid() && Value() == InvalidateMissing(old(Value()), path)
    {
      var current := path;
      while current != "/" && current != ""
        invariant Valid() && (current == "/" || AbsPath(current))
        invariant InvalidateFrom(Value(), current) == InvalidateFrom(old(Value()), path)
        decreases |current|
      {
        DirnameOfAbs(current);
        if current in entries && entries[current].Missing? {
          entries := entries - {current};
          missingSorted := RemoveFromSorted(missingSorted, current);
          allPathsSorted := RemoveFromSorted(allPathsSorted, current);
        }
        var parent := Dirname(current);
        if parent == current { break; }
        current := parent;
      }
      InvalidateFromExact(old(Value()), path);
    }

    /** The keys a scan from `dir` collects, in order. */
    method ScanFrom(dir: string) returns (found: seq<string>)
      requires Valid()
      ensures Sorted(found) && Elems(found) == Scanned(entries.Keys, dir)
    {
      var lo := LowerBound(allPathsSorted, dir);
      var idx := lo;
      while idx < |allPathsSorted|
        invariant lo <= idx <= |allPathsSorted|
        invariant forall i :: lo <= i < idx ==> AtOrUnder(allPathsSorted[i], dir)
      {
        var candidate := allPathsSorted[idx];
        if candidate != dir && !(dir + "/" <= candidate) { break; }
        idx := idx + 1;
      }
      found := allPathsSorted[lo..idx];
      ScanCollects(allPathsSorted, dir, lo, idx);
    }

    /** Drops paths from the map and from every index. */
    method DeleteEverywhere(ps: seq<string>)
      requires Valid()
      modifies this
      ensures Valid() && Value() == RemovePaths(old(Value()), Elems(ps))
    {
      var n := 0;
      while n < |ps|
        invariant 0 <= n <= |ps| && Valid()
        invariant Value() == RemovePaths(old(Value()), Elems(ps[..n]))
      {
        ElemsSnoc(ps, n);
        entries := entries - {ps[n]};
        allPathsSorted := RemoveFromSorted(allPathsSorted, ps[n]);
        missingSorted := RemoveFromSorted(missingSorted, ps[n]);
        dirsReaddirObserved := dirsReaddirObserved - {ps[n]};
        n := n + 1;
      }
      assert ps[..n] == ps;
    }

    method RemoveDirSubtree(dirPath: string)
      requires Valid()
      modifies this
      ensures Valid() && Value() == RemoveSubtree(old(Value()), dirPath)
    {
      var toDelete := ScanFrom(dirPath);
      DeleteEverywhere(toDelete);
    }

    method RenameSubtree(oldPath: string, newPath: string)
      requires Valid()
      modifies this
      ensures Valid() && Value() == Rename(old(Value()), oldPath, newPath)
    {
      var from := ScanFrom(oldPath);
      var was := entries;
      DeleteEverywhere(from);
      ghost var kept := Value();
      ScannedIn(from, was.Keys, oldPath);
      var n := 0;
      while n < |from|
        invariant 0 <= n <= |from| && Valid()
        invariant Value() == PutEach(kept, was, from[..n], oldPath, newPath)
      {
        assert from[..n + 1][..n] == from[..n];
        PutMoved(Moved(from[n], oldPath, newPath), was[from[n]]);
        n := n + 1;
      }
      assert from[..n] == from;
      PutEachIsPutAll(kept, was, from, oldPath, newPath);
    }

    /** Stores one moved entry. */
    method PutMoved(to: string, entry: Entry)
      requires Valid()
      modifies this
      ensures Valid() && Value() == Put(old(Value()), to, entry)
    {
      entries := entries[to := entry];
      allPathsSorted := InsertSorted(allPathsSorted, to);
      if entry.Missing? { missingSorted := InsertSorted(missingSorted, to); }
      if entry.Dir? && entry.readdirObserved { dirsReaddirObserved := dirsReaddirObserved + {to}; }
    }

    method TouchIfPresent(path: string, at: int)
      requires Valid()
      modifies this
      ensures Valid() && Value() == Touch(old(Value()), path, at)
    {
      if path !in entries { return; }
      entries := entries[path := WithTime(entries[path], at)];
    }

    method RunAging(now: int, ageMs: int)
      requires Valid()
      modifies this
      ensures Valid() && Value() == Age(old(Value()), now, ageMs)
    {
      var cutoff := now - ageMs;
      var toDelete: seq<string> := [];
      var n := 0;
      while n < |missingSorted|
        invariant 0 <= n <= |missingSorted|
        invariant forall x :: x in toDelete <==> x in missingSorted[..n] && IsMissing(entries, x) && entries[x].lastAccessedAt < cutoff
      {
        var candidate := missingSorted[n];
        if candidate in entries && entries[candidate].Missing? && entries[candidate].lastAccessedAt < cutoff {
          toDelete := toDelete + [candidate];
        }
        n := n + 1;
      }
      assert missingSorted[..n] == missingSorted;
      assert forall x :: x in missingSorted <==> x in Value().missing;
      assert Elems(toDelete) == Expired(Value(), cutoff);
      DeleteMissing(toDelete);
    }
  }

  /** Moves the entries at `ps` one after the other. */
  ghost function PutEach(v: View, es: Entries, ps: seq<string>, from: string, to: string): View
    requires forall p :: p in ps ==> p in es && AtOrUnder(p, from)
  {
    if ps == [] then v
    else
      var k := |ps| - 1;
      Put(PutEach(v, es, ps[..k], from, to), Moved(ps[k], from, to), es[ps[k]])
  }

  lemma ScannedIn(ps: seq<string>, keys: set<string>, from: string)
    requires Elems(ps) == Scanned(keys, from)
    ensures forall p :: p in ps ==> p in keys && AtOrUnder(p, from)
  {
    forall p | p in ps ensures p in keys && AtOrUnder(p, from) { assert p in Elems(ps); }
  }

  /** Moving them in turn stores them all, since they land on distinct paths. */
  lemma {:induction false} PutEachIsPutAll(v: View, es: Entries, ps: seq<string>, from: string, to: string)
    requires Sorted(ps) && forall p :: p in ps ==> p in es && AtOrUnder(p, from)
    ensures Elems(ps) <= es.Keys && (forall p :: p in Elems(ps) ==> AtOrUnder(p, from))
    ensures PutEach(v, es, ps, from, to) == PutAll(v, MovedEntries(es, Elems(ps), from, to))
  {
    if ps == [] {
      assert MovedEntries(es, Elems(ps), from, to) == map[];
    } else {
      var k := |ps| - 1;
      PutEachIsPutAll(v, es, ps[..k], from, to);
      ElemsSnoc(ps, k);
      assert ps[..k + 1] == ps;
      assert ps[k] !in Elems(ps[..k]) by { Irreflexive(ps[k]); assert forall i :: 0 <= i < k ==> Less(ps[i], ps[k]); }
      MovedSnoc(es, Elems(ps[..k]), ps[k], from, to);
      PutAllSnoc(v, MovedEntries(es, Elems(ps[..k]), from, to), Moved(ps[k], from, to), es[ps[k]]);
    }
  }

  lemma PutAllSnoc(v: View, m: Entries, t: string, e: Entry)
    requires t !in m
    ensures PutAll(v, m[t := e]) == Put(PutAll(v, m), t, e)
  {
    var m' := m[t := e];
    assert v.entries + m' == (v.entries + m)[t := e];
    assert MissingKeys(m') == MissingKeys(m) + if e.Missing? then {t} else {};
    assert ObservedKeys(m') == ObservedKeys(m) + if e.Dir? && e.readdirObserved then {t} else {};
  }

  /** The moved paths are distinct, so moving one more adds one entry at a fresh path. */
  lemma MovedSnoc(es: Entries, ps: set<string>, p: string, from: string, to: string)
    requires ps + {p} <= es.Keys && p !in ps && forall q :: q in ps + {p} ==> AtOrUnder(q, from)
    ensures var m := MovedEntries(es, ps, from, to);
      Moved(p, from, to) !in m && MovedEntries(es, ps + {p}, from, to) == m[Moved(p, from, to) := es[p]]
  {
    forall q | q in ps && Moved(q, from, to) == Moved(p, from, to) ensures false { MovedUnder(p, q, from, to); }
    hide Moved, AtOrUnder;
    var m, m' := MovedEntries(es, ps, from, to), MovedEntries(es, ps + {p}, from, to);
    assert p in ps + {p};
    forall t ensures t in m' <==> t in m || t == Moved(p, from, to) { MovedAt(es, ps, p, from, to, t); }
    forall t | t in m ensures m'[t] == m[t] { MovedAt(es, ps, p, from, to, t); }
  }

  lemma MovedAt(es: Entries, ps: set<string>, p: string, from: string, to: string, t: string)
    requires ps + {p} <= es.Keys && p !in ps && forall q :: q in ps + {p} ==> AtOrUnder(q, from)
    ensures var m, m' := MovedEntries(es, ps, from, to), MovedEntries(es, ps + {p}, from, to);
      (t in m' <==> t in m || t == Moved(p, from, to)) && (t in m ==> t in m' && m'[t] == m[t])
  {
    hide Moved, AtOrUnder;
    var m, m' := MovedEntries(es, ps, from, to), MovedEntries(es, ps + {p}, from, to);
    if t in m { var q :| q in ps && t == Moved(q, from, to); assert q in ps + {p}; }
    if t in m' { var q :| q in ps + {p} && t == Moved(q, from, to); }
    assert p in ps + {p};
  }
}
