/** The directory snapshot the server builds from a flat manifest, to seed the file proxy. */
module Snapshot {
  import opened Options
  import opened StringOrder
  import opened Paths
  import opened Instructions
  import opened CacheStore
  import SyncPlan

  datatype SnapshotEntry =
    | DirEntry(path: string, children: seq<string>)
    | FileEntry(path: string, entry: CacheEntry, data: Option<Content>)

  // ---------- split and join ----------

  function Split(s: string): (parts: seq<string>)
    ensures |parts| >= 1
  {
    var i := LastSlash(s);
    if i < 0 then [s] else Split(s[..i]) + [s[i + 1..]]
  }

  function Join(parts: seq<string>): string
    requires |parts| >= 1
  {
    if |parts| == 1 then parts[0] else Join(parts[..|parts| - 1]) + "/" + parts[|parts| - 1]
  }

  lemma {:induction false} JoinSplit(s: string)
    ensures Join(Split(s)) == s
  {
    var i := LastSlash(s);
    if i >= 0 {
      JoinSplit(s[..i]);
      var parts := Split(s);
      assert parts[..|parts| - 1] == Split(s[..i]);
      assert s == s[..i] + "/" + s[i + 1..];
    }
  }

  predicate IsJoinedPrefix(s: string, a: string) {
    exists k :: 1 <= k < |Split(s)| && a == Join(Split(s)[..k])
  }

  /** Joining a proper prefix of the components gives an ancestor, and every ancestor arises so. */
  lemma {:induction false} PrefixesAreAncestors(s: string, a: string)
    ensures IsJoinedPrefix(s, a) <==> Under(s, a)
  {
    var i := LastSlash(s);
    UnderShape(s, a);
    if i >= 0 {
      var parts, d := Split(s), s[..i];
      var n := |parts| - 1;
      assert parts[..n] == Split(d);
      JoinSplit(d);
      PrefixesAreAncestors(d, a);
      UnderShape(d, a);
      UnderShape(s, d);
      if IsJoinedPrefix(s, a) {
        var k :| 1 <= k < |parts| && a == Join(parts[..k]);
        if k < n { assert parts[..k] == Split(d)[..k]; assert IsJoinedPrefix(d, a); UnderTransitive(s, d, a); }
      }
      if Under(s, a) {
        if |a| < i {
          assert d[..|a|] == a;
          var k :| 1 <= k < |Split(d)| && a == Join(Split(d)[..k]);
          assert parts[..k] == Split(d)[..k];
        } else {
          assert a == d && parts[..n] == Split(d);
        }
      }
    }
  }

  // ---------- what the snapshot holds ----------

  ghost predicate IsDirOf(keys: set<string>, d: string) {
    d == "" || exists k :: k in keys && Under(k, d)
  }

  ghost predicate Lists(keys: set<string>, d: string, name: string) {
    PlainName(name) && (IsDirOf(keys, Child(d, name)) || Child(d, name) in keys)
  }

  ghost predicate IsDirEntry(e: SnapshotEntry, keys: set<string>, root: string, d: string) {
    && IsDirOf(keys, d) && e.DirEntry? && e.path == SyncPlan.Abs(root, d)
    && Sorted(e.children) && forall n :: n in e.children <==> Lists(keys, d, n)
  }

  predicate IsFileEntry(e: SnapshotEntry, path: string, entry: CacheEntry, blobs: map<string, Content>) {
    && e.FileEntry? && e.path == path && e.entry == entry
    && e.data == DataOf(entry, blobs)
  }

  /** The content of an entry that was not skipped and whose blob is there. */
  function DataOf(entry: CacheEntry, blobs: map<string, Content>): Option<Content> {
    if !entry.skipped && entry.sha256.Some? && entry.sha256.value != "" && entry.sha256.value in blobs
    then Some(blobs[entry.sha256.value]) else None
  }

  // ---------- building it ----------

  method CollectDirs(paths: seq<string>) returns (allDirs: set<string>)
    ensures forall d :: d in allDirs <==> d == "" || exists i :: 0 <= i < |paths| && Under(paths[i], d)
  {
    allDirs := {""};
    var n := 0;
    while n < |paths|
      invariant 0 <= n <= |paths|
      invariant forall d :: d in allDirs <==> d == "" || exists i :: 0 <= i < n && Under(paths[i], d)
    {
      var parts := Split(paths[n]);
      ghost var before := allDirs;
      var i := 1;
      while i < |parts|
        invariant 1 <= i <= |parts|
        invariant forall d :: d in allDirs <==> d in before || exists k :: 1 <= k < i && d == Join(parts[..k])
      {
        allDirs := allDirs + {Join(parts[..i])};
        i := i + 1;
      }
      forall d ensures d in allDirs <==> d in before || Under(paths[n], d) { PrefixesAreAncestors(paths[n], d); }
      n := n + 1;
    }
  }

  method CollectDirectChildren(dir: string, allDirs: set<string>, filePaths: seq<string>) returns (children: set<string>)
    ensures forall n :: n in children <==> PlainName(n) && (Child(dir, n) in allDirs || Child(dir, n) in filePaths)
  {
    children := {};
    var prefix := if dir != "" then dir + "/" else "";
    var left := allDirs;
    while left != {}
      invariant left <= allDirs
      invariant forall n :: n in children <==> PlainName(n) && Child(dir, n) in allDirs && Child(dir, n) !in left
      decreases left
    {
      var other :| other in left;
      left := left - {other};
      ChildOf(dir, other);
      if other != dir && StartsWith(other, prefix) {
        var remainder := other[|prefix|..];
        if PlainName(remainder) { children := children + {remainder}; }
      }
    }
    var i := 0;
    while i < |filePaths|
      invariant 0 <= i <= |filePaths|
      invariant forall n :: n in children <==> PlainName(n) && (Child(dir, n) in allDirs || Child(dir, n) in filePaths[..i])
    {
      ChildOf(dir, filePaths[i]);
      if StartsWith(filePaths[i], prefix) {
        var remainder := filePaths[i][|prefix|..];
        if PlainName(remainder) { children := children + {remainder}; }
      }
      i := i + 1;
    }
    assert filePaths[..i] == filePaths;
  }

  /** A path is the child of `dir` by exactly the name that follows the prefix. */
  lemma ChildOf(dir: string, other: string)
    ensures var prefix := if dir != "" then dir + "/" else "";
      forall n :: PlainName(n) ==>
        (Child(dir, n) == other <==> other != dir && StartsWith(other, prefix) && other[|prefix|..] == n)
  {
    var prefix := if dir != "" then dir + "/" else "";
    forall n ensures Child(dir, n) == prefix + n {}
    if StartsWith(other, prefix) { assert other == prefix + other[|prefix|..]; }
    forall n ensures (prefix + n)[|prefix|..] == n {}
  }

  method SortNames(names: set<string>) returns (sorted: seq<string>)
    ensures Sorted(sorted) && forall n :: n in sorted <==> n in names
  {
    sorted := [];
    var left := names;
    while left != {}
      invariant Sorted(sorted) && left <= names && forall n :: n in sorted <==> n in names && n !in left
      decreases left
    {
      var name :| name in left;
      ghost var before := sorted;
      sorted := InsertSorted(sorted, name);
      assert forall n :: n in sorted <==> n in Elems(sorted);
      assert forall n :: n in before <==> n in Elems(before);
      left := left - {name};
    }
  }

  ghost predicate IsHomeEntry(e: SnapshotEntry, home: map<string, CacheEntry>, root: string, blobs: map<string, Content>) {
    || (exists d :: IsDirEntry(e, home.Keys, root, d))
    || (exists k :: k in home && IsFileEntry(e, SyncPlan.Abs(root, k), home[k], blobs))
  }

  ghost predicate HasDirEntry(out: seq<SnapshotEntry>, keys: set<string>, root: string, d: string) {
    exists e :: e in out && IsDirEntry(e, keys, root, d)
  }

  predicate HasFileEntry(out: seq<SnapshotEntry>, path: string, entry: CacheEntry, blobs: map<string, Content>) {
    FileEntry(path, entry, DataOf(entry, blobs)) in out
  }

  predicate IsJsonEntry(e: SnapshotEntry, json: Option<CacheEntry>, homedir: string, blobs: map<string, Content>) {
    json.Some? && IsFileEntry(e, homedir + "/.claude.json", json.value, blobs)
  }

  /** The snapshot holds an entry for `.claude.json`, one for every directory, one for every file, and nothing else; for
      an empty scope it does not even hold the root. */
  ghost predicate IsSnapshot(out: seq<SnapshotEntry>, home: map<string, CacheEntry>, json: Option<CacheEntry>, homedir: string,
                             blobs: map<string, Content>)
  {
    var root := SyncPlan.Root(homedir);
    && (forall e :: e in out ==> IsJsonEntry(e, json, homedir, blobs) || (home != map[] && IsHomeEntry(e, home, root, blobs)))
    && (json.Some? ==> HasFileEntry(out, homedir + "/.claude.json", json.value, blobs))
    && (forall k :: k in home ==> HasFileEntry(out, SyncPlan.Abs(root, k), home[k], blobs))
    && (home != map[] ==> forall d :: IsDirOf(home.Keys, d) ==> HasDirEntry(out, home.Keys, root, d))
  }

  method MakeDirEntry(dir: string, allDirs: set<string>, paths: seq<string>, root: string, ghost keys: set<string>)
    returns (e: SnapshotEntry)
    requires (forall k :: k in keys <==> k in paths) && (forall d :: d in allDirs <==> IsDirOf(keys, d)) && dir in allDirs
    ensures IsDirEntry(e, keys, root, dir)
  {
    hide IsDirOf;
    var abs := if dir != "" then root + "/" + dir else root;
    var children := CollectDirectChildren(dir, allDirs, paths);
    var names := SortNames(children);
    e := DirEntry(abs, names);
  }

  method BuildDirs(paths: seq<string>, root: string, ghost keys: set<string>) returns (out: seq<SnapshotEntry>)
    requires forall k :: k in keys <==> k in paths
    ensures forall e :: e in out ==> exists d :: IsDirEntry(e, keys, root, d)
    ensures forall d :: IsDirOf(keys, d) ==> HasDirEntry(out, keys, root, d)
  {
    var allDirs := CollectDirs(paths);
    forall d ensures d in allDirs <==> IsDirOf(keys, d) {
      if d in allDirs && d != "" { var i :| 0 <= i < |paths| && Under(paths[i], d); assert paths[i] in keys; }
      if IsDirOf(keys, d) && d != "" { var k :| k in keys && Under(k, d); var i :| 0 <= i < |paths| && paths[i] == k; }
    }
    hide IsDirEntry, IsDirOf;
    out := [];
    var left := allDirs;
    while left != {}
      invariant left <= allDirs
      invariant forall e :: e in out ==> exists d :: IsDirEntry(e, keys, root, d)
      invariant forall d :: d in allDirs && d !in left ==> HasDirEntry(out, keys, root, d)
      decreases left
    {
      var dir :| dir in left;
      ghost var before := out;
      var made := MakeDirEntry(dir, allDirs, paths, root, keys);
      out := out + [made];
      left := left - {dir};
      forall d | d in allDirs && d !in left ensures HasDirEntry(out, keys, root, d) {
        if d == dir { assert made in out; } else {
          var e :| e in before && IsDirEntry(e, keys, root, d);
          assert e in out;
        }
      }
    }
  }

  method BuildFiles(home: map<string, CacheEntry>, paths: seq<string>, root: string, blobs: map<string, Content>)
    returns (out: seq<SnapshotEntry>)
    requires forall k :: k in home <==> k in paths
    ensures forall e :: e in out ==> exists k :: k in home && IsFileEntry(e, SyncPlan.Abs(root, k), home[k], blobs)
    ensures forall k :: k in home ==> HasFileEntry(out, SyncPlan.Abs(root, k), home[k], blobs)
  {
    out := [];
    var n := 0;
    while n < |paths|
      invariant 0 <= n <= |paths|
      invariant forall e :: e in out ==> exists k :: k in home && IsFileEntry(e, SyncPlan.Abs(root, k), home[k], blobs)
      invariant forall i :: 0 <= i < n ==> HasFileEntry(out, SyncPlan.Abs(root, paths[i]), home[paths[i]], blobs)
    {
      var e := FileEntry(SyncPlan.Abs(root, paths[n]), home[paths[n]], DataOf(home[paths[n]], blobs));
      assert paths[n] in home && IsFileEntry(e, SyncPlan.Abs(root, paths[n]), home[paths[n]], blobs);
      out := out + [e];
      n := n + 1;
    }
  }

  method BuildSnapshotFromManifest(home: map<string, CacheEntry>, paths: seq<string>, json: Option<CacheEntry>, homedir: string,
                                   blobs: map<string, Content>) returns (out: seq<SnapshotEntry>)
    requires forall k :: k in home <==> k in paths
    ensures IsSnapshot(out, home, json, homedir, blobs)
  {
    hide IsDirEntry, IsDirOf, DataOf, IsSnapshot;
    var root := SyncPlan.Root(homedir);
    var first: seq<SnapshotEntry> := [];
    if json.Some? { first := [FileEntry(homedir + "/.claude.json", json.value, DataOf(json.value, blobs))]; }
    var dirs: seq<SnapshotEntry>, files: seq<SnapshotEntry> := [], [];
    if |paths| > 0 {
      assert paths[0] in home;
      dirs := BuildDirs(paths, root, home.Keys);
      files := BuildFiles(home, paths, root, blobs);
    } else {
      assert forall k :: k !in home;
    }
    out := first + dirs + files;
    PartsMakeSnapshot(first, dirs, files, home, json, homedir, blobs);
  }

  lemma PartsMakeSnapshot(first: seq<SnapshotEntry>, dirs: seq<SnapshotEntry>, files: seq<SnapshotEntry>, home: map<string, CacheEntry>,
                          json: Option<CacheEntry>, homedir: string, blobs: map<string, Content>)
    requires first == if json.Some? then [FileEntry(homedir + "/.claude.json", json.value, DataOf(json.value, blobs))] else []
    requires home == map[] ==> dirs == [] && files == []
    requires forall e :: e in dirs ==> exists d :: IsDirEntry(e, home.Keys, SyncPlan.Root(homedir), d)
    requires home != map[] ==> forall d :: IsDirOf(home.Keys, d) ==> HasDirEntry(dirs, home.Keys, SyncPlan.Root(homedir), d)
    requires forall e :: e in files ==> exists k :: k in home && IsFileEntry(e, SyncPlan.Abs(SyncPlan.Root(homedir), k), home[k], blobs)
    requires forall k :: k in home ==> HasFileEntry(files, SyncPlan.Abs(SyncPlan.Root(homedir), k), home[k], blobs)
    ensures IsSnapshot(first + dirs + files, home, json, homedir, blobs)
  {
    hide IsDirEntry, IsDirOf, DataOf;
    var out, root := first + dirs + files, SyncPlan.Root(homedir);
    if home != map[] {
      forall d | IsDirOf(home.Keys, d) ensures HasDirEntry(out, home.Keys, root, d) {
        var e :| e in dirs && IsDirEntry(e, home.Keys, root, d);
        assert e in out;
      }
    }
  }

  // ---------- the snapshot is a tree ----------

  /** An entry of the snapshot stands for the scope path `r`. */
  predicate EntryAt(out: seq<SnapshotEntry>, root: string, r: string, e: SnapshotEntry) {
    e in out && e.path == SyncPlan.Abs(root, r)
  }

  ghost predicate HasEntry(out: seq<SnapshotEntry>, root: string, r: string) {
    exists e :: EntryAt(out, root, r, e)
  }

  lemma JsonElsewhere(homedir: string, r: string)
    ensures homedir + "/.claude.json" != SyncPlan.Abs(SyncPlan.Root(homedir), r)
  {
    SyncPlan.JsonIsOutside(homedir);
    SyncPlan.RelAbs(SyncPlan.Root(homedir), r);
  }

  lemma SameScopePath(root: string, r: string, d: string)
    requires SyncPlan.Abs(root, r) == SyncPlan.Abs(root, d)
    ensures r == d
  {
    SyncPlan.RelAbs(root, r);
    SyncPlan.RelAbs(root, d);
  }

  /** What stands at a path of the scope. */
  lemma WhatStandsAt(out: seq<SnapshotEntry>, home: map<string, CacheEntry>, json: Option<CacheEntry>, homedir: string,
                     blobs: map<string, Content>, r: string, e: SnapshotEntry)
    requires IsSnapshot(out, home, json, homedir, blobs) && EntryAt(out, SyncPlan.Root(homedir), r, e)
    ensures if e.DirEntry? then home != map[] && IsDirEntry(e, home.Keys, SyncPlan.Root(homedir), r)
      else r in home && IsFileEntry(e, SyncPlan.Abs(SyncPlan.Root(homedir), r), home[r], blobs)
  {
    hide IsDirOf, DataOf;
    var root := SyncPlan.Root(homedir);
    JsonElsewhere(homedir, r);
    if e.DirEntry? {
      var d :| IsDirEntry(e, home.Keys, root, d);
      SameScopePath(root, r, d);
    } else {
      var k :| k in home && IsFileEntry(e, SyncPlan.Abs(root, k), home[k], blobs);
      SameScopePath(root, r, k);
    }
  }

  /** The paths with an entry are the manifest's files, their ancestors and the root, and the directories among them are
      the root and the ancestors. */
  lemma EntriesExact(out: seq<SnapshotEntry>, home: map<string, CacheEntry>, json: Option<CacheEntry>, homedir: string,
                     blobs: map<string, Content>, r: string)
    requires IsSnapshot(out, home, json, homedir, blobs) && home != map[]
    ensures HasEntry(out, SyncPlan.Root(homedir), r) <==> r in home || IsDirOf(home.Keys, r)
    ensures (exists e :: EntryAt(out, SyncPlan.Root(homedir), r, e) && e.DirEntry?) <==> IsDirOf(home.Keys, r)
  {
    hide DataOf;
    var root := SyncPlan.Root(homedir);
    forall e | EntryAt(out, root, r, e) ensures if e.DirEntry? then IsDirOf(home.Keys, r) else r in home {
      WhatStandsAt(out, home, json, homedir, blobs, r, e);
    }
    if r in home {
      assert HasFileEntry(out, SyncPlan.Abs(root, r), home[r], blobs);
      assert EntryAt(out, root, r, FileEntry(SyncPlan.Abs(root, r), home[r], DataOf(home[r], blobs)));
    }
    if IsDirOf(home.Keys, r) {
      var e :| e in out && IsDirEntry(e, home.Keys, root, r);
      assert EntryAt(out, root, r, e);
    }
  }

  /** A directory lists a name exactly if its child of that name has an entry. */
  lemma ListedIfPresent(out: seq<SnapshotEntry>, home: map<string, CacheEntry>, json: Option<CacheEntry>, homedir: string,
                        blobs: map<string, Content>, d: string, e: SnapshotEntry, name: string)
    requires IsSnapshot(out, home, json, homedir, blobs) && EntryAt(out, SyncPlan.Root(homedir), d, e) && e.DirEntry?
    ensures name in e.children <==> PlainName(name) && HasEntry(out, SyncPlan.Root(homedir), Child(d, name))
  {
    hide IsSnapshot, IsDirOf, HasEntry;
    WhatStandsAt(out, home, json, homedir, blobs, d, e);
    EntriesExact(out, home, json, homedir, blobs, Child(d, name));
  }

  function ParentOf(r: string): string {
    if LastSlash(r) < 0 then "" else r[..LastSlash(r)]
  }

  function NameOf(r: string): string {
    r[LastSlash(r) + 1..]
  }

  /** Every entry but the root's is listed by the directory above it, which has an entry. */
  lemma EveryEntryIsListed(out: seq<SnapshotEntry>, home: map<string, CacheEntry>, json: Option<CacheEntry>, homedir: string,
                           blobs: map<string, Content>, r: string)
    requires IsSnapshot(out, home, json, homedir, blobs) && (forall k :: k in home ==> RelPath(k))
    requires r != "" && HasEntry(out, SyncPlan.Root(homedir), r)
    ensures exists e :: EntryAt(out, SyncPlan.Root(homedir), ParentOf(r), e) && e.DirEntry? && NameOf(r) in e.children
  {
    var root := SyncPlan.Root(homedir);
    var some :| EntryAt(out, root, r, some);
    WhatStandsAt(out, home, json, homedir, blobs, r, some);
    EntriesExact(out, home, json, homedir, blobs, r);
    assert RelPath(r) by {
      if r !in home {
        var k :| k in home && Under(k, r);
        AboveIsRel(k, r);
      }
    }
    ParentAndName(r);
    assert IsDirOf(home.Keys, ParentOf(r)) by {
      if ParentOf(r) != "" {
        if r !in home { var k :| k in home && Under(k, r); UnderTransitive(k, r, ParentOf(r)); assert k in home.Keys; }
        else { assert r in home.Keys; }
      }
    }
    EntriesExact(out, home, json, homedir, blobs, ParentOf(r));
    hide IsSnapshot, IsDirOf;
    var e :| EntryAt(out, root, ParentOf(r), e) && e.DirEntry?;
    ListedIfPresent(out, home, json, homedir, blobs, ParentOf(r), e, NameOf(r));
  }

  lemma AboveIsRel(k: string, r: string)
    requires RelPath(k) && Under(k, r) && r != ""
    ensures RelPath(r)
  {
    UnderShape(k, r);
    UnderShape("/" + k, "/" + r);
    assert ("/" + k)[..|r| + 1] == "/" + k[..|r|];
    AncestorIsAbs("/" + k, "/" + r);
  }

  lemma ParentAndName(r: string)
    requires RelPath(r)
    ensures PlainName(NameOf(r)) && Child(ParentOf(r), NameOf(r)) == r && (ParentOf(r) != "" ==> Under(r, ParentOf(r)))
  {
    var i := LastSlash(r);
    assert ("/" + r)[|r|] == r[|r| - 1];
    assert ("/" + r)[1] == r[0];
    if i >= 0 {
      UnderShape(r, r[..i]);
      assert r == r[..i] + "/" + r[i + 1..];
    }
  }

  predicate ConflictFree(keys: set<string>) {
    forall k, l :: k in keys && l in keys ==> !Under(k, l)
  }

  ghost predicate OneEntryPerPath(out: seq<SnapshotEntry>) {
    forall e, f :: e in out && f in out && e.path == f.path ==> e == f
  }

  /** No path has two entries, exactly if no file of the manifest lies below another one. */
  lemma PathsAreUnique(out: seq<SnapshotEntry>, home: map<string, CacheEntry>, json: Option<CacheEntry>, homedir: string,
                       blobs: map<string, Content>)
    requires IsSnapshot(out, home, json, homedir, blobs) && (forall k :: k in home ==> RelPath(k))
    ensures OneEntryPerPath(out) <==> ConflictFree(home.Keys)
  {
    var root := SyncPlan.Root(homedir);
    if ConflictFree(home.Keys) {
      forall e, f | e in out && f in out && e.path == f.path ensures e == f {
        SamePathSameEntry(out, home, json, homedir, blobs, e, f);
      }
    } else {
      var k, l :| k in home.Keys && l in home.Keys && Under(k, l);
      RelIsNotEmpty(l);
      assert IsDirOf(home.Keys, l);
      var e :| e in out && IsDirEntry(e, home.Keys, root, l);
      assert HasFileEntry(out, SyncPlan.Abs(root, l), home[l], blobs);
      var f := FileEntry(SyncPlan.Abs(root, l), home[l], DataOf(home[l], blobs));
      assert e.path == f.path && e != f;
    }
  }

  lemma RelIsNotEmpty(r: string)
    requires RelPath(r)
    ensures r != ""
  {}

  lemma SamePathSameEntry(out: seq<SnapshotEntry>, home: map<string, CacheEntry>, json: Option<CacheEntry>, homedir: string,
                          blobs: map<string, Content>, e: SnapshotEntry, f: SnapshotEntry)
    requires IsSnapshot(out, home, json, homedir, blobs) && (forall k :: k in home ==> RelPath(k)) && ConflictFree(home.Keys)
    requires e in out && f in out && e.path == f.path
    ensures e == f
  {
    hide DataOf;
    var root := SyncPlan.Root(homedir);
    forall r ensures homedir + "/.claude.json" != SyncPlan.Abs(root, r) { JsonElsewhere(homedir, r); }
    if !IsJsonEntry(e, json, homedir, blobs) {
      var r := ScopePathOf(e, home, root, blobs);
      WhatStandsAt(out, home, json, homedir, blobs, r, e);
      WhatStandsAt(out, home, json, homedir, blobs, r, f);
      hide IsSnapshot;
      if e.DirEntry? && f.DirEntry? { OneDirEntry(e, f, home.Keys, root, r); }
      assert r in home ==> !IsDirOf(home.Keys, r) by { if r in home { RelIsNotEmpty(r); } }
    }
  }

  lemma ScopePathOf(e: SnapshotEntry, home: map<string, CacheEntry>, root: string, blobs: map<string, Content>) returns (r: string)
    requires IsHomeEntry(e, home, root, blobs)
    ensures e.path == SyncPlan.Abs(root, r)
  {
    if k :| k in home && IsFileEntry(e, SyncPlan.Abs(root, k), home[k], blobs) { r := k; }
    else { var d :| IsDirEntry(e, home.Keys, root, d); r := d; }
  }

  /** A directory of the snapshot has one entry. */
  lemma OneDirEntry(e: SnapshotEntry, f: SnapshotEntry, keys: set<string>, root: string, d: string)
    requires IsDirEntry(e, keys, root, d) && IsDirEntry(f, keys, root, d)
    ensures e == f
  {
    hide Lists;
    forall n ensures n in Elems(e.children) <==> n in Elems(f.children) {
      assert n in Elems(e.children) <==> n in e.children;
      assert n in Elems(f.children) <==> n in f.children;
    }
    SortedUnique(e.children, f.children);
  }
}
