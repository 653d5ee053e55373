/** The server's cache of one device: a manifest file and content-addressed blobs, changed under the manifest lock.
    Every operation is a list of atomic disk writes; a fault may stop it after any of them. */
module CacheStore {
  import opened Options

  datatype Scope = ClaudeHome | ClaudeJson

  datatype FileKey = FileKey(scope: Scope, path: string)

  type Content = string

  datatype CacheEntry = CacheEntry(size: nat, mtime: int, sha256: Option<string>, skipped: bool)

  datatype Manifest = Manifest(revision: nat, entries: map<FileKey, CacheEntry>, truncated: map<Scope, bool>)

  datatype Change =
    | Upsert(key: FileKey, size: nat, mtime: int, sha256: Option<string>, content: Option<Content>, skipped: bool,
             mutationId: Option<string>)
    | Delete(key: FileKey, mutationId: Option<string>)

  datatype StoreError = MissingContent(key: FileKey) | MissingSha(key: FileKey) | ShaMismatch(key: FileKey) | WriteFailed

  datatype Disk = Disk(manifest: Manifest, blobs: map<string, Content>)

  datatype DiskWrite =
    | PutBlob(sha256: string, content: Content)
    | RemoveBlob(sha256: string)
    | PutManifest(manifest: Manifest)

  function Write(d: Disk, w: DiskWrite): Disk {
    match w
    case PutBlob(h, c) => d.(blobs := d.blobs[h := c])
    case RemoveBlob(h) => d.(blobs := d.blobs - {h})
    case PutManifest(m) => d.(manifest := m)
  }

  function WriteAll(d: Disk, ws: seq<DiskWrite>): Disk {
    if ws == [] then d else Write(WriteAll(d, ws[..|ws| - 1]), ws[|ws| - 1])
  }

  // ---------- one delta ----------

  function Refusal(c: Change, hash: Content -> string): Option<StoreError> {
    if c.Delete? || c.skipped then None
    else if c.content.None? then Some(MissingContent(c.key))
    else if c.sha256.None? || c.sha256.value == "" then Some(MissingSha(c.key))
    else if hash(c.content.value) != c.sha256.value then Some(ShaMismatch(c.key))
    else None
  }

  /** The entry an accepted upsert stores. */
  function EntryOf(c: Change): CacheEntry
    requires c.Upsert?
  {
    CacheEntry(c.size, c.mtime, c.sha256, c.skipped)
  }

  /** The manifest entries after one accepted change. */
  function ApplyChange(es: map<FileKey, CacheEntry>, c: Change): map<FileKey, CacheEntry> {
    if c.Delete? then es - {c.key} else es[c.key := EntryOf(c)]
  }

  function ApplyChanges(es: map<FileKey, CacheEntry>, cs: seq<Change>): map<FileKey, CacheEntry> {
    if cs == [] then es else ApplyChange(ApplyChanges(es, cs[..|cs| - 1]), cs[|cs| - 1])
  }

  /** The first refused change stops the delta. */
  function FirstRefusal(cs: seq<Change>, hash: Content -> string): Option<StoreError> {
    if cs == [] then None
    else
      var e := FirstRefusal(cs[..|cs| - 1], hash);
      if e.Some? then e else Refusal(cs[|cs| - 1], hash)
  }

  predicate NeedsBlob(c: Change, blobs: map<string, Content>) {
    c.Upsert? && !c.skipped && c.content.Some? && c.sha256.Some? && c.sha256.value !in blobs
  }

  /** The blob writes that precede the first refusal; a blob already on disk is not written again. */
  function BlobWrites(cs: seq<Change>, blobs: map<string, Content>, hash: Content -> string): seq<DiskWrite> {
    if cs == [] then []
    else
      var ws := BlobWrites(cs[..|cs| - 1], blobs, hash);
      var c := cs[|cs| - 1];
      if FirstRefusal(cs, hash).None? && NeedsBlob(c, WriteAll(Disk(Manifest(0, map[], map[]), blobs), ws).blobs)
      then ws + [PutBlob(c.sha256.value, c.content.value)] else ws
  }

  function NextManifest(m: Manifest, cs: seq<Change>): Manifest {
    m.(revision := m.revision + 1, entries := ApplyChanges(m.entries, cs))
  }

  /** All the disk writes of a delta: blobs first, the manifest last and only if nothing was refused. */
  function DeltaWrites(d: Disk, cs: seq<Change>, hash: Content -> string): seq<DiskWrite> {
    BlobWrites(cs, d.blobs, hash) + (if FirstRefusal(cs, hash).None? then [PutManifest(NextManifest(d.manifest, cs))] else [])
  }

  datatype DeltaResult = Applied(revision: nat) | Failed(error: StoreError)

  /** What a delta does when the disk accepts only the first `allowed` writes. */
  function DeltaEffect(d: Disk, cs: seq<Change>, hash: Content -> string, allowed: nat): (Disk, DeltaResult) {
    var ws := DeltaWrites(d, cs, hash);
    if allowed < |ws| then (WriteAll(d, ws[..allowed]), Failed(WriteFailed))
    else if FirstRefusal(cs, hash).Some? then (WriteAll(d, ws), Failed(FirstRefusal(cs, hash).value))
    else (WriteAll(d, ws), Applied(d.manifest.revision + 1))
  }

  // ---------- the store object ----------

  class ClientCacheStore {
    const hash: Content -> string
    var disks: map<string, Disk>
    /** How many more writes the disk accepts before it fails. */
    var allowed: nat

    constructor (hash: Content -> string)
      ensures this.hash == hash && disks == map[]
    {
      this.hash := hash;
      disks := map[];
    }

    /** An absent device has an empty manifest and no blobs. */
    function DiskOf(deviceId: string): Disk reads this {
      if deviceId in disks then disks[deviceId] else Disk(Manifest(0, map[], map[]), map[])
    }

    method LoadManifest(deviceId: string) returns (m: Manifest)
      ensures m == DiskOf(deviceId).manifest
    { m := DiskOf(deviceId).manifest; }

    /** One atomic write: a rename of a finished temporary file, or an unlink. */
    method WriteDisk(deviceId: string, w: DiskWrite) returns (ok: bool)
      modifies this
      ensures ok <==> old(allowed) > 0
      ensures disks == if ok then old(disks)[deviceId := Write(old(DiskOf(deviceId)), w)] else old(disks)
      ensures allowed == if ok then old(allowed) - 1 else 0
    {
      if allowed == 0 { return false; }
      disks := disks[deviceId := Write(DiskOf(deviceId), w)];
      allowed := allowed - 1;
      ok := true;
    }

    method WriteBlobIfMissing(deviceId: string, sha256: string, content: Content) returns (ok: bool)
      modifies this
      ensures var d := old(DiskOf(deviceId));
        if sha256 in d.blobs then ok && DiskOf(deviceId) == d && allowed == old(allowed)
        else if old(allowed) == 0 then !ok && DiskOf(deviceId) == d
        else ok && DiskOf(deviceId) == Write(d, PutBlob(sha256, content)) && allowed == old(allowed) - 1
      ensures forall d :: d != deviceId ==> DiskOf(d) == old(DiskOf(d))
    {
      if sha256 in DiskOf(deviceId).blobs { return true; }
      ok := WriteDisk(deviceId, PutBlob(sha256, content));
    }

    /** The loop body of a delta: writes the blob if needed and returns the changed entries, or the reason to stop. */
    method StoreChange(deviceId: string, entries: map<FileKey, CacheEntry>, c: Change)
      returns (r: map<FileKey, CacheEntry>, failure: Option<StoreError>)
      modifies this
      ensures var d := old(DiskOf(deviceId));
        if Refusal(c, hash).Some? then failure == Refusal(c, hash) && DiskOf(deviceId) == d
        else if !NeedsBlob(c, d.blobs) then failure == None && DiskOf(deviceId) == d && allowed == old(allowed)
        else if old(allowed) == 0 then failure == Some(WriteFailed) && DiskOf(deviceId) == d
        else failure == None && DiskOf(deviceId) == Write(d, PutBlob(c.sha256.value, c.content.value)) && allowed == old(allowed) - 1
      ensures failure == None ==> r == ApplyChange(entries, c)
      ensures forall d :: d != deviceId ==> DiskOf(d) == old(DiskOf(d))
    {
      failure := None;
      if c.Delete? { return entries - {c.key}, None; }
      if c.skipped { return entries[c.key := CacheEntry(c.size, c.mtime, c.sha256, true)], None; }
      if c.content.None? { return entries, Some(MissingContent(c.key)); }
      if c.sha256.None? || c.sha256.value == "" { return entries, Some(MissingSha(c.key)); }
      var actual := hash(c.content.value);
      if actual != c.sha256.value { return entries, Some(ShaMismatch(c.key)); }
      var ok := WriteBlobIfMissing(deviceId, actual, c.content.value);
      if !ok { return entries, Some(WriteFailed); }
      r := entries[c.key := CacheEntry(c.size, c.mtime, Some(actual), false)];
    }

    method ApplyDelta(deviceId: string, changes: seq<Change>) returns (r: DeltaResult)
      modifies this
      ensures (DiskOf(deviceId), r) == DeltaEffect(old(DiskOf(deviceId)), changes, hash, old(allowed))
      ensures forall d :: d != deviceId ==> DiskOf(d) == old(DiskOf(d))
    {
      ghost var d0 := DiskOf(deviceId);
      var manifest := DiskOf(deviceId).manifest;
      var entries := manifest.entries;
      var n := 0;
      while n < |changes|
        invariant 0 <= n <= |changes| && FirstRefusal(changes[..n], hash).None?
        invariant entries == ApplyChanges(manifest.entries, changes[..n])
        invariant Progress(d0, DiskOf(deviceId), BlobWrites(changes[..n], d0.blobs, hash), old(allowed), allowed)
        invariant forall d :: d != deviceId ==> DiskOf(d) == old(DiskOf(d))
      {
        ChangeStep(d0, changes, n, hash, old(allowed));
        var failure;
        entries, failure := StoreChange(deviceId, entries, changes[n]);
        if failure.Some? { return Failed(failure.value); }
        n := n + 1;
      }
      assert changes[..n] == changes;
      FinalStep(d0, changes, hash, old(allowed));
      var ok := WriteDisk(deviceId, PutManifest(manifest.(revision := manifest.revision + 1, entries := entries)));
      if !ok { return Failed(WriteFailed); }
      r := Applied(manifest.revision + 1);
    }

    method RemoveEntry(deviceId: string, key: FileKey) returns (ok: bool)
      modifies this
      ensures ok <==> key !in old(DiskOf(deviceId)).manifest.entries || old(allowed) > 0
      ensures DiskOf(deviceId) == if ok then WriteAll(old(DiskOf(deviceId)), RemoveWrites(old(DiskOf(deviceId)), key))
                                  else old(DiskOf(deviceId))
      ensures forall d :: d != deviceId ==> DiskOf(d) == old(DiskOf(d))
    {
      var m := DiskOf(deviceId).manifest;
      if key !in m.entries { return true; }
      var w := PutManifest(m.(revision := m.revision + 1, entries := m.entries - {key}));
      assert [w][..0] == [];
      ok := WriteDisk(deviceId, w);
    }

    /** Records which scopes were truncated, if that changes anything; the revision does not change. */
    method UpdateScopeTruncated(deviceId: string, flags: map<Scope, bool>) returns (ok: bool)
      modifies this
      ensures ok <==> Flagged(old(DiskOf(deviceId)).manifest, old(DiskOf(deviceId)).manifest, flags) || old(allowed) > 0
      ensures ok ==> Flagged(old(DiskOf(deviceId)).manifest, DiskOf(deviceId).manifest, flags)
      ensures Flagged(old(DiskOf(deviceId)).manifest, old(DiskOf(deviceId)).manifest, flags) ==> allowed == old(allowed)
      ensures DiskOf(deviceId) == if !ok then old(DiskOf(deviceId))
        else old(DiskOf(deviceId)).(manifest := WithTruncated(old(DiskOf(deviceId)).manifest, flags))
      ensures forall d :: d != deviceId ==> DiskOf(d) == old(DiskOf(d))
    {
      var m := DiskOf(deviceId).manifest;
      var truncated, changed := m.truncated, false;
      var left := flags.Keys;
      while left != {}
        invariant left <= flags.Keys && (changed <==> truncated != m.truncated)
        invariant truncated == m.truncated + map sc | sc in flags && sc !in left :: flags[sc]
        decreases left
      {
        var sc :| sc in left;
        if !(sc in truncated && truncated[sc] == flags[sc]) {
          truncated := truncated[sc := flags[sc]];
          changed := true;
        }
        left := left - {sc};
      }
      assert m.(truncated := truncated) == WithTruncated(m, flags);
      if !changed { return true; }
      ok := WriteDisk(deviceId, PutManifest(m.(truncated := truncated)));
    }

    /** Deletes the blobs no manifest entry names, one file at a time. `names` is the directory listing. */
    method GcOrphanBlobs(deviceId: string, names: seq<string>) returns (deleted: nat)
      modifies this
      ensures var d := old(DiskOf(deviceId));
        var live := LiveSet(d.manifest);
        && PartlyCollected(d, live, names, DiskOf(deviceId))
        && (old(allowed) >= |names| ==>
            DiskOf(deviceId) == WriteAll(d, GcWrites(live, names)) && deleted == |GcWrites(live, names)|)
      ensures forall d :: d != deviceId ==> DiskOf(d) == old(DiskOf(d))
    {
      var live := LiveSet(DiskOf(deviceId).manifest);
      deleted := Sweep(deviceId, live, names);
    }

    /** The sweep over the directory listing. */
    method Sweep(deviceId: string, live: set<string>, names: seq<string>) returns (deleted: nat)
      modifies this
      ensures PartlyCollected(old(DiskOf(deviceId)), live, names, DiskOf(deviceId))
      ensures old(allowed) >= |names| ==> DiskOf(deviceId) == WriteAll(old(DiskOf(deviceId)), GcWrites(live, names))
      ensures old(allowed) >= |names| ==> deleted == |GcWrites(live, names)|
      ensures forall d :: d != deviceId ==> DiskOf(d) == old(DiskOf(d))
    {
      ghost var d0 := DiskOf(deviceId);
      ghost var ws := GcWrites(live, names[..0]);
      assert WriteAll(d0, ws) == d0 && |ws| == 0;
      hide GcWrites, WriteAll, PartlyCollected;
      deleted := 0;
      var n := 0;
      while n < |names|
        invariant 0 <= n <= |names| && old(allowed) - n <= allowed <= old(allowed)
        invariant ws == GcWrites(live, names[..n]) && deleted == |ws|
        invariant DiskOf(deviceId) == WriteAll(d0, ws)
        invariant forall d :: d != deviceId ==> DiskOf(d) == old(DiskOf(d))
      {
        GcStep(d0, live, names, n);
        ws := GcWrites(live, names[..n + 1]);
        if names[n] !in live {
          var ok := WriteDisk(deviceId, RemoveBlob(names[n]));
          if !ok { return; }
          deleted := deleted + 1;
        }
        n := n + 1;
      }
      assert names[..n] == names;
      GcPrefix(d0, live, names, |names|);
    }
  }

  /** Each reported scope has the reported flag, every other scope the flag it had, and nothing else changed. */
  predicate Flagged(m: Manifest, n: Manifest, flags: map<Scope, bool>) {
    && n.revision == m.revision && n.entries == m.entries
    && (forall sc :: sc in flags ==> sc in n.truncated && n.truncated[sc] == flags[sc])
    && (forall sc :: sc in n.truncated && sc !in flags ==> sc in m.truncated && n.truncated[sc] == m.truncated[sc])
    && (forall sc :: sc in m.truncated ==> sc in n.truncated)
  }

  function WithTruncated(m: Manifest, flags: map<Scope, bool>): Manifest {
    m.(truncated := m.truncated + flags)
  }

  function RemoveWrites(d: Disk, key: FileKey): seq<DiskWrite> {
    if key in d.manifest.entries
    then [PutManifest(d.manifest.(revision := d.manifest.revision + 1, entries := d.manifest.entries - {key}))] else []
  }

  /** The hashes that manifest entries name, skipped ones included. */
  function LiveSet(m: Manifest): set<string> {
    set k | k in m.entries && m.entries[k].sha256.Some? && m.entries[k].sha256.value != "" :: m.entries[k].sha256.value
  }

  /** The deletions of a collection: the listed files that are not live. */
  function GcWrites(live: set<string>, names: seq<string>): seq<DiskWrite> {
    if names == [] then []
    else
      var ws := GcWrites(live, names[..|names| - 1]);
      var h := names[|names| - 1];
      if h in live then ws else ws + [RemoveBlob(h)]
  }

  /** Some of the deletions of a collection have been made, in order. */
  ghost predicate PartlyCollected(d0: Disk, live: set<string>, names: seq<string>, d: Disk) {
    exists k :: 0 <= k <= |GcWrites(live, names)| && d == WriteAll(d0, GcWrites(live, names)[..k])
  }

  // ---------- steps of the proofs above ----------

  /** `ws` have been written to `d0` and counted. */
  ghost predicate Progress(d0: Disk, d: Disk, ws: seq<DiskWrite>, before: nat, after: int) {
    d == WriteAll(d0, ws) && |ws| <= before && after == before - |ws|
  }

  lemma WriteOneMore(d: Disk, ws: seq<DiskWrite>, w: DiskWrite)
    ensures WriteAll(d, ws + [w]) == Write(WriteAll(d, ws), w)
  {
    assert (ws + [w])[..|ws|] == ws;
  }

  /** What the next change adds to the writes, and how the delta ends if it is refused or its write fails. */
  lemma ChangeStep(d: Disk, cs: seq<Change>, n: nat, hash: Content -> string, allowed: nat)
    requires n < |cs| && FirstRefusal(cs[..n], hash).None?
    requires |BlobWrites(cs[..n], d.blobs, hash)| <= allowed
    ensures ApplyChanges(d.manifest.entries, cs[..n + 1]) == ApplyChange(ApplyChanges(d.manifest.entries, cs[..n]), cs[n])
    ensures FirstRefusal(cs[..n + 1], hash) == Refusal(cs[n], hash)
    ensures var ws := BlobWrites(cs[..n], d.blobs, hash);
      var done := WriteAll(d, ws);
      && done.manifest == d.manifest
      && (Refusal(cs[n], hash).Some? ==> DeltaEffect(d, cs, hash, allowed) == (done, Failed(Refusal(cs[n], hash).value)))
      && (Refusal(cs[n], hash).None? && NeedsBlob(cs[n], done.blobs) ==>
          var w := PutBlob(cs[n].sha256.value, cs[n].content.value);
          && BlobWrites(cs[..n + 1], d.blobs, hash) == ws + [w] && WriteAll(d, ws + [w]) == Write(done, w)
          && (allowed == |ws| ==> DeltaEffect(d, cs, hash, allowed) == (done, Failed(WriteFailed))))
      && (Refusal(cs[n], hash).None? && !NeedsBlob(cs[n], done.blobs) ==> BlobWrites(cs[..n + 1], d.blobs, hash) == ws)
  {
    assert cs[..n + 1][..n] == cs[..n];
    var ws := BlobWrites(cs[..n], d.blobs, hash);
    BlobsOnly(d, cs[..n], hash);
    PrefixOfWrites(d, cs, n, hash);
    PrefixOfWrites(d, cs, n + 1, hash);
    if Refusal(cs[n], hash).Some? {
      RefusedAt(d, cs, n, hash);
    } else if NeedsBlob(cs[n], WriteAll(d, ws).blobs) {
      WriteOneMore(d, ws, PutBlob(cs[n].sha256.value, cs[n].content.value));
      assert DeltaWrites(d, cs, hash)[..|ws|] == ws;
    }
  }

  lemma FinalStep(d: Disk, cs: seq<Change>, hash: Content -> string, allowed: nat)
    requires FirstRefusal(cs, hash).None? && |BlobWrites(cs, d.blobs, hash)| <= allowed
    ensures var ws := BlobWrites(cs, d.blobs, hash);
      && WriteAll(d, ws).manifest == d.manifest
      && (allowed == |ws| ==> DeltaEffect(d, cs, hash, allowed) == (WriteAll(d, ws), Failed(WriteFailed)))
      && (allowed > |ws| ==>
        var done := Write(WriteAll(d, ws), PutManifest(NextManifest(d.manifest, cs)));
        DeltaEffect(d, cs, hash, allowed) == (done, Applied(d.manifest.revision + 1)))
  {
    var ws := BlobWrites(cs, d.blobs, hash);
    BlobsOnly(d, cs, hash);
    LastWrite(d, cs, hash, ws, PutManifest(NextManifest(d.manifest, cs)));
  }

  lemma LastWrite(d: Disk, cs: seq<Change>, hash: Content -> string, ws: seq<DiskWrite>, w: DiskWrite)
    requires FirstRefusal(cs, hash).None? && DeltaWrites(d, cs, hash) == ws + [w]
    ensures DeltaWrites(d, cs, hash)[..|ws|] == ws
    ensures WriteAll(d, DeltaWrites(d, cs, hash)) == Write(WriteAll(d, ws), w)
  {
    WriteOneMore(d, ws, w);
  }

  lemma {:induction false} GcPrefix(d: Disk, live: set<string>, names: seq<string>, n: nat)
    requires n <= |names|
    ensures GcWrites(live, names[..n]) <= GcWrites(live, names)
    ensures PartlyCollected(d, live, names, WriteAll(d, GcWrites(live, names[..n])))
    decreases |names|
  {
    if n == |names| {
      assert names[..n] == names;
    } else {
      var k := |names| - 1;
      assert names[..k][..n] == names[..n];
      GcPrefix(d, live, names[..k], n);
    }
    var m := |GcWrites(live, names[..n])|;
    assert GcWrites(live, names)[..m] == GcWrites(live, names[..n]);
  }

  lemma GcStep(d: Disk, live: set<string>, names: seq<string>, n: nat)
    requires n < |names|
    ensures PartlyCollected(d, live, names, WriteAll(d, GcWrites(live, names[..n])))
    ensures var ws := GcWrites(live, names[..n]);
      && (names[n] in live ==> GcWrites(live, names[..n + 1]) == ws)
      && (names[n] !in live ==>
        && GcWrites(live, names[..n + 1]) == ws + [RemoveBlob(names[n])]
        && WriteAll(d, GcWrites(live, names[..n + 1])) == Write(WriteAll(d, ws), RemoveBlob(names[n])))
  {
    assert names[..n + 1][..n] == names[..n];
    GcPrefix(d, live, names, n);
    WriteOneMore(d, GcWrites(live, names[..n]), RemoveBlob(names[n]));
  }

  lemma {:induction false} RefusalStays(cs: seq<Change>, n: nat, hash: Content -> string)
    requires n <= |cs| && FirstRefusal(cs[..n], hash).Some?
    ensures FirstRefusal(cs, hash) == FirstRefusal(cs[..n], hash)
    decreases |cs|
  {
    if n == |cs| {
      assert cs[..n] == cs;
    } else {
      assert cs[..|cs| - 1][..n] == cs[..n];
      RefusalStays(cs[..|cs| - 1], n, hash);
    }
  }

  lemma {:induction false} PrefixOfWrites(d: Disk, cs: seq<Change>, n: nat, hash: Content -> string)
    requires n <= |cs|
    ensures BlobWrites(cs[..n], d.blobs, hash) <= BlobWrites(cs, d.blobs, hash) <= DeltaWrites(d, cs, hash)
    ensures FirstRefusal(cs[..n], hash).Some? ==> BlobWrites(cs[..n], d.blobs, hash) == BlobWrites(cs, d.blobs, hash)
    decreases |cs|
  {
    if n == |cs| {
      assert cs[..n] == cs;
    } else {
      assert cs[..|cs| - 1][..n] == cs[..n];
      PrefixOfWrites(d, cs[..|cs| - 1], n, hash);
      if FirstRefusal(cs[..n], hash).Some? { RefusalStays(cs, n, hash); }
    }
  }

  lemma RefusedAt(d: Disk, cs: seq<Change>, n: nat, hash: Content -> string)
    requires n < |cs| && FirstRefusal(cs[..n], hash).None? && Refusal(cs[n], hash).Some?
    ensures FirstRefusal(cs, hash) == Refusal(cs[n], hash)
    ensures DeltaWrites(d, cs, hash) == BlobWrites(cs[..n], d.blobs, hash)
  {
    assert cs[..n + 1][..n] == cs[..n];
    RefusalStays(cs, n + 1, hash);
    PrefixOfWrites(d, cs, n + 1, hash);
  }

  /** Blob writes do not depend on the manifest. */
  lemma {:induction false} BlobsOnly(d: Disk, cs: seq<Change>, hash: Content -> string)
    ensures WriteAll(d, BlobWrites(cs, d.blobs, hash)).manifest == d.manifest
    ensures WriteAll(d, BlobWrites(cs, d.blobs, hash)).blobs
         == WriteAll(Disk(Manifest(0, map[], map[]), d.blobs), BlobWrites(cs, d.blobs, hash)).blobs
  {
    if cs != [] {
      BlobsOnly(d, cs[..|cs| - 1], hash);
      var ws := BlobWrites(cs[..|cs| - 1], d.blobs, hash);
      var us := BlobWrites(cs, d.blobs, hash);
      if us != ws { assert us[..|us| - 1] == ws; }
    }
  }
}
