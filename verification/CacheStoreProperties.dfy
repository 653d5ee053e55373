/** What the store keeps through every single disk write. */
module CacheStoreProperties {
  import opened Options
  import opened CacheStore

  /** Blobs carry their own hash as name, and every entry that is not skipped has its blob. */
  ghost predicate Sound(d: Disk, hash: Content -> string) {
    && (forall h :: h in d.blobs ==> hash(d.blobs[h]) == h)
    && (forall k :: k in d.manifest.entries && !d.manifest.entries[k].skipped ==>
        var e := d.manifest.entries[k];
        e.sha256.Some? && e.sha256.value != "" && e.sha256.value in d.blobs)
  }

  /** Sound before, between and after the writes. */
  ghost predicate SoundThroughout(d: Disk, ws: seq<DiskWrite>, hash: Content -> string) {
    forall k :: 0 <= k <= |ws| ==> Sound(WriteAll(d, ws[..k]), hash)
  }

  lemma OneMoreSoundWrite(d: Disk, ws: seq<DiskWrite>, w: DiskWrite, hash: Content -> string)
    requires SoundThroughout(d, ws, hash) && Sound(Write(WriteAll(d, ws), w), hash)
    ensures SoundThroughout(d, ws + [w], hash) && WriteAll(d, ws + [w]) == Write(WriteAll(d, ws), w)
  {
    var vs := ws + [w];
    WriteOneMore(d, ws, w);
    forall k | 0 <= k <= |vs| ensures Sound(WriteAll(d, vs[..k]), hash) {
      if k <= |ws| { assert vs[..k] == ws[..k]; } else { assert vs[..k] == vs; }
    }
  }

  lemma SoundNow(d: Disk, ws: seq<DiskWrite>, hash: Content -> string)
    requires SoundThroughout(d, ws, hash)
    ensures Sound(WriteAll(d, ws), hash)
  {
    assert ws[..|ws|] == ws;
  }

  lemma {:induction false} ManifestUntouched(d: Disk, ws: seq<DiskWrite>)
    requires forall w :: w in ws ==> !w.PutManifest?
    ensures WriteAll(d, ws).manifest == d.manifest
  {
    if ws != [] { ManifestUntouched(d, ws[..|ws| - 1]); }
  }

  lemma {:induction false} OnlyPutBlobs(cs: seq<Change>, blobs: map<string, Content>, hash: Content -> string)
    ensures forall w :: w in BlobWrites(cs, blobs, hash) ==> w.PutBlob?
  {
    if cs != [] { OnlyPutBlobs(cs[..|cs| - 1], blobs, hash); }
  }

  lemma {:induction false} OnlyRemoveBlobs(live: set<string>, names: seq<string>)
    ensures forall w :: w in GcWrites(live, names) ==> w.RemoveBlob? && w.sha256 !in live
  {
    if names != [] { OnlyRemoveBlobs(live, names[..|names| - 1]); }
  }

  /** Every entry that is not skipped has its blob. */
  ghost predicate Backed(es: map<FileKey, CacheEntry>, blobs: map<string, Content>) {
    forall k :: k in es && !es[k].skipped ==>
      es[k].sha256.Some? && es[k].sha256.value != "" && es[k].sha256.value in blobs
  }

  /** Sound, and if nothing was refused the changed entries would be backed as well. */
  lemma {:induction false} BlobWritesKeep(d: Disk, cs: seq<Change>, hash: Content -> string)
    requires Sound(d, hash)
    ensures var ws := BlobWrites(cs, d.blobs, hash);
      && SoundThroughout(d, ws, hash) && WriteAll(d, ws).manifest == d.manifest
      && (FirstRefusal(cs, hash).None? ==> Backed(ApplyChanges(d.manifest.entries, cs), WriteAll(d, ws).blobs))
  {
    var ws := BlobWrites(cs, d.blobs, hash);
    OnlyPutBlobs(cs, d.blobs, hash);
    ManifestUntouched(d, ws);
    if cs == [] {
      assert forall k :: 0 <= k <= |ws| ==> ws[..k] == [];
    } else {
      var n := |cs| - 1;
      BlobWritesKeep(d, cs[..n], hash);
      var us := BlobWrites(cs[..n], d.blobs, hash);
      var x := WriteAll(d, us);
      SoundNow(d, us, hash);
      BlobsOnly(d, cs[..n], hash);
      if FirstRefusal(cs, hash).None? {
        if NeedsBlob(cs[n], x.blobs) {
          OneMoreSoundWrite(d, us, PutBlob(cs[n].sha256.value, cs[n].content.value), hash);
        }
        BackedByOneMore(ApplyChanges(d.manifest.entries, cs[..n]), x.blobs, cs[n], hash);
      }
    }
  }

  lemma BackedByOneMore(es: map<FileKey, CacheEntry>, blobs: map<string, Content>, c: Change, hash: Content -> string)
    requires Backed(es, blobs) && Refusal(c, hash).None?
    ensures Backed(ApplyChange(es, c), if NeedsBlob(c, blobs) then blobs[c.sha256.value := c.content.value] else blobs)
  {}

  /** A delta that fails for any reason leaves the manifest and its revision as they were; one that succeeds stores all
      its changes in order and bumps the revision by one. */
  lemma DeltaWritesManifest(d: Disk, cs: seq<Change>, hash: Content -> string, allowed: nat)
    ensures var (d', r) := DeltaEffect(d, cs, hash, allowed);
      && (r.Failed? ==> d'.manifest == d.manifest)
      && (r.Applied? ==>
          && FirstRefusal(cs, hash).None? && r.revision == d.manifest.revision + 1
          && d'.manifest == NextManifest(d.manifest, cs))
  {
    var ws, all := BlobWrites(cs, d.blobs, hash), DeltaWrites(d, cs, hash);
    OnlyPutBlobs(cs, d.blobs, hash);
    ManifestUntouched(d, ws);
    if FirstRefusal(cs, hash).None? { WriteOneMore(d, ws, PutManifest(NextManifest(d.manifest, cs))); }
    else { assert all == ws; }
    if allowed < |all| {
      assert all[..allowed] == ws[..allowed];
      assert forall w :: w in ws[..allowed] ==> w in ws;
      ManifestUntouched(d, ws[..allowed]);
    }
  }

  /** After every single write of a delta, complete or cut short, the disk is sound. */
  lemma DeltaKeepsSound(d: Disk, cs: seq<Change>, hash: Content -> string, allowed: nat)
    requires Sound(d, hash)
    ensures SoundThroughout(d, DeltaWrites(d, cs, hash), hash)
    ensures Sound(DeltaEffect(d, cs, hash, allowed).0, hash)
  {
    BlobWritesKeep(d, cs, hash);
    var ws, all := BlobWrites(cs, d.blobs, hash), DeltaWrites(d, cs, hash);
    SoundNow(d, ws, hash);
    if FirstRefusal(cs, hash).None? {
      OneMoreSoundWrite(d, ws, PutManifest(NextManifest(d.manifest, cs)), hash);
    } else {
      assert all == ws;
    }
    SoundNow(d, all, hash);
    if allowed < |all| { assert Sound(WriteAll(d, all[..allowed]), hash); }
  }

  ghost predicate IsFirstRefusal(cs: seq<Change>, hash: Content -> string, n: nat) {
    && n < |cs| && Refusal(cs[n], hash) == FirstRefusal(cs, hash)
    && forall i :: 0 <= i < n ==> Refusal(cs[i], hash).None?
  }

  /** A refusal names the first change that lacks content or hash or whose content does not have the declared hash. */
  lemma {:induction false} FirstRefusalIsFirst(cs: seq<Change>, hash: Content -> string)
    ensures FirstRefusal(cs, hash).None? <==> forall c :: c in cs ==> Refusal(c, hash).None?
    ensures FirstRefusal(cs, hash).Some? ==> exists n :: IsFirstRefusal(cs, hash, n)
  {
    if cs != [] {
      var k := |cs| - 1;
      FirstRefusalIsFirst(cs[..k], hash);
      assert cs == cs[..k] + [cs[k]];
      if FirstRefusal(cs[..k], hash).Some? {
        var n :| IsFirstRefusal(cs[..k], hash, n);
        assert forall i :: 0 <= i <= n ==> cs[i] == cs[..k][i];
        assert IsFirstRefusal(cs, hash, n);
      } else {
        assert forall i :: 0 <= i < k ==> cs[i] == cs[..k][i];
        assert FirstRefusal(cs, hash).Some? ==> IsFirstRefusal(cs, hash, k);
      }
    }
  }

  // ---------- what is stored ----------

  predicate IsLastOfKey(cs: seq<Change>, i: nat) {
    i < |cs| && forall j :: i < j < |cs| ==> cs[j].key != cs[i].key
  }

  /** What the manifest says of a file after a change to it: a deleted file is gone, a stored one has the change's size,
      time and hash, and lacks content only if the change did. */
  predicate IsStoredAs(es: map<FileKey, CacheEntry>, c: Change) {
    match c
    case Delete(key, _) => key !in es
    case Upsert(key, size, mtime, sha256, _, skipped, _) =>
      key in es && es[key].size == size && es[key].mtime == mtime && es[key].sha256 == sha256 && es[key].skipped == skipped
  }

  lemma {:induction false} LastChangeWins(es: map<FileKey, CacheEntry>, cs: seq<Change>, i: nat)
    requires IsLastOfKey(cs, i)
    ensures IsStoredAs(ApplyChanges(es, cs), cs[i])
  {
    var k := |cs| - 1;
    if i < k {
      assert IsLastOfKey(cs[..k], i);
      LastChangeWins(es, cs[..k], i);
    }
  }

  predicate SameAt(es: map<FileKey, CacheEntry>, fs: map<FileKey, CacheEntry>, key: FileKey) {
    (key in fs <==> key in es) && (key in es ==> fs[key] == es[key])
  }

  lemma {:induction false} UnchangedStays(es: map<FileKey, CacheEntry>, cs: seq<Change>, key: FileKey)
    requires forall i :: 0 <= i < |cs| ==> cs[i].key != key
    ensures SameAt(es, ApplyChanges(es, cs), key)
  {
    if cs != [] { UnchangedStays(es, cs[..|cs| - 1], key); }
  }

  /** After an applied delta each file's entry is that of its last change, and an entry with content has a blob that
      hashes to the hash of the content sent; all other entries stay. */
  lemma DeltaStoresContent(d: Disk, cs: seq<Change>, hash: Content -> string, allowed: nat)
    requires Sound(d, hash) && DeltaEffect(d, cs, hash, allowed).1.Applied?
    ensures var d' := DeltaEffect(d, cs, hash, allowed).0;
      && (forall i :: 0 <= i < |cs| && IsLastOfKey(cs, i) ==> IsStoredAs(d'.manifest.entries, cs[i]))
      && (forall i :: 0 <= i < |cs| && IsLastOfKey(cs, i) && cs[i].Upsert? && !cs[i].skipped ==>
          IsBacked(d'.blobs, cs[i], hash))
      && (forall key :: (forall i :: 0 <= i < |cs| ==> cs[i].key != key) ==> SameAt(d.manifest.entries, d'.manifest.entries, key))
  {
    DeltaWritesManifest(d, cs, hash, allowed);
    DeltaKeepsSound(d, cs, hash, allowed);
    FirstRefusalIsFirst(cs, hash);
    hide DeltaEffect, ApplyChanges, FirstRefusal;
    forall i | 0 <= i < |cs| && IsLastOfKey(cs, i) ensures IsStoredAs(DeltaEffect(d, cs, hash, allowed).0.manifest.entries, cs[i]) {
      LastChangeWins(d.manifest.entries, cs, i);
    }
    forall i | 0 <= i < |cs| && IsLastOfKey(cs, i) && cs[i].Upsert? && !cs[i].skipped
      ensures IsBacked(DeltaEffect(d, cs, hash, allowed).0.blobs, cs[i], hash)
    {
      assert cs[i] in cs && IsStoredAs(DeltaEffect(d, cs, hash, allowed).0.manifest.entries, cs[i]);
    }
    forall key | forall i :: 0 <= i < |cs| ==> cs[i].key != key
      ensures SameAt(d.manifest.entries, ApplyChanges(d.manifest.entries, cs), key)
    {
      UnchangedStays(d.manifest.entries, cs, key);
    }
  }

  /** The blob of an upload's hash is there, and hashes to what the uploaded content hashes to. */
  predicate IsBacked(blobs: map<string, Content>, c: Change, hash: Content -> string)
    requires c.Upsert?
  {
    && c.content.Some? && c.sha256.Some? && c.sha256.value in blobs
    && hash(blobs[c.sha256.value]) == hash(c.content.value) == c.sha256.value
  }

  /** An upload is honest if it declares the hash of the content it carries; deletions and skipped files carry none. */
  predicate IsHonest(c: Change, hash: Content -> string) {
    c.Upsert? && !c.skipped ==> c.content.Some? && c.sha256 == Some(hash(c.content.value)) && hash(c.content.value) != ""
  }

  lemma {:induction false} FewBlobWrites(cs: seq<Change>, blobs: map<string, Content>, hash: Content -> string)
    ensures |BlobWrites(cs, blobs, hash)| <= |cs|
  {
    if cs != [] { FewBlobWrites(cs[..|cs| - 1], blobs, hash); }
  }

  lemma RefusedUnlessHonest(c: Change, hash: Content -> string)
    ensures Refusal(c, hash).None? <==> IsHonest(c, hash)
  {}

  /** A delta is applied only if all its changes are honest, and then unless the disk fails. */
  lemma HonestIsApplied(d: Disk, cs: seq<Change>, hash: Content -> string, allowed: nat)
    ensures DeltaEffect(d, cs, hash, allowed).1.Applied? ==> forall c :: c in cs ==> IsHonest(c, hash)
    ensures allowed > |cs| && (forall c :: c in cs ==> IsHonest(c, hash)) ==> DeltaEffect(d, cs, hash, allowed).1.Applied?
  {
    FirstRefusalIsFirst(cs, hash);
    FewBlobWrites(cs, d.blobs, hash);
    forall c ensures Refusal(c, hash).None? <==> IsHonest(c, hash) { RefusedUnlessHonest(c, hash); }
  }

  /** A removal takes out the entry and nothing else, and raises the revision if the entry was there. */
  lemma RemovalMeans(d: Disk, key: FileKey)
    ensures var d' := WriteAll(d, RemoveWrites(d, key));
      && key !in d'.manifest.entries && d'.blobs == d.blobs && d'.manifest.truncated == d.manifest.truncated
      && (forall k :: k != key ==> SameAt(d.manifest.entries, d'.manifest.entries, k))
      && d'.manifest.revision == d.manifest.revision + (if key in d.manifest.entries then 1 else 0)
  {
    if key in d.manifest.entries {
      WriteOneMore(d, [], RemoveWrites(d, key)[0]);
      assert [] + RemoveWrites(d, key) == RemoveWrites(d, key);
    }
  }

  /** A stored report sets the reported flags and nothing else. */
  lemma ReportIsStored(m: Manifest, flags: map<Scope, bool>)
    ensures Flagged(m, WithTruncated(m, flags), flags)
  {}

  lemma RemoveKeeps(d: Disk, key: FileKey, hash: Content -> string)
    requires Sound(d, hash)
    ensures Sound(WriteAll(d, RemoveWrites(d, key)), hash)
  {
    if key in d.manifest.entries {
      WriteOneMore(d, [], RemoveWrites(d, key)[0]);
      assert [] + RemoveWrites(d, key) == RemoveWrites(d, key);
    }
  }

  /** Deleting blobs that no entry names keeps the disk sound after every deletion and the manifest as it is. */
  lemma {:induction false} OrphanDeletionsKeep(d: Disk, ws: seq<DiskWrite>, hash: Content -> string)
    requires Sound(d, hash)
    requires forall w :: w in ws ==> w.RemoveBlob? && w.sha256 !in LiveSet(d.manifest)
    ensures SoundThroughout(d, ws, hash) && WriteAll(d, ws).manifest == d.manifest
  {
    if ws == [] {
      assert forall k :: 0 <= k <= |ws| ==> ws[..k] == [];
    } else {
      var k := |ws| - 1;
      OrphanDeletionsKeep(d, ws[..k], hash);
      SoundNow(d, ws[..k], hash);
      KeepsLiveBlob(WriteAll(d, ws[..k]), ws[k].sha256, hash);
      OneMoreSoundWrite(d, ws[..k], ws[k], hash);
      assert ws == ws[..k] + [ws[k]];
    }
  }

  lemma {:induction false} DeletedBlobs(d: Disk, live: set<string>, names: seq<string>)
    ensures WriteAll(d, GcWrites(live, names)).blobs == d.blobs - ((set n | n in names) - live)
  {
    if names != [] {
      var k := |names| - 1;
      DeletedBlobs(d, live, names[..k]);
      assert (set n | n in names) == (set n | n in names[..k]) + {names[k]} by {
        assert names == names[..k] + [names[k]];
      }
      WriteOneMore(d, GcWrites(live, names[..k]), RemoveBlob(names[k]));
    }
  }

  /** Garbage collection keeps the disk sound after every single deletion and never touches the manifest. Run to the
      end on the full directory listing, it leaves exactly the blobs that some entry names. */
  lemma GcExact(d: Disk, names: seq<string>, hash: Content -> string)
    requires Sound(d, hash)
    ensures var ws := GcWrites(LiveSet(d.manifest), names);
      && SoundThroughout(d, ws, hash) && WriteAll(d, ws).manifest == d.manifest
      && ((forall h :: h in names <==> h in d.blobs) ==>
          forall h :: h in WriteAll(d, ws).blobs <==> h in d.blobs && IsNamed(d.manifest, h))
      && (forall h :: h in WriteAll(d, ws).blobs ==> h in d.blobs && WriteAll(d, ws).blobs[h] == d.blobs[h])
  {
    var live := LiveSet(d.manifest);
    OnlyRemoveBlobs(live, names);
    OrphanDeletionsKeep(d, GcWrites(live, names), hash);
    DeletedBlobs(d, live, names);
    forall h ensures h in live <==> IsNamed(d.manifest, h) {}
  }

  /** Some entry, skipped or not, names the hash. */
  predicate IsNamed(m: Manifest, h: string) {
    h != "" && exists k :: k in m.entries && m.entries[k].sha256 == Some(h)
  }

  lemma KeepsLiveBlob(d: Disk, h: string, hash: Content -> string)
    requires Sound(d, hash) && h !in LiveSet(d.manifest)
    ensures Sound(Write(d, RemoveBlob(h)), hash)
  {
    forall k | k in d.manifest.entries && !d.manifest.entries[k].skipped ensures d.manifest.entries[k].sha256.value != h {
      assert d.manifest.entries[k].sha256.value in LiveSet(d.manifest);
    }
  }

  datatype StoreOp =
    | DeltaOp(changes: seq<Change>, allowed: nat)
    | RemoveOp(key: FileKey, allowed: nat)
    | TruncatedOp(flags: map<Scope, bool>)
    | GcOp(names: seq<string>, done: nat)

  /** The disk after an operation of which only the allowed writes took place. */
  function Effect(d: Disk, op: StoreOp, hash: Content -> string): Disk {
    match op
    case DeltaOp(cs, allowed) => DeltaEffect(d, cs, hash, allowed).0
    case RemoveOp(key, allowed) => if allowed > 0 then WriteAll(d, RemoveWrites(d, key)) else d
    case TruncatedOp(flags) => d.(manifest := WithTruncated(d.manifest, flags))
    case GcOp(names, done) =>
      var ws := GcWrites(LiveSet(d.manifest), names);
      if done <= |ws| then WriteAll(d, ws[..done]) else WriteAll(d, ws)
  }

  function EffectAll(d: Disk, ops: seq<StoreOp>, hash: Content -> string): Disk {
    if ops == [] then d else Effect(EffectAll(d, ops[..|ops| - 1], hash), ops[|ops| - 1], hash)
  }

  /** Through any sequence of operations, whichever writes of each one the disk accepts, the disk stays sound and the
      revision never decreases. */
  lemma {:induction false} EveryRunIsSound(d: Disk, ops: seq<StoreOp>, hash: Content -> string)
    requires Sound(d, hash)
    ensures Sound(EffectAll(d, ops, hash), hash)
    ensures EffectAll(d, ops, hash).manifest.revision >= d.manifest.revision
  {
    if ops != [] {
      var k := |ops| - 1;
      EveryRunIsSound(d, ops[..k], hash);
      var x := EffectAll(d, ops[..k], hash);
      match ops[k] {
        case DeltaOp(cs, allowed) =>
          DeltaKeepsSound(x, cs, hash, allowed);
          DeltaWritesManifest(x, cs, hash, allowed);
        case RemoveOp(key, allowed) =>
          RemoveKeeps(x, key, hash);
          if key in x.manifest.entries {
            WriteOneMore(x, [], RemoveWrites(x, key)[0]);
            assert [] + RemoveWrites(x, key) == RemoveWrites(x, key);
          }
        case TruncatedOp(flags) =>
        case GcOp(names, done) =>
          var ws := GcWrites(LiveSet(x.manifest), names);
          OnlyRemoveBlobs(LiveSet(x.manifest), names);
          var vs := if done <= |ws| then ws[..done] else ws;
          assert forall w :: w in vs ==> w in ws;
          OrphanDeletionsKeep(x, vs, hash);
          SoundNow(x, vs, hash);
      }
    }
  }
}
