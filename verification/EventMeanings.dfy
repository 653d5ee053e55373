/** What each access event says about a path, and that the ledger then says the same. */
module EventMeanings {
  import opened StringOrder
  import opened Paths
  import opened PathScan
  import opened AccessLedger
  import opened LedgerProperties
  import opened AccessEventBuffer
  import Instructions
  import SyncPlan

  predicate IsPresent(es: Entries, p: string) {
    p in es && !es[p].Missing?
  }

  /** Present paths other than `p` keep their entries, and no other path has become present. */
  ghost predicate OthersStay(v: View, w: View, p: string) {
    forall q :: q != p ==> SamePresence(v, w, q)
  }

  predicate SamePresence(v: View, w: View, q: string) {
    (IsPresent(w.entries, q) <==> IsPresent(v.entries, q)) && (IsPresent(v.entries, q) ==> w.entries[q] == v.entries[q])
  }

  predicate IsFileAt(w: View, p: string, now: int) {
    p in w.entries && w.entries[p] == File(now)
  }

  predicate IsDirAt(w: View, p: string, now: int, observed: bool) {
    p in w.entries && w.entries[p] == Dir(now, observed)
  }

  /** What is known missing is only what was so before, without the subtrees that `p` lies in. */
  ghost predicate NoLongerMissing(v: View, w: View, p: string) {
    && !KnownMissing(w, p)
    && forall q :: KnownMissing(w, q) <==> exists m :: m in MissingKeys(v.entries) && AtOrUnder(q, m) && !AtOrUnder(p, m)
  }

  /** The entry is the old one but for its time. */
  predicate IsTouched(e: Entry, f: Entry, now: int) {
    match e
    case File(_) => f == File(now)
    case Dir(_, observed) => f == Dir(now, observed)
    case Missing(_) => f == Missing(now)
  }

  ghost predicate TouchedAt(v: View, w: View, p: string, now: int) {
    if IsPresent(v.entries, p) then p in w.entries && IsTouched(v.entries[p], w.entries[p], now) else !IsPresent(w.entries, p)
  }

  // ---------- reads ----------

  /** A path seen as a file is stored as one. */
  lemma FileSeen(v: View, p: string, now: int)
    requires Good(v) && NormalEvent(GetattrFile(p))
    ensures var w := Apply(v, GetattrFile(p), now);
      IsFileAt(w, p, now) && OthersStay(v, w, p) && MissingKeys(w.entries) == MissingKeys(v.entries) - {p}
  {}

  /** A path seen as a directory is stored as one; whether its listing was seen stays as it was. */
  lemma DirSeen(v: View, p: string, now: int)
    requires Good(v) && NormalEvent(GetattrDir(p))
    ensures var w := Apply(v, GetattrDir(p), now);
      && IsDirAt(w, p, now, p in v.entries && v.entries[p].Dir? && v.entries[p].readdirObserved) && OthersStay(v, w, p)
      && MissingKeys(w.entries) == MissingKeys(v.entries) - {p}
  {}

  /** A directory whose listing was seen is stored as such. */
  lemma ListingSeen(v: View, p: string, now: int)
    requires Good(v) && NormalEvent(ReaddirOk(p))
    ensures var w := Apply(v, ReaddirOk(p), now);
      IsDirAt(w, p, now, true) && OthersStay(v, w, p) && MissingKeys(w.entries) == MissingKeys(v.entries) - {p}
  {}

  predicate SaysMissing(ev: AccessEvent) {
    ev.GetattrMissing? || ev.ReaddirMissing? || ev.ReadMissing?
  }

  /** The path and all below it are known missing from now on, and nothing else that was not; unless a directory above it
      was missing already, it is stored as missing at this time; other present paths keep their entries. */
  ghost predicate BecomesMissing(v: View, w: View, a: string, now: int) {
    && (forall q :: KnownMissing(w, q) <==> KnownMissing(v, q) || AtOrUnder(q, a))
    && (if exists m :: m in MissingKeys(v.entries) && Under(a, m) then w == v else a in w.entries && w.entries[a] == Missing(now))
    && OthersStay(v, w, a)
  }

  lemma NewlyMissing(v: View, a: string, now: int)
    requires Good(v) && AbsPath(a)
    ensures var w := UpsertMissing(v, a, now);
      if exists m :: m in MissingKeys(v.entries) && Under(a, m) then w == v else a in w.entries && w.entries[a] == Missing(now)
  {
    MissingAncestorIsUnder(v, a);
    hide Under;
  }

  /** This is what a report does, whatever operation found the path missing. */
  lemma MissingSeen(v: View, ev: AccessEvent, now: int)
    requires Good(v) && NormalEvent(ev) && SaysMissing(ev)
    ensures var w, a := Apply(v, ev, now), ev.shallowestMissingAncestor;
      BecomesMissing(v, w, a, now)
  {
    var a := ev.shallowestMissingAncestor;
    NewlyMissing(v, a, now);
    hide UpsertMissing, KnownMissing, AtOrUnder, SamePresence;
    forall q ensures KnownMissing(UpsertMissing(v, a, now), q) <==> KnownMissing(v, q) || AtOrUnder(q, a) {
      UpsertMissingDenotes(v, a, now, q);
    }
    forall q | q != a ensures SamePresence(v, UpsertMissing(v, a, now), q) { OnlyMissingGo(v, a, now, q); }
  }

  lemma OnlyMissingGo(v: View, a: string, now: int, q: string)
    requires Agrees(v) && AbsPath(a) && q != a
    ensures SamePresence(v, UpsertMissing(v, a, now), q)
  {
    hide HasMissingAncestor, Under;
  }

  /** A read that the cache served refreshes the time of what is stored, and nothing else. */
  lemma HitSeen(v: View, p: string, now: int)
    requires NormalEvent(CacheHit(p))
    ensures var w := Apply(v, CacheHit(p), now);
      && w.entries.Keys == v.entries.Keys && (p in v.entries ==> IsTouched(v.entries[p], w.entries[p], now))
      && forall q :: q in v.entries && q != p ==> w.entries[q] == v.entries[q]
  {}

  // ---------- changes ----------

  /** Invalidation takes out the missing entries at or above the path, and no others. */
  lemma InvalidationMeans(v: View, p: string)
    requires Normal(v) && AbsPath(p)
    ensures var w := InvalidateMissing(v, p);
      && NoLongerMissing(v, w, p) && (forall q :: SamePresence(v, w, q))
      && MissingKeys(w.entries) == set m | m in MissingKeys(v.entries) && !AtOrUnder(p, m)
  {
    var d, w := Invalidated(v.entries, p), InvalidateMissing(v, p);
    forall m ensures m in d <==> m in MissingKeys(v.entries) && AtOrUnder(p, m) {
      ProperAncestorsExact(p, m);
      if m in MissingKeys(v.entries) { assert AbsPath(m); }
    }
    hide AtOrUnder, Invalidated;
    assert MissingKeys(w.entries) == MissingKeys(v.entries) - d;
    forall q ensures SamePresence(v, w, q) {}
  }

  /** A path that was written, created, truncated or had its attributes changed is not known missing any more, nor is what
      the same entry said to be missing; if it is stored as present its time is fresh. */
  lemma WriteSeen(v: View, p: string, now: int)
    requires Good(v) && NormalEvent(Write(p))
    ensures var w := Apply(v, Write(p), now);
      NoLongerMissing(v, w, p) && OthersStay(v, w, p) && TouchedAt(v, w, p, now)
  {
    InvalidationMeans(v, p);
    var x, w := InvalidateMissing(v, p), Apply(v, Write(p), now);
    hide AtOrUnder, InvalidateMissing;
    assert SamePresence(v, x, p);
    assert MissingKeys(w.entries) == MissingKeys(x.entries);
    SameMissingSame(x, w);
    forall q | q != p ensures SamePresence(v, w, q) { assert SamePresence(v, x, q); }
    if p in MissingKeys(x.entries) { Itself(x, p); }
  }

  lemma Itself(v: View, p: string)
    requires p in MissingKeys(v.entries)
    ensures KnownMissing(v, p)
  {
    assert AtOrUnder(p, p);
  }

  lemma SameMissingSame(v: View, w: View)
    requires MissingKeys(w.entries) == MissingKeys(v.entries)
    ensures forall q :: KnownMissing(w, q) <==> KnownMissing(v, q)
  {}

  /** A path that was made a directory is not known missing any more and is stored as a directory. */
  lemma MkdirSeen(v: View, p: string, now: int)
    requires Good(v) && NormalEvent(Mkdir(p))
    ensures var w := Apply(v, Mkdir(p), now);
      && NoLongerMissing(v, w, p) && OthersStay(v, w, p)
      && IsDirAt(w, p, now, p in v.entries && v.entries[p].Dir? && v.entries[p].readdirObserved)
  {
    InvalidationMeans(v, p);
    var x, w := InvalidateMissing(v, p), Apply(v, Mkdir(p), now);
    hide AtOrUnder, InvalidateMissing;
    assert SamePresence(v, x, p);
    if p in MissingKeys(x.entries) { Itself(x, p); }
    assert MissingKeys(w.entries) == MissingKeys(x.entries);
    SameMissingSame(x, w);
    forall q | q != p ensures SamePresence(v, w, q) { assert SamePresence(v, x, q); }
  }

  /** A file that was deleted is not stored, whatever it was stored as; nothing else changes. */
  lemma UnlinkSeen(v: View, p: string, now: int)
    requires NormalEvent(Unlink(p))
    ensures Apply(v, Unlink(p), now).entries == v.entries - {p}
  {}

  /** Nothing is stored at or below the path. */
  predicate IsGone(w: View, p: string) {
    forall q :: q in w.entries ==> !AtOrUnder(q, p)
  }

  /** A directory that was removed is not stored, and only paths at or below it go with it. All of them go exactly if no
      stored path comes between the directory and its descendants in the order of the scan. */
  lemma RmdirSeen(v: View, p: string, now: int)
    requires NormalEvent(Rmdir(p))
    ensures var w := Apply(v, Rmdir(p), now);
      && p !in w.entries && IsPart(w.entries, v.entries) && (forall q :: q in v.entries && q !in w.entries ==> AtOrUnder(q, p))
      && (IsGone(w, p) <==> !ScanBlocked(v.entries.Keys, p))
  {
    StoredIsScanned(v.entries.Keys, p);
    ScanComplete(v.entries.Keys, p);
    var keys, w := v.entries.Keys, Apply(v, Rmdir(p), now);
    hide ScanBlocked, AtOrUnder, ScanReaches;
    if Scanned(keys, p) != set k | k in keys && AtOrUnder(k, p) {
      var k :| k in keys && AtOrUnder(k, p) && k !in Scanned(keys, p);
      assert k in w.entries;
    }
  }

  lemma StoredIsScanned(keys: set<string>, p: string)
    ensures p in keys ==> p in Scanned(keys, p)
    ensures forall q :: q in Scanned(keys, p) ==> q in keys && AtOrUnder(q, p)
  {
    forall q | q in keys && Leq(p, q) && Leq(q, p) ensures AtOrUnder(q, p) { LeqAntisymmetric(p, q); }
  }

  /** What the scan from the old path reaches stands at its new path with its old entry and not at its old one, the new path
      is not known missing, and what lies at neither path nor below keeps its entry. */
  lemma RenameSeen(v: View, p: string, q: string, now: int)
    requires Good(v) && NormalEvent(RenameTo(p, q))
    ensures var w := Apply(v, RenameTo(p, q), now);
      && !KnownMissing(w, q)
      && (forall o :: o in Scanned(v.entries.Keys, p) ==> HasMoved(v, w, p, q, o))
      && (p in v.entries ==> p in Scanned(v.entries.Keys, p))
      && (forall o :: !AtOrUnder(o, p) && !AtOrUnder(o, q) ==> SamePresence(v, w, o))
  {
    var x, w := Rename(v, p, q), Apply(v, RenameTo(p, q), now);
    RenameIsNormal(v, p, q);
    InvalidationMeans(x, q);
    hide AtOrUnder, InvalidateMissing, Rename, KnownMissing;
    StoredIsScanned(v.entries.Keys, p);
    forall o | o in Scanned(v.entries.Keys, p) ensures HasMoved(v, w, p, q, o) {
      RenameMoves(v, p, q, o);
      MovedSurvives(v, x, p, q, o);
    }
    forall o | !AtOrUnder(o, p) && !AtOrUnder(o, q) ensures SamePresence(v, w, o) {
      RenameMoves(v, p, q, o);
      assert SamePresence(x, w, o);
    }
  }

  /** An entry that the scan reached stands at its new path and, if that lies elsewhere, not at its old one. A missing path
      that was moved itself is no longer stored: its new place exists. */
  predicate HasMoved(v: View, w: View, p: string, q: string, o: string) {
    && o in v.entries && AtOrUnder(o, p) && |p| <= |o|
    && var t := q + o[|p|..];
    && (o != p || IsPresent(v.entries, p) ==> t in w.entries && w.entries[t] == v.entries[o])
    && (!AtOrUnder(o, q) ==> o !in w.entries)
  }

  lemma MovedSurvives(v: View, x: View, p: string, q: string, o: string)
    requires Normal(x) && AbsPath(q) && HasMoved(v, x, p, q, o)
    ensures HasMoved(v, InvalidateMissing(x, q), p, q, o)
  {
    InvalidationMeans(x, q);
    var w, t := InvalidateMissing(x, q), q + o[|p|..];
    MovedUnder(o, p, p, q);
    assert p[|p|..] == "" && q + "" == q;
    if o != p { assert !AtOrUnder(q, t) by { UnderShape(q, t); UnderShape(t, q); } }
    hide AtOrUnder, Invalidated;
    assert SamePresence(x, w, t);
    if IsMissing(x.entries, t) && o != p { assert t in MissingKeys(w.entries); }
  }

  lemma RenameIsNormal(v: View, p: string, q: string)
    requires Normal(v) && AbsPath(p) && AbsPath(q)
    ensures Normal(Rename(v, p, q))
  {
    var ps := Scanned(v.entries.Keys, p);
    var moved, x := MovedEntries(v.entries, ps, p, q), Rename(v, p, q);
    forall k | k in x.entries ensures AbsPath(k) {
      if k in moved {
        var o :| o in ps && k == Moved(o, p, q);
        MovedIsAbs(o, p, q);
      }
    }
  }

  /** What a rename makes of a path that the scan reaches, and of one that lies elsewhere. */
  lemma RenameMoves(v: View, p: string, q: string, o: string)
    ensures var x := Rename(v, p, q);
      && (o in Scanned(v.entries.Keys, p) ==> HasMoved(v, x, p, q, o))
      && (!AtOrUnder(o, p) && !AtOrUnder(o, q) ==> (o in x.entries <==> o in v.entries) && SamePresence(v, x, o))
  {
    var ps := Scanned(v.entries.Keys, p);
    var moved, x := MovedEntries(v.entries, ps, p, q), Rename(v, p, q);
    StoredIsScanned(v.entries.Keys, p);
    assert forall k :: k in x.entries <==> k in moved || (k in v.entries && k !in ps);
    forall k | k in moved ensures AtOrUnder(k, q) {
      var m :| m in ps && k == Moved(m, p, q);
      MovedUnder(m, m, p, q);
    }
    if o in ps {
      UnderShape(o, p);
      assert Moved(o, p, q) in moved;
    }
  }

  // ---------- flushes ----------

  /** What an event means for the ledger before and after it. */
  ghost predicate Means(v: View, w: View, ev: AccessEvent, now: int) {
    match ev
    case GetattrFile(p) => IsFileAt(w, p, now) && OthersStay(v, w, p) && MissingKeys(w.entries) == MissingKeys(v.entries) - {p}
    case GetattrDir(p) =>
      && IsDirAt(w, p, now, p in v.entries && v.entries[p].Dir? && v.entries[p].readdirObserved) && OthersStay(v, w, p)
      && MissingKeys(w.entries) == MissingKeys(v.entries) - {p}
    case ReaddirOk(p) => IsDirAt(w, p, now, true) && OthersStay(v, w, p) && MissingKeys(w.entries) == MissingKeys(v.entries) - {p}
    case GetattrMissing(_, a) => BecomesMissing(v, w, a, now)
    case ReaddirMissing(_, a) => BecomesMissing(v, w, a, now)
    case ReadMissing(_, a) => BecomesMissing(v, w, a, now)
    case Write(p) => NoLongerMissing(v, w, p) && OthersStay(v, w, p) && TouchedAt(v, w, p, now)
    case Mkdir(p) =>
      && NoLongerMissing(v, w, p) && OthersStay(v, w, p)
      && IsDirAt(w, p, now, p in v.entries && v.entries[p].Dir? && v.entries[p].readdirObserved)
    case Unlink(p) => w.entries == v.entries - {p}
    case Rmdir(p) =>
      && p !in w.entries && IsPart(w.entries, v.entries) && (forall q :: q in v.entries && q !in w.entries ==> AtOrUnder(q, p))
      && (IsGone(w, p) <==> !ScanBlocked(v.entries.Keys, p))
    case RenameTo(p, q) =>
      && !KnownMissing(w, q) && (forall o :: o in Scanned(v.entries.Keys, p) ==> HasMoved(v, w, p, q, o))
      && (p in v.entries ==> p in Scanned(v.entries.Keys, p))
      && (forall o :: !AtOrUnder(o, p) && !AtOrUnder(o, q) ==> SamePresence(v, w, o))
    case CacheHit(p) =>
      && w.entries.Keys == v.entries.Keys && (p in v.entries ==> IsTouched(v.entries[p], w.entries[p], now))
      && forall q :: q in v.entries && q != p ==> w.entries[q] == v.entries[q]
  }

  predicate IsPart(es: Entries, fs: Entries) {
    forall q :: q in es ==> q in fs && es[q] == fs[q]
  }

  lemma EventMeans(v: View, ev: AccessEvent, now: int)
    requires Good(v) && NormalEvent(ev)
    ensures Means(v, Apply(v, ev, now), ev, now)
  {
    hide Apply, KnownMissing, NoLongerMissing, OthersStay, TouchedAt, IsTouched, IsFileAt, IsDirAt, AtOrUnder, Good;
    match ev {
      case GetattrFile(p) => FileSeen(v, p, now);
      case GetattrDir(p) => DirSeen(v, p, now);
      case ReaddirOk(p) => ListingSeen(v, p, now);
      case GetattrMissing(_, _) => MissingSeen(v, ev, now);
      case ReaddirMissing(_, _) => MissingSeen(v, ev, now);
      case ReadMissing(_, _) => MissingSeen(v, ev, now);
      case Write(p) => WriteSeen(v, p, now);
      case Mkdir(p) => MkdirSeen(v, p, now);
      case Unlink(p) => UnlinkSeen(v, p, now);
      case Rmdir(p) => RmdirSeen(v, p, now);
      case RenameTo(p, q) => RenameSeen(v, p, q, now);
      case CacheHit(p) => HitSeen(v, p, now);
    }
  }

  /** In a flush every event, at its turn, does to the ledger what it means. */
  lemma FlushMeans(v: View, evs: seq<AccessEvent>, times: seq<int>, k: nat)
    requires Good(v) && |times| == |evs| && (forall ev :: ev in evs ==> NormalEvent(ev)) && RenamesUnoccupied(v, evs, times)
    requires k < |evs|
    ensures Means(ApplyAll(v, evs[..k], times[..k]), ApplyAll(v, evs[..k + 1], times[..k + 1]), evs[k], times[k])
  {
    hide Means, Good, NormalEvent;
    assert evs[..k + 1][..k] == evs[..k] && times[..k + 1][..k] == times[..k];
    assert forall i :: 0 <= i < k ==> evs[..k][i] == evs[i] && evs[..k][..i] == evs[..i] && times[..k][..i] == times[..i];
    FlushKeepsGood(v, evs[..k], times[..k]);
    EventMeans(ApplyAll(v, evs[..k], times[..k]), evs[k], times[k]);
  }

  // ---------- created files and the next plan ----------

  /** The event shows that the path exists now. */
  predicate Creates(ev: AccessEvent, p: string) {
    ev == Write(p) || ev == Mkdir(p) || (ev.RenameTo? && ev.newPath == p)
  }

  /** The event says that the path is missing, or moves something to where it lies. */
  predicate MayHide(ev: AccessEvent, p: string) {
    (SaysMissing(ev) && AtOrUnder(p, ev.shallowestMissingAncestor)) || (ev.RenameTo? && AtOrUnder(p, ev.newPath))
  }

  lemma FewerMissing(v: View, w: View, p: string)
    requires MissingKeys(w.entries) <= MissingKeys(v.entries) && !KnownMissing(v, p)
    ensures !KnownMissing(w, p)
  {}

  lemma StaysUnmissed(v: View, ev: AccessEvent, now: int, p: string)
    requires Good(v) && NormalEvent(ev) && !KnownMissing(v, p) && !MayHide(ev, p)
    ensures !KnownMissing(Apply(v, ev, now), p)
  {
    EventMeans(v, ev, now);
    var w := Apply(v, ev, now);
    match ev {
      case RenameTo(o, q) => RenameHidesBelow(v, o, q, p);
      case Write(o) => assert forall m :: m in MissingKeys(v.entries) ==> !AtOrUnder(p, m);
      case Mkdir(o) => assert forall m :: m in MissingKeys(v.entries) ==> !AtOrUnder(p, m);
      case GetattrMissing(_, _) =>
      case ReaddirMissing(_, _) =>
      case ReadMissing(_, _) =>
      case _ =>
        hide Means, KnownMissing, AtOrUnder;
        FewerMissing(v, w, p);
    }
  }

  lemma RenameHidesBelow(v: View, o: string, q: string, p: string)
    requires Normal(v) && AbsPath(o) && AbsPath(q) && !KnownMissing(v, p) && !AtOrUnder(p, q)
    ensures !KnownMissing(InvalidateMissing(Rename(v, o, q), q), p)
  {
    var ps := Scanned(v.entries.Keys, o);
    var moved, x := MovedEntries(v.entries, ps, o, q), Rename(v, o, q);
    assert MissingKeys(InvalidateMissing(x, q).entries) <= MissingKeys(x.entries);
    forall m | m in MissingKeys(x.entries) ensures !AtOrUnder(p, m) {
      if m in moved {
        var k :| k in ps && m == Moved(k, o, q);
        MovedUnder(k, k, o, q);
        if AtOrUnder(p, m) && p != m && m != q { UnderTransitive(p, m, q); }
      } else {
        assert m in MissingKeys(v.entries);
      }
    }
  }

  /** A path that was created is not known missing at the end of the flush unless a later event says so. */
  lemma {:induction false} CreatedIsNotMissing(v: View, evs: seq<AccessEvent>, times: seq<int>, k: nat, p: string)
    requires Good(v) && |times| == |evs| && (forall ev :: ev in evs ==> NormalEvent(ev)) && RenamesUnoccupied(v, evs, times)
    requires k < |evs| && Creates(evs[k], p) && forall i :: k < i < |evs| ==> !MayHide(evs[i], p)
    ensures !KnownMissing(ApplyAll(v, evs, times), p)
  {
    hide KnownMissing, Good, NormalEvent, AtOrUnder, Apply;
    var n := |evs| - 1;
    assert forall i :: 0 <= i < n ==> evs[..n][i] == evs[i] && evs[..n][..i] == evs[..i] && times[..n][..i] == times[..i];
    if k == n {
      FlushMeans(v, evs, times, k);
      assert evs[..k + 1] == evs && times[..k + 1] == times;
    } else {
      CreatedIsNotMissing(v, evs[..n], times[..n], k, p);
      FlushKeepsGood(v, evs[..n], times[..n]);
      StaysUnmissed(ApplyAll(v, evs[..n], times[..n]), evs[n], times[n], p);
    }
  }

  /** The next plan does not list a created file as missing, so the client's scan does not pass over it. */
  lemma CreatedIsNotSkipped(v: View, evs: seq<AccessEvent>, times: seq<int>, k: nat, root: string, r: string,
                            h: Instructions.Instruction)
    requires Good(v) && |times| == |evs| && (forall ev :: ev in evs ==> NormalEvent(ev)) && RenamesUnoccupied(v, evs, times)
    requires k < |evs| && Creates(evs[k], SyncPlan.Abs(root, r))
    requires forall i :: k < i < |evs| ==> !MayHide(evs[i], SyncPlan.Abs(root, r))
    requires SyncPlan.IsInstructionFor(h, ApplyAll(v, evs, times).entries, root)
    ensures r !in h.knownMissing
  {
    hide ApplyAll;
    CreatedIsNotMissing(v, evs, times, k, SyncPlan.Abs(root, r));
    if r in h.knownMissing { Itself(ApplyAll(v, evs, times), SyncPlan.Abs(root, r)); }
  }
}
