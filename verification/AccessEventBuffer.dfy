/** The events of a session, applied to the ledger in one flush. */
module AccessEventBuffer {
  import opened Paths
  import opened PathScan
  import opened AccessLedger
  import opened LedgerProperties

  datatype AccessEvent =
    | GetattrFile(path: string)
    | GetattrDir(path: string)
    | GetattrMissing(path: string, shallowestMissingAncestor: string)
    | ReaddirOk(path: string)
    | ReaddirMissing(path: string, shallowestMissingAncestor: string)
    | ReadMissing(path: string, shallowestMissingAncestor: string)
    | Write(path: string) // write, create, truncate, setattr and chmod are handled alike
    | Mkdir(path: string)
    | Unlink(path: string)
    | Rmdir(path: string)
    | RenameTo(oldPath: string, newPath: string)
    | CacheHit(path: string)

  predicate NormalEvent(ev: AccessEvent) {
    match ev
    case GetattrMissing(p, a) => AbsPath(p) && AbsPath(a)
    case ReaddirMissing(p, a) => AbsPath(p) && AbsPath(a)
    case ReadMissing(p, a) => AbsPath(p) && AbsPath(a)
    case RenameTo(p, q) => AbsPath(p) && AbsPath(q)
    case _ => AbsPath(ev.path)
  }

  /** The effect of one event on the ledger. */
  ghost function Apply(v: View, ev: AccessEvent, now: int): View
    requires NormalEvent(ev)
  {
    match ev
    case GetattrFile(p) => UpsertFile(v, p, now)
    case GetattrDir(p) => UpsertDir(v, p, now, false)
    case GetattrMissing(_, a) => UpsertMissing(v, a, now)
    case ReaddirOk(p) => UpsertDir(v, p, now, true)
    case ReaddirMissing(_, a) => UpsertMissing(v, a, now)
    case ReadMissing(_, a) => UpsertMissing(v, a, now)
    case Write(p) => Touch(InvalidateMissing(v, p), p, now)
    case Mkdir(p) => UpsertDir(InvalidateMissing(v, p), p, now, false)
    case Unlink(p) => RemoveFile(v, p)
    case Rmdir(p) => RemoveSubtree(v, p)
    case RenameTo(p, q) => InvalidateMissing(Rename(v, p, q), q)
    case CacheHit(p) => Touch(v, p, now)
  }

  /** The effect of a list of events, each with the time it was applied at. */
  ghost function ApplyAll(v: View, evs: seq<AccessEvent>, times: seq<int>): View
    requires |times| == |evs| && forall ev :: ev in evs ==> NormalEvent(ev)
  {
    if evs == [] then v
    else
      var k := |evs| - 1;
      Apply(ApplyAll(v, evs[..k], times[..k]), evs[k], times[k])
  }

  /** Each rename, when its turn comes, finds nothing else stored at or below its destination. */
  ghost predicate RenamesUnoccupied(v: View, evs: seq<AccessEvent>, times: seq<int>)
    requires |times| == |evs| && forall ev :: ev in evs ==> NormalEvent(ev)
  {
    forall k :: 0 <= k < |evs| && evs[k].RenameTo? ==>
      Unoccupied(ApplyAll(v, evs[..k], times[..k]), evs[k].oldPath, evs[k].newPath)
  }

  class SessionAccessBuffer {
    var events: seq<AccessEvent>

    constructor ()
      ensures events == []
    { events := []; }

    method RecordEvent(event: AccessEvent)
      modifies this
      ensures events == old(events) + [event]
    { events := events + [event]; }

    /** Empties the buffer into the ledger. `times` are the clock readings, one per event. */
    method Flush(ledger: AccessLedgerRuntime, times: seq<int>)
      requires ledger.Valid() && |times| == |events|
      requires forall ev :: ev in events ==> NormalEvent(ev)
      modifies this, ledger
      ensures ledger.Valid() && events == []
      ensures old(events) == [] ==> ledger.Value() == old(ledger.Value())
      ensures old(events) != [] ==>
        ledger.Value() == ApplyAll(old(ledger.Value()), old(events), times).(revision := old(ledger.revision) + 1)
    {
      if events == [] { return; }
      var evs := events;
      events := [];
      var n := 0;
      while n < |evs|
        invariant 0 <= n <= |evs| && ledger.Valid() && events == []
        invariant ledger.Value() == ApplyAll(old(ledger.Value()), evs[..n], times[..n])
      {
        assert evs[..n + 1][..n] == evs[..n] && times[..n + 1][..n] == times[..n];
        ApplyOne(ledger, evs[n], times[n]);
        n := n + 1;
      }
      assert evs[..n] == evs && times[..n] == times;
      KeepsRevision(old(ledger.Value()), evs, times);
      ledger.BumpRevision();
    }

    /** The switch in the loop. */
    method ApplyOne(ledger: AccessLedgerRuntime, ev: AccessEvent, now: int)
      requires ledger.Valid() && NormalEvent(ev)
      modifies ledger
      ensures ledger.Valid() && ledger.Value() == Apply(old(ledger.Value()), ev, now)
    {
      match ev {
        case GetattrFile(p) => ledger.UpsertFilePresent(p, now);
        case GetattrDir(p) => ledger.UpsertDirPresent(p, now, false);
        case GetattrMissing(_, a) => ledger.UpsertMissingEntry(a, now);
        case ReaddirOk(p) => ledger.UpsertDirPresent(p, now, true);
        case ReaddirMissing(_, a) => ledger.UpsertMissingEntry(a, now);
        case ReadMissing(_, a) => ledger.UpsertMissingEntry(a, now);
        case Write(p) => ledger.InvalidateMissingPrefixes(p); ledger.TouchIfPresent(p, now);
        case Mkdir(p) => ledger.InvalidateMissingPrefixes(p); ledger.UpsertDirPresent(p, now, false);
        case Unlink(p) => ledger.RemoveFilePresent(p);
        case Rmdir(p) => ledger.RemoveDirSubtree(p);
        case RenameTo(p, q) => ledger.RenameSubtree(p, q); ledger.InvalidateMissingPrefixes(q);
        case CacheHit(p) => ledger.TouchIfPresent(p, now);
      }
    }
  }

  lemma KeepsRevision(v: View, evs: seq<AccessEvent>, times: seq<int>)
    requires |times| == |evs| && forall ev :: ev in evs ==> NormalEvent(ev)
    ensures ApplyAll(v, evs, times).revision == v.revision
  {}

  lemma ApplyKeepsGood(v: View, ev: AccessEvent, now: int)
    requires Good(v) && NormalEvent(ev)
    requires ev.RenameTo? ==> Unoccupied(v, ev.oldPath, ev.newPath)
    ensures Good(Apply(v, ev, now))
  {
    match ev {
      case GetattrFile(p) => UpsertFileKeeps(v, p, now);
      case GetattrDir(p) => UpsertDirKeeps(v, p, now, false);
      case GetattrMissing(_, a) => UpsertMissingKeeps(v, a, now);
      case ReaddirOk(p) => UpsertDirKeeps(v, p, now, true);
      case ReaddirMissing(_, a) => UpsertMissingKeeps(v, a, now);
      case ReadMissing(_, a) => UpsertMissingKeeps(v, a, now);
      case Write(p) => InvalidateKeeps(v, p); TouchKeeps(InvalidateMissing(v, p), p, now);
      case Mkdir(p) => InvalidateKeeps(v, p); UpsertDirKeeps(InvalidateMissing(v, p), p, now, false);
      case Unlink(p) => RemovePathsKeeps(v, {p});
      case Rmdir(p) => RemovePathsKeeps(v, Scanned(v.entries.Keys, p));
      case RenameTo(p, q) => RenameKeeps(v, p, q);
      case CacheHit(p) => TouchKeeps(v, p, now);
    }
  }

  /** The indexes keep agreeing with the map and the missing entries stay an antichain, whatever is flushed, as long
      as renames go to unoccupied destinations. */
  lemma {:induction false} FlushKeepsGood(v: View, evs: seq<AccessEvent>, times: seq<int>)
    requires Good(v) && |times| == |evs| && forall ev :: ev in evs ==> NormalEvent(ev)
    requires RenamesUnoccupied(v, evs, times)
    ensures Good(ApplyAll(v, evs, times))
  {
    if evs != [] {
      var k := |evs| - 1;
      assert forall i :: 0 <= i < k ==> evs[..k][i] == evs[i] && evs[..k][..i] == evs[..i] && times[..k][..i] == times[..i];
      FlushKeepsGood(v, evs[..k], times[..k]);
      ApplyKeepsGood(ApplyAll(v, evs[..k], times[..k]), evs[k], times[k]);
    }
  }
}
