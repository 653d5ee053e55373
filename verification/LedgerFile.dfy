/** Writing the ledger out and reading it back. */
module LedgerFile {
  import opened StringOrder
  import opened Paths
  import opened AccessLedger
  import opened LedgerProperties

  /** The JSON document; its entries come in the order the file lists them. */
  datatype LedgerData = LedgerData(version: int, deviceId: string, revision: int, entries: seq<(string, Entry)>)

  datatype ReadResult = Unreadable | Parsed(data: LedgerData)

  function EntriesOf(ps: seq<(string, Entry)>): Entries {
    if ps == [] then map[] else EntriesOf(ps[..|ps| - 1])[ps[|ps| - 1].0 := ps[|ps| - 1].1]
  }

  /** The keys of a JSON object are distinct. */
  predicate DistinctKeys(ps: seq<(string, Entry)>) {
    forall i, j :: 0 <= i < j < |ps| ==> ps[i].0 != ps[j].0
  }

  predicate AbsKeys(ps: seq<(string, Entry)>) {
    forall i :: 0 <= i < |ps| ==> AbsPath(ps[i].0)
  }

  function LoadEntry(v: View, p: string, e: Entry): View
    requires AbsPath(p)
  {
    match e
    case File(at) => UpsertFile(v, p, at)
    case Dir(at, r) => UpsertDir(v, p, at, r)
    case Missing(at) => UpsertMissing(v, p, at)
  }

  const EmptyView := View(map[], {}, {}, 0)

  function LoadAll(ps: seq<(string, Entry)>): View
    requires AbsKeys(ps)
  {
    if ps == [] then EmptyView
    else LoadEntry(LoadAll(ps[..|ps| - 1]), ps[|ps| - 1].0, ps[|ps| - 1].1)
  }

  method Load(deviceId: string, file: ReadResult) returns (runtime: AccessLedgerRuntime)
    requires file.Parsed? ==> AbsKeys(file.data.entries)
    ensures fresh(runtime) && runtime.Valid() && runtime.deviceId == deviceId
    ensures runtime.Value() ==
      if file.Parsed? && file.data.version == 1 && file.data.deviceId == deviceId
      then LoadAll(file.data.entries).(revision := file.data.revision)
      else EmptyView
  {
    runtime := new AccessLedgerRuntime(deviceId);
    if file.Unreadable? || file.data.version != 1 || file.data.deviceId != deviceId { return; }
    var ps := file.data.entries;
    var n := 0;
    while n < |ps|
      invariant 0 <= n <= |ps| && fresh(runtime) && runtime.Valid() && runtime.deviceId == deviceId
      invariant runtime.Value() == LoadAll(ps[..n])
    {
      assert ps[..n + 1][..n] == ps[..n];
      match ps[n].1 {
        case File(at) => runtime.UpsertFilePresent(ps[n].0, at);
        case Dir(at, r) => runtime.UpsertDirPresent(ps[n].0, at, r);
        case Missing(at) => runtime.UpsertMissingEntry(ps[n].0, at);
      }
      n := n + 1;
    }
    assert ps[..n] == ps;
    runtime.SetRevision(file.data.revision);
  }

  // ---------- what loading computes ----------

  /** The missing entries of `es` that lie below another missing entry. */
  ghost predicate Redundant(es: Entries, p: string) {
    IsMissing(es, p) && CoveredBy(es, p)
  }

  ghost predicate CoveredBy(es: Entries, p: string) {
    exists a :: a in MissingKeys(es) && Under(p, a)
  }

  ghost function Compressed(es: Entries): Entries {
    map p | p in es && !Redundant(es, p) :: es[p]
  }

  /** Whatever lies below a missing entry lies below one that is kept. */
  lemma {:induction false} CoveredByKept(es: Entries, p: string)
    ensures CoveredBy(es, p) <==> CoveredBy(Compressed(es), p)
  {
    if CoveredBy(es, p) {
      var a :| a in MissingKeys(es) && Under(p, a);
      var top := Topmost(es, a);
      UnderTransitive(p, a, top);
      assert top in MissingKeys(Compressed(es));
    }
    if CoveredBy(Compressed(es), p) {
      var a :| a in MissingKeys(Compressed(es)) && Under(p, a);
      assert a in MissingKeys(es);
    }
  }

  lemma {:induction false} Topmost(es: Entries, a: string) returns (top: string)
    requires a in MissingKeys(es)
    ensures top in MissingKeys(es) && AtOrUnder(a, top) && !CoveredBy(es, top)
    decreases |a|
  {
    if CoveredBy(es, a) {
      var b :| b in MissingKeys(es) && Under(a, b);
      UnderShape(a, b);
      top := Topmost(es, b);
      UnderTransitive(a, b, top);
    } else {
      top := a;
    }
  }

  /** Loading in any order keeps exactly the entries that are not redundant, and rebuilds both indexes. */
  lemma {:induction false} LoadCompresses(ps: seq<(string, Entry)>)
    requires DistinctKeys(ps) && AbsKeys(ps)
    ensures LoadAll(ps).entries == Compressed(EntriesOf(ps))
    ensures Agrees(LoadAll(ps)) && LoadAll(ps).revision == 0
  {
    if ps == [] {
      assert EntriesOf(ps) == map[];
    } else {
      var k := |ps| - 1;
      var p, e := ps[k].0, ps[k].1;
      LoadCompresses(ps[..k]);
      var v, es := LoadAll(ps[..k]), EntriesOf(ps[..k]);
      KeysOf(ps[..k]);
      assert forall i :: 0 <= i < k ==> ps[..k][i].0 != p;
      LoadOneMore(v, es, p, e);
    }
  }

  lemma KeysOf(ps: seq<(string, Entry)>)
    ensures forall p :: p in EntriesOf(ps) <==> exists i :: 0 <= i < |ps| && ps[i].0 == p
  {
    if ps != [] {
      var k := |ps| - 1;
      KeysOf(ps[..k]);
      forall p | p in EntriesOf(ps) ensures exists i :: 0 <= i < |ps| && ps[i].0 == p {
        if p in EntriesOf(ps[..k]) { var i :| 0 <= i < k && ps[..k][i].0 == p; assert ps[i].0 == p; } else {
          assert ps[k].0 == p;
        }
      }
      forall p, i | 0 <= i < |ps| && ps[i].0 == p ensures p in EntriesOf(ps) {
        if i < k { assert ps[..k][i].0 == p; }
      }
    }
  }

  lemma LoadOneMore(v: View, es: Entries, p: string, e: Entry)
    requires Agrees(v) && v.entries == Compressed(es) && p !in es && AbsPath(p)
    requires forall q :: q in es ==> AbsPath(q)
    ensures LoadEntry(v, p, e).entries == Compressed(es[p := e])
    ensures Agrees(LoadEntry(v, p, e)) && LoadEntry(v, p, e).revision == v.revision
  {
    match e {
      case File(at) =>
        UpsertFileKeeps(v, p, at);
        assert MissingKeys(es[p := e]) == MissingKeys(es);
      case Dir(at, r) =>
        UpsertDirKeeps(v, p, at, r);
        assert MissingKeys(es[p := e]) == MissingKeys(es);
      case Missing(at) =>
        UpsertMissingKeeps(v, p, at);
        LoadMissing(v, es, p, at);
    }
  }

  lemma CoveredByOneMore(es: Entries, p: string, at: int, q: string)
    requires p !in es
    ensures CoveredBy(es[p := Missing(at)], q) <==> CoveredBy(es, q) || Under(q, p)
  {
    var es' := es[p := Missing(at)];
    assert MissingKeys(es') == MissingKeys(es) + {p};
    if CoveredBy(es, q) { var a :| a in MissingKeys(es) && Under(q, a); assert a in MissingKeys(es'); }
    if Under(q, p) { assert p in MissingKeys(es'); }
  }

  lemma LoadMissing(v: View, es: Entries, p: string, at: int)
    requires Agrees(v) && v.entries == Compressed(es) && p !in es && AbsPath(p)
    requires forall q :: q in es ==> AbsPath(q)
    ensures LoadEntry(v, p, Missing(at)).entries == Compressed(es[p := Missing(at)])
  {
    hide Under;
    var es', w := es[p := Missing(at)], LoadEntry(v, p, Missing(at));
    MissingAncestorIsUnder(v, p);
    CoveredByKept(es, p);
    UnderNotReflexive(p);
    forall q ensures CoveredBy(es', q) <==> CoveredBy(es, q) || Under(q, p) { CoveredByOneMore(es, p, at, q); }
    if CoveredBy(es, p) {
      var a :| a in MissingKeys(es) && Under(p, a);
      forall q | q in es && Under(q, p) ensures CoveredBy(es, q) { UnderTransitive(q, p, a); }
      assert Compressed(es') == Compressed(es);
    } else {
      assert w.entries == (v.entries - Absorbed(v, p))[p := Missing(at)];
      assert Compressed(es').Keys == (Compressed(es).Keys - Absorbed(v, p)) + {p};
    }
  }

  /** Writing a ledger whose indexes agree and reading it back, whatever order the file lists the entries in,
      gives the same map, indexes and revision exactly when its missing entries form an antichain. */
  lemma RoundTrip(v: View, ps: seq<(string, Entry)>)
    requires Agrees(v) && Normal(v)
    requires DistinctKeys(ps) && EntriesOf(ps) == v.entries
    ensures AbsKeys(ps)
    ensures LoadAll(ps).(revision := v.revision) == v <==> Antichain(v)
  {
    KeysOf(ps);
    forall i | 0 <= i < |ps| ensures AbsPath(ps[i].0) { assert ps[i].0 in EntriesOf(ps); }
    LoadCompresses(ps);
    if Antichain(v) {
      assert Compressed(v.entries) == v.entries;
    } else {
      var a, b :| a in MissingKeys(v.entries) && b in MissingKeys(v.entries) && Under(a, b);
      assert Redundant(v.entries, a);
      assert a !in Compressed(v.entries);
    }
  }
}
