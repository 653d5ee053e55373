/** What the ledger operations keep and what they mean. */
module LedgerProperties {
  import opened StringOrder
  import opened Paths
  import opened PathScan
  import opened AccessLedger

  // ---------- the known-missing set ----------

  /** `q` is known not to exist: it is, or lies below, a missing entry. */
  ghost predicate KnownMissing(v: View, q: string) {
    exists m :: m in MissingKeys(v.entries) && AtOrUnder(q, m)
  }

  /** No missing entry lies below another one. */
  ghost predicate Antichain(v: View) {
    forall a, b :: a in MissingKeys(v.entries) && b in MissingKeys(v.entries) ==> !Under(a, b)
  }

  /** The invariant of every ledger reached by flushing events. */
  ghost predicate Good(v: View) {
    Agrees(v) && Normal(v) && Antichain(v)
  }

  lemma MissingAncestorIsUnder(v: View, p: string)
    requires AbsPath(p) && Normal(v)
    ensures HasMissingAncestor(v.entries, p) <==> exists m :: m in MissingKeys(v.entries) && Under(p, m)
  {
    if HasMissingAncestor(v.entries, p) {
      var a :| a in ProperAncestors(p) && IsMissing(v.entries, a);
      ProperAncestorsExact(p, a);
      assert a in MissingKeys(v.entries);
    }
    if m :| m in MissingKeys(v.entries) && Under(p, m) {
      ProperAncestorsExact(p, m);
      assert m in ProperAncestors(p) && IsMissing(v.entries, m);
    }
  }

  /** Recording `a` as missing adds exactly the subtree of `a` to the known-missing set. */
  lemma UpsertMissingDenotes(v: View, a: string, at: int, q: string)
    requires Agrees(v) && Normal(v) && AbsPath(a)
    ensures KnownMissing(UpsertMissing(v, a, at), q) <==> KnownMissing(v, q) || AtOrUnder(q, a)
  {
    MissingAncestorIsUnder(v, a);
    var w := UpsertMissing(v, a, at);
    if HasMissingAncestor(v.entries, a) {
      assert MissingKeys(w.entries) == MissingKeys(v.entries);
      if AtOrUnder(q, a) {
        var m :| m in MissingKeys(v.entries) && Under(a, m);
        UnderTransitive(q, a, m);
      }
    } else {
      assert MissingKeys(w.entries) == MissingKeys(v.entries) - Absorbed(v, a) + {a};
      if KnownMissing(v, q) {
        var m :| m in MissingKeys(v.entries) && AtOrUnder(q, m);
        if m in Absorbed(v, a) { UnderTransitive(q, m, a); assert a in MissingKeys(w.entries); }
        else { assert m in MissingKeys(w.entries); }
      }
      if AtOrUnder(q, a) { assert a in MissingKeys(w.entries); }
    }
  }

  /** Invalidation removes at most one entry, and afterwards `p` is not known to be missing. */
  lemma InvalidateMissingDenotes(v: View, p: string)
    requires Good(v) && AbsPath(p)
    ensures |Invalidated(v.entries, p)| <= 1
    ensures Invalidated(v.entries, p) == set m | m in MissingKeys(v.entries) && AtOrUnder(p, m)
    ensures var w := InvalidateMissing(v, p);
      && MissingKeys(w.entries) == MissingKeys(v.entries) - Invalidated(v.entries, p)
      && !KnownMissing(w, p)
  {
    var d := Invalidated(v.entries, p);
    forall m ensures m in d <==> m in MissingKeys(v.entries) && AtOrUnder(p, m) {
      ProperAncestorsExact(p, m);
      if m in MissingKeys(v.entries) { assert AbsPath(m); }
    }
    forall x, y | x in d && y in d ensures x == y {
      AncestorsLinear(p, x, y);
    }
    if d != {} { var x :| x in d; assert d == {x}; }
  }

  // ---------- the secondary indexes ----------

  lemma UpsertFileKeeps(v: View, p: string, at: int)
    requires Agrees(v)
    ensures Agrees(UpsertFile(v, p, at))
    ensures Good(v) && AbsPath(p) ==> Good(UpsertFile(v, p, at))
  {
    var w := UpsertFile(v, p, at);
    assert MissingKeys(w.entries) == MissingKeys(v.entries) - {p};
  }

  lemma UpsertDirKeeps(v: View, p: string, at: int, readdir: bool)
    requires Agrees(v)
    ensures Agrees(UpsertDir(v, p, at, readdir))
    ensures Good(v) && AbsPath(p) ==> Good(UpsertDir(v, p, at, readdir))
  {
    var w := UpsertDir(v, p, at, readdir);
    assert MissingKeys(w.entries) == MissingKeys(v.entries) - {p};
  }

  lemma RemovePathsKeeps(v: View, ps: set<string>)
    requires Agrees(v)
    ensures Agrees(RemovePaths(v, ps))
    ensures Good(v) ==> Good(RemovePaths(v, ps))
  {
    var w := RemovePaths(v, ps);
    assert MissingKeys(w.entries) == MissingKeys(v.entries) - ps;
    assert ObservedKeys(w.entries) == ObservedKeys(v.entries) - ps;
  }

  lemma TouchKeeps(v: View, p: string, at: int)
    requires Agrees(v)
    ensures Agrees(Touch(v, p, at)) && MissingKeys(Touch(v, p, at).entries) == MissingKeys(v.entries)
    ensures Good(v) ==> Good(Touch(v, p, at))
  {}

  lemma InvalidateKeeps(v: View, p: string)
    requires Agrees(v) && AbsPath(p)
    ensures Agrees(InvalidateMissing(v, p))
    ensures Good(v) ==> Good(InvalidateMissing(v, p))
  {
    var w := InvalidateMissing(v, p);
    assert MissingKeys(w.entries) == MissingKeys(v.entries) - Invalidated(v.entries, p);
    assert ObservedKeys(w.entries) == ObservedKeys(v.entries);
  }

  lemma AgeKeeps(v: View, now: int, ageMs: int)
    requires Agrees(v)
    ensures Agrees(Age(v, now, ageMs))
    ensures Good(v) ==> Good(Age(v, now, ageMs))
    ensures MissingKeys(Age(v, now, ageMs).entries)
         == set m | m in MissingKeys(v.entries) && v.entries[m].lastAccessedAt >= now - ageMs
    ensures forall q :: q in v.entries && !v.entries[q].Missing? ==> q in Age(v, now, ageMs).entries
    ensures forall q :: q in Age(v, now, ageMs).entries ==> q in v.entries && Age(v, now, ageMs).entries[q] == v.entries[q]
  {
    var w := Age(v, now, ageMs);
    assert MissingKeys(w.entries) == MissingKeys(v.entries) - Expired(v, now - ageMs);
    assert ObservedKeys(w.entries) == ObservedKeys(v.entries);
  }

  lemma UpsertMissingKeeps(v: View, p: string, at: int)
    requires Agrees(v) && AbsPath(p)
    ensures Agrees(UpsertMissing(v, p, at))
    ensures Good(v) ==> Good(UpsertMissing(v, p, at))
  {
    var w := UpsertMissing(v, p, at);
    if HasMissingAncestor(v.entries, p) {
      assert MissingKeys(w.entries) == MissingKeys(v.entries);
      assert ObservedKeys(w.entries) == ObservedKeys(v.entries);
    } else {
      assert MissingKeys(w.entries) == MissingKeys(v.entries) - Absorbed(v, p) + {p};
      assert ObservedKeys(w.entries) == ObservedKeys(v.entries) - {p};
      if Good(v) {
        MissingAncestorIsUnder(v, p);
        UnderNotReflexive(p);
      }
    }
  }

  /** Every entry that a rename overwrites is missing only if its replacement is, and an observed directory only if
      its replacement is. */
  ghost predicate RenameSafe(v: View, from: string, to: string) {
    var ps := Scanned(v.entries.Keys, from);
    forall p :: p in ps && Moved(p, from, to) in v.entries && Moved(p, from, to) !in ps ==>
      && (v.entries[Moved(p, from, to)].Missing? ==> v.entries[p].Missing?)
      && (IsObserved(v.entries, Moved(p, from, to)) ==> IsObserved(v.entries, p))
  }

  /** Storing entries over others keeps the indexes exactly when no overwritten entry leaves a stale index entry. */
  lemma PutAllKeepsAgreement(v: View, m: Entries)
    requires Agrees(v)
    ensures Agrees(PutAll(v, m)) <==> forall t :: t in m && t in v.entries ==>
      (v.entries[t].Missing? ==> m[t].Missing?) && (IsObserved(v.entries, t) ==> IsObserved(m, t))
  {
    var w := PutAll(v, m);
    forall t ensures t in w.missing <==> IsMissing(v.entries, t) || IsMissing(m, t) {}
    forall t ensures t in MissingKeys(w.entries) <==> if t in m then IsMissing(m, t) else IsMissing(v.entries, t) {}
    forall t ensures t in w.observed <==> IsObserved(v.entries, t) || IsObserved(m, t) {}
    forall t ensures t in ObservedKeys(w.entries) <==> if t in m then IsObserved(m, t) else IsObserved(v.entries, t) {}
  }

  /** A rename leaves the indexes in agreement exactly when it is safe in this sense. */
  lemma RenameKeepsAgreement(v: View, from: string, to: string)
    requires Agrees(v)
    ensures Agrees(Rename(v, from, to)) <==> RenameSafe(v, from, to)
  {
    var ps := Scanned(v.entries.Keys, from);
    var moved := MovedEntries(v.entries, ps, from, to);
    var kept := RemovePaths(v, ps);
    RemovePathsKeeps(v, ps);
    PutMovedKeepsAgreement(kept, v.entries, ps, moved, from, to);
  }

  lemma PutMovedKeepsAgreement(kept: View, es: Entries, ps: set<string>, moved: Entries, from: string, to: string)
    requires Agrees(kept)
    requires forall p :: p in ps ==> p in es && AtOrUnder(p, from) && Moved(p, from, to) in moved && moved[Moved(p, from, to)] == es[p]
    requires forall t :: t in moved ==> exists p :: p in ps && t == Moved(p, from, to)
    ensures Agrees(PutAll(kept, moved)) <==> forall p :: p in ps && Moved(p, from, to) in kept.entries ==>
      && (kept.entries[Moved(p, from, to)].Missing? ==> es[p].Missing?)
      && (IsObserved(kept.entries, Moved(p, from, to)) ==> IsObserved(es, p))
  {
    PutAllKeepsAgreement(kept, moved);
    forall t | t in moved ensures exists p :: p in ps && t == Moved(p, from, to) && moved[t] == es[p] {}
  }

  /** Renaming something present over a path recorded as missing leaves that path in the missing index, and the
      invalidation that follows a rename does not take it out. */
  lemma RenameOverMissingBreaksIndex(v: View, from: string, to: string)
    requires Agrees(v) && AbsPath(to) && from in v.entries && !v.entries[from].Missing?
    requires IsMissing(v.entries, to) && !AtOrUnder(to, from)
    ensures var w := Rename(v, from, to);
      && to in w.missing && to in w.entries && w.entries[to] == v.entries[from]
      && !Agrees(w) && !Agrees(InvalidateMissing(w, to))
  {
    var ps := Scanned(v.entries.Keys, from);
    forall q | q in v.entries.Keys && Leq(from, q) && Leq(q, from) ensures AtOrUnder(q, from) {
      LeqAntisymmetric(from, q);
    }
    assert from in ps && to !in ps;
    assert Moved(from, from, to) == to by { assert from[|from|..] == "" && to + "" == to; }
    var w := Rename(v, from, to);
    assert to in w.missing && w.entries[to] == v.entries[from];
    assert to !in MissingKeys(w.entries);
    var x := InvalidateMissing(w, to);
    assert to in x.missing && to !in MissingKeys(x.entries);
  }

  /** A ledger that knows one file and one missing path elsewhere satisfies the invariant. */
  lemma TwoEntriesGood(from: string, to: string)
    requires AbsPath(from) && AbsPath(to) && from != to
    ensures Good(View(map[from := File(0), to := Missing(0)], {to}, {}, 0))
  {
    UnderNotReflexive(to);
  }

  /** Such a ledger exists among those that satisfy the invariant. */
  lemma RenameOverMissingHappens(from: string, to: string)
    requires from == "/a" && to == "/b"
    ensures var v := View(map[from := File(0), to := Missing(0)], {to}, {}, 0);
      Good(v) && !Agrees(InvalidateMissing(Rename(v, from, to), to))
  {
    assert !AtOrUnder(to, from) by { UnderShape(to, from); }
    TwoEntriesGood(from, to);
    hide AtOrUnder, Rename, InvalidateMissing;
    RenameOverMissingBreaksIndex(View(map[from := File(0), to := Missing(0)], {to}, {}, 0), from, to);
  }

  /** Nothing other than what moves is stored at or below the destination. */
  ghost predicate Unoccupied(v: View, from: string, to: string) {
    forall k :: k in v.entries && k !in Scanned(v.entries.Keys, from) ==> !AtOrUnder(k, to)
  }

  /** A rename onto an unoccupied destination followed by the invalidation of the destination keeps the invariant. */
  lemma RenameKeeps(v: View, from: string, to: string)
    requires Good(v) && AbsPath(from) && AbsPath(to) && Unoccupied(v, from, to)
    ensures Good(InvalidateMissing(Rename(v, from, to), to))
    ensures Agrees(Rename(v, from, to)) && Normal(Rename(v, from, to))
  {
    var ps := Scanned(v.entries.Keys, from);
    var moved := MovedEntries(v.entries, ps, from, to);
    var w := Rename(v, from, to);
    forall p | p in ps ensures AtOrUnder(Moved(p, from, to), to) && AbsPath(Moved(p, from, to)) {
      MovedUnder(p, p, from, to);
      MovedIsAbs(p, from, to);
    }
    assert RenameSafe(v, from, to);
    RenameKeepsAgreement(v, from, to);
    forall k | k in w.entries ensures AbsPath(k) {
      if k in moved { var p :| p in ps && k == Moved(p, from, to); }
    }
    InvalidateKeeps(w, to);
    var x := InvalidateMissing(w, to);
    forall a, b | a in MissingKeys(x.entries) && b in MissingKeys(x.entries) ensures !Under(a, b) {
      RenamedMissing(v, from, to, a);
      RenamedMissing(v, from, to, b);
      NotComparable(v, from, to, a, b);
    }
  }

  /** Where a missing entry comes from, after a rename and the invalidation of its destination. */
  ghost predicate Origin(v: View, from: string, to: string, a: string, p: string) {
    && p in MissingKeys(v.entries)
    && if p in Scanned(v.entries.Keys, from) then a == Moved(p, from, to)
       else a == p && !AtOrUnder(a, to) && !AtOrUnder(to, a)
  }

  lemma RenamedMissing(v: View, from: string, to: string, a: string)
    requires Good(v) && AbsPath(to) && Unoccupied(v, from, to)
    requires a in MissingKeys(InvalidateMissing(Rename(v, from, to), to).entries)
    ensures exists p :: Origin(v, from, to, a, p)
  {
    var ps := Scanned(v.entries.Keys, from);
    var moved := MovedEntries(v.entries, ps, from, to);
    var w := Rename(v, from, to);
    assert IsMissing(w.entries, a) && a !in Invalidated(w.entries, to);
    if a in moved {
      var p :| p in ps && a == Moved(p, from, to);
      assert Origin(v, from, to, a, p);
    } else {
      ProperAncestorsExact(to, a);
      assert AbsPath(a);
      assert Origin(v, from, to, a, a);
    }
  }

  lemma NotComparable(v: View, from: string, to: string, a: string, b: string)
    requires Good(v)
    requires (exists p :: Origin(v, from, to, a, p)) && (exists q :: Origin(v, from, to, b, q))
    ensures !Under(a, b)
  {
    var p :| Origin(v, from, to, a, p);
    var q :| Origin(v, from, to, b, q);
    var ps := Scanned(v.entries.Keys, from);
    if p in ps && q in ps {
      MovedUnder(p, q, from, to);
    } else if p in ps {
      MovedUnder(p, p, from, to);
      if Under(a, b) { AncestorsLinear(a, b, to); }
    } else if q in ps {
      MovedUnder(q, q, from, to);
      if Under(a, b) { UnderTransitive(a, b, to); }
    }
  }
}
