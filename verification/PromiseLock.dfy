/** The lock that task manager, store and ledger share: a map from keys to the tail of a chain of promises. A caller
    chains a promise of its own behind the tail, waits for the old tail, runs its body, and settles its promise whether
    the body returned or threw. */
module PromiseLock {
  import opened Options

  datatype Status = Waiting | Running | Done(threw: bool)

  /** One call; `previous` is the call whose tail it waits for, none if the key was not in the map. */
  datatype Caller = Caller(key: string, previous: Option<nat>, status: Status)

  /** Calls are numbered in order of arrival; `chains` maps a key to the call that set its tail. */
  datatype Locks = Locks(chains: map<string, nat>, callers: seq<Caller>)

  const NoLocks: Locks := Locks(map[], [])

  predicate Linked(s: Locks) {
    forall i :: 0 <= i < |s.callers| && s.callers[i].previous.Some? ==> s.callers[i].previous.value < i
  }

  /** A tail is resolved once its call has ended and the tail before it is resolved. */
  predicate Resolved(s: Locks, i: nat)
    requires i < |s.callers| && Linked(s)
    decreases i
  {
    s.callers[i].status.Done? && (s.callers[i].previous.Some? ==> Resolved(s, s.callers[i].previous.value))
  }

  predicate MayEnter(s: Locks, i: nat)
    requires Linked(s)
  {
    && i < |s.callers| && s.callers[i].status == Waiting
    && (s.callers[i].previous.Some? ==> Resolved(s, s.callers[i].previous.value))
  }

  function Arrive(s: Locks, key: string): Locks {
    var previous := if key in s.chains then Some(s.chains[key]) else None;
    Locks(s.chains[key := |s.callers|], s.callers + [Caller(key, previous, Waiting)])
  }

  function Enter(s: Locks, i: nat): Locks
    requires i < |s.callers|
  {
    s.(callers := s.callers[i := s.callers[i].(status := Running)])
  }

  /** The body has ended; the key is dropped only if nobody has queued behind. */
  function Leave(s: Locks, i: nat, threw: bool): Locks
    requires i < |s.callers|
  {
    var key := s.callers[i].key;
    Locks(if key in s.chains && s.chains[key] == i then s.chains - {key} else s.chains,
          s.callers[i := s.callers[i].(status := Done(threw))])
  }

  // ---------- the object ----------

  class MutexChains {
    var chains: map<string, nat>
    var callers: seq<Caller>

    constructor ()
      ensures Value() == NoLocks
    { chains, callers := map[], []; }

    function Value(): Locks reads this { Locks(chains, callers) }

    /** Reads the old tail and installs the new one, without suspending in between. */
    method Queue(key: string) returns (self: nat)
      modifies this
      ensures self == |old(callers)| && Value() == Arrive(old(Value()), key)
    {
      var previous := if key in chains then Some(chains[key]) else None;
      self := |callers|;
      callers := callers + [Caller(key, previous, Waiting)];
      chains := chains[key := self];
    }

    method Begin(self: nat)
      requires Linked(Value()) && MayEnter(Value(), self)
      modifies this
      ensures Value() == Enter(old(Value()), self)
    { callers := callers[self := callers[self].(status := Running)]; }

    /** The finally block. */
    method Release(self: nat, threw: bool)
      requires self < |callers|
      modifies this
      ensures Value() == Leave(old(Value()), self, threw)
    {
      callers := callers[self := callers[self].(status := Done(threw))];
      var key := callers[self].key;
      if key in chains && chains[key] == self { chains := chains - {key}; }
    }
  }

  // ---------- runs ----------

  datatype Event = Arrives(key: string) | Enters(caller: nat) | Leaves(caller: nat, threw: bool)

  predicate Possible(s: Locks, e: Event)
    requires Linked(s)
  {
    match e
    case Arrives(_) => true
    case Enters(i) => MayEnter(s, i)
    case Leaves(i, _) => i < |s.callers| && s.callers[i].status == Running
  }

  function Next(s: Locks, e: Event): Locks
    requires Linked(s) && Possible(s, e)
  {
    match e
    case Arrives(key) => Arrive(s, key)
    case Enters(i) => Enter(s, i)
    case Leaves(i, threw) => Leave(s, i, threw)
  }

  predicate Ended(s: Locks, i: nat)
    requires i < |s.callers|
  {
    s.callers[i].status.Done?
  }

  /** The earlier calls on the key of call `i` have all ended. */
  predicate FirstInLine(s: Locks, i: nat)
    requires i < |s.callers|
  {
    forall h :: 0 <= h < i && s.callers[h].key == s.callers[i].key ==> Ended(s, h)
  }

  /** Call `i` waits for the latest earlier call on its key, or there is none that has not ended. */
  predicate WellChained(s: Locks, i: nat)
    requires i < |s.callers|
  {
    match s.callers[i].previous
    case None => FirstInLine(s, i)
    case Some(p) =>
      && p < i && s.callers[p].key == s.callers[i].key
      && forall h :: p < h < i ==> s.callers[h].key != s.callers[i].key
  }

  /** The tail of a key is its latest call; a key without tail has no call that has not ended. */
  predicate TailOk(s: Locks, key: string) {
    if key in s.chains
    then
      && s.chains[key] < |s.callers| && s.callers[s.chains[key]].key == key && !Ended(s, s.chains[key])
      && forall i :: s.chains[key] < i < |s.callers| ==> s.callers[i].key != key
    else forall i :: 0 <= i < |s.callers| && s.callers[i].key == key ==> Ended(s, i)
  }

  ghost predicate Inv(s: Locks) {
    && (forall i :: 0 <= i < |s.callers| ==> WellChained(s, i))
    && (forall i :: 0 <= i < |s.callers| && s.callers[i].status != Waiting ==> FirstInLine(s, i))
    && (forall key :: TailOk(s, key))
  }

  lemma InvLinks(s: Locks)
    requires forall i :: 0 <= i < |s.callers| ==> WellChained(s, i)
    ensures Linked(s)
  {
    forall i | 0 <= i < |s.callers| && s.callers[i].previous.Some? ensures s.callers[i].previous.value < i {
      assert WellChained(s, i);
    }
  }

  /** A resolved tail means that its call and all earlier ones on the key have ended. */
  lemma {:induction false} ResolvedMeansEnded(s: Locks, i: nat, h: nat)
    requires Inv(s) && Linked(s) && h <= i < |s.callers| && s.callers[h].key == s.callers[i].key && Resolved(s, i)
    ensures Ended(s, h)
    decreases i
  {
    assert WellChained(s, i);
    if h < i && s.callers[i].previous.Some? { ResolvedMeansEnded(s, s.callers[i].previous.value, h); }
  }

  lemma MayEnterFirst(s: Locks, i: nat)
    requires Inv(s) && Linked(s) && MayEnter(s, i)
    ensures FirstInLine(s, i)
  {
    assert WellChained(s, i);
    forall h | 0 <= h < i && s.callers[h].key == s.callers[i].key ensures Ended(s, h) {
      if s.callers[i].previous.Some? { ResolvedMeansEnded(s, s.callers[i].previous.value, h); }
    }
  }

  lemma ArriveKeeps(s: Locks, key: string)
    requires Inv(s)
    ensures Inv(Arrive(s, key))
  {
    var t := Arrive(s, key);
    assert TailOk(s, key);
    forall i | 0 <= i < |t.callers| ensures WellChained(t, i) { if i < |s.callers| { assert WellChained(s, i); } }
    forall i | 0 <= i < |t.callers| && t.callers[i].status != Waiting ensures FirstInLine(t, i) {
      assert FirstInLine(s, i);
    }
    forall k ensures TailOk(t, k) { assert TailOk(s, k); }
  }

  lemma EnterKeeps(s: Locks, i: nat)
    requires Inv(s) && Linked(s) && MayEnter(s, i)
    ensures Inv(Enter(s, i))
  {
    var t := Enter(s, i);
    MayEnterFirst(s, i);
    forall j | 0 <= j < |t.callers| ensures WellChained(t, j) { assert WellChained(s, j); }
    forall j | 0 <= j < |t.callers| && t.callers[j].status != Waiting ensures FirstInLine(t, j) {
      if j != i { assert FirstInLine(s, j); }
    }
    forall k ensures TailOk(t, k) { assert TailOk(s, k); }
  }

  lemma LeaveKeeps(s: Locks, i: nat, threw: bool)
    requires Inv(s) && i < |s.callers| && s.callers[i].status == Running
    ensures Inv(Leave(s, i, threw))
  {
    var t := Leave(s, i, threw);
    forall j | 0 <= j < |t.callers| ensures WellChained(t, j) { assert WellChained(s, j); }
    forall j | 0 <= j < |t.callers| && t.callers[j].status != Waiting ensures FirstInLine(t, j) {
      assert FirstInLine(s, j);
    }
    forall k ensures TailOk(t, k) {
      assert TailOk(s, k);
      assert FirstInLine(s, i);
    }
  }

  lemma NextKeeps(s: Locks, e: Event)
    requires Inv(s) && Linked(s) && Possible(s, e)
    ensures Inv(Next(s, e)) && Linked(Next(s, e))
  {
    match e {
      case Arrives(key) => ArriveKeeps(s, key);
      case Enters(i) => EnterKeeps(s, i);
      case Leaves(i, threw) => LeaveKeeps(s, i, threw);
    }
    InvLinks(Next(s, e));
  }

  ghost predicate IsRun(es: seq<Event>)
    decreases |es|, 0
  {
    es == [] ||
    (IsRun(es[..|es| - 1]) && Linked(After(es[..|es| - 1])) && Possible(After(es[..|es| - 1]), es[|es| - 1]))
  }

  ghost function After(es: seq<Event>): Locks
    requires IsRun(es)
    decreases |es|, 1
  {
    if es == [] then NoLocks else Next(After(es[..|es| - 1]), es[|es| - 1])
  }

  lemma {:induction false} RunKeeps(es: seq<Event>)
    requires IsRun(es)
    ensures Inv(After(es)) && Linked(After(es))
    decreases |es|
  {
    if es == [] {
      assert After(es) == NoLocks;
    } else {
      RunKeeps(es[..|es| - 1]);
      NextKeeps(After(es[..|es| - 1]), es[|es| - 1]);
    }
  }

  // ---------- what the lock guarantees ----------

  /** At most one body runs per key, and it belongs to the earliest call on the key that has not ended: bodies enter in
      order of arrival, whatever the others did, also when they threw. */
  lemma MutualExclusion(es: seq<Event>, i: nat, j: nat)
    requires IsRun(es) && i < j < |After(es).callers| && After(es).callers[i].key == After(es).callers[j].key
    ensures var s := After(es);
      && !(s.callers[i].status == Running && s.callers[j].status == Running)
      && (s.callers[j].status != Waiting ==> Ended(s, i))
  {
    RunKeeps(es);
    var s := After(es);
    assert s.callers[j].status != Waiting ==> FirstInLine(s, j);
  }

  predicate IsLatest(s: Locks, i: nat, key: string) {
    i < |s.callers| && s.callers[i].key == key && forall j :: i < j < |s.callers| ==> s.callers[j].key != key
  }

  /** A key is in the map exactly while some call on it is running or waiting, and then its tail is the latest call. */
  lemma KeyHeldWhileNeeded(es: seq<Event>, key: string)
    requires IsRun(es)
    ensures var s := After(es);
      && (key in s.chains <==> exists i :: 0 <= i < |s.callers| && s.callers[i].key == key && !Ended(s, i))
      && (key in s.chains ==> IsLatest(s, s.chains[key], key))
  {
    RunKeeps(es);
    assert TailOk(After(es), key);
  }

  lemma {:induction false} EndedMeansResolved(s: Locks, i: nat)
    requires Inv(s) && Linked(s) && i < |s.callers| && Ended(s, i) && FirstInLine(s, i)
    ensures Resolved(s, i)
    decreases i
  {
    assert WellChained(s, i);
    if s.callers[i].previous.Some? {
      var p := s.callers[i].previous.value;
      assert FirstInLine(s, p);
      EndedMeansResolved(s, p);
    }
  }

  /** A waiting call may enter exactly when all earlier calls on its key have ended: no wake-up is lost. */
  lemma EntersInTurn(es: seq<Event>, i: nat)
    requires IsRun(es) && i < |After(es).callers| && After(es).callers[i].status == Waiting
    ensures Linked(After(es)) && (MayEnter(After(es), i) <==> FirstInLine(After(es), i))
  {
    RunKeeps(es);
    var s := After(es);
    if MayEnter(s, i) { MayEnterFirst(s, i); }
    if FirstInLine(s, i) && s.callers[i].previous.Some? {
      assert WellChained(s, i);
      var p := s.callers[i].previous.value;
      assert FirstInLine(s, p);
      EndedMeansResolved(s, p);
    }
  }
}
