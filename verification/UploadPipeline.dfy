/** The client's initial push: batches registered for acknowledgement, the bytes in flight, and the loop that waits for
    capacity. Acks, timeouts, failed sends and aborts may arrive between any two steps of the loop. */
module UploadPipeline {

  datatype Outcome = Acked(ok: bool) | TimedOut | SendFailed | Cancelled | Aborted

  type BatchId = string

  /** The push's shared state: unacknowledged batches with their sizes, their total as the code counts it, how many
      waiters are parked, and how each settled promise ended. */
  datatype Window = Window(pending: map<BatchId, nat>, inFlight: int, parked: nat, settled: map<BatchId, Outcome>)

  const EmptyWindow: Window := Window(map[], 0, 0, map[])

  ghost function Total(m: map<BatchId, nat>): nat
    decreases |m|
  {
    if m == map[] then 0
    else
      var b :| b in m;
      m[b] + Total(m - {b})
  }

  lemma {:induction false} TotalWithout(m: map<BatchId, nat>, b: BatchId)
    requires b in m
    ensures Total(m) == m[b] + Total(m - {b})
    decreases |m|
  {
    var c :| c in m && Total(m) == m[c] + Total(m - {c});
    if c != b {
      TotalWithout(m - {c}, b);
      TotalWithout(m - {b}, c);
      assert m - {c} - {b} == m - {b} - {c};
    }
  }

  lemma TotalWith(m: map<BatchId, nat>, b: BatchId, n: nat)
    requires b !in m
    ensures Total(m[b := n]) == Total(m) + n
  {
    TotalWithout(m[b := n], b);
    assert m[b := n] - {b} == m;
  }

  function Register(w: Window, b: BatchId, size: nat): Window {
    w.(pending := w.pending[b := size], inFlight := w.inFlight + size)
  }

  /** Settles a batch that is still pending and wakes every waiter; a batch settled before is left alone. */
  function Settle(w: Window, b: BatchId, o: Outcome): Window {
    if b in w.pending
    then Window(w.pending - {b}, w.inFlight - w.pending[b], 0, w.settled[b := o])
    else w
  }

  ghost function SettleAll(w: Window, o: Outcome): Window {
    if w.pending == map[] then w else Window(map[], w.inFlight - Total(w.pending), 0, Settled(w, {}, o))
  }

  /** The outcomes once every pending batch outside `left` has ended with `o`. */
  function Settled(w: Window, left: set<BatchId>, o: Outcome): map<BatchId, Outcome> {
    w.settled + map b | b in w.pending && b !in left :: o
  }

  lemma SettledOneMore(w: Window, left: set<BatchId>, b: BatchId, o: Outcome)
    requires b in left && left <= w.pending.Keys
    ensures Settled(w, left, o)[b := o] == Settled(w, left - {b}, o)
  {}

  lemma SettledNone(w: Window, o: Outcome)
    ensures Settled(w, w.pending.Keys, o) == w.settled
  {
    var none := map b | b in w.pending && b !in w.pending.Keys :: o;
    assert none.Keys == {};
  }

  predicate MustWait(w: Window, size: nat, max: nat) {
    w.pending != map[] && w.inFlight + size > max
  }

  /** A batch has to wait exactly if others are in flight with which it would exceed the limit. */
  lemma WaitsIfTooMuch(w: Window, b: BatchId, size: nat, max: nat)
    requires b !in w.pending && w.inFlight == Total(w.pending)
    ensures MustWait(w, size, max) <==> w.pending != map[] && Total(Register(w, b, size).pending) > max
  {
    TotalWith(w.pending, b, size);
  }

  // ---------- the closures over that state ----------

  class UploadState {
    var pendingAcks: map<BatchId, nat>
    var inFlightBytes: int
    var capacityWaiters: nat
    var outcomes: map<BatchId, Outcome>

    constructor ()
      ensures Value() == EmptyWindow
    { pendingAcks, inFlightBytes, capacityWaiters, outcomes := map[], 0, 0, map[]; }

    function Value(): Window reads this {
      Window(pendingAcks, inFlightBytes, capacityWaiters, outcomes)
    }

    method OnRegistered(b: BatchId, sizeBytes: nat)
      modifies this
      ensures Value() == Register(old(Value()), b, sizeBytes)
    {
      pendingAcks := pendingAcks[b := sizeBytes];
      inFlightBytes := inFlightBytes + sizeBytes;
    }

    method NotifyCapacity()
      modifies this`capacityWaiters
      ensures capacityWaiters == 0
    { capacityWaiters := 0; }

    /** Takes a batch out and settles its promise, for an ack, a timeout or a failed send. */
    method TakePending(b: BatchId, o: Outcome) returns (taken: bool)
      modifies this
      ensures taken <==> b in old(pendingAcks)
      ensures Value() == Settle(old(Value()), b, o)
    {
      taken := b in pendingAcks;
      if taken {
        inFlightBytes := inFlightBytes - pendingAcks[b];
        pendingAcks := pendingAcks - {b};
        NotifyCapacity();
        outcomes := outcomes[b := o];
      }
    }

    /** Takes out every batch of a copy of the keys, one after the other. */
    method RejectAllPending(o: Outcome)
      modifies this
      ensures Value() == SettleAll(old(Value()), o)
    {
      ghost var w := Value();
      var keys := pendingAcks.Keys;
      SettledNone(w, o);
      hide Total, Settled;
      while keys != {}
        invariant keys == pendingAcks.Keys <= w.pending.Keys
        invariant inFlightBytes - Total(pendingAcks) == w.inFlight - Total(w.pending)
        invariant capacityWaiters == if keys == w.pending.Keys then w.parked else 0
        invariant outcomes == Settled(w, keys, o)
        decreases keys
      {
        var b :| b in keys;
        TotalWithout(pendingAcks, b);
        SettledOneMore(w, keys, b, o);
        assert (pendingAcks - {b}).Keys == keys - {b};
        keys := keys - {b};
        var taken := TakePending(b, o);
      }
      EmptyTotal();
      assert pendingAcks == map[];
    }

    /** One turn of the capacity loop: either the bytes fit, or the caller is parked. */
    method TryCapacity(bytesNeeded: nat, maxInflightBytes: nat) returns (fits: bool)
      modifies this`capacityWaiters
      ensures fits <==> !MustWait(old(Value()), bytesNeeded, maxInflightBytes)
      ensures Value() == if fits then old(Value()) else old(Value()).(parked := old(capacityWaiters) + 1)
    {
      fits := pendingAcks == map[] || inFlightBytes + bytesNeeded <= maxInflightBytes;
      if !fits { capacityWaiters := capacityWaiters + 1; }
    }
  }

  // ---------- the push ----------

  /** A scope's plan, as far as the push counts: whether it has a metadata batch, and the sizes of its uploads. */
  datatype ScopeUploads = ScopeUploads(hasMeta: bool, sizes: seq<nat>)

  datatype Stage =
    | AtPlan | AwaitingMeta(meta: BatchId) | AtUpload(next: nat) | Parked(next: nat) | Granted(next: nat)
    | AwaitingAll | Failed | Done

  /** `started` are the current plan's uploads; `registered` are all batches that were ever sent; `sending` are those
      whose send has not returned, and `refused` those whose send has failed. */
  datatype Push = Push(
    w: Window, plan: nat, stage: Stage, started: set<BatchId>, aborted: bool, registered: set<BatchId>, sending: set<BatchId>,
    refused: set<BatchId>)

  const StartPush: Push := Push(EmptyWindow, 0, AtPlan, {}, false, {}, {}, {})

  datatype Event =
    | Continue(id: BatchId)
    | AckArrives(id: BatchId, ok: bool)
    | Timeout(id: BatchId)
    | SendReturns(id: BatchId)
    | SendFails(id: BatchId)
    | UploadFailed(id: BatchId)
    | AbortSignalled
    | AbortNoticed

  predicate IsFailure(o: Outcome) {
    !(o.Acked? && o.ok)
  }

  /** Waiting for a batch is over when its send has failed, or has returned and its promise is settled. */
  predicate Ended(s: Push, b: BatchId) {
    b in s.w.settled && (b in s.refused || b !in s.sending)
  }

  /** A send that fails after the ack has settled the promise fails the batch all the same. */
  predicate HasFailed(s: Push, b: BatchId) {
    Ended(s, b) && (b in s.refused || IsFailure(s.w.settled[b]))
  }

  /** The loop waits for its metadata batch, for capacity, and for all its uploads. Batch ids are new. An upload that
      failed, not by an abort, rejects everything pending. */
  predicate Possible(s: Push, e: Event, plans: seq<ScopeUploads>) {
    match e
    case Continue(b) =>
      && b !in s.registered
      && (match s.stage
          case AwaitingMeta(m) => Ended(s, m)
          case Parked(_) => s.w.parked == 0
          case AwaitingAll => forall c :: c in s.started ==> Ended(s, c)
          case Failed => false
          case Done => false
          case _ => true)
    case SendReturns(b) => b in s.sending
    case SendFails(b) => b in s.sending
    case UploadFailed(b) => b in s.started && HasFailed(s, b) && (b in s.refused || s.w.settled[b] != Aborted)
    case _ => true
  }

  /** One stretch of the main loop between two suspensions. */
  ghost function Advance(s: Push, b: BatchId, plans: seq<ScopeUploads>, max: nat): Push
    requires Possible(s, Continue(b), plans) && s.plan <= |plans|
  {
    match s.stage
    case AtPlan =>
      if s.aborted then s.(w := SettleAll(s.w, Aborted), stage := Failed)
      else if s.plan == |plans| then s.(stage := Done)
      else if plans[s.plan].hasMeta
      then s.(w := Register(s.w, b, 0), stage := AwaitingMeta(b), started := {}, registered := s.registered + {b},
              sending := s.sending + {b})
      else s.(stage := AtUpload(0), started := {})
    case AwaitingMeta(m) =>
      if s.aborted then s.(w := SettleAll(s.w, Aborted), stage := Failed)
      else if HasFailed(s, m) then s.(stage := Failed)
      else s.(stage := AtUpload(0))
    case AtUpload(i) =>
      if s.plan == |plans| || i >= |plans[s.plan].sizes| then s.(stage := AwaitingAll)
      else if s.aborted then s.(w := SettleAll(s.w, Aborted), stage := Failed)
      else if MustWait(s.w, plans[s.plan].sizes[i], max) then s.(w := s.w.(parked := s.w.parked + 1), stage := Parked(i))
      else s.(stage := Granted(i))
    case Parked(i) => s.(stage := AtUpload(i))
    case Granted(i) =>
      if s.plan == |plans| || i >= |plans[s.plan].sizes| then s
      else s.(w := Register(s.w, b, plans[s.plan].sizes[i]), stage := AtUpload(i + 1), started := s.started + {b},
              registered := s.registered + {b}, sending := s.sending + {b})
    case AwaitingAll =>
      if exists c :: c in s.started && HasFailed(s, c) then s.(stage := Failed)
      else s.(plan := s.plan + 1, stage := AtPlan, started := {})
    case _ => s
  }

  ghost function Next(s: Push, e: Event, plans: seq<ScopeUploads>, max: nat): Push
    requires Possible(s, e, plans) && s.plan <= |plans|
  {
    match e
    case Continue(b) => Advance(s, b, plans, max)
    case AckArrives(b, ok) => s.(w := Settle(s.w, b, Acked(ok)))
    case Timeout(b) => s.(w := Settle(s.w, b, TimedOut))
    case SendReturns(b) => s.(sending := s.sending - {b})
    case SendFails(b) => s.(w := Settle(s.w, b, SendFailed), sending := s.sending - {b}, refused := s.refused + {b})
    case UploadFailed(b) => s.(w := SettleAll(s.w, Cancelled))
    case AbortSignalled => s.(w := SettleAll(s.w, Aborted), aborted := true)
    case AbortNoticed => s.(aborted := true)
  }

  // ---------- the invariant ----------

  /** The count is the sum, and over the limit only for a lone batch. */
  ghost predicate CountOk(w: Window, max: nat) {
    w.inFlight == Total(w.pending) && (w.inFlight > max ==> Lone(w.pending))
  }

  ghost predicate Lone(m: map<BatchId, nat>) {
    exists b :: m.Keys == {b}
  }

  /** Every registered batch is pending or settled, never both. */
  predicate IdsOk(w: Window, registered: set<BatchId>) {
    w.pending.Keys !! w.settled.Keys && registered == w.pending.Keys + w.settled.Keys
  }

  /** A parked waiter has something to wait for. */
  ghost predicate WindowOk(w: Window, registered: set<BatchId>, max: nat) {
    CountOk(w, max) && IdsOk(w, registered) && (w.parked > 0 ==> w.pending != map[])
  }

  /** Where the loop is says which batches can be pending. */
  ghost predicate StageOk(s: Push, plans: seq<ScopeUploads>, max: nat) {
    && s.plan <= |plans|
    && (s.w.parked > 0 ==> s.stage.Parked?)
    && (match s.stage
        case AwaitingMeta(m) => s.plan < |plans| && s.w.pending.Keys <= {m} && m in s.registered
        case AtUpload(_) => s.plan < |plans| && s.w.pending.Keys <= s.started
        case Parked(_) => s.plan < |plans| && s.w.pending.Keys <= s.started
        case Granted(i) =>
          && s.plan < |plans| && s.w.pending.Keys <= s.started && i < |plans[s.plan].sizes|
          && !MustWait(s.w, plans[s.plan].sizes[i], max)
        case AwaitingAll => s.plan < |plans| && s.w.pending.Keys <= s.started
        case _ => s.w.pending == map[])
  }

  ghost predicate PushOk(s: Push, plans: seq<ScopeUploads>, max: nat) {
    WindowOk(s.w, s.registered, max) && StageOk(s, plans, max)
  }

  lemma EmptyTotal()
    ensures Total(map[]) == 0
  {}

  lemma SettleKeepsCount(w: Window, max: nat, b: BatchId, o: Outcome)
    requires CountOk(w, max) && b in w.pending
    ensures CountOk(Settle(w, b, o), max) && Settle(w, b, o).inFlight <= w.inFlight
  {
    TotalWithout(w.pending, b);
    EmptyTotal();
    hide Total;
    if Lone(w.pending) {
      var c :| w.pending.Keys == {c};
      assert w.pending - {b} == map[];
    }
  }

  lemma SettleKeepsIds(w: Window, registered: set<BatchId>, b: BatchId, o: Outcome)
    requires IdsOk(w, registered) && b in w.pending
    ensures IdsOk(Settle(w, b, o), registered)
  {
    assert (w.pending - {b}).Keys == w.pending.Keys - {b};
    assert w.settled[b := o].Keys == w.settled.Keys + {b};
  }

  lemma SettleKeepsWindow(w: Window, registered: set<BatchId>, max: nat, b: BatchId, o: Outcome)
    requires WindowOk(w, registered, max)
    ensures WindowOk(Settle(w, b, o), registered, max)
    ensures Settle(w, b, o).inFlight <= w.inFlight && Settle(w, b, o).pending.Keys <= w.pending.Keys
  {
    hide CountOk, IdsOk;
    if b in w.pending {
      SettleKeepsCount(w, max, b, o);
      SettleKeepsIds(w, registered, b, o);
    }
  }

  lemma SettleAllKeepsIds(w: Window, registered: set<BatchId>, o: Outcome)
    requires IdsOk(w, registered)
    ensures IdsOk(SettleAll(w, o), registered)
  {
    hide Total;
    var all := map b | b in w.pending && b !in {} :: o;
    assert all.Keys == w.pending.Keys;
    assert (w.settled + all).Keys == w.settled.Keys + all.Keys;
  }

  lemma SettleAllKeepsWindow(w: Window, registered: set<BatchId>, max: nat, o: Outcome)
    requires WindowOk(w, registered, max)
    ensures WindowOk(SettleAll(w, o), registered, max) && SettleAll(w, o).pending == map[] && SettleAll(w, o).parked == 0
  {
    SettleAllKeepsIds(w, registered, o);
    EmptyTotal();
    hide Total, IdsOk, Lone, Settled;
  }

  lemma RegisterKeepsCount(w: Window, max: nat, b: BatchId, size: nat)
    requires CountOk(w, max) && b !in w.pending && !MustWait(w, size, max)
    ensures CountOk(Register(w, b, size), max)
  {
    TotalWith(w.pending, b, size);
    hide Total;
    if w.pending == map[] { assert w.pending[b := size].Keys == {b}; }
  }

  lemma RegisterKeepsWindow(w: Window, registered: set<BatchId>, max: nat, b: BatchId, size: nat)
    requires WindowOk(w, registered, max) && b !in registered && !MustWait(w, size, max) && w.parked == 0
    ensures WindowOk(Register(w, b, size), registered + {b}, max)
  {
    RegisterKeepsCount(w, max, b, size);
    hide CountOk, MustWait;
    assert w.pending[b := size].Keys == w.pending.Keys + {b};
  }

  lemma AdvanceKeeps(s: Push, b: BatchId, plans: seq<ScopeUploads>, max: nat)
    requires PushOk(s, plans, max) && Possible(s, Continue(b), plans)
    ensures PushOk(Advance(s, b, plans, max), plans, max)
  {
    SettleAllKeepsWindow(s.w, s.registered, max, Aborted);
    hide WindowOk, SettleAll;
    match s.stage {
      case AtPlan => NothingWaits(s.w, 0, max); RegisterKeepsWindow(s.w, s.registered, max, b, 0);
      case Granted(i) => RegisterKeepsWindow(s.w, s.registered, max, b, plans[s.plan].sizes[i]);
      case AwaitingMeta(m) => NothingPending(s.w, s.registered, max, {m});
      case AwaitingAll => NothingPending(s.w, s.registered, max, s.started);
      case AtUpload(i) =>
        if i < |plans[s.plan].sizes| {
          ParkKeepsWindow(s.w, s.registered, max, plans[s.plan].sizes[i]);
        }
      case _ =>
    }
  }

  lemma NothingWaits(w: Window, size: nat, max: nat)
    requires w.pending == map[]
    ensures !MustWait(w, size, max)
  {}

  lemma ParkKeepsWindow(w: Window, registered: set<BatchId>, max: nat, size: nat)
    requires WindowOk(w, registered, max)
    ensures MustWait(w, size, max) ==> WindowOk(w.(parked := w.parked + 1), registered, max)
  {
    hide Total;
  }

  /** If all that could be pending has settled, nothing is pending. */
  lemma NothingPending(w: Window, registered: set<BatchId>, max: nat, bs: set<BatchId>)
    requires WindowOk(w, registered, max) && w.pending.Keys <= bs
    ensures bs <= w.settled.Keys ==> w.pending == map[]
  {
    hide Total;
  }

  /** Settling some or all pending batches leaves the loop where it is. */
  lemma SettledStageOk(s: Push, w: Window, aborted: bool, plans: seq<ScopeUploads>, max: nat)
    requires StageOk(s, plans, max) && w.pending.Keys <= s.w.pending.Keys && (w.parked > 0 ==> s.w.parked > 0)
    requires w.pending == map[] || w.inFlight <= s.w.inFlight
    ensures StageOk(s.(w := w, aborted := aborted), plans, max)
  {}

  lemma SendsApart(s: Push, sending: set<BatchId>, refused: set<BatchId>, plans: seq<ScopeUploads>, max: nat)
    requires PushOk(s, plans, max)
    ensures PushOk(s.(sending := sending, refused := refused), plans, max)
  {
    hide WindowOk;
  }

  lemma NextKeeps(s: Push, e: Event, plans: seq<ScopeUploads>, max: nat)
    requires PushOk(s, plans, max) && Possible(s, e, plans)
    ensures PushOk(Next(s, e, plans, max), plans, max)
  {
    hide WindowOk, StageOk, SettleAll, Advance;
    match e {
      case Continue(b) => AdvanceKeeps(s, b, plans, max);
      case AckArrives(b, ok) => SettlePushKeeps(s, b, Acked(ok), plans, max);
      case Timeout(b) => SettlePushKeeps(s, b, TimedOut, plans, max);
      case SendReturns(b) => SendsApart(s, s.sending - {b}, s.refused, plans, max);
      case SendFails(b) =>
        SettlePushKeeps(s, b, SendFailed, plans, max);
        SendsApart(s.(w := Settle(s.w, b, SendFailed)), s.sending - {b}, s.refused + {b}, plans, max);
      case UploadFailed(b) =>
        SettleAllKeepsWindow(s.w, s.registered, max, Cancelled);
        SettledStageOk(s, SettleAll(s.w, Cancelled), s.aborted, plans, max);
      case AbortSignalled =>
        SettleAllKeepsWindow(s.w, s.registered, max, Aborted);
        SettledStageOk(s, SettleAll(s.w, Aborted), true, plans, max);
      case AbortNoticed => SettledStageOk(s, s.w, true, plans, max);
    }
  }

  lemma SettlePushKeeps(s: Push, b: BatchId, o: Outcome, plans: seq<ScopeUploads>, max: nat)
    requires PushOk(s, plans, max)
    ensures PushOk(s.(w := Settle(s.w, b, o)), plans, max)
  {
    hide WindowOk, StageOk;
    SettleKeepsWindow(s.w, s.registered, max, b, o);
    SettledStageOk(s, Settle(s.w, b, o), s.aborted, plans, max);
  }

  // ---------- every run ----------

  ghost predicate IsRun(es: seq<Event>, plans: seq<ScopeUploads>, max: nat)
    decreases |es|, 0
  {
    es == [] ||
    (IsRun(es[..|es| - 1], plans, max) && After(es[..|es| - 1], plans, max).plan <= |plans|
     && Possible(After(es[..|es| - 1], plans, max), es[|es| - 1], plans))
  }

  ghost function After(es: seq<Event>, plans: seq<ScopeUploads>, max: nat): Push
    requires IsRun(es, plans, max)
    decreases |es|, 1
  {
    if es == [] then StartPush else Next(After(es[..|es| - 1], plans, max), es[|es| - 1], plans, max)
  }

  lemma {:induction false} RunKeeps(es: seq<Event>, plans: seq<ScopeUploads>, max: nat)
    requires IsRun(es, plans, max)
    ensures PushOk(After(es, plans, max), plans, max)
    decreases |es|
  {
    if es == [] {
      assert Total(map[]) == 0;
    } else {
      RunKeeps(es[..|es| - 1], plans, max);
      NextKeeps(After(es[..|es| - 1], plans, max), es[|es| - 1], plans, max);
    }
  }

  /** In every run the bytes in flight are the sum of the pending sizes, over the limit only while exactly one batch is
      pending, and a waiter that nothing has woken has a pending batch whose settling will wake it. */
  lemma InFlightIsExact(es: seq<Event>, plans: seq<ScopeUploads>, max: nat, b: BatchId, o: Outcome)
    requires IsRun(es, plans, max)
    ensures var w := After(es, plans, max).w;
      && w.inFlight == Total(w.pending)
      && (w.inFlight > max ==> |w.pending.Keys| == 1)
      && (After(es, plans, max).stage.Parked? && w.parked > 0 ==> w.pending != map[])
      && (b in w.pending ==> Settle(w, b, o).parked == 0)
  {
    RunKeeps(es, plans, max);
  }

  /** Settled promises never change, and only pending ones settle. */
  lemma SettledOnce(s: Push, e: Event, plans: seq<ScopeUploads>, max: nat, b: BatchId)
    requires PushOk(s, plans, max) && Possible(s, e, plans) && b in s.registered
    ensures var t := Next(s, e, plans, max);
      && b in t.registered
      && (b in s.w.settled ==> b in t.w.settled && t.w.settled[b] == s.w.settled[b])
      && (b !in s.w.settled && b in t.w.settled ==> b in s.w.pending)
  {
    hide Total;
  }

  lemma EndedMeansSettled(s: Push, plans: seq<ScopeUploads>, max: nat, b: BatchId)
    requires PushOk(s, plans, max)
    ensures s.stage.Failed? || s.stage.Done? ==> s.w.pending == map[] && s.w.inFlight == 0 && (b in s.registered ==> b in s.w.settled)
  {
    EmptyTotal();
    hide Total;
  }

  /** Every registered batch settles exactly once: from the moment a batch is settled, its outcome stays the same for
      the rest of the run, and when the push ends, however it ends, all batches have settled, so that the cleanup of the
      pending acks abandons none. */
  lemma {:induction false} EveryBatchSettlesOnce(es: seq<Event>, k: nat, plans: seq<ScopeUploads>, max: nat, b: BatchId)
    requires IsRun(es, plans, max) && k <= |es| && IsRun(es[..k], plans, max) && b in After(es[..k], plans, max).registered
    ensures var s, t := After(es[..k], plans, max), After(es, plans, max);
      && b in t.registered && (b in s.w.settled ==> b in t.w.settled && t.w.settled[b] == s.w.settled[b])
      && (t.stage.Failed? || t.stage.Done? ==> b in t.w.settled && t.w.pending == map[] && t.w.inFlight == 0)
    decreases |es|
  {
    hide Next, Possible, PushOk, Total;
    RunKeeps(es, plans, max);
    if k == |es| {
      assert es[..k] == es;
    } else {
      var before := es[..|es| - 1];
      assert before[..k] == es[..k];
      EveryBatchSettlesOnce(before, k, plans, max, b);
      RunKeeps(before, plans, max);
      SettledOnce(After(before, plans, max), es[|es| - 1], plans, max, b);
    }
    EndedMeansSettled(After(es, plans, max), plans, max, b);
  }

  // ---------- a push that returns ----------

  /** Acknowledged positively, and its send has returned. */
  predicate Delivered(s: Push, b: BatchId) {
    b in s.w.settled && s.w.settled[b] == Acked(true) && b !in s.sending && b !in s.refused
  }

  predicate IsAwaited(s: Push, b: BatchId) {
    b in s.started || s.stage == AwaitingMeta(b) || s.stage == Failed
  }

  /** Unless the push has failed, the batches it no longer waits for were delivered. */
  predicate PastOk(s: Push) {
    && (forall b :: b in s.registered && !IsAwaited(s, b) ==> Delivered(s, b))
    && (s.stage.AtPlan? || s.stage.Done? ==> s.started == {})
    && s.sending <= s.registered
  }

  lemma {:induction false} PastKeeps(s: Push, e: Event, plans: seq<ScopeUploads>, max: nat)
    requires PushOk(s, plans, max) && PastOk(s) && Possible(s, e, plans)
    ensures PastOk(Next(s, e, plans, max))
  {
    hide Total, MustWait, SettleAll;
    var t := Next(s, e, plans, max);
    forall b | b in t.registered && !IsAwaited(t, b) ensures Delivered(t, b) {
      if b in s.registered {
        SettledOnce(s, e, plans, max, b);
        if IsAwaited(s, b) { assert e.Continue? && !HasFailed(s, b) && Ended(s, b); }
      }
    }
  }

  /** A push that returns has had every batch it sent acknowledged positively, and none of its sends failed. */
  lemma {:induction false} DoneMeansDelivered(es: seq<Event>, plans: seq<ScopeUploads>, max: nat)
    requires IsRun(es, plans, max)
    ensures PastOk(After(es, plans, max))
    ensures var s := After(es, plans, max); s.stage.Done? ==> forall b :: b in s.registered ==> Delivered(s, b)
    decreases |es|
  {
    hide Next, Possible, PushOk, Total;
    if es != [] {
      DoneMeansDelivered(es[..|es| - 1], plans, max);
      RunKeeps(es[..|es| - 1], plans, max);
      PastKeeps(After(es[..|es| - 1], plans, max), es[|es| - 1], plans, max);
    }
  }
}
