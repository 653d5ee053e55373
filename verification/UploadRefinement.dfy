/** Uploads sent on predicted base revisions against uploads sent one at a time. */
module UploadRefinement {
  import opened Options
  import opened CacheStore
  import opened CacheStoreProperties
  import opened CacheTasks

  /** One file to upload, the name of its batch, and how many disk writes the server manages before a fault. */
  datatype Upload = Upload(change: Change, batchId: string, allowed: nat)

  function DeltaOf(id: AssignmentId, base: nat, u: Upload): Delta {
    Delta(id, u.batchId, base, [u.change])
  }

  function Answer(t: Task, c: ClientId, id: AssignmentId, disk: Disk, base: nat, u: Upload, hash: Content -> string): DeltaOutcome {
    ApplyDelta(t, c, DeltaOf(id, base, u), disk, hash, u.allowed)
  }

  /** The revision an acknowledged batch leaves: the acknowledged one. */
  function NextRevision(previous: nat, ack: Ack): nat {
    if ack.Accepted? then ack.appliedRevision else previous + 1
  }

  /** What a push leaves on the server, and the revision it returns, or none if it throws. */
  datatype Pushed = Pushed(task: Task, disk: Disk, result: Option<nat>)

  /** Each upload waits for the previous one's ack; the first rejection ends the push. */
  function Serial(t: Task, c: ClientId, id: AssignmentId, disk: Disk, base: nat, us: seq<Upload>, hash: Content -> string): Pushed {
    if us == [] then Pushed(t, disk, Some(base))
    else
      var p := Serial(t, c, id, disk, base, us[..|us| - 1], hash);
      if p.result.None? then p
      else
        var o := Answer(p.task, c, id, p.disk, p.result.value, us[|us| - 1], hash);
        Pushed(o.task, o.disk, if o.ack.Accepted? then Some(NextRevision(p.result.value, o.ack)) else None)
  }

  datatype Served = Served(task: Task, disk: Disk, acks: seq<Ack>)

  /** The server handles the uploads in the order sent; upload `k` was sent with base `base + k`. */
  function Serve(t: Task, c: ClientId, id: AssignmentId, disk: Disk, base: nat, us: seq<Upload>, hash: Content -> string): (r: Served)
    ensures |r.acks| == |us|
  {
    if us == [] then Served(t, disk, [])
    else
      var k := |us| - 1;
      var v := Serve(t, c, id, disk, base, us[..k], hash);
      var o := Answer(v.task, c, id, v.disk, base + k, us[k], hash);
      Served(o.task, o.disk, v.acks + [o.ack])
  }

  /** The acks as they come in; an ack for a batch no longer pending is ignored. */
  function Collect(arrivals: seq<(nat, Ack)>): map<nat, Ack> {
    if arrivals == [] then map[]
    else
      var m := Collect(arrivals[..|arrivals| - 1]);
      var (k, ack) := arrivals[|arrivals| - 1];
      if k in m then m else m[k := ack]
  }

  /** Every upload's ack arrives, at any time relative to the others, maybe more than once. */
  predicate AllArrive(arrivals: seq<(nat, Ack)>, acks: seq<Ack>) {
    && (forall i :: 0 <= i < |arrivals| ==> arrivals[i].0 < |acks| && arrivals[i].1 == acks[arrivals[i].0])
    && (forall k :: 0 <= k < |acks| ==> (k, acks[k]) in arrivals)
  }

  lemma {:induction false} CollectedIsFromArrivals(arrivals: seq<(nat, Ack)>)
    ensures forall k :: k in Collect(arrivals) ==> (k, Collect(arrivals)[k]) in arrivals
    ensures forall i :: 0 <= i < |arrivals| ==> arrivals[i].0 in Collect(arrivals)
  {
    if arrivals != [] {
      var n := |arrivals| - 1;
      CollectedIsFromArrivals(arrivals[..n]);
      forall k | k in Collect(arrivals) ensures (k, Collect(arrivals)[k]) in arrivals {
        if k !in Collect(arrivals[..n]) { assert arrivals[n] == (k, Collect(arrivals)[k]); }
      }
      forall i | 0 <= i < |arrivals| ensures arrivals[i].0 in Collect(arrivals) {
        if i < n { assert arrivals[i] == arrivals[..n][i]; }
      }
    }
  }

  /** What has been collected does not depend on the order of arrival. */
  lemma ArrivalOrderIsIrrelevant(arrivals: seq<(nat, Ack)>, acks: seq<Ack>)
    requires AllArrive(arrivals, acks)
    ensures Collect(arrivals) == map k | 0 <= k < |acks| :: acks[k]
  {
    CollectedIsFromArrivals(arrivals);
    var m := Collect(arrivals);
    forall k | k in m ensures k < |acks| && m[k] == acks[k] {
      var i :| 0 <= i < |arrivals| && arrivals[i] == (k, m[k]);
    }
    forall k | 0 <= k < |acks| ensures k in m { var i :| 0 <= i < |arrivals| && arrivals[i] == (k, acks[k]); }
  }

  /** The largest of the base and the revisions of the first `n` uploads, taken in the order the uploads were sent. */
  function MaxSettled(base: nat, got: map<nat, Ack>, n: nat): nat
    requires forall k :: 0 <= k < n ==> k in got
  {
    if n == 0 then base
    else
      var m, r := MaxSettled(base, got, n - 1), NextRevision(base + n - 1, got[n - 1]);
      if r > m then r else m
  }

  /** All uploads are sent before any ack is handled. */
  ghost function Pipelined(t: Task, c: ClientId, id: AssignmentId, disk: Disk, base: nat, us: seq<Upload>,
                           arrivals: seq<(nat, Ack)>, hash: Content -> string): Pushed
    requires AllArrive(arrivals, Serve(t, c, id, disk, base, us, hash).acks)
  {
    var v := Serve(t, c, id, disk, base, us, hash);
    ArrivalOrderIsIrrelevant(arrivals, v.acks);
    var got := Collect(arrivals);
    Pushed(v.task, v.disk, if forall k :: 0 <= k < |us| ==> got[k].Accepted? then Some(MaxSettled(base, got, |us|)) else None)
  }

  /** Files are uploaded without mutation ids. */
  predicate Plain(us: seq<Upload>) {
    forall k :: 0 <= k < |us| ==> us[k].change.mutationId == None
  }

  /** An upload without mutation id is accepted exactly if it is fresh and the store takes it, and then both the task and
      the store are at the store's next revision. */
  lemma AnswerToPlain(t: Task, c: ClientId, id: AssignmentId, disk: Disk, base: nat, u: Upload, hash: Content -> string)
    requires u.change.mutationId == None
    ensures var o := Answer(t, c, id, disk, base, u, hash);
      && (o.ack.Accepted? ==>
          && HoldsAssignment(t, c, id) && t.revision == base
          && o.ack == Accepted(id, u.batchId, disk.manifest.revision + 1)
          && o.task.revision == o.disk.manifest.revision == disk.manifest.revision + 1
          && o.task.active == t.active && o.task.assignment == t.assignment)
      && (!o.ack.Accepted? ==> o.task == t && o.disk.manifest == disk.manifest)
      && (t.revision != base ==> !o.ack.Accepted? && o.disk == disk)
  {
    var cs := [u.change];
    assert FilterDuplicates(t, cs) == cs by { assert cs[..0] == []; assert FilterDuplicates(t, []) == []; }
    DeltaWritesManifest(disk, cs, hash, u.allowed);
    RememberNothing(t.(revision := disk.manifest.revision + 1), u.change);
  }

  lemma RememberNothing(t: Task, ch: Change)
    requires ch.mutationId == None
    ensures var u := ClearBypass(Remember(t, [ch]), [ch]);
      u.revision == t.revision && u.active == t.active && u.assignment == t.assignment
  {
    assert [ch][..0] == [];
  }

  /** What the first `n` uploads have done, sent either way. */
  ghost predicate InStep(t: Task, c: ClientId, id: AssignmentId, disk: Disk, base: nat, us: seq<Upload>, hash: Content -> string) {
    var p, v := Serial(t, c, id, disk, base, us, hash), Serve(t, c, id, disk, base, us, hash);
    && v.task == p.task && v.disk == p.disk
    && (p.result.Some? <==> forall k :: 0 <= k < |us| ==> v.acks[k].Accepted?)
    && (p.result.Some? ==>
        && p.result.value == base + |us| == p.task.revision == p.disk.manifest.revision
        && forall k :: 0 <= k < |us| ==> v.acks[k] == Accepted(id, us[k].batchId, base + k + 1))
    && (p.result.None? ==> p.task.revision < base + |us|)
  }

  lemma {:induction false} StaysInStep(t: Task, c: ClientId, id: AssignmentId, disk: Disk, base: nat, us: seq<Upload>,
                                           hash: Content -> string)
    requires t.revision == base == disk.manifest.revision && Plain(us)
    ensures InStep(t, c, id, disk, base, us, hash)
  {
    hide Answer;
    if us != [] {
      var k := |us| - 1;
      StaysInStep(t, c, id, disk, base, us[..k], hash);
      var v := Serve(t, c, id, disk, base, us[..k], hash);
      AnswerToPlain(v.task, c, id, v.disk, base + k, us[k], hash);
      OneMoreAck(v.acks, Serve(t, c, id, disk, base, us, hash).acks, us);
    }
  }

  lemma OneMoreAck(a: seq<Ack>, b: seq<Ack>, us: seq<Upload>)
    requires us != [] && |b| == |us| && b[..|us| - 1] == a
    ensures (forall k :: 0 <= k < |us| ==> b[k].Accepted?) <==> (forall k :: 0 <= k < |a| ==> a[k].Accepted?) && b[|us| - 1].Accepted?
  {
    assert forall k :: 0 <= k < |a| ==> b[k] == a[k];
  }

  lemma {:induction false} MaxOfPredicted(base: nat, got: map<nat, Ack>, n: nat)
    requires forall k :: 0 <= k < n ==> k in got && got[k].Accepted? && got[k].appliedRevision == base + k + 1
    ensures MaxSettled(base, got, n) == base + n
  {
    if n > 0 { MaxOfPredicted(base, got, n - 1); }
  }

  /** Sending all uploads at once on predicted bases is the same as sending each after the previous ack: the same
      manifest, blobs and task on the server, the same outcome and final revision, in whatever order the acks arrive, and
      also when some upload is refused or a disk write fails. The task and the store must be where the client believes. */
  lemma PipeliningRefinesSerial(t: Task, c: ClientId, id: AssignmentId, disk: Disk, base: nat, us: seq<Upload>,
                                arrivals: seq<(nat, Ack)>, hash: Content -> string)
    requires t.revision == base == disk.manifest.revision && Plain(us)
    requires AllArrive(arrivals, Serve(t, c, id, disk, base, us, hash).acks)
    ensures Pipelined(t, c, id, disk, base, us, arrivals, hash) == Serial(t, c, id, disk, base, us, hash)
  {
    hide Serve, Serial, Answer;
    var v := Serve(t, c, id, disk, base, us, hash);
    StaysInStep(t, c, id, disk, base, us, hash);
    ArrivalOrderIsIrrelevant(arrivals, v.acks);
    var got := Collect(arrivals);
    assert forall k :: 0 <= k < |us| ==> got[k] == v.acks[k];
    if forall k :: 0 <= k < |us| ==> v.acks[k].Accepted? { MaxOfPredicted(base, got, |us|); }
  }

  // ---------- with another writer ----------

  /** The store takes the upload: its content is there and matches, and no write fails. */
  predicate Storable(u: Upload, hash: Content -> string) {
    u.change.mutationId == None && Refusal(u.change, hash).None? && u.allowed >= 2
  }

  lemma StorableIsApplied(t: Task, c: ClientId, id: AssignmentId, disk: Disk, base: nat, u: Upload, hash: Content -> string)
    requires Storable(u, hash) && HoldsAssignment(t, c, id)
    ensures Answer(t, c, id, disk, base, u, hash).ack.Accepted? <==> t.revision == base
  {
    var cs := [u.change];
    assert cs[..0] == [];
    assert FilterDuplicates(t, cs) == cs by { assert FilterDuplicates(t, []) == []; }
    assert FirstRefusal(cs, hash) == None by { assert FirstRefusal([], hash) == None; }
    assert |BlobWrites(cs, disk.blobs, hash)| <= 1 by { assert BlobWrites([], disk.blobs, hash) == []; }
  }

  /** When other writers have taken the store `gap` revisions past the task, the first upload is accepted and moves the
      task past the next `gap` predictions, so those are rejected and all later ones accepted again. */
  lemma {:induction false} GapRejects(t: Task, c: ClientId, id: AssignmentId, disk: Disk, base: nat, us: seq<Upload>,
                                      hash: Content -> string)
    requires HoldsAssignment(t, c, id) && t.revision == base <= disk.manifest.revision
    requires forall k :: 0 <= k < |us| ==> Storable(us[k], hash)
    ensures var v, gap := Serve(t, c, id, disk, base, us, hash), disk.manifest.revision - base;
      && (forall k :: 0 <= k < |us| ==> (v.acks[k].Accepted? <==> k == 0 || k > gap))
      && HoldsAssignment(v.task, c, id)
      && v.task.revision == (if us == [] then base else if |us| <= gap then base + gap + 1 else base + |us|)
      && (us == [] ==> v.disk == disk) && (us != [] ==> v.disk.manifest.revision == v.task.revision)
  {
    hide Answer;
    if us != [] {
      var k := |us| - 1;
      GapRejects(t, c, id, disk, base, us[..k], hash);
      var v := Serve(t, c, id, disk, base, us[..k], hash);
      StorableIsApplied(v.task, c, id, v.disk, base + k, us[k], hash);
      AnswerToPlain(v.task, c, id, v.disk, base + k, us[k], hash);
    }
  }

  lemma {:induction false} SerialAccepts(t: Task, c: ClientId, id: AssignmentId, disk: Disk, base: nat, us: seq<Upload>,
                                         hash: Content -> string)
    requires HoldsAssignment(t, c, id) && t.revision == base
    requires forall k :: 0 <= k < |us| ==> Storable(us[k], hash)
    ensures var p := Serial(t, c, id, disk, base, us, hash);
      p.result.Some? && HoldsAssignment(p.task, c, id) && p.task.revision == p.result.value
  {
    hide Answer;
    if us != [] {
      var k := |us| - 1;
      SerialAccepts(t, c, id, disk, base, us[..k], hash);
      var p := Serial(t, c, id, disk, base, us[..k], hash);
      StorableIsApplied(p.task, c, id, p.disk, p.result.value, us[k], hash);
      AnswerToPlain(p.task, c, id, p.disk, p.result.value, us[k], hash);
    }
  }

  /** Prediction is exact precisely without another writer: several storable uploads are all accepted if and only if the
      store is where the task is, while sent one at a time they always are. */
  lemma PredictionNeedsSingleWriter(t: Task, c: ClientId, id: AssignmentId, disk: Disk, base: nat, us: seq<Upload>,
                                    arrivals: seq<(nat, Ack)>, hash: Content -> string)
    requires HoldsAssignment(t, c, id) && t.revision == base <= disk.manifest.revision && |us| >= 2
    requires forall k :: 0 <= k < |us| ==> Storable(us[k], hash)
    requires AllArrive(arrivals, Serve(t, c, id, disk, base, us, hash).acks)
    ensures Serial(t, c, id, disk, base, us, hash).result.Some?
    ensures Pipelined(t, c, id, disk, base, us, arrivals, hash).result.Some? <==> disk.manifest.revision == base
  {
    hide Serve, Serial;
    var v := Serve(t, c, id, disk, base, us, hash);
    GapRejects(t, c, id, disk, base, us, hash);
    SerialAccepts(t, c, id, disk, base, us, hash);
    ArrivalOrderIsIrrelevant(arrivals, v.acks);
    assert forall k :: 0 <= k < |us| ==> Collect(arrivals)[k] == v.acks[k];
    assert !v.acks[1].Accepted? <==> disk.manifest.revision > base;
  }

  // ---------- delivery out of order ----------

  /** The uploads, sent with the bases they were predicted, reach the server in the given order. */
  function ServeInOrder(t: Task, c: ClientId, id: AssignmentId, disk: Disk, base: nat, us: seq<Upload>, order: seq<nat>,
                              hash: Content -> string): (v: Served)
    requires forall j :: 0 <= j < |order| ==> order[j] < |us|
    ensures |v.acks| == |order|
  {
    if order == [] then Served(t, disk, [])
    else
      var k := |order| - 1;
      var v := ServeInOrder(t, c, id, disk, base, us, order[..k], hash);
      var o := Answer(v.task, c, id, v.disk, base + order[k], us[order[k]], hash);
      Served(o.task, o.disk, v.acks + [o.ack])
  }

  function Accepts(acks: seq<Ack>): nat {
    if acks == [] then 0 else Accepts(acks[..|acks| - 1]) + (if acks[|acks| - 1].Accepted? then 1 else 0)
  }

  /** Whatever the order of delivery, an upload is accepted if and only if as many were accepted before it as were sent
      before it. */
  lemma {:induction false} AcceptedInTurn(t: Task, c: ClientId, id: AssignmentId, disk: Disk, base: nat, us: seq<Upload>,
                                          order: seq<nat>, j: nat, hash: Content -> string)
    requires HoldsAssignment(t, c, id) && t.revision == base == disk.manifest.revision
    requires (forall k :: 0 <= k < |us| ==> Storable(us[k], hash)) && forall k :: 0 <= k < |order| ==> order[k] < |us|
    ensures var v := ServeInOrder(t, c, id, disk, base, us, order, hash);
      && HoldsAssignment(v.task, c, id) && v.task.revision == v.disk.manifest.revision == base + Accepts(v.acks)
      && (j < |order| ==> (v.acks[j].Accepted? <==> order[j] == Accepts(v.acks[..j])))
    decreases |order|
  {
    hide Answer, Storable;
    if order != [] {
      var k := |order| - 1;
      AcceptedInTurn(t, c, id, disk, base, us, order[..k], j, hash);
      var v := ServeInOrder(t, c, id, disk, base, us, order[..k], hash);
      var acks := ServeInOrder(t, c, id, disk, base, us, order, hash).acks;
      assert acks[..k] == v.acks && (j <= k ==> acks[..j] == v.acks[..j]);
      StorableIsApplied(v.task, c, id, v.disk, base + order[k], us[order[k]], hash);
      AnswerToPlain(v.task, c, id, v.disk, base + order[k], us[order[k]], hash) by { StorableIsPlain(us[order[k]], hash); }
    }
  }

  lemma StorableIsPlain(u: Upload, hash: Content -> string)
    requires Storable(u, hash)
    ensures u.change.mutationId == None
  {}

  predicate AllTaken(acks: seq<Ack>) {
    forall j :: 0 <= j < |acks| ==> acks[j].Accepted?
  }

  predicate InOrder(order: seq<nat>) {
    forall j :: 0 <= j < |order| ==> order[j] == j
  }

  lemma {:induction false} AllAccepted(acks: seq<Ack>)
    requires AllTaken(acks)
    ensures Accepts(acks) == |acks|
  {
    if acks != [] { AllAccepted(acks[..|acks| - 1]); }
  }

  /** Prediction relies on delivery in order: even without another writer the uploads are all accepted if and only if they
      reach the server in the order in which they were sent. */
  lemma ReorderedIsRejected(t: Task, c: ClientId, id: AssignmentId, disk: Disk, base: nat, us: seq<Upload>, order: seq<nat>,
                            hash: Content -> string)
    requires HoldsAssignment(t, c, id) && t.revision == base == disk.manifest.revision
    requires (forall k :: 0 <= k < |us| ==> Storable(us[k], hash)) && forall k :: 0 <= k < |order| ==> order[k] < |us|
    ensures AllTaken(ServeInOrder(t, c, id, disk, base, us, order, hash).acks) <==> InOrder(order)
  {
    hide Answer, Storable, ServeInOrder, HoldsAssignment, AllTaken, InOrder;
    var acks := ServeInOrder(t, c, id, disk, base, us, order, hash).acks;
    forall j | 0 <= j < |order| ensures acks[j].Accepted? <==> order[j] == Accepts(acks[..j]) {
      AcceptedInTurn(t, c, id, disk, base, us, order, j, hash);
    }
    TakenIffInOrder(acks, order);
  }

  lemma TakenIffInOrder(acks: seq<Ack>, order: seq<nat>)
    requires |acks| == |order| && forall j :: 0 <= j < |order| ==> (acks[j].Accepted? <==> order[j] == Accepts(acks[..j]))
    ensures AllTaken(acks) <==> InOrder(order)
  {
    hide Accepts;
    assert acks[..|order|] == acks;
    if AllTaken(acks) {
      forall j | 0 <= j < |order| ensures order[j] == j { AllAccepted(acks[..j]); }
    } else if InOrder(order) {
      InTurn(acks, order, |order|);
    }
  }

  lemma {:induction false} InTurn(acks: seq<Ack>, order: seq<nat>, n: nat)
    requires |acks| == |order| && n <= |order| && InOrder(order)
    requires forall j :: 0 <= j < |order| ==> (acks[j].Accepted? <==> order[j] == Accepts(acks[..j]))
    ensures AllTaken(acks[..n])
  {
    hide Accepts;
    if n > 0 {
      InTurn(acks, order, n - 1);
      AllAccepted(acks[..n - 1]);
      assert acks[..n - 1] == acks[..n][..n - 1];
    }
  }
}
