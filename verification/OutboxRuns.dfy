/** Theorems about every run of the outbox: any number of workers and devices, crashing and retrying at
    will, interleaved call by call. */
module OutboxRuns {
  import opened Wrappers
  import opened Model
  import opened Storage
  import opened Outbox
  import opened OutboxSafety

  /** The worlds a run goes through and the calls between them. */
  datatype Run = Run(worlds: seq<World>, ops: seq<Op>)

  const NEW_RUN := Run([EMPTY_WORLD], [])

  ghost predicate StepTaken(r: Run, i: nat)
    requires |r.worlds| == |r.ops| + 1 && i < |r.ops|
  {
    Enabled(r.worlds[i], r.ops[i]) && r.worlds[i + 1] == Apply(r.worlds[i], r.ops[i])
  }

  ghost predicate IsRun(r: Run) {
    && |r.worlds| == |r.ops| + 1
    && r.worlds[0] == EMPTY_WORLD
    && forall i :: 0 <= i < |r.ops| ==> StepTaken(r, i)
  }

  function Now(r: Run): World
    requires r.worlds != []
  {
    r.worlds[|r.worlds| - 1]
  }

  function Extended(r: Run, op: Op): Run
    requires r.worlds != [] && Enabled(Now(r), op)
  {
    Run(r.worlds + [Apply(Now(r), op)], r.ops + [op])
  }

  /** `later` is `earlier` with more calls after it. */
  ghost predicate Continues(earlier: Run, later: Run) {
    earlier.worlds <= later.worlds && earlier.ops <= later.ops
  }

  lemma ExtendedIsRun(r: Run, op: Op)
    requires IsRun(r) && Enabled(Now(r), op)
    ensures IsRun(Extended(r, op)) && Continues(r, Extended(r, op)) && Now(Extended(r, op)) == Apply(Now(r), op)
  {
    var e := Extended(r, op);
    forall i | 0 <= i < |e.ops| ensures StepTaken(e, i) {
      if i < |r.ops| {
        assert StepTaken(r, i);
      }
    }
  }

  // ---------------------------------------------------------------- the invariant over runs

  lemma {:induction false} RunOk(r: Run, i: nat)
    requires IsRun(r) && i < |r.worlds|
    ensures WorldOk(r.worlds[i])
  {
    if i > 0 {
      RunOk(r, i - 1);
      assert StepTaken(r, i - 1);
      StepKeeps(r.worlds[i - 1], r.ops[i - 1]);
    }
  }

  lemma {:induction false} RunGrows(r: Run, j: nat, i: nat)
    requires IsRun(r) && j <= i < |r.worlds|
    ensures Grows(r.worlds[j], r.worlds[i])
    decreases i
  {
    if j == i {
      GrowsReflexive(r.worlds[i]);
    } else {
      RunGrows(r, j, i - 1);
      RunOk(r, i - 1);
      assert StepTaken(r, i - 1);
      StepKeeps(r.worlds[i - 1], r.ops[i - 1]);
      GrowsTransitive(r.worlds[j], r.worlds[i - 1], r.worlds[i]);
    }
  }

  lemma {:induction false} RunRetains(r: Run, j: nat, i: nat)
    requires IsRun(r) && j <= i < |r.worlds|
    ensures Retains(r.worlds[j], r.worlds[i])
    decreases i
  {
    if j < i {
      RunRetains(r, j, i - 1);
      RunOk(r, i - 1);
      assert StepTaken(r, i - 1);
      StepRetains(r.worlds[i - 1], r.ops[i - 1]);
      RetainsTransitive(r.worlds[j], r.worlds[i - 1], r.worlds[i]);
    }
  }

  lemma NowOk(r: Run)
    requires IsRun(r)
    ensures WorldOk(Now(r))
  {
    RunOk(r, |r.worlds| - 1);
  }

  lemma ContinuesTransitive(a: Run, b: Run, c: Run)
    requires Continues(a, b) && Continues(b, c)
    ensures Continues(a, c)
  {
  }

  /** What a worker knows of a commit stays true, whatever others do meanwhile. */
  lemma KnownLater(earlier: Run, later: Run, p: PendingCommit)
    requires IsRun(earlier) && IsRun(later) && Continues(earlier, later) && Known(Now(earlier), p)
    ensures Known(Now(later), p)
    ensures IsPublished(Now(earlier), p.commitId) ==> IsPublished(Now(later), p.commitId)
    ensures Retired(Now(earlier), p.commitId) ==> Retired(Now(later), p.commitId)
  {
    var j, i := |earlier.worlds| - 1, |later.worlds| - 1;
    assert Now(earlier) == later.worlds[j];
    RunGrows(later, j, i);
    RunRetains(later, j, i);
    KnownGrows(Now(earlier), Now(later), p);
  }

  /** Versions at destinations and of state payloads are never lost. */
  lemma VersionLater(earlier: Run, later: Run, k: Key, g: nat)
    requires IsRun(earlier) && IsRun(later) && Continues(earlier, later)
    requires (k, g) in Now(earlier).versions && !k.WritePayload?
    ensures (k, g) in Now(later).versions && Now(later).versions[(k, g)] == Now(earlier).versions[(k, g)]
  {
    assert Now(earlier) == later.worlds[|earlier.worlds| - 1];
    RunGrows(later, |earlier.worlds| - 1, |later.worlds| - 1);
  }

  /** A staged payload is held until its commit is retired. */
  lemma PayloadLater(earlier: Run, later: Run, payload: PayloadRef)
    requires IsRun(earlier) && IsRun(later) && Continues(earlier, later)
    requires Readable(Now(earlier), payload) && !payload.path.Object?
    ensures Readable(Now(later), payload) || (payload.path.WritePayload? && Retired(Now(later), payload.path.commit))
  {
    assert Now(earlier) == later.worlds[|earlier.worlds| - 1];
    RunGrows(later, |earlier.worlds| - 1, |later.worlds| - 1);
    RunRetains(later, |earlier.worlds| - 1, |later.worlds| - 1);
  }

  /** A commit once retired is never pending again. */
  lemma RetiredLater(earlier: Run, later: Run, c: CommitId)
    requires IsRun(earlier) && IsRun(later) && Continues(earlier, later) && Retired(Now(earlier), c)
    ensures Retired(Now(later), c)
  {
    assert Now(earlier) == later.worlds[|earlier.worlds| - 1];
    RunRetains(later, |earlier.worlds| - 1, |later.worlds| - 1);
  }

  // ---------------------------------------------------------------- crash atomicity

  /** The state payload at position `k` of a chain. */
  function LinkGeneration(c: CommitId): nat {
    match c.stateWrite.precondition
    case DoesNotExist => 0
    case Match(generation) => generation
  }

  /** Published states form a chain: the k-th was reserved against generation k and published as k + 1, the
      active state is the last one, and a chain once published is only ever extended. */
  lemma PublishedStatesFormAChain(r: Run, j: nat, i: nat, d: DocumentId)
    requires IsRun(r) && j <= i < |r.worlds|
    ensures r.worlds[j].Published(d) <= r.worlds[i].Published(d)
    ensures forall k :: 0 <= k < |r.worlds[i].Published(d)| ==>
                          && r.worlds[i].Published(d)[k].documentId == d
                          && LinkGeneration(r.worlds[i].Published(d)[k]) == k
                          && (r.worlds[i].Published(d)[k].stateWrite.precondition == DoesNotExist <==> k == 0)
    ensures var chain, active := r.worlds[i].Published(d), r.worlds[i].Record(d).active;
            if chain == [] then active.None?
            else && active.Some? && active.value.generation == |chain|
                 && active.value.payload.contentSha256 == Sha256(chain[|chain| - 1].stateWrite.bytes)
                 && active.value.metadata == chain[|chain| - 1].stateWrite.metadata
  {
    RunOk(r, i);
    RunGrows(r, j, i);
    var world := r.worlds[i];
    assert DocumentOk(world, d);
    var chain := world.Published(d);
    if chain != [] {
      var last := chain[|chain| - 1];
      assert ReservationOk(world, last, world.reserved[last]);
    }
  }

  /** The active state can always be read back, whatever cleanups have run: its payload is never deleted. */
  lemma ActiveStateReadable(r: Run, i: nat, d: DocumentId)
    requires IsRun(r) && i < |r.worlds| && r.worlds[i].Record(d).active.Some?
    ensures var world := r.worlds[i];
            var payload, chain := world.Record(d).active.value.payload, world.Published(d);
            && chain != [] && Readable(world, payload)
            && world.versions[(payload.path, payload.generation)].bytes == chain[|chain| - 1].stateWrite.bytes
  {
    RunOk(r, i);
    var world := r.worlds[i];
    assert DocumentOk(world, d);
    var last := world.Published(d)[|world.Published(d)| - 1];
    assert ReservationOk(world, last, world.reserved[last]);
  }

  /** Every write of a commit other than its release markers has a version, at its destination, that carries
      its bytes and metadata. */
  ghost predicate ObjectsDelivered(world: World, c: CommitId) {
    forall i :: 0 <= i < |c.objectWrites| && !IsRelease(c.objectWrites[i].path, c.objectWrites[i].metadata) ==>
                  exists g: nat :: (Object(c.objectWrites[i].path), g) in world.versions
                                   && world.versions[(Object(c.objectWrites[i].path), g)].bytes == c.objectWrites[i].bytes
                                   && world.versions[(Object(c.objectWrites[i].path), g)].tag == UserTag(c.objectWrites[i].metadata)
  }

  lemma PublishedIsDelivered(world: World, c: CommitId)
    requires WorldOk(world) && IsPublished(world, c)
    ensures ObjectsDelivered(world, c)
  {
    assert DocumentOk(world, c.documentId);
    var p := world.reserved[c];
    assert ReservationOk(world, c, p);
    Split(c.objectWrites);
    forall i | 0 <= i < |c.objectWrites| && !IsRelease(c.objectWrites[i].path, c.objectWrites[i].metadata)
      ensures exists g: nat :: (Object(c.objectWrites[i].path), g) in world.versions
                               && world.versions[(Object(c.objectWrites[i].path), g)].bytes == c.objectWrites[i].bytes
                               && world.versions[(Object(c.objectWrites[i].path), g)].tag == UserTag(c.objectWrites[i].metadata)
    {
      assert c.objectWrites[i] in Ordinary(c.objectWrites);
      var k :| 0 <= k < |Ordinary(c.objectWrites)| && Ordinary(c.objectWrites)[k] == c.objectWrites[i];
      var w := p.objectWrites[k];
      assert Stages(c, w, c.objectWrites[i]);
      assert DeliveredSometime(world, w);
      var g: nat :| (Object(w.path), g) in world.versions && Carries(world.versions[(Object(w.path), g)], w);
    }
  }

  /** Only finalizing adds to a chain. */
  lemma OnlyFinalizePublishes(world: World, op: Op, d: DocumentId)
    requires Enabled(world, op) && Apply(world, op).Published(d) != world.Published(d)
    ensures op.Finalize? && op.p.documentId == d && Apply(world, op) == PublishedWorld(world, op.p)
    ensures Apply(world, op).Published(d) == world.Published(d) + [op.p.commitId]
  {
  }

  /** A state becomes active only when every ordinary object of its commit has reached its destination, and
      by no other call than the commit's own finalize. */
  lemma PublishedOnlyWhenDelivered(r: Run, i: nat, d: DocumentId)
    requires IsRun(r) && i < |r.ops|
    requires r.worlds[i + 1].Published(d) != r.worlds[i].Published(d)
    ensures r.ops[i].Finalize? && r.ops[i].p.documentId == d
    ensures r.worlds[i + 1].Published(d) == r.worlds[i].Published(d) + [r.ops[i].p.commitId]
    ensures ObjectsDelivered(r.worlds[i], r.ops[i].p.commitId)
  {
    assert StepTaken(r, i);
    OnlyFinalizePublishes(r.worlds[i], r.ops[i], d);
    RunOk(r, i);
    FinalizedIsDelivered(r.worlds[i], r.ops[i].p);
  }

  lemma FinalizedIsDelivered(world: World, p: PendingCommit)
    requires WorldOk(world) && CanFinalize(world, p)
    ensures ObjectsDelivered(world, p.commitId)
  {
    FinalizeKeeps(world, p);
    PublishedIsDelivered(Apply(world, Finalize(p)), p.commitId);
  }

  /** No conflict-resolution marker exists at any moment unless the commit it belongs to is already active
      or has been: whoever sees the marker can rely on the canonical state. */
  lemma MarkersFollowPublication(r: Run, i: nat, path: Path, g: nat)
    requires IsRun(r) && i < |r.worlds|
    requires (Object(path), g) in r.worlds[i].versions && path.ResolutionMarker?
    requires r.worlds[i].versions[(Object(path), g)].tag.UserTag?
    requires r.worlds[i].versions[(Object(path), g)].tag.metadata.kind == Some("conflict-resolution")
    ensures exists c, k :: && IsPublished(r.worlds[i], c) && 0 <= k < |c.objectWrites|
                           && c.objectWrites[k].path == path
                           && c.objectWrites[k].bytes == r.worlds[i].versions[(Object(path), g)].bytes
  {
    RunOk(r, i);
    var world := r.worlds[i];
    var c, w :| ReleasedBy(world, c, w) && w.path == path && Carries(world.versions[(Object(path), g)], w);
    assert ReservationOk(world, c, world.reserved[c]);
    StagedWrites(world.reserved[c]);
    var k :| 0 <= k < |c.objectWrites| && Stages(c, w, c.objectWrites[k]);
    assert c.objectWrites[k].path == path;
  }

  // ---------------------------------------------------------------- at most once

  /** Once a destination has moved past what a write names, that write can never happen again. */
  lemma PreconditionGone(before: World, after: World, later: World, path: Path, precondition: GenerationPrecondition)
    requires ObjectsOk(before) && Holds(precondition, before.Generation(Object(path)))
    requires Grows(after, later)
    requires before.nextGeneration < after.nextGeneration && Object(path) in after.objects
    requires after.objects[Object(path)].generation > before.nextGeneration
    ensures !Holds(precondition, later.Generation(Object(path)))
  {
    assert Object(path) in later.objects;
  }

  /** The write a commit makes to `path`. */
  function WriteTo(writes: seq<ConditionalWrite>, path: Path): Option<ConditionalWrite> {
    if writes == [] then None else if writes[0].path == path then Some(writes[0]) else WriteTo(writes[1..], path)
  }

  lemma {:induction false} WriteToFinds(writes: seq<ConditionalWrite>, k: nat)
    requires k < |writes|
    requires forall i, j :: 0 <= i < j < |writes| ==> writes[i].path != writes[j].path
    ensures WriteTo(writes, writes[k].path) == Some(writes[k])
  {
    if k > 0 {
      WriteToFinds(writes[1..], k - 1);
    }
  }

  /** What a worker delivers to a destination is fixed by the commit. */
  lemma DeliversTheWrite(world: World, p: PendingCommit, w: OutboxWrite)
    requires WorldOk(world) && CanDeliver(world, p, w)
    ensures WriteTo(p.commitId.objectWrites, w.path).Some?
    ensures WriteTo(p.commitId.objectWrites, w.path).value.precondition == w.precondition
    ensures WriteTo(p.commitId.objectWrites, w.path).value.bytes == w.Bytes()
  {
    assert ReservationOk(world, p.commitId, world.reserved[p.commitId]);
    StagedWrites(world.reserved[p.commitId]);
    var k :| 0 <= k < |p.commitId.objectWrites| && Stages(p.commitId, w, p.commitId.objectWrites[k]);
    WriteToFinds(p.commitId.objectWrites, k);
  }

  lemma DeliveryIsTheCommits(r: Run, i: nat)
    requires IsRun(r) && i < |r.ops| && r.ops[i].Deliver?
    ensures var write := WriteTo(r.ops[i].p.commitId.objectWrites, r.ops[i].w.path);
            && write.Some? && write.value.precondition == r.ops[i].w.precondition
            && Holds(r.ops[i].w.precondition, r.worlds[i].Generation(Object(r.ops[i].w.path)))
  {
    RunOk(r, i);
    DeliverEnabled(r, i);
    DeliversTheWrite(r.worlds[i], r.ops[i].p, r.ops[i].w);
  }

  lemma ObjectsFine(r: Run, i: nat)
    requires IsRun(r) && i < |r.worlds|
    ensures ObjectsOk(r.worlds[i])
  {
    RunOk(r, i);
  }

  /** After the delivery at step `i` its precondition never holds again. */
  lemma DeliveryUsesUp(r: Run, i: nat, j: nat)
    requires IsRun(r) && i < j < |r.worlds| && i < |r.ops| && r.ops[i].Deliver?
    ensures !Holds(r.ops[i].w.precondition, r.worlds[j].Generation(Object(r.ops[i].w.path)))
  {
    DeliverEnabled(r, i);
    ObjectsFine(r, i);
    RunGrows(r, i + 1, j);
    PreconditionGone(r.worlds[i], r.worlds[i + 1], r.worlds[j], r.ops[i].w.path, r.ops[i].w.precondition);
  }

  /** Each destination is written at most once per commit, over any number of crashes and retries by any
      number of workers. */
  lemma DeliveredAtMostOnce(r: Run, i: nat, j: nat)
    requires IsRun(r) && i < j < |r.ops| && r.ops[i].Deliver? && r.ops[j].Deliver?
    requires r.ops[i].w.path == r.ops[j].w.path
    ensures r.ops[i].p.commitId != r.ops[j].p.commitId
  {
    DeliveryIsTheCommits(r, i);
    DeliveryIsTheCommits(r, j);
    DeliveryUsesUp(r, i, j);
  }

  lemma DeliverEnabled(r: Run, i: nat)
    requires IsRun(r) && i < |r.ops| && r.ops[i].Deliver?
    ensures CanDeliver(r.worlds[i], r.ops[i].p, r.ops[i].w)
    ensures r.worlds[i + 1].nextGeneration == r.worlds[i].nextGeneration + 1
    ensures Object(r.ops[i].w.path) in r.worlds[i + 1].objects
    ensures r.worlds[i + 1].objects[Object(r.ops[i].w.path)].generation == r.worlds[i + 1].nextGeneration
  {
    assert StepTaken(r, i);
  }

  /** A delivery replaces exactly the generation its commit named when it was planned. So an edit made
      later is never overwritten: to replace it, a commit must have been planned after it. */
  lemma EditsAreNeverOverwritten(r: Run, i: nat, j: nat)
    requires IsRun(r) && i < j < |r.ops| && r.ops[i].Edit? && r.ops[j].Deliver?
    requires r.ops[i].path == r.ops[j].w.path
    ensures r.ops[j].w.precondition.Match? && r.ops[j].w.precondition.generation > r.worlds[i].nextGeneration
  {
    assert StepTaken(r, i) && StepTaken(r, j);
    RunOk(r, i);
    RunGrows(r, i + 1, j);
    assert Object(r.ops[i].path) in r.worlds[i + 1].objects;
  }

  // ---------------------------------------------------------------- early return of finalize

  /** Finalize finds its state already active only for a commit that still owes release writes, so its early
      return never strands a commit without any. */
  lemma EarlyReturnStrandsNothing(r: Run, i: nat)
    requires IsRun(r) && i < |r.ops| && r.ops[i].Finalize?
    requires Published(r.worlds[i].Record(r.ops[i].p.documentId), r.ops[i].p)
    ensures r.ops[i].p.releaseWrites != []
  {
    assert StepTaken(r, i);
    RunOk(r, i);
    PendingCases(r.worlds[i], r.ops[i].p);
  }
}
