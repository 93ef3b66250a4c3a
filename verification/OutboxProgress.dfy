/** When a pending commit can be finished, and why it stays so while its document has one worker. */
module OutboxProgress {
  import opened Wrappers
  import opened Model
  import opened Storage
  import opened Outbox
  import opened OutboxSafety

  /** One delivery would succeed now: its destination still is what was delivered, or already carries the
      write, or still meets the write's precondition. */
  predicate Ready(world: World, p: PendingCommit, w: OutboxWrite) {
    var k := Object(w.path);
    if w.path in p.delivered then
      k in world.objects && world.objects[k].generation == p.delivered[w.path].generation && Carries(world.objects[k], w)
    else
      (k in world.objects && Carries(world.objects[k], w)) || Holds(w.precondition, world.Generation(k))
  }

  predicate AllReady(world: World, p: PendingCommit, writes: seq<OutboxWrite>) {
    forall w :: w in writes ==> Ready(world, p, w)
  }

  /** Everything recovery still has to do for `p` would succeed. Object writes of a published commit are
      not looked at again, so whatever a device did to those views since does not matter. */
  predicate Deliverable(world: World, p: PendingCommit) {
    && (if IsPublished(world, p.commitId) then AllDelivered(p, p.objectWrites) else AllReady(world, p, p.objectWrites))
    && AllReady(world, p, p.releaseWrites)
  }

  predicate DocumentDeliverable(world: World, d: DocumentId) {
    world.Record(d).pending.Some? ==> Deliverable(world, world.Record(d).pending.value)
  }

  /** The destinations a pending commit still has to deliver. */
  function Claimed(world: World, d: DocumentId): set<Path> {
    match world.Record(d).pending
    case None => {}
    case Some(p) => set w | w in (if p.commitId in world.Published(d) then p.releaseWrites else p.Writes()) :: w.path
  }

  /** A call that is not by the worker of document `d` and leaves alone its claims and the paths in `quiet`.
      Devices may still edit every view that is published. */
  predicate Polite(world: World, op: Op, d: DocumentId, quiet: set<Path>) {
    match op
    case Edit(path, _, _) => path !in quiet + Claimed(world, d)
    case Stage(key) => key.Object? || key.commit.documentId != d
    case Reserve(p) => p.documentId != d
    case Deliver(p, w) => p.documentId != d && w.path !in quiet + Claimed(world, d)
    case Save(p) => p.documentId != d
    case Finalize(p) => p.documentId != d
    case Complete(p) => p.documentId != d
    case Drop(c, _, _) => c.documentId != d
  }

  /** Nothing that matters to the worker of `d` moved. */
  ghost predicate Undisturbed(before: World, after: World, d: DocumentId, quiet: set<Path>) {
    && after.Record(d) == before.Record(d) && after.Published(d) == before.Published(d)
    && (forall path :: path in quiet + Claimed(before, d) ==>
          && (Object(path) in after.objects <==> Object(path) in before.objects)
          && (Object(path) in before.objects ==> after.objects[Object(path)] == before.objects[Object(path)]))
    && (forall k: Key :: !k.Object? && k.commit.documentId == d ==>
          && (k in after.objects <==> k in before.objects)
          && (k in before.objects ==> after.objects[k] == before.objects[k]))
  }

  lemma QuietKeepsReady(before: World, after: World, d: DocumentId, p: PendingCommit, w: OutboxWrite)
    requires Undisturbed(before, after, d, {}) && w.path in Claimed(before, d)
    ensures Ready(after, p, w) <==> Ready(before, p, w)
    ensures w.path in Claimed(after, d)
  {
  }

  lemma PutUndisturbs(world: World, k: Key, bytes: Blob, tag: Tag, d: DocumentId, quiet: set<Path>)
    requires if k.Object? then k.path !in quiet + Claimed(world, d) else k.commit.documentId != d
    ensures Undisturbed(world, world.Put(k, bytes, tag), d, quiet)
  {
  }

  lemma RecordUndisturbs(world: World, after: World, e: DocumentId, d: DocumentId, quiet: set<Path>)
    requires RecordOnly(world, after, e) && e != d
    ensures Undisturbed(world, after, d, quiet)
  {
  }

  lemma PoliteUndisturbs(world: World, op: Op, d: DocumentId, quiet: set<Path>)
    requires Enabled(world, op) && Polite(world, op, d, quiet)
    ensures Undisturbed(world, Apply(world, op), d, quiet)
  {
    var after := Apply(world, op);
    match op {
      case Edit(path, bytes, metadata) => PutUndisturbs(world, Object(path), bytes, UserTag(metadata), d, quiet);
      case Stage(key) =>
        PutUndisturbs(world, key, PayloadBytes(key).value, PayloadTag(key.commit, Sha256(PayloadBytes(key).value)), d, quiet);
      case Deliver(_, w) => PutUndisturbs(world, Object(w.path), w.Bytes(), UserTag(w.metadata), d, quiet);
      case Drop(_, _, _) =>
      case Reserve(p) => RecordUndisturbs(world, after, p.documentId, d, quiet);
      case Save(p) => RecordUndisturbs(world, after, p.documentId, d, quiet);
      case Finalize(p) => RecordUndisturbs(world, after, p.documentId, d, quiet);
      case Complete(p) => RecordUndisturbs(world, after, p.documentId, d, quiet);
    }
  }

  lemma UndisturbedTransitive(a: World, b: World, c: World, d: DocumentId, quiet: set<Path>)
    requires Undisturbed(a, b, d, quiet) && Undisturbed(b, c, d, quiet)
    ensures Undisturbed(a, c, d, quiet)
  {
    assert Claimed(a, d) == Claimed(b, d);
  }

  /** With one worker per document, nobody else can make its pending commit undeliverable. */
  lemma UndisturbedStaysDeliverable(before: World, after: World, d: DocumentId, quiet: set<Path>)
    requires Undisturbed(before, after, d, quiet) && DocumentDeliverable(before, d)
    requires WorldOk(before)
    ensures DocumentDeliverable(after, d)
  {
    if before.Record(d).pending.Some? {
      var p := before.Record(d).pending.value;
      assert DocumentOk(before, d);
      assert IsPublished(after, p.commitId) == IsPublished(before, p.commitId);
      forall w | w in p.Writes() && w.path in Claimed(before, d) && Ready(before, p, w) ensures Ready(after, p, w) {
      }
      forall w | w in p.releaseWrites ensures Ready(after, p, w) {
        assert w in p.Writes() && w.path in Claimed(before, d);
      }
      if !IsPublished(before, p.commitId) {
        forall w | w in p.objectWrites ensures Ready(after, p, w) {
          assert w in p.Writes() && w.path in Claimed(before, d);
        }
      }
    }
  }

  // ---------------------------------------------------------------- the worker's own calls

  /** No two writes of a commit go to the same destination. */
  lemma WritesApart(p: PendingCommit)
    requires WellFormed(p)
    ensures forall v, w :: v in p.Writes() && w in p.Writes() && v.path == w.path ==>
                             v.metadata == w.metadata && v.precondition == w.precondition && v.Bytes() == w.Bytes()
  {
    StagedWrites(p);
    var c := p.commitId;
    forall v, w | v in p.Writes() && w in p.Writes() && v.path == w.path
      ensures v.metadata == w.metadata && v.precondition == w.precondition && v.Bytes() == w.Bytes()
    {
      var i :| 0 <= i < |c.objectWrites| && Stages(c, v, c.objectWrites[i]);
      var j :| 0 <= j < |c.objectWrites| && Stages(c, w, c.objectWrites[j]);
    }
  }

  /** Reserving a commit whose destinations are all ready leaves it deliverable. */
  lemma ReserveDeliverable(world: World, p: PendingCommit)
    requires WorldOk(world) && CanReserve(world, p) && AllReady(world, p, p.Writes())
    ensures DocumentDeliverable(Apply(world, Reserve(p)), p.documentId)
  {
    ReserveIsNew(world, p);
    var after := Apply(world, Reserve(p));
    assert !IsPublished(after, p.commitId);
    forall w | w in p.Writes() ensures Ready(after, p, w) {
      assert Ready(world, p, w);
    }
  }

  /** Delivering one write keeps the rest deliverable. */
  lemma DeliverDeliverable(world: World, p: PendingCommit, w: OutboxWrite)
    requires ReservedOk(world) && CanDeliver(world, p, w) && w.path !in p.delivered
    requires world.Record(p.documentId).pending == Some(p) && DocumentDeliverable(world, p.documentId)
    ensures DocumentDeliverable(Apply(world, Deliver(p, w)), p.documentId)
  {
    var after := Apply(world, Deliver(p, w));
    assert ReservationOk(world, p.commitId, world.reserved[p.commitId]);
    WritesApart(world.reserved[p.commitId]);
    assert IsPublished(after, p.commitId) == IsPublished(world, p.commitId);
    forall v | v in p.Writes() && Ready(world, p, v) ensures Ready(after, p, v) {
      if v.path == w.path {
        assert Carries(after.objects[Object(w.path)], v);
      }
    }
  }

  /** Recording a delivery that is in place keeps the rest deliverable. */
  lemma SaveDeliverable(world: World, p: PendingCommit, w: OutboxWrite, delivery: PayloadRef)
    requires ReservedOk(world) && Known(world, p) && w in p.Writes()
    requires world.Record(p.documentId).pending == Some(p) && DocumentDeliverable(world, p.documentId)
    requires !(IsPublished(world, p.commitId) && w in p.objectWrites) ==>
               && Object(w.path) in world.objects && Carries(world.objects[Object(w.path)], w)
               && delivery.generation == world.objects[Object(w.path)].generation
    ensures DocumentDeliverable(SavedWorld(world, p.(delivered := p.delivered[w.path := delivery])), p.documentId)
  {
    var q := p.(delivered := p.delivered[w.path := delivery]);
    var after := SavedWorld(world, q);
    assert ReservationOk(world, p.commitId, world.reserved[p.commitId]);
    WritesApart(world.reserved[p.commitId]);
    StagedWrites(world.reserved[p.commitId]);
    assert IsPublished(after, p.commitId) == IsPublished(world, p.commitId);
    forall v | v in p.Writes() && Ready(world, p, v) && (IsPublished(world, p.commitId) ==> v !in p.objectWrites)
      ensures Ready(after, q, v)
    {
      if v.path == w.path {
        assert v.metadata == w.metadata && v.Bytes() == w.Bytes();
      }
    }
  }

  lemma FinalizeDeliverable(world: World, p: PendingCommit)
    requires WorldOk(world) && CanFinalize(world, p)
    requires world.Record(p.documentId).pending == Some(p) && DocumentDeliverable(world, p.documentId)
    ensures DocumentDeliverable(Apply(world, Finalize(p)), p.documentId)
  {
    FinalizeKeeps(world, p);
    var after := Apply(world, Finalize(p));
    if after.Record(p.documentId).pending.Some? {
      assert after.Record(p.documentId).pending == Some(p);
      forall w | w in p.releaseWrites ensures Ready(after, p, w) {
        assert Ready(world, p, w);
      }
    }
  }

  // ---------------------------------------------------------------- two workers

  /** `q` is a copy whose worker had delivered, or found delivered, the first `m` object writes, and saved each. */
  ghost predicate DeliveredFirst(q: PendingCommit, m: nat) {
    m <= |q.objectWrites| && q.delivered.Keys == set j | 0 <= j < m :: q.objectWrites[j].path
  }

  /** Why recovery needs one worker per document: once another worker has published the commit, a worker that saves
      its copy leaves the commit recoverable exactly when that copy had got through every object write. */
  lemma StaleSaveStrandsExactly(world: World, q: PendingCommit, m: nat)
    requires WorldOk(world) && CanSave(world, q) && IsPublished(world, q.commitId) && DeliveredFirst(q, m)
    requires AllReady(world, q, q.releaseWrites)
    ensures DocumentDeliverable(SavedWorld(world, q), q.documentId) <==> m == |q.objectWrites|
  {
    ReservedDocument(world, q);
    var after := SavedWorld(world, q);
    assert IsPublished(after, q.commitId);
    forall w | w in q.releaseWrites ensures Ready(after, q, w) {
      assert Ready(world, q, w);
    }
    assert ReservationOk(world, q.commitId, world.reserved[q.commitId]);
    DestinationsApart(q);
    if m < |q.objectWrites| {
      assert q.Writes()[m] == q.objectWrites[m];
      forall j | 0 <= j < m ensures q.objectWrites[j].path != q.objectWrites[m].path {
        assert q.Writes()[j] == q.objectWrites[j];
      }
      assert q.objectWrites[m] in q.objectWrites;
    }
  }

  /** The document's pending commit is active, but its record misses an object delivery: recovery neither delivers
      the objects of an active commit again nor finalizes one whose objects are not all delivered. */
  predicate Stranded(world: World, d: DocumentId) {
    && world.Record(d).pending.Some?
    && IsPublished(world, world.Record(d).pending.value.commitId)
    && !AllDelivered(world.Record(d).pending.value, world.Record(d).pending.value.objectWrites)
  }

  lemma StrandedUnfinalized(world: World, op: Op, d: DocumentId)
    requires WorldOk(world) && Stranded(world, d) && Enabled(world, op) && op.Finalize? && op.p.documentId == d
    ensures Apply(world, op).Record(d) == world.Record(d) && Apply(world, op).published == world.published
  {
    assert DocumentOk(world, d);
    PendingCases(world, op.p);
  }

  /** Nothing anyone does mends it, short of a worker that still holds its own copy of the commit saving it or
      completing with it: a worker that starts from the record never gets so far. */
  lemma StrandedStays(world: World, op: Op, d: DocumentId)
    requires WorldOk(world) && Stranded(world, d) && Enabled(world, op)
    requires !(op.Save? && op.p.documentId == d) && !(op.Complete? && op.p.documentId == d)
    ensures Stranded(Apply(world, op), d) && Apply(world, op).Record(d) == world.Record(d)
  {
    StrandedRecordStays(world, op, d);
    PublishedStays(world, op, world.Record(d).pending.value.commitId);
  }

  lemma StrandedRecordStays(world: World, op: Op, d: DocumentId)
    requires WorldOk(world) && Stranded(world, d) && Enabled(world, op)
    requires !(op.Save? && op.p.documentId == d) && !(op.Complete? && op.p.documentId == d)
    ensures Apply(world, op).Record(d) == world.Record(d)
  {
    if op.Finalize? && op.p.documentId == d {
      StrandedUnfinalized(world, op, d);
    }
  }

  lemma PublishedStays(world: World, op: Op, c: CommitId)
    requires Enabled(world, op) && IsPublished(world, c)
    ensures IsPublished(Apply(world, op), c)
  {
  }
}
