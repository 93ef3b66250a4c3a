/** What a worker of the outbox may rely on between its own calls, whatever others do meanwhile. */
module OutboxFacts {
  import opened Wrappers
  import opened Model
  import opened Outbox
  import opened OutboxSafety
  import opened OutboxRuns
  import opened OutboxProgress

  /** `p` with the delivery of `w` recorded. */
  function WithDelivery(p: PendingCommit, w: OutboxWrite, stored: Stored): PendingCommit {
    p.(delivered := p.delivered[w.path := PayloadRef(Object(w.path), stored.generation, Sha256(stored.bytes))])
  }

  lemma DeliveryKnown(world: World, p: PendingCommit, w: OutboxWrite, stored: Stored)
    requires WorldOk(world) && Known(world, p) && w in p.Writes() && Carries(stored, w)
    requires (Object(w.path), stored.generation) in world.versions && world.versions[(Object(w.path), stored.generation)] == stored
    ensures Known(world, WithDelivery(p, w, stored))
  {
    assert ReservationOk(world, p.commitId, world.reserved[p.commitId]);
    WritesApart(world.reserved[p.commitId]);
  }

  ghost predicate Apart(writes: seq<OutboxWrite>) {
    forall i, j :: 0 <= i < j < |writes| ==> writes[i].path != writes[j].path
  }

  lemma PartApart(p: PendingCommit, writes: seq<OutboxWrite>)
    requires Apart(p.Writes()) && (writes == p.objectWrites || writes == p.releaseWrites)
    ensures Apart(writes)
  {
    var shift := if writes == p.objectWrites then 0 else |p.objectWrites|;
    forall i, j | 0 <= i < j < |writes| ensures writes[i].path != writes[j].path {
      assert p.Writes()[shift + i] == writes[i] && p.Writes()[shift + j] == writes[j];
    }
  }

  ghost predicate Untouched(before: World, after: World, k: Key) {
    (k in after.objects <==> k in before.objects) && (k in before.objects ==> after.objects[k] == before.objects[k])
  }

  /** What finalizing `p` leaves. */
  function FinalizedWorld(world: World, p: PendingCommit): World {
    if Published(world.Record(p.documentId), p) then world else PublishedWorld(world, p)
  }

  // ---------------------------------------------------------------- what a worker may rely on

  lemma KnownWellFormed(r: Run, p: PendingCommit)
    requires IsRun(r) && Known(Now(r), p)
    ensures WellFormed(p)
  {
    NowOk(r);
    assert ReservationOk(Now(r), p.commitId, Now(r).reserved[p.commitId]);
  }

  lemma KnownApart(r: Run, p: PendingCommit)
    requires IsRun(r) && Known(Now(r), p)
    ensures Apart(p.Writes())
    ensures p.documentId == p.commitId.documentId
    ensures forall w :: w in p.Writes() ==> w.payload.path.WritePayload? && w.payload.path.commit == p.commitId
  {
    NowOk(r);
    var q := Now(r).reserved[p.commitId];
    assert ReservationOk(Now(r), p.commitId, q);
    DestinationsApart(q);
    StagedWrites(q);
    assert p.Writes() == q.Writes();
  }

  lemma SplitLength(p: PendingCommit)
    requires WellFormed(p)
    ensures |p.Writes()| == |p.commitId.objectWrites|
  {
    Split(p.commitId.objectWrites);
  }

  /** What a record's pending commit is. */
  lemma PendingKnown(r: Run, d: DocumentId)
    requires IsRun(r) && Now(r).Record(d).pending.Some?
    ensures var p := Now(r).Record(d).pending.value;
            && Known(Now(r), p) && p.documentId == d
            && (Published(Now(r).Record(d), p) <==> IsPublished(Now(r), p.commitId))
  {
    NowOk(r);
    assert DocumentOk(Now(r), d);
    PendingCases(Now(r), Now(r).Record(d).pending.value);
  }

  /** While a commit is pending its payloads can be read. */
  lemma PendingReadable(r: Run, p: PendingCommit, w: OutboxWrite)
    requires IsRun(r) && Known(Now(r), p) && w in p.Writes() && Now(r).Record(p.documentId).pending == Some(p)
    ensures Readable(Now(r), w.payload)
  {
    NowOk(r);
    assert ReservationOk(Now(r), p.commitId, Now(r).reserved[p.commitId]);
    assert w in Now(r).reserved[p.commitId].Writes();
  }

  /** What a document's only worker still has to deliver is ready and its own to write. */
  lemma StillReady(r: Run, p: PendingCommit, w: OutboxWrite)
    requires IsRun(r) && Now(r).Record(p.documentId).pending == Some(p) && DocumentDeliverable(Now(r), p.documentId)
    requires w in p.releaseWrites || (w in p.objectWrites && !IsPublished(Now(r), p.commitId))
    ensures Ready(Now(r), p, w) && w.path in Claimed(Now(r), p.documentId)
  {
    PendingKnown(r, p.documentId);
    ReservedNamed(r, p);
    assert w in p.Writes();
  }

  lemma ReservedNamed(r: Run, p: PendingCommit)
    requires IsRun(r) && Known(Now(r), p)
    ensures p.documentId == p.commitId.documentId
  {
    NowOk(r);
    ReservedDocument(Now(r), p);
  }

  /** A commit without release markers is never found active while it is pending. */
  lemma EarlyReturn(r: Run, p: PendingCommit)
    requires IsRun(r) && Known(Now(r), p) && Now(r).Record(p.documentId).pending == Some(p)
    ensures p.releaseWrites == [] ==> !Published(Now(r).Record(p.documentId), p)
  {
    NowOk(r);
    PendingCases(Now(r), p);
  }

  lemma ActiveReadable(r: Run, d: DocumentId)
    requires IsRun(r) && Now(r).Record(d).active.Some?
    ensures Readable(Now(r), Now(r).Record(d).active.value.payload)
  {
    ActiveStateReadable(r, |r.worlds| - 1, d);
  }

  lemma ObjectIsVersion(r: Run, k: Key)
    requires IsRun(r) && k in Now(r).objects
    ensures (k, Now(r).objects[k].generation) in Now(r).versions
    ensures Now(r).versions[(k, Now(r).objects[k].generation)] == Now(r).objects[k]
  {
    NowOk(r);
  }

  lemma PayloadIsItself(r: Run, k: Key)
    requires IsRun(r) && k in Now(r).objects && !k.Object?
    ensures PayloadBytes(k) == Some(Now(r).objects[k].bytes)
    ensures Now(r).objects[k].tag == PayloadTag(k.commit, Sha256(Now(r).objects[k].bytes))
    ensures (k, Now(r).objects[k].generation) in Now(r).versions
    ensures Now(r).versions[(k, Now(r).objects[k].generation)] == Now(r).objects[k]
  {
    NowOk(r);
  }

  /** A delivery found earlier can be recorded now. */
  lemma SaveFacts(earlier: Run, now: Run, p: PendingCommit, w: OutboxWrite, stored: Stored)
    requires IsRun(earlier) && IsRun(now) && Continues(earlier, now) && Known(Now(earlier), p) && w in p.Writes() && Carries(stored, w)
    requires (Object(w.path), stored.generation) in Now(earlier).versions
    requires Now(earlier).versions[(Object(w.path), stored.generation)] == stored
    ensures Known(Now(now), p) && Known(Now(now), WithDelivery(p, w, stored))
    ensures p.documentId == p.commitId.documentId
  {
    KnownLater(earlier, now, p);
    VersionLater(earlier, now, Object(w.path), stored.generation);
    NowOk(now);
    DeliveryKnown(Now(now), p, w, stored);
    ReservedDocument(Now(now), p);
  }

  lemma FinalizePublishes(world: World, p: PendingCommit)
    requires WorldOk(world) && CanFinalize(world, p)
    ensures IsPublished(FinalizedWorld(world, p), p.commitId) && p.documentId == p.commitId.documentId
    ensures p.releaseWrites == [] ==> !Published(world.Record(p.documentId), p)
  {
    PendingCases(world, p);
    ReservedDocument(world, p);
    PublishGrows(world, p);
  }

  lemma FinalizeFacts(r: Run, p: PendingCommit)
    requires IsRun(r) && CanFinalize(Now(r), p)
    ensures var after := FinalizedWorld(Now(r), p);
            && IsPublished(after, p.commitId)
            && (p.releaseWrites == [] ==> Retired(after, p.commitId) && after.Record(p.documentId).pending.None?)
            && (p.releaseWrites != [] ==> after.Record(p.documentId).pending == Now(r).Record(p.documentId).pending)
  {
    assert IsPublished(FinalizedWorld(Now(r), p), p.commitId) && p.documentId == p.commitId.documentId
           && (p.releaseWrites == [] ==> !Published(Now(r).Record(p.documentId), p)) by {
      NowOk(r);
      FinalizePublishes(Now(r), p);
    }
  }

  /** Finalizing keeps the only worker's document deliverable. */
  lemma FinalizeAlone(r: Run, p: PendingCommit)
    requires IsRun(r) && CanFinalize(Now(r), p)
    requires Now(r).Record(p.documentId).pending == Some(p) && DocumentDeliverable(Now(r), p.documentId)
    ensures DocumentDeliverable(FinalizedWorld(Now(r), p), p.documentId)
  {
    NowOk(r);
    FinalizeDeliverable(Now(r), p);
  }

  /** Delivering a write keeps the only worker's document deliverable. */
  lemma DeliverAlone(r: Run, p: PendingCommit, w: OutboxWrite)
    requires IsRun(r) && CanDeliver(Now(r), p, w) && w.path !in p.delivered
    requires Now(r).Record(p.documentId).pending == Some(p) && DocumentDeliverable(Now(r), p.documentId)
    ensures DocumentDeliverable(Now(r).Put(Object(w.path), w.Bytes(), UserTag(w.metadata)), p.documentId)
  {
    NowOk(r);
    DeliverDeliverable(Now(r), p, w);
  }

  /** With the record's copy in hand, the next write of the only worker is ready. */
  lemma NextIsReady(r: Run, p: PendingCommit, w: OutboxWrite, first: World)
    requires IsRun(r) && Known(Now(r), p) && Now(r).Record(p.documentId).pending == Some(p)
    requires DocumentDeliverable(Now(r), p.documentId) && Now(r).Published(p.documentId) == first.Published(p.documentId)
    requires w in p.objectWrites || (w in p.releaseWrites && IsPublished(Now(r), p.commitId))
    ensures w in p.releaseWrites || !IsPublished(first, p.commitId) ==> Ready(Now(r), p, w) && w.path in Claimed(Now(r), p.documentId)
  {
    ReservedNamed(r, p);
    if w in p.releaseWrites || !IsPublished(first, p.commitId) {
      StillReady(r, p, w);
    }
  }

  lemma CompleteFacts(r: Run, p: PendingCommit)
    requires IsRun(r) && Known(Now(r), p) && IsPublished(Now(r), p.commitId) && AllDelivered(p, p.releaseWrites)
    ensures Owns(Now(r).Record(p.documentId), p) ==>
              CanComplete(Now(r), p) && Retired(CompletedWorld(Now(r), p), p.commitId)
  {
    NowOk(r);
    if Owns(Now(r).Record(p.documentId), p) {
      PendingCases(Now(r), p);
      CompleteKeeps(Now(r), p);
    }
  }

  // ---------------------------------------------------------------- staged payloads

  /** The payload can be read, or its commit needs it no more. */
  predicate Held(world: World, payload: PayloadRef) {
    Readable(world, payload) || (payload.path.WritePayload? && Retired(world, payload.path.commit))
  }

  lemma HeldLater(earlier: Run, later: Run, writes: seq<OutboxWrite>)
    requires IsRun(earlier) && IsRun(later) && Continues(earlier, later)
    requires forall w :: w in writes ==> Held(Now(earlier), w.payload) && !w.payload.path.Object?
    ensures forall w :: w in writes ==> Held(Now(later), w.payload)
  {
    forall w | w in writes ensures Held(Now(later), w.payload) {
      if Readable(Now(earlier), w.payload) {
        PayloadLater(earlier, later, w.payload);
      } else {
        RetiredLater(earlier, later, w.payload.path.commit);
      }
    }
  }

  lemma HeldIsEnough(r: Run, p: PendingCommit)
    requires IsRun(r) && WellFormed(p) && forall w :: w in p.Writes() ==> Held(Now(r), w.payload)
    ensures forall w :: w in p.Writes() ==> Readable(Now(r), w.payload) || IsPublished(Now(r), p.commitId)
  {
    StagedWrites(p);
  }

  // ---------------------------------------------------------------- the alone regime

  /** In the alone regime a delivered object that still matters is where it was left. */
  lemma StillThere(before: World, after: World, p: PendingCommit, w: OutboxWrite, stored: Stored)
    requires before.Record(p.documentId).pending == Some(p) && p.documentId == p.commitId.documentId && w in p.Writes()
    requires Undisturbed(before, after, p.documentId, {})
    requires !(IsPublished(before, p.commitId) && w in p.objectWrites) ==>
               Object(w.path) in before.objects && before.objects[Object(w.path)] == stored
    ensures IsPublished(after, p.commitId) == IsPublished(before, p.commitId)
    ensures !(IsPublished(after, p.commitId) && w in p.objectWrites) ==>
              Object(w.path) in after.objects && after.objects[Object(w.path)] == stored
  {
    if !(IsPublished(before, p.commitId) && w in p.objectWrites) {
      assert w.path in Claimed(before, p.documentId);
    }
  }

  lemma SaveAlone(before: World, r: Run, p: PendingCommit, w: OutboxWrite, stored: Stored)
    requires IsRun(r) && Known(Now(r), p) && w in p.Writes() && Carries(stored, w) && p.documentId == p.commitId.documentId
    requires before.Record(p.documentId).pending == Some(p) && Undisturbed(before, Now(r), p.documentId, {})
    requires !(IsPublished(before, p.commitId) && w in p.objectWrites) ==>
               Object(w.path) in before.objects && before.objects[Object(w.path)] == stored
    requires DocumentDeliverable(Now(r), p.documentId)
    ensures DocumentDeliverable(SavedWorld(Now(r), WithDelivery(p, w, stored)), p.documentId)
  {
    NowOk(r);
    StillThere(before, Now(r), p, w, stored);
    SaveDeliverable(Now(r), p, w, WithDelivery(p, w, stored).delivered[w.path]);
  }

  lemma ReserveAlone(before: World, r: Run, p: PendingCommit, quiet: set<Path>)
    requires IsRun(r) && CanReserve(Now(r), p) && Undisturbed(before, Now(r), p.documentId, quiet)
    requires (forall w :: w in p.Writes() ==> w.path in quiet) && AllReady(before, p, p.Writes())
    ensures DocumentDeliverable(Apply(Now(r), Reserve(p)), p.documentId)
  {
    NowOk(r);
    forall w | w in p.Writes() ensures Ready(Now(r), p, w) {
      assert Ready(before, p, w);
    }
    ReserveDeliverable(Now(r), p);
  }

  lemma StageDeliverable(world: World, k: Key, d: DocumentId)
    requires PayloadBytes(k).Some? && DocumentDeliverable(world, d)
    ensures DocumentDeliverable(StagedWorld(world, k), d)
  {
    var after := StagedWorld(world, k);
    if world.Record(d).pending.Some? {
      var p := world.Record(d).pending.value;
      forall w | Ready(world, p, w) ensures Ready(after, p, w) {
      }
    }
  }

  lemma DropDeliverable(world: World, c: CommitId, k: Key, generation: nat, d: DocumentId)
    requires k.WritePayload? && DocumentDeliverable(world, d)
    ensures DocumentDeliverable(DroppedWorld(world, k, generation), d)
  {
    var after := DroppedWorld(world, k, generation);
    if world.Record(d).pending.Some? {
      var p := world.Record(d).pending.value;
      forall w | Ready(world, p, w) ensures Ready(after, p, w) {
      }
    }
  }

  /** The record of `d` and the destinations in `quiet` are as they were. */
  ghost predicate Steady(before: World, after: World, d: DocumentId, quiet: set<Path>) {
    && after.Record(d) == before.Record(d) && after.Published(d) == before.Published(d)
    && forall path :: path in quiet ==> Untouched(before, after, Object(path))
  }

  /** Nothing but payloads changed. */
  ghost predicate StagedOnly(before: World, after: World) {
    && after.records == before.records && after.published == before.published && after.reserved == before.reserved
    && forall path :: Untouched(before, after, Object(path))
  }
}
