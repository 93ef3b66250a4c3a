/** What every world reachable by any interleaving of workers, crashes and device edits satisfies. */
module OutboxSafety {
  import opened Wrappers
  import opened Model
  import opened Storage
  import opened Outbox

  // ---------------------------------------------------------------- the invariant

  ghost predicate ObjectsOk(world: World) {
    && (forall k :: k in world.objects ==>
          && world.objects[k].generation <= world.nextGeneration
          && (k, world.objects[k].generation) in world.versions
          && world.versions[(k, world.objects[k].generation)] == world.objects[k])
    && (forall v: (Key, nat) :: v in world.versions ==> v.1 <= world.nextGeneration && world.versions[v].generation == v.1)
  }

  /** A payload key only ever holds its own payload. */
  ghost predicate PayloadsOk(world: World) {
    forall v: (Key, nat) :: v in world.versions && !v.0.Object? ==>
      && PayloadBytes(v.0) == Some(world.versions[v].bytes)
      && world.versions[v].tag == PayloadTag(v.0.commit, Sha256(world.versions[v].bytes))
  }

  ghost predicate ReservationOk(world: World, c: CommitId, p: PendingCommit) {
    && p.commitId == c && p.delivered == map[] && WellFormed(p)
    && Readable(world, p.stateWrite.payload)
    && (forall w :: w in p.Writes() ==> Readable(world, w.payload) || Retired(world, c))
    && (IsPublished(world, c) || IsPending(world, c))
  }

  ghost predicate ReservedOk(world: World) {
    forall c :: c in world.reserved ==> ReservationOk(world, c, world.reserved[c])
  }

  /** The state precondition that fits after `n` publications. */
  function ChainPrecondition(n: nat): GenerationPrecondition {
    if n == 0 then DoesNotExist else Match(n)
  }

  /** The `k`-th published commit of a document was reserved against generation `k`. */
  ghost predicate ChainOk(world: World, d: DocumentId) {
    var chain := world.Published(d);
    forall k :: 0 <= k < |chain| ==>
                  && chain[k].documentId == d && chain[k] in world.reserved
                  && chain[k].stateWrite.precondition == ChainPrecondition(k)
  }

  /** The active state is the last published one, at the generation that counts the publications. */
  ghost predicate ActiveOk(world: World, d: DocumentId) {
    var chain := world.Published(d);
    if chain == [] then world.Record(d).active.None?
    else
      var last := chain[|chain| - 1];
      && last in world.reserved
      && world.Record(d).active
         == Some(ActiveState(world.reserved[last].stateWrite.payload, |chain|, world.reserved[last].stateWrite.metadata))
  }

  /** A pending commit is the next link of the chain, or the last one still owing release writes. */
  ghost predicate PendingOk(world: World, d: DocumentId) {
    world.Record(d).pending.Some? ==>
      var p, chain := world.Record(d).pending.value, world.Published(d);
      && p.documentId == d && p.commitId.documentId == d && Known(world, p)
      && (|| p.stateWrite.precondition == ChainPrecondition(|chain|)
          || (chain != [] && chain[|chain| - 1] == p.commitId && p.releaseWrites != []))
  }

  ghost predicate DeliveredSometime(world: World, w: OutboxWrite) {
    exists g: nat :: (Object(w.path), g) in world.versions && Carries(world.versions[(Object(w.path), g)], w)
  }

  /** Every object write of every published commit reached its destination. */
  ghost predicate DeliveredOk(world: World) {
    forall c, w :: IsPublished(world, c) && c in world.reserved && w in world.reserved[c].objectWrites ==> DeliveredSometime(world, w)
  }

  /** `w` is a release write of a published commit. */
  ghost predicate ReleasedBy(world: World, c: CommitId, w: OutboxWrite) {
    IsPublished(world, c) && c in world.reserved && w in world.reserved[c].releaseWrites
  }

  /** Every conflict-resolution marker ever stored is a release write of a published commit. */
  ghost predicate MarkersOk(world: World) {
    forall v: (Key, nat) :: v in world.versions && v.0.Object? && world.versions[v].tag.UserTag?
                            && IsRelease(v.0.path, world.versions[v].tag.metadata) ==>
      exists c, w :: ReleasedBy(world, c, w) && w.path == v.0.path && Carries(world.versions[v], w)
  }

  ghost predicate DocumentOk(world: World, d: DocumentId) {
    ChainOk(world, d) && ActiveOk(world, d) && PendingOk(world, d)
  }

  ghost predicate WorldOk(world: World) {
    && ObjectsOk(world) && PayloadsOk(world) && ReservedOk(world)
    && (forall d :: DocumentOk(world, d))
    && DeliveredOk(world) && MarkersOk(world)
  }

  // ---------------------------------------------------------------- what only grows

  ghost predicate Grows(before: World, after: World) {
    && before.nextGeneration <= after.nextGeneration
    && (forall c :: c in before.reserved ==> c in after.reserved && after.reserved[c] == before.reserved[c])
    && (forall d :: before.Published(d) <= after.Published(d))
    && (forall v: (Key, nat) :: v in before.versions && !v.0.WritePayload? ==>
          v in after.versions && after.versions[v] == before.versions[v])
    && (forall k :: k in before.objects && k.Object? ==>
          k in after.objects && (after.objects[k] == before.objects[k] || after.objects[k].generation > before.nextGeneration))
    && (forall k :: k in after.objects && k.Object? && k !in before.objects ==> after.objects[k].generation > before.nextGeneration)
  }

  lemma GrowsReflexive(world: World)
    ensures Grows(world, world)
  {
  }

  lemma GrowsTransitive(a: World, b: World, c: World)
    requires Grows(a, b) && Grows(b, c)
    ensures Grows(a, c)
  {
    forall d ensures a.Published(d) <= c.Published(d) {
      assert a.Published(d) <= b.Published(d) <= c.Published(d);
    }
    forall k | k in a.objects && k.Object?
      ensures k in c.objects && (c.objects[k] == a.objects[k] || c.objects[k].generation > a.nextGeneration)
    {
      assert k in b.objects;
    }
    forall k | k in c.objects && k.Object? && k !in a.objects ensures c.objects[k].generation > a.nextGeneration {
      if k in b.objects && c.objects[k] != b.objects[k] {
        assert c.objects[k].generation > b.nextGeneration;
      }
    }
  }

  /** A working copy stays one. */
  lemma KnownGrows(before: World, after: World, p: PendingCommit)
    requires Grows(before, after) && Known(before, p)
    ensures Known(after, p)
    ensures IsPublished(before, p.commitId) ==> IsPublished(after, p.commitId)
  {
    assert before.Published(p.commitId.documentId) <= after.Published(p.commitId.documentId);
    forall w | w in p.Writes() && w.path in p.delivered
      ensures (Object(w.path), p.delivered[w.path].generation) in after.versions
              && Carries(after.versions[(Object(w.path), p.delivered[w.path].generation)], w)
    {
      assert (Object(w.path), p.delivered[w.path].generation) in before.versions;
    }
  }

  // ---------------------------------------------------------------- one call keeps the invariant

  /** A document whose record and publications did not move is as it was. */
  lemma DocumentFrom(before: World, after: World, d: DocumentId)
    requires Grows(before, after) && DocumentOk(before, d)
    requires after.Record(d) == before.Record(d) && after.Published(d) == before.Published(d)
    ensures DocumentOk(after, d)
  {
    if before.Record(d).pending.Some? {
      KnownGrows(before, after, before.Record(d).pending.value);
    }
  }

  /** A reservation stays good while its state payload and, until it is retired, its other payloads stay. */
  lemma ReservationFrom(before: World, after: World, c: CommitId, p: PendingCommit)
    requires Grows(before, after) && ReservationOk(before, c, p)
    requires IsPublished(after, c) || IsPending(after, c)
    requires Retired(before, c) ==> Retired(after, c)
    requires forall w :: w in p.Writes() && Readable(before, w.payload) ==> Readable(after, w.payload) || Retired(after, c)
    ensures ReservationOk(after, c, p)
  {
    assert (p.stateWrite.payload.path, p.stateWrite.payload.generation) in before.versions;
  }

  /** When no new commit is published, every published commit stays delivered. */
  lemma DeliveredStays(before: World, after: World)
    requires Grows(before, after) && DeliveredOk(before) && ReservedOk(before)
    requires forall c :: c in after.reserved && IsPublished(after, c) ==> c in before.reserved && IsPublished(before, c)
    ensures DeliveredOk(after)
  {
    forall c, w | IsPublished(after, c) && c in after.reserved && w in after.reserved[c].objectWrites ensures DeliveredSometime(after, w) {
      DeliveredFrom(before, after, c);
    }
  }

  lemma PutGrows(world: World, k: Key, bytes: Blob, tag: Tag)
    requires ObjectsOk(world)
    ensures ObjectsOk(world.Put(k, bytes, tag)) && Grows(world, world.Put(k, bytes, tag))
    ensures forall v: (Key, nat) :: v in world.versions ==>
              v in world.Put(k, bytes, tag).versions && world.Put(k, bytes, tag).versions[v] == world.versions[v]
  {
    var after := world.Put(k, bytes, tag);
    forall v: (Key, nat) | v in world.versions ensures v in after.versions && after.versions[v] == world.versions[v] {
      assert v.1 <= world.nextGeneration;
    }
  }

  /** A marker may only be written as a release write of a published commit. */
  ghost predicate MarkerAllowed(world: World, k: Key, bytes: Blob, tag: Tag) {
    k.Object? && tag.UserTag? && IsRelease(k.path, tag.metadata) ==>
      exists c, w :: ReleasedBy(world, c, w) && w.path == k.path && w.Bytes() == bytes && w.metadata == tag.metadata
  }

  /** Writing an object or a payload keeps the invariant. */
  lemma PutKeeps(world: World, k: Key, bytes: Blob, tag: Tag)
    requires WorldOk(world)
    requires !k.Object? ==> PayloadBytes(k) == Some(bytes) && tag == PayloadTag(k.commit, Sha256(bytes))
    requires MarkerAllowed(world, k, bytes, tag)
    ensures WorldOk(world.Put(k, bytes, tag)) && Grows(world, world.Put(k, bytes, tag))
  {
    var after := world.Put(k, bytes, tag);
    PutGrows(world, k, bytes, tag);
    forall d ensures DocumentOk(after, d) {
      assert DocumentOk(world, d);
      DocumentFrom(world, after, d);
    }
    PutReservations(world, k, bytes, tag);
    DeliveredStays(world, after);
    PutMarkers(world, k, bytes, tag);
  }

  lemma PutReservations(world: World, k: Key, bytes: Blob, tag: Tag)
    requires ObjectsOk(world) && ReservedOk(world)
    ensures ReservedOk(world.Put(k, bytes, tag))
  {
    var after := world.Put(k, bytes, tag);
    PutGrows(world, k, bytes, tag);
    forall c | c in after.reserved ensures ReservationOk(after, c, after.reserved[c]) {
      assert ReservationOk(world, c, world.reserved[c]);
      assert Retired(after, c) == Retired(world, c);
      ReservationFrom(world, after, c, world.reserved[c]);
    }
  }

  lemma PutMarkers(world: World, k: Key, bytes: Blob, tag: Tag)
    requires MarkersOk(world)
    requires MarkerAllowed(world, k, bytes, tag)
    ensures MarkersOk(world.Put(k, bytes, tag))
  {
    var after := world.Put(k, bytes, tag);
    forall v: (Key, nat) | v in after.versions && v.0.Object? && after.versions[v].tag.UserTag?
                           && IsRelease(v.0.path, after.versions[v].tag.metadata)
      ensures exists c, w :: ReleasedBy(after, c, w) && w.path == v.0.path && Carries(after.versions[v], w)
    {
      if v == (k, world.nextGeneration + 1) {
        var c, w :| ReleasedBy(world, c, w) && w.path == k.path && w.Bytes() == bytes && w.metadata == tag.metadata;
        assert ReleasedBy(after, c, w);
      } else {
        var c, w :| ReleasedBy(world, c, w) && w.path == v.0.path && Carries(world.versions[v], w);
        assert ReleasedBy(after, c, w);
      }
    }
  }

  lemma DeliverMarks(world: World, p: PendingCommit, w: OutboxWrite)
    requires ReservedOk(world) && CanDeliver(world, p, w)
    ensures MarkerAllowed(world, Object(w.path), w.Bytes(), UserTag(w.metadata))
  {
    var q := world.reserved[p.commitId];
    assert ReservationOk(world, p.commitId, q);
    StagedWrites(q);
    if IsRelease(w.path, w.metadata) {
      assert ReleasedBy(world, p.commitId, w);
    }
  }

  lemma DeliverKeeps(world: World, p: PendingCommit, w: OutboxWrite)
    requires WorldOk(world) && CanDeliver(world, p, w)
    ensures WorldOk(Apply(world, Deliver(p, w))) && Grows(world, Apply(world, Deliver(p, w)))
  {
    DeliverMarks(world, p, w);
    assert Apply(world, Deliver(p, w)) == world.Put(Object(w.path), w.Bytes(), UserTag(w.metadata));
    PutKeeps(world, Object(w.path), w.Bytes(), UserTag(w.metadata));
  }

  /** Commits of one document have different places in the chain. */
  lemma ChainPlaces(world: World, d: DocumentId, c: CommitId)
    requires ChainOk(world, d) && c in world.Published(d)
    ensures exists k :: 0 <= k < |world.Published(d)| && world.Published(d)[k] == c && c.stateWrite.precondition == ChainPrecondition(k)
  {
  }

  /** A commit that fits the end of the chain was not published before. */
  lemma NextIsNew(world: World, c: CommitId)
    requires ChainOk(world, c.documentId)
    requires c.stateWrite.precondition == ChainPrecondition(|world.Published(c.documentId)|)
    ensures !IsPublished(world, c)
  {
    if IsPublished(world, c) {
      ChainPlaces(world, c.documentId, c);
      assert false;
    }
  }

  /** The part of the invariant about objects survives any change that leaves objects and versions alone. */
  lemma DeliveredFrom(before: World, after: World, c: CommitId)
    requires Grows(before, after) && DeliveredOk(before)
    requires IsPublished(before, c) && c in before.reserved
    ensures forall w :: w in before.reserved[c].objectWrites ==> DeliveredSometime(after, w)
  {
    forall w | w in before.reserved[c].objectWrites ensures DeliveredSometime(after, w) {
      assert DeliveredSometime(before, w);
      var g: nat :| (Object(w.path), g) in before.versions && Carries(before.versions[(Object(w.path), g)], w);
      assert (Object(w.path), g) in after.versions;
    }
  }

  lemma MarkersFrom(before: World, after: World)
    requires Grows(before, after) && MarkersOk(before)
    requires forall v: (Key, nat) :: v in after.versions ==> v in before.versions && after.versions[v] == before.versions[v]
    ensures MarkersOk(after)
  {
    forall v: (Key, nat) | v in after.versions && v.0.Object? && after.versions[v].tag.UserTag?
                           && IsRelease(v.0.path, after.versions[v].tag.metadata)
      ensures exists c, w :: ReleasedBy(after, c, w) && w.path == v.0.path && Carries(after.versions[v], w)
    {
      var c, w :| ReleasedBy(before, c, w) && w.path == v.0.path && Carries(before.versions[v], w);
      assert before.Published(c.documentId) <= after.Published(c.documentId);
      assert ReleasedBy(after, c, w);
    }
  }

  /** Only the record of `d` and its publications may differ. */
  ghost predicate RecordOnly(before: World, after: World, d: DocumentId) {
    && after.objects == before.objects && after.versions == before.versions && after.nextGeneration == before.nextGeneration
    && forall e :: e != d ==> after.Record(e) == before.Record(e) && after.Published(e) == before.Published(e)
  }

  /** What is left to show when only one document's record changed. */
  lemma RecordOnlyKeeps(before: World, after: World, d: DocumentId)
    requires WorldOk(before) && Grows(before, after) && RecordOnly(before, after, d)
    requires DocumentOk(after, d) && DeliveredOk(after)
    requires forall c :: c in after.reserved && c !in before.reserved ==> ReservationOk(after, c, after.reserved[c])
    requires forall c :: c in before.reserved && c.documentId == d ==> StandingKept(before, after, c)
    ensures WorldOk(after)
  {
    forall e ensures DocumentOk(after, e) {
      assert DocumentOk(before, e);
      if e != d {
        DocumentFrom(before, after, e);
      }
    }
    forall c | c in after.reserved ensures ReservationOk(after, c, after.reserved[c]) {
      if c in before.reserved {
        assert ReservationOk(before, c, before.reserved[c]);
        ReservationFrom(before, after, c, before.reserved[c]);
      }
    }
    MarkersFrom(before, after);
  }

  lemma ReserveIsNew(world: World, p: PendingCommit)
    requires WorldOk(world) && CanReserve(world, p)
    ensures p.commitId !in world.reserved && !IsPublished(world, p.commitId)
    ensures p.stateWrite.precondition == ChainPrecondition(|world.Published(p.documentId)|)
  {
    var c := p.commitId;
    assert DocumentOk(world, p.documentId);
    NextIsNew(world, c);
    assert c in world.reserved ==> ReservationOk(world, c, world.reserved[c]);
  }

  /** Where each reservation of a document stands does not change unless its own commit's does. */
  ghost predicate StandingKept(before: World, after: World, c: CommitId) {
    (IsPublished(after, c) || IsPending(after, c)) && (Retired(before, c) ==> Retired(after, c))
  }

  lemma ReserveStanding(world: World, p: PendingCommit, b: CommitId)
    requires WorldOk(world) && CanReserve(world, p) && b in world.reserved && b.documentId == p.documentId
    ensures StandingKept(world, Apply(world, Reserve(p)), b)
  {
    ReserveIsNew(world, p);
    assert ReservationOk(world, b, world.reserved[b]);
  }

  lemma ReserveDocument(world: World, p: PendingCommit)
    requires DocumentOk(world, p.documentId) && CanReserve(world, p) && p.commitId !in world.reserved
    requires p.stateWrite.precondition == ChainPrecondition(|world.Published(p.documentId)|)
    ensures Grows(world, Apply(world, Reserve(p)))
    ensures DocumentOk(Apply(world, Reserve(p)), p.documentId)
  {
    var after := Apply(world, Reserve(p));
    assert after.Published(p.documentId) == world.Published(p.documentId);
    assert Known(after, p);
  }

  lemma ReserveGrows(world: World, p: PendingCommit)
    requires CanReserve(world, p) && p.commitId !in world.reserved
    ensures var after := Apply(world, Reserve(p)); Grows(world, after) && RecordOnly(world, after, p.documentId)
    ensures forall c :: IsPublished(Apply(world, Reserve(p)), c) == IsPublished(world, c)
  {
  }

  lemma ReserveDelivers(world: World, p: PendingCommit)
    requires WorldOk(world) && CanReserve(world, p)
    ensures DeliveredOk(Apply(world, Reserve(p)))
  {
    ReserveIsNew(world, p);
    ReserveGrows(world, p);
    DeliveredStays(world, Apply(world, Reserve(p)));
  }

  lemma ReserveKeeps(world: World, p: PendingCommit)
    requires WorldOk(world) && CanReserve(world, p)
    ensures WorldOk(Apply(world, Reserve(p))) && Grows(world, Apply(world, Reserve(p)))
  {
    var after := Apply(world, Reserve(p));
    ReserveIsNew(world, p);
    ReserveGrows(world, p);
    ReserveDelivers(world, p);
    assert DocumentOk(world, p.documentId);
    ReserveDocument(world, p);
    assert ReservationOk(after, p.commitId, p);
    forall b | b in world.reserved && b.documentId == p.documentId ensures StandingKept(world, after, b) {
      ReserveStanding(world, p, b);
    }
    RecordOnlyKeeps(world, after, p.documentId);
  }

  lemma SaveGrows(world: World, p: PendingCommit)
    ensures Grows(world, SavedWorld(world, p)) && RecordOnly(world, SavedWorld(world, p), p.documentId)
    ensures forall c :: IsPublished(SavedWorld(world, p), c) == IsPublished(world, c)
  {
  }

  lemma SaveDocument(world: World, p: PendingCommit)
    requires DocumentOk(world, p.documentId) && CanSave(world, p) && p.documentId == p.commitId.documentId
    requires Grows(world, SavedWorld(world, p))
    ensures DocumentOk(SavedWorld(world, p), p.documentId)
  {
    assert SavedWorld(world, p).Published(p.documentId) == world.Published(p.documentId);
    KnownGrows(world, SavedWorld(world, p), p);
  }

  lemma SaveStanding(world: World, p: PendingCommit, b: CommitId)
    requires ReservedOk(world) && Owns(world.Record(p.documentId), p) && b in world.reserved && p.documentId == p.commitId.documentId
    ensures StandingKept(world, SavedWorld(world, p), b)
  {
    assert ReservationOk(world, b, world.reserved[b]);
  }

  lemma SaveKeeps(world: World, p: PendingCommit)
    requires WorldOk(world) && CanSave(world, p)
    ensures WorldOk(SavedWorld(world, p)) && Grows(world, SavedWorld(world, p))
  {
    var after := SavedWorld(world, p);
    SaveGrows(world, p);
    ReservedDocument(world, p);
    assert DocumentOk(world, p.documentId);
    SaveDocument(world, p);
    DeliveredStays(world, after);
    forall b | b in world.reserved && b.documentId == p.documentId ensures StandingKept(world, after, b) {
      SaveStanding(world, p, b);
    }
    RecordOnlyKeeps(world, after, p.documentId);
  }

  /** For a pending commit, the record's test for "already active" is exactly being the last published. */
  lemma PublishedMeansLast(world: World, p: PendingCommit)
    requires WorldOk(world) && Known(world, p)
    ensures var chain := world.Published(p.documentId);
            Published(world.Record(p.documentId), p) <==> chain != [] && chain[|chain| - 1] == p.commitId
  {
    var chain := world.Published(p.documentId);
    assert ReservationOk(world, p.commitId, world.reserved[p.commitId]);
    assert DocumentOk(world, p.documentId);
    if chain != [] {
      var last := chain[|chain| - 1];
      assert ReservationOk(world, last, world.reserved[last]);
    }
  }

  /** A pending commit that is already active still owes release writes, and one that is not is new. */
  lemma PendingCases(world: World, p: PendingCommit)
    requires WorldOk(world) && Known(world, p) && Owns(world.Record(p.documentId), p)
    ensures Published(world.Record(p.documentId), p) <==> IsPublished(world, p.commitId)
    ensures Published(world.Record(p.documentId), p) ==> p.releaseWrites != []
    ensures !IsPublished(world, p.commitId) ==>
              p.stateWrite.precondition == p.commitId.stateWrite.precondition == ChainPrecondition(|world.Published(p.documentId)|)
  {
    var d := p.documentId;
    PublishedMeansLast(world, p);
    assert ReservationOk(world, p.commitId, world.reserved[p.commitId]);
    assert DocumentOk(world, d);
    var q := world.Record(d).pending.value;
    assert q.stateWrite == p.stateWrite && q.releaseWrites == p.releaseWrites;
    if p.stateWrite.precondition == ChainPrecondition(|world.Published(d)|) {
      NextIsNew(world, p.commitId);
    }
  }

  lemma ReservedDocument(world: World, p: PendingCommit)
    requires ReservedOk(world) && Known(world, p)
    ensures p.documentId == p.commitId.documentId
  {
    assert ReservationOk(world, p.commitId, world.reserved[p.commitId]);
  }

  lemma FinalizeRetires(world: World, p: PendingCommit)
    requires WorldOk(world) && CanFinalize(world, p)
    requires IsPublished(Apply(world, Finalize(p)), p.commitId)
    ensures p.releaseWrites == [] ==> Retired(Apply(world, Finalize(p)), p.commitId)
  {
    PendingCases(world, p);
    ReservedDocument(world, p);
  }

  lemma FinalizeKeeps(world: World, p: PendingCommit)
    requires WorldOk(world) && CanFinalize(world, p)
    ensures WorldOk(Apply(world, Finalize(p))) && Grows(world, Apply(world, Finalize(p)))
    ensures IsPublished(Apply(world, Finalize(p)), p.commitId)
    ensures p.releaseWrites == [] ==> Retired(Apply(world, Finalize(p)), p.commitId)
  {
    if Published(world.Record(p.documentId), p) {
      assert Apply(world, Finalize(p)) == world;
      GrowsReflexive(world);
      PendingCases(world, p);
    } else {
      assert Apply(world, Finalize(p)) == PublishedWorld(world, p);
      PublishKeeps(world, p);
    }
    FinalizeRetires(world, p);
  }

  lemma PublishGrows(world: World, p: PendingCommit)
    requires p.documentId == p.commitId.documentId
    ensures var after := PublishedWorld(world, p);
            && Grows(world, after) && RecordOnly(world, after, p.documentId)
            && after.Published(p.documentId) == world.Published(p.documentId) + [p.commitId]
            && (forall b :: b != p.commitId ==> IsPublished(after, b) == IsPublished(world, b))
  {
    var after := PublishedWorld(world, p);
    assert after.Published(p.documentId) == world.Published(p.documentId) + [p.commitId];
    assert forall e :: e != p.documentId ==> after.Published(e) == world.Published(e);
  }

  lemma PublishDelivers(world: World, p: PendingCommit)
    requires WorldOk(world) && CanFinalize(world, p) && p.documentId == p.commitId.documentId
    ensures DeliveredOk(PublishedWorld(world, p))
  {
    var after := PublishedWorld(world, p);
    PublishGrows(world, p);
    forall b, w | IsPublished(after, b) && b in after.reserved && w in after.reserved[b].objectWrites ensures DeliveredSometime(after, w) {
      if b == p.commitId {
        assert w in p.Writes();
        assert (Object(w.path), p.delivered[w.path].generation) in after.versions;
      } else {
        DeliveredFrom(world, after, b);
      }
    }
  }

  lemma PublishStanding(world: World, p: PendingCommit, b: CommitId)
    requires ReservedOk(world) && CanFinalize(world, p) && p.documentId == p.commitId.documentId && b in world.reserved
    ensures StandingKept(world, PublishedWorld(world, p), b)
  {
    assert ReservationOk(world, b, world.reserved[b]);
    PublishGrows(world, p);
  }

  lemma PublishKeeps(world: World, p: PendingCommit)
    requires WorldOk(world) && CanFinalize(world, p) && !Published(world.Record(p.documentId), p)
    ensures WorldOk(PublishedWorld(world, p)) && Grows(world, PublishedWorld(world, p))
    ensures IsPublished(PublishedWorld(world, p), p.commitId)
  {
    var d := p.documentId;
    var after := PublishedWorld(world, p);
    ReservedDocument(world, p);
    PublishGrows(world, p);
    PublishDocument(world, p);
    PublishDelivers(world, p);
    forall b | b in world.reserved && b.documentId == d ensures StandingKept(world, after, b) {
      PublishStanding(world, p, b);
    }
    RecordOnlyKeeps(world, after, d);
  }

  lemma PublishChain(world: World, p: PendingCommit)
    requires ChainOk(world, p.documentId) && ActiveOk(world, p.documentId) && Known(world, p) && p.documentId == p.commitId.documentId
    requires p.commitId.stateWrite.precondition == ChainPrecondition(|world.Published(p.documentId)|)
    ensures ChainOk(PublishedWorld(world, p), p.documentId) && ActiveOk(PublishedWorld(world, p), p.documentId)
  {
    PublishGrows(world, p);
    assert p.stateWrite == world.reserved[p.commitId].stateWrite;
  }

  lemma PublishDocument(world: World, p: PendingCommit)
    requires WorldOk(world) && CanFinalize(world, p) && !Published(world.Record(p.documentId), p)
    ensures DocumentOk(PublishedWorld(world, p), p.documentId)
  {
    var d := p.documentId;
    var after := PublishedWorld(world, p);
    PendingCases(world, p);
    ReservedDocument(world, p);
    PublishGrows(world, p);
    assert DocumentOk(world, d);
    PublishChain(world, p);
    KnownGrows(world, after, world.Record(d).pending.value);
  }

  lemma CompleteStanding(world: World, p: PendingCommit, b: CommitId)
    requires ReservedOk(world) && Owns(world.Record(p.documentId), p) && b in world.reserved && p.documentId == p.commitId.documentId
    requires IsPublished(world, p.commitId)
    ensures StandingKept(world, CompletedWorld(world, p), b)
  {
    assert ReservationOk(world, b, world.reserved[b]);
  }

  lemma CompleteDocument(world: World, p: PendingCommit)
    requires DocumentOk(world, p.documentId) && p.documentId == p.commitId.documentId && IsPublished(world, p.commitId)
    ensures DocumentOk(CompletedWorld(world, p), p.documentId) && Grows(world, CompletedWorld(world, p))
    ensures Retired(CompletedWorld(world, p), p.commitId)
  {
    assert CompletedWorld(world, p).Published(p.documentId) == world.Published(p.documentId);
  }

  lemma CompletesPublished(world: World, p: PendingCommit)
    requires WorldOk(world) && CanComplete(world, p)
    ensures p.documentId == p.commitId.documentId && IsPublished(world, p.commitId) && DocumentOk(world, p.documentId)
  {
    PendingCases(world, p);
    ReservedDocument(world, p);
  }

  lemma CompleteKeeps(world: World, p: PendingCommit)
    requires WorldOk(world) && CanComplete(world, p)
    ensures WorldOk(CompletedWorld(world, p)) && Grows(world, CompletedWorld(world, p))
    ensures Retired(CompletedWorld(world, p), p.commitId)
  {
    var after := CompletedWorld(world, p);
    CompletesPublished(world, p);
    CompleteDocument(world, p);
    CompleteDelivers(world, p);
    forall b | b in world.reserved && b.documentId == p.documentId ensures StandingKept(world, after, b) {
      CompleteStanding(world, p, b);
    }
    RecordOnlyKeeps(world, after, p.documentId);
  }

  lemma CompleteDelivers(world: World, p: PendingCommit)
    requires DeliveredOk(world) && ReservedOk(world) && Grows(world, CompletedWorld(world, p))
    ensures DeliveredOk(CompletedWorld(world, p))
  {
    DeliveredStays(world, CompletedWorld(world, p));
  }

  lemma DropReservation(world: World, c: CommitId, index: nat, generation: nat, b: CommitId)
    requires ReservedOk(world) && Retired(world, c) && b in world.reserved
    requires Grows(world, DroppedWorld(world, WritePayload(c, index), generation))
    ensures ReservationOk(DroppedWorld(world, WritePayload(c, index), generation), b, world.reserved[b])
  {
    var after := DroppedWorld(world, WritePayload(c, index), generation);
    var p := world.reserved[b];
    assert ReservationOk(world, b, p);
    StagedWrites(p);
    forall w | w in p.Writes() && Readable(world, w.payload) ensures Readable(after, w.payload) || Retired(after, b) {
    }
    ReservationFrom(world, after, b, p);
  }

  lemma DropGrows(world: World, c: CommitId, index: nat, generation: nat)
    requires ReservedOk(world) && Retired(world, c)
    ensures Grows(world, DroppedWorld(world, WritePayload(c, index), generation))
  {
  }

  lemma DropKeeps(world: World, c: CommitId, index: nat, generation: nat)
    requires WorldOk(world) && Retired(world, c)
    ensures WorldOk(DroppedWorld(world, WritePayload(c, index), generation))
    ensures Grows(world, DroppedWorld(world, WritePayload(c, index), generation))
  {
    var after := DroppedWorld(world, WritePayload(c, index), generation);
    DropGrows(world, c, index, generation);
    forall e ensures DocumentOk(after, e) {
      assert DocumentOk(world, e);
      DocumentFrom(world, after, e);
    }
    DropReservations(world, c, index, generation);
    DeliveredStays(world, after);
    MarkersFrom(world, after);
  }

  lemma DropReservations(world: World, c: CommitId, index: nat, generation: nat)
    requires ReservedOk(world) && Retired(world, c)
    requires Grows(world, DroppedWorld(world, WritePayload(c, index), generation))
    ensures ReservedOk(DroppedWorld(world, WritePayload(c, index), generation))
  {
    var after := DroppedWorld(world, WritePayload(c, index), generation);
    forall b | b in after.reserved ensures ReservationOk(after, b, after.reserved[b]) {
      DropReservation(world, c, index, generation, b);
    }
  }

  /** Every call by anyone keeps the invariant, and what grows only grows. */
  lemma StepKeeps(world: World, op: Op)
    requires WorldOk(world) && Enabled(world, op)
    ensures WorldOk(Apply(world, op)) && Grows(world, Apply(world, op))
  {
    match op {
      case Edit(path, bytes, metadata) => PutKeeps(world, Object(path), bytes, UserTag(metadata));
      case Stage(key) => PutKeeps(world, key, PayloadBytes(key).value, PayloadTag(key.commit, Sha256(PayloadBytes(key).value)));
      case Reserve(p) => ReserveKeeps(world, p);
      case Deliver(p, w) => DeliverKeeps(world, p, w);
      case Save(p) => SaveKeeps(world, p);
      case Finalize(p) => FinalizeKeeps(world, p);
      case Complete(p) => CompleteKeeps(world, p);
      case Drop(c, index, generation) => DropKeeps(world, c, index, generation);
    }
  }

  // ---------------------------------------------------------------- payloads are held until retired

  /** A retired commit stays retired, and until then its payloads stay. */
  ghost predicate Retains(before: World, after: World) {
    && (forall c :: Retired(before, c) ==> Retired(after, c))
    && (forall v: (Key, nat) :: v in before.versions && v.0.WritePayload? ==>
          Retired(after, v.0.commit) || (v in after.versions && after.versions[v] == before.versions[v]))
  }

  lemma RetainsTransitive(a: World, b: World, c: World)
    requires Retains(a, b) && Retains(b, c)
    ensures Retains(a, c)
  {
  }

  lemma RecordRetains(before: World, after: World, p: PendingCommit)
    requires WorldOk(before) && Known(before, p) && Owns(before.Record(p.documentId), p)
    requires after == SavedWorld(before, p) || after == CompletedWorld(before, p) || after == PublishedWorld(before, p)
    requires Grows(before, after)
    ensures Retains(before, after)
  {
    ReservedDocument(before, p);
    forall c | Retired(before, c) ensures Retired(after, c) {
      RetiredStays(before, after, p, c);
    }
    assert after.versions == before.versions;
  }

  lemma RetiredStays(before: World, after: World, p: PendingCommit, c: CommitId)
    requires Owns(before.Record(p.documentId), p) && p.documentId == p.commitId.documentId && Retired(before, c)
    requires after == SavedWorld(before, p) || after == CompletedWorld(before, p) || after == PublishedWorld(before, p)
    requires before.Published(c.documentId) <= after.Published(c.documentId)
    ensures Retired(after, c)
  {
  }

  lemma PutRetains(world: World, k: Key, bytes: Blob, tag: Tag)
    requires ObjectsOk(world)
    ensures Retains(world, world.Put(k, bytes, tag))
  {
    PutGrows(world, k, bytes, tag);
  }

  lemma StepRetains(world: World, op: Op)
    requires WorldOk(world) && Enabled(world, op)
    ensures Retains(world, Apply(world, op))
  {
    match op {
      case Edit(path, bytes, metadata) => PutRetains(world, Object(path), bytes, UserTag(metadata));
      case Stage(key) => PutRetains(world, key, PayloadBytes(key).value, PayloadTag(key.commit, Sha256(PayloadBytes(key).value)));
      case Reserve(p) => ReserveRetains(world, p);
      case Deliver(p, w) => PutRetains(world, Object(w.path), w.Bytes(), UserTag(w.metadata));
      case Save(p) => StepKeeps(world, op); RecordRetains(world, Apply(world, op), p);
      case Finalize(p) =>
        if !Published(world.Record(p.documentId), p) {
          StepKeeps(world, op);
          RecordRetains(world, Apply(world, op), p);
        }
      case Complete(p) => StepKeeps(world, op); RecordRetains(world, Apply(world, op), p);
      case Drop(c, index, generation) =>
    }
  }

  lemma ReserveRetains(world: World, p: PendingCommit)
    requires WorldOk(world) && CanReserve(world, p)
    ensures Retains(world, Apply(world, Reserve(p)))
  {
    ReserveIsNew(world, p);
  }
}
