/** What a worker left undisturbed does to the world, phase by phase, and that it amounts to one atomic commit. */
module OutboxEffects {
  import opened Wrappers
  import opened Model
  import opened Storage
  import opened Outbox
  import opened OutboxSafety
  import opened OutboxRuns
  import opened OutboxProgress
  import opened OutboxFacts

  // ---------------------------------------------------------------- what a reader sees

  predicate IsStatePath(p: Path) {
    p.StatePath? && p.doc != ""
  }

  /** What a reader of the storage sees at `path`: at a state path, the active canonical state. */
  function ReadAt(world: World, path: Path): Option<Stored> {
    if IsStatePath(path) then
      match world.Record(path.doc).active
      case None => None
      case Some(active) => Some(Stored(active.payload.contentSha256.preimage, active.generation, UserTag(active.metadata)))
    else if Object(path) in world.objects then Some(world.objects[Object(path)])
    else None
  }

  // ---------------------------------------------------------------- delivering in order

  datatype Progress = Progress(world: World, p: PendingCommit, stored: seq<Stored>)

  /** The destination of `w` written, unless it carries the write already. */
  function PlacedWorld(world: World, p: PendingCommit, w: OutboxWrite): World {
    var k := Object(w.path);
    if w.path in p.delivered || (k in world.objects && Carries(world.objects[k], w)) then world
    else world.Put(k, w.Bytes(), UserTag(w.metadata))
  }

  /** What delivering one more write leaves when nothing else happens. */
  function DeliverOne(at: Progress, w: OutboxWrite): Progress {
    var placed := PlacedWorld(at.world, at.p, w);
    var stored := if Object(w.path) in placed.objects then placed.objects[Object(w.path)] else Stored(w.Bytes(), 0, UserTag(w.metadata));
    var next := WithDelivery(at.p, w, stored);
    Progress(SavedWorld(placed, next), next, at.stored + [stored])
  }

  function DeliverSeq(world: World, p: PendingCommit, writes: seq<OutboxWrite>): Progress
    decreases |writes|
  {
    if writes == [] then Progress(world, p, [])
    else DeliverOne(DeliverSeq(world, p, writes[..|writes| - 1]), writes[|writes| - 1])
  }

  predicate Among(path: Path, writes: seq<OutboxWrite>) {
    exists w :: w in writes && w.path == path
  }

  /** Only the record of `d` may differ, and not in its active state. */
  ghost predicate SameRecords(before: World, after: World, d: DocumentId) {
    && (forall e :: e != d ==> after.Record(e) == before.Record(e))
    && after.Record(d).active == before.Record(d).active
    && after.published == before.published && after.reserved == before.reserved
  }

  /** Delivering leaves every other destination alone, and whether another write is ready does not change. */
  lemma {:induction false} DeliverSeqFrame(world: World, p: PendingCommit, writes: seq<OutboxWrite>)
    ensures var at := DeliverSeq(world, p, writes);
            && |at.stored| == |writes| && at.p.(delivered := map[]) == p.(delivered := map[])
            && SameRecords(world, at.world, p.documentId)
            && (writes != [] ==> at.world.Record(p.documentId).pending == Some(at.p))
    decreases |writes|
  {
    if writes != [] {
      DeliverSeqFrame(world, p, writes[..|writes| - 1]);
    }
  }

  lemma {:induction false} DeliverSeqElsewhere(world: World, p: PendingCommit, writes: seq<OutboxWrite>, path: Path)
    requires !Among(path, writes)
    ensures Untouched(world, DeliverSeq(world, p, writes).world, Object(path))
    ensures path in DeliverSeq(world, p, writes).p.delivered <==> path in p.delivered
    ensures path in p.delivered ==> DeliverSeq(world, p, writes).p.delivered[path] == p.delivered[path]
    decreases |writes|
  {
    if writes != [] {
      var n := |writes| - 1;
      assert writes[n] in writes;
      assert forall w :: w in writes[..n] ==> w in writes;
      DeliverSeqElsewhere(world, p, writes[..n], path);
    }
  }

  lemma ReadyElsewhere(world: World, p: PendingCommit, writes: seq<OutboxWrite>, v: OutboxWrite)
    requires !Among(v.path, writes)
    ensures Ready(DeliverSeq(world, p, writes).world, DeliverSeq(world, p, writes).p, v) == Ready(world, p, v)
  {
    DeliverSeqElsewhere(world, p, writes, v.path);
  }

  lemma EarlierApart(writes: seq<OutboxWrite>, i: nat)
    requires i < |writes| && Apart(writes)
    ensures !Among(writes[i].path, writes[..i])
  {
  }

  lemma NextReady(world: World, p: PendingCommit, writes: seq<OutboxWrite>, i: nat)
    requires i < |writes| && Apart(writes)
    ensures var at := DeliverSeq(world, p, writes[..i]);
            && Ready(at.world, at.p, writes[i]) == Ready(world, p, writes[i])
            && DeliverSeq(world, p, writes[..i + 1]) == DeliverOne(at, writes[i])
  {
    EarlierApart(writes, i);
    ReadyElsewhere(world, p, writes[..i], writes[i]);
    assert writes[..i + 1][..i] == writes[..i];
  }

  /** When all writes are ready, delivering them leaves each destination carrying its write. */
  lemma {:induction false} DeliverSeqDelivers(world: World, p: PendingCommit, writes: seq<OutboxWrite>)
    requires Apart(writes) && AllReady(world, p, writes)
    ensures var at := DeliverSeq(world, p, writes);
            && |at.stored| == |writes|
            && forall i :: 0 <= i < |writes| ==>
                 && Object(writes[i].path) in at.world.objects && at.world.objects[Object(writes[i].path)] == at.stored[i]
                 && Carries(at.stored[i], writes[i]) && writes[i].path in at.p.delivered
    decreases |writes|
  {
    DeliverSeqFrame(world, p, writes);
    if writes != [] {
      var n := |writes| - 1;
      DeliverSeqDelivers(world, p, writes[..n]);
      DeliverSeqFrame(world, p, writes[..n]);
      EarlierApart(writes, n);
      ReadyElsewhere(world, p, writes[..n], writes[n]);
      assert Ready(world, p, writes[n]);
      var at := DeliverSeq(world, p, writes);
      forall i | 0 <= i < |writes|
        ensures Object(writes[i].path) in at.world.objects && at.world.objects[Object(writes[i].path)] == at.stored[i]
        ensures Carries(at.stored[i], writes[i]) && writes[i].path in at.p.delivered
      {
        if i < n {
          assert writes[..n][i] == writes[i];
        }
      }
    }
  }

  // ---------------------------------------------------------------- finishing a commit

  /** Finishing `p` would succeed; with `skip` its object writes are taken as delivered. */
  predicate CanFinish(world: World, p: PendingCommit, skip: bool) {
    && (if skip then AllDelivered(p, p.objectWrites) else AllReady(world, p, p.objectWrites))
    && AllReady(world, p, p.releaseWrites)
  }

  /** What finishing `p` does: its state is active, nothing is pending, the destinations carry the writes, in
      order of `stored`, and everything else is as it was. */
  ghost predicate Finished(before: World, after: World, p: PendingCommit, writes: seq<OutboxWrite>, stored: seq<Stored>) {
    && (forall e :: e != p.documentId ==> after.Record(e) == before.Record(e))
    && after.Record(p.documentId)
       == StateRecord(if Published(before.Record(p.documentId), p) then before.Record(p.documentId).active
                      else Finalized(before.Record(p.documentId), p).active, None)
    && |stored| == |writes|
    && (forall i :: 0 <= i < |writes| ==>
          && Object(writes[i].path) in after.objects && after.objects[Object(writes[i].path)] == stored[i]
          && Carries(stored[i], writes[i]))
    && (forall path :: !Among(path, writes) ==> Untouched(before, after, Object(path)))
  }

  /** `p` was finished with all it writes. */
  ghost predicate FinishedAll(before: World, after: World, p: PendingCommit) {
    exists stored :: Finished(before, after, p, p.Writes(), stored)
  }

  lemma FinishedFrom(first: World, before: World, after: World, p: PendingCommit)
    requires first.records == before.records && (forall path :: Untouched(first, before, Object(path))) && FinishedAll(before, after, p)
    ensures FinishedAll(first, after, p)
  {
    var stored :| Finished(before, after, p, p.Writes(), stored);
    forall path | !Among(path, p.Writes()) ensures Untouched(first, after, Object(path)) {
      assert Untouched(first, before, Object(path)) && Untouched(before, after, Object(path));
    }
    assert Finished(first, after, p, p.Writes(), stored);
  }

  /** The worlds a calm worker passes through while finishing `p`. */
  function AfterObjects(world: World, p: PendingCommit, skip: bool): Progress {
    if skip then Progress(world, p, []) else DeliverSeq(world, p, p.objectWrites)
  }

  function AfterReleases(world: World, p: PendingCommit): Progress {
    if p.releaseWrites == [] then Progress(world, p, [])
    else
      var at := DeliverSeq(world, p, p.releaseWrites);
      at.(world := CompletedWorld(at.world, at.p))
  }

  /** The writes a finish delivers, and the objects it leaves for them. */
  function FinishedWrites(p: PendingCommit, skip: bool): seq<OutboxWrite> {
    if skip then p.releaseWrites else p.Writes()
  }

  lemma ReleasesApart(p: PendingCommit)
    requires Apart(p.Writes())
    ensures forall v :: v in p.releaseWrites ==> !Among(v.path, p.objectWrites)
  {
    forall i, j | 0 <= i < |p.objectWrites| && 0 <= j < |p.releaseWrites| ensures p.objectWrites[i].path != p.releaseWrites[j].path {
      assert p.Writes()[i] == p.objectWrites[i] && p.Writes()[|p.objectWrites| + j] == p.releaseWrites[j];
    }
  }

  lemma ReleasesReadyLater(world: World, p: PendingCommit, skip: bool)
    requires Apart(p.Writes())
    ensures var at := AfterObjects(world, p, skip);
            AllReady(FinalizedWorld(at.world, at.p), at.p, p.releaseWrites) == AllReady(world, p, p.releaseWrites)
  {
    var at := AfterObjects(world, p, skip);
    ReleasesApart(p);
    forall v | v in p.releaseWrites ensures Ready(FinalizedWorld(at.world, at.p), at.p, v) == Ready(world, p, v) {
      ReadyElsewhere(world, p, p.objectWrites, v);
      assert Ready(FinalizedWorld(at.world, at.p), at.p, v) == Ready(at.world, at.p, v);
    }
  }

  lemma ObjectsFinish(world: World, p: PendingCommit, skip: bool)
    requires Apart(p.Writes()) && CanFinish(world, p, skip)
    ensures var at := AfterObjects(world, p, skip);
            && SameRecords(world, at.world, p.documentId) && at.p.(delivered := map[]) == p.(delivered := map[])
            && |at.stored| == (if skip then 0 else |p.objectWrites|)
            && (!skip ==> forall i :: 0 <= i < |p.objectWrites| ==>
                  && Object(p.objectWrites[i].path) in at.world.objects && at.world.objects[Object(p.objectWrites[i].path)] == at.stored[i]
                  && Carries(at.stored[i], p.objectWrites[i]))
            && (forall path :: skip || !Among(path, p.objectWrites) ==> Untouched(world, at.world, Object(path)))
  {
    if !skip {
      PartApart(p, p.objectWrites);
      DeliverSeqFrame(world, p, p.objectWrites);
      DeliverSeqDelivers(world, p, p.objectWrites);
      forall path | !Among(path, p.objectWrites) ensures Untouched(world, DeliverSeq(world, p, p.objectWrites).world, Object(path)) {
        DeliverSeqElsewhere(world, p, p.objectWrites, path);
      }
    }
  }

  lemma ReleasesFinish(world: World, p: PendingCommit)
    requires Apart(p.Writes()) && AllReady(world, p, p.releaseWrites)
    ensures var at := AfterReleases(world, p);
            && |at.stored| == |p.releaseWrites|
            && (forall e :: e != p.documentId ==> at.world.Record(e) == world.Record(e))
            && at.world.Record(p.documentId).active == world.Record(p.documentId).active
            && at.world.Record(p.documentId).pending == (if p.releaseWrites == [] then world.Record(p.documentId).pending else None)
            && (forall i :: 0 <= i < |p.releaseWrites| ==>
                  && Object(p.releaseWrites[i].path) in at.world.objects && at.world.objects[Object(p.releaseWrites[i].path)] == at.stored[i]
                  && Carries(at.stored[i], p.releaseWrites[i]))
            && (forall path :: !Among(path, p.releaseWrites) ==> Untouched(world, at.world, Object(path)))
  {
    if p.releaseWrites != [] {
      PartApart(p, p.releaseWrites);
      DeliverSeqFrame(world, p, p.releaseWrites);
      DeliverSeqDelivers(world, p, p.releaseWrites);
      forall path | !Among(path, p.releaseWrites) ensures Untouched(world, DeliverSeq(world, p, p.releaseWrites).world, Object(path)) {
        DeliverSeqElsewhere(world, p, p.releaseWrites, path);
      }
    }
  }

  lemma FinishedDocument(world: World, p: PendingCommit, at: Progress)
    requires SameRecords(world, at.world, p.documentId) && at.p.(delivered := map[]) == p.(delivered := map[])
    ensures var active := FinalizedWorld(at.world, at.p);
            && (forall e :: e != p.documentId ==> active.Record(e) == world.Record(e))
            && active.Record(p.documentId).active
               == (if Published(world.Record(p.documentId), p) then world.Record(p.documentId).active
                   else Finalized(world.Record(p.documentId), p).active)
            && (p.releaseWrites == [] && !Published(world.Record(p.documentId), p) ==> active.Record(p.documentId).pending.None?)
  {
  }

  lemma FinishRecords(world: World, p: PendingCommit, skip: bool)
    requires Apart(p.Writes()) && CanFinish(world, p, skip)
    requires world.Record(p.documentId).pending == Some(p)
    requires p.releaseWrites == [] ==> !Published(world.Record(p.documentId), p)
    ensures var at := AfterObjects(world, p, skip);
            var end := AfterReleases(FinalizedWorld(at.world, at.p), at.p).world;
            && (forall e :: e != p.documentId ==> end.Record(e) == world.Record(e))
            && end.Record(p.documentId)
               == StateRecord(if Published(world.Record(p.documentId), p) then world.Record(p.documentId).active
                              else Finalized(world.Record(p.documentId), p).active, None)
  {
    var at := AfterObjects(world, p, skip);
    var active := FinalizedWorld(at.world, at.p);
    assert SameRecords(world, at.world, p.documentId) && at.p.(delivered := map[]) == p.(delivered := map[]) by {
      ObjectsFinish(world, p, skip);
    }
    FinishedDocument(world, p, at);
    var end := AfterReleases(active, at.p).world;
    assert (forall e :: e != p.documentId ==> end.Record(e) == active.Record(e))
           && end.Record(p.documentId).active == active.Record(p.documentId).active
           && end.Record(p.documentId).pending == (if p.releaseWrites == [] then active.Record(p.documentId).pending else None) by {
      ReleasesReadyLater(world, p, skip);
      ReleasesFinish(active, at.p);
    }
  }

  lemma AmongParts(p: PendingCommit, path: Path)
    ensures Among(path, p.Writes()) <==> Among(path, p.objectWrites) || Among(path, p.releaseWrites)
  {
    assert forall w :: w in p.Writes() <==> w in p.objectWrites || w in p.releaseWrites;
  }

  lemma FinishElsewhere(world: World, p: PendingCommit, skip: bool, path: Path)
    requires Apart(p.Writes()) && CanFinish(world, p, skip) && !Among(path, FinishedWrites(p, skip))
    ensures var at := AfterObjects(world, p, skip);
            Untouched(world, AfterReleases(FinalizedWorld(at.world, at.p), at.p).world, Object(path))
  {
    var at := AfterObjects(world, p, skip);
    ObjectsFinish(world, p, skip);
    ReleasesReadyLater(world, p, skip);
    ReleasesFinish(FinalizedWorld(at.world, at.p), at.p);
    AmongParts(p, path);
  }

  lemma ObjectsStay(p: PendingCommit, i: nat)
    requires Apart(p.Writes()) && i < |p.objectWrites|
    ensures !Among(p.objectWrites[i].path, p.releaseWrites)
  {
    ReleasesApart(p);
    assert p.objectWrites[i] in p.objectWrites;
  }

  lemma ObjectDelivered(world: World, p: PendingCommit, i: nat)
    requires Apart(p.Writes()) && CanFinish(world, p, false) && i < |p.objectWrites|
    ensures var at := AfterObjects(world, p, false);
            var end := AfterReleases(FinalizedWorld(at.world, at.p), at.p);
            var k := Object(p.objectWrites[i].path);
            && |at.stored| == |p.objectWrites|
            && k in end.world.objects && end.world.objects[k] == at.stored[i] && Carries(at.stored[i], p.objectWrites[i])
  {
    var at := AfterObjects(world, p, false);
    var active := FinalizedWorld(at.world, at.p);
    ObjectsFinish(world, p, false);
    ReleasesReadyLater(world, p, false);
    ReleasesFinish(active, at.p);
    ObjectsStay(p, i);
    assert Untouched(active, AfterReleases(active, at.p).world, Object(p.objectWrites[i].path));
  }

  lemma ReleaseDelivered(world: World, p: PendingCommit, skip: bool, i: nat)
    requires Apart(p.Writes()) && CanFinish(world, p, skip) && i < |p.releaseWrites|
    ensures var at := AfterObjects(world, p, skip);
            var end := AfterReleases(FinalizedWorld(at.world, at.p), at.p);
            var k := Object(p.releaseWrites[i].path);
            && |end.stored| == |p.releaseWrites|
            && k in end.world.objects && end.world.objects[k] == end.stored[i] && Carries(end.stored[i], p.releaseWrites[i])
  {
    var at := AfterObjects(world, p, skip);
    assert at.p.releaseWrites == p.releaseWrites && Apart(at.p.Writes()) by {
      ObjectsFinish(world, p, skip);
    }
    ReleasesReadyLater(world, p, skip);
    ReleasesFinish(FinalizedWorld(at.world, at.p), at.p);
  }

  lemma FinishLength(world: World, p: PendingCommit, skip: bool)
    requires Apart(p.Writes()) && CanFinish(world, p, skip)
    ensures var at := AfterObjects(world, p, skip);
            && |at.stored| == (if skip then 0 else |p.objectWrites|)
            && |AfterReleases(FinalizedWorld(at.world, at.p), at.p).stored| == |p.releaseWrites|
  {
    var at := AfterObjects(world, p, skip);
    ObjectsFinish(world, p, skip);
    ReleasesReadyLater(world, p, skip);
    ReleasesFinish(FinalizedWorld(at.world, at.p), at.p);
  }

  /** The three phases together. */
  lemma FinishEffect(world: World, p: PendingCommit, skip: bool)
    requires Apart(p.Writes()) && CanFinish(world, p, skip)
    requires world.Record(p.documentId).pending == Some(p)
    requires p.releaseWrites == [] ==> !Published(world.Record(p.documentId), p)
    ensures var at := AfterObjects(world, p, skip);
            var end := AfterReleases(FinalizedWorld(at.world, at.p), at.p);
            Finished(world, end.world, p, FinishedWrites(p, skip), at.stored + end.stored)
  {
    var at := AfterObjects(world, p, skip);
    var end := AfterReleases(FinalizedWorld(at.world, at.p), at.p);
    var writes, stored := FinishedWrites(p, skip), at.stored + end.stored;
    FinishRecords(world, p, skip);
    forall path | !Among(path, writes) ensures Untouched(world, end.world, Object(path)) {
      FinishElsewhere(world, p, skip, path);
    }
    FinishLength(world, p, skip);
    forall i | 0 <= i < |writes|
      ensures Object(writes[i].path) in end.world.objects
              && end.world.objects[Object(writes[i].path)] == stored[i] && Carries(stored[i], writes[i])
    {
      if !skip && i < |p.objectWrites| {
        ObjectDelivered(world, p, i);
      } else {
        assert writes[i] == p.releaseWrites[i - |at.stored|];
        ReleaseDelivered(world, p, skip, i - |at.stored|);
      }
    }
  }

  lemma FinishedAfterCleanup(first: World, before: World, after: World, p: PendingCommit, writes: seq<OutboxWrite>, stored: seq<Stored>)
    requires Finished(first, before, p, writes, stored)
    requires after.records == before.records && forall path :: Untouched(before, after, Object(path))
    ensures Finished(first, after, p, writes, stored)
  {
    forall path | !Among(path, writes) ensures Untouched(first, after, Object(path)) {
      assert Untouched(first, before, Object(path)) && Untouched(before, after, Object(path));
    }
    forall i | 0 <= i < |writes|
      ensures Object(writes[i].path) in after.objects && after.objects[Object(writes[i].path)] == stored[i] && Carries(stored[i], writes[i])
    {
      assert Untouched(before, after, Object(writes[i].path));
    }
  }

  /** Publishing does not change whether the release markers are ready. */
  lemma ReleasesReady(r: Run, p: PendingCommit, skip: bool)
    requires IsRun(r) && Known(Now(r), p)
    ensures var at := AfterObjects(Now(r), p, skip);
            AllReady(FinalizedWorld(at.world, at.p), at.p, p.releaseWrites) == AllReady(Now(r), p, p.releaseWrites)
  {
    KnownApart(r, p);
    ReleasesReadyLater(Now(r), p, skip);
  }

  /** A pending commit carried through all three phases and cleaned up is finished. */
  lemma FinishTogether(r: Run, p: PendingCommit, skip: bool, after: World)
    requires IsRun(r) && Known(Now(r), p) && Now(r).Record(p.documentId).pending == Some(p) && CanFinish(Now(r), p, skip)
    requires var at := AfterObjects(Now(r), p, skip);
             var end := AfterReleases(FinalizedWorld(at.world, at.p), at.p).world;
             after.records == end.records && forall path :: Untouched(end, after, Object(path))
    ensures var at := AfterObjects(Now(r), p, skip);
            var end := AfterReleases(FinalizedWorld(at.world, at.p), at.p);
            Finished(Now(r), after, p, FinishedWrites(p, skip), at.stored + end.stored)
  {
    var at := AfterObjects(Now(r), p, skip);
    var end := AfterReleases(FinalizedWorld(at.world, at.p), at.p);
    KnownApart(r, p);
    EarlyReturn(r, p);
    FinishEffect(Now(r), p, skip);
    FinishedAfterCleanup(Now(r), end.world, after, p, FinishedWrites(p, skip), at.stored + end.stored);
  }

  // ---------------------------------------------------------------- one atomic commit

  /** `writes` holds exactly one canonical state write, the `k`-th. */
  ghost predicate OneState(writes: seq<ConditionalWrite>, k: nat) {
    && k < |writes| && IsStatePath(writes[k].path)
    && forall i :: 0 <= i < |writes| && i != k ==> !IsStatePath(writes[i].path)
  }

  function Others(writes: seq<ConditionalWrite>, k: nat): (others: seq<ConditionalWrite>)
    requires k < |writes|
    ensures |others| == |writes| - 1
  {
    writes[..k] + writes[k + 1..]
  }

  lemma OthersApart(writes: seq<ConditionalWrite>, k: nat)
    requires DistinctPaths(writes) && k < |writes|
    ensures DistinctPaths(Others(writes, k))
  {
    var others := Others(writes, k);
    forall i, j | 0 <= i < j < |others| ensures others[i].path != others[j].path {
      var a, b := if i < k then i else i + 1, if j < k then j else j + 1;
      assert others[i] == writes[a] && others[j] == writes[b];
    }
  }

  function IdOf(writes: seq<ConditionalWrite>, k: nat): CommitId
    requires k < |writes| && writes[k].path.StatePath?
  {
    CommitId(writes[k].path.doc, writes[k], Others(writes, k))
  }

  /** A commit would accept the destination of `w` as it is. */
  predicate Willing(world: World, w: ConditionalWrite) {
    var k := Object(w.path);
    || (k in world.objects && world.objects[k].bytes == w.bytes && world.objects[k].tag == UserTag(w.metadata))
    || Holds(w.precondition, world.Generation(k))
  }

  /** When an undisturbed commit with nothing pending succeeds. */
  predicate Accepts(world: World, writes: seq<ConditionalWrite>, k: nat)
    requires k < |writes| && writes[k].path.StatePath?
  {
    && Holds(writes[k].precondition, ActiveGeneration(world.Record(writes[k].path.doc)))
    && forall w :: w in Others(writes, k) ==> Willing(world, w)
  }

  /** When an undisturbed commit succeeds although its document has a commit pending: it is that very commit, its
      destinations accept it, and the copy pending can be finished from the start. */
  predicate AcceptsAgain(world: World, writes: seq<ConditionalWrite>, k: nat)
    requires k < |writes| && writes[k].path.StatePath?
  {
    var pending := world.Record(writes[k].path.doc).pending;
    && pending.Some? && pending.value.commitId == IdOf(writes, k)
    && (forall w :: w in Others(writes, k) ==> Willing(world, w)) && CanFinish(world, pending.value, false)
  }

  lemma FinishableStill(before: World, after: World, p: PendingCommit)
    requires forall path :: Untouched(before, after, Object(path))
    ensures CanFinish(after, p, false) == CanFinish(before, p, false)
  {
    forall w ensures Ready(after, p, w) == Ready(before, p, w) {
      assert Untouched(before, after, Object(w.path));
    }
  }

  lemma WillingIsReady(before: World, after: World, p: PendingCommit, quiet: set<Path>)
    requires WellFormed(p) && p.delivered == map[]
    requires forall w :: w in p.commitId.objectWrites ==> Willing(before, w) && w.path in quiet
    requires forall path :: path in quiet ==> Untouched(before, after, Object(path))
    ensures AllReady(after, p, p.Writes()) && forall w :: w in p.Writes() ==> w.path in quiet
  {
    StagedWrites(p);
    var c := p.commitId;
    forall w | w in p.Writes() ensures Ready(after, p, w) && w.path in quiet {
      var i :| 0 <= i < |c.objectWrites| && Stages(c, w, c.objectWrites[i]);
      assert Willing(before, c.objectWrites[i]) && Untouched(before, after, Object(w.path));
    }
  }

  /** The order in which a commit delivers its objects. */
  function Arranged(writes: seq<ConditionalWrite>): seq<ConditionalWrite> {
    Ordinary(writes) + Releases(writes)
  }

  /** Every written path reads back as its write, the state one generation on. */
  ghost predicate ReadsBack(before: World, after: World, writes: seq<ConditionalWrite>, k: nat)
    requires k < |writes| && IsStatePath(writes[k].path)
  {
    && (forall i :: 0 <= i < |writes| ==>
          var read := ReadAt(after, writes[i].path);
          read.Some? && read.value.bytes == writes[i].bytes && read.value.tag == UserTag(writes[i].metadata))
    && var active := before.Record(writes[k].path.doc).active;
       ReadAt(after, writes[k].path).value.generation == (if active.Some? then active.value.generation else 0) + 1
  }

  /** The results are the objects in delivery order, around the state. */
  ghost predicate ResultsPaired(after: World, writes: seq<ConditionalWrite>, k: nat, results: seq<Stored>)
    requires k < |writes|
  {
    && |results| == |writes| && Some(results[k]) == ReadAt(after, writes[k].path)
    && |Arranged(Others(writes, k))| == |writes| - 1
    && forall j :: 0 <= j < |writes| - 1 ==>
         Some(results[if j < k then j else j + 1]) == ReadAt(after, Arranged(Others(writes, k))[j].path)
  }

  ghost predicate OnlyWritten(before: World, after: World, writes: seq<ConditionalWrite>) {
    forall path :: (forall i :: 0 <= i < |writes| ==> writes[i].path != path) ==> ReadAt(after, path) == ReadAt(before, path)
  }

  /** One atomic commit. */
  ghost predicate CommitEffect(before: World, after: World, writes: seq<ConditionalWrite>, k: nat, results: seq<Stored>)
    requires k < |writes| && IsStatePath(writes[k].path)
  {
    ReadsBack(before, after, writes, k) && OnlyWritten(before, after, writes) && ResultsPaired(after, writes, k, results)
  }

  /** How an undisturbed commit ends when its document has nothing pending: it succeeds exactly when it is accepted,
      and then has the effect of one atomic commit; a failure changes nothing that is read. */
  ghost predicate CommitOutcome(before: World, after: World, writes: seq<ConditionalWrite>, k: nat, r: Result<seq<Stored>, string>)
    requires k < |writes| && IsStatePath(writes[k].path)
  {
    && (r.Success? <==> Accepts(before, writes, k))
    && (r.Success? ==> CommitEffect(before, after, writes, k, r.value))
    && (r.Failure? ==> forall path :: ReadAt(after, path) == ReadAt(before, path))
  }

  /** How it ends when a commit is pending: another commit is refused and nothing that is read changes; the same commit
      goes on from where it was, and when it succeeds it is finished. */
  ghost predicate RetryOutcome(before: World, after: World, writes: seq<ConditionalWrite>, k: nat, r: Result<seq<Stored>, string>)
    requires k < |writes| && IsStatePath(writes[k].path) && before.Record(writes[k].path.doc).pending.Some?
  {
    var pending := before.Record(writes[k].path.doc).pending.value;
    && (r.Success? <==> AcceptsAgain(before, writes, k))
    && (r.Success? ==> FinishedAll(before, after, pending) && ResultsPaired(after, writes, k, r.value))
    && (pending.commitId != IdOf(writes, k) ==> forall path :: ReadAt(after, path) == ReadAt(before, path))
  }

  /** A commit just reserved over willing destinations can be finished. */
  lemma PreparedFinishes(r: Run, first: World, writes: seq<ConditionalWrite>, k: nat, p: PendingCommit)
    requires IsRun(r) && Known(Now(r), p) && WellFormed(p) && p.delivered == map[]
    requires OneState(writes, k) && p.commitId == IdOf(writes, k)
    requires Now(r).Record(p.documentId).pending == Some(p)
    requires Now(r).Record(p.documentId).active == first.Record(p.documentId).active
    requires Holds(writes[k].precondition, ActiveGeneration(first.Record(p.documentId)))
    requires forall w :: w in Others(writes, k) ==> Willing(first, w)
    requires forall path :: Untouched(first, Now(r), Object(path))
    ensures CanFinish(Now(r), p, false) && !Published(Now(r).Record(p.documentId), p)
  {
    WillingIsReady(first, Now(r), p, set w | w in Others(writes, k) :: w.path);
    NowOk(r);
    var world, d := Now(r), p.documentId;
    assert DocumentOk(world, d);
    NextIsNew(world, p.commitId);
    PublishedMeansLast(world, p);
  }

  lemma FinishedWrite(first: World, after: World, writes: seq<ConditionalWrite>, k: nat, p: PendingCommit, i: nat)
    requires OneState(writes, k) && WellFormed(p) && p.commitId == IdOf(writes, k) && i < |writes| && i != k
    requires forall j :: 0 <= j < |p.Writes()| ==> Object(p.Writes()[j].path) in after.objects
                                                   && Carries(after.objects[Object(p.Writes()[j].path)], p.Writes()[j])
    ensures var read := ReadAt(after, writes[i].path);
            read.Some? && read.value.bytes == writes[i].bytes && read.value.tag == UserTag(writes[i].metadata)
  {
    assert writes[i] == p.commitId.objectWrites[if i < k then i else i - 1];
    var j := StagedAmong(p, writes[i]);
    CarriedReads(p, p.Writes()[j], writes[i], after);
  }

  /** Every object write of a commit is staged among its deliveries. */
  lemma StagedAmong(p: PendingCommit, write: ConditionalWrite) returns (j: nat)
    requires WellFormed(p) && write in p.commitId.objectWrites
    ensures j < |p.Writes()| && Stages(p.commitId, p.Writes()[j], write)
  {
    var c := p.commitId;
    Split(c.objectWrites);
    if IsRelease(write.path, write.metadata) {
      var i :| 0 <= i < |Releases(c.objectWrites)| && Releases(c.objectWrites)[i] == write;
      j := |p.objectWrites| + i;
    } else {
      j :| 0 <= j < |Ordinary(c.objectWrites)| && Ordinary(c.objectWrites)[j] == write;
    }
  }

  lemma CarriedReads(p: PendingCommit, w: OutboxWrite, write: ConditionalWrite, after: World)
    requires Stages(p.commitId, w, write) && !IsStatePath(write.path)
    requires Object(w.path) in after.objects && Carries(after.objects[Object(w.path)], w)
    ensures var read := ReadAt(after, write.path);
            read.Some? && read.value.bytes == write.bytes && read.value.tag == UserTag(write.metadata)
  {
  }

  lemma ArrangedPaths(p: PendingCommit)
    requires WellFormed(p)
    ensures |Arranged(p.commitId.objectWrites)| == |p.Writes()|
    ensures forall j :: 0 <= j < |p.Writes()| ==> Arranged(p.commitId.objectWrites)[j].path == p.Writes()[j].path
    ensures forall j :: 0 <= j < |p.Writes()| ==> Arranged(p.commitId.objectWrites)[j] in p.commitId.objectWrites
  {
    Split(p.commitId.objectWrites);
    var ordinary, releases := Ordinary(p.commitId.objectWrites), Releases(p.commitId.objectWrites);
    forall j | 0 <= j < |p.Writes()|
      ensures Arranged(p.commitId.objectWrites)[j].path == p.Writes()[j].path && Arranged(p.commitId.objectWrites)[j] in p.commitId.objectWrites
    {
      if j < |ordinary| {
        assert ordinary[j] in ordinary;
      } else {
        assert releases[j - |ordinary|] in releases;
      }
    }
  }

  lemma AmongIsWritten(writes: seq<ConditionalWrite>, k: nat, p: PendingCommit, path: Path)
    requires OneState(writes, k) && WellFormed(p) && p.commitId == IdOf(writes, k)
    ensures Among(path, p.Writes()) ==> exists i :: 0 <= i < |writes| && writes[i].path == path
  {
    if Among(path, p.Writes()) {
      var w :| w in p.Writes() && w.path == path;
      StagedWrites(p);
      var i :| 0 <= i < |p.commitId.objectWrites| && Stages(p.commitId, w, p.commitId.objectWrites[i]);
      assert writes[if i < k then i else i + 1].path == path;
    }
  }

  lemma OtherPathsKept(
    first: World, reserved: World, after: World, writes: seq<ConditionalWrite>, k: nat, p: PendingCommit, stored: seq<Stored>, path: Path)
    requires OneState(writes, k) && WellFormed(p) && p.commitId == IdOf(writes, k)
    requires Untouched(first, reserved, Object(path)) && Finished(reserved, after, p, p.Writes(), stored)
    requires forall e :: e != p.documentId ==> reserved.Record(e) == first.Record(e)
    requires forall i :: 0 <= i < |writes| ==> writes[i].path != path
    ensures ReadAt(after, path) == ReadAt(first, path)
  {
    if !IsStatePath(path) {
      AmongIsWritten(writes, k, p, path);
      assert Untouched(reserved, after, Object(path));
    }
  }

  /** Reserving changed nothing a reader sees. */
  ghost predicate PreparedFrom(first: World, reserved: World, p: PendingCommit) {
    && (forall path :: Untouched(first, reserved, Object(path)))
    && (forall e :: e != p.documentId ==> reserved.Record(e) == first.Record(e))
    && reserved.Record(p.documentId).active == first.Record(p.documentId).active
  }

  lemma FinishedReadsBack(
    first: World, reserved: World, after: World, writes: seq<ConditionalWrite>, k: nat, p: PendingCommit, stored: seq<Stored>)
    requires OneState(writes, k) && WellFormed(p) && p.commitId == IdOf(writes, k)
    requires reserved.Record(p.documentId).active == first.Record(p.documentId).active
    requires !Published(reserved.Record(p.documentId), p)
    requires Finished(reserved, after, p, p.Writes(), stored)
    ensures ReadsBack(first, after, writes, k)
  {
    forall i | 0 <= i < |writes|
      ensures var read := ReadAt(after, writes[i].path);
              read.Some? && read.value.bytes == writes[i].bytes && read.value.tag == UserTag(writes[i].metadata)
    {
      if i != k {
        FinishedWrite(first, after, writes, k, p, i);
      }
    }
  }

  lemma FinishedPaired(after: World, writes: seq<ConditionalWrite>, k: nat, p: PendingCommit, state: Stored, stored: seq<Stored>)
    requires OneState(writes, k) && WellFormed(p) && p.commitId == IdOf(writes, k)
    requires |stored| == |p.Writes()| && Some(state) == ReadAt(after, writes[k].path)
    requires forall j :: 0 <= j < |stored| ==>
               Object(p.Writes()[j].path) in after.objects && after.objects[Object(p.Writes()[j].path)] == stored[j]
    ensures |stored| == |writes| - 1
    ensures ResultsPaired(after, writes, k, stored[..k] + [state] + stored[k..])
  {
    ArrangedPaths(p);
    SplitLength(p);
    var results := stored[..k] + [state] + stored[k..];
    forall j | 0 <= j < |writes| - 1
      ensures Some(results[if j < k then j else j + 1]) == ReadAt(after, Arranged(Others(writes, k))[j].path)
    {
      assert results[if j < k then j else j + 1] == stored[j];
      assert Arranged(Others(writes, k))[j] in Others(writes, k);
    }
  }

  /** A finished commit reads back as one atomic commit. */
  lemma EffectOfFinish(
    first: World, reserved: World, after: World, writes: seq<ConditionalWrite>, k: nat, p: PendingCommit, state: Stored, stored: seq<Stored>)
    requires OneState(writes, k) && WellFormed(p) && p.commitId == IdOf(writes, k)
    requires PreparedFrom(first, reserved, p) && !Published(reserved.Record(p.documentId), p)
    requires Finished(reserved, after, p, p.Writes(), stored) && Some(state) == ReadAt(after, writes[k].path)
    ensures |stored| == |writes| - 1
    ensures CommitEffect(first, after, writes, k, stored[..k] + [state] + stored[k..])
  {
    FinishedPaired(after, writes, k, p, state, stored);
    FinishedReadsBack(first, reserved, after, writes, k, p, stored);
    forall path | forall i :: 0 <= i < |writes| ==> writes[i].path != path ensures ReadAt(after, path) == ReadAt(first, path) {
      OtherPathsKept(first, reserved, after, writes, k, p, stored, path);
    }
  }

  /** No ordinary write comes after a release marker. */
  ghost predicate ReleasesLast(writes: seq<ConditionalWrite>) {
    forall i, j :: 0 <= i < j < |writes| && IsRelease(writes[i].path, writes[i].metadata) ==> IsRelease(writes[j].path, writes[j].metadata)
  }

  lemma LastIsRelease(rest: seq<ConditionalWrite>, last: ConditionalWrite)
    requires IsRelease(last.path, last.metadata)
    ensures Arranged(rest + [last]) == Arranged(rest) + [last]
    ensures ReleasesLast(rest + [last]) <==> ReleasesLast(rest)
  {
    var writes := rest + [last];
    assert writes[..|rest|] == rest;
    assert forall i :: 0 <= i < |rest| ==> rest[i] == writes[i];
  }

  lemma LastIsOrdinary(rest: seq<ConditionalWrite>, last: ConditionalWrite)
    requires !IsRelease(last.path, last.metadata)
    ensures Arranged(rest + [last]) == Ordinary(rest) + [last] + Releases(rest)
    ensures ReleasesLast(rest + [last]) <==> Releases(rest) == []
  {
    var writes := rest + [last];
    assert writes[..|rest|] == rest;
    Split(rest);
    if Releases(rest) != [] {
      assert Releases(rest)[0] in Releases(rest);
      var i :| 0 <= i < |rest| && rest[i] == Releases(rest)[0];
      assert IsRelease(writes[i].path, writes[i].metadata) && writes[|rest|] == last;
    } else {
      forall i | 0 <= i < |writes| ensures !IsRelease(writes[i].path, writes[i].metadata) {
        if i < |rest| {
          assert writes[i] == rest[i] && rest[i] in rest;
        }
      }
    }
  }

  /** Results are paired with writes by position, which pairs each write with its own object exactly when the
      caller lists release markers last. */
  lemma {:induction false} ArrangedInPlaceExactly(writes: seq<ConditionalWrite>)
    ensures Arranged(writes) == writes <==> ReleasesLast(writes)
    decreases |writes|
  {
    if writes != [] {
      var rest, last := writes[..|writes| - 1], writes[|writes| - 1];
      assert writes == rest + [last];
      ArrangedInPlaceExactly(rest);
      Split(rest);
      if IsRelease(last.path, last.metadata) {
        LastIsRelease(rest, last);
        assert (Arranged(rest) + [last])[..|rest|] == Arranged(rest);
      } else {
        LastIsOrdinary(rest, last);
        if Releases(rest) == [] {
          assert Arranged(rest) == Ordinary(rest);
          NoReleases(rest);
        } else {
          var r := Releases(rest)[|Releases(rest)| - 1];
          assert r in Releases(rest);
          assert Arranged(writes)[|rest|] == r;
        }
      }
    }
  }

  lemma {:induction false} NoReleases(writes: seq<ConditionalWrite>)
    requires Releases(writes) == []
    ensures Ordinary(writes) == writes
    decreases |writes|
  {
    if writes != [] {
      NoReleases(writes[..|writes| - 1]);
    }
  }

  // ---------------------------------------------------------------- against the atomic store

  /** The generation a reader sees at `path`. */
  function GenerationAt(world: World, path: Path): Option<nat> {
    if IsStatePath(path) then ActiveGeneration(world.Record(path.doc)) else world.Generation(Object(path))
  }

  /** What an atomic store with the same contents would admit: every precondition holds. */
  predicate AdmittedAtomically(world: World, writes: seq<ConditionalWrite>) {
    forall i :: 0 <= i < |writes| ==> Holds(writes[i].precondition, GenerationAt(world, writes[i].path))
  }

  /** A write whose precondition fails, to a destination that already carries it. */
  predicate StaleButCarried(world: World, w: ConditionalWrite) {
    && !Holds(w.precondition, world.Generation(Object(w.path)))
    && Object(w.path) in world.objects && world.objects[Object(w.path)].bytes == w.bytes
    && world.objects[Object(w.path)].tag == UserTag(w.metadata)
  }

  /** Where the outbox departs from the atomic specification, in any world: it accepts whatever the atomic store
      admits, and beyond that exactly the commits some of whose object writes are stale but carried already while
      the state precondition and all the other preconditions hold. */
  lemma AcceptsBeyondExactly(world: World, writes: seq<ConditionalWrite>, k: nat)
    requires OneState(writes, k)
    ensures AdmittedAtomically(world, writes) ==> Accepts(world, writes, k)
    ensures Accepts(world, writes, k) && !AdmittedAtomically(world, writes) <==>
            && Holds(writes[k].precondition, GenerationAt(world, writes[k].path))
            && (forall i :: 0 <= i < |writes| && i != k ==>
                  Holds(writes[i].precondition, GenerationAt(world, writes[i].path)) || StaleButCarried(world, writes[i]))
            && (exists i :: 0 <= i < |writes| && i != k && StaleButCarried(world, writes[i]))
  {
    var others := Others(writes, k);
    forall i | 0 <= i < |writes| && i != k ensures writes[i] in others {
      assert others[if i < k then i else i - 1] == writes[i];
    }
    forall w | w in others ensures exists i :: 0 <= i < |writes| && i != k && writes[i] == w {
      var j :| 0 <= j < |others| && others[j] == w;
      assert writes[if j < k then j else j + 1] == w;
    }
  }
}
