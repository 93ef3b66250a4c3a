/** inkbridge-cloud-runtime/src/outbox.rs: the records and objects of the cloud outbox, and every atomic
    call a worker or a device can make on them.

    One broker commit of several objects is simulated over a store with single-object conditional writes:
    payloads are staged under their own keys, the commit is reserved in the document's record, each
    destination is delivered, the state is published, the release markers are delivered, and the payloads
    are dropped. A World is everything that survives a crash. */
module Outbox {
  import opened Wrappers
  import opened Model
  import opened Storage

  // ---------------------------------------------------------------- records and objects

  /** The digest that names a commit covers the document and every write, so it is those writes. */
  datatype CommitId = CommitId(documentId: DocumentId, stateWrite: ConditionalWrite, objectWrites: seq<ConditionalWrite>)

  datatype Key =
    | Object(path: Path)
    | StatePayload(commit: CommitId)
    | WritePayload(commit: CommitId, index: nat)

  datatype Tag = UserTag(metadata: Metadata) | PayloadTag(commit: CommitId, contentSha256: Digest)

  datatype Stored = Stored(bytes: Blob, generation: nat, tag: Tag)

  datatype PayloadRef = PayloadRef(path: Key, generation: nat, contentSha256: Digest)

  datatype OutboxWrite = OutboxWrite(path: Path, payload: PayloadRef, metadata: Metadata, precondition: GenerationPrecondition) {
    function Bytes(): Blob {
      payload.contentSha256.preimage
    }
  }

  datatype ActiveState = ActiveState(payload: PayloadRef, generation: nat, metadata: Metadata)

  datatype PendingCommit = PendingCommit(
    commitId: CommitId,
    documentId: DocumentId,
    stateWrite: OutboxWrite,
    objectWrites: seq<OutboxWrite>,
    releaseWrites: seq<OutboxWrite>,
    delivered: map<Path, PayloadRef>)
  {
    function Writes(): seq<OutboxWrite> {
      objectWrites + releaseWrites
    }
  }

  datatype StateRecord = StateRecord(active: Option<ActiveState>, pending: Option<PendingCommit>)

  const NO_RECORD := StateRecord(None, None)

  /** `reserved` and `published` are bookkeeping no call reads: the first reservation of every commit, and
      the commits each document has published, in order. */
  datatype World = World(
    objects: map<Key, Stored>,
    versions: map<(Key, nat), Stored>,
    nextGeneration: nat,
    records: map<DocumentId, StateRecord>,
    reserved: map<CommitId, PendingCommit>,
    published: map<DocumentId, seq<CommitId>>)
  {
    function Record(d: DocumentId): StateRecord {
      if d in records then records[d] else NO_RECORD
    }

    function Published(d: DocumentId): seq<CommitId> {
      if d in published then published[d] else []
    }

    function Generation(k: Key): Option<nat> {
      if k in objects then Some(objects[k].generation) else None
    }

    function Put(k: Key, bytes: Blob, tag: Tag): World {
      var stored := Stored(bytes, nextGeneration + 1, tag);
      this.(objects := objects[k := stored], versions := versions[(k, nextGeneration + 1) := stored], nextGeneration := nextGeneration + 1)
    }

    function WithRecord(d: DocumentId, record: StateRecord): World {
      this.(records := records[d := record])
    }
  }

  const EMPTY_WORLD := World(map[], map[], 0, map[], map[], map[])

  /** What a payload key holds is fixed by the key. */
  function PayloadBytes(k: Key): Option<Blob> {
    match k
    case Object(_) => None
    case StatePayload(c) => Some(c.stateWrite.bytes)
    case WritePayload(c, i) => if i < |c.objectWrites| then Some(c.objectWrites[i].bytes) else None
  }

  /** A conflict-resolution marker: the externally visible signal that a conflict is settled. */
  predicate IsRelease(path: Path, metadata: Metadata) {
    path.ResolutionMarker? && metadata.kind == Some("conflict-resolution")
  }

  // ---------------------------------------------------------------- the state store's calls

  predicate Published(record: StateRecord, p: PendingCommit) {
    && record.active.Some?
    && record.active.value.payload == p.stateWrite.payload
    && record.active.value.metadata == p.stateWrite.metadata
  }

  predicate AllDelivered(p: PendingCommit, writes: seq<OutboxWrite>) {
    forall w :: w in writes ==> w.path in p.delivered
  }

  predicate Owns(record: StateRecord, p: PendingCommit) {
    record.pending.Some? && record.pending.value.commitId == p.commitId
  }

  function ActiveGeneration(record: StateRecord): Option<nat> {
    if record.active.Some? then Some(record.active.value.generation) else None
  }

  function Finalized(record: StateRecord, p: PendingCommit): StateRecord {
    var generation := if record.active.Some? then record.active.value.generation + 1 else 1;
    StateRecord(Some(ActiveState(p.stateWrite.payload, generation, p.stateWrite.metadata)),
                if p.releaseWrites == [] then None else record.pending)
  }

  // ---------------------------------------------------------------- one call, by anyone

  datatype Op =
    | Edit(path: Path, bytes: Blob, metadata: Metadata)   // a device writes in its folder
    | Stage(key: Key)                                     // a payload is written under its own key
    | Reserve(p: PendingCommit)
    | Deliver(p: PendingCommit, w: OutboxWrite)           // a destination is conditionally written
    | Save(p: PendingCommit)
    | Finalize(p: PendingCommit)
    | Complete(p: PendingCommit)
    | Drop(c: CommitId, index: nat, generation: nat)      // a delivered payload is deleted

  /** The commit's ordinary writes, in order. */
  function Ordinary(writes: seq<ConditionalWrite>): seq<ConditionalWrite>
    decreases |writes|
  {
    if writes == [] then []
    else
      var w := writes[|writes| - 1];
      Ordinary(writes[..|writes| - 1]) + (if IsRelease(w.path, w.metadata) then [] else [w])
  }

  /** The commit's release markers, in order. */
  function Releases(writes: seq<ConditionalWrite>): seq<ConditionalWrite>
    decreases |writes|
  {
    if writes == [] then []
    else
      var w := writes[|writes| - 1];
      Releases(writes[..|writes| - 1]) + (if IsRelease(w.path, w.metadata) then [w] else [])
  }

  predicate Stages(c: CommitId, w: OutboxWrite, write: ConditionalWrite) {
    && w.path == write.path && w.metadata == write.metadata && w.precondition == write.precondition
    && w.payload.path.WritePayload? && w.payload.path.commit == c && w.payload.contentSha256 == Sha256(write.bytes)
  }

  predicate StagesAll(c: CommitId, staged: seq<OutboxWrite>, writes: seq<ConditionalWrite>) {
    |staged| == |writes| && forall i :: 0 <= i < |writes| ==> Stages(c, staged[i], writes[i])
  }

  predicate DistinctDestinations(c: CommitId) {
    DistinctPaths(c.objectWrites)
  }

  predicate StatePart(p: PendingCommit) {
    && p.documentId == p.commitId.documentId
    && p.stateWrite.payload.path == StatePayload(p.commitId)
    && p.stateWrite.payload.contentSha256 == Sha256(p.commitId.stateWrite.bytes)
    && p.stateWrite.metadata == p.commitId.stateWrite.metadata
    && p.stateWrite.precondition == p.commitId.stateWrite.precondition
  }

  /** `p` is its commit's staged form: its ordinary writes, then its release markers. */
  predicate WellFormed(p: PendingCommit) {
    && StatePart(p)
    && DistinctDestinations(p.commitId)
    && StagesAll(p.commitId, p.objectWrites, Ordinary(p.commitId.objectWrites))
    && StagesAll(p.commitId, p.releaseWrites, Releases(p.commitId.objectWrites))
  }

  /** The two lists split the commit's writes by kind. */
  lemma {:induction false} Split(writes: seq<ConditionalWrite>)
    ensures forall w :: w in Ordinary(writes) <==> w in writes && !IsRelease(w.path, w.metadata)
    ensures forall w :: w in Releases(writes) <==> w in writes && IsRelease(w.path, w.metadata)
    ensures |Ordinary(writes)| + |Releases(writes)| == |writes|
    decreases |writes|
  {
    if writes != [] {
      Split(writes[..|writes| - 1]);
      assert writes == writes[..|writes| - 1] + [writes[|writes| - 1]];
    }
  }

  /** What each staged write stages. */
  lemma StagedWrites(p: PendingCommit)
    requires WellFormed(p)
    ensures forall w :: w in p.objectWrites ==>
              !IsRelease(w.path, w.metadata) && exists k :: 0 <= k < |p.commitId.objectWrites| && Stages(p.commitId, w, p.commitId.objectWrites[k])
    ensures forall w :: w in p.releaseWrites ==>
              IsRelease(w.path, w.metadata) && exists k :: 0 <= k < |p.commitId.objectWrites| && Stages(p.commitId, w, p.commitId.objectWrites[k])
  {
    var c := p.commitId;
    Split(c.objectWrites);
    forall w | w in p.objectWrites
      ensures !IsRelease(w.path, w.metadata) && exists k :: 0 <= k < |c.objectWrites| && Stages(c, w, c.objectWrites[k])
    {
      var i :| 0 <= i < |p.objectWrites| && p.objectWrites[i] == w;
      var write := Ordinary(c.objectWrites)[i];
      assert write in Ordinary(c.objectWrites);
      var k :| 0 <= k < |c.objectWrites| && c.objectWrites[k] == write;
    }
    forall w | w in p.releaseWrites
      ensures IsRelease(w.path, w.metadata) && exists k :: 0 <= k < |c.objectWrites| && Stages(c, w, c.objectWrites[k])
    {
      var i :| 0 <= i < |p.releaseWrites| && p.releaseWrites[i] == w;
      var write := Releases(c.objectWrites)[i];
      assert write in Releases(c.objectWrites);
      var k :| 0 <= k < |c.objectWrites| && c.objectWrites[k] == write;
    }
  }

  lemma {:induction false} SplitApart(writes: seq<ConditionalWrite>)
    requires DistinctPaths(writes)
    ensures DistinctPaths(Ordinary(writes)) && DistinctPaths(Releases(writes))
    decreases |writes|
  {
    if writes != [] {
      SplitApart(writes[..|writes| - 1]);
      Split(writes[..|writes| - 1]);
    }
  }

  /** An ordinary write and a release marker go to different destinations. */
  lemma KindsApart(writes: seq<ConditionalWrite>, i: nat, j: nat)
    requires DistinctPaths(writes) && i < |Ordinary(writes)| && j < |Releases(writes)|
    ensures Ordinary(writes)[i].path != Releases(writes)[j].path
  {
    Split(writes);
    assert Ordinary(writes)[i] in Ordinary(writes) && Releases(writes)[j] in Releases(writes);
    var a :| 0 <= a < |writes| && writes[a] == Ordinary(writes)[i];
    var b :| 0 <= b < |writes| && writes[b] == Releases(writes)[j];
  }

  /** No two staged writes go to the same destination. */
  lemma DestinationsApart(p: PendingCommit)
    requires WellFormed(p)
    ensures forall i, j :: 0 <= i < j < |p.Writes()| ==> p.Writes()[i].path != p.Writes()[j].path
  {
    var writes, m := p.commitId.objectWrites, |p.objectWrites|;
    SplitApart(writes);
    forall i, j | 0 <= i < j < |p.Writes()| ensures p.Writes()[i].path != p.Writes()[j].path {
      if j < m {
        assert Stages(p.commitId, p.objectWrites[i], Ordinary(writes)[i]) && Stages(p.commitId, p.objectWrites[j], Ordinary(writes)[j]);
      } else if i < m {
        KindsApart(writes, i, j - m);
        assert Stages(p.commitId, p.objectWrites[i], Ordinary(writes)[i]) && Stages(p.commitId, p.releaseWrites[j - m], Releases(writes)[j - m]);
      } else {
        assert Stages(p.commitId, p.releaseWrites[i - m], Releases(writes)[i - m]) && Stages(p.commitId, p.releaseWrites[j - m], Releases(writes)[j - m]);
      }
    }
  }

  /** The payload behind a reference is readable and is what the reference says. */
  predicate Readable(world: World, payload: PayloadRef) {
    && (payload.path, payload.generation) in world.versions
    && Sha256(world.versions[(payload.path, payload.generation)].bytes) == payload.contentSha256
  }

  /** Object `o` is what `w` was to deliver. */
  predicate Carries(o: Stored, w: OutboxWrite) {
    o.bytes == w.Bytes() && o.tag == UserTag(w.metadata)
  }

  /** Every delivery entry of `p` names a version that carries the write. */
  predicate DeliveriesReal(world: World, p: PendingCommit) {
    forall w :: w in p.Writes() && w.path in p.delivered ==>
                  && (Object(w.path), p.delivered[w.path].generation) in world.versions
                  && Carries(world.versions[(Object(w.path), p.delivered[w.path].generation)], w)
  }

  /** `p` is a working copy of a reserved commit. */
  predicate Known(world: World, p: PendingCommit) {
    && p.commitId in world.reserved
    && p.(delivered := map[]) == world.reserved[p.commitId]
    && DeliveriesReal(world, p)
  }

  predicate IsPublished(world: World, c: CommitId) {
    c in world.Published(c.documentId)
  }

  // Which calls a program may make. The first conjuncts of each are checked by the call itself; the rest is
  // what the worker guarantees about its arguments.

  predicate CanReserve(world: World, p: PendingCommit) {
    && world.Record(p.documentId).pending.None?
    && Holds(p.stateWrite.precondition, ActiveGeneration(world.Record(p.documentId)))
    && WellFormed(p) && p.delivered == map[]
    && Readable(world, p.stateWrite.payload)
    && (forall w :: w in p.Writes() ==> Readable(world, w.payload) || IsPublished(world, p.commitId))
  }

  predicate CanDeliver(world: World, p: PendingCommit, w: OutboxWrite) {
    && Holds(w.precondition, world.Generation(Object(w.path)))
    && Known(world, p)
    && (w in p.objectWrites || (w in p.releaseWrites && IsPublished(world, p.commitId)))
  }

  predicate CanSave(world: World, p: PendingCommit) {
    Owns(world.Record(p.documentId), p) && Known(world, p)
  }

  predicate CanFinalize(world: World, p: PendingCommit) {
    Owns(world.Record(p.documentId), p) && AllDelivered(p, p.objectWrites) && Known(world, p)
  }

  predicate CanComplete(world: World, p: PendingCommit) {
    && Owns(world.Record(p.documentId), p) && Published(world.Record(p.documentId), p)
    && AllDelivered(p, p.releaseWrites) && Known(world, p)
  }

  predicate IsPending(world: World, c: CommitId) {
    world.Record(c.documentId).pending.Some? && world.Record(c.documentId).pending.value.commitId == c
  }

  /** Published and no longer pending: nobody needs its payloads any more. */
  predicate Retired(world: World, c: CommitId) {
    IsPublished(world, c) && !IsPending(world, c)
  }

  predicate Enabled(world: World, op: Op) {
    match op
    case Edit(path, _, _) => InDeviceFolder(path)
    case Stage(key) => key !in world.objects && PayloadBytes(key).Some?
    case Reserve(p) => CanReserve(world, p)
    case Deliver(p, w) => CanDeliver(world, p, w)
    case Save(p) => CanSave(world, p)
    case Finalize(p) => CanFinalize(world, p)
    case Complete(p) => CanComplete(world, p)
    case Drop(c, _, _) => Retired(world, c)
  }

  function Apply(world: World, op: Op): World
    requires Enabled(world, op)
  {
    match op
    case Edit(path, bytes, metadata) => world.Put(Object(path), bytes, UserTag(metadata))
    case Stage(key) => StagedWorld(world, key)
    case Reserve(p) => ReservedWorld(world, p)
    case Deliver(_, w) => world.Put(Object(w.path), w.Bytes(), UserTag(w.metadata))
    case Save(p) => SavedWorld(world, p)
    case Finalize(p) => if Published(world.Record(p.documentId), p) then world else PublishedWorld(world, p)
    case Complete(p) => CompletedWorld(world, p)
    case Drop(c, index, generation) => DroppedWorld(world, WritePayload(c, index), generation)
  }

  function ReservedWorld(world: World, p: PendingCommit): World {
    SavedWorld(world, p).(reserved := world.reserved[p.commitId := p])
  }

  function SavedWorld(world: World, p: PendingCommit): World {
    world.WithRecord(p.documentId, world.Record(p.documentId).(pending := Some(p)))
  }

  function PublishedWorld(world: World, p: PendingCommit): World {
    world.WithRecord(p.documentId, Finalized(world.Record(p.documentId), p)).(
    published := world.published[p.documentId := world.Published(p.documentId) + [p.commitId]])
  }

  function CompletedWorld(world: World, p: PendingCommit): World {
    world.WithRecord(p.documentId, world.Record(p.documentId).(pending := None))
  }

  function StagedWorld(world: World, key: Key): World
    requires PayloadBytes(key).Some?
  {
    world.Put(key, PayloadBytes(key).value, PayloadTag(key.commit, Sha256(PayloadBytes(key).value)))
  }

  function DroppedWorld(world: World, key: Key, generation: nat): World {
    world.(objects := if key in world.objects && world.objects[key].generation == generation then world.objects - {key} else world.objects,
    versions := world.versions - {(key, generation)})
  }
}
