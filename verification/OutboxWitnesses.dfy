/** Runs that show what the outbox does not promise: two workers on one document can strand a published commit, and a
    stale precondition can be accepted. */
module OutboxWitnesses {
  import opened Wrappers
  import opened Model
  import opened Storage
  import opened Outbox
  import opened OutboxRuns
  import opened OutboxProgress
  import opened OutboxEffects
  import opened OutboxFacts

  lemma OneMore(r: Run, op: Op) returns (next: Run)
    requires IsRun(r) && Enabled(Now(r), op)
    ensures IsRun(next) && next.ops == r.ops + [op] && Now(next) == Apply(Now(r), op) && Continues(r, next)
  {
    ExtendedIsRun(r, op);
    next := Extended(r, op);
  }

  // ---------------------------------------------------------------- stranded

  /** A stranded commit stays stranded for the rest of the run, unless a worker that had its own copy uses it. */
  lemma {:induction false} StrandedForever(r: Run, j: nat, i: nat, d: DocumentId)
    requires IsRun(r) && j <= i < |r.worlds| && Stranded(r.worlds[j], d)
    requires forall k :: j <= k < i ==> !(r.ops[k].Save? && r.ops[k].p.documentId == d) && !(r.ops[k].Complete? && r.ops[k].p.documentId == d)
    ensures Stranded(r.worlds[i], d) && r.worlds[i].Record(d) == r.worlds[j].Record(d)
    decreases i
  {
    if j < i {
      StrandedForever(r, j, i - 1, d);
      RunOk(r, i - 1);
      assert StepTaken(r, i - 1);
      StrandedStays(r.worlds[i - 1], r.ops[i - 1], d);
    }
  }

  /** What a resolution commits: a view for each device, its marker, and the first canonical state. */
  function ResolutionCommit(d: DocumentId, e: EventId, fileName: string, contents: (Blob, Blob, Blob, Blob), plain: Metadata, signal: Metadata)
    : CommitId
  {
    CommitId(d, ConditionalWrite(StatePath(d), contents.0, plain, DoesNotExist), [
               ConditionalWrite(BooxView(d, fileName), contents.1, plain, DoesNotExist),
               ConditionalWrite(SupernoteManifest(d, e), contents.2, plain, DoesNotExist),
               ConditionalWrite(ResolutionMarker(d, e), contents.3, signal, DoesNotExist)])
  }

  /** Two ordinary writes and one marker, to distinct new destinations. */
  ghost predicate TwoViewsAndMarker(c: CommitId) {
    && |c.objectWrites| == 3 && c.stateWrite.path == StatePath(c.documentId) && c.stateWrite.precondition == DoesNotExist
    && DistinctDestinations(c)
    && (forall i :: 0 <= i < 3 ==> c.objectWrites[i].precondition == DoesNotExist)
    && (forall i :: 0 <= i < 3 ==> (IsRelease(c.objectWrites[i].path, c.objectWrites[i].metadata) <==> i == 2))
  }

  /** The payload staged `generation`-th. */
  function StagedRef(key: Key, generation: nat): PayloadRef
    requires PayloadBytes(key).Some?
  {
    PayloadRef(key, generation, Sha256(PayloadBytes(key).value))
  }

  function StagedWrite(c: CommitId, i: nat): OutboxWrite
    requires i < |c.objectWrites|
  {
    OutboxWrite(c.objectWrites[i].path, StagedRef(Key.WritePayload(c, i), i + 2), c.objectWrites[i].metadata, c.objectWrites[i].precondition)
  }

  /** The copy both workers hold once the commit is reserved. */
  function Copy(c: CommitId): PendingCommit
    requires |c.objectWrites| == 3
  {
    PendingCommit(
      c, c.documentId,
      OutboxWrite(c.stateWrite.path, StagedRef(StatePayload(c), 1), c.stateWrite.metadata, c.stateWrite.precondition),
      [StagedWrite(c, 0), StagedWrite(c, 1)], [StagedWrite(c, 2)], map[])
  }

  function StagedWorlds(c: CommitId): World
    requires |c.objectWrites| == 3
  {
    StagedWorld(StagedWorld(StagedWorld(StagedWorld(EMPTY_WORLD, StatePayload(c)), Key.WritePayload(c, 0)), Key.WritePayload(c, 1)), Key.WritePayload(c, 2))
  }

  lemma CopyWellFormed(c: CommitId)
    requires TwoViewsAndMarker(c)
    ensures WellFormed(Copy(c))
  {
    var ws := c.objectWrites;
    assert ws == [ws[0], ws[1], ws[2]];
    assert ws[..2] == [ws[0], ws[1]] && ws[..2][..1] == [ws[0]] && ws[..2][..1][..0] == [];
    assert Ordinary([ws[0]]) == [ws[0]] && Releases([ws[0]]) == [] by {
      assert [ws[0]][..0] == [];
    }
    assert Ordinary([ws[0], ws[1]]) == [ws[0], ws[1]] && Releases([ws[0], ws[1]]) == [] by {
      assert [ws[0], ws[1]][..1] == [ws[0]];
    }
    assert Ordinary(ws) == [ws[0], ws[1]] && Releases(ws) == [ws[2]];
  }

  lemma StagingRun(c: CommitId) returns (r: Run)
    requires TwoViewsAndMarker(c)
    ensures IsRun(r) && |r.ops| == 4 && Now(r) == StagedWorlds(c)
  {
    r := OneMore(NEW_RUN, Stage(StatePayload(c)));
    r := OneMore(r, Stage(Key.WritePayload(c, 0)));
    r := OneMore(r, Stage(Key.WritePayload(c, 1)));
    r := OneMore(r, Stage(Key.WritePayload(c, 2)));
  }

  lemma ReservedRun(c: CommitId) returns (r: Run)
    requires TwoViewsAndMarker(c)
    ensures IsRun(r) && |r.ops| == 5 && Now(r) == ReservedWorld(StagedWorlds(c), Copy(c))
  {
    r := StagingRun(c);
    CopyWellFormed(c);
    StagedReadable(c);
    r := OneMore(r, Reserve(Copy(c)));
  }

  lemma StagedReadable(c: CommitId)
    requires TwoViewsAndMarker(c)
    ensures Readable(StagedWorlds(c), Copy(c).stateWrite.payload)
    ensures forall w :: w in Copy(c).Writes() ==> Readable(StagedWorlds(c), w.payload)
  {
  }

  /** A worker with the record's copy delivers one more new object and saves that it did. */
  lemma DeliverAndSave(r: Run, p: PendingCommit, w: OutboxWrite) returns (next: Run, q: PendingCommit)
    requires IsRun(r) && Known(Now(r), p) && Now(r).Record(p.documentId).pending == Some(p)
    requires w in p.objectWrites && w.precondition == DoesNotExist && Object(w.path) !in Now(r).objects
    ensures IsRun(next) && |next.ops| == |r.ops| + 2 && Continues(r, next)
    ensures q == p.(delivered := q.delivered) && q.delivered.Keys == p.delivered.Keys + {w.path}
    ensures Known(Now(next), q) && Now(next).Record(p.documentId) == Now(r).Record(p.documentId).(pending := Some(q))
    ensures Now(next).Published(p.documentId) == Now(r).Published(p.documentId)
    ensures forall path :: path != w.path ==> Untouched(Now(r), Now(next), Object(path))
  {
    var delivered;
    delivered, q := DeliverOne(r, p, w);
    ReservedNamed(delivered, p);
    next := OneMore(delivered, Save(q));
    KnownLater(delivered, next, q);
    ContinuesTransitive(r, delivered, next);
  }

  lemma DeliverOne(r: Run, p: PendingCommit, w: OutboxWrite) returns (next: Run, q: PendingCommit)
    requires IsRun(r) && Known(Now(r), p) && w in p.objectWrites && w.precondition == DoesNotExist && Object(w.path) !in Now(r).objects
    ensures IsRun(next) && |next.ops| == |r.ops| + 1 && Continues(r, next)
    ensures q == p.(delivered := q.delivered) && q.delivered.Keys == p.delivered.Keys + {w.path}
    ensures Known(Now(next), p) && Known(Now(next), q)
    ensures Now(next).records == Now(r).records && Now(next).published == Now(r).published
    ensures forall path :: path != w.path ==> Untouched(Now(r), Now(next), Object(path))
  {
    next := OneMore(r, Deliver(p, w));
    KnownLater(r, next, p);
    var stored := Now(next).objects[Object(w.path)];
    q := WithDelivery(p, w, stored);
    ObjectIsVersion(next, Object(w.path));
    assert Known(Now(next), q) by {
      NowOk(next);
      DeliveryKnown(Now(next), p, w, stored);
    }
  }

  /** The first worker delivers and saves both views; `q` is its copy after the first, which the second worker, having
      joined the reservation, reaches too when it finds the first view delivered. */
  lemma DeliveredRun(c: CommitId) returns (r: Run, q: PendingCommit, p: PendingCommit)
    requires TwoViewsAndMarker(c)
    ensures IsRun(r) && |r.ops| == 9 && Known(Now(r), q) && Known(Now(r), p)
    ensures q == Copy(c).(delivered := q.delivered) && q.delivered.Keys == {c.objectWrites[0].path}
    ensures p == Copy(c).(delivered := p.delivered) && p.delivered.Keys == {c.objectWrites[0].path, c.objectWrites[1].path}
    ensures Now(r).Record(c.documentId) == StateRecord(None, Some(p)) && Object(c.objectWrites[2].path) !in Now(r).objects
  {
    var start := ReservedRun(c);
    StagedReadable(c);
    var r1;
    r1, q := DeliverAndSave(start, Copy(c), StagedWrite(c, 0));
    r, p := DeliverAndSave(r1, q, StagedWrite(c, 1));
    KnownLater(r1, r, q);
  }

  /** Two workers can strand a commit: the first publishes it, and the second, which had got through the first view
      only, saves its copy and stops. From then on recovery fails, for ever. */
  lemma TwoWorkersStrand(c: CommitId) returns (r: Run, q: PendingCommit)
    requires TwoViewsAndMarker(c)
    ensures IsRun(r) && |r.ops| == 11 && r.ops[10] == Save(q) && IsPublished(r.worlds[10], c)
    ensures DeliveredFirst(q, 1) && |q.objectWrites| == 2
    ensures Now(r).Record(c.documentId).pending == Some(q) && Stranded(Now(r), c.documentId) && !Deliverable(Now(r), q)
  {
    var delivered, p;
    delivered, q, p := DeliveredRun(c);
    var published := OneMore(delivered, Finalize(p));
    KnownLater(delivered, published, q);
    r := OneMore(published, Save(q));
    assert q.objectWrites[0].path == c.objectWrites[0].path && q.objectWrites[1].path == c.objectWrites[1].path;
    assert q.objectWrites[1] in q.objectWrites && q.objectWrites[1].path !in q.delivered;
    assert r.worlds[10] == Now(published);
  }

  /** A resolution is such a commit, whatever it writes. */
  lemma ResolutionStrands(d: DocumentId, e: EventId, fileName: string, contents: (Blob, Blob, Blob, Blob), plain: Metadata, signal: Metadata)
    returns (r: Run)
    requires signal.kind == Some("conflict-resolution")
    ensures IsRun(r) && Stranded(Now(r), d)
  {
    var q;
    r, q := TwoWorkersStrand(ResolutionCommit(d, e, fileName, contents, plain, signal));
  }

  // ---------------------------------------------------------------- accepted beyond the atomic store

  /** A device writes the same view twice; a commit planned after the first write names its generation, which is gone,
      and the outbox accepts it. */
  lemma StalePreconditionReached(name: string, bytes: Blob, metadata: Metadata, d: DocumentId, state: Blob)
    returns (r: Run, writes: seq<ConditionalWrite>)
    requires d != ""
    ensures IsRun(r) && OneState(writes, 1)
    ensures writes[0] == ConditionalWrite(DeviceFile(Boox, name), bytes, metadata, Match(1))
    ensures Accepts(Now(r), writes, 1) && !AdmittedAtomically(Now(r), writes) && StaleButCarried(Now(r), writes[0])
  {
    var path := DeviceFile(Boox, name);
    r := OneMore(NEW_RUN, Edit(path, bytes, metadata));
    r := OneMore(r, Edit(path, bytes, metadata));
    writes := [ConditionalWrite(path, bytes, metadata, Match(1)), ConditionalWrite(StatePath(d), state, metadata, DoesNotExist)];
    assert Others(writes, 1) == [writes[0]] && IsStatePath(writes[1].path);
    AcceptsBeyondExactly(Now(r), writes, 1);
  }
}
