/** The outbox as it runs: the object store, the canonical state store, and CloudBrokerStorage, whose
    methods are verified with arbitrary calls by other workers and devices before each of their own calls,
    and with a crash possible at every call.

    `run` is the history of every call made so far. Keeping it a run (OutboxRuns.IsRun) through every
    method is what makes the theorems about runs theorems about this code. */
module CloudStorage {
  import opened Wrappers
  import opened Model
  import opened Storage
  import opened Outbox
  import opened OutboxRuns
  import opened OutboxProgress
  import opened OutboxFacts
  import opened OutboxEffects

  class MemoryObjectStore {
    var objects: map<Key, Stored>
    var versions: map<(Key, nat), Stored>
    var nextGeneration: nat

    constructor ()
      ensures objects == map[] && versions == map[] && nextGeneration == 0
    {
      objects, versions, nextGeneration := map[], map[], 0;
    }

    method Read(k: Key) returns (r: Option<Stored>)
      ensures r == if k in objects then Some(objects[k]) else None
    {
      r := if k in objects then Some(objects[k]) else None;
    }

    method ReadGeneration(k: Key, generation: nat) returns (r: Option<Stored>)
      ensures r == if (k, generation) in versions then Some(versions[(k, generation)]) else None
    {
      r := if (k, generation) in versions then Some(versions[(k, generation)]) else None;
    }

    method ConditionalWrite(k: Key, bytes: Blob, tag: Tag, precondition: GenerationPrecondition) returns (r: Result<Stored, string>)
      modifies this
      ensures r.Success? <==> Holds(precondition, if k in old(objects) then Some(old(objects)[k].generation) else None)
      ensures r.Success? ==>
                && r.value == Stored(bytes, old(nextGeneration) + 1, tag)
                && nextGeneration == old(nextGeneration) + 1
                && objects == old(objects)[k := r.value]
                && versions == old(versions)[(k, nextGeneration) := r.value]
      ensures r.Failure? ==> unchanged(this)
    {
      var actual := if k in objects then Some(objects[k].generation) else None;
      if !Holds(precondition, actual) {
        return Failure("object generation precondition failed");
      }
      nextGeneration := nextGeneration + 1;
      var written := Stored(bytes, nextGeneration, tag);
      objects := objects[k := written];
      versions := versions[(k, nextGeneration) := written];
      r := Success(written);
    }

    method DeleteGeneration(k: Key, generation: nat)
      modifies this
      ensures nextGeneration == old(nextGeneration) && versions == old(versions) - {(k, generation)}
      ensures objects == if k in old(objects) && old(objects)[k].generation == generation then old(objects) - {k} else old(objects)
    {
      if k in objects && objects[k].generation == generation {
        objects := objects - {k};
      }
      versions := versions - {(k, generation)};
    }
  }

  class MemoryCanonicalStateStore {
    var records: map<DocumentId, StateRecord>
    var reserved: map<CommitId, PendingCommit>
    var published: map<DocumentId, seq<CommitId>>

    constructor ()
      ensures records == map[] && reserved == map[] && published == map[]
    {
      records, reserved, published := map[], map[], map[];
    }

    function Record(d: DocumentId): StateRecord
      reads this
    {
      if d in records then records[d] else NO_RECORD
    }

    method Load(d: DocumentId) returns (record: StateRecord)
      ensures record == Record(d)
    {
      record := if d in records then records[d] else NO_RECORD;
    }

    method Reserve(p: PendingCommit) returns (r: Result<PendingCommit, string>)
      modifies this
      ensures var record := old(Record(p.documentId));
              if record.pending.Some? then
                unchanged(this) && (if Owns(record, p) then r == Success(record.pending.value) else r.Failure?)
              else if !Holds(p.stateWrite.precondition, ActiveGeneration(record)) then unchanged(this) && r.Failure?
              else && r == Success(p)
                   && records == old(records)[p.documentId := record.(pending := Some(p))]
                   && reserved == old(reserved)[p.commitId := p] && published == old(published)
    {
      var record := if p.documentId in records then records[p.documentId] else NO_RECORD;
      if record.pending.Some? {
        if record.pending.value.commitId == p.commitId {
          return Success(record.pending.value);
        }
        return Failure("document already has another pending commit");
      }
      if !Holds(p.stateWrite.precondition, ActiveGeneration(record)) {
        return Failure("canonical state generation precondition failed");
      }
      records := records[p.documentId := record.(pending := Some(p))];
      reserved := reserved[p.commitId := p];
      r := Success(p);
    }

    method SavePending(p: PendingCommit) returns (saved: bool)
      modifies this
      ensures saved <==> Owns(old(Record(p.documentId)), p)
      ensures saved ==> && records == old(records)[p.documentId := old(Record(p.documentId)).(pending := Some(p))]
                        && reserved == old(reserved) && published == old(published)
      ensures !saved ==> unchanged(this)
    {
      var record := if p.documentId in records then records[p.documentId] else NO_RECORD;
      saved := record.pending.Some? && record.pending.value.commitId == p.commitId;
      if saved {
        records := records[p.documentId := record.(pending := Some(p))];
      }
    }

    method Finalize(p: PendingCommit) returns (r: Result<ActiveState, string>)
      modifies this
      ensures var record := old(Record(p.documentId));
              if !(Owns(record, p) && AllDelivered(p, p.objectWrites)) then r.Failure? && unchanged(this)
              else if Published(record, p) then r == Success(record.active.value) && unchanged(this)
              else && r == Success(Finalized(record, p).active.value)
                   && records == old(records)[p.documentId := Finalized(record, p)]
                   && published == old(published)[p.documentId := (if p.documentId in old(published) then old(published)[p.documentId] else []) + [p.commitId]]
                   && reserved == old(reserved)
    {
      var record := if p.documentId in records then records[p.documentId] else NO_RECORD;
      if record.pending.None? || record.pending.value.commitId != p.commitId {
        return Failure("pending commit was cleared or replaced");
      }
      if exists w :: w in p.objectWrites && w.path !in p.delivered {
        return Failure("cannot publish state before every object is delivered");
      }
      if record.active.Some? && record.active.value.payload == p.stateWrite.payload
         && record.active.value.metadata == p.stateWrite.metadata {
        return Success(record.active.value);
      }
      var generation := if record.active.Some? then record.active.value.generation + 1 else 1;
      var active := ActiveState(p.stateWrite.payload, generation, p.stateWrite.metadata);
      record := record.(active := Some(active));
      if p.releaseWrites == [] {
        record := record.(pending := None);
      }
      records := records[p.documentId := record];
      published := published[p.documentId := (if p.documentId in published then published[p.documentId] else []) + [p.commitId]];
      r := Success(active);
    }

    method Complete(p: PendingCommit) returns (done: bool)
      modifies this
      ensures done <==> && Owns(old(Record(p.documentId)), p) && Published(old(Record(p.documentId)), p)
                        && AllDelivered(p, p.releaseWrites)
      ensures done ==> && records == old(records)[p.documentId := old(Record(p.documentId)).(pending := None)]
                       && reserved == old(reserved) && published == old(published)
      ensures !done ==> unchanged(this)
    {
      var record := if p.documentId in records then records[p.documentId] else NO_RECORD;
      if record.pending.None? || record.pending.value.commitId != p.commitId || record.active.None? {
        return false;
      }
      if record.active.value.payload != p.stateWrite.payload || record.active.value.metadata != p.stateWrite.metadata
         || exists w :: w in p.releaseWrites && w.path !in p.delivered {
        return false;
      }
      records := records[p.documentId := record.(pending := None)];
      done := true;
    }
  }

  class CloudBrokerStorage {
    const objectStore: MemoryObjectStore
    const stateStore: MemoryCanonicalStateStore
    /** In the `alone` regime this is the only worker of `doc`; devices and other documents' workers go on. */
    const doc: DocumentId
    const alone: bool
    /** While `calm`, nobody else acts and no call fails; while `reliable`, no call fails. */
    var calm: bool
    var reliable: bool
    ghost var run: Run

    constructor (doc: DocumentId, alone: bool)
      ensures Valid() && fresh(objectStore) && fresh(stateStore)
      ensures View() == EMPTY_WORLD && this.doc == doc && this.alone == alone && !calm && !reliable
    {
      objectStore := new MemoryObjectStore();
      stateStore := new MemoryCanonicalStateStore();
      this.doc, this.alone, calm, reliable := doc, alone, false, false;
      run := NEW_RUN;
    }

    function View(): World
      reads objectStore, stateStore
    {
      World(objectStore.objects, objectStore.versions, objectStore.nextGeneration,
            stateStore.records, stateStore.reserved, stateStore.published)
    }

    ghost predicate Valid()
      reads this, objectStore, stateStore
    {
      && IsRun(run) && Now(run) == View()
      && (alone ==> DocumentDeliverable(View(), doc))
    }

    /** The history went on from `earlier`. */
    ghost predicate Later(earlier: Run)
      reads this, objectStore, stateStore
    {
      Valid() && IsRun(earlier) && Continues(earlier, run)
    }

    /** In the regimes where this worker is the document's only one, its copy is the record's. */
    ghost predicate Synced(p: PendingCommit)
      reads this, objectStore, stateStore
    {
      && (alone ==> p.documentId == doc)
      && (alone || calm ==> View().Record(p.documentId).pending == Some(p))
    }

    /** This worker is the document's only one and no call fails; devices and other documents' workers still act. */
    ghost predicate Assured()
      reads this
    {
      alone && reliable
    }

    /** The record of this worker's document has nothing pending. */
    ghost predicate Settled()
      reads this, stateStore, objectStore
    {
      View().Record(doc).pending.None?
    }

    /** Records one call in the history. */
    ghost method Note(op: Op, before: World, first: Run)
      requires IsRun(run) && Now(run) == before && Continues(first, run) && IsRun(first)
      requires Enabled(before, op) && Apply(before, op) == View()
      requires alone ==> DocumentDeliverable(View(), doc)
      modifies this`run
      ensures Later(first) && Continues(old(run), run)
    {
      ExtendedIsRun(run, op);
      ContinuesTransitive(first, run, Extended(run, op));
      run := Extended(run, op);
    }

    /** Any number of calls by other workers and by devices. */
    method Elsewhere(quiet: set<Path>)
      requires Valid()
      modifies this`run, objectStore, stateStore
      ensures Later(old(run))
      ensures calm ==> View() == old(View())
      ensures alone ==> Undisturbed(old(View()), View(), doc, quiet)
    {
      var ops: seq<Op> := *;
      if calm {
        ops := [];
      }
      var i := 0;
      while i < |ops|
        invariant Later(old(run))
        invariant calm ==> |ops| == 0 && View() == old(View())
        invariant alone ==> Undisturbed(old(View()), View(), doc, quiet)
      {
        if Enabled(View(), ops[i]) && (alone ==> Polite(View(), ops[i], doc, quiet)) {
          ghost var before := View();
          var after := Apply(View(), ops[i]);
          objectStore.objects, objectStore.versions, objectStore.nextGeneration := after.objects, after.versions, after.nextGeneration;
          stateStore.records, stateStore.reserved, stateStore.published := after.records, after.reserved, after.published;
          if alone {
            NowOk(run);
            PoliteUndisturbs(before, ops[i], doc, quiet);
            UndisturbedStaysDeliverable(before, View(), doc, quiet);
            UndisturbedTransitive(old(View()), before, View(), doc, quiet);
          }
          Note(ops[i], before, old(run));
        }
        i := i + 1;
      }
    }

    method Crashes() returns (crashed: bool)
      ensures calm || reliable ==> !crashed
    {
      crashed := *;
      crashed := crashed && !calm && !reliable;
    }

    // ---------------------------------------------------------------- single calls

    method ReadObject(k: Key, quiet: set<Path>) returns (r: Result<Option<Stored>, string>)
      requires Valid()
      modifies this`run, objectStore, stateStore
      ensures Later(old(run))
      ensures r.Success? ==> r.value == if k in View().objects then Some(View().objects[k]) else None
      ensures calm ==> View() == old(View())
      ensures calm || reliable ==> r.Success?
      ensures alone ==> Undisturbed(old(View()), View(), doc, quiet)
    {
      Elsewhere(quiet);
      var crashed := Crashes();
      if crashed {
        return Failure("object store unavailable");
      }
      var stored := objectStore.Read(k);
      r := Success(stored);
    }

    method ReadPayload(payload: PayloadRef, quiet: set<Path>) returns (r: Result<Blob, string>)
      requires Valid()
      modifies this`run, objectStore, stateStore
      ensures Later(old(run))
      ensures r.Success? ==> r.value == payload.contentSha256.preimage
      ensures calm ==> View() == old(View())
      ensures calm || reliable ==> (r.Success? <==> Readable(View(), payload))
      ensures alone ==> Undisturbed(old(View()), View(), doc, quiet)
    {
      Elsewhere(quiet);
      var crashed := Crashes();
      if crashed {
        return Failure("object store unavailable");
      }
      var stored := objectStore.ReadGeneration(payload.path, payload.generation);
      if stored.None? {
        return Failure("outbox payload disappeared");
      }
      assert stored.value.generation == payload.generation by {
        NowOk(run);
      }
      if stored.value.generation != payload.generation || Sha256(stored.value.bytes) != payload.contentSha256 {
        return Failure("outbox payload failed its immutable generation/hash check");
      }
      r := Success(stored.value.bytes);
    }

    method LoadRecord(d: DocumentId, quiet: set<Path>) returns (r: Result<StateRecord, string>)
      requires Valid()
      modifies this`run, objectStore, stateStore
      ensures Later(old(run))
      ensures r.Success? ==> r.value == View().Record(d)
      ensures calm ==> View() == old(View())
      ensures calm || reliable ==> r.Success?
      ensures alone ==> Undisturbed(old(View()), View(), doc, quiet)
    {
      Elsewhere(quiet);
      var crashed := Crashes();
      if crashed {
        return Failure("state store unavailable");
      }
      var record := stateStore.Load(d);
      r := Success(record);
    }

    /** The two kinds of write a worker may deliver: an object write, or a release write once the state is active. */
    ghost predicate MayDeliver(p: PendingCommit, w: OutboxWrite)
      reads objectStore, stateStore
    {
      && Known(View(), p)
      && (w in p.objectWrites || (w in p.releaseWrites && IsPublished(View(), p.commitId)))
    }

    /** Waits for the next call of this worker to go through, if it does. */
    method Reach(p: PendingCommit) returns (ok: bool)
      requires Valid() && Known(View(), p) && Synced(p)
      modifies this`run, objectStore, stateStore
      ensures Later(old(run)) && Known(View(), p) && Synced(p)
      ensures IsPublished(old(View()), p.commitId) ==> IsPublished(View(), p.commitId)
      ensures calm ==> View() == old(View())
      ensures calm || reliable ==> ok
      ensures alone ==> Undisturbed(old(View()), View(), doc, {})
    {
      Elsewhere({});
      KnownLater(old(run), run, p);
      var crashed := Crashes();
      ok := !crashed;
    }

    method DeliverObject(p: PendingCommit, w: OutboxWrite, bytes: Blob) returns (r: Result<Stored, string>)
      requires Valid() && MayDeliver(p, w) && Synced(p) && w.path !in p.delivered && bytes == w.Bytes()
      modifies this`run, objectStore, stateStore
      ensures Later(old(run)) && Synced(p)
      ensures r.Success? ==> Object(w.path) in View().objects && View().objects[Object(w.path)] == r.value && Carries(r.value, w)
      ensures calm ==> (r.Success? <==> Holds(w.precondition, old(View()).Generation(Object(w.path))))
      ensures calm && r.Success? ==> View() == old(View()).Put(Object(w.path), w.Bytes(), UserTag(w.metadata))
      ensures Assured() && w.path in Claimed(old(View()), doc) && Holds(w.precondition, old(View()).Generation(Object(w.path))) ==> r.Success?
      ensures alone ==> View().Published(doc) == old(View()).Published(doc)
    {
      var reached := Reach(p);
      if !reached {
        return Failure("object store unavailable");
      }
      ghost var earlier := run;
      r := WriteObject(p, w, bytes);
      ContinuesTransitive(old(run), earlier, run);
    }

    method WriteObject(p: PendingCommit, w: OutboxWrite, bytes: Blob) returns (r: Result<Stored, string>)
      requires Valid() && MayDeliver(p, w) && Synced(p) && w.path !in p.delivered && bytes == w.Bytes()
      modifies this`run, objectStore
      ensures Later(old(run)) && Synced(p)
      ensures r.Success? <==> Holds(w.precondition, old(View()).Generation(Object(w.path)))
      ensures View() == if r.Success? then old(View()).Put(Object(w.path), w.Bytes(), UserTag(w.metadata)) else old(View())
      ensures r.Success? ==> View().objects[Object(w.path)] == r.value && Carries(r.value, w)
    {
      ghost var before := View();
      r := objectStore.ConditionalWrite(Object(w.path), bytes, UserTag(w.metadata), w.precondition);
      if r.Success? {
        if alone {
          DeliverAlone(run, p, w);
        }
        Note(Deliver(p, w), before, old(run));
      }
    }

    method SaveDelivery(p: PendingCommit, w: OutboxWrite, stored: Stored) returns (r: Result<PendingCommit, string>)
      requires Valid() && Known(View(), p) && Synced(p) && w in p.Writes() && Carries(stored, w)
      requires (Object(w.path), stored.generation) in View().versions && View().versions[(Object(w.path), stored.generation)] == stored
      requires alone && !(IsPublished(View(), p.commitId) && w in p.objectWrites) ==>
                 Object(w.path) in View().objects && View().objects[Object(w.path)] == stored
      modifies this`run, objectStore, stateStore
      ensures Later(old(run))
      ensures r.Success? ==> r.value == WithDelivery(p, w, stored) && Known(View(), r.value) && Synced(r.value)
      ensures calm ==> r.Success? && View() == SavedWorld(old(View()), WithDelivery(p, w, stored))
      ensures Assured() ==> r.Success?
      ensures alone ==> View().Published(doc) == old(View()).Published(doc)
    {
      var next := WithDelivery(p, w, stored);
      var reached := Reach(p);
      SaveFacts(old(run), run, p, w, stored);
      if !reached {
        return Failure("state store unavailable");
      }
      if alone {
        SaveAlone(old(View()), run, p, w, stored);
      }
      ghost var earlier := run;
      var saved := SaveCopy(next);
      ContinuesTransitive(old(run), earlier, run);
      if !saved {
        return Failure("pending commit changed before delivery checkpoint");
      }
      r := Success(next);
    }

    method SaveCopy(next: PendingCommit) returns (saved: bool)
      requires Valid() && Known(View(), next) && (alone ==> next.documentId == doc && DocumentDeliverable(SavedWorld(View(), next), doc))
      modifies this`run, stateStore
      ensures Later(old(run)) && Known(View(), next)
      ensures saved <==> Owns(old(View()).Record(next.documentId), next)
      ensures View() == if saved then SavedWorld(old(View()), next) else old(View())
    {
      ghost var before := View();
      saved := stateStore.SavePending(next);
      if saved {
        assert View() == SavedWorld(before, next);
        ghost var earlier := run;
        Note(Save(next), before, old(run));
        KnownLater(earlier, run, next);
      }
    }

    method FinalizeState(p: PendingCommit) returns (r: Result<ActiveState, string>)
      requires Valid() && Known(View(), p) && Synced(p)
      modifies this`run, objectStore, stateStore
      ensures Later(old(run)) && Known(View(), p)
      ensures r.Success? ==> IsPublished(View(), p.commitId) && (p.releaseWrites == [] ==> Retired(View(), p.commitId))
      ensures r.Success? && p.releaseWrites != [] ==> Synced(p)
      ensures calm ==> (r.Success? <==> AllDelivered(p, p.objectWrites))
      ensures calm && r.Success? ==> View() == FinalizedWorld(old(View()), p)
      ensures Assured() && AllDelivered(p, p.objectWrites) ==> r.Success?
      ensures alone && r.Success? && p.releaseWrites == [] ==> Settled()
    {
      var reached := Reach(p);
      if !reached {
        return Failure("state store unavailable");
      }
      ghost var earlier := run;
      r := Publish(p);
      ContinuesTransitive(old(run), earlier, run);
    }

    method Publish(p: PendingCommit) returns (r: Result<ActiveState, string>)
      requires Valid() && Known(View(), p) && Synced(p)
      modifies this`run, stateStore
      ensures Later(old(run)) && Known(View(), p)
      ensures r.Success? <==> Owns(old(View()).Record(p.documentId), p) && AllDelivered(p, p.objectWrites)
      ensures View() == if r.Success? then FinalizedWorld(old(View()), p) else old(View())
      ensures r.Success? ==> && IsPublished(View(), p.commitId)
                             && (if p.releaseWrites == [] then Retired(View(), p.commitId) && View().Record(p.documentId).pending.None?
                                 else View().Record(p.documentId).pending == old(View()).Record(p.documentId).pending)
    {
      ghost var before := View();
      r := stateStore.Finalize(p);
      if r.Success? {
        assert View() == FinalizedWorld(before, p);
        NotePublished(p, before);
      }
    }

    /** Records that the state store finalized `p`. */
    ghost method NotePublished(p: PendingCommit, before: World)
      requires IsRun(run) && Now(run) == before && CanFinalize(before, p) && View() == FinalizedWorld(before, p)
      requires alone ==> p.documentId == doc && before.Record(doc).pending == Some(p) && DocumentDeliverable(before, doc)
      modifies this`run
      ensures Later(old(run)) && Known(View(), p) && IsPublished(View(), p.commitId)
      ensures if p.releaseWrites == [] then Retired(View(), p.commitId) && View().Record(p.documentId).pending.None?
              else View().Record(p.documentId).pending == before.Record(p.documentId).pending
    {
      FinalizeFacts(run, p);
      if alone {
        FinalizeAlone(run, p);
      }
      ghost var earlier := run;
      Note(Finalize(p), before, run);
      KnownLater(earlier, run, p);
    }

    method CompleteCommit(p: PendingCommit) returns (r: Result<(), string>)
      requires Valid() && Known(View(), p) && Synced(p)
      requires IsPublished(View(), p.commitId) && AllDelivered(p, p.releaseWrites)
      modifies this`run, objectStore, stateStore
      ensures Later(old(run))
      ensures r.Success? ==> Retired(View(), p.commitId)
      ensures calm ==> r.Success? && View() == CompletedWorld(old(View()), p)
      ensures Assured() ==> r.Success?
      ensures alone && r.Success? ==> Settled()
    {
      var reached := Reach(p);
      if !reached {
        return Failure("state store unavailable");
      }
      ghost var earlier := run;
      var done := Close(p);
      ContinuesTransitive(old(run), earlier, run);
      if !done {
        return Failure("cannot complete commit before every release signal is delivered");
      }
      r := Success(());
    }

    method Close(p: PendingCommit) returns (done: bool)
      requires Valid() && Known(View(), p) && (alone ==> p.documentId == doc)
      requires IsPublished(View(), p.commitId) && AllDelivered(p, p.releaseWrites)
      modifies this`run, stateStore
      ensures Later(old(run))
      ensures done <==> Owns(old(View()).Record(p.documentId), p)
      ensures View() == if done then CompletedWorld(old(View()), p) else old(View())
      ensures done ==> Retired(View(), p.commitId)
      ensures alone && done ==> Settled()
    {
      ghost var before := View();
      CompleteFacts(run, p);
      done := stateStore.Complete(p);
      if done {
        assert View() == CompletedWorld(before, p);
        Note(Complete(p), before, old(run));
      }
    }

    /** Best effort: a failure leaks a payload and nothing else. */
    method DropPayload(c: CommitId, w: OutboxWrite)
      requires Valid() && Retired(View(), c) && w.payload.path.WritePayload? && w.payload.path.commit == c
      modifies this`run, objectStore, stateStore
      ensures Later(old(run))
      ensures calm ==> View() == DroppedWorld(old(View()), w.payload.path, w.payload.generation)
      ensures alone ==> View().Record(doc) == old(View()).Record(doc)
    {
      Elsewhere({});
      RetiredLater(old(run), run, c);
      var crashed := Crashes();
      if crashed {
        return;
      }
      ghost var before := View();
      objectStore.DeleteGeneration(w.payload.path, w.payload.generation);
      ghost var op := Drop(c, w.payload.path.index, w.payload.generation);
      assert View() == Apply(before, op);
      if alone {
        DropDeliverable(before, c, w.payload.path, w.payload.generation, doc);
      }
      Note(op, before, old(run));
    }

    // ---------------------------------------------------------------- delivering

    /** The object at the destination of `w`, if it can stand for the delivery: the one delivered before,
        or one that carries the write anyway. Fails when a delivered object was changed. */
    method FindDelivered(pending: PendingCommit, w: OutboxWrite, bytes: Blob) returns (r: Result<Option<Stored>, string>)
      requires Valid() && bytes == w.Bytes()
      modifies this`run, objectStore, stateStore
      ensures Later(old(run))
      ensures r.Success? && r.value.Some? ==>
                && Object(w.path) in View().objects && View().objects[Object(w.path)] == r.value.value && Carries(r.value.value, w)
      ensures r.Success? && r.value.None? ==>
                w.path !in pending.delivered && !(Object(w.path) in View().objects && Carries(View().objects[Object(w.path)], w))
      ensures calm ==> View() == old(View())
      ensures calm || reliable ==> && (r.Failure? ==> !Ready(View(), pending, w))
                                   && (r.Success? && r.value.Some? ==> Ready(View(), pending, w))
      ensures alone ==> Undisturbed(old(View()), View(), doc, {})
    {
      var current :- ReadObject(Object(w.path), {});
      if w.path in pending.delivered {
        if current.None? {
          return Failure("delivered object disappeared");
        }
        if current.value.generation != pending.delivered[w.path].generation
           || current.value.bytes != bytes || current.value.tag != UserTag(w.metadata) {
          return Failure("delivered object changed before outbox finalization");
        }
        return Success(current);
      }
      if current.Some? && current.value.bytes == bytes && current.value.tag == UserTag(w.metadata) {
        return Success(current);
      }
      r := Success(None);
    }

    /** The delivered object of `w`, written unless it is already there. */
    method PlaceObject(pending: PendingCommit, w: OutboxWrite, bytes: Blob) returns (r: Result<Stored, string>)
      requires Valid() && MayDeliver(pending, w) && Synced(pending) && bytes == w.Bytes()
      modifies this`run, objectStore, stateStore
      ensures Later(old(run)) && Known(View(), pending) && Synced(pending)
      ensures r.Success? ==>
                && Carries(r.value, w) && Object(w.path) in View().objects && View().objects[Object(w.path)] == r.value
                && (Object(w.path), r.value.generation) in View().versions && View().versions[(Object(w.path), r.value.generation)] == r.value
      ensures calm ==> (r.Success? <==> Ready(old(View()), pending, w))
      ensures calm && r.Success? ==> View() == PlacedWorld(old(View()), pending, w)
      ensures Assured() && w.path in Claimed(old(View()), doc) && Ready(old(View()), pending, w) ==> r.Success?
      ensures alone ==> View().Published(doc) == old(View()).Published(doc)
    {
      var found := FindDelivered(pending, w, bytes);
      KnownLater(old(run), run, pending);
      if found.Failure? {
        return Failure(found.error);
      }
      ghost var earlier := run;
      if found.value.Some? {
        r := Success(found.value.value);
      } else {
        r := DeliverObject(pending, w, bytes);
        ContinuesTransitive(old(run), earlier, run);
        KnownLater(earlier, run, pending);
      }
      if r.Success? {
        ObjectIsVersion(run, Object(w.path));
      }
    }

    /** Reads the payload of a write still to be delivered. */
    method ReadWrite(pending: PendingCommit, w: OutboxWrite) returns (r: Result<Blob, string>)
      requires Valid() && MayDeliver(pending, w) && Synced(pending)
      modifies this`run, objectStore, stateStore
      ensures Later(old(run))
      ensures r.Success? ==> r.value == w.Bytes()
      ensures calm ==> r.Success? && View() == old(View())
      ensures alone ==> Undisturbed(old(View()), View(), doc, {})
      ensures Assured() ==> r.Success?
    {
      r := ReadPayload(w.payload, {});
      KnownLater(old(run), run, pending);
      if alone || calm {
        PendingReadable(run, pending, w);
      }
    }

    /** Delivers one write of `pending` and records it, or finds it delivered already. */
    method DeliverWrite(pending: PendingCommit, w: OutboxWrite) returns (r: Result<(PendingCommit, Stored), string>)
      requires Valid() && MayDeliver(pending, w) && Synced(pending)
      modifies this`run, objectStore, stateStore
      ensures Later(old(run))
      ensures r.Success? ==> && Carries(r.value.1, w) && r.value.0 == WithDelivery(pending, w, r.value.1)
                             && Known(View(), r.value.0) && Synced(r.value.0)
      ensures calm ==> (r.Success? <==> Ready(old(View()), pending, w))
      ensures Assured() && w.path in Claimed(old(View()), doc) && Ready(old(View()), pending, w) ==> r.Success?
      ensures alone ==> View().Published(doc) == old(View()).Published(doc)
      ensures calm && r.Success? ==>
                forall stored :: DeliverOne(Progress(old(View()), pending, stored), w) == Progress(View(), r.value.0, stored + [r.value.1])
    {
      var bytes := ReadWrite(pending, w);
      if bytes.Failure? {
        return Failure(bytes.error);
      }
      KnownLater(old(run), run, pending);
      if alone && w.path in Claimed(old(View()), doc) {
        QuietKeepsReady(old(View()), View(), doc, pending, w);
      }
      var stored :- PlaceObject(pending, w, bytes.value);
      var next :- SaveDelivery(pending, w, stored);
      r := Success((next, stored));
    }

    /** The first `i` of `writes` are delivered. */
    ghost predicate Midway(first: World, from: Run, start: PendingCommit, pending: PendingCommit, stored: seq<Stored>, writes: seq<OutboxWrite>, i: nat)
      reads this, objectStore, stateStore
    {
      && i <= |writes| && |stored| == i
      && Later(from) && Known(View(), pending) && Synced(pending)
      && pending.(delivered := map[]) == start.(delivered := map[])
      && start.delivered.Keys <= pending.delivered.Keys
      && (forall k :: 0 <= k < i ==> writes[k].path in pending.delivered)
      && (alone ==> View().Published(doc) == first.Published(doc))
      && (calm ==> && (forall k :: 0 <= k < i ==> Ready(first, start, writes[k]))
                   && DeliverSeq(first, start, writes[..i]) == Progress(View(), pending, stored))
    }

    method DeliverNext(
      ghost first: World, ghost from: Run, ghost start: PendingCommit,
      pending: PendingCommit, stored: seq<Stored>, writes: seq<OutboxWrite>, i: nat)
      returns (r: Result<(PendingCommit, seq<Stored>), string>)
      requires Midway(first, from, start, pending, stored, writes, i) && i < |writes| && Apart(writes)
      requires MayDeliver(pending, writes[i])
      modifies this`run, objectStore, stateStore
      ensures Later(old(run)) && Later(from)
      ensures r.Success? ==> Midway(first, from, start, r.value.0, r.value.1, writes, i + 1)
      ensures calm && r.Failure? ==> !Ready(first, start, writes[i])
      ensures Assured() && (writes[i] in pending.releaseWrites || !IsPublished(first, pending.commitId)) ==> r.Success?
    {
      if alone {
        NextIsReady(run, pending, writes[i], first);
      }
      ghost var earlier := run;
      var step := DeliverWrite(pending, writes[i]);
      if calm {
        NextReady(first, start, writes, i);
      }
      ContinuesTransitive(from, earlier, run);
      if step.Failure? {
        return Failure(step.error);
      }
      r := Success((step.value.0, stored + [step.value.1]));
    }

    /** Delivers `writes` in order, as far as it gets. */
    method DeliverAll(start: PendingCommit, writes: seq<OutboxWrite>) returns (r: Result<(PendingCommit, seq<Stored>), string>)
      requires Valid() && Known(View(), start) && Synced(start)
      requires writes == start.objectWrites || (writes == start.releaseWrites && IsPublished(View(), start.commitId))
      modifies this`run, objectStore, stateStore
      ensures Later(old(run))
      ensures r.Success? ==>
                && Known(View(), r.value.0) && Synced(r.value.0)
                && r.value.0.(delivered := map[]) == start.(delivered := map[])
                && start.delivered.Keys <= r.value.0.delivered.Keys && AllDelivered(r.value.0, writes)
                && |r.value.1| == |writes|
                && (IsPublished(old(View()), start.commitId) ==> IsPublished(View(), start.commitId))
      ensures calm ==> (r.Success? <==> AllReady(old(View()), start, writes))
      ensures calm && r.Success? ==> DeliverSeq(old(View()), start, writes) == Progress(View(), r.value.0, r.value.1)
      ensures Assured() && (writes == start.releaseWrites || !IsPublished(old(View()), start.commitId)) ==> r.Success?
    {
      ghost var from := run;
      r := DeliverEach(start, writes);
      KnownLater(from, run, start);
      assert writes[..|writes|] == writes;
    }

    method DeliverEach(start: PendingCommit, writes: seq<OutboxWrite>) returns (r: Result<(PendingCommit, seq<Stored>), string>)
      requires Valid() && Known(View(), start) && Synced(start)
      requires writes == start.objectWrites || (writes == start.releaseWrites && IsPublished(View(), start.commitId))
      modifies this`run, objectStore, stateStore
      ensures Later(old(run))
      ensures r.Success? ==> Midway(old(View()), old(run), start, r.value.0, r.value.1, writes, |writes|)
      ensures calm && r.Failure? ==> exists k :: 0 <= k < |writes| && !Ready(old(View()), start, writes[k])
      ensures Assured() && (writes == start.releaseWrites || !IsPublished(old(View()), start.commitId)) ==> r.Success?
    {
      KnownApart(run, start);
      PartApart(start, writes);
      var pending, stored := start, [];
      ghost var first, from := View(), run;
      var i := 0;
      while i < |writes|
        invariant Midway(first, from, start, pending, stored, writes, i)
      {
        KnownLater(from, run, start);
        assert writes[i] in pending.Writes();
        var step := DeliverNext(first, from, start, pending, stored, writes, i);
        if step.Failure? {
          return Failure(step.error);
        }
        pending, stored := step.value.0, step.value.1;
        i := i + 1;
      }
      r := Success((pending, stored));
    }

    /** Delivers the release markers of a published commit and closes it. */
    method Release(p: PendingCommit) returns (r: Result<seq<Stored>, string>)
      requires Valid() && Known(View(), p) && IsPublished(View(), p.commitId)
      requires if p.releaseWrites == [] then Retired(View(), p.commitId) && (alone ==> Settled()) else Synced(p)
      modifies this`run, objectStore, stateStore
      ensures Later(old(run))
      ensures r.Success? ==> |r.value| == |p.releaseWrites| && Retired(View(), p.commitId) && (alone ==> Settled())
      ensures Assured() ==> r.Success?
      ensures calm ==> (r.Success? <==> AllReady(old(View()), p, p.releaseWrites))
      ensures calm && r.Success? ==> AfterReleases(old(View()), p).world == View() && AfterReleases(old(View()), p).stored == r.value
    {
      if p.releaseWrites == [] {
        return Success([]);
      }
      var delivered := DeliverAll(p, p.releaseWrites);
      if delivered.Failure? {
        return Failure(delivered.error);
      }
      ghost var earlier := run;
      var completed := CompleteCommit(delivered.value.0);
      ContinuesTransitive(old(run), earlier, run);
      if completed.Failure? {
        return Failure(completed.error);
      }
      r := Success(delivered.value.1);
    }

    /** Drops the payloads of a retired commit. */
    method Cleanup(c: CommitId, writes: seq<OutboxWrite>)
      requires Valid() && Retired(View(), c)
      requires forall w :: w in writes ==> w.payload.path.WritePayload? && w.payload.path.commit == c
      modifies this`run, objectStore, stateStore
      ensures Later(old(run)) && Retired(View(), c)
      ensures alone ==> View().Record(doc) == old(View()).Record(doc)
      ensures calm ==> View().records == old(View()).records && forall path :: Untouched(old(View()), View(), Object(path))
    {
      var i := 0;
      while i < |writes|
        invariant 0 <= i <= |writes|
        invariant Later(old(run)) && Retired(View(), c)
        invariant alone ==> View().Record(doc) == old(View()).Record(doc)
        invariant calm ==> View().records == old(View()).records && forall path :: Untouched(old(View()), View(), Object(path))
      {
        ghost var earlier := run;
        DropPayload(c, writes[i]);
        ContinuesTransitive(old(run), earlier, run);
        RetiredLater(earlier, run, c);
        i := i + 1;
      }
    }

    /** Delivers the object writes, unless they were, and makes the commit's state active. */
    method PublishCommit(start: PendingCommit, alreadyActive: bool) returns (r: Result<(PendingCommit, seq<Stored>), string>)
      requires Valid() && Known(View(), start) && Synced(start)
      modifies this`run, objectStore, stateStore
      ensures Later(old(run))
      ensures r.Success? ==>
                && Known(View(), r.value.0) && IsPublished(View(), start.commitId)
                && r.value.0.(delivered := map[]) == start.(delivered := map[])
                && (if start.releaseWrites == [] then Retired(View(), start.commitId) && (alone ==> Settled()) else Synced(r.value.0))
                && |r.value.1| == if alreadyActive then 0 else |start.objectWrites|
      ensures Assured() && (alreadyActive <==> IsPublished(old(View()), start.commitId)) ==> r.Success?
      ensures calm ==> (r.Success? <==> if alreadyActive then AllDelivered(start, start.objectWrites)
                                        else AllReady(old(View()), start, start.objectWrites))
      ensures calm && r.Success? ==>
                var at := AfterObjects(old(View()), start, alreadyActive);
                at.p == r.value.0 && at.stored == r.value.1 && View() == FinalizedWorld(at.world, at.p)
    {
      var pending, stored := start, [];
      if !alreadyActive {
        var delivered := DeliverAll(pending, pending.objectWrites);
        if delivered.Failure? {
          return Failure(delivered.error);
        }
        pending, stored := delivered.value.0, delivered.value.1;
      }
      ghost var objectsDone := run;
      var active := FinalizeState(pending);
      ContinuesTransitive(old(run), objectsDone, run);
      if active.Failure? {
        return Failure(active.error);
      }
      r := Success((pending, stored));
    }

    /** Releases and cleans up after publication. */
    method CloseCommit(p: PendingCommit) returns (r: Result<seq<Stored>, string>)
      requires Valid() && Known(View(), p) && IsPublished(View(), p.commitId)
      requires if p.releaseWrites == [] then Retired(View(), p.commitId) && (alone ==> Settled()) else Synced(p)
      modifies this`run, objectStore, stateStore
      ensures Later(old(run))
      ensures r.Success? ==> |r.value| == |p.releaseWrites| && Retired(View(), p.commitId) && (alone ==> Settled())
      ensures Assured() ==> r.Success?
      ensures calm ==> (r.Success? <==> AllReady(old(View()), p, p.releaseWrites))
      ensures calm && r.Success? ==>
                var end := AfterReleases(old(View()), p);
                && end.stored == r.value && View().records == end.world.records
                && forall path :: Untouched(end.world, View(), Object(path))
    {
      KnownApart(run, p);
      var released :- Release(p);
      ghost var closed := run;
      Cleanup(p.commitId, p.Writes());
      ContinuesTransitive(old(run), closed, run);
      r := Success(released);
    }

    /** Delivers, publishes, releases and cleans up a reserved commit. */
    method DeliverCommit(start: PendingCommit, alreadyActive: bool) returns (r: Result<seq<Stored>, string>)
      requires Valid() && Known(View(), start) && Synced(start)
      modifies this`run, objectStore, stateStore
      ensures Later(old(run))
      ensures r.Success? ==> && Retired(View(), start.commitId) && |r.value| == |FinishedWrites(start, alreadyActive)|
                             && (alone ==> Settled())
      ensures Assured() && (alreadyActive <==> IsPublished(old(View()), start.commitId)) ==> r.Success?
      ensures calm ==> (r.Success? <==> CanFinish(old(View()), start, alreadyActive))
      ensures calm && r.Success? ==> Finished(old(View()), View(), start, FinishedWrites(start, alreadyActive), r.value)
    {
      ghost var from := run;
      var published := PublishCommit(start, alreadyActive);
      if published.Failure? {
        return Failure(published.error);
      }
      if calm {
        ReleasesReady(from, start, alreadyActive);
      }
      ghost var finalized := run;
      var closed := CloseCommit(published.value.0);
      ContinuesTransitive(from, finalized, run);
      if closed.Failure? {
        return Failure(closed.error);
      }
      r := Success(published.value.1 + closed.value);
      if calm {
        FinishTogether(from, start, alreadyActive, View());
      }
    }

    /** Finishes whatever commit a crash left pending for `d`. */
    method Recover(d: DocumentId) returns (r: Result<bool, string>)
      requires Valid() && (alone ==> d == doc)
      modifies this`run, objectStore, stateStore
      ensures Later(old(run))
      ensures calm && old(View()).Record(d).pending.None? ==> r == Success(false) && View() == old(View())
      ensures calm && old(View()).Record(d).pending.Some? ==>
                var p := old(View()).Record(d).pending.value;
                && (r.Success? <==> Deliverable(old(View()), p))
                && (r.Success? ==>
                      && r.value && View().Record(d).pending.None? && Retired(View(), p.commitId)
                      && exists stored :: Finished(old(View()), View(), p, FinishedWrites(p, IsPublished(old(View()), p.commitId)), stored))
      ensures calm && alone ==> r.Success?
      ensures calm && Stranded(old(View()), d) ==> r.Failure?
      ensures Assured() && d == doc ==>
                && r == Success(old(View()).Record(d).pending.Some?) && Settled()
                && (r.value ==> Retired(View(), old(View()).Record(d).pending.value.commitId))
    {
      var record :- LoadRecord(d, {});
      if record.pending.None? {
        return Success(false);
      }
      var pending := record.pending.value;
      PendingKnown(run, d);
      var alreadyActive := record.active.Some? && record.active.value.payload == pending.stateWrite.payload
        && record.active.value.metadata == pending.stateWrite.metadata;
      ghost var earlier := run;
      var delivered := DeliverCommit(pending, alreadyActive);
      ContinuesTransitive(old(run), earlier, run);
      r := if delivered.Success? then Success(true) else Failure(delivered.error);
    }

    // ---------------------------------------------------------------- committing

    /** Checks every destination before anything is staged. */
    method CheckDestinations(writes: seq<ConditionalWrite>, quiet: set<Path>) returns (r: Result<(), string>)
      requires Valid() && forall w :: w in writes ==> w.path in quiet
      modifies this`run, objectStore, stateStore
      ensures Later(old(run))
      ensures r.Success? && (alone || calm) ==> forall w :: w in writes ==> Willing(View(), w)
      ensures calm ==> View() == old(View()) && (r.Success? <==> forall w :: w in writes ==> Willing(View(), w))
    {
      var i := 0;
      while i < |writes|
        invariant 0 <= i <= |writes| && Later(old(run))
        invariant alone || calm ==> forall k :: 0 <= k < i ==> Willing(View(), writes[k])
        invariant calm ==> View() == old(View())
      {
        ghost var earlier := run;
        var current := ReadObject(Object(writes[i].path), quiet);
        ContinuesTransitive(old(run), earlier, run);
        if current.Failure? {
          return Failure(current.error);
        }
        var alreadyDelivered := current.value.Some? && current.value.value.bytes == writes[i].bytes
          && current.value.value.tag == UserTag(writes[i].metadata);
        var actual := if current.value.Some? then Some(current.value.value.generation) else None;
        if !Holds(writes[i].precondition, actual) && !alreadyDelivered {
          assert calm ==> !Willing(View(), writes[i]);
          return Failure("precondition failed");
        }
        i := i + 1;
      }
      r := Success(());
    }

    /** Writes a payload under its own key, or finds it there from an earlier attempt. */
    method StagePayload(key: Key, quiet: set<Path>) returns (r: Result<PayloadRef, string>)
      requires Valid() && PayloadBytes(key).Some? && (alone ==> key.commit.documentId == doc)
      modifies this`run, objectStore, stateStore
      ensures Later(old(run))
      ensures r.Success? ==> && r.value.path == key && r.value.contentSha256 == Sha256(PayloadBytes(key).value)
                             && Readable(View(), r.value)
      ensures calm ==> r.Success? && StagedOnly(old(View()), View())
      ensures alone ==> Steady(old(View()), View(), doc, quiet)
    {
      var bytes := PayloadBytes(key).value;
      var tag := PayloadTag(key.commit, Sha256(bytes));
      var existing :- ReadObject(key, quiet);
      if existing.Some? {
        PayloadIsItself(run, key);
        if existing.value.bytes != bytes || existing.value.tag != tag {
          return Failure("payload path is taken by something else");
        }
        return Success(PayloadRef(key, existing.value.generation, Sha256(bytes)));
      }
      ghost var reading := run;
      r := CreatePayload(key, quiet);
      ContinuesTransitive(old(run), reading, run);
    }

    method CreatePayload(key: Key, quiet: set<Path>) returns (r: Result<PayloadRef, string>)
      requires Valid() && PayloadBytes(key).Some? && (alone ==> key.commit.documentId == doc)
      modifies this`run, objectStore, stateStore
      ensures Later(old(run))
      ensures r.Success? ==> && r.value.path == key && r.value.contentSha256 == Sha256(PayloadBytes(key).value)
                             && Readable(View(), r.value)
      ensures calm ==> (r.Success? <==> key !in old(View()).objects) && StagedOnly(old(View()), View())
      ensures alone ==> Steady(old(View()), View(), doc, quiet)
    {
      Elsewhere(quiet);
      var crashed := Crashes();
      if crashed {
        return Failure("object store unavailable");
      }
      var bytes := PayloadBytes(key).value;
      ghost var before := View();
      var written := objectStore.ConditionalWrite(key, bytes, PayloadTag(key.commit, Sha256(bytes)), DoesNotExist);
      if written.Failure? {
        return Failure(written.error);
      }
      assert View() == StagedWorld(before, key);
      if alone {
        StageDeliverable(before, key, doc);
      }
      Note(Stage(key), before, old(run));
      r := Success(PayloadRef(key, written.value.generation, Sha256(bytes)));
    }

    /** Stages every write of a commit: ordinary writes and release markers apart, each in order. */
    method StageWrites(c: CommitId, quiet: set<Path>) returns (r: Result<(seq<OutboxWrite>, seq<OutboxWrite>), string>)
      requires Valid() && (alone ==> c.documentId == doc)
      modifies this`run, objectStore, stateStore
      ensures Later(old(run))
      ensures r.Success? ==> && StagesAll(c, r.value.0, Ordinary(c.objectWrites)) && StagesAll(c, r.value.1, Releases(c.objectWrites))
                             && (forall w :: w in r.value.0 + r.value.1 ==> Held(View(), w.payload))
      ensures calm ==> r.Success? && StagedOnly(old(View()), View())
      ensures alone ==> Steady(old(View()), View(), doc, quiet)
    {
      var writes := c.objectWrites;
      var ordinary: seq<OutboxWrite>, releases: seq<OutboxWrite> := [], [];
      var i := 0;
      while i < |writes|
        invariant 0 <= i <= |writes| && Later(old(run))
        invariant StagesAll(c, ordinary, Ordinary(writes[..i])) && StagesAll(c, releases, Releases(writes[..i]))
        invariant forall w :: w in ordinary + releases ==> Held(View(), w.payload) && !w.payload.path.Object?
        invariant calm ==> StagedOnly(old(View()), View())
        invariant alone ==> Steady(old(View()), View(), doc, quiet)
      {
        assert writes[..i + 1][..i] == writes[..i];
        ghost var earlier := run;
        var payload := StagePayload(Key.WritePayload(c, i), quiet);
        ContinuesTransitive(old(run), earlier, run);
        if payload.Failure? {
          return Failure(payload.error);
        }
        HeldLater(earlier, run, ordinary + releases);
        var staged := OutboxWrite(writes[i].path, payload.value, writes[i].metadata, writes[i].precondition);
        if IsRelease(writes[i].path, writes[i].metadata) {
          releases := releases + [staged];
        } else {
          ordinary := ordinary + [staged];
        }
        i := i + 1;
      }
      assert writes[..|writes|] == writes;
      r := Success((ordinary, releases));
    }

    /** Reserves a staged commit in its document's record, or joins the same commit already pending there. */
    method ReserveCommit(p: PendingCommit, quiet: set<Path>) returns (r: Result<PendingCommit, string>)
      requires Valid() && WellFormed(p) && p.delivered == map[] && Readable(View(), p.stateWrite.payload)
      requires forall w :: w in p.Writes() ==> Held(View(), w.payload)
      requires alone ==> p.documentId == doc && (forall w :: w in p.Writes() ==> w.path in quiet) && AllReady(View(), p, p.Writes())
      modifies this`run, objectStore, stateStore
      ensures Later(old(run))
      ensures r.Success? ==> r.value.commitId == p.commitId && Known(View(), r.value) && Synced(r.value)
      ensures calm ==> View().objects == old(View()).objects && (r.Failure? ==> View() == old(View()))
      ensures calm && old(View()).Record(p.documentId).pending.None? ==>
                && (r.Success? <==> Holds(p.stateWrite.precondition, ActiveGeneration(old(View()).Record(p.documentId))))
                && (r.Success? ==> r.value == p && View() == ReservedWorld(old(View()), p))
      ensures calm && old(View()).Record(p.documentId).pending.Some? ==>
                var pending := old(View()).Record(p.documentId).pending.value;
                View() == old(View()) && if pending.commitId == p.commitId then r == Success(pending) else r.Failure?
    {
      Elsewhere(quiet);
      HeldLater(old(run), run, p.Writes());
      PayloadLater(old(run), run, p.stateWrite.payload);
      var crashed := Crashes();
      if crashed {
        return Failure("state store unavailable");
      }
      ghost var before := View();
      r := stateStore.Reserve(p);
      if r.Failure? {
        return;
      }
      if before.Record(p.documentId).pending.Some? {
        PendingKnown(run, p.documentId);
      } else {
        HeldIsEnough(run, p);
        assert View() == Apply(before, Reserve(p));
        if alone {
          ReserveAlone(old(View()), run, p, quiet);
        }
        ghost var earlier := run;
        Note(Reserve(p), before, old(run));
      }
    }

    method FindState(writes: seq<ConditionalWrite>) returns (r: Result<nat, string>)
      ensures r.Success? ==> OneState(writes, r.value)
      ensures r.Failure? ==> forall k :: 0 <= k < |writes| ==> !OneState(writes, k)
    {
      var i := 0;
      while i < |writes| && !IsStatePath(writes[i].path)
        invariant 0 <= i <= |writes|
        invariant forall k :: 0 <= k < i ==> !IsStatePath(writes[k].path)
      {
        i := i + 1;
      }
      if i == |writes| {
        return Failure("broker commit has no canonical state write");
      }
      if exists k :: 0 <= k < |writes| && k != i && IsStatePath(writes[k].path) {
        return Failure("broker commit has more than one canonical state write");
      }
      r := Success(i);
    }

    /** Pairs delivered objects with writes by position, as the source does. */
    method PairResults(writes: seq<ConditionalWrite>, k: nat, state: Stored, delivered: seq<Stored>) returns (r: Result<seq<Stored>, string>)
      requires k < |writes| && DistinctPaths(writes) && |delivered| == |writes| - 1
      ensures r == Success(delivered[..k] + [state] + delivered[k..])
    {
      var paths := Others(writes, k);
      var byPath: map<Path, Stored> := map[];
      var i := 0;
      while i < |paths|
        invariant 0 <= i <= |paths|
        invariant forall j :: 0 <= j < i ==> paths[j].path in byPath && byPath[paths[j].path] == delivered[j]
      {
        OthersApart(writes, k);
        byPath := byPath[paths[i].path := delivered[i]];
        i := i + 1;
      }
      var results := [];
      i := 0;
      ghost var expected := delivered[..k] + [state] + delivered[k..];
      while i < |writes|
        invariant 0 <= i <= |writes| && results == expected[..i]
      {
        if i == k {
          results := results + [state];
        } else {
          assert writes[i] == paths[if i < k then i else i - 1];
          if writes[i].path !in byPath {
            assert false;
            return Failure("missing delivered object");
          }
          results := results + [byPath[writes[i].path]];
        }
        i := i + 1;
      }
      assert expected[..|writes|] == expected;
      r := Success(results);
    }

    /** Stages and reserves the commit of `writes`, whose state write is the `k`-th. */
    method PrepareCommit(writes: seq<ConditionalWrite>, k: nat) returns (r: Result<PendingCommit, string>)
      requires Valid() && DistinctPaths(writes) && OneState(writes, k) && (alone ==> writes[k].path.doc == doc)
      modifies this`run, objectStore, stateStore
      ensures Later(old(run))
      ensures r.Success? ==> r.value.commitId == IdOf(writes, k) && Known(View(), r.value) && Synced(r.value)
      ensures calm ==> (forall path :: Untouched(old(View()), View(), Object(path)))
                       && (r.Failure? ==> View().records == old(View()).records)
      ensures calm && old(View()).Record(writes[k].path.doc).pending.None? ==>
                && (r.Success? <==> && Holds(writes[k].precondition, ActiveGeneration(old(View()).Record(writes[k].path.doc)))
                                    && forall w :: w in Others(writes, k) ==> Willing(old(View()), w))
                && (r.Success? ==> && WellFormed(r.value) && r.value.delivered == map[]
                                   && (forall e :: e != writes[k].path.doc ==> View().Record(e) == old(View()).Record(e))
                                   && View().Record(writes[k].path.doc).active == old(View()).Record(writes[k].path.doc).active)
      ensures calm && old(View()).Record(writes[k].path.doc).pending.Some? ==>
                var pending := old(View()).Record(writes[k].path.doc).pending.value;
                && View().records == old(View()).records
                && (r.Success? <==> pending.commitId == IdOf(writes, k) && forall w :: w in Others(writes, k) ==> Willing(old(View()), w))
                && (r.Success? ==> r.value == pending)
    {
      var c := IdOf(writes, k);
      var others := Others(writes, k);
      OthersApart(writes, k);
      var quiet := set w | w in others :: w.path;
      var staged := CheckAndStage(c, quiet);
      if staged.Failure? {
        return Failure(staged.error);
      }
      ghost var ready := run;
      r := ReserveCommit(staged.value, quiet);
      ContinuesTransitive(old(run), ready, run);
    }

    /** Checks a commit's destinations, then stages its payloads. */
    method CheckAndStage(c: CommitId, quiet: set<Path>) returns (r: Result<PendingCommit, string>)
      requires Valid() && (alone ==> c.documentId == doc) && DistinctDestinations(c)
      requires forall w :: w in c.objectWrites ==> w.path in quiet
      modifies this`run, objectStore, stateStore
      ensures Later(old(run))
      ensures r.Success? ==> && WellFormed(r.value) && r.value.commitId == c && r.value.delivered == map[]
                             && Readable(View(), r.value.stateWrite.payload)
                             && (forall w :: w in r.value.Writes() ==> Held(View(), w.payload))
      ensures calm ==> && StagedOnly(old(View()), View())
                       && (r.Success? <==> forall w :: w in c.objectWrites ==> Willing(old(View()), w))
      ensures r.Success? && (alone || calm) ==>
                AllReady(View(), r.value, r.value.Writes()) && forall w :: w in r.value.Writes() ==> w.path in quiet
    {
      var checked := CheckDestinations(c.objectWrites, quiet);
      if checked.Failure? {
        return Failure(checked.error);
      }
      ghost var earlier, world := run, View();
      r := StageCommit(c, quiet);
      ContinuesTransitive(old(run), earlier, run);
      if r.Success? && (alone || calm) {
        WillingIsReady(world, View(), r.value, quiet);
      }
    }

    method StageCommit(c: CommitId, quiet: set<Path>) returns (r: Result<PendingCommit, string>)
      requires Valid() && (alone ==> c.documentId == doc) && DistinctDestinations(c)
      modifies this`run, objectStore, stateStore
      ensures Later(old(run))
      ensures r.Success? ==> && WellFormed(r.value) && r.value.commitId == c && r.value.delivered == map[]
                             && Readable(View(), r.value.stateWrite.payload)
                             && (forall w :: w in r.value.Writes() ==> Held(View(), w.payload))
      ensures calm ==> r.Success? && StagedOnly(old(View()), View())
      ensures alone ==> Steady(old(View()), View(), doc, quiet)
    {
      var state := StagePayload(StatePayload(c), quiet);
      if state.Failure? {
        return Failure(state.error);
      }
      ghost var stated := run;
      var staged := StageWrites(c, quiet);
      ContinuesTransitive(old(run), stated, run);
      if staged.Failure? {
        return Failure(staged.error);
      }
      PayloadLater(stated, run, state.value);
      r := Success(PendingCommit(
                     c, c.documentId, OutboxWrite(c.stateWrite.path, state.value, c.stateWrite.metadata, c.stateWrite.precondition),
                     staged.value.0, staged.value.1, map[]));
    }

    /** What a reader sees: at a state path the active canonical state, elsewhere the object. */
    method Read(path: Path) returns (r: Result<Option<Stored>, string>)
      requires Valid()
      modifies this`run, objectStore, stateStore
      ensures Later(old(run))
      ensures calm ==> View() == old(View()) && r == Success(ReadAt(View(), path))
    {
      if !IsStatePath(path) {
        r := ReadObject(Object(path), {});
        return;
      }
      var record :- LoadRecord(path.doc, {});
      if record.active.None? {
        return Success(None);
      }
      ActiveReadable(run, path.doc);
      ghost var loaded := run;
      var bytes := ReadPayload(record.active.value.payload, {});
      ContinuesTransitive(old(run), loaded, run);
      if bytes.Failure? {
        return Failure(bytes.error);
      }
      r := Success(Some(Stored(bytes.value, record.active.value.generation, UserTag(record.active.value.metadata))));
    }

    /** The broker's atomic commit. However it is interleaved with others and wherever it stops, the run it
        leaves is one of the outbox's, so a failed commit is either invisible or finished by Recover. Left
        alone, it succeeds exactly when the state precondition holds and every destination meets its own
        precondition or carries its write already, and then it has the effect of one atomic commit. */
    method Commit(writes: seq<ConditionalWrite>) returns (r: Result<seq<Stored>, string>)
      requires Valid() && DistinctPaths(writes)
      requires alone ==> forall k :: 0 <= k < |writes| && IsStatePath(writes[k].path) ==> writes[k].path.doc == doc
      modifies this`run, objectStore, stateStore
      ensures Later(old(run))
      ensures r.Success? ==> exists k: nat :: OneState(writes, k) && Retired(View(), IdOf(writes, k))
      ensures calm ==> forall k: nat :: OneState(writes, k) ==>
                if old(View()).Record(writes[k].path.doc).pending.None? then CommitOutcome(old(View()), View(), writes, k, r)
                else RetryOutcome(old(View()), View(), writes, k, r)
    {
      ghost var first, from := View(), run;
      var found := FindState(writes);
      if found.Failure? {
        return Failure(found.error);
      }
      var k := found.value;
      var prepared := PrepareCommit(writes, k);
      if prepared.Failure? {
        return Failure(prepared.error);
      }
      ghost var reserved, reservation := View(), run;
      if calm && first.Record(writes[k].path.doc).pending.None? {
        PreparedFinishes(run, first, writes, k, prepared.value);
      }
      r := FinishCommit(writes, k, prepared.value);
      ContinuesTransitive(from, reservation, run);
      if calm && first.Record(writes[k].path.doc).pending.Some? {
        FinishableStill(first, reserved, prepared.value);
        if r.Success? {
          FinishedFrom(first, reserved, View(), prepared.value);
        }
      }
    }

    /** Delivers a prepared commit and collects its results. */
    method FinishCommit(writes: seq<ConditionalWrite>, k: nat, pending: PendingCommit) returns (r: Result<seq<Stored>, string>)
      requires Valid() && DistinctPaths(writes) && OneState(writes, k)
      requires Known(View(), pending) && Synced(pending) && pending.commitId == IdOf(writes, k)
      modifies this`run, objectStore, stateStore
      ensures Later(old(run))
      ensures r.Success? ==> Retired(View(), IdOf(writes, k))
      ensures calm ==> (r.Success? <==> CanFinish(old(View()), pending, false))
      ensures calm && r.Success? ==> FinishedAll(old(View()), View(), pending) && ResultsPaired(View(), writes, k, r.value)
      ensures calm && CanFinish(old(View()), pending, false) && !Published(old(View()).Record(pending.documentId), pending) ==>
                && r.Success?
                && forall first: World :: PreparedFrom(first, old(View()), pending) ==> CommitEffect(first, View(), writes, k, r.value)
    {
      KnownWellFormed(run, pending);
      SplitLength(pending);
      ghost var reserved := View();
      var delivered := DeliverCommit(pending, false);
      if delivered.Failure? {
        return Failure(delivered.error);
      }
      ghost var closed := run;
      var state := Read(writes[k].path);
      ContinuesTransitive(old(run), closed, run);
      RetiredLater(closed, run, pending.commitId);
      if state.Failure? {
        return Failure(state.error);
      }
      if state.value.None? {
        return Failure("outbox did not publish active state");
      }
      r := PairResults(writes, k, state.value.value, delivered.value);
      if calm {
        FinishedPaired(View(), writes, k, pending, state.value.value, delivered.value);
      }
      if calm && CanFinish(reserved, pending, false) && !Published(reserved.Record(pending.documentId), pending) {
        forall first: World | PreparedFrom(first, reserved, pending) ensures CommitEffect(first, View(), writes, k, r.value) {
          EffectOfFinish(first, reserved, View(), writes, k, pending, state.value.value, delivered.value);
        }
      }
    }
  }
}
