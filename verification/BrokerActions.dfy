/** The broker's operations as they run: in place on a storage object, mutating a local copy of the state.
    Each is proved to do exactly what its plan says, so every theorem about plans and runs is about them. */
module BrokerActions {
  import opened Wrappers
  import opened Model
  import opened Storage
  import opened Manifests
  import opened Merge
  import opened Brokers

  /** The store moved by exactly one attempt to commit the plan, and the result reports it. */
  ghost predicate Performed(before: Store, after: Store, planned: Result<Plan, BrokerError>, r: Result<ProcessOutcome, BrokerError>) {
    match planned
    case Failure(error) => r == Failure(error) && after == before
    case Success(plan) =>
      && after == before.Commit(plan.writes)
      && if before.Admits(plan.writes) then r == Success(plan.outcome) else r.Failure? && r.error.WriteRefused?
  }

  /** Groups `ops` by stroke, each group in the order of `ops`. */
  method GroupOperations(ops: seq<Operation>) returns (grouped: map<StrokeId, seq<Operation>>)
    ensures grouped.Keys == OperationIds(ops)
    ensures forall id :: id in grouped ==> grouped[id] == OperationsOf(ops, id)
  {
    grouped := map[];
    var i := 0;
    while i < |ops|
      invariant 0 <= i <= |ops|
      invariant grouped.Keys == OperationIds(ops[..i])
      invariant forall id :: id in grouped ==> grouped[id] == OperationsOf(ops[..i], id)
    {
      var id := ops[i].sourceUuid;
      assert ops[..i + 1] == ops[..i] + [ops[i]];
      assert ops[..i + 1][..i] == ops[..i];
      NoOperationsYet(ops[..i], id);
      grouped := grouped[id := (if id in grouped then grouped[id] else []) + [ops[i]]];
      i := i + 1;
    }
    assert ops[..|ops|] == ops;
  }

  lemma NoOperationsYet(ops: seq<Operation>, id: StrokeId)
    ensures id !in OperationIds(ops) ==> OperationsOf(ops, id) == []
  {
    OperationsOfDecides(ops, id);
    var group := OperationsOf(ops, id);
    assert group != [] ==> group[0] in group;
  }

  /** One more group classified; one that cannot be makes the whole list unclassifiable. */
  lemma ClassifyNext(state: CanonicalDocumentState, conflict: PreservedInput, ops: seq<Operation>, ids: seq<StrokeId>, i: nat)
    requires i < |ids| && ClassifyAll(state, conflict, ops, ids[..i]).Some?
    ensures ClassifyOne(state, conflict, ops, ids[i]).None? ==> ClassifyAll(state, conflict, ops, ids).None?
    ensures ClassifyOne(state, conflict, ops, ids[i]).Some? ==>
              ClassifyAll(state, conflict, ops, ids[..i + 1])
              == Some(ClassifyAll(state, conflict, ops, ids[..i]).value + [ClassifyOne(state, conflict, ops, ids[i]).value])
  {
    assert ids[..i + 1][..i] == ids[..i];
    ClassifyAllMeaning(state, conflict, ops, ids);
  }

  /** Classifies each stroke's group, in id order; None when any of them cannot be described. */
  method ClassifyOperations(state: CanonicalDocumentState, conflict: PreservedInput, ops: seq<Operation>)
    returns (r: Option<seq<OperationGroup>>)
    ensures r == Classify(state, conflict, ops)
  {
    var grouped := GroupOperations(ops);
    var ids := Ascending(grouped.Keys);
    var groups := [];
    var i := 0;
    while i < |ids|
      invariant 0 <= i <= |ids|
      invariant ClassifyAll(state, conflict, ops, ids[..i]) == Some(groups)
    {
      var id := ids[i];
      assert id in ids;
      ClassifyNext(state, conflict, ops, ids, i);
      var change := DescribeChange(id, grouped[id]);
      if change.None? {
        return None;
      }
      groups := groups + [OperationGroup(change.value, grouped[id], IsSafe(state, conflict, id, change.value.kind, grouped[id]))];
      i := i + 1;
    }
    assert ids[..|ids|] == ids;
    r := Some(groups);
  }

  class Broker {
    const codec: Codec

    constructor (codec: Codec)
      ensures this.codec == codec
    {
      this.codec := codec;
    }

    method CommitWrites(storage: MemoryStorage, writes: seq<ConditionalWrite>, outcome: ProcessOutcome)
      returns (r: Result<ProcessOutcome, BrokerError>)
      modifies storage
      ensures storage.View() == old(storage.View()).Commit(writes)
      ensures if old(storage.View()).Admits(writes) then r == Success(outcome) else r.Failure? && r.error.WriteRefused?
    {
      var committed := storage.Commit(writes);
      r := if committed.Success? then Success(outcome) else Failure(WriteRefused(committed.error));
    }

    method LoadState(storage: MemoryStorage, d: DocumentId) returns (r: Result<(CanonicalDocumentState, nat), BrokerError>)
      ensures r == ReadState(storage.View(), d)
    {
      var stored := storage.Read(StatePath(d));
      if stored.None? {
        return Failure(MissingObject(StatePath(d)));
      }
      if !stored.value.bytes.StateJson? {
        return Failure(CorruptState("canonical state is not readable"));
      }
      r := Success((stored.value.bytes.state, stored.value.generation));
    }

    method LoadOriginal(storage: MemoryStorage, state: CanonicalDocumentState) returns (r: Result<Blob, BrokerError>)
      ensures r == ReadOriginal(storage.View(), state)
    {
      var original := storage.Read(OriginalPath(state.documentId));
      if original.None? {
        return Failure(MissingObject(OriginalPath(state.documentId)));
      }
      if Sha256(original.value.bytes) != state.originalPdfSha256 {
        return Failure(CorruptState("immutable original PDF hash changed"));
      }
      r := Success(original.value.bytes);
    }

    method RegisterDocument(storage: MemoryStorage, original: Blob, fileName: string, pageCount: nat)
      returns (r: Result<CanonicalDocumentState, BrokerError>)
      modifies storage
      ensures match PlanRegister(codec, old(storage.View()), original, fileName, pageCount)
              case Failure(error) => r == Failure(error) && storage.View() == old(storage.View())
              case Success(plan) =>
                && storage.View() == old(storage.View()).Commit(plan.writes)
                && if old(storage.View()).Admits(plan.writes) then r == Success(plan.state) else r.Failure? && r.error.WriteRefused?
    {
      if IsBlank(fileName) || pageCount == 0 {
        return Failure(InvalidEvent("original must be a readable PDF with a name"));
      }
      var d := codec.stableDocumentId(Sha256(original));
      var existing := storage.Read(StatePath(d));
      if existing.Some? {
        if !existing.value.bytes.StateJson? {
          return Failure(CorruptState("canonical state is not readable"));
        }
        var state := existing.value.bytes.state;
        if state.originalPdfSha256 != Sha256(original) {
          return Failure(InvalidEvent("document id collision with a different immutable original"));
        }
        if state.originalPageCount == 0 {
          state := state.(originalPageCount := pageCount);
          r := CommitState(storage, [StateWrite(d, state, Match(existing.value.generation))], state);
          return;
        }
        assert storage.View().Commit([]) == storage.View();
        return Success(state);
      }
      var state := InitialState(d, original, fileName, pageCount);
      var immutable := ConditionalWrite(
        OriginalPath(d), original, NO_METADATA.(kind := Some("immutable-original"), documentId := Some(d)), DoesNotExist);
      r := CommitState(storage, [immutable, StateWrite(d, state, DoesNotExist)], state);
    }

    method CommitState(storage: MemoryStorage, writes: seq<ConditionalWrite>, state: CanonicalDocumentState)
      returns (r: Result<CanonicalDocumentState, BrokerError>)
      modifies storage
      ensures storage.View() == old(storage.View()).Commit(writes)
      ensures if old(storage.View()).Admits(writes) then r == Success(state) else r.Failure? && r.error.WriteRefused?
    {
      var committed := storage.Commit(writes);
      r := if committed.Success? then Success(state) else Failure(WriteRefused(committed.error));
    }

    method MarkEventOnly(storage: MemoryStorage, state: CanonicalDocumentState, generation: nat, event: StorageEvent, outcome: ProcessOutcome)
      returns (r: Result<ProcessOutcome, BrokerError>)
      modifies storage
      ensures Performed(old(storage.View()), storage.View(), Success(PlanMark(state, generation, event, outcome)), r)
    {
      var next := state.(processedEventIds := state.processedEventIds + {event.eventId});
      next := next.(sourceGenerations := next.sourceGenerations[event.objectPath := event.sourceGeneration]);
      next := next.(stateRevision := next.stateRevision + 1);
      r := CommitWrites(storage, [StateWrite(event.documentId, next, Match(generation))], outcome);
    }

    /** The evidence of the accepted input of `side`, when that input is newer than the event's baseline. */
    method ReadCompeting(storage: MemoryStorage, state: CanonicalDocumentState, event: StorageEvent, side: DeviceSide)
      returns (r: Result<seq<ConditionalWrite>, BrokerError>)
      ensures r == CompetingWrite(storage.View(), state, event, side)
      ensures r.Success? ==> |r.value| <= 1
    {
      var device := state.Device(side);
      if device.revision <= event.basedOn.Get(side) || device.sourceObjectPath.None? {
        return Success([]);
      }
      var evidencePath := device.sourceObjectPath.value;
      var evidence := storage.ReadGeneration(evidencePath, device.sourceGeneration);
      if evidence.None? {
        return Failure(EvidenceMissing(evidencePath));
      }
      if Some(Sha256(evidence.value.bytes)) != device.contentSha256 {
        return Failure(EvidenceHashChanged(evidencePath));
      }
      r := Success([ConditionalWrite(
                      ConflictCurrent(event.documentId, event.eventId, side), evidence.value.bytes,
                      ConflictMetadata("conflict-competing-input", event), DoesNotExist)]);
    }

    method PreserveConflict(storage: MemoryStorage, state: CanonicalDocumentState, generation: nat, event: StorageEvent, input: Blob)
      returns (r: Result<ProcessOutcome, BrokerError>)
      modifies storage
      ensures Performed(old(storage.View()), storage.View(), PlanPreserve(old(storage.View()), state, generation, event, input), r)
    {
      var preservedPath := ConflictIncoming(event.documentId, event.eventId);
      var conflictWrites := [ConditionalWrite(preservedPath, input, ConflictMetadata("conflict-input", event), DoesNotExist)];
      var competingPaths := [];
      var sides := [Boox, Supernote];
      ghost var boox := CompetingWrite(storage.View(), state, event, Boox);
      ghost var supernote := CompetingWrite(storage.View(), state, event, Supernote);
      ghost var incoming := conflictWrites;
      var i := 0;
      while i < |sides|
        invariant 0 <= i <= |sides| && storage.View() == old(storage.View())
        invariant i >= 1 ==> boox.Success?
        invariant i >= 2 ==> supernote.Success?
        invariant conflictWrites == incoming + (if i >= 1 then boox.value else []) + (if i >= 2 then supernote.value else [])
        invariant competingPaths == PathsOf((if i >= 1 then boox.value else []) + (if i >= 2 then supernote.value else []))
      {
        var competing := ReadCompeting(storage, state, event, sides[i]);
        if competing.Failure? {
          return Failure(competing.error);
        }
        if competing.value != [] {
          competingPaths := competingPaths + [competing.value[0].path];
          conflictWrites := conflictWrites + [competing.value[0]];
        }
        i := i + 1;
      }
      var conflict := PreservedInput(
        event.eventId, event.source, event.objectPath, event.payloadKind, preservedPath, competingPaths,
        event.sourceGeneration, event.sourceRevision, Sha256(input), event.basedOn, state.Revisions());
      var next := state.(conflicts := state.conflicts + [conflict]);
      next := next.(processedEventIds := next.processedEventIds + {event.eventId});
      next := next.(stateRevision := next.stateRevision + 1);
      assert boox.value + supernote.value == [] + boox.value + supernote.value;
      conflictWrites := conflictWrites + [StateWrite(event.documentId, next, Match(generation))];
      r := CommitWrites(storage, conflictWrites, PreservedConflict(preservedPath, state.Revisions(), event.basedOn));
    }

    /** The strokes, device file name, destination and output of an event that may be applied. */
    method Convert(storage: MemoryStorage, state: CanonicalDocumentState, event: StorageEvent, input: Blob)
      returns (r: Result<(StrokeMap, Option<string>, Path, Blob), BrokerError>)
      ensures r.Failure? ==> forall generation ::
                (if event.source.Boox? then PlanApplyBoox(codec, storage.View(), state, generation, event, input)
                 else PlanApplySupernote(codec, storage.View(), state, generation, event, input)) == Failure(r.error)
      ensures r.Success? ==> forall generation ::
                (if event.source.Boox? then PlanApplyBoox(codec, storage.View(), state, generation, event, input)
                 else PlanApplySupernote(codec, storage.View(), state, generation, event, input))
                == PlanDeliver(storage.View(), Accepted(state, event, Sha256(input), r.value.0, r.value.1), generation, event, r.value.2, r.value.3)
    {
      match event.source {
        case Boox =>
          var manifest := codec.booxManifest(state, event, input);
          if manifest.Failure? {
            return Failure(Conversion(manifest.error));
          }
          var strokes := ApplyManifest(state.strokes, manifest.value.operations, EventAuthor(event));
          r := Success((strokes, Some(manifest.value.sourceFileName), SupernoteManifest(event.documentId, event.eventId), ManifestJson(manifest.value)));
        case Supernote =>
          var exported := codec.parseExport(input);
          if exported.Failure? {
            return Failure(Conversion(exported.error));
          }
          if !ExportFits(state, event.basedOn, exported.value) {
            return Failure(InvalidEvent("Supernote export does not fit"));
          }
          var fileName := if exported.value.sourceFileName.Some? then exported.value.sourceFileName else state.supernote.sourceFileName;
          var strokes := ApplySupernoteExport(state.strokes, exported.value.pages, EventAuthor(event));
          var original := LoadOriginal(storage, state);
          if original.Failure? {
            return Failure(original.error);
          }
          var pdf := codec.renderBooxView(original.value, ActiveSnapshots(strokes), TombstonedIds(strokes));
          if pdf.Failure? {
            return Failure(Conversion(pdf.error));
          }
          r := Success((strokes, fileName, BooxViewPath(state), pdf.value));
      }
    }

    /** A view the event was made from is consumed: its record becomes the event's. */
    method ConsumeView(views: map<Path, GeneratedView>, event: StorageEvent, hash: Digest, revisions: RevisionPair)
      returns (next: map<Path, GeneratedView>)
      ensures next ==
              if event.objectPath in views
              then views[event.objectPath := views[event.objectPath].(contentSha256 := hash, sourceRevisions := revisions, eventId := event.eventId)]
              else views
    {
      next := views;
      if event.objectPath in next {
        var consumed := next[event.objectPath].(contentSha256 := hash, sourceRevisions := revisions, eventId := event.eventId);
        next := next[event.objectPath := consumed];
      }
    }

    /** The canonical state once the event is accepted, field by field. */
    method Accept(state: CanonicalDocumentState, event: StorageEvent, hash: Digest, strokes: StrokeMap, fileName: Option<string>)
      returns (next: CanonicalDocumentState)
      ensures next == Accepted(state, event, hash, strokes, fileName)
    {
      next := state.(strokes := strokes);
      next := next.WithDevice(event.source, DeviceRevision(event.sourceRevision, Some(hash), event.sourceGeneration, Some(event.objectPath), fileName));
      var revisions := next.Revisions();
      next := next.(lastCommonRevisions := revisions);
      next := next.(sourceGenerations := next.sourceGenerations[event.objectPath := event.sourceGeneration]);
      var views := ConsumeView(state.generatedViews, event, hash, revisions);
      next := next.(generatedViews := views);
      next := next.(processedEventIds := next.processedEventIds + {event.eventId});
      next := next.(stateRevision := next.stateRevision + 1);
    }

    method ApplyEvent(storage: MemoryStorage, state: CanonicalDocumentState, generation: nat, event: StorageEvent, input: Blob)
      returns (r: Result<ProcessOutcome, BrokerError>)
      modifies storage
      ensures event.source.Boox? ==>
                Performed(old(storage.View()), storage.View(), PlanApplyBoox(codec, old(storage.View()), state, generation, event, input), r)
      ensures event.source.Supernote? ==>
                Performed(old(storage.View()), storage.View(), PlanApplySupernote(codec, old(storage.View()), state, generation, event, input), r)
    {
      var converted := Convert(storage, state, event, input);
      if converted.Failure? {
        return Failure(converted.error);
      }
      var (strokes, fileName, path, output) := converted.value;
      var hash := Sha256(input);
      var next := Accept(state, event, hash, strokes, fileName);
      var revisions := next.Revisions();
      var outputHash := Sha256(output);
      var destination := storage.Read(path);
      var precondition := DestinationPrecondition(next, path, destination);
      if precondition.Failure? {
        return Failure(precondition.error);
      }
      next := next.(generatedViews := next.generatedViews[path := GeneratedView(path, outputHash, revisions, event.eventId)]);
      var marker := BrokerOutputMarker(BROKER_PRODUCER, event.eventId, event.documentId, revisions);
      r := CommitWrites(
        storage,
        [ConditionalWrite(path, output, OutputMetadata(marker, outputHash), precondition.value),
         StateWrite(event.documentId, next, Match(generation))],
        AppliedEvent(path, revisions));
    }

    method ProcessRevision(storage: MemoryStorage, state: CanonicalDocumentState, generation: nat, event: StorageEvent, input: Blob)
      returns (r: Result<ProcessOutcome, BrokerError>)
      modifies storage
      ensures Performed(old(storage.View()), storage.View(), PlanRevision(codec, old(storage.View()), state, generation, event, input), r)
    {
      var current := state.Revisions();
      var device := state.Device(event.source);
      if event.sourceRevision <= event.basedOn.Get(event.source) {
        return Failure(InvalidEvent("source revision must be newer than its based-on revision"));
      }
      if event.sourceRevision <= device.revision {
        if Some(Sha256(input)) != device.contentSha256 {
          r := PreserveConflict(storage, state, generation, event, input);
          return;
        }
        r := MarkEventOnly(storage, state, generation, event, IgnoredStaleSource);
        return;
      }
      if current.Get(event.source) == U64_MAX {
        return Failure(InvalidEvent("source revision overflow"));
      }
      if event.sourceRevision != current.Get(event.source) + 1 && !FollowsPreservedPredecessor(state, event) {
        return Failure(InvalidEvent("source revision must follow the current revision or a preserved predecessor"));
      }
      if event.basedOn != current {
        r := PreserveConflict(storage, state, generation, event, input);
        return;
      }
      r := ApplyEvent(storage, state, generation, event, input);
    }

    method Process(storage: MemoryStorage, event: StorageEvent) returns (r: Result<ProcessOutcome, BrokerError>)
      modifies storage
      ensures Performed(old(storage.View()), storage.View(), PlanProcess(codec, old(storage.View()), event), r)
    {
      if !ValidEvent(event) {
        return Failure(InvalidEvent("malformed event"));
      }
      var loaded := LoadState(storage, event.documentId);
      if loaded.Failure? {
        return Failure(loaded.error);
      }
      var (state, generation) := loaded.value;
      if state.documentId != event.documentId {
        return Failure(CorruptState("state path contains a different document id"));
      }
      if event.eventId in state.processedEventIds {
        return Success(DuplicateEvent);
      }
      var source := storage.ReadGeneration(event.objectPath, event.sourceGeneration);
      if source.None? {
        var latest := storage.Read(event.objectPath);
        if latest.Some? && latest.value.generation > event.sourceGeneration {
          r := MarkEventOnly(storage, state, generation, event, IgnoredStaleSource);
          return;
        }
        return Failure(MissingObject(event.objectPath));
      }
      var hash := Sha256(source.value.bytes);
      if event.contentSha256.Some? && event.contentSha256.value != hash {
        return Failure(InvalidEvent("source content hash mismatch"));
      }
      if IsBrokerOutput(event, source.value.metadata, hash) {
        r := MarkEventOnly(storage, state, generation, event, IgnoredBrokerOutput);
        return;
      }
      r := ProcessRevision(storage, state, generation, event.(contentSha256 := Some(hash)), source.value.bytes);
    }

    method SupersedeConflict(storage: MemoryStorage, state: CanonicalDocumentState, generation: nat, conflict: PreservedInput, request: ResolutionRequest)
      returns (r: Result<ProcessOutcome, BrokerError>)
      modifies storage
      ensures Performed(old(storage.View()), storage.View(), Success(PlanSupersede(state, generation, conflict, request)), r)
    {
      var revisions := state.Revisions();
      var next := state.(stateRevision := state.stateRevision + 1);
      next := next.(conflicts := Without(next.conflicts, request.conflictEventId));
      var record := ConflictResolutionRecord(
        request.resolutionId, request.conflictEventId, request.strategy, true, conflict.source, revisions, revisions, [], [],
        ResolutionMarker(request.documentId, request.conflictEventId));
      next := next.(resolvedConflicts := next.resolvedConflicts[request.conflictEventId := record]);
      r := CommitWrites(storage, [MarkerWrite(request, record), StateWrite(request.documentId, next, Match(generation))], Superseded(revisions));
    }

    method ProposeManifest(state: CanonicalDocumentState, conflict: PreservedInput, input: Blob)
      returns (r: Result<Manifest, BrokerError>)
      ensures r == ProposedManifest(codec, state, conflict, input)
    {
      match conflict.source {
        case Boox =>
          var manifest := codec.conflictManifest(state, conflict, input);
          r := if manifest.Success? then Success(manifest.value) else Failure(Conversion(manifest.error));
        case Supernote =>
          var exported := codec.parseExport(input);
          if exported.Failure? {
            return Failure(Conversion(exported.error));
          }
          if !ExportFits(state, conflict.basedOn, exported.value) {
            return Failure(InvalidEvent("Supernote export does not fit"));
          }
          var operations := SupernoteExportManifest(state.strokes, exported.value.pages);
          var fileName := if exported.value.sourceFileName.Some? then exported.value.sourceFileName.value
          else if state.supernote.sourceFileName.Some? then state.supernote.sourceFileName.value
          else state.originalFileName;
          r := Success(Manifest(fileName, operations));
      }
    }

    method PublishResolution(
      storage: MemoryStorage, state: CanonicalDocumentState, generation: nat, conflict: PreservedInput, input: StoredObject,
      settled: CanonicalDocumentState, selection: Selection, request: ResolutionRequest)
      returns (r: Result<ProcessOutcome, BrokerError>)
      modifies storage
      ensures Performed(old(storage.View()), storage.View(),
                        PlanPublish(codec, old(storage.View()), state, generation, conflict, input, settled, selection, request), r)
    {
      var original := LoadOriginal(storage, settled);
      if original.Failure? {
        return Failure(original.error);
      }
      var pdf := codec.renderBooxView(original.value, ActiveSnapshots(settled.strokes), TombstonedIds(settled.strokes));
      if pdf.Failure? {
        return Failure(Conversion(pdf.error));
      }
      var manifest := codec.resolutionManifest(state, settled, conflict, input.bytes, pdf.value);
      if manifest.Failure? {
        return Failure(Conversion(manifest.error));
      }
      var booxPath := BooxViewPath(settled);
      var destination := storage.Read(booxPath);
      var precondition := ResolutionDestination(state, conflict, booxPath, destination);
      if precondition.Failure? {
        return Failure(precondition.error);
      }
      var revisions := settled.Revisions();
      var marker := BrokerOutputMarker(BROKER_PRODUCER, request.resolutionId, request.documentId, revisions);
      var next := settled.(generatedViews := settled.generatedViews[booxPath := GeneratedView(booxPath, Sha256(pdf.value), revisions, request.resolutionId)]);
      var writes := [ConditionalWrite(booxPath, pdf.value, OutputMetadata(marker, Sha256(pdf.value)), precondition.value)];
      if manifest.value.operations != [] {
        var manifestPath := SupernoteManifest(request.documentId, request.resolutionId);
        var hash := Sha256(ManifestJson(manifest.value));
        next := next.(generatedViews := next.generatedViews[manifestPath := GeneratedView(manifestPath, hash, revisions, request.resolutionId)]);
        writes := writes + [ConditionalWrite(manifestPath, ManifestJson(manifest.value), OutputMetadata(marker, hash), DoesNotExist)];
      }
      var record := ConflictResolutionRecord(
        request.resolutionId, request.conflictEventId, request.strategy, false, conflict.source, state.Revisions(), revisions,
        selection.applied, selection.preserved, ResolutionMarker(request.documentId, request.conflictEventId));
      next := next.(resolvedConflicts := next.resolvedConflicts[request.conflictEventId := record]);
      writes := writes + [MarkerWrite(request, record)];
      writes := writes + [StateWrite(request.documentId, next, Match(generation))];
      assert next == Recorded(settled, request, record, pdf.value, manifest.value);
      assert writes == PlanPublish(codec, storage.View(), state, generation, conflict, input, settled, selection, request).value.writes;
      r := CommitWrites(storage, writes, Resolved(request.strategy, revisions, selection.applied, selection.preserved));
    }

    /** Consumes the preserved revision, unless it is an alternate payload, and retires the conflict. */
    method SettleState(
      state: CanonicalDocumentState, conflict: PreservedInput, inputGeneration: nat, fileName: string, strokes: StrokeMap, request: ResolutionRequest)
      returns (next: CanonicalDocumentState)
      ensures next == Settled(state, conflict, inputGeneration, fileName, strokes, request)
    {
      next := state.(strokes := strokes);
      if conflict.sourceRevision != state.Device(conflict.source).revision {
        next := next.WithDevice(conflict.source, DeviceRevision(
                                  conflict.sourceRevision, Some(conflict.contentSha256), inputGeneration,
                                  Some(conflict.preservedPath), Some(fileName)));
        next := next.(sourceGenerations := next.sourceGenerations[conflict.preservedPath := inputGeneration]);
      }
      next := next.(lastCommonRevisions := next.Revisions());
      next := next.(stateRevision := next.stateRevision + 1);
      next := next.(conflicts := Without(next.conflicts, request.conflictEventId));
    }

    method MergeConflict(
      storage: MemoryStorage, state: CanonicalDocumentState, generation: nat, conflict: PreservedInput, input: StoredObject, request: ResolutionRequest)
      returns (r: Result<ProcessOutcome, BrokerError>)
      modifies storage
      ensures Performed(old(storage.View()), storage.View(), PlanMerge(codec, old(storage.View()), state, generation, conflict, input, request), r)
    {
      var proposed := ProposeManifest(state, conflict, input.bytes);
      if proposed.Failure? {
        return Failure(proposed.error);
      }
      var groups := ClassifyOperations(state, conflict, proposed.value.operations);
      if groups.None? {
        return Failure(Conversion("conflict contains an unsupported operation set"));
      }
      var operations, applied, preserved := SelectOperations(groups.value, request.strategy);
      var strokes := state.strokes;
      if !request.strategy.KeepCurrent? {
        strokes := ApplyManifest(state.strokes, operations, ResolutionAuthor(state, conflict, request));
      }
      var settled := SettleState(state, conflict, input.generation, proposed.value.sourceFileName, strokes, request);
      r := PublishResolution(storage, state, generation, conflict, input, settled, Selection(operations, applied, preserved), request);
    }

    method ResolveActive(storage: MemoryStorage, state: CanonicalDocumentState, generation: nat, request: ResolutionRequest)
      returns (r: Result<ProcessOutcome, BrokerError>)
      modifies storage
      ensures Performed(old(storage.View()), storage.View(), PlanResolveActive(codec, old(storage.View()), state, generation, request), r)
    {
      var found := FindConflict(state.conflicts, request.conflictEventId);
      if found.None? {
        return Failure(InvalidEvent("conflict is not active"));
      }
      var conflict := found.value;
      var input := storage.Read(conflict.preservedPath);
      if input.None? {
        return Failure(EvidenceMissing(conflict.preservedPath));
      }
      if Sha256(input.value.bytes) != conflict.contentSha256 {
        return Failure(EvidenceHashChanged(conflict.preservedPath));
      }
      var current := state.Device(conflict.source).revision;
      if conflict.sourceRevision < current {
        r := SupersedeConflict(storage, state, generation, conflict, request);
        return;
      }
      if conflict.sourceRevision == current && !request.strategy.KeepCurrent? {
        return Failure(InvalidEvent("alternate payload for an already accepted revision: only keep_current is safe"));
      }
      if !InResolutionOrder(state, conflict) {
        return Failure(InvalidEvent("an earlier incremental conflict comes first"));
      }
      r := MergeConflict(storage, state, generation, conflict, input.value, request);
    }

    method ResolveConflict(storage: MemoryStorage, request: ResolutionRequest) returns (r: Result<ProcessOutcome, BrokerError>)
      modifies storage
      ensures Performed(old(storage.View()), storage.View(), PlanResolve(codec, old(storage.View()), request), r)
    {
      if !ValidRequest(request) {
        return Failure(InvalidEvent("malformed resolution request"));
      }
      var loaded := LoadState(storage, request.documentId);
      if loaded.Failure? {
        return Failure(loaded.error);
      }
      var (state, generation) := loaded.value;
      if request.conflictEventId in state.resolvedConflicts {
        var record := state.resolvedConflicts[request.conflictEventId];
        if record.resolutionId == request.resolutionId && record.strategy == request.strategy {
          return Success(DuplicateResolution(record.strategy));
        }
        return Failure(InvalidEvent("conflict was already resolved"));
      }
      if state.stateRevision != request.expectedStateRevision || state.Revisions() != request.expectedCurrentRevisions {
        return Failure(InvalidEvent("conflict analysis is stale"));
      }
      r := ResolveActive(storage, state, generation, request);
    }
  }
}
