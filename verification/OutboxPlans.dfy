/** The commits the broker makes have the shape the outbox relies on: one canonical state, written last, and
    release markers after every other object. */
module OutboxPlans {
  import opened Wrappers
  import opened Model
  import opened Storage
  import opened Merge
  import opened Brokers
  import opened BrokerSteps
  import opened OutboxEffects

  /** The state of `d` comes last, and no other write is of a canonical state. */
  predicate EndsInState(writes: seq<ConditionalWrite>, d: DocumentId) {
    && writes != [] && writes[|writes| - 1].path == StatePath(d)
    && forall i :: 0 <= i < |writes| - 1 ==> !writes[i].path.StatePath?
  }

  /** A resolution marker stands only directly before the last write. */
  predicate MarkerBeforeState(writes: seq<ConditionalWrite>) {
    forall i :: 0 <= i < |writes| - 2 ==> !writes[i].path.ResolutionMarker?
  }

  predicate WellArranged(writes: seq<ConditionalWrite>, d: DocumentId) {
    EndsInState(writes, d) && MarkerBeforeState(writes)
  }

  /** One canonical state, listed last; the other writes are delivered in the order they are listed. */
  ghost predicate PairsInPlace(writes: seq<ConditionalWrite>) {
    && writes != [] && OneState(writes, |writes| - 1)
    && ReleasesLast(Others(writes, |writes| - 1))
    && Arranged(Others(writes, |writes| - 1)) == Others(writes, |writes| - 1)
  }

  lemma ShapeArranged(writes: seq<ConditionalWrite>, d: DocumentId)
    requires d != "" && WellArranged(writes, d)
    ensures PairsInPlace(writes)
  {
    var others := Others(writes, |writes| - 1);
    assert forall i :: 0 <= i < |others| ==> others[i] == writes[i];
    ArrangedInPlaceExactly(others);
  }

  lemma PreserveArranged(s: Store, state: CanonicalDocumentState, generation: nat, event: StorageEvent, input: Blob)
    requires PlanPreserve(s, state, generation, event, input).Success?
    ensures WellArranged(PlanPreserve(s, state, generation, event, input).value.writes, event.documentId)
  {
    PreserveShape(s, state, generation, event, input);
  }

  lemma ApplyBooxArranged(codec: Codec, s: Store, state: CanonicalDocumentState, generation: nat, event: StorageEvent, input: Blob)
    requires PlanApplyBoox(codec, s, state, generation, event, input).Success?
    ensures WellArranged(PlanApplyBoox(codec, s, state, generation, event, input).value.writes, event.documentId)
  {
  }

  lemma ApplySupernoteArranged(codec: Codec, s: Store, state: CanonicalDocumentState, generation: nat, event: StorageEvent, input: Blob)
    requires PlanApplySupernote(codec, s, state, generation, event, input).Success?
    ensures WellArranged(PlanApplySupernote(codec, s, state, generation, event, input).value.writes, event.documentId)
  {
  }

  lemma RevisionArranged(codec: Codec, s: Store, state: CanonicalDocumentState, generation: nat, event: StorageEvent, input: Blob)
    requires PlanRevision(codec, s, state, generation, event, input).Success?
    ensures WellArranged(PlanRevision(codec, s, state, generation, event, input).value.writes, event.documentId)
  {
    var device := state.Device(event.source);
    if (event.sourceRevision <= device.revision && Some(Sha256(input)) != device.contentSha256)
       || (event.sourceRevision > device.revision && event.basedOn != state.Revisions()) {
      PreserveArranged(s, state, generation, event, input);
    } else if event.sourceRevision > device.revision {
      match event.source {
        case Boox => ApplyBooxArranged(codec, s, state, generation, event, input);
        case Supernote => ApplySupernoteArranged(codec, s, state, generation, event, input);
      }
    }
  }

  lemma ProcessArranged(codec: Codec, s: Store, event: StorageEvent)
    requires PlanProcess(codec, s, event).Success? && PlanProcess(codec, s, event).value.writes != []
    ensures WellArranged(PlanProcess(codec, s, event).value.writes, event.documentId)
  {
    var (state, generation) := ReadState(s, event.documentId).value;
    match ReadVersion(s, event.objectPath, event.sourceGeneration) {
      case None =>
      case Some(source) =>
        var hash := Sha256(source.bytes);
        if !IsBrokerOutput(event, source.metadata, hash) {
          RevisionArranged(codec, s, state, generation, event.(contentSha256 := Some(hash)), source.bytes);
        }
    }
  }

  lemma PublishArranged(
    codec: Codec, s: Store, state: CanonicalDocumentState, generation: nat, conflict: PreservedInput, input: StoredObject,
    settled: CanonicalDocumentState, selection: Selection, request: ResolutionRequest)
    requires PlanPublish(codec, s, state, generation, conflict, input, settled, selection, request).Success?
    ensures WellArranged(PlanPublish(codec, s, state, generation, conflict, input, settled, selection, request).value.writes, request.documentId)
  {
  }

  lemma ResolveArranged(codec: Codec, s: Store, request: ResolutionRequest)
    requires PlanResolve(codec, s, request).Success? && PlanResolve(codec, s, request).value.writes != []
    ensures WellArranged(PlanResolve(codec, s, request).value.writes, request.documentId)
  {
    ResolveEndsInState(codec, s, request);
    var (state, generation) := ReadState(s, request.documentId).value;
    var conflict := FindConflict(state.conflicts, request.conflictEventId).value;
    var input := ReadObject(s, conflict.preservedPath).value;
    if conflict.sourceRevision >= state.Device(conflict.source).revision {
      var proposed := ProposedManifest(codec, state, conflict, input.bytes).value;
      var selection := Selected(Classify(state, conflict, proposed.operations).value, request.strategy);
      var strokes := ChosenStrokes(state, conflict, selection, request);
      PublishArranged(codec, s, state, generation, conflict, input,
                      Settled(state, conflict, input.generation, proposed.sourceFileName, strokes, request), selection, request);
    }
  }

  /** Every commit of an event or a resolution has one canonical state, and its results pair up with its writes:
      the outbox delivers the other writes in the order they are listed. */
  lemma PlansPairInPlace(codec: Codec, s: Store, event: StorageEvent, request: ResolutionRequest)
    ensures PlanProcess(codec, s, event).Success? && PlanProcess(codec, s, event).value.writes != [] ==>
              PairsInPlace(PlanProcess(codec, s, event).value.writes)
    ensures PlanResolve(codec, s, request).Success? && PlanResolve(codec, s, request).value.writes != [] ==>
              PairsInPlace(PlanResolve(codec, s, request).value.writes)
  {
    if PlanProcess(codec, s, event).Success? && PlanProcess(codec, s, event).value.writes != [] {
      ProcessArranged(codec, s, event);
      ShapeArranged(PlanProcess(codec, s, event).value.writes, event.documentId);
    }
    if PlanResolve(codec, s, request).Success? && PlanResolve(codec, s, request).value.writes != [] {
      ResolveArranged(codec, s, request);
      ShapeArranged(PlanResolve(codec, s, request).value.writes, request.documentId);
    }
  }
}
