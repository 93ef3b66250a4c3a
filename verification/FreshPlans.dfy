/** Plans committed to the very store they were made from: when planning is refused for a device file, and when
    a plan that succeeded can still be refused. */
module FreshPlans {
  import opened Wrappers
  import opened Model
  import opened Storage
  import opened Manifests
  import opened Merge
  import opened Brokers
  import opened BrokerInvariant
  import opened BrokerSteps
  import opened BrokerViews

  // ---------------------------------------------------------------- an event commits

  lemma PreserveCommits(s: Store, d: DocumentId, generation: nat, event: StorageEvent, input: Blob)
    requires Inv(s, d) && event.documentId == d && event.eventId !in StateOf(s, d).processedEventIds
    requires ReadState(s, d).value.1 == generation
    requires PlanPreserve(s, StateOf(s, d), generation, event, input).Success?
    ensures s.Admits(PlanPreserve(s, StateOf(s, d), generation, event, input).value.writes)
  {
    var state := StateOf(s, d);
    PreserveShape(s, state, generation, event, input);
    CompetingShape(s, state, event, Boox);
    CompetingShape(s, state, event, Supernote);
    var writes := PlanPreserve(s, state, generation, event, input).value.writes;
    forall i | 0 <= i < |writes| ensures Holds(writes[i].precondition, s.Generation(writes[i].path)) {
      if 0 < i < |writes| - 1 {
        assert writes[i].path.ConflictCurrent? && writes[i].precondition == DoesNotExist;
        assert writes[i].path == ConflictCurrent(d, event.eventId, Boox) || writes[i].path == ConflictCurrent(d, event.eventId, Supernote);
      }
    }
  }

  lemma DeliverCommits(s: Store, d: DocumentId, accepted: CanonicalDocumentState, generation: nat, event: StorageEvent, path: Path, output: Blob)
    requires ReadState(s, d).Success? && ReadState(s, d).value.1 == generation && event.documentId == d
    requires PlanDeliver(s, accepted, generation, event, path, output).Success?
    ensures s.Admits(PlanDeliver(s, accepted, generation, event, path, output).value.writes)
  {
  }

  lemma ApplyBooxCommits(codec: Codec, s: Store, d: DocumentId, generation: nat, event: StorageEvent, input: Blob)
    requires Inv(s, d) && ReadState(s, d).value.1 == generation && event.documentId == d
    requires PlanApplyBoox(codec, s, StateOf(s, d), generation, event, input).Success?
    ensures s.Admits(PlanApplyBoox(codec, s, StateOf(s, d), generation, event, input).value.writes)
  {
    var state := StateOf(s, d);
    var manifest := codec.booxManifest(state, event, input).value;
    var strokes := Applied(state.strokes, manifest.operations, EventAuthor(event));
    DeliverCommits(s, d, Accepted(state, event, Sha256(input), strokes, Some(manifest.sourceFileName)), generation, event,
                   SupernoteManifest(d, event.eventId), ManifestJson(manifest));
  }

  lemma ApplySupernoteCommits(codec: Codec, s: Store, d: DocumentId, generation: nat, event: StorageEvent, input: Blob)
    requires Inv(s, d) && ReadState(s, d).value.1 == generation && event.documentId == d
    requires PlanApplySupernote(codec, s, StateOf(s, d), generation, event, input).Success?
    ensures s.Admits(PlanApplySupernote(codec, s, StateOf(s, d), generation, event, input).value.writes)
  {
    var state := StateOf(s, d);
    var exported := codec.parseExport(input).value;
    var strokes := ExportApplied(state.strokes, exported.pages, EventAuthor(event));
    var fileName := if exported.sourceFileName.Some? then exported.sourceFileName else state.supernote.sourceFileName;
    var pdf := codec.renderBooxView(ReadOriginal(s, state).value, ActiveSnapshots(strokes), TombstonedIds(strokes)).value;
    DeliverCommits(s, d, Accepted(state, event, Sha256(input), strokes, fileName), generation, event, BooxViewPath(state), pdf);
  }

  lemma RevisionCommits(codec: Codec, s: Store, d: DocumentId, generation: nat, event: StorageEvent, input: Blob)
    requires Inv(s, d) && event.documentId == d && event.eventId !in StateOf(s, d).processedEventIds
    requires ReadState(s, d).value.1 == generation
    requires PlanRevision(codec, s, StateOf(s, d), generation, event, input).Success?
    ensures s.Admits(PlanRevision(codec, s, StateOf(s, d), generation, event, input).value.writes)
  {
    var state := StateOf(s, d);
    var device := state.Device(event.source);
    if (event.sourceRevision <= device.revision && Some(Sha256(input)) != device.contentSha256)
       || (event.sourceRevision > device.revision && event.basedOn != state.Revisions()) {
      PreserveCommits(s, d, generation, event, input);
    } else if event.sourceRevision > device.revision {
      match event.source {
        case Boox => ApplyBooxCommits(codec, s, d, generation, event, input);
        case Supernote => ApplySupernoteCommits(codec, s, d, generation, event, input);
      }
    }
  }

  /** An event plan made from the store it is committed to is always admitted: only a competing writer in
      between can refuse it. */
  lemma FreshEventPlanCommits(codec: Codec, s: Store, d: DocumentId, event: StorageEvent)
    requires Inv(s, d) && event.documentId == d && PlanProcess(codec, s, event).Success?
    ensures s.Admits(PlanProcess(codec, s, event).value.writes)
  {
    var (state, generation) := ReadState(s, d).value;
    if event.eventId !in state.processedEventIds && ReadVersion(s, event.objectPath, event.sourceGeneration).Some? {
      var source := ReadVersion(s, event.objectPath, event.sourceGeneration).value;
      var stamped := event.(contentSha256 := Some(Sha256(source.bytes)));
      if PlanRevision(codec, s, state, generation, stamped, source.bytes).Success? {
        RevisionCommits(codec, s, d, generation, stamped, source.bytes);
      }
    }
  }

  // ---------------------------------------------------------------- when an event is stale

  /** The device file at `p` is the view the state records for it, or there is neither. */
  predicate AsRecorded(s: Store, state: CanonicalDocumentState, p: Path) {
    if p in s.objects then HasView(state, p, Sha256(s.objects[p].bytes)) else p !in state.generatedViews
  }

  predicate IsStale(r: Result<Plan, BrokerError>) {
    r.Failure? && r.error.StaleDestination?
  }

  /** Where applying an event writes its view. */
  function Destination(state: CanonicalDocumentState, event: StorageEvent): Path {
    match event.source
    case Boox => SupernoteManifest(event.documentId, event.eventId)
    case Supernote => BooxViewPath(state)
  }

  /** The device file at `p` is as the state records it once content `hash` at `consumed` has been taken in. */
  predicate AsConsumed(s: Store, state: CanonicalDocumentState, consumed: Path, hash: Digest, p: Path) {
    if p == consumed && p in state.generatedViews then p in s.objects && Sha256(s.objects[p].bytes) == hash
    else AsRecorded(s, state, p)
  }

  /** The device's content can be converted, and the other device's view of the result rendered. */
  ghost predicate Converts(codec: Codec, s: Store, state: CanonicalDocumentState, event: StorageEvent, input: Blob) {
    match event.source
    case Boox => codec.booxManifest(state, event, input).Success?
    case Supernote =>
      && codec.parseExport(input).Success? && ExportFits(state, event.basedOn, codec.parseExport(input).value)
      && ReadOriginal(s, state).Success?
      && var strokes := ExportApplied(state.strokes, codec.parseExport(input).value.pages, EventAuthor(event));
      codec.renderBooxView(ReadOriginal(s, state).value, ActiveSnapshots(strokes), TombstonedIds(strokes)).Success?
  }

  /** The event carries its device's very next revision, on the current frontier. */
  predicate IsNext(state: CanonicalDocumentState, event: StorageEvent) {
    event.basedOn == state.Revisions() && event.sourceRevision == state.Revisions().Get(event.source) + 1
  }

  /** The event's input can be read, is what the event says it is, and is not the broker's own output. */
  predicate Considered(s: Store, event: StorageEvent) {
    && ReadVersion(s, event.objectPath, event.sourceGeneration).Some?
    && var source := ReadVersion(s, event.objectPath, event.sourceGeneration).value;
    event.contentSha256 in {None, Some(Sha256(source.bytes))} && !IsBrokerOutput(event, source.metadata, Sha256(source.bytes))
  }

  /** A new event whose input is the next revision and converts: only its destination is still to be looked at. */
  ghost predicate Applicable(codec: Codec, s: Store, event: StorageEvent) {
    && ValidEvent(event) && ReadState(s, event.documentId).Success?
    && Considered(s, event)
    && var state, input := StateOf(s, event.documentId), ReadVersion(s, event.objectPath, event.sourceGeneration).value.bytes;
    && state.documentId == event.documentId && event.eventId !in state.processedEventIds
    && IsNext(state, event) && Converts(codec, s, state, Stamped(event, input), input)
  }

  /** The device file the event would replace is as recorded, the event's own content taken in. */
  predicate DestinationKept(s: Store, event: StorageEvent)
    requires ReadState(s, event.documentId).Success? && Considered(s, event)
  {
    var input := ReadVersion(s, event.objectPath, event.sourceGeneration).value.bytes;
    AsConsumed(s, StateOf(s, event.documentId), event.objectPath, Sha256(input), Destination(StateOf(s, event.documentId), event))
  }

  function Stamped(event: StorageEvent, input: Blob): StorageEvent {
    event.(contentSha256 := Some(Sha256(input)))
  }

  /** What applying the event comes to, on the side it comes from. */
  function PlanApply(codec: Codec, s: Store, state: CanonicalDocumentState, generation: nat, event: StorageEvent, input: Blob)
    : Result<Plan, BrokerError>
  {
    match event.source
    case Boox => PlanApplyBoox(codec, s, state, generation, event, input)
    case Supernote => PlanApplySupernote(codec, s, state, generation, event, input)
  }

  lemma DeliverOutcome(
    s: Store, state: CanonicalDocumentState, generation: nat, event: StorageEvent, hash: Digest, strokes: StrokeMap,
    fileName: Option<string>, path: Path, output: Blob)
    ensures var r := PlanDeliver(s, Accepted(state, event, hash, strokes, fileName), generation, event, path, output);
            && (AsConsumed(s, state, event.objectPath, hash, path) <==> r.Success? && r.value.outcome.AppliedEvent?)
            && (!AsConsumed(s, state, event.objectPath, hash, path) <==> r == Failure(StaleDestination(path)))
  {
  }

  lemma ApplyBooxOutcome(codec: Codec, s: Store, state: CanonicalDocumentState, generation: nat, event: StorageEvent, input: Blob)
    requires event.source.Boox?
    ensures var r := PlanApplyBoox(codec, s, state, generation, event, input);
            && (IsStale(r) <==> Converts(codec, s, state, event, input) && !AsConsumed(s, state, event.objectPath, Sha256(input), Destination(state, event)))
            && (IsStale(r) ==> r.error.path == Destination(state, event))
            && (r.Success? <==> Converts(codec, s, state, event, input) && AsConsumed(s, state, event.objectPath, Sha256(input), Destination(state, event)))
            && (r.Success? ==> r.value.outcome.AppliedEvent?)
  {
    if codec.booxManifest(state, event, input).Success? {
      var manifest := codec.booxManifest(state, event, input).value;
      DeliverOutcome(s, state, generation, event, Sha256(input), Applied(state.strokes, manifest.operations, EventAuthor(event)),
                     Some(manifest.sourceFileName), SupernoteManifest(event.documentId, event.eventId), ManifestJson(manifest));
    }
  }

  lemma ApplySupernoteOutcome(codec: Codec, s: Store, state: CanonicalDocumentState, generation: nat, event: StorageEvent, input: Blob)
    requires event.source.Supernote?
    ensures var r := PlanApplySupernote(codec, s, state, generation, event, input);
            && (IsStale(r) <==> Converts(codec, s, state, event, input) && !AsConsumed(s, state, event.objectPath, Sha256(input), Destination(state, event)))
            && (IsStale(r) ==> r.error.path == Destination(state, event))
            && (r.Success? <==> Converts(codec, s, state, event, input) && AsConsumed(s, state, event.objectPath, Sha256(input), Destination(state, event)))
            && (r.Success? ==> r.value.outcome.AppliedEvent?)
  {
    if Converts(codec, s, state, event, input) {
      var exported := codec.parseExport(input).value;
      var strokes := ExportApplied(state.strokes, exported.pages, EventAuthor(event));
      var fileName := if exported.sourceFileName.Some? then exported.sourceFileName else state.supernote.sourceFileName;
      var pdf := codec.renderBooxView(ReadOriginal(s, state).value, ActiveSnapshots(strokes), TombstonedIds(strokes)).value;
      DeliverOutcome(s, state, generation, event, Sha256(input), strokes, fileName, BooxViewPath(state), pdf);
    }
  }

  lemma ApplyOutcome(codec: Codec, s: Store, state: CanonicalDocumentState, generation: nat, event: StorageEvent, input: Blob)
    ensures var r := PlanApply(codec, s, state, generation, event, input);
            && (IsStale(r) <==> Converts(codec, s, state, event, input) && !AsConsumed(s, state, event.objectPath, Sha256(input), Destination(state, event)))
            && (IsStale(r) ==> r.error.path == Destination(state, event))
            && (r.Success? <==> Converts(codec, s, state, event, input) && AsConsumed(s, state, event.objectPath, Sha256(input), Destination(state, event)))
            && (r.Success? ==> r.value.outcome.AppliedEvent?)
  {
    match event.source {
      case Boox => ApplyBooxOutcome(codec, s, state, generation, event, input);
      case Supernote => ApplySupernoteOutcome(codec, s, state, generation, event, input);
    }
  }

  lemma NextApplies(codec: Codec, s: Store, state: CanonicalDocumentState, generation: nat, event: StorageEvent, input: Blob)
    requires IsNext(state, event)
    ensures PlanRevision(codec, s, state, generation, event, input) == PlanApply(codec, s, state, generation, event, input)
  {
  }

  /** Only the next revision on the whole frontier is applied: the preserved-predecessor exception adds nothing. */
  lemma OnlyNextApplies(codec: Codec, s: Store, state: CanonicalDocumentState, generation: nat, event: StorageEvent, input: Blob)
    requires !IsNext(state, event)
    ensures var r := PlanRevision(codec, s, state, generation, event, input);
            !IsStale(r) && (r.Success? ==> !r.value.outcome.AppliedEvent?)
  {
    PreservedOutcome(s, state, generation, event, input);
  }

  lemma PreservedOutcome(s: Store, state: CanonicalDocumentState, generation: nat, event: StorageEvent, input: Blob)
    ensures var r := PlanPreserve(s, state, generation, event, input);
            !IsStale(r) && (r.Success? ==> !r.value.outcome.AppliedEvent?)
  {
  }

  lemma FreshOutcome(codec: Codec, s: Store, event: StorageEvent)
    requires ValidEvent(event) && ReadState(s, event.documentId).Success?
    requires StateOf(s, event.documentId).documentId == event.documentId
    requires event.eventId !in StateOf(s, event.documentId).processedEventIds
    ensures PlanProcess(codec, s, event) == PlanFresh(codec, s, StateOf(s, event.documentId), ReadState(s, event.documentId).value.1, event)
  {
  }

  lemma ConsideredPlan(codec: Codec, s: Store, state: CanonicalDocumentState, generation: nat, event: StorageEvent)
    ensures Considered(s, event) ==>
              var input := ReadVersion(s, event.objectPath, event.sourceGeneration).value.bytes;
              PlanFresh(codec, s, state, generation, event) == PlanRevision(codec, s, state, generation, Stamped(event, input), input)
    ensures !Considered(s, event) ==>
              var r := PlanFresh(codec, s, state, generation, event);
              !IsStale(r) && (r.Success? ==> !r.value.outcome.AppliedEvent?)
  {
  }

  /** An event is refused for its destination exactly when it is applicable and the device file it would replace is
      not as recorded, its own content taken in; otherwise an applicable event is applied, and no other is. */
  lemma EventStaleExactly(codec: Codec, s: Store, event: StorageEvent)
    ensures IsStale(PlanProcess(codec, s, event)) <==> Applicable(codec, s, event) && !DestinationKept(s, event)
    ensures PlanProcess(codec, s, event).Success? && PlanProcess(codec, s, event).value.outcome.AppliedEvent?
            <==> Applicable(codec, s, event) && DestinationKept(s, event)
    ensures IsStale(PlanProcess(codec, s, event)) ==>
              PlanProcess(codec, s, event).error.path == Destination(StateOf(s, event.documentId), event)
  {
    if ValidEvent(event) && ReadState(s, event.documentId).Success? {
      var (state, generation) := ReadState(s, event.documentId).value;
      if state.documentId == event.documentId && event.eventId !in state.processedEventIds {
        FreshOutcome(codec, s, event);
        ConsideredPlan(codec, s, state, generation, event);
        if Considered(s, event) {
          var input := ReadVersion(s, event.objectPath, event.sourceGeneration).value.bytes;
          if !IsNext(state, event) {
            OnlyNextApplies(codec, s, state, generation, Stamped(event, input), input);
          } else {
            NextApplies(codec, s, state, generation, Stamped(event, input), input);
            ApplyOutcome(codec, s, state, generation, Stamped(event, input), input);
          }
        }
      }
    }
  }

  // ---------------------------------------------------------------- a resolution commits

  /** The writes a resolution makes besides the view it renders for BOOX. */
  predicate ResolutionWrite(w: ConditionalWrite, request: ResolutionRequest, generation: nat) {
    || (w.path == ManifestPath(request) && w.precondition == DoesNotExist)
    || (w.path == ResolutionMarker(request.documentId, request.conflictEventId) && w.precondition == DoesNotExist)
    || (w.path == StatePath(request.documentId) && w.precondition == Match(generation))
  }

  /** Where a resolution puts its manifest for Supernote: the path is named by the resolution ID alone. */
  function ManifestPath(request: ResolutionRequest): Path {
    SupernoteManifest(request.documentId, request.resolutionId)
  }

  predicate WritesManifest(writes: seq<ConditionalWrite>, request: ResolutionRequest) {
    exists w :: w in writes && w.path == ManifestPath(request)
  }

  /** The manifest for Supernote of a resolution that settles on `settled`. */
  function SettledManifest(
    codec: Codec, s: Store, state: CanonicalDocumentState, conflict: PreservedInput, input: Blob, settled: CanonicalDocumentState): Option<Manifest>
  {
    match ReadOriginal(s, settled)
    case Failure(_) => None
    case Success(original) =>
      match codec.renderBooxView(original, ActiveSnapshots(settled.strokes), TombstonedIds(settled.strokes))
      case Failure(_) => None
      case Success(pdf) =>
        match codec.resolutionManifest(state, settled, conflict, input, pdf)
        case Failure(_) => None
        case Success(manifest) => Some(manifest)
  }

  /** The manifest a resolution of this request has for Supernote; there is none when the conflict is resolved
      already, not active, or superseded. */
  function ManifestFor(codec: Codec, s: Store, state: CanonicalDocumentState, request: ResolutionRequest): Option<Manifest> {
    if request.conflictEventId in state.resolvedConflicts then None
    else
      match FindConflict(state.conflicts, request.conflictEventId)
      case None => None
      case Some(conflict) =>
        if conflict.sourceRevision < state.Device(conflict.source).revision then None
        else
          match ReadObject(s, conflict.preservedPath)
          case None => None
          case Some(input) =>
            match ProposedManifest(codec, state, conflict, input.bytes)
            case Failure(_) => None
            case Success(proposed) =>
              match Classify(state, conflict, proposed.operations)
              case None => None
              case Some(groups) =>
                var strokes := ChosenStrokes(state, conflict, Selected(groups, request.strategy), request);
                SettledManifest(codec, s, state, conflict, input.bytes,
                                Settled(state, conflict, input.generation, proposed.sourceFileName, strokes, request))
  }

  /** The resolution has something to tell Supernote. */
  predicate TellsSupernote(codec: Codec, s: Store, state: CanonicalDocumentState, request: ResolutionRequest) {
    ManifestFor(codec, s, state, request).Some? && ManifestFor(codec, s, state, request).value.operations != []
  }

  /** The writes hold a manifest exactly when the resolution has something to tell Supernote, and are refused exactly
      when its path is taken. */
  ghost predicate RefusedOnlyIfTaken(
    codec: Codec, s: Store, state: CanonicalDocumentState, request: ResolutionRequest, writes: seq<ConditionalWrite>)
  {
    && (WritesManifest(writes, request) <==> TellsSupernote(codec, s, state, request))
    && (s.Admits(writes) <==> !(WritesManifest(writes, request) && ManifestPath(request) in s.objects))
  }

  lemma SupersedeCommits(codec: Codec, s: Store, d: DocumentId, generation: nat, conflict: PreservedInput, request: ResolutionRequest)
    requires Inv(s, d) && request.documentId == d && ReadState(s, d).value.1 == generation
    requires request.conflictEventId !in StateOf(s, d).resolvedConflicts
    requires FindConflict(StateOf(s, d).conflicts, request.conflictEventId) == Some(conflict)
    requires conflict.sourceRevision < StateOf(s, d).Device(conflict.source).revision
    ensures RefusedOnlyIfTaken(codec, s, StateOf(s, d), request, PlanSupersede(StateOf(s, d), generation, conflict, request).writes)
  {
  }

  lemma NothingToCommit(codec: Codec, s: Store, d: DocumentId, request: ResolutionRequest)
    requires ReadState(s, d).Success? && request.documentId == d
    requires PlanResolve(codec, s, request).Success? && PlanResolve(codec, s, request).value.writes == []
    ensures RefusedOnlyIfTaken(codec, s, StateOf(s, d), request, [])
  {
    if request.conflictEventId !in StateOf(s, d).resolvedConflicts {
      ResolveFrom(codec, s, StateOf(s, d), ReadState(s, d).value.1, request);
      ActiveEndsInState(codec, s, StateOf(s, d), ReadState(s, d).value.1, request);
    }
  }

  lemma PublishWrites(
    codec: Codec, s: Store, state: CanonicalDocumentState, generation: nat, conflict: PreservedInput, input: StoredObject,
    settled: CanonicalDocumentState, selection: Selection, request: ResolutionRequest)
    requires PlanPublish(codec, s, state, generation, conflict, input, settled, selection, request).Success?
    ensures var writes := PlanPublish(codec, s, state, generation, conflict, input, settled, selection, request).value.writes;
            && writes != [] && writes[0].path.BooxView?
            && ResolutionDestination(state, conflict, writes[0].path, ReadObject(s, writes[0].path)) == Success(writes[0].precondition)
            && (forall i :: 0 < i < |writes| ==> ResolutionWrite(writes[i], request, generation))
    ensures var writes := PlanPublish(codec, s, state, generation, conflict, input, settled, selection, request).value.writes;
            && SettledManifest(codec, s, state, conflict, input.bytes, settled).Some?
            && (WritesManifest(writes, request) <==> SettledManifest(codec, s, state, conflict, input.bytes, settled).value.operations != [])
  {
    var writes := PlanPublish(codec, s, state, generation, conflict, input, settled, selection, request).value.writes;
    var manifest := SettledManifest(codec, s, state, conflict, input.bytes, settled).value;
    if manifest.operations != [] {
      assert writes[1] in writes && writes[1].path == ManifestPath(request);
    }
  }

  lemma DestinationHolds(s: Store, state: CanonicalDocumentState, conflict: PreservedInput, w: ConditionalWrite)
    requires ResolutionDestination(state, conflict, w.path, ReadObject(s, w.path)) == Success(w.precondition)
    ensures Holds(w.precondition, s.Generation(w.path))
  {
  }

  lemma PublishCommits(
    codec: Codec, s: Store, d: DocumentId, generation: nat, conflict: PreservedInput, input: StoredObject,
    settled: CanonicalDocumentState, selection: Selection, request: ResolutionRequest)
    requires Inv(s, d) && request.documentId == d && ReadState(s, d).value.1 == generation
    requires request.conflictEventId !in StateOf(s, d).resolvedConflicts
    requires PlanPublish(codec, s, StateOf(s, d), generation, conflict, input, settled, selection, request).Success?
    ensures var writes := PlanPublish(codec, s, StateOf(s, d), generation, conflict, input, settled, selection, request).value.writes;
            s.Admits(writes) <==> !(WritesManifest(writes, request) && ManifestPath(request) in s.objects)
  {
    var writes := PlanPublish(codec, s, StateOf(s, d), generation, conflict, input, settled, selection, request).value.writes;
    PublishWrites(codec, s, StateOf(s, d), generation, conflict, input, settled, selection, request);
    DestinationHolds(s, StateOf(s, d), conflict, writes[0]);
    forall i | 0 <= i < |writes|
      ensures Holds(writes[i].precondition, s.Generation(writes[i].path)) <==> !(writes[i].path == ManifestPath(request) && writes[i].path in s.objects)
    {
      if i > 0 {
        assert ResolutionWrite(writes[i], request, generation);
      }
    }
  }

  /** The manifest a plan writes is the one the store and the request determine. */
  lemma ResolutionWrites(codec: Codec, s: Store, d: DocumentId, request: ResolutionRequest)
    requires Inv(s, d) && request.documentId == d && PlanResolve(codec, s, request).Success?
    ensures RefusedOnlyIfTaken(codec, s, StateOf(s, d), request, PlanResolve(codec, s, request).value.writes)
  {
    var (state, generation) := ReadState(s, d).value;
    if PlanResolve(codec, s, request).value.writes != [] {
      ResolveReads(codec, s, d, request);
      var conflict := FindConflict(state.conflicts, request.conflictEventId).value;
      if conflict.sourceRevision < state.Device(conflict.source).revision {
        SupersedeCommits(codec, s, d, generation, conflict, request);
      } else {
        MergeCommits(codec, s, d, generation, conflict, request);
      }
    } else {
      NothingToCommit(codec, s, d, request);
    }
  }

  lemma MergeCommits(codec: Codec, s: Store, d: DocumentId, generation: nat, conflict: PreservedInput, request: ResolutionRequest)
    requires Inv(s, d) && request.documentId == d && ReadState(s, d).value.1 == generation
    requires request.conflictEventId !in StateOf(s, d).resolvedConflicts
    requires FindConflict(StateOf(s, d).conflicts, request.conflictEventId) == Some(conflict)
    requires conflict.sourceRevision >= StateOf(s, d).Device(conflict.source).revision && ReadObject(s, conflict.preservedPath).Some?
    requires PlanMerge(codec, s, StateOf(s, d), generation, conflict, ReadObject(s, conflict.preservedPath).value, request).Success?
    ensures RefusedOnlyIfTaken(
              codec, s, StateOf(s, d), request,
              PlanMerge(codec, s, StateOf(s, d), generation, conflict, ReadObject(s, conflict.preservedPath).value, request).value.writes)
  {
    var state, input := StateOf(s, d), ReadObject(s, conflict.preservedPath).value;
    var proposed := ProposedManifest(codec, state, conflict, input.bytes).value;
    var selection := Selected(Classify(state, conflict, proposed.operations).value, request.strategy);
    var strokes := ChosenStrokes(state, conflict, selection, request);
    var settled := Settled(state, conflict, input.generation, proposed.sourceFileName, strokes, request);
    PublishWrites(codec, s, state, generation, conflict, input, settled, selection, request);
    PublishCommits(codec, s, d, generation, conflict, input, settled, selection, request);
  }

  /** A resolution that plans successfully is admitted by the store it was made from exactly when the manifest path of
      its resolution ID is free or it has nothing to tell Supernote. */
  lemma FreshResolutionPlanCommitsExactly(codec: Codec, s: Store, d: DocumentId, request: ResolutionRequest)
    requires Inv(s, d) && request.documentId == d && PlanResolve(codec, s, request).Success?
    ensures s.Admits(PlanResolve(codec, s, request).value.writes)
            <==> ManifestPath(request) !in s.objects || !TellsSupernote(codec, s, StateOf(s, d), request)
  {
    ResolutionWrites(codec, s, d, request);
  }
}
