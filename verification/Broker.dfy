/** inkbridge-broker/src/broker.rs and conflict.rs: deciding what one storage event or one conflict
    resolution does to a document.

    Every operation reads a store, decides, and ends in at most one atomic commit. The decision is a
    function (PlanProcess, PlanResolve) from the store that was read to the writes to commit, so that
    Histories can let other writers run between the reading and the commit. The class Broker performs
    the same operations in place on a MemoryStorage. */
module Brokers {
  import opened Wrappers
  import opened Model
  import opened Storage
  import opened Manifests
  import opened Merge

  /** The conversions the broker calls but does not define: the document ID of an original, PDF extraction and
      rendering, JSON parsing and manifest validation. Every theorem holds for all of them. */
  datatype Codec = Codec(
    stableDocumentId: Digest -> DocumentId,
    booxManifest: (CanonicalDocumentState, StorageEvent, Blob) -> Result<Manifest, string>,
    parseExport: Blob -> Result<Export, string>,
    renderBooxView: (Blob, map<StrokeId, StrokeSnapshot>, set<StrokeId>) -> Result<Blob, string>,
    conflictManifest: (CanonicalDocumentState, PreservedInput, Blob) -> Result<Manifest, string>,
    resolutionManifest: (CanonicalDocumentState, CanonicalDocumentState, PreservedInput, Blob, Blob) -> Result<Manifest, string>)

  datatype BrokerError =
    | InvalidEvent(reason: string)
    | MissingObject(path: Path)
    | CorruptState(reason: string)
    | EvidenceMissing(path: Path)
    | EvidenceHashChanged(path: Path)
    | Conversion(reason: string)
    | StaleDestination(path: Path)
    | WriteRefused(error: CommitError)

  datatype ProcessOutcome =
    | AppliedEvent(destinationPath: Path, sourceRevisions: RevisionPair)
    | DuplicateEvent
    | IgnoredBrokerOutput
    | IgnoredStaleSource
    | PreservedConflict(preservedPath: Path, currentRevisions: RevisionPair, basedOn: RevisionPair)
    | Resolved(strategy: ConflictResolutionStrategy, sourceRevisions: RevisionPair,
               applied: seq<StrokeId>, preserved: seq<StrokeId>)
    | Superseded(sourceRevisions: RevisionPair)
    | DuplicateResolution(strategy: ConflictResolutionStrategy)

  /** `state` is the new canonical state the writes carry; with no writes nothing is committed. */
  datatype Plan = Plan(writes: seq<ConditionalWrite>, state: CanonicalDocumentState, outcome: ProcessOutcome)

  const NO_METADATA := Metadata(None, None, None, None, None, None, None)

  function OutputMetadata(marker: BrokerOutputMarker, hash: Digest): Metadata {
    Metadata(Some(marker.producer), Some(marker.eventId), Some(marker.documentId), Some(marker.sourceRevisions), Some(hash), None, None)
  }

  function StateWrite(d: DocumentId, state: CanonicalDocumentState, precondition: GenerationPrecondition): ConditionalWrite {
    ConditionalWrite(
      StatePath(d), StateJson(state),
      NO_METADATA.(kind := Some("canonical-state"), documentId := Some(state.documentId)), precondition)
  }

  function BooxViewPath(state: CanonicalDocumentState): Path {
    BooxView(state.documentId, state.originalFileName)
  }

  predicate ValidEvent(event: StorageEvent) {
    && event.schemaVersion == 1
    && !IsBlank(event.eventId)
    && !IsBlank(event.documentId)
    && !(event.objectPath.OtherPath? && IsBlank(event.objectPath.name))
  }

  predicate IsBrokerOutput(event: StorageEvent, metadata: Metadata, hash: Digest) {
    && metadata.generatedBy == Some(BROKER_PRODUCER)
    && metadata.documentId == Some(event.documentId)
    && metadata.contentSha256 == Some(hash)
    && event.brokerOutput.Some?
    && event.brokerOutput.value.producer == BROKER_PRODUCER
    && event.brokerOutput.value.documentId == event.documentId
    && metadata.eventId == Some(event.brokerOutput.value.eventId)
  }

  function DestinationPrecondition(state: CanonicalDocumentState, path: Path, current: Option<StoredObject>)
    : Result<GenerationPrecondition, BrokerError>
  {
    if path in state.generatedViews && current.Some? then
      if Sha256(current.value.bytes) == state.generatedViews[path].contentSha256
      then Success(Match(current.value.generation))
      else Failure(StaleDestination(path))
    else if path !in state.generatedViews && current.None? then Success(DoesNotExist)
    else Failure(StaleDestination(path))
  }

  function ReadObject(store: Store, path: Path): Option<StoredObject> {
    if path in store.objects then Some(store.objects[path]) else None
  }

  function ReadVersion(store: Store, path: Path, generation: nat): Option<StoredObject> {
    if (path, generation) in store.versions then Some(store.versions[(path, generation)]) else None
  }

  function ReadState(store: Store, d: DocumentId): Result<(CanonicalDocumentState, nat), BrokerError> {
    match ReadObject(store, StatePath(d))
    case None => Failure(MissingObject(StatePath(d)))
    case Some(stored) =>
      if stored.bytes.StateJson? then Success((stored.bytes.state, stored.generation))
      else Failure(CorruptState("canonical state is not readable"))
  }

  // ---------------------------------------------------------------- mark_event_only

  function Marked(state: CanonicalDocumentState, event: StorageEvent): CanonicalDocumentState {
    state.(processedEventIds := state.processedEventIds + {event.eventId},
    sourceGenerations := state.sourceGenerations[event.objectPath := event.sourceGeneration],
    stateRevision := state.stateRevision + 1)
  }

  function PlanMark(state: CanonicalDocumentState, generation: nat, event: StorageEvent, outcome: ProcessOutcome): Plan {
    Plan([StateWrite(event.documentId, Marked(state, event), Match(generation))], Marked(state, event), outcome)
  }

  // ---------------------------------------------------------------- preserve_conflict

  function ConflictMetadata(kind: string, event: StorageEvent): Metadata {
    NO_METADATA.(kind := Some(kind), documentId := Some(event.documentId), eventId := Some(event.eventId))
  }

  /** The copy of the accepted input of `side` that competes with the event, if there is one. */
  function CompetingWrite(store: Store, state: CanonicalDocumentState, event: StorageEvent, side: DeviceSide)
    : Result<seq<ConditionalWrite>, BrokerError>
  {
    var device := state.Device(side);
    if device.revision <= event.basedOn.Get(side) || device.sourceObjectPath.None? then Success([])
    else
      var evidencePath := device.sourceObjectPath.value;
      match ReadVersion(store, evidencePath, device.sourceGeneration)
      case None => Failure(EvidenceMissing(evidencePath))
      case Some(evidence) =>
        if Some(Sha256(evidence.bytes)) != device.contentSha256 then Failure(EvidenceHashChanged(evidencePath))
        else Success([ConditionalWrite(
                        ConflictCurrent(event.documentId, event.eventId, side), evidence.bytes,
                        ConflictMetadata("conflict-competing-input", event), DoesNotExist)])
  }

  function PathsOf(writes: seq<ConditionalWrite>): seq<Path> {
    seq(|writes|, i requires 0 <= i < |writes| => writes[i].path)
  }

  function Preserved(state: CanonicalDocumentState, event: StorageEvent, hash: Digest, competing: seq<Path>): CanonicalDocumentState {
    state.(conflicts := state.conflicts + [
      PreservedInput(
        event.eventId, event.source, event.objectPath, event.payloadKind,
        ConflictIncoming(event.documentId, event.eventId), competing, event.sourceGeneration,
        event.sourceRevision, hash, event.basedOn, state.Revisions())],
    processedEventIds := state.processedEventIds + {event.eventId},
    stateRevision := state.stateRevision + 1)
  }

  function PlanPreserve(store: Store, state: CanonicalDocumentState, generation: nat, event: StorageEvent, input: Blob)
    : Result<Plan, BrokerError>
  {
    var incoming := ConditionalWrite(
                      ConflictIncoming(event.documentId, event.eventId), input, ConflictMetadata("conflict-input", event), DoesNotExist);
    var boox :- CompetingWrite(store, state, event, Boox);
    var supernote :- CompetingWrite(store, state, event, Supernote);
    var next := Preserved(state, event, Sha256(input), PathsOf(boox + supernote));
    Success(Plan([incoming] + boox + supernote + [StateWrite(event.documentId, next, Match(generation))], next,
                 PreservedConflict(incoming.path, state.Revisions(), event.basedOn)))
  }

  // ---------------------------------------------------------------- applying an event

  function EventAuthor(event: StorageEvent): Author {
    Author(event.source, event.sourceRevision, event.basedOn.Set(event.source, event.sourceRevision), event.eventId)
  }

  predicate ExportFits(state: CanonicalDocumentState, basedOn: RevisionPair, exported: Export) {
    && (exported.documentId.Some? ==> exported.documentId.value == state.documentId)
    && (exported.basedOn.Some? ==> exported.basedOn.value == basedOn)
    && (forall page :: page in exported.pages ==> page.pageIndex < state.originalPageCount)
  }

  /** The canonical state once `event` is accepted with the given strokes and device file names. */
  function Accepted(state: CanonicalDocumentState, event: StorageEvent, hash: Digest, strokes: StrokeMap, fileName: Option<string>)
    : CanonicalDocumentState
  {
    var device := state.Device(event.source).(
      revision := event.sourceRevision, contentSha256 := Some(hash), sourceGeneration := event.sourceGeneration,
      sourceObjectPath := Some(event.objectPath), sourceFileName := fileName);
    var next := state.WithDevice(event.source, device);
    next.(strokes := strokes,
    lastCommonRevisions := next.Revisions(),
    sourceGenerations := state.sourceGenerations[event.objectPath := event.sourceGeneration],
    generatedViews :=
      if event.objectPath in state.generatedViews
      then state.generatedViews[event.objectPath :=
             state.generatedViews[event.objectPath].(
               contentSha256 := hash, sourceRevisions := next.Revisions(), eventId := event.eventId)]
      else state.generatedViews,
    processedEventIds := state.processedEventIds + {event.eventId},
    stateRevision := state.stateRevision + 1)
  }

  function WithView(state: CanonicalDocumentState, path: Path, hash: Digest, revisions: RevisionPair, eventId: EventId)
    : CanonicalDocumentState
  {
    state.(generatedViews := state.generatedViews[path := GeneratedView(path, hash, revisions, eventId)])
  }

  function PlanDeliver(store: Store, accepted: CanonicalDocumentState, generation: nat, event: StorageEvent, path: Path, output: Blob)
    : Result<Plan, BrokerError>
  {
    var precondition :- DestinationPrecondition(accepted, path, ReadObject(store, path));
    var revisions := accepted.Revisions();
    var next := WithView(accepted, path, Sha256(output), revisions, event.eventId);
    var marker := BrokerOutputMarker(BROKER_PRODUCER, event.eventId, event.documentId, revisions);
    Success(Plan(
              [ConditionalWrite(path, output, OutputMetadata(marker, Sha256(output)), precondition),
               StateWrite(event.documentId, next, Match(generation))],
              next, AppliedEvent(path, revisions)))
  }

  function PlanApplyBoox(codec: Codec, store: Store, state: CanonicalDocumentState, generation: nat, event: StorageEvent, input: Blob)
    : Result<Plan, BrokerError>
  {
    match codec.booxManifest(state, event, input)
    case Failure(reason) => Failure(Conversion(reason))
    case Success(manifest) =>
      var strokes := Applied(state.strokes, manifest.operations, EventAuthor(event));
      PlanDeliver(store, Accepted(state, event, Sha256(input), strokes, Some(manifest.sourceFileName)), generation, event,
                  SupernoteManifest(event.documentId, event.eventId), ManifestJson(manifest))
  }

  function ReadOriginal(store: Store, state: CanonicalDocumentState): Result<Blob, BrokerError> {
    match ReadObject(store, OriginalPath(state.documentId))
    case None => Failure(MissingObject(OriginalPath(state.documentId)))
    case Some(original) =>
      if Sha256(original.bytes) != state.originalPdfSha256 then Failure(CorruptState("immutable original PDF hash changed"))
      else Success(original.bytes)
  }

  function PlanApplySupernote(codec: Codec, store: Store, state: CanonicalDocumentState, generation: nat, event: StorageEvent, input: Blob)
    : Result<Plan, BrokerError>
  {
    match codec.parseExport(input)
    case Failure(reason) => Failure(Conversion(reason))
    case Success(exported) =>
      if !ExportFits(state, event.basedOn, exported) then Failure(InvalidEvent("Supernote export does not fit"))
      else
        var strokes := ExportApplied(state.strokes, exported.pages, EventAuthor(event));
        var fileName := if exported.sourceFileName.Some? then exported.sourceFileName else state.supernote.sourceFileName;
        var original :- ReadOriginal(store, state);
        match codec.renderBooxView(original, ActiveSnapshots(strokes), TombstonedIds(strokes))
        case Failure(reason) => Failure(Conversion(reason))
        case Success(pdf) =>
          PlanDeliver(store, Accepted(state, event, Sha256(input), strokes, fileName), generation, event, BooxViewPath(state), pdf)
  }

  // ---------------------------------------------------------------- process

  predicate FollowsPreservedPredecessor(state: CanonicalDocumentState, event: StorageEvent) {
    && event.sourceRevision > state.Revisions().Get(event.source) + 1
    && event.basedOn.Get(event.source) == event.sourceRevision - 1
    && exists i :: 0 <= i < |state.conflicts| && state.conflicts[i].source == event.source
                   && state.conflicts[i].sourceRevision == event.sourceRevision - 1
  }

  function PlanRevision(codec: Codec, store: Store, state: CanonicalDocumentState, generation: nat, event: StorageEvent, input: Blob)
    : Result<Plan, BrokerError>
  {
    var current := state.Revisions();
    var device := state.Device(event.source);
    if event.sourceRevision <= event.basedOn.Get(event.source) then
      Failure(InvalidEvent("source revision must be newer than its based-on revision"))
    else if event.sourceRevision <= device.revision then
      if Some(Sha256(input)) != device.contentSha256 then PlanPreserve(store, state, generation, event, input)
      else Success(PlanMark(state, generation, event, IgnoredStaleSource))
    else if current.Get(event.source) == U64_MAX then Failure(InvalidEvent("source revision overflow"))
    else if event.sourceRevision != current.Get(event.source) + 1 && !FollowsPreservedPredecessor(state, event) then
      Failure(InvalidEvent("source revision must follow the current revision or a preserved predecessor"))
    else if event.basedOn != current then PlanPreserve(store, state, generation, event, input)
    else
      match event.source
      case Boox => PlanApplyBoox(codec, store, state, generation, event, input)
      case Supernote => PlanApplySupernote(codec, store, state, generation, event, input)
  }

  function PlanFresh(codec: Codec, store: Store, state: CanonicalDocumentState, generation: nat, event: StorageEvent)
    : Result<Plan, BrokerError>
  {
    match ReadVersion(store, event.objectPath, event.sourceGeneration)
    case None =>
      var latest := ReadObject(store, event.objectPath);
      if latest.Some? && latest.value.generation > event.sourceGeneration
      then Success(PlanMark(state, generation, event, IgnoredStaleSource))
      else Failure(MissingObject(event.objectPath))
    case Some(source) =>
      var hash := Sha256(source.bytes);
      if event.contentSha256.Some? && event.contentSha256.value != hash then
        Failure(InvalidEvent("source content hash mismatch"))
      else if IsBrokerOutput(event, source.metadata, hash) then
        Success(PlanMark(state, generation, event, IgnoredBrokerOutput))
      else PlanRevision(codec, store, state, generation, event.(contentSha256 := Some(hash)), source.bytes)
  }

  function PlanProcess(codec: Codec, store: Store, event: StorageEvent): Result<Plan, BrokerError> {
    if !ValidEvent(event) then Failure(InvalidEvent("malformed event"))
    else
      var (state, generation) :- ReadState(store, event.documentId);
      if state.documentId != event.documentId then Failure(CorruptState("state path contains a different document id"))
      else if event.eventId in state.processedEventIds then Success(Plan([], state, DuplicateEvent))
      else PlanFresh(codec, store, state, generation, event)
  }

  // ---------------------------------------------------------------- resolve_conflict

  datatype ResolutionRequest = ResolutionRequest(
    schemaVersion: nat,
    resolutionId: EventId,
    documentId: DocumentId,
    conflictEventId: EventId,
    expectedStateRevision: nat,
    expectedCurrentRevisions: RevisionPair,
    strategy: ConflictResolutionStrategy)

  predicate ValidRequest(request: ResolutionRequest) {
    && request.schemaVersion == 1
    && !IsBlank(request.resolutionId)
    && !IsBlank(request.documentId)
    && !IsBlank(request.conflictEventId)
  }

  function FindConflict(conflicts: seq<PreservedInput>, eventId: EventId): Option<PreservedInput> {
    if conflicts == [] then None
    else if conflicts[0].eventId == eventId then Some(conflicts[0])
    else FindConflict(conflicts[1..], eventId)
  }

  function Without(conflicts: seq<PreservedInput>, eventId: EventId): seq<PreservedInput> {
    if conflicts == [] then []
    else if conflicts[0].eventId == eventId then Without(conflicts[1..], eventId)
    else [conflicts[0]] + Without(conflicts[1..], eventId)
  }

  /** Incremental inputs (Supernote exports, compact manifests) must be resolved in revision order. */
  predicate InResolutionOrder(state: CanonicalDocumentState, conflict: PreservedInput) {
    conflict.source.Supernote? || conflict.payloadKind.BooxOperationManifest? ==>
      && (forall i :: 0 <= i < |state.conflicts| ==>
                        var other := state.conflicts[i];
                        !(other.source == conflict.source && other.eventId != conflict.eventId
                          && other.sourceRevision < conflict.sourceRevision))
      && (conflict.sourceRevision > state.Device(conflict.source).revision ==>
            state.Device(conflict.source).revision == conflict.basedOn.Get(conflict.source))
  }

  function ResolutionDestination(state: CanonicalDocumentState, conflict: PreservedInput, path: Path, destination: Option<StoredObject>)
    : Result<GenerationPrecondition, BrokerError>
  {
    if conflict.source.Boox? && conflict.payloadKind.DeviceView? && conflict.objectPath == path
       && destination.Some?
       && destination.value.generation == conflict.sourceGeneration
       && Sha256(destination.value.bytes) == conflict.contentSha256
    then Success(Match(destination.value.generation))
    else DestinationPrecondition(state, path, destination)
  }

  function ProposedManifest(codec: Codec, state: CanonicalDocumentState, conflict: PreservedInput, input: Blob)
    : Result<Manifest, BrokerError>
  {
    match conflict.source
    case Boox =>
      (match codec.conflictManifest(state, conflict, input)
       case Failure(reason) => Failure(Conversion(reason))
       case Success(manifest) => Success(manifest))
    case Supernote =>
      match codec.parseExport(input)
      case Failure(reason) => Failure(Conversion(reason))
      case Success(exported) =>
        if !ExportFits(state, conflict.basedOn, exported) then Failure(InvalidEvent("Supernote export does not fit"))
        else
          var fileName := if exported.sourceFileName.Some? then exported.sourceFileName.value
                          else if state.supernote.sourceFileName.Some? then state.supernote.sourceFileName.value
                          else state.originalFileName;
          Success(Manifest(fileName, ExportOperations(state.strokes, exported.pages)))
  }

  function ResolutionMetadata(request: ResolutionRequest): Metadata {
    Metadata(Some(BROKER_PRODUCER), Some(request.resolutionId), Some(request.documentId), None, None,
             Some(RESOLUTION_KIND), Some(request.conflictEventId))
  }

  function MarkerWrite(request: ResolutionRequest, record: ConflictResolutionRecord): ConditionalWrite {
    ConditionalWrite(ResolutionMarker(request.documentId, request.conflictEventId), ResolutionJson(record),
                     ResolutionMetadata(request), DoesNotExist)
  }

  function PlanSupersede(state: CanonicalDocumentState, generation: nat, conflict: PreservedInput, request: ResolutionRequest): Plan {
    var record := ConflictResolutionRecord(
                    request.resolutionId, request.conflictEventId, request.strategy, true, conflict.source,
                    state.Revisions(), state.Revisions(), [], [],
                    ResolutionMarker(request.documentId, request.conflictEventId));
    var next := state.(
      stateRevision := state.stateRevision + 1,
      conflicts := Without(state.conflicts, request.conflictEventId),
      resolvedConflicts := state.resolvedConflicts[request.conflictEventId := record]);
    Plan([MarkerWrite(request, record), StateWrite(request.documentId, next, Match(generation))], next,
         Superseded(state.Revisions()))
  }

  function ResolutionAuthor(state: CanonicalDocumentState, conflict: PreservedInput, request: ResolutionRequest): Author {
    Author(conflict.source, conflict.sourceRevision,
           state.Revisions().Set(conflict.source, conflict.sourceRevision), request.resolutionId)
  }

  /** Advancing resolutions consume the preserved source revision; an alternate payload does not. */
  function AdvancedSource(state: CanonicalDocumentState, conflict: PreservedInput, inputGeneration: nat, fileName: string)
    : CanonicalDocumentState
  {
    if conflict.sourceRevision == state.Device(conflict.source).revision then state
    else
      var device := DeviceRevision(conflict.sourceRevision, Some(conflict.contentSha256), inputGeneration,
                                   Some(conflict.preservedPath), Some(fileName));
      state.WithDevice(conflict.source, device).(
      sourceGenerations := state.sourceGenerations[conflict.preservedPath := inputGeneration])
  }

  /** The canonical state after a resolution chose `strokes`, before its views and record are added. */
  function Settled(
    state: CanonicalDocumentState, conflict: PreservedInput, inputGeneration: nat, fileName: string,
    strokes: StrokeMap, request: ResolutionRequest): CanonicalDocumentState
  {
    var advanced := AdvancedSource(state, conflict, inputGeneration, fileName);
    advanced.(strokes := strokes,
    lastCommonRevisions := advanced.Revisions(),
    stateRevision := state.stateRevision + 1,
    conflicts := Without(state.conflicts, request.conflictEventId))
  }

  function ChosenStrokes(
    state: CanonicalDocumentState, conflict: PreservedInput, selection: Selection, request: ResolutionRequest): StrokeMap
  {
    if request.strategy.KeepCurrent? then state.strokes
    else Applied(state.strokes, selection.operations, ResolutionAuthor(state, conflict, request))
  }

  function SupernoteOutput(request: ResolutionRequest, marker: BrokerOutputMarker, manifest: Manifest): seq<ConditionalWrite> {
    if manifest.operations == [] then []
    else [ConditionalWrite(
            SupernoteManifest(request.documentId, request.resolutionId), ManifestJson(manifest),
            OutputMetadata(marker, Sha256(ManifestJson(manifest))), DoesNotExist)]
  }

  function ResolutionRecord(
    state: CanonicalDocumentState, settled: CanonicalDocumentState, conflict: PreservedInput, selection: Selection,
    request: ResolutionRequest): ConflictResolutionRecord
  {
    ConflictResolutionRecord(
      request.resolutionId, request.conflictEventId, request.strategy, false, conflict.source,
      state.Revisions(), settled.Revisions(), selection.applied, selection.preserved,
      ResolutionMarker(request.documentId, request.conflictEventId))
  }

  /** The final state of a resolution: its generated views and its audit record added. */
  function Recorded(
    settled: CanonicalDocumentState, request: ResolutionRequest, record: ConflictResolutionRecord, pdf: Blob, manifest: Manifest)
    : CanonicalDocumentState
  {
    var withBoox := WithView(settled, BooxViewPath(settled), Sha256(pdf), settled.Revisions(), request.resolutionId);
    var withBoth :=
      if manifest.operations == [] then withBoox
      else WithView(withBoox, SupernoteManifest(request.documentId, request.resolutionId),
                    Sha256(ManifestJson(manifest)), settled.Revisions(), request.resolutionId);
    withBoth.(resolvedConflicts := withBoth.resolvedConflicts[request.conflictEventId := record])
  }

  function PlanPublish(
    codec: Codec, store: Store, state: CanonicalDocumentState, generation: nat, conflict: PreservedInput, input: StoredObject,
    settled: CanonicalDocumentState, selection: Selection, request: ResolutionRequest): Result<Plan, BrokerError>
  {
    var original :- ReadOriginal(store, settled);
    match codec.renderBooxView(original, ActiveSnapshots(settled.strokes), TombstonedIds(settled.strokes))
    case Failure(reason) => Failure(Conversion(reason))
    case Success(pdf) =>
      match codec.resolutionManifest(state, settled, conflict, input.bytes, pdf)
      case Failure(reason) => Failure(Conversion(reason))
      case Success(manifest) =>
        var booxPath := BooxViewPath(settled);
        var precondition :- ResolutionDestination(state, conflict, booxPath, ReadObject(store, booxPath));
        var marker := BrokerOutputMarker(BROKER_PRODUCER, request.resolutionId, request.documentId, settled.Revisions());
        var record := ResolutionRecord(state, settled, conflict, selection, request);
        var next := Recorded(settled, request, record, pdf, manifest);
        Success(Plan(
                  [ConditionalWrite(booxPath, pdf, OutputMetadata(marker, Sha256(pdf)), precondition)]
                  + SupernoteOutput(request, marker, manifest)
                  + [MarkerWrite(request, record), StateWrite(request.documentId, next, Match(generation))],
                  next, Resolved(request.strategy, settled.Revisions(), selection.applied, selection.preserved)))
  }

  function PlanMerge(
    codec: Codec, store: Store, state: CanonicalDocumentState, generation: nat, conflict: PreservedInput, input: StoredObject,
    request: ResolutionRequest): Result<Plan, BrokerError>
  {
    var proposed :- ProposedManifest(codec, state, conflict, input.bytes);
    match Classify(state, conflict, proposed.operations)
    case None => Failure(Conversion("conflict contains an unsupported operation set"))
    case Some(groups) =>
      var selection := Selected(groups, request.strategy);
      var strokes := ChosenStrokes(state, conflict, selection, request);
      PlanPublish(codec, store, state, generation, conflict, input,
                  Settled(state, conflict, input.generation, proposed.sourceFileName, strokes, request), selection, request)
  }

  function PlanResolveActive(codec: Codec, store: Store, state: CanonicalDocumentState, generation: nat, request: ResolutionRequest)
    : Result<Plan, BrokerError>
  {
    match FindConflict(state.conflicts, request.conflictEventId)
    case None => Failure(InvalidEvent("conflict is not active"))
    case Some(conflict) =>
      match ReadObject(store, conflict.preservedPath)
      case None => Failure(EvidenceMissing(conflict.preservedPath))
      case Some(input) =>
        var current := state.Device(conflict.source).revision;
        if Sha256(input.bytes) != conflict.contentSha256 then Failure(EvidenceHashChanged(conflict.preservedPath))
        else if conflict.sourceRevision < current then Success(PlanSupersede(state, generation, conflict, request))
        else if conflict.sourceRevision == current && !request.strategy.KeepCurrent? then
          Failure(InvalidEvent("alternate payload for an already accepted revision: only keep_current is safe"))
        else if !InResolutionOrder(state, conflict) then Failure(InvalidEvent("an earlier incremental conflict comes first"))
        else PlanMerge(codec, store, state, generation, conflict, input, request)
  }

  function PlanResolve(codec: Codec, store: Store, request: ResolutionRequest): Result<Plan, BrokerError> {
    if !ValidRequest(request) then Failure(InvalidEvent("malformed resolution request"))
    else
      var (state, generation) :- ReadState(store, request.documentId);
      if request.conflictEventId in state.resolvedConflicts then
        var record := state.resolvedConflicts[request.conflictEventId];
        if record.resolutionId == request.resolutionId && record.strategy == request.strategy
        then Success(Plan([], state, DuplicateResolution(record.strategy)))
        else Failure(InvalidEvent("conflict was already resolved"))
      else if state.stateRevision != request.expectedStateRevision || state.Revisions() != request.expectedCurrentRevisions then
        Failure(InvalidEvent("conflict analysis is stale"))
      else PlanResolveActive(codec, store, state, generation, request)
  }

  // ---------------------------------------------------------------- register_document

  function InitialState(d: DocumentId, original: Blob, fileName: string, pageCount: nat): CanonicalDocumentState {
    CanonicalDocumentState(
      d, Sha256(original), fileName, pageCount, 0, NO_DEVICE, NO_DEVICE, NO_REVISIONS, {}, map[], map[], map[], [], map[])
  }

  function RegisterWrites(d: DocumentId, original: Blob, fileName: string, pageCount: nat): seq<ConditionalWrite> {
    [ConditionalWrite(OriginalPath(d), original,
                      NO_METADATA.(kind := Some("immutable-original"), documentId := Some(d)), DoesNotExist),
     StateWrite(d, InitialState(d, original, fileName, pageCount), DoesNotExist)]
  }

  datatype Registration = Registration(writes: seq<ConditionalWrite>, state: CanonicalDocumentState)

  /** Registering an original that is registered already changes nothing, unless its state was stored before page
      counts were. `pageCount` is 0 for an original that is not a readable PDF. */
  function PlanRegister(codec: Codec, store: Store, original: Blob, fileName: string, pageCount: nat): Result<Registration, BrokerError> {
    var d := codec.stableDocumentId(Sha256(original));
    if IsBlank(fileName) || pageCount == 0 then Failure(InvalidEvent("original must be a readable PDF with a name"))
    else
      match ReadObject(store, StatePath(d))
      case None =>
        Success(Registration(RegisterWrites(d, original, fileName, pageCount), InitialState(d, original, fileName, pageCount)))
      case Some(existing) =>
        if !existing.bytes.StateJson? then Failure(CorruptState("canonical state is not readable"))
        else
          var state := existing.bytes.state;
          if state.originalPdfSha256 != Sha256(original) then Failure(InvalidEvent("document id collision with a different immutable original"))
          else if state.originalPageCount == 0 then
            var counted := state.(originalPageCount := pageCount);
            Success(Registration([StateWrite(d, counted, Match(existing.generation))], counted))
          else Success(Registration([], state))
  }
}
