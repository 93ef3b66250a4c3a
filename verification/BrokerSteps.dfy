/** Every commit a broker operation makes keeps the invariant and only evolves the state, even when
    the plan was made from an older store than the one it commits to. */
module BrokerSteps {
  import opened Wrappers
  import opened Model
  import opened Storage
  import opened Manifests
  import opened Merge
  import opened Brokers
  import opened BrokerInvariant

  /** If the state write of a plan made from `snap` is admitted later, the state has not moved since. */
  lemma SameState(snap: Store, s: Store, d: DocumentId, writes: seq<ConditionalWrite>, next: CanonicalDocumentState)
    requires snap.Valid() && ReadState(snap, d).Success? && Follows(snap, s) && s.Admits(writes)
    requires writes != [] && writes[|writes| - 1] == StateWrite(d, next, Match(ReadState(snap, d).value.1))
    ensures ReadState(s, d) == ReadState(snap, d)
  {
    assert Holds(writes[|writes| - 1].precondition, s.Generation(StatePath(d)));
  }

  /** An object that still has the generation it was read at is the object that was read. */
  lemma SameObject(snap: Store, s: Store, p: Path)
    requires snap.Valid() && Follows(snap, s)
    requires p in snap.objects && s.Generation(p) == Some(snap.objects[p].generation)
    ensures p in s.objects && s.objects[p] == snap.objects[p]
  {
  }

  lemma MarkStep(s: Store, d: DocumentId, generation: nat, event: StorageEvent, outcome: ProcessOutcome)
    requires Inv(s, d) && event.documentId == d
    requires s.Admits(PlanMark(StateOf(s, d), generation, event, outcome).writes)
    ensures var plan := PlanMark(StateOf(s, d), generation, event, outcome);
            && Inv(s.Commit(plan.writes), d)
            && StateOf(s.Commit(plan.writes), d) == plan.state
            && Evolves(StateOf(s, d), plan.state)
  {
    var plan := PlanMark(StateOf(s, d), generation, event, outcome);
    InstallKeepsInv(s, plan.writes, d, plan.state, generation, event.eventId);
  }

  // ---------------------------------------------------------------- preserving a conflict

  lemma CompetingShape(snap: Store, state: CanonicalDocumentState, event: StorageEvent, side: DeviceSide)
    requires CompetingWrite(snap, state, event, side).Success?
    ensures var writes := CompetingWrite(snap, state, event, side).value;
            && |writes| <= 1
            && (writes != [] ==> && writes[0].path == ConflictCurrent(event.documentId, event.eventId, side)
                                 && writes[0].precondition == DoesNotExist)
  {
  }

  lemma PreserveShape(snap: Store, state: CanonicalDocumentState, generation: nat, event: StorageEvent, input: Blob)
    requires PlanPreserve(snap, state, generation, event, input).Success?
    ensures var plan := PlanPreserve(snap, state, generation, event, input).value;
            && Shape(plan.writes, event.documentId, plan.state, generation, event.eventId)
            && |plan.writes| >= 2
            && plan.writes[0].path == ConflictIncoming(event.documentId, event.eventId)
            && plan.writes[0].bytes == input
            && plan.writes[0].precondition == DoesNotExist
            && (forall i :: 0 < i < |plan.writes| - 1 ==> plan.writes[i].path.ConflictCurrent?)
            && exists competing :: plan.state == Preserved(state, event, Sha256(input), competing)
  {
    CompetingShape(snap, state, event, Boox);
    CompetingShape(snap, state, event, Supernote);
    var boox := CompetingWrite(snap, state, event, Boox).value;
    var supernote := CompetingWrite(snap, state, event, Supernote).value;
    var plan := PlanPreserve(snap, state, generation, event, input).value;
    assert plan.state == Preserved(state, event, Sha256(input), PathsOf(boox + supernote));
  }

  lemma PreservedStateOk(state: CanonicalDocumentState, event: StorageEvent, hash: Digest, competing: seq<Path>)
    requires ConflictIds(state) && event.eventId !in state.processedEventIds
    ensures ConflictIds(Preserved(state, event, hash, competing))
    ensures Evolves(state, Preserved(state, event, hash, competing))
  {
    var next := Preserved(state, event, hash, competing);
    forall c | c in next.conflicts ensures c.eventId in next.processedEventIds && c.eventId !in next.resolvedConflicts {
      if c !in state.conflicts {
        assert c == next.conflicts[|next.conflicts| - 1];
      }
    }
    forall i, j | 0 <= i < j < |next.conflicts| ensures next.conflicts[i].eventId != next.conflicts[j].eventId {
      assert state.conflicts[i] in state.conflicts;
    }
  }

  lemma PreserveStep(snap: Store, s: Store, d: DocumentId, generation: nat, event: StorageEvent, input: Blob)
    requires Inv(s, d) && event.documentId == d
    requires event.eventId !in StateOf(s, d).processedEventIds
    requires PlanPreserve(snap, StateOf(s, d), generation, event, input).Success?
    requires s.Admits(PlanPreserve(snap, StateOf(s, d), generation, event, input).value.writes)
    ensures var plan := PlanPreserve(snap, StateOf(s, d), generation, event, input).value;
            && Inv(s.Commit(plan.writes), d)
            && StateOf(s.Commit(plan.writes), d) == plan.state
            && Evolves(StateOf(s, d), plan.state)
  {
    var state := StateOf(s, d);
    var plan := PlanPreserve(snap, state, generation, event, input).value;
    PreserveShape(snap, state, generation, event, input);
    var competing :| plan.state == Preserved(state, event, Sha256(input), competing);
    PreservedStateOk(state, event, Sha256(input), competing);
    forall c | c in plan.state.conflicts && c !in state.conflicts
      ensures c.eventId == event.eventId && plan.writes[0].path == ConflictIncoming(d, event.eventId) == c.preservedPath
              && Sha256(plan.writes[0].bytes) == c.contentSha256
    {
      assert c == plan.state.conflicts[|plan.state.conflicts| - 1];
    }
    InstallKeepsInv(s, plan.writes, d, plan.state, generation, event.eventId);
  }

  // ---------------------------------------------------------------- applying an event

  lemma AcceptedFields(state: CanonicalDocumentState, event: StorageEvent, hash: Digest, strokes: StrokeMap, fileName: Option<string>)
    ensures var next := Accepted(state, event, hash, strokes, fileName);
            && next.Revisions() == state.Revisions().Set(event.source, event.sourceRevision) == next.lastCommonRevisions
            && next.Device(event.source).revision == event.sourceRevision
            && next.Device(event.source).contentSha256 == Some(hash)
            && next.Device(event.source).sourceGeneration == event.sourceGeneration
            && next.Device(event.source).sourceObjectPath == Some(event.objectPath)
            && next.Device(event.source.Other()) == state.Device(event.source.Other())
            && next.strokes == strokes
            && next.processedEventIds == state.processedEventIds + {event.eventId}
            && next.conflicts == state.conflicts && next.resolvedConflicts == state.resolvedConflicts
            && next.documentId == state.documentId && next.originalPdfSha256 == state.originalPdfSha256
            && next.originalFileName == state.originalFileName
  {
  }

  /** The conditions under which an event may be accepted with the strokes `strokes`. */
  ghost predicate MayAccept(s: Store, state: CanonicalDocumentState, event: StorageEvent, hash: Digest, strokes: StrokeMap) {
    && event.eventId !in state.processedEventIds
    && event.basedOn == state.Revisions() && event.sourceRevision > state.Revisions().Get(event.source)
    && Restamped(state.strokes, strokes, EventAuthor(event).frontier)
    && ReadVersion(s, event.objectPath, event.sourceGeneration).Some?
    && hash == Sha256(ReadVersion(s, event.objectPath, event.sourceGeneration).value.bytes)
  }

  lemma AcceptedEvolves(
    s: Store, state: CanonicalDocumentState, event: StorageEvent, hash: Digest, strokes: StrokeMap, fileName: Option<string>)
    requires ConflictIds(state) && Stamps(state) && MayAccept(s, state, event, hash, strokes)
    ensures var next := Accepted(state, event, hash, strokes, fileName);
            Evolves(state, next) && ConflictIds(next) && Stamps(next)
  {
    AcceptedFields(state, event, hash, strokes, fileName);
    RestampedWithin(state.strokes, strokes, state.Revisions(), EventAuthor(event).frontier);
  }

  lemma AcceptedEvidence(
    s: Store, state: CanonicalDocumentState, event: StorageEvent, hash: Digest, strokes: StrokeMap, fileName: Option<string>)
    requires DeviceEvidence(s, state.boox) && DeviceEvidence(s, state.supernote)
    requires MayAccept(s, state, event, hash, strokes)
    ensures var next := Accepted(state, event, hash, strokes, fileName);
            DeviceEvidence(s, next.boox) && DeviceEvidence(s, next.supernote)
  {
    AcceptedFields(state, event, hash, strokes, fileName);
    var next := Accepted(state, event, hash, strokes, fileName);
    assert DeviceEvidence(s, next.Device(event.source));
    assert DeviceEvidence(s, next.Device(event.source.Other()));
  }

  lemma DeliverShape(snap: Store, accepted: CanonicalDocumentState, d: DocumentId, generation: nat, event: StorageEvent, path: Path, output: Blob)
    requires InDeviceFolder(path) && event.documentId == d
    requires PlanDeliver(snap, accepted, generation, event, path, output).Success?
    ensures var plan := PlanDeliver(snap, accepted, generation, event, path, output).value;
            && Shape(plan.writes, d, plan.state, generation, event.eventId)
            && |plan.writes| == 2 && !BrokerOwned(plan.writes[0].path, d)
            && plan.writes[0].path == path && plan.writes[0].bytes == output
            && plan.state == WithView(accepted, path, Sha256(output), accepted.Revisions(), event.eventId)
            && plan.outcome.AppliedEvent?
  {
  }

  lemma DeliverStep(
    snap: Store, s: Store, d: DocumentId, generation: nat, event: StorageEvent, hash: Digest, strokes: StrokeMap,
    fileName: Option<string>, path: Path, output: Blob)
    requires Inv(s, d) && event.documentId == d && InDeviceFolder(path)
    requires MayAccept(s, StateOf(s, d), event, hash, strokes)
    requires PlanDeliver(snap, Accepted(StateOf(s, d), event, hash, strokes, fileName), generation, event, path, output).Success?
    requires s.Admits(PlanDeliver(snap, Accepted(StateOf(s, d), event, hash, strokes, fileName), generation, event, path, output).value.writes)
    ensures var plan := PlanDeliver(snap, Accepted(StateOf(s, d), event, hash, strokes, fileName), generation, event, path, output).value;
            && Inv(s.Commit(plan.writes), d)
            && StateOf(s.Commit(plan.writes), d) == plan.state
            && Evolves(StateOf(s, d), plan.state)
            && plan.state.Revisions() == event.basedOn.Set(event.source, event.sourceRevision)
  {
    var state := StateOf(s, d);
    var accepted := Accepted(state, event, hash, strokes, fileName);
    AcceptedFields(state, event, hash, strokes, fileName);
    AcceptedEvolves(s, state, event, hash, strokes, fileName);
    AcceptedEvidence(s, state, event, hash, strokes, fileName);
    DeliverShape(snap, accepted, d, generation, event, path, output);
    var plan := PlanDeliver(snap, accepted, generation, event, path, output).value;
    assert plan.state.Revisions() == accepted.Revisions();
    assert Evolves(state, plan.state);
    InstallKeepsInv(s, plan.writes, d, plan.state, generation, event.eventId);
  }

  /** A plan made by applying an event: the next revision, on the current frontier. */
  ghost predicate Applies(plan: Plan) {
    plan.outcome.AppliedEvent?
  }

  /** What one committed plan guarantees. */
  ghost predicate StepOk(s: Store, d: DocumentId, event: StorageEvent, plan: Plan) {
    && Inv(s.Commit(plan.writes), d)
    && StateOf(s.Commit(plan.writes), d) == plan.state
    && (ReadState(s, d).Success? ==>
          && Evolves(StateOf(s, d), plan.state)
          && (Applies(plan) ==>
                && event.basedOn == StateOf(s, d).Revisions()
                && event.sourceRevision == StateOf(s, d).Revisions().Get(event.source) + 1
                && plan.state.Revisions() == event.basedOn.Set(event.source, event.sourceRevision))
          && (!Applies(plan) ==>
                && plan.state.strokes == StateOf(s, d).strokes
                && plan.state.Revisions() == StateOf(s, d).Revisions()))
  }

  lemma ApplyBooxStep(codec: Codec, snap: Store, s: Store, d: DocumentId, generation: nat, event: StorageEvent, input: Blob)
    requires Inv(s, d) && event.documentId == d
    requires event.sourceRevision == StateOf(s, d).Revisions().Get(event.source) + 1
    requires event.eventId !in StateOf(s, d).processedEventIds
    requires event.basedOn == StateOf(s, d).Revisions()
    requires ReadVersion(s, event.objectPath, event.sourceGeneration).Some?
    requires input == ReadVersion(s, event.objectPath, event.sourceGeneration).value.bytes
    requires PlanApplyBoox(codec, snap, StateOf(s, d), generation, event, input).Success?
    requires s.Admits(PlanApplyBoox(codec, snap, StateOf(s, d), generation, event, input).value.writes)
    ensures StepOk(s, d, event, PlanApplyBoox(codec, snap, StateOf(s, d), generation, event, input).value)
  {
    var state := StateOf(s, d);
    var manifest := codec.booxManifest(state, event, input).value;
    AppliedStamps(state.strokes, manifest.operations, EventAuthor(event));
    AppliedKeepsKeys(state.strokes, manifest.operations, EventAuthor(event));
    DeliverStep(snap, s, d, generation, event, Sha256(input), Applied(state.strokes, manifest.operations, EventAuthor(event)),
                Some(manifest.sourceFileName), SupernoteManifest(d, event.eventId), ManifestJson(manifest));
  }

  lemma ApplySupernoteStep(codec: Codec, snap: Store, s: Store, d: DocumentId, generation: nat, event: StorageEvent, input: Blob)
    requires Inv(s, d) && event.documentId == d
    requires event.sourceRevision == StateOf(s, d).Revisions().Get(event.source) + 1
    requires event.eventId !in StateOf(s, d).processedEventIds
    requires event.basedOn == StateOf(s, d).Revisions()
    requires ReadVersion(s, event.objectPath, event.sourceGeneration).Some?
    requires input == ReadVersion(s, event.objectPath, event.sourceGeneration).value.bytes
    requires PlanApplySupernote(codec, snap, StateOf(s, d), generation, event, input).Success?
    requires s.Admits(PlanApplySupernote(codec, snap, StateOf(s, d), generation, event, input).value.writes)
    ensures StepOk(s, d, event, PlanApplySupernote(codec, snap, StateOf(s, d), generation, event, input).value)
  {
    var state := StateOf(s, d);
    var exported := codec.parseExport(input).value;
    ExportStamps(state.strokes, exported.pages, EventAuthor(event));
    ExportKeepsKeys(state.strokes, exported.pages, EventAuthor(event));
    var strokes := ExportApplied(state.strokes, exported.pages, EventAuthor(event));
    var fileName := if exported.sourceFileName.Some? then exported.sourceFileName else state.supernote.sourceFileName;
    var original := ReadOriginal(snap, state).value;
    var pdf := codec.renderBooxView(original, ActiveSnapshots(strokes), TombstonedIds(strokes)).value;
    DeliverStep(snap, s, d, generation, event, Sha256(input), strokes, fileName, BooxViewPath(state), pdf);
  }

  lemma MarkedOk(s: Store, d: DocumentId, generation: nat, event: StorageEvent, outcome: ProcessOutcome)
    requires Inv(s, d) && event.documentId == d && !outcome.AppliedEvent?
    requires s.Admits(PlanMark(StateOf(s, d), generation, event, outcome).writes)
    ensures StepOk(s, d, event, PlanMark(StateOf(s, d), generation, event, outcome))
  {
    MarkStep(s, d, generation, event, outcome);
  }

  lemma PreservedOk(snap: Store, s: Store, d: DocumentId, generation: nat, event: StorageEvent, input: Blob)
    requires Inv(s, d) && event.documentId == d
    requires event.eventId !in StateOf(s, d).processedEventIds
    requires PlanPreserve(snap, StateOf(s, d), generation, event, input).Success?
    requires s.Admits(PlanPreserve(snap, StateOf(s, d), generation, event, input).value.writes)
    ensures StepOk(s, d, event, PlanPreserve(snap, StateOf(s, d), generation, event, input).value)
  {
    PreserveStep(snap, s, d, generation, event, input);
    assert !Applies(PlanPreserve(snap, StateOf(s, d), generation, event, input).value);
  }

  lemma RevisionStep(codec: Codec, snap: Store, s: Store, d: DocumentId, generation: nat, event: StorageEvent, input: Blob)
    requires Inv(s, d) && Follows(snap, s) && event.documentId == d
    requires event.eventId !in StateOf(s, d).processedEventIds
    requires ReadVersion(snap, event.objectPath, event.sourceGeneration).Some?
    requires input == ReadVersion(snap, event.objectPath, event.sourceGeneration).value.bytes
    requires PlanRevision(codec, snap, StateOf(s, d), generation, event, input).Success?
    requires s.Admits(PlanRevision(codec, snap, StateOf(s, d), generation, event, input).value.writes)
    ensures StepOk(s, d, event, PlanRevision(codec, snap, StateOf(s, d), generation, event, input).value)
  {
    var state := StateOf(s, d);
    var device := state.Device(event.source);
    if event.sourceRevision <= device.revision {
      if Some(Sha256(input)) != device.contentSha256 {
        PreservedOk(snap, s, d, generation, event, input);
      } else {
        MarkedOk(s, d, generation, event, IgnoredStaleSource);
      }
    } else if event.basedOn != state.Revisions() {
      PreservedOk(snap, s, d, generation, event, input);
    } else {
      match event.source {
        case Boox => ApplyBooxStep(codec, snap, s, d, generation, event, input);
        case Supernote => ApplySupernoteStep(codec, snap, s, d, generation, event, input);
      }
    }
  }

  /** Every plan with writes ends in the state write it was made for. */
  lemma ProcessEndsInState(codec: Codec, snap: Store, event: StorageEvent)
    requires PlanProcess(codec, snap, event).Success? && PlanProcess(codec, snap, event).value.writes != []
    ensures var plan := PlanProcess(codec, snap, event).value;
            && ReadState(snap, event.documentId).Success?
            && plan.writes[|plan.writes| - 1] == StateWrite(event.documentId, plan.state, Match(ReadState(snap, event.documentId).value.1))
  {
  }

  lemma FreshStep(codec: Codec, snap: Store, s: Store, d: DocumentId, generation: nat, event: StorageEvent)
    requires Inv(s, d) && Follows(snap, s) && event.documentId == d
    requires event.eventId !in StateOf(s, d).processedEventIds
    requires PlanFresh(codec, snap, StateOf(s, d), generation, event).Success?
    requires s.Admits(PlanFresh(codec, snap, StateOf(s, d), generation, event).value.writes)
    ensures StepOk(s, d, event, PlanFresh(codec, snap, StateOf(s, d), generation, event).value)
  {
    match ReadVersion(snap, event.objectPath, event.sourceGeneration) {
      case None =>
        MarkedOk(s, d, generation, event, IgnoredStaleSource);
      case Some(source) =>
        var hash := Sha256(source.bytes);
        if IsBrokerOutput(event, source.metadata, hash) {
          MarkedOk(s, d, generation, event, IgnoredBrokerOutput);
        } else {
          RevisionStep(codec, snap, s, d, generation, event.(contentSha256 := Some(hash)), source.bytes);
        }
    }
  }

  lemma ProcessIsFresh(codec: Codec, snap: Store, event: StorageEvent)
    requires PlanProcess(codec, snap, event).Success? && PlanProcess(codec, snap, event).value.writes != []
    ensures ReadState(snap, event.documentId).Success?
    ensures var (state, generation) := ReadState(snap, event.documentId).value;
            && event.eventId !in state.processedEventIds
            && PlanProcess(codec, snap, event) == PlanFresh(codec, snap, state, generation, event)
  {
  }

  lemma ProcessUnmoved(codec: Codec, snap: Store, s: Store, d: DocumentId, event: StorageEvent)
    requires snap.Valid() && Follows(snap, s) && event.documentId == d
    requires PlanProcess(codec, snap, event).Success? && PlanProcess(codec, snap, event).value.writes != []
    requires s.Admits(PlanProcess(codec, snap, event).value.writes)
    ensures ReadState(s, d) == ReadState(snap, d)
  {
    var plan := PlanProcess(codec, snap, event).value;
    ProcessEndsInState(codec, snap, event);
    SameState(snap, s, d, plan.writes, plan.state);
  }

  /** One storage event: the invariant is kept, the state only evolves, and an event is applied only
      when its based-on pair is the current frontier and its revision is the very next one. */
  lemma ProcessStep(codec: Codec, snap: Store, s: Store, d: DocumentId, event: StorageEvent)
    requires Inv(snap, d) && Inv(s, d) && Follows(snap, s) && event.documentId == d
    requires PlanProcess(codec, snap, event).Success? && PlanProcess(codec, snap, event).value.writes != []
    requires s.Admits(PlanProcess(codec, snap, event).value.writes)
    ensures ReadState(s, d) == ReadState(snap, d)
    ensures StepOk(s, d, event, PlanProcess(codec, snap, event).value)
  {
    ProcessUnmoved(codec, snap, s, d, event);
    ProcessIsFresh(codec, snap, event);
    FreshStep(codec, snap, s, d, ReadState(snap, d).value.1, event);
  }

  // ---------------------------------------------------------------- resolving a conflict

  lemma ConflictRemoved(state: CanonicalDocumentState, conflict: PreservedInput, record: ConflictResolutionRecord, next: CanonicalDocumentState)
    requires ConflictIds(state) && conflict in state.conflicts
    requires next.conflicts == Without(state.conflicts, conflict.eventId)
    requires next.resolvedConflicts == state.resolvedConflicts[conflict.eventId := record]
    requires next.processedEventIds == state.processedEventIds
    ensures ConflictIds(next)
    ensures forall c :: c in state.conflicts ==> c in next.conflicts || c.eventId in next.resolvedConflicts
    ensures forall c :: c in next.conflicts ==> c in state.conflicts
  {
    WithoutMeaning(state.conflicts, conflict.eventId);
    WithoutDistinct(state.conflicts, conflict.eventId);
  }

  lemma SupersedeStep(s: Store, d: DocumentId, generation: nat, conflict: PreservedInput, request: ResolutionRequest)
    requires Inv(s, d) && request.documentId == d && request.conflictEventId == conflict.eventId
    requires conflict in StateOf(s, d).conflicts
    requires s.Admits(PlanSupersede(StateOf(s, d), generation, conflict, request).writes)
    ensures var plan := PlanSupersede(StateOf(s, d), generation, conflict, request);
            && Inv(s.Commit(plan.writes), d)
            && StateOf(s.Commit(plan.writes), d) == plan.state
            && Evolves(StateOf(s, d), plan.state)
  {
    var state := StateOf(s, d);
    var plan := PlanSupersede(state, generation, conflict, request);
    ConflictRemoved(state, conflict, plan.state.resolvedConflicts[conflict.eventId], plan.state);
    InstallKeepsInv(s, plan.writes, d, plan.state, generation, conflict.eventId);
  }

  lemma AdvancedFields(state: CanonicalDocumentState, conflict: PreservedInput, inputGeneration: nat, fileName: string)
    ensures var next := AdvancedSource(state, conflict, inputGeneration, fileName);
            && next.Revisions() == state.Revisions().Set(conflict.source, conflict.sourceRevision)
            && next.Device(conflict.source.Other()) == state.Device(conflict.source.Other())
            && (next.Device(conflict.source) == state.Device(conflict.source)
                || (&& next.Device(conflict.source).contentSha256 == Some(conflict.contentSha256)
                    && next.Device(conflict.source).sourceGeneration == inputGeneration
                    && next.Device(conflict.source).sourceObjectPath == Some(conflict.preservedPath)))
            && next.documentId == state.documentId && next.originalPdfSha256 == state.originalPdfSha256
            && next.resolvedConflicts == state.resolvedConflicts
            && next.processedEventIds == state.processedEventIds
            && next.generatedViews == state.generatedViews
  {
    match conflict.source {
      case Boox =>
      case Supernote =>
    }
  }

  lemma SettledFields(
    state: CanonicalDocumentState, conflict: PreservedInput, inputGeneration: nat, fileName: string,
    strokes: StrokeMap, request: ResolutionRequest)
    requires conflict.sourceRevision >= state.Device(conflict.source).revision
    ensures var next := Settled(state, conflict, inputGeneration, fileName, strokes, request);
            && next.Revisions() == ResolutionAuthor(state, conflict, request).frontier == next.lastCommonRevisions
            && next.Device(conflict.source.Other()) == state.Device(conflict.source.Other())
            && (next.Device(conflict.source) == state.Device(conflict.source)
                || (&& next.Device(conflict.source).contentSha256 == Some(conflict.contentSha256)
                    && next.Device(conflict.source).sourceGeneration == inputGeneration
                    && next.Device(conflict.source).sourceObjectPath == Some(conflict.preservedPath)))
            && next.strokes == strokes
            && next.documentId == state.documentId && next.originalPdfSha256 == state.originalPdfSha256
            && next.conflicts == Without(state.conflicts, request.conflictEventId)
            && next.resolvedConflicts == state.resolvedConflicts
            && next.processedEventIds == state.processedEventIds
            && next.generatedViews == state.generatedViews
  {
    AdvancedFields(state, conflict, inputGeneration, fileName);
  }

  lemma SettledEvidence(
    s: Store, state: CanonicalDocumentState, conflict: PreservedInput, inputGeneration: nat, fileName: string,
    strokes: StrokeMap, request: ResolutionRequest)
    requires DeviceEvidence(s, state.boox) && DeviceEvidence(s, state.supernote)
    requires conflict.sourceRevision >= state.Device(conflict.source).revision
    requires ReadVersion(s, conflict.preservedPath, inputGeneration).Some?
    requires conflict.contentSha256 == Sha256(ReadVersion(s, conflict.preservedPath, inputGeneration).value.bytes)
    ensures var next := Settled(state, conflict, inputGeneration, fileName, strokes, request);
            DeviceEvidence(s, next.boox) && DeviceEvidence(s, next.supernote)
  {
    SettledFields(state, conflict, inputGeneration, fileName, strokes, request);
    var next := Settled(state, conflict, inputGeneration, fileName, strokes, request);
    assert DeviceEvidence(s, next.Device(conflict.source));
    assert DeviceEvidence(s, next.Device(conflict.source.Other()));
  }

  lemma SettledStamps(
    state: CanonicalDocumentState, conflict: PreservedInput, inputGeneration: nat, fileName: string,
    strokes: StrokeMap, request: ResolutionRequest)
    requires Stamps(state) && conflict.sourceRevision >= state.Device(conflict.source).revision
    requires Restamped(state.strokes, strokes, ResolutionAuthor(state, conflict, request).frontier)
    ensures var next := Settled(state, conflict, inputGeneration, fileName, strokes, request);
            Stamps(next) && state.Revisions().Within(next.Revisions())
  {
    SettledFields(state, conflict, inputGeneration, fileName, strokes, request);
    RestampedWithin(state.strokes, strokes, state.Revisions(), ResolutionAuthor(state, conflict, request).frontier);
  }

  lemma ChosenRestamped(state: CanonicalDocumentState, conflict: PreservedInput, selection: Selection, request: ResolutionRequest)
    requires KeysMatch(state.strokes)
    ensures Restamped(state.strokes, ChosenStrokes(state, conflict, selection, request), ResolutionAuthor(state, conflict, request).frontier)
  {
    AppliedStamps(state.strokes, selection.operations, ResolutionAuthor(state, conflict, request));
    AppliedKeepsKeys(state.strokes, selection.operations, ResolutionAuthor(state, conflict, request));
  }

  lemma RecordedKeeps(settled: CanonicalDocumentState, request: ResolutionRequest, record: ConflictResolutionRecord, pdf: Blob, manifest: Manifest)
    ensures var next := Recorded(settled, request, record, pdf, manifest);
            && next.Revisions() == settled.Revisions() && next.lastCommonRevisions == settled.lastCommonRevisions
            && next.strokes == settled.strokes && next.boox == settled.boox && next.supernote == settled.supernote
            && next.documentId == settled.documentId && next.originalPdfSha256 == settled.originalPdfSha256
            && next.conflicts == settled.conflicts && next.processedEventIds == settled.processedEventIds
            && next.resolvedConflicts == settled.resolvedConflicts[request.conflictEventId := record]
  {
  }

  /** What a published resolution writes, in order: the BOOX view, perhaps a Supernote manifest, the marker and
      the state. */
  lemma PublishParts(
    codec: Codec, snap: Store, state: CanonicalDocumentState, generation: nat, conflict: PreservedInput, input: StoredObject,
    settled: CanonicalDocumentState, selection: Selection, request: ResolutionRequest)
    returns (views: seq<ConditionalWrite>, record: ConflictResolutionRecord, pdf: Blob, manifest: Manifest)
    requires PlanPublish(codec, snap, state, generation, conflict, input, settled, selection, request).Success?
    ensures var plan := PlanPublish(codec, snap, state, generation, conflict, input, settled, selection, request).value;
            && plan.state == Recorded(settled, request, record, pdf, manifest)
            && plan.writes == views + [MarkerWrite(request, record), StateWrite(request.documentId, plan.state, Match(generation))]
    ensures 1 <= |views| <= 2 && views[0].path.BooxView? && (|views| == 2 ==> views[1].path.SupernoteManifest?)
  {
    var original := ReadOriginal(snap, settled).value;
    pdf := codec.renderBooxView(original, ActiveSnapshots(settled.strokes), TombstonedIds(settled.strokes)).value;
    manifest := codec.resolutionManifest(state, settled, conflict, input.bytes, pdf).value;
    record := ResolutionRecord(state, settled, conflict, selection, request);
    var plan := PlanPublish(codec, snap, state, generation, conflict, input, settled, selection, request).value;
    var marker := BrokerOutputMarker(BROKER_PRODUCER, request.resolutionId, request.documentId, settled.Revisions());
    views := [plan.writes[0]] + SupernoteOutput(request, marker, manifest);
  }

  lemma PartsShape(views: seq<ConditionalWrite>, request: ResolutionRequest, record: ConflictResolutionRecord, next: CanonicalDocumentState, generation: nat)
    requires 1 <= |views| <= 2 && views[0].path.BooxView? && (|views| == 2 ==> views[1].path.SupernoteManifest?)
    ensures var writes := views + [MarkerWrite(request, record), StateWrite(request.documentId, next, Match(generation))];
            && Shape(writes, request.documentId, next, generation, request.conflictEventId)
            && (forall i :: 0 <= i < |writes| - 1 && BrokerOwned(writes[i].path, request.documentId) ==> writes[i].path.ResolutionMarker?)
  {
  }

  lemma PublishShape(
    codec: Codec, snap: Store, state: CanonicalDocumentState, generation: nat, conflict: PreservedInput, input: StoredObject,
    settled: CanonicalDocumentState, selection: Selection, request: ResolutionRequest)
    requires PlanPublish(codec, snap, state, generation, conflict, input, settled, selection, request).Success?
    ensures var plan := PlanPublish(codec, snap, state, generation, conflict, input, settled, selection, request).value;
            && Shape(plan.writes, request.documentId, plan.state, generation, request.conflictEventId)
            && (forall i :: 0 <= i < |plan.writes| - 1 && BrokerOwned(plan.writes[i].path, request.documentId) ==> plan.writes[i].path.ResolutionMarker?)
            && exists record, pdf, manifest :: plan.state == Recorded(settled, request, record, pdf, manifest)
  {
    var views, record, pdf, manifest := PublishParts(codec, snap, state, generation, conflict, input, settled, selection, request);
    PartsShape(views, request, record, Recorded(settled, request, record, pdf, manifest), generation);
  }

  lemma PublishEvolves(state: CanonicalDocumentState, next: CanonicalDocumentState, strokes: StrokeMap, frontier: RevisionPair)
    requires next.Revisions() == frontier && state.Revisions().Within(frontier)
    requires next.strokes == strokes && Restamped(state.strokes, strokes, frontier)
    requires next.processedEventIds == state.processedEventIds
    requires forall e :: e in state.resolvedConflicts ==>
                           e in next.resolvedConflicts && next.resolvedConflicts[e] == state.resolvedConflicts[e]
    requires forall c :: c in state.conflicts ==> c in next.conflicts || c.eventId in next.resolvedConflicts
    ensures Evolves(state, next)
  {
  }

  /** The state a resolution settled keeps what the invariant asks of it. */
  ghost predicate SettledOk(s: Store, state: CanonicalDocumentState, conflict: PreservedInput, settled: CanonicalDocumentState) {
    && settled.documentId == state.documentId && settled.originalPdfSha256 == state.originalPdfSha256
    && settled.lastCommonRevisions == settled.Revisions() && state.Revisions().Within(settled.Revisions())
    && settled.conflicts == Without(state.conflicts, conflict.eventId) && settled.resolvedConflicts == state.resolvedConflicts
    && settled.processedEventIds == state.processedEventIds
    && Restamped(state.strokes, settled.strokes, settled.Revisions()) && Stamps(settled)
    && DeviceEvidence(s, settled.boox) && DeviceEvidence(s, settled.supernote)
  }

  lemma RecordedEvolves(
    s: Store, state: CanonicalDocumentState, conflict: PreservedInput, settled: CanonicalDocumentState, request: ResolutionRequest,
    next: CanonicalDocumentState)
    requires ConflictIds(state) && conflict in state.conflicts && request.conflictEventId == conflict.eventId
    requires SettledOk(s, state, conflict, settled)
    requires exists record, pdf, manifest :: next == Recorded(settled, request, record, pdf, manifest)
    ensures Evolves(state, next) && ConflictIds(next) && Stamps(next)
    ensures next.strokes == settled.strokes && next.Revisions() == settled.Revisions() == next.lastCommonRevisions
    ensures next.boox == settled.boox && next.supernote == settled.supernote
    ensures next.documentId == state.documentId && next.originalPdfSha256 == state.originalPdfSha256
    ensures forall c :: c in next.conflicts ==> c in state.conflicts
    ensures next.resolvedConflicts.Keys == state.resolvedConflicts.Keys + {conflict.eventId}
  {
    var record, pdf, manifest :| next == Recorded(settled, request, record, pdf, manifest);
    RecordedKeeps(settled, request, record, pdf, manifest);
    ConflictRemoved(state, conflict, record, next);
    PublishEvolves(state, next, settled.strokes, settled.Revisions());
  }

  lemma PublishedInstalls(
    s: Store, d: DocumentId, generation: nat, conflict: PreservedInput, settled: CanonicalDocumentState, request: ResolutionRequest, plan: Plan)
    requires Inv(s, d) && request.documentId == d && request.conflictEventId == conflict.eventId && conflict in StateOf(s, d).conflicts
    requires SettledOk(s, StateOf(s, d), conflict, settled)
    requires Shape(plan.writes, d, plan.state, generation, conflict.eventId) && s.Admits(plan.writes)
    requires forall i :: 0 <= i < |plan.writes| - 1 && BrokerOwned(plan.writes[i].path, d) ==> plan.writes[i].path.ResolutionMarker?
    requires exists record, pdf, manifest :: plan.state == Recorded(settled, request, record, pdf, manifest)
    ensures Inv(s.Commit(plan.writes), d) && StateOf(s.Commit(plan.writes), d) == plan.state
    ensures Evolves(StateOf(s, d), plan.state)
    ensures plan.state.strokes == settled.strokes && plan.state.Revisions() == settled.Revisions()
  {
    var state := StateOf(s, d);
    RecordedEvolves(s, state, conflict, settled, request, plan.state);
    InstallKeepsInv(s, plan.writes, d, plan.state, generation, conflict.eventId);
  }

  lemma PublishStep(
    codec: Codec, snap: Store, s: Store, d: DocumentId, generation: nat, conflict: PreservedInput, input: StoredObject,
    fileName: string, strokes: StrokeMap, selection: Selection, request: ResolutionRequest)
    requires Inv(s, d) && request.documentId == d && request.conflictEventId == conflict.eventId
    requires conflict in StateOf(s, d).conflicts
    requires conflict.sourceRevision >= StateOf(s, d).Device(conflict.source).revision
    requires ReadVersion(s, conflict.preservedPath, input.generation) == Some(input) && Sha256(input.bytes) == conflict.contentSha256
    requires Restamped(StateOf(s, d).strokes, strokes, ResolutionAuthor(StateOf(s, d), conflict, request).frontier)
    requires PlanPublish(codec, snap, StateOf(s, d), generation, conflict, input,
                         Settled(StateOf(s, d), conflict, input.generation, fileName, strokes, request), selection, request).Success?
    requires s.Admits(PlanPublish(codec, snap, StateOf(s, d), generation, conflict, input,
                                  Settled(StateOf(s, d), conflict, input.generation, fileName, strokes, request), selection, request).value.writes)
    ensures var plan := PlanPublish(codec, snap, StateOf(s, d), generation, conflict, input,
                                    Settled(StateOf(s, d), conflict, input.generation, fileName, strokes, request), selection, request).value;
            && Inv(s.Commit(plan.writes), d)
            && StateOf(s.Commit(plan.writes), d) == plan.state
            && Evolves(StateOf(s, d), plan.state)
            && plan.state.strokes == strokes
            && plan.state.Revisions() == StateOf(s, d).Revisions().Set(conflict.source, conflict.sourceRevision)
  {
    var state := StateOf(s, d);
    var settled := Settled(state, conflict, input.generation, fileName, strokes, request);
    SettledFields(state, conflict, input.generation, fileName, strokes, request);
    SettledEvidence(s, state, conflict, input.generation, fileName, strokes, request);
    SettledStamps(state, conflict, input.generation, fileName, strokes, request);
    PublishShape(codec, snap, state, generation, conflict, input, settled, selection, request);
    PublishedInstalls(s, d, generation, conflict, settled, request,
                      PlanPublish(codec, snap, state, generation, conflict, input, settled, selection, request).value);
  }

  /** The strokes a resolution leaves, by strategy. */
  function ResolvedStrokes(codec: Codec, state: CanonicalDocumentState, conflict: PreservedInput, input: Blob, request: ResolutionRequest)
    : Option<StrokeMap>
  {
    match ProposedManifest(codec, state, conflict, input)
    case Failure(_) => None
    case Success(proposed) =>
      match Classify(state, conflict, proposed.operations)
      case None => None
      case Some(groups) => Some(ChosenStrokes(state, conflict, Selected(groups, request.strategy), request))
  }

  lemma MergeStep(
    codec: Codec, snap: Store, s: Store, d: DocumentId, generation: nat, conflict: PreservedInput, input: StoredObject, request: ResolutionRequest)
    requires Inv(s, d) && request.documentId == d && request.conflictEventId == conflict.eventId
    requires conflict in StateOf(s, d).conflicts
    requires conflict.sourceRevision >= StateOf(s, d).Device(conflict.source).revision
    requires ReadVersion(s, conflict.preservedPath, input.generation) == Some(input) && Sha256(input.bytes) == conflict.contentSha256
    requires PlanMerge(codec, snap, StateOf(s, d), generation, conflict, input, request).Success?
    requires s.Admits(PlanMerge(codec, snap, StateOf(s, d), generation, conflict, input, request).value.writes)
    ensures var plan := PlanMerge(codec, snap, StateOf(s, d), generation, conflict, input, request).value;
            && Inv(s.Commit(plan.writes), d)
            && StateOf(s.Commit(plan.writes), d) == plan.state
            && Evolves(StateOf(s, d), plan.state)
            && ResolvedStrokes(codec, StateOf(s, d), conflict, input.bytes, request) == Some(plan.state.strokes)
            && plan.state.Revisions() == StateOf(s, d).Revisions().Set(conflict.source, conflict.sourceRevision)
  {
    var state := StateOf(s, d);
    var proposed := ProposedManifest(codec, state, conflict, input.bytes).value;
    var selection := Selected(Classify(state, conflict, proposed.operations).value, request.strategy);
    var strokes := ChosenStrokes(state, conflict, selection, request);
    ChosenRestamped(state, conflict, selection, request);
    PublishStep(codec, snap, s, d, generation, conflict, input, proposed.sourceFileName, strokes, selection, request);
  }

  lemma ResolveIsActive(codec: Codec, snap: Store, request: ResolutionRequest)
    requires PlanResolve(codec, snap, request).Success? && PlanResolve(codec, snap, request).value.writes != []
    ensures ReadState(snap, request.documentId).Success?
    ensures PlanResolve(codec, snap, request)
            == PlanResolveActive(codec, snap, StateOf(snap, request.documentId), ReadState(snap, request.documentId).value.1, request)
  {
  }

  lemma ActiveEndsInState(codec: Codec, snap: Store, state: CanonicalDocumentState, generation: nat, request: ResolutionRequest)
    requires PlanResolveActive(codec, snap, state, generation, request).Success?
    ensures FindConflict(state.conflicts, request.conflictEventId).Some?
    ensures EndsInWriteOf(PlanResolveActive(codec, snap, state, generation, request).value, request.documentId, generation)
  {
  }

  lemma ResolveEndsInState(codec: Codec, snap: Store, request: ResolutionRequest)
    requires PlanResolve(codec, snap, request).Success? && PlanResolve(codec, snap, request).value.writes != []
    ensures var plan := PlanResolve(codec, snap, request).value;
            && ReadState(snap, request.documentId).Success?
            && plan.writes[|plan.writes| - 1] == StateWrite(request.documentId, plan.state, Match(ReadState(snap, request.documentId).value.1))
            && FindConflict(StateOf(snap, request.documentId).conflicts, request.conflictEventId).Some?
            && PlanResolve(codec, snap, request)
               == PlanResolveActive(codec, snap, StateOf(snap, request.documentId), ReadState(snap, request.documentId).value.1, request)
  {
    ResolveIsActive(codec, snap, request);
    ActiveEndsInState(codec, snap, StateOf(snap, request.documentId), ReadState(snap, request.documentId).value.1, request);
  }

  /** The conflict a resolution that writes is about, and its preserved input. */
  lemma ResolveReads(codec: Codec, snap: Store, d: DocumentId, request: ResolutionRequest)
    requires Inv(snap, d) && request.documentId == d
    requires PlanResolve(codec, snap, request).Success? && PlanResolve(codec, snap, request).value.writes != []
    ensures var state := StateOf(snap, d);
            var found := FindConflict(state.conflicts, request.conflictEventId);
            && found.Some? && found.value in state.conflicts && found.value.eventId == request.conflictEventId
            && ReadObject(snap, found.value.preservedPath).Some?
            && var input := ReadObject(snap, found.value.preservedPath).value;
            && Sha256(input.bytes) == found.value.contentSha256
            && ReadVersion(snap, found.value.preservedPath, input.generation) == Some(input)
            && (if found.value.sourceRevision < state.Device(found.value.source).revision
                then PlanResolve(codec, snap, request).value == PlanSupersede(state, ReadState(snap, d).value.1, found.value, request)
                else PlanResolve(codec, snap, request)
                     == PlanMerge(codec, snap, state, ReadState(snap, d).value.1, found.value, input, request))
  {
    ResolveEndsInState(codec, snap, request);
    FindConflictMeaning(StateOf(snap, d).conflicts, request.conflictEventId);
  }

  lemma ResolveUnmoved(codec: Codec, snap: Store, s: Store, d: DocumentId, request: ResolutionRequest)
    requires snap.Valid() && Follows(snap, s) && request.documentId == d
    requires PlanResolve(codec, snap, request).Success? && PlanResolve(codec, snap, request).value.writes != []
    requires s.Admits(PlanResolve(codec, snap, request).value.writes)
    ensures ReadState(s, d) == ReadState(snap, d)
  {
    ResolveIsActive(codec, snap, request);
    ActiveUnmoved(codec, snap, s, StateOf(snap, d), ReadState(snap, d).value.1, d, request);
  }

  lemma ActiveUnmoved(codec: Codec, snap: Store, s: Store, state: CanonicalDocumentState, generation: nat, d: DocumentId, request: ResolutionRequest)
    requires snap.Valid() && Follows(snap, s) && request.documentId == d && ReadState(snap, d) == Success((state, generation))
    requires PlanResolveActive(codec, snap, state, generation, request).Success?
    requires s.Admits(PlanResolveActive(codec, snap, state, generation, request).value.writes)
    ensures ReadState(s, d) == ReadState(snap, d)
  {
    var plan := PlanResolveActive(codec, snap, state, generation, request).value;
    ActiveEndsInState(codec, snap, state, generation, request);
    SameState(snap, s, d, plan.writes, plan.state);
  }

  /** One conflict resolution, under any strategy. */
  lemma ResolveStep(codec: Codec, snap: Store, s: Store, d: DocumentId, request: ResolutionRequest)
    requires Inv(snap, d) && Inv(s, d) && Follows(snap, s) && request.documentId == d
    requires PlanResolve(codec, snap, request).Success? && PlanResolve(codec, snap, request).value.writes != []
    requires s.Admits(PlanResolve(codec, snap, request).value.writes)
    ensures ReadState(s, d) == ReadState(snap, d)
    ensures var plan := PlanResolve(codec, snap, request).value;
            var state := StateOf(s, d);
            var found := FindConflict(state.conflicts, request.conflictEventId);
            && Inv(s.Commit(plan.writes), d)
            && StateOf(s.Commit(plan.writes), d) == plan.state
            && Evolves(state, plan.state)
            && found.Some?
            && (plan.state.strokes == state.strokes
                || ResolvedStrokes(codec, state, found.value, found.value.contentSha256.preimage, request) == Some(plan.state.strokes))
  {
    var state, generation := StateOf(snap, d), ReadState(snap, d).value.1;
    ResolveUnmoved(codec, snap, s, d, request);
    ResolveReads(codec, snap, d, request);
    var conflict := FindConflict(state.conflicts, request.conflictEventId).value;
    if conflict.sourceRevision < state.Device(conflict.source).revision {
      SupersedeStep(s, d, generation, conflict, request);
    } else {
      MergeStep(codec, snap, s, d, generation, conflict, ReadObject(snap, conflict.preservedPath).value, request);
    }
  }

  // ---------------------------------------------------------------- from the state on

  /** A plan ends in a write of `d`'s state over the generation it was read at. */
  predicate EndsInWriteOf(plan: Plan, d: DocumentId, generation: nat) {
    plan.writes != [] && plan.writes[|plan.writes| - 1] == StateWrite(d, plan.state, Match(generation))
  }

  lemma FreshEndsInState(codec: Codec, store: Store, state: CanonicalDocumentState, generation: nat, event: StorageEvent)
    requires PlanFresh(codec, store, state, generation, event).Success?
    ensures EndsInWriteOf(PlanFresh(codec, store, state, generation, event).value, event.documentId, generation)
  {
  }

  /** The state in which an event is planned afresh. */
  predicate PlansEvent(state: CanonicalDocumentState, event: StorageEvent) {
    ValidEvent(event) && state.documentId == event.documentId && event.eventId !in state.processedEventIds
  }

  /** The state in which a resolution looks for its conflict. */
  predicate PlansResolution(state: CanonicalDocumentState, request: ResolutionRequest) {
    && ValidRequest(request) && request.conflictEventId !in state.resolvedConflicts
    && state.stateRevision == request.expectedStateRevision && state.Revisions() == request.expectedCurrentRevisions
  }

  lemma ProcessFrom(codec: Codec, store: Store, state: CanonicalDocumentState, generation: nat, event: StorageEvent)
    requires ReadState(store, event.documentId) == Success((state, generation)) && PlansEvent(state, event)
    ensures PlanProcess(codec, store, event) == PlanFresh(codec, store, state, generation, event)
  {
  }

  lemma ResolveFrom(codec: Codec, store: Store, state: CanonicalDocumentState, generation: nat, request: ResolutionRequest)
    requires ReadState(store, request.documentId) == Success((state, generation)) && PlansResolution(state, request)
    ensures PlanResolve(codec, store, request) == PlanResolveActive(codec, store, state, generation, request)
  {
  }
}
