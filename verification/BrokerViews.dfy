/** Where a broker plan writes, which device files it may replace, and where the views it records come from. */
module BrokerViews {
  import opened Wrappers
  import opened Model
  import opened Storage
  import opened Manifests
  import opened Merge
  import opened Brokers
  import opened BrokerInvariant
  import opened BrokerSteps

  /** Broker objects that are written once and never again. */
  predicate WrittenOnce(p: Path) {
    p.OriginalPath? || p.ConflictIncoming? || p.ConflictCurrent? || p.ResolutionMarker?
  }

  /** `w` belongs to a commit for document `d`: its own state, a new write-once object, or a device file. */
  predicate WriteFor(w: ConditionalWrite, d: DocumentId) {
    && !w.path.OtherPath?
    && (w.path.StatePath? ==> w.path.doc == d)
    && (WrittenOnce(w.path) ==> w.path.doc == d && w.precondition == DoesNotExist)
  }

  predicate WritesFor(writes: seq<ConditionalWrite>, d: DocumentId) {
    forall i :: 0 <= i < |writes| ==> WriteFor(writes[i], d)
  }

  ghost predicate Outputs(writes: seq<ConditionalWrite>, p: Path, hash: Digest) {
    exists i :: 0 <= i < |writes| && writes[i].path == p && Sha256(writes[i].bytes) == hash
  }

  /** The view recorded for `p` has hash `hash`. */
  predicate HasView(state: CanonicalDocumentState, p: Path, hash: Digest) {
    p in state.generatedViews && state.generatedViews[p].contentSha256 == hash
  }

  /** `hash` is the content, at `p`, of the event a plan applies. */
  ghost predicate Consumes(snap: Store, event: StorageEvent, plan: Plan, p: Path, hash: Digest) {
    && Applies(plan) && p == event.objectPath
    && ReadVersion(snap, p, event.sourceGeneration).Some?
    && hash == Sha256(ReadVersion(snap, p, event.sourceGeneration).value.bytes)
  }

  /** `w` may only replace the object that was read at its path, which has hash `hash`. */
  ghost predicate Replaces(snap: Store, w: ConditionalWrite, hash: Digest) {
    && w.path in snap.objects
    && w.precondition == Match(snap.objects[w.path].generation)
    && hash == Sha256(snap.objects[w.path].bytes)
  }

  // ---------------------------------------------------------------- processing an event

  lemma PreservePaths(snap: Store, state: CanonicalDocumentState, generation: nat, event: StorageEvent, input: Blob)
    requires PlanPreserve(snap, state, generation, event, input).Success?
    ensures var plan := PlanPreserve(snap, state, generation, event, input).value;
            && WritesFor(plan.writes, event.documentId) && DistinctPaths(plan.writes)
            && (forall i :: 0 <= i < |plan.writes| ==> !InDeviceFolder(plan.writes[i].path))
            && plan.state.generatedViews == state.generatedViews
            && !Applies(plan)
  {
    PreserveShape(snap, state, generation, event, input);
    var plan := PlanPreserve(snap, state, generation, event, input).value;
    forall i | 0 <= i < |plan.writes| ensures WriteFor(plan.writes[i], event.documentId) && !InDeviceFolder(plan.writes[i].path) {
      if 0 < i < |plan.writes| - 1 {
        CompetingShape(snap, state, event, Boox);
        CompetingShape(snap, state, event, Supernote);
      }
    }
  }

  /** What one plan for an event does to device files and recorded views. */
  ghost predicate ViewsOk(snap: Store, state: CanonicalDocumentState, event: StorageEvent, plan: Plan) {
    && WritesFor(plan.writes, event.documentId) && DistinctPaths(plan.writes)
    && (forall p :: p in plan.state.generatedViews ==>
          var hash := plan.state.generatedViews[p].contentSha256;
          HasView(state, p, hash) || Outputs(plan.writes, p, hash) || Consumes(snap, event, plan, p, hash))
    && (forall i :: 0 <= i < |plan.writes| && InDeviceFolder(plan.writes[i].path) && plan.writes[i].precondition.Match? ==>
          exists hash :: && Replaces(snap, plan.writes[i], hash)
                         && (HasView(state, plan.writes[i].path, hash) || Consumes(snap, event, plan, plan.writes[i].path, hash)))
  }

  lemma DeliverViews(
    snap: Store, state: CanonicalDocumentState, generation: nat, event: StorageEvent, strokes: StrokeMap,
    fileName: Option<string>, path: Path, input: Blob, output: Blob)
    requires InDeviceFolder(path)
    requires ReadVersion(snap, event.objectPath, event.sourceGeneration).Some?
    requires input == ReadVersion(snap, event.objectPath, event.sourceGeneration).value.bytes
    requires PlanDeliver(snap, Accepted(state, event, Sha256(input), strokes, fileName), generation, event, path, output).Success?
    ensures ViewsOk(snap, state, event,
                    PlanDeliver(snap, Accepted(state, event, Sha256(input), strokes, fileName), generation, event, path, output).value)
  {
    var accepted := Accepted(state, event, Sha256(input), strokes, fileName);
    var plan := PlanDeliver(snap, accepted, generation, event, path, output).value;
    assert plan.writes[0].path == path && plan.writes[0].bytes == output;
    forall p | p in plan.state.generatedViews
      ensures var hash := plan.state.generatedViews[p].contentSha256;
              HasView(state, p, hash) || Outputs(plan.writes, p, hash) || Consumes(snap, event, plan, p, hash)
    {
      if p == path {
        assert Sha256(plan.writes[0].bytes) == plan.state.generatedViews[p].contentSha256;
      }
    }
    if plan.writes[0].precondition.Match? {
      var hash := accepted.generatedViews[path].contentSha256;
      assert Replaces(snap, plan.writes[0], hash);
      assert HasView(state, path, hash) || Consumes(snap, event, plan, path, hash);
    }
  }

  lemma RevisionViews(codec: Codec, snap: Store, state: CanonicalDocumentState, generation: nat, event: StorageEvent, input: Blob)
    requires ReadVersion(snap, event.objectPath, event.sourceGeneration).Some?
    requires input == ReadVersion(snap, event.objectPath, event.sourceGeneration).value.bytes
    requires PlanRevision(codec, snap, state, generation, event, input).Success?
    ensures ViewsOk(snap, state, event, PlanRevision(codec, snap, state, generation, event, input).value)
  {
    var device := state.Device(event.source);
    if (event.sourceRevision <= device.revision && Some(Sha256(input)) != device.contentSha256)
       || (event.sourceRevision > device.revision && event.basedOn != state.Revisions()) {
      PreservePaths(snap, state, generation, event, input);
    } else if event.sourceRevision > device.revision {
      match event.source {
        case Boox =>
          var manifest := codec.booxManifest(state, event, input).value;
          DeliverViews(snap, state, generation, event, Applied(state.strokes, manifest.operations, EventAuthor(event)),
                       Some(manifest.sourceFileName), SupernoteManifest(event.documentId, event.eventId), input, ManifestJson(manifest));
        case Supernote =>
          var exported := codec.parseExport(input).value;
          var strokes := ExportApplied(state.strokes, exported.pages, EventAuthor(event));
          var fileName := if exported.sourceFileName.Some? then exported.sourceFileName else state.supernote.sourceFileName;
          var original := ReadOriginal(snap, state).value;
          var pdf := codec.renderBooxView(original, ActiveSnapshots(strokes), TombstonedIds(strokes)).value;
          DeliverViews(snap, state, generation, event, strokes, fileName, BooxViewPath(state), input, pdf);
      }
    }
  }

  /** A plan for an event replaces a device file only when the file is the recorded view or the event's own input. */
  lemma ProcessViews(codec: Codec, snap: Store, event: StorageEvent)
    requires PlanProcess(codec, snap, event).Success? && PlanProcess(codec, snap, event).value.writes != []
    ensures ReadState(snap, event.documentId).Success?
    ensures ViewsOk(snap, StateOf(snap, event.documentId), event, PlanProcess(codec, snap, event).value)
  {
    var (state, generation) := ReadState(snap, event.documentId).value;
    match ReadVersion(snap, event.objectPath, event.sourceGeneration) {
      case None =>
      case Some(source) =>
        var hash := Sha256(source.bytes);
        if !IsBrokerOutput(event, source.metadata, hash) {
          RevisionViews(codec, snap, state, generation, event.(contentSha256 := Some(hash)), source.bytes);
          var plan := PlanProcess(codec, snap, event).value;
          assert ViewsOk(snap, state, event.(contentSha256 := Some(hash)), plan);
        }
    }
  }

  // ---------------------------------------------------------------- resolving a conflict

  /** The conflict a resolution settles, whose preserved input is the device file at `p`. */
  ghost predicate IsConflictInput(snap: Store, state: CanonicalDocumentState, request: ResolutionRequest, p: Path, hash: Digest) {
    var found := FindConflict(state.conflicts, request.conflictEventId);
    && found.Some? && found.value.objectPath == p && found.value.contentSha256 == hash
    && p in snap.objects && snap.objects[p].generation == found.value.sourceGeneration
  }

  ghost predicate ResolutionViewsOk(snap: Store, state: CanonicalDocumentState, request: ResolutionRequest, plan: Plan) {
    && WritesFor(plan.writes, request.documentId) && DistinctPaths(plan.writes)
    && (forall p :: p in plan.state.generatedViews ==>
          var hash := plan.state.generatedViews[p].contentSha256;
          HasView(state, p, hash) || Outputs(plan.writes, p, hash))
    && (forall i :: 0 <= i < |plan.writes| && InDeviceFolder(plan.writes[i].path) && plan.writes[i].precondition.Match? ==>
          exists hash :: && Replaces(snap, plan.writes[i], hash)
                         && (HasView(state, plan.writes[i].path, hash)
                             || IsConflictInput(snap, state, request, plan.writes[i].path, hash)))
  }

  lemma PublishPaths(
    codec: Codec, snap: Store, state: CanonicalDocumentState, generation: nat, conflict: PreservedInput, input: StoredObject,
    settled: CanonicalDocumentState, selection: Selection, request: ResolutionRequest)
    requires PlanPublish(codec, snap, state, generation, conflict, input, settled, selection, request).Success?
    ensures WritesFor(PlanPublish(codec, snap, state, generation, conflict, input, settled, selection, request).value.writes, request.documentId)
  {
    var plan := PlanPublish(codec, snap, state, generation, conflict, input, settled, selection, request).value;
    PublishShape(codec, snap, state, generation, conflict, input, settled, selection, request);
    forall i | 0 <= i < |plan.writes| ensures WriteFor(plan.writes[i], request.documentId) {
      assert plan.writes[i].path.BooxView? || plan.writes[i].path.SupernoteManifest?
             || plan.writes[i].path.ResolutionMarker? || plan.writes[i].path.StatePath?;
    }
  }

  /** The two outputs of a resolution, and the views recorded for them. */
  lemma PublishOutputs(
    codec: Codec, snap: Store, state: CanonicalDocumentState, generation: nat, conflict: PreservedInput, input: StoredObject,
    settled: CanonicalDocumentState, selection: Selection, request: ResolutionRequest)
    requires PlanPublish(codec, snap, state, generation, conflict, input, settled, selection, request).Success?
    ensures var plan := PlanPublish(codec, snap, state, generation, conflict, input, settled, selection, request).value;
            && plan.writes[0].path == BooxViewPath(settled)
            && ResolutionDestination(state, conflict, BooxViewPath(settled), ReadObject(snap, BooxViewPath(settled)))
               == Success(plan.writes[0].precondition)
            && (forall i :: 0 < i < |plan.writes| && InDeviceFolder(plan.writes[i].path) ==> plan.writes[i].precondition == DoesNotExist)
            && (forall p :: p in plan.state.generatedViews ==>
                  var hash := plan.state.generatedViews[p].contentSha256;
                  HasView(settled, p, hash) || Outputs(plan.writes, p, hash))
  {
    var original := ReadOriginal(snap, settled).value;
    var pdf := codec.renderBooxView(original, ActiveSnapshots(settled.strokes), TombstonedIds(settled.strokes)).value;
    var manifest := codec.resolutionManifest(state, settled, conflict, input.bytes, pdf).value;
    var marker := BrokerOutputMarker(BROKER_PRODUCER, request.resolutionId, request.documentId, settled.Revisions());
    var plan := PlanPublish(codec, snap, state, generation, conflict, input, settled, selection, request).value;
    assert plan.writes[0].path == BooxViewPath(settled) && plan.writes[0].bytes == pdf;
    var supernote := SupernoteOutput(request, marker, manifest);
    if supernote != [] {
      assert plan.writes[1] == supernote[0];
      assert Outputs(plan.writes, supernote[0].path, Sha256(supernote[0].bytes));
    }
    assert Outputs(plan.writes, BooxViewPath(settled), Sha256(pdf));
    RecordedViews(settled, request, ResolutionRecord(state, settled, conflict, selection, request), pdf, manifest);
  }

  /** The only views a resolution records are its own outputs. */
  lemma RecordedViews(settled: CanonicalDocumentState, request: ResolutionRequest, record: ConflictResolutionRecord, pdf: Blob, manifest: Manifest)
    ensures var next := Recorded(settled, request, record, pdf, manifest);
            forall p :: p in next.generatedViews ==>
              || HasView(settled, p, next.generatedViews[p].contentSha256)
              || (p == BooxViewPath(settled) && next.generatedViews[p].contentSha256 == Sha256(pdf))
              || (&& p == SupernoteManifest(request.documentId, request.resolutionId) && manifest.operations != []
                  && next.generatedViews[p].contentSha256 == Sha256(ManifestJson(manifest)))
  {
  }

  lemma PublishViews(
    codec: Codec, snap: Store, state: CanonicalDocumentState, generation: nat, conflict: PreservedInput, input: StoredObject,
    settled: CanonicalDocumentState, selection: Selection, request: ResolutionRequest)
    requires FindConflict(state.conflicts, request.conflictEventId) == Some(conflict)
    requires settled.generatedViews == state.generatedViews
    requires PlanPublish(codec, snap, state, generation, conflict, input, settled, selection, request).Success?
    ensures ResolutionViewsOk(snap, state, request,
                              PlanPublish(codec, snap, state, generation, conflict, input, settled, selection, request).value)
  {
    PublishShape(codec, snap, state, generation, conflict, input, settled, selection, request);
    PublishPaths(codec, snap, state, generation, conflict, input, settled, selection, request);
    PublishOutputs(codec, snap, state, generation, conflict, input, settled, selection, request);
    var plan := PlanPublish(codec, snap, state, generation, conflict, input, settled, selection, request).value;
    if plan.writes[0].precondition.Match? {
      DestinationReplaces(snap, state, request, conflict, plan.writes[0]);
    }
  }

  lemma DestinationReplaces(snap: Store, state: CanonicalDocumentState, request: ResolutionRequest, conflict: PreservedInput, w: ConditionalWrite)
    requires FindConflict(state.conflicts, request.conflictEventId) == Some(conflict) && w.precondition.Match?
    requires ResolutionDestination(state, conflict, w.path, ReadObject(snap, w.path)) == Success(w.precondition)
    ensures exists hash :: && Replaces(snap, w, hash)
                           && (HasView(state, w.path, hash) || IsConflictInput(snap, state, request, w.path, hash))
  {
    var hash := Sha256(snap.objects[w.path].bytes);
    assert Replaces(snap, w, hash);
    assert HasView(state, w.path, hash) || IsConflictInput(snap, state, request, w.path, hash);
  }

  lemma MergeViews(
    codec: Codec, snap: Store, state: CanonicalDocumentState, generation: nat, conflict: PreservedInput, input: StoredObject,
    request: ResolutionRequest)
    requires FindConflict(state.conflicts, request.conflictEventId) == Some(conflict)
    requires conflict.sourceRevision >= state.Device(conflict.source).revision
    requires PlanMerge(codec, snap, state, generation, conflict, input, request).Success?
    ensures ResolutionViewsOk(snap, state, request, PlanMerge(codec, snap, state, generation, conflict, input, request).value)
  {
    var proposed := ProposedManifest(codec, state, conflict, input.bytes).value;
    var selection := Selected(Classify(state, conflict, proposed.operations).value, request.strategy);
    var strokes := ChosenStrokes(state, conflict, selection, request);
    SettledFields(state, conflict, input.generation, proposed.sourceFileName, strokes, request);
    PublishViews(codec, snap, state, generation, conflict, input,
                 Settled(state, conflict, input.generation, proposed.sourceFileName, strokes, request), selection, request);
  }

  lemma SupersedeViews(snap: Store, state: CanonicalDocumentState, generation: nat, conflict: PreservedInput, request: ResolutionRequest)
    ensures ResolutionViewsOk(snap, state, request, PlanSupersede(state, generation, conflict, request))
  {
  }

  /** A resolution replaces a device file only when the file is the recorded view or the preserved input it settles. */
  lemma ResolveViews(codec: Codec, snap: Store, d: DocumentId, request: ResolutionRequest)
    requires Inv(snap, d) && request.documentId == d
    requires PlanResolve(codec, snap, request).Success? && PlanResolve(codec, snap, request).value.writes != []
    ensures ResolutionViewsOk(snap, StateOf(snap, d), request, PlanResolve(codec, snap, request).value)
  {
    ResolveReads(codec, snap, d, request);
    var state, generation := StateOf(snap, d), ReadState(snap, d).value.1;
    var conflict := FindConflict(state.conflicts, request.conflictEventId).value;
    if conflict.sourceRevision >= state.Device(conflict.source).revision {
      MergeViews(codec, snap, state, generation, conflict, ReadObject(snap, conflict.preservedPath).value, request);
    } else {
      SupersedeViews(snap, state, generation, conflict, request);
    }
  }

  /** A plan for a request writes only for the request's document, whatever is in the store. */
  lemma ResolvePaths(codec: Codec, snap: Store, request: ResolutionRequest)
    requires PlanResolve(codec, snap, request).Success? && PlanResolve(codec, snap, request).value.writes != []
    ensures WritesFor(PlanResolve(codec, snap, request).value.writes, request.documentId)
  {
    ResolveEndsInState(codec, snap, request);
    var (state, generation) := ReadState(snap, request.documentId).value;
    var conflict := FindConflict(state.conflicts, request.conflictEventId).value;
    var input := ReadObject(snap, conflict.preservedPath).value;
    if conflict.sourceRevision >= state.Device(conflict.source).revision {
      var proposed := ProposedManifest(codec, state, conflict, input.bytes).value;
      var selection := Selected(Classify(state, conflict, proposed.operations).value, request.strategy);
      var strokes := ChosenStrokes(state, conflict, selection, request);
      PublishPaths(codec, snap, state, generation, conflict, input,
                   Settled(state, conflict, input.generation, proposed.sourceFileName, strokes, request), selection, request);
    }
  }
}
