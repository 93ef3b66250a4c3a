/** Registering documents, over runs: when it fails, and why the state of a registered document always has its page
    count, so that bringing one up to date is for states of older programs only. */
module Registrations {
  import opened Wrappers
  import opened Model
  import opened Storage
  import opened Merge
  import opened Brokers
  import opened BrokerInvariant
  import opened BrokerSteps
  import opened Histories
  import opened DeviceEdits

  // ---------------------------------------------------------------- what stays of the original

  predicate SameOriginal(state: CanonicalDocumentState, next: CanonicalDocumentState) {
    next.originalPageCount == state.originalPageCount && next.originalPdfSha256 == state.originalPdfSha256
  }

  lemma RevisionKeepsOriginal(codec: Codec, s: Store, state: CanonicalDocumentState, generation: nat, event: StorageEvent, input: Blob)
    requires PlanRevision(codec, s, state, generation, event, input).Success?
    ensures SameOriginal(state, PlanRevision(codec, s, state, generation, event, input).value.state)
  {
    var device := state.Device(event.source);
    if (event.sourceRevision <= device.revision && Some(Sha256(input)) != device.contentSha256)
       || (event.sourceRevision > device.revision && event.basedOn != state.Revisions()) {
      PreserveShape(s, state, generation, event, input);
    } else if event.sourceRevision > device.revision {
      match event.source {
        case Boox => ApplyBooxKeepsOriginal(codec, s, state, generation, event, input);
        case Supernote => ApplySupernoteKeepsOriginal(codec, s, state, generation, event, input);
      }
    }
  }

  lemma ApplyBooxKeepsOriginal(codec: Codec, s: Store, state: CanonicalDocumentState, generation: nat, event: StorageEvent, input: Blob)
    requires PlanApplyBoox(codec, s, state, generation, event, input).Success?
    ensures SameOriginal(state, PlanApplyBoox(codec, s, state, generation, event, input).value.state)
  {
  }

  lemma ApplySupernoteKeepsOriginal(codec: Codec, s: Store, state: CanonicalDocumentState, generation: nat, event: StorageEvent, input: Blob)
    requires PlanApplySupernote(codec, s, state, generation, event, input).Success?
    ensures SameOriginal(state, PlanApplySupernote(codec, s, state, generation, event, input).value.state)
  {
  }

  lemma EventKeepsOriginal(codec: Codec, s: Store, event: StorageEvent)
    requires PlanProcess(codec, s, event).Success? && PlanProcess(codec, s, event).value.writes != []
    ensures ReadState(s, event.documentId).Success?
    ensures SameOriginal(StateOf(s, event.documentId), PlanProcess(codec, s, event).value.state)
  {
    ProcessIsFresh(codec, s, event);
    var (state, generation) := ReadState(s, event.documentId).value;
    match ReadVersion(s, event.objectPath, event.sourceGeneration) {
      case None =>
      case Some(source) =>
        var hash := Sha256(source.bytes);
        if !IsBrokerOutput(event, source.metadata, hash) {
          RevisionKeepsOriginal(codec, s, state, generation, event.(contentSha256 := Some(hash)), source.bytes);
        }
    }
  }

  lemma PublishKeepsOriginal(
    codec: Codec, s: Store, state: CanonicalDocumentState, generation: nat, conflict: PreservedInput, input: StoredObject,
    settled: CanonicalDocumentState, selection: Selection, request: ResolutionRequest)
    requires PlanPublish(codec, s, state, generation, conflict, input, settled, selection, request).Success?
    ensures SameOriginal(settled, PlanPublish(codec, s, state, generation, conflict, input, settled, selection, request).value.state)
  {
  }

  lemma ResolutionKeepsOriginal(codec: Codec, s: Store, request: ResolutionRequest)
    requires PlanResolve(codec, s, request).Success? && PlanResolve(codec, s, request).value.writes != []
    ensures ReadState(s, request.documentId).Success?
    ensures SameOriginal(StateOf(s, request.documentId), PlanResolve(codec, s, request).value.state)
  {
    ResolveEndsInState(codec, s, request);
    var (state, generation) := ReadState(s, request.documentId).value;
    var conflict := FindConflict(state.conflicts, request.conflictEventId).value;
    var input := ReadObject(s, conflict.preservedPath).value;
    if conflict.sourceRevision >= state.Device(conflict.source).revision {
      var proposed := ProposedManifest(codec, state, conflict, input.bytes).value;
      var selection := Selected(Classify(state, conflict, proposed.operations).value, request.strategy);
      var strokes := ChosenStrokes(state, conflict, selection, request);
      PublishKeepsOriginal(codec, s, state, generation, conflict, input,
                            Settled(state, conflict, input.generation, proposed.sourceFileName, strokes, request), selection, request);
    }
  }

  /** A step that changes a registered document's state keeps what it says of the original. */
  lemma StepKeepsOriginal(h: History, i: nat, d: DocumentId)
    requires IsRun(h) && i < |h.steps| && RegisteredAt(h, i + 1, d)
    ensures RegisteredAt(h, i, d) ==> SameOriginal(StateAt(h, i, d), StateAt(h, i + 1, d))
    ensures !RegisteredAt(h, i, d) ==> && h.steps[i].Register? && h.steps[i].d == d && h.steps[i].pageCount > 0
                                       && StateAt(h, i + 1, d) == InitialState(d, h.steps[i].original, h.steps[i].fileName, h.steps[i].pageCount)
  {
    StateChangesOnlyBy(h, i, d);
    assert StepTaken(h, i);
    if CommitsEvent(h, i, d) {
      CommittedEvent(h, i, d);
      EventKeepsOriginal(h.codec, h.stores[h.steps[i].seen], h.steps[i].event);
    } else if h.steps[i].Resolve? && h.steps[i].request.documentId == d && exists c :: CommitsResolution(h, i, d, c, h.steps[i].request.strategy) {
      var c :| CommitsResolution(h, i, d, c, h.steps[i].request.strategy);
      CommittedResolution(h, i, d, c, h.steps[i].request.strategy);
      ResolutionKeepsOriginal(h.codec, h.stores[h.steps[i].seen], h.steps[i].request);
    }
  }

  /** In every run, the state of every registered document has the page count its original was registered with. */
  lemma {:induction false} PageCountKnown(h: History, i: nat, d: DocumentId)
    requires IsRun(h) && RegisteredAt(h, i, d)
    ensures StateAt(h, i, d).originalPageCount > 0
    decreases i
  {
    NotAtFirst(h, i, d);
    StepKeepsOriginal(h, i - 1, d);
    if RegisteredAt(h, i - 1, d) {
      PageCountKnown(h, i - 1, d);
    }
  }

  lemma NotAtFirst(h: History, i: nat, d: DocumentId)
    requires IsRun(h) && RegisteredAt(h, i, d)
    ensures i > 0
  {
    assert h.stores[0] == Store(map[], map[], 0);
  }

  // ---------------------------------------------------------------- registering

  /** Documents are registered under the IDs derived from their originals. */
  ghost predicate DerivedIds(h: History) {
    forall i :: 0 <= i < |h.steps| && h.steps[i].Register? ==> h.steps[i].d == h.codec.stableDocumentId(Sha256(h.steps[i].original))
  }

  lemma {:induction false} IdIsDerived(h: History, i: nat, d: DocumentId)
    requires IsRun(h) && DerivedIds(h) && RegisteredAt(h, i, d)
    ensures h.codec.stableDocumentId(StateAt(h, i, d).originalPdfSha256) == d
    decreases i
  {
    NotAtFirst(h, i, d);
    StepKeepsOriginal(h, i - 1, d);
    if RegisteredAt(h, i - 1, d) {
      IdIsDerived(h, i - 1, d);
    }
  }

  /** In a store of a run, registering a readable, named original fails exactly when another original is registered
      under its ID, and then the two digests have one ID. Otherwise it commits the first state, or finds the document
      registered and changes nothing. */
  lemma RegisteringFailsExactly(h: History, i: nat, original: Blob, fileName: string, pageCount: nat)
    requires IsRun(h) && DerivedIds(h) && i < |h.stores| && !IsBlank(fileName) && pageCount > 0
    ensures var r, d := PlanRegister(h.codec, h.stores[i], original, fileName, pageCount), h.codec.stableDocumentId(Sha256(original));
            && (r.Failure? <==> RegisteredAt(h, i, d) && StateAt(h, i, d).originalPdfSha256 != Sha256(original))
            && (RegisteredAt(h, i, d) ==> h.codec.stableDocumentId(StateAt(h, i, d).originalPdfSha256) == d)
            && (r.Success? ==>
                  && h.stores[i].Admits(r.value.writes)
                  && r.value == if RegisteredAt(h, i, d) then Registration([], StateAt(h, i, d))
                                else Registration(RegisterWrites(d, original, fileName, pageCount), InitialState(d, original, fileName, pageCount)))
  {
    var d := h.codec.stableDocumentId(Sha256(original));
    RunTracked(h, i, d);
    if RegisteredAt(h, i, d) {
      PageCountKnown(h, i, d);
      IdIsDerived(h, i, d);
    } else {
      assert BrokerOwned(OriginalPath(d), d) && BrokerOwned(StatePath(d), d);
    }
  }

  /** Registering, planned from any earlier store, is the registration step of a run. */
  lemma RegisteringIsAStep(h: History, j: nat, i: nat, original: Blob, fileName: string, pageCount: nat)
    requires IsRun(h) && j <= i < |h.stores|
    ensures var plan, d := PlanRegister(h.codec, h.stores[j], original, fileName, pageCount), h.codec.stableDocumentId(Sha256(original));
            h.stores[i].Commit(if plan.Success? then plan.value.writes else [])
            == Next(h.codec, h.stores[i], h.stores[i], Register(d, original, fileName, pageCount))
  {
    var d := h.codec.stableDocumentId(Sha256(original));
    assert h.stores[i].Commit([]) == h.stores[i];
    RunTracked(h, j, d);
    if RegisteredAt(h, j, d) {
      PageCountKnown(h, j, d);
      StaysRegistered(h, j, i, d);
      RunTracked(h, i, d);
      RegisterInstalls(h.stores[i], d, original, fileName, pageCount);
    }
  }
}
