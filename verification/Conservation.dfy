/** Nothing a device sends is lost: processed inputs stay settled, conflicts and evidence stay readable,
    and the broker never overwrites device bytes it has not consumed or preserved. */
module Conservation {
  import opened Wrappers
  import opened Model
  import opened Storage
  import opened Merge
  import opened Brokers
  import opened BrokerInvariant
  import opened BrokerSteps
  import opened BrokerViews
  import opened Histories

  // ---------------------------------------------------------------- conflicts are conserved

  /** At every index: conflict ids are distinct, disjoint from the resolved ones, and all were processed. */
  lemma ConflictsAreDisjoint(h: History, i: nat, d: DocumentId)
    requires IsRun(h) && RegisteredAt(h, i, d)
    ensures var state := StateAt(h, i, d);
            && (forall m, n :: 0 <= m < n < |state.conflicts| ==> state.conflicts[m].eventId != state.conflicts[n].eventId)
            && (forall c :: c in state.conflicts ==> c.eventId in state.processedEventIds - state.resolvedConflicts.Keys)
            && state.resolvedConflicts.Keys <= state.processedEventIds
  {
    RunTracked(h, i, d);
  }

  lemma {:induction false} ConflictStays(states: seq<CanonicalDocumentState>, j: nat, i: nat, c: PreservedInput)
    requires Evolving(states) && j <= i < |states| && c in states[j].conflicts
    ensures c in states[i].conflicts || c.eventId in states[i].resolvedConflicts
    decreases i
  {
    if j < i {
      ConflictStays(states, j, i - 1, c);
      assert Evolves(states[i - 1], states[i]);
    }
  }

  /** A preserved conflict is never dropped: from then on it is active or resolved, never both. */
  lemma ConflictNeverLost(h: History, j: nat, i: nat, d: DocumentId, c: PreservedInput)
    requires IsRun(h) && j <= i < |h.stores| && RegisteredAt(h, j, d) && c in StateAt(h, j, d).conflicts
    ensures RegisteredAt(h, i, d)
    ensures c in StateAt(h, i, d).conflicts <==> c.eventId !in StateAt(h, i, d).resolvedConflicts
  {
    var states := StatesOf(h, j, i, d);
    ConflictStays(states, 0, i - j, c);
    assert StateFine(states[i - j]);
  }

  // ---------------------------------------------------------------- reprocessing

  lemma NothingCommitted(s: Store, writes: seq<ConditionalWrite>)
    requires writes == [] || !s.Admits(writes)
    ensures s.Commit(writes) == s
  {
  }

  /** An event id processed once stays settled: processing it again later changes nothing at all, even from
      a plan made before it was processed, and a fresh attempt is reported as a duplicate. */
  lemma ReprocessingChangesNothing(h: History, j: nat, i: nat, d: DocumentId)
    requires IsRun(h) && j <= i < |h.steps| && RegisteredAt(h, j, d)
    requires h.steps[i].Process? && h.steps[i].event.documentId == d
    requires h.steps[i].event.eventId in StateAt(h, j, d).processedEventIds
    ensures h.stores[i + 1] == h.stores[i]
    ensures ValidEvent(h.steps[i].event) ==>
              && RegisteredAt(h, i, d)
              && PlanProcess(h.codec, h.stores[i], h.steps[i].event) == Success(Plan([], StateAt(h, i, d), DuplicateEvent))
  {
    var step := h.steps[i];
    assert StepTaken(h, i);
    FrontierDiscipline(h, j, i, d);
    RunTracked(h, i, d);
    var writes := Planned(h.codec, h.stores[step.seen], step);
    assert h.stores[i + 1] == h.stores[i].Commit(writes);
    if writes != [] && h.stores[i].Admits(writes) {
      CommittedEvent(h, i, d);
      assert false;
    }
    NothingCommitted(h.stores[i], writes);
  }

  // ---------------------------------------------------------------- evidence

  lemma {:induction false} RunKeepsOnce(h: History, j: nat, i: nat, d: DocumentId)
    requires IsRun(h) && j <= i < |h.stores|
    ensures OnceKept(h.stores[j], h.stores[i])
    decreases i
  {
    if j < i {
      RunKeepsOnce(h, j, i - 1, d);
      StepKeepsOnce(h, i - 1, d);
    }
  }

  lemma StepKeepsOnce(h: History, i: nat, d: DocumentId)
    requires IsRun(h) && i < |h.steps|
    ensures OnceKept(h.stores[i], h.stores[i + 1])
  {
    RunCarries(h, i, d);
  }

  /** A preserved input keeps its bytes, and an accepted device revision stays readable at its generation,
      for the rest of the run. */
  lemma EvidenceStaysReadable(h: History, j: nat, i: nat, d: DocumentId)
    requires IsRun(h) && j <= i < |h.stores| && RegisteredAt(h, j, d)
    ensures forall c :: c in StateAt(h, j, d).conflicts ==>
              && ReadObject(h.stores[i], c.preservedPath).Some?
              && Sha256(ReadObject(h.stores[i], c.preservedPath).value.bytes) == c.contentSha256
    ensures forall side :: DeviceEvidence(h.stores[i], StateAt(h, j, d).Device(side))
  {
    RunTracked(h, j, d);
    RunFollows(h, j, i);
    RunKeepsOnce(h, j, i, d);
    forall side ensures DeviceEvidence(h.stores[i], StateAt(h, j, d).Device(side)) {
      assert DeviceEvidence(h.stores[j], StateAt(h, j, d).Device(side));
      EvidenceFollows(h.stores[j], h.stores[i], StateAt(h, j, d).Device(side));
    }
  }

  /** An accepted revision of `side` that the event had not seen. */
  predicate Competes(state: CanonicalDocumentState, event: StorageEvent, side: DeviceSide) {
    state.Device(side).revision > event.basedOn.Get(side) && state.Device(side).sourceObjectPath.Some?
  }

  /** A write of the copy of the competing revision of `side`. */
  predicate CopiesCompeting(w: ConditionalWrite, state: CanonicalDocumentState, event: StorageEvent, side: DeviceSide) {
    w.path == ConflictCurrent(event.documentId, event.eventId, side) && Some(Sha256(w.bytes)) == state.Device(side).contentSha256
  }

  lemma PreserveCopies(s: Store, state: CanonicalDocumentState, generation: nat, event: StorageEvent, input: Blob, side: DeviceSide)
    requires PlanPreserve(s, state, generation, event, input).Success? && Competes(state, event, side)
    ensures exists w :: w in PlanPreserve(s, state, generation, event, input).value.writes && CopiesCompeting(w, state, event, side)
  {
    var boox, supernote := CompetingWrite(s, state, event, Boox).value, CompetingWrite(s, state, event, Supernote).value;
    var w := if side.Boox? then boox[0] else supernote[0];
    assert w in boox + supernote;
    assert w in PlanPreserve(s, state, generation, event, input).value.writes && CopiesCompeting(w, state, event, side);
  }

  lemma RevisionCopies(codec: Codec, s: Store, state: CanonicalDocumentState, generation: nat, event: StorageEvent, input: Blob, side: DeviceSide)
    requires PlanRevision(codec, s, state, generation, event, input).Success? && Competes(state, event, side)
    requires PlanRevision(codec, s, state, generation, event, input).value.outcome.PreservedConflict?
    ensures exists w :: w in PlanRevision(codec, s, state, generation, event, input).value.writes && CopiesCompeting(w, state, event, side)
  {
    var device := state.Device(event.source);
    if (event.sourceRevision <= device.revision && Some(Sha256(input)) != device.contentSha256)
       || (event.sourceRevision > device.revision && event.basedOn != state.Revisions()) {
      PreserveCopies(s, state, generation, event, input, side);
    }
  }

  lemma ProcessCopies(codec: Codec, s: Store, event: StorageEvent, side: DeviceSide)
    requires PlanProcess(codec, s, event).Success? && PlanProcess(codec, s, event).value.outcome.PreservedConflict?
    requires ReadState(s, event.documentId).Success? && Competes(StateOf(s, event.documentId), event, side)
    ensures exists w :: w in PlanProcess(codec, s, event).value.writes && CopiesCompeting(w, StateOf(s, event.documentId), event, side)
  {
    var (state, generation) := ReadState(s, event.documentId).value;
    var source := ReadVersion(s, event.objectPath, event.sourceGeneration).value;
    var stamped := event.(contentSha256 := Some(Sha256(source.bytes)));
    RevisionCopies(codec, s, state, generation, stamped, source.bytes, side);
    var w :| w in PlanProcess(codec, s, event).value.writes && CopiesCompeting(w, state, stamped, side);
    assert CopiesCompeting(w, state, event, side);
  }

  lemma Written(s: Store, writes: seq<ConditionalWrite>, w: ConditionalWrite)
    requires DistinctPaths(writes) && s.Admits(writes) && w in writes
    ensures w.path in s.Commit(writes).objects && s.Commit(writes).objects[w.path].bytes == w.bytes
  {
    WriteAllEffect(s, writes);
  }

  /** A conflict keeps both sides: every accepted revision its event had not seen is copied in the commit that
      records the conflict, and the copy has that revision's hash for the rest of the run. */
  lemma CompetingCopiesStay(h: History, i: nat, n: nat, d: DocumentId, side: DeviceSide)
    requires IsRun(h) && i < n < |h.stores| && CommitsEvent(h, i, d) && EventPlan(h, i).outcome.PreservedConflict?
    requires RegisteredAt(h, i, d) && Competes(StateAt(h, i, d), h.steps[i].event, side)
    ensures var copy := ConflictCurrent(d, h.steps[i].event.eventId, side);
            && ReadObject(h.stores[n], copy).Some?
            && Some(Sha256(ReadObject(h.stores[n], copy).value.bytes)) == StateAt(h, i, d).Device(side).contentSha256
  {
    var event := h.steps[i].event;
    CommittedEvent(h, i, d);
    ProcessCopies(h.codec, h.stores[h.steps[i].seen], event, side);
    var w :| w in EventPlan(h, i).writes && CopiesCompeting(w, StateAt(h, i, d), event, side);
    ProcessViews(h.codec, h.stores[h.steps[i].seen], event);
    Written(h.stores[i], EventPlan(h, i).writes, w);
    RunKeepsOnce(h, i + 1, n, d);
  }

  predicate EvidenceError(r: Result<Plan, BrokerError>) {
    r.Failure? && (r.error.EvidenceMissing? || r.error.EvidenceHashChanged? || r.error.CorruptState?)
  }

  lemma PreserveFindsEvidence(s: Store, d: DocumentId, generation: nat, event: StorageEvent, input: Blob)
    requires Inv(s, d)
    ensures PlanPreserve(s, StateOf(s, d), generation, event, input).Success?
  {
    var state := StateOf(s, d);
    assert forall side: DeviceSide :: DeviceEvidence(s, state.Device(side));
    assert CompetingWrite(s, state, event, Boox).Success?;
    assert CompetingWrite(s, state, event, Supernote).Success?;
  }

  lemma ApplyFindsEvidence(codec: Codec, s: Store, d: DocumentId, generation: nat, event: StorageEvent, input: Blob)
    requires ReadState(s, d).Success? && OriginalKept(s, StateOf(s, d))
    ensures !EvidenceError(PlanApplyBoox(codec, s, StateOf(s, d), generation, event, input))
    ensures !EvidenceError(PlanApplySupernote(codec, s, StateOf(s, d), generation, event, input))
  {
  }

  /** How an event that reaches its revision check ends. */
  lemma RevisionCases(codec: Codec, s: Store, state: CanonicalDocumentState, generation: nat, event: StorageEvent, input: Blob)
    ensures var r := PlanRevision(codec, s, state, generation, event, input);
            || (r.Failure? && r.error.InvalidEvent?)
            || r == Success(PlanMark(state, generation, event, IgnoredStaleSource))
            || r == PlanPreserve(s, state, generation, event, input)
            || r == PlanApplyBoox(codec, s, state, generation, event, input)
            || r == PlanApplySupernote(codec, s, state, generation, event, input)
  {
  }

  lemma RevisionFindsEvidence(codec: Codec, s: Store, d: DocumentId, generation: nat, event: StorageEvent, input: Blob)
    requires Inv(s, d)
    ensures !EvidenceError(PlanRevision(codec, s, StateOf(s, d), generation, event, input))
  {
    PreserveFindsEvidence(s, d, generation, event, input);
    ApplyFindsEvidence(codec, s, d, generation, event, input);
    RevisionCases(codec, s, StateOf(s, d), generation, event, input);
  }

  lemma ProcessFindsEvidence(codec: Codec, s: Store, d: DocumentId, event: StorageEvent)
    requires Inv(s, d) && event.documentId == d
    ensures !EvidenceError(PlanProcess(codec, s, event))
  {
    var (state, generation) := ReadState(s, d).value;
    match ReadVersion(s, event.objectPath, event.sourceGeneration) {
      case None =>
      case Some(source) =>
        RevisionFindsEvidence(codec, s, d, generation, event.(contentSha256 := Some(Sha256(source.bytes))), source.bytes);
    }
  }

  lemma PublishFindsEvidence(
    codec: Codec, s: Store, d: DocumentId, generation: nat, conflict: PreservedInput, input: StoredObject,
    settled: CanonicalDocumentState, selection: Selection, request: ResolutionRequest)
    requires Inv(s, d) && settled.documentId == d && settled.originalPdfSha256 == StateOf(s, d).originalPdfSha256
    ensures !EvidenceError(PlanPublish(codec, s, StateOf(s, d), generation, conflict, input, settled, selection, request))
  {
    assert ReadOriginal(s, settled) == ReadOriginal(s, StateOf(s, d));
  }

  lemma MergeFindsEvidence(codec: Codec, s: Store, d: DocumentId, generation: nat, conflict: PreservedInput, input: StoredObject, request: ResolutionRequest)
    requires Inv(s, d) && conflict.sourceRevision >= StateOf(s, d).Device(conflict.source).revision
    ensures !EvidenceError(PlanMerge(codec, s, StateOf(s, d), generation, conflict, input, request))
  {
    var state := StateOf(s, d);
    var proposed := ProposedManifest(codec, state, conflict, input.bytes);
    if proposed.Success? && Classify(state, conflict, proposed.value.operations).Some? {
      var selection := Selected(Classify(state, conflict, proposed.value.operations).value, request.strategy);
      var strokes := ChosenStrokes(state, conflict, selection, request);
      SettledFields(state, conflict, input.generation, proposed.value.sourceFileName, strokes, request);
      PublishFindsEvidence(codec, s, d, generation, conflict, input,
                           Settled(state, conflict, input.generation, proposed.value.sourceFileName, strokes, request), selection, request);
    }
  }

  lemma ResolveFindsEvidence(codec: Codec, s: Store, d: DocumentId, request: ResolutionRequest)
    requires Inv(s, d) && request.documentId == d
    ensures !EvidenceError(PlanResolve(codec, s, request))
  {
    var (state, generation) := ReadState(s, d).value;
    FindConflictMeaning(state.conflicts, request.conflictEventId);
    var found := FindConflict(state.conflicts, request.conflictEventId);
    if found.Some? {
      assert ReadObject(s, found.value.preservedPath).Some?;
      if found.value.sourceRevision >= state.Device(found.value.source).revision {
        MergeFindsEvidence(codec, s, d, generation, found.value, ReadObject(s, found.value.preservedPath).value, request);
      }
    }
  }

  /** In every reachable store, no event and no resolution request can meet missing evidence, evidence whose
      hash changed, a changed original, or a state under the wrong document. */
  lemma EvidenceErrorsUnreachable(h: History, i: nat, event: StorageEvent, request: ResolutionRequest)
    requires IsRun(h) && i < |h.stores|
    ensures !EvidenceError(PlanProcess(h.codec, h.stores[i], event))
    ensures !EvidenceError(PlanResolve(h.codec, h.stores[i], request))
  {
    RunTracked(h, i, event.documentId);
    RunTracked(h, i, request.documentId);
    if Registered(h.stores[i], event.documentId) {
      ProcessFindsEvidence(h.codec, h.stores[i], event.documentId, event);
    }
    if Registered(h.stores[i], request.documentId) {
      ResolveFindsEvidence(h.codec, h.stores[i], request.documentId, request);
    }
  }
}
