/** Every commit of the broker is the one that would be planned from the store it commits to: plans may be made from
    an old store, or from reads that others come between, and it makes no difference to any plan that is admitted. */
module Serializability {
  import opened Wrappers
  import opened Model
  import opened Storage
  import opened Manifests
  import opened Merge
  import opened Brokers
  import opened BrokerInvariant
  import opened BrokerSteps
  import opened BrokerViews
  import opened Histories
  import opened Conservation

  // ---------------------------------------------------------------- what was read

  /** Everything in `m` was read, at some time or other, before the store became `s`. */
  ghost predicate ReadBefore(m: Store, s: Store) {
    && (forall v: (Path, nat) :: v in m.versions ==> v in s.versions && s.versions[v] == m.versions[v])
    && (forall p :: p in m.objects ==>
          && p in s.objects && m.objects[p].generation <= s.objects[p].generation
          && (m.objects[p].generation == s.objects[p].generation || WrittenOnce(p) ==> s.objects[p] == m.objects[p]))
  }

  /** The event's own input was not there to be read, and has been written since. */
  predicate LateSource(m: Store, s: Store, event: StorageEvent) {
    ReadVersion(m, event.objectPath, event.sourceGeneration).None? && ReadVersion(s, event.objectPath, event.sourceGeneration).Some?
  }

  /** The precondition that says what was read. */
  predicate Observes(precondition: GenerationPrecondition, read: Option<StoredObject>) {
    match read
    case None => precondition == DoesNotExist
    case Some(found) => precondition == Match(found.generation)
  }

  lemma ObservedStill(m: Store, s: Store, p: Path, precondition: GenerationPrecondition)
    requires ReadBefore(m, s) && Observes(precondition, ReadObject(m, p)) && Holds(precondition, s.Generation(p))
    ensures ReadObject(s, p) == ReadObject(m, p)
  {
  }

  lemma StateStill(m: Store, s: Store, d: DocumentId, plan: Plan)
    requires ReadBefore(m, s) && ReadState(m, d).Success? && EndsInWriteOf(plan, d, ReadState(m, d).value.1) && s.Admits(plan.writes)
    ensures ReadState(s, d) == ReadState(m, d)
  {
    var last := plan.writes[|plan.writes| - 1];
    assert Holds(last.precondition, s.Generation(last.path));
    ObservedStill(m, s, StatePath(d), last.precondition);
  }

  lemma OriginalStill(m: Store, s: Store, state: CanonicalDocumentState)
    requires ReadBefore(m, s) && ReadOriginal(m, state).Success?
    ensures ReadOriginal(s, state) == ReadOriginal(m, state)
  {
  }

  // ---------------------------------------------------------------- events

  lemma PreserveSerializes(m: Store, s: Store, state: CanonicalDocumentState, generation: nat, event: StorageEvent, input: Blob)
    requires ReadBefore(m, s) && PlanPreserve(m, state, generation, event, input).Success?
    ensures PlanPreserve(s, state, generation, event, input) == PlanPreserve(m, state, generation, event, input)
  {
    assert CompetingWrite(s, state, event, Boox) == CompetingWrite(m, state, event, Boox);
    assert CompetingWrite(s, state, event, Supernote) == CompetingWrite(m, state, event, Supernote);
  }

  lemma DeliverSerializes(
    m: Store, s: Store, accepted: CanonicalDocumentState, generation: nat, event: StorageEvent, path: Path, output: Blob)
    requires ReadBefore(m, s) && PlanDeliver(m, accepted, generation, event, path, output).Success?
    requires s.Admits(PlanDeliver(m, accepted, generation, event, path, output).value.writes)
    ensures PlanDeliver(s, accepted, generation, event, path, output) == PlanDeliver(m, accepted, generation, event, path, output)
  {
    var w := PlanDeliver(m, accepted, generation, event, path, output).value.writes[0];
    assert Holds(w.precondition, s.Generation(w.path));
    ObservedStill(m, s, path, w.precondition);
  }

  lemma ApplyBooxSerializes(
    codec: Codec, m: Store, s: Store, state: CanonicalDocumentState, generation: nat, event: StorageEvent, input: Blob)
    requires ReadBefore(m, s) && PlanApplyBoox(codec, m, state, generation, event, input).Success?
    requires s.Admits(PlanApplyBoox(codec, m, state, generation, event, input).value.writes)
    ensures PlanApplyBoox(codec, s, state, generation, event, input) == PlanApplyBoox(codec, m, state, generation, event, input)
  {
    var manifest := codec.booxManifest(state, event, input).value;
    var strokes := Applied(state.strokes, manifest.operations, EventAuthor(event));
    DeliverSerializes(m, s, Accepted(state, event, Sha256(input), strokes, Some(manifest.sourceFileName)), generation, event,
                      SupernoteManifest(event.documentId, event.eventId), ManifestJson(manifest));
  }

  lemma ApplySupernoteSerializes(
    codec: Codec, m: Store, s: Store, state: CanonicalDocumentState, generation: nat, event: StorageEvent, input: Blob)
    requires ReadBefore(m, s) && PlanApplySupernote(codec, m, state, generation, event, input).Success?
    requires s.Admits(PlanApplySupernote(codec, m, state, generation, event, input).value.writes)
    ensures PlanApplySupernote(codec, s, state, generation, event, input) == PlanApplySupernote(codec, m, state, generation, event, input)
  {
    OriginalStill(m, s, state);
    var exported := codec.parseExport(input).value;
    var strokes := ExportApplied(state.strokes, exported.pages, EventAuthor(event));
    var fileName := if exported.sourceFileName.Some? then exported.sourceFileName else state.supernote.sourceFileName;
    var pdf := codec.renderBooxView(ReadOriginal(m, state).value, ActiveSnapshots(strokes), TombstonedIds(strokes)).value;
    DeliverSerializes(m, s, Accepted(state, event, Sha256(input), strokes, fileName), generation, event, BooxViewPath(state), pdf);
  }

  lemma RevisionSerializes(
    codec: Codec, m: Store, s: Store, state: CanonicalDocumentState, generation: nat, event: StorageEvent, input: Blob)
    requires ReadBefore(m, s) && PlanRevision(codec, m, state, generation, event, input).Success?
    requires s.Admits(PlanRevision(codec, m, state, generation, event, input).value.writes)
    ensures PlanRevision(codec, s, state, generation, event, input) == PlanRevision(codec, m, state, generation, event, input)
  {
    var device := state.Device(event.source);
    if (event.sourceRevision <= device.revision && Some(Sha256(input)) != device.contentSha256)
       || (event.sourceRevision > device.revision && event.basedOn != state.Revisions()) {
      PreserveSerializes(m, s, state, generation, event, input);
    } else if event.sourceRevision > device.revision {
      match event.source {
        case Boox => ApplyBooxSerializes(codec, m, s, state, generation, event, input);
        case Supernote => ApplySupernoteSerializes(codec, m, s, state, generation, event, input);
      }
    }
  }

  lemma FreshSerializes(codec: Codec, m: Store, s: Store, state: CanonicalDocumentState, generation: nat, event: StorageEvent)
    requires ReadBefore(m, s) && !LateSource(m, s, event) && PlanFresh(codec, m, state, generation, event).Success?
    requires s.Admits(PlanFresh(codec, m, state, generation, event).value.writes)
    ensures PlanFresh(codec, s, state, generation, event) == PlanFresh(codec, m, state, generation, event)
  {
    match ReadVersion(m, event.objectPath, event.sourceGeneration) {
      case None =>
      case Some(source) =>
        var hash := Sha256(source.bytes);
        if !IsBrokerOutput(event, source.metadata, hash) {
          RevisionSerializes(codec, m, s, state, generation, event.(contentSha256 := Some(hash)), source.bytes);
        }
    }
  }

  lemma ProcessPlans(codec: Codec, m: Store, event: StorageEvent)
    requires PlanProcess(codec, m, event).Success? && PlanProcess(codec, m, event).value.writes != []
    ensures ReadState(m, event.documentId).Success? && PlansEvent(StateOf(m, event.documentId), event)
    ensures PlanProcess(codec, m, event) == PlanFresh(codec, m, StateOf(m, event.documentId), ReadState(m, event.documentId).value.1, event)
  {
  }

  /** An event plan that is admitted is the plan of the store that admits it, however its reads were spread out. */
  lemma EventSerializes(codec: Codec, m: Store, s: Store, event: StorageEvent)
    requires ReadBefore(m, s) && !LateSource(m, s, event)
    requires PlanProcess(codec, m, event).Success? && PlanProcess(codec, m, event).value.writes != []
    requires s.Admits(PlanProcess(codec, m, event).value.writes)
    ensures PlanProcess(codec, s, event) == PlanProcess(codec, m, event)
  {
    ProcessPlans(codec, m, event);
    var (state, generation) := ReadState(m, event.documentId).value;
    FreshEndsInState(codec, m, state, generation, event);
    StateStill(m, s, event.documentId, PlanFresh(codec, m, state, generation, event).value);
    FreshSerializes(codec, m, s, state, generation, event);
    ProcessFrom(codec, s, state, generation, event);
  }

  // ---------------------------------------------------------------- resolutions

  lemma DestinationObserves(state: CanonicalDocumentState, conflict: PreservedInput, p: Path, read: Option<StoredObject>)
    requires ResolutionDestination(state, conflict, p, read).Success?
    ensures Observes(ResolutionDestination(state, conflict, p, read).value, read)
  {
  }

  lemma ViewStill(
    codec: Codec, m: Store, s: Store, state: CanonicalDocumentState, generation: nat, conflict: PreservedInput, input: StoredObject,
    settled: CanonicalDocumentState, selection: Selection, request: ResolutionRequest)
    requires ReadBefore(m, s) && PlanPublish(codec, m, state, generation, conflict, input, settled, selection, request).Success?
    requires s.Admits(PlanPublish(codec, m, state, generation, conflict, input, settled, selection, request).value.writes)
    ensures ReadObject(s, BooxViewPath(settled)) == ReadObject(m, BooxViewPath(settled))
  {
    var w := PlanPublish(codec, m, state, generation, conflict, input, settled, selection, request).value.writes[0];
    assert w.path == BooxViewPath(settled) && Holds(w.precondition, s.Generation(w.path));
    DestinationObserves(state, conflict, w.path, ReadObject(m, w.path));
    ObservedStill(m, s, w.path, w.precondition);
  }

  lemma PublishSerializes(
    codec: Codec, m: Store, s: Store, state: CanonicalDocumentState, generation: nat, conflict: PreservedInput, input: StoredObject,
    settled: CanonicalDocumentState, selection: Selection, request: ResolutionRequest)
    requires ReadBefore(m, s) && PlanPublish(codec, m, state, generation, conflict, input, settled, selection, request).Success?
    requires s.Admits(PlanPublish(codec, m, state, generation, conflict, input, settled, selection, request).value.writes)
    ensures PlanPublish(codec, s, state, generation, conflict, input, settled, selection, request)
            == PlanPublish(codec, m, state, generation, conflict, input, settled, selection, request)
  {
    ViewStill(codec, m, s, state, generation, conflict, input, settled, selection, request);
    OriginalStill(m, s, settled);
  }

  lemma MergeSerializes(
    codec: Codec, m: Store, s: Store, state: CanonicalDocumentState, generation: nat, conflict: PreservedInput, input: StoredObject,
    request: ResolutionRequest)
    requires ReadBefore(m, s) && PlanMerge(codec, m, state, generation, conflict, input, request).Success?
    requires s.Admits(PlanMerge(codec, m, state, generation, conflict, input, request).value.writes)
    ensures PlanMerge(codec, s, state, generation, conflict, input, request) == PlanMerge(codec, m, state, generation, conflict, input, request)
  {
    var proposed := ProposedManifest(codec, state, conflict, input.bytes).value;
    var selection := Selected(Classify(state, conflict, proposed.operations).value, request.strategy);
    var strokes := ChosenStrokes(state, conflict, selection, request);
    PublishSerializes(codec, m, s, state, generation, conflict, input,
                      Settled(state, conflict, input.generation, proposed.sourceFileName, strokes, request), selection, request);
  }

  lemma ActiveSerializes(codec: Codec, m: Store, s: Store, state: CanonicalDocumentState, generation: nat, request: ResolutionRequest)
    requires ReadBefore(m, s) && PlanResolveActive(codec, m, state, generation, request).Success?
    requires s.Admits(PlanResolveActive(codec, m, state, generation, request).value.writes)
    requires forall c :: c in state.conflicts ==> WrittenOnce(c.preservedPath)
    ensures PlanResolveActive(codec, s, state, generation, request) == PlanResolveActive(codec, m, state, generation, request)
  {
    FindConflictMeaning(state.conflicts, request.conflictEventId);
    var conflict := FindConflict(state.conflicts, request.conflictEventId).value;
    assert ReadObject(s, conflict.preservedPath) == ReadObject(m, conflict.preservedPath);
    if conflict.sourceRevision >= state.Device(conflict.source).revision {
      MergeSerializes(codec, m, s, state, generation, conflict, ReadObject(m, conflict.preservedPath).value, request);
    }
  }

  lemma ResolvePlans(codec: Codec, m: Store, request: ResolutionRequest)
    requires PlanResolve(codec, m, request).Success? && PlanResolve(codec, m, request).value.writes != []
    ensures ReadState(m, request.documentId).Success? && PlansResolution(StateOf(m, request.documentId), request)
  {
  }

  /** The same for a resolution. */
  lemma ResolutionSerializes(codec: Codec, m: Store, s: Store, request: ResolutionRequest)
    requires ReadBefore(m, s) && Inv(s, request.documentId)
    requires PlanResolve(codec, m, request).Success? && PlanResolve(codec, m, request).value.writes != []
    requires s.Admits(PlanResolve(codec, m, request).value.writes)
    ensures PlanResolve(codec, s, request) == PlanResolve(codec, m, request)
  {
    ResolvePlans(codec, m, request);
    ResolveIsActive(codec, m, request);
    var (state, generation) := ReadState(m, request.documentId).value;
    ActiveEndsInState(codec, m, state, generation, request);
    StateStill(m, s, request.documentId, PlanResolveActive(codec, m, state, generation, request).value);
    EvidenceIsWrittenOnce(s, request.documentId);
    ActiveSerializes(codec, m, s, state, generation, request);
    ResolveFrom(codec, s, state, generation, request);
  }

  lemma EvidenceIsWrittenOnce(s: Store, d: DocumentId)
    requires Inv(s, d)
    ensures forall c :: c in StateOf(s, d).conflicts ==> WrittenOnce(c.preservedPath)
  {
    forall c | c in StateOf(s, d).conflicts ensures WrittenOnce(c.preservedPath) {
      assert c.preservedPath == ConflictIncoming(d, c.eventId);
    }
  }

  // ---------------------------------------------------------------- runs

  /** Reads spread over a stretch of the run: each path, and each version, is found as one of its stores had it. */
  ghost predicate ReadDuring(h: History, j: nat, i: nat, m: Store) {
    && j <= i < |h.stores|
    && (forall p :: exists k :: j <= k <= i && ReadObject(m, p) == ReadObject(h.stores[k], p))
    && (forall p, g :: exists k :: j <= k <= i && ReadVersion(m, p, g) == ReadVersion(h.stores[k], p, g))
  }

  lemma StoreReadBefore(h: History, k: nat, n: nat)
    requires IsRun(h) && k <= n < |h.stores|
    ensures ReadBefore(h.stores[k], h.stores[n])
  {
    RunFollows(h, k, n);
    RunKeepsOnce(h, k, n, "");
  }

  lemma DuringIsBefore(h: History, j: nat, i: nat, n: nat, m: Store)
    requires IsRun(h) && ReadDuring(h, j, i, m) && i <= n < |h.stores|
    ensures ReadBefore(m, h.stores[n])
  {
    forall v: (Path, nat) | v in m.versions ensures v in h.stores[n].versions && h.stores[n].versions[v] == m.versions[v] {
      assert v == (v.0, v.1);
      var k: nat :| j <= k <= i && ReadVersion(m, v.0, v.1) == ReadVersion(h.stores[k], v.0, v.1);
      StoreReadBefore(h, k, n);
    }
    forall p | p in m.objects
      ensures p in h.stores[n].objects && m.objects[p].generation <= h.stores[n].objects[p].generation
      ensures m.objects[p].generation == h.stores[n].objects[p].generation || WrittenOnce(p) ==> h.stores[n].objects[p] == m.objects[p]
    {
      var k: nat :| j <= k <= i && ReadObject(m, p) == ReadObject(h.stores[k], p);
      StoreReadBefore(h, k, n);
    }
  }

  // No version appears at a generation that was given out already.

  ghost predicate NewVersions(s: Store, t: Store) {
    s.nextGeneration <= t.nextGeneration && forall v: (Path, nat) :: v in t.versions && v !in s.versions ==> v.1 > s.nextGeneration
  }

  lemma {:induction false} WriteAllVersions(s: Store, writes: seq<ConditionalWrite>)
    ensures NewVersions(s, s.WriteAll(writes))
    decreases |writes|
  {
    if writes != [] {
      WriteAllVersions(s.Write(writes[0]), writes[1..]);
    }
  }

  lemma {:induction false} RunVersions(h: History, j: nat, i: nat)
    requires IsRun(h) && j <= i < |h.stores|
    ensures NewVersions(h.stores[j], h.stores[i])
    decreases i
  {
    if j < i {
      RunVersions(h, j, i - 1);
      StepVersions(h, i - 1);
    }
  }

  lemma StepVersions(h: History, i: nat)
    requires IsRun(h) && i < |h.steps|
    ensures NewVersions(h.stores[i], h.stores[i + 1])
  {
    assert StepTaken(h, i);
    if !h.steps[i].Edit? {
      WriteAllVersions(h.stores[i], Planned(h.codec, h.stores[Seen(h.steps[i], i)], h.steps[i]));
    }
  }

  lemma NotLate(h: History, j: nat, i: nat, n: nat, m: Store, event: StorageEvent)
    requires IsRun(h) && ReadDuring(h, j, i, m) && i <= n < |h.stores| && event.sourceGeneration <= h.stores[j].nextGeneration
    ensures !LateSource(m, h.stores[n], event)
  {
    var k: nat :| j <= k <= i && ReadVersion(m, event.objectPath, event.sourceGeneration) == ReadVersion(h.stores[k], event.objectPath, event.sourceGeneration);
    RunVersions(h, k, n);
    RunFollows(h, j, k);
  }

  /** However the reads of an event are spread over a run, with anyone committing in between, and however much later it
      commits: if the event names a generation given out before it was first looked at, an admitted plan is the plan of
      the store that admits it. */
  lemma EventsAreSerializable(h: History, j: nat, i: nat, n: nat, m: Store, event: StorageEvent)
    requires IsRun(h) && ReadDuring(h, j, i, m) && i <= n < |h.stores| && event.sourceGeneration <= h.stores[j].nextGeneration
    requires PlanProcess(h.codec, m, event).Success? && PlanProcess(h.codec, m, event).value.writes != []
    requires h.stores[n].Admits(PlanProcess(h.codec, m, event).value.writes)
    ensures PlanProcess(h.codec, h.stores[n], event) == PlanProcess(h.codec, m, event)
  {
    DuringIsBefore(h, j, i, n, m);
    NotLate(h, j, i, n, m, event);
    EventSerializes(h.codec, m, h.stores[n], event);
  }

  /** The same for a resolution, which reads nothing that can be late. */
  lemma ResolutionsAreSerializable(h: History, j: nat, i: nat, n: nat, m: Store, request: ResolutionRequest)
    requires IsRun(h) && ReadDuring(h, j, i, m) && i <= n < |h.stores|
    requires PlanResolve(h.codec, m, request).Success? && PlanResolve(h.codec, m, request).value.writes != []
    requires h.stores[n].Admits(PlanResolve(h.codec, m, request).value.writes)
    ensures PlanResolve(h.codec, h.stores[n], request) == PlanResolve(h.codec, m, request)
  {
    DuringIsBefore(h, j, i, n, m);
    RunTracked(h, n, request.documentId);
    ResolvePlans(h.codec, m, request);
    ResolutionSerializes(h.codec, m, h.stores[n], request);
  }

  lemma SnapshotNotLate(h: History, k: nat, i: nat, event: StorageEvent)
    requires IsRun(h) && k <= i < |h.stores|
    requires PlanProcess(h.codec, h.stores[k], event).Success? && PlanProcess(h.codec, h.stores[k], event).value.writes != []
    ensures !LateSource(h.stores[k], h.stores[i], event)
  {
    ProcessPlans(h.codec, h.stores[k], event);
    RunFollows(h, k, i);
    RunVersions(h, k, i);
  }

  lemma ProcessIsSerial(h: History, i: nat)
    requires IsRun(h) && i < |h.steps| && h.steps[i].Process? && h.steps[i].seen <= i
    ensures h.stores[i + 1] == h.stores[i] || h.stores[i + 1] == Next(h.codec, h.stores[i], h.stores[i], h.steps[i])
  {
    assert StepTaken(h, i);
    var seen, event := h.steps[i].seen, h.steps[i].event;
    var writes := Planned(h.codec, h.stores[seen], h.steps[i]);
    if writes != [] && h.stores[i].Admits(writes) {
      StoreReadBefore(h, seen, i);
      SnapshotNotLate(h, seen, i, event);
      EventSerializes(h.codec, h.stores[seen], h.stores[i], event);
    }
  }

  lemma ResolveIsSerial(h: History, i: nat)
    requires IsRun(h) && i < |h.steps| && h.steps[i].Resolve? && h.steps[i].seen <= i
    ensures h.stores[i + 1] == h.stores[i] || h.stores[i + 1] == Next(h.codec, h.stores[i], h.stores[i], h.steps[i])
  {
    assert StepTaken(h, i);
    var seen, request := h.steps[i].seen, h.steps[i].request;
    var writes := Planned(h.codec, h.stores[seen], h.steps[i]);
    if writes != [] && h.stores[i].Admits(writes) {
      StoreReadBefore(h, seen, i);
      RunTracked(h, i, request.documentId);
      ResolvePlans(h.codec, h.stores[seen], request);
      ResolutionSerializes(h.codec, h.stores[seen], h.stores[i], request);
    }
  }

  /** Optimistic concurrency is sound: a step planned from any earlier store changes nothing, or does exactly what the
      same step planned from the present store does. */
  lemma StepsAreSerial(h: History, i: nat)
    requires IsRun(h) && i < |h.steps|
    ensures h.stores[i + 1] == h.stores[i] || h.stores[i + 1] == Next(h.codec, h.stores[i], h.stores[i], h.steps[i])
  {
    assert StepTaken(h, i);
    match h.steps[i] {
      case Process(_, _) => ProcessIsSerial(h, i);
      case Resolve(_, _) => ResolveIsSerial(h, i);
      case _ =>
    }
  }
}
