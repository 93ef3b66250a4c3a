/** Resolutions that plan successfully and are refused by the very store they were planned from: a device file, or an
    earlier use of the same resolution ID, is in the place of their manifest for Supernote. */
module ResolutionRefusals {
  import opened Wrappers
  import opened Model
  import opened Storage
  import opened Manifests
  import opened Merge
  import opened Brokers
  import opened BrokerInvariant
  import opened BrokerSteps
  import opened BrokerViews
  import opened Histories
  import opened FreshPlans

  // ---------------------------------------------------------------- planning does not look there

  /** The stores differ at most in the object at `p`. */
  ghost predicate SameBut(s: Store, t: Store, p: Path) {
    forall q :: q != p ==> ReadObject(t, q) == ReadObject(s, q)
  }

  lemma PublishUnseen(
    codec: Codec, s: Store, t: Store, state: CanonicalDocumentState, generation: nat, conflict: PreservedInput, input: StoredObject,
    settled: CanonicalDocumentState, selection: Selection, request: ResolutionRequest)
    requires SameBut(s, t, ManifestPath(request))
    ensures PlanPublish(codec, t, state, generation, conflict, input, settled, selection, request)
            == PlanPublish(codec, s, state, generation, conflict, input, settled, selection, request)
  {
    assert ReadOriginal(t, settled) == ReadOriginal(s, settled);
    assert ReadObject(t, BooxViewPath(settled)) == ReadObject(s, BooxViewPath(settled));
  }

  lemma MergeUnseen(
    codec: Codec, s: Store, t: Store, state: CanonicalDocumentState, generation: nat, conflict: PreservedInput, input: StoredObject,
    request: ResolutionRequest)
    requires SameBut(s, t, ManifestPath(request))
    ensures PlanMerge(codec, t, state, generation, conflict, input, request) == PlanMerge(codec, s, state, generation, conflict, input, request)
  {
    var proposed := ProposedManifest(codec, state, conflict, input.bytes);
    if proposed.Success? && Classify(state, conflict, proposed.value.operations).Some? {
      var selection := Selected(Classify(state, conflict, proposed.value.operations).value, request.strategy);
      var strokes := ChosenStrokes(state, conflict, selection, request);
      PublishUnseen(codec, s, t, state, generation, conflict, input,
                    Settled(state, conflict, input.generation, proposed.value.sourceFileName, strokes, request), selection, request);
    }
  }

  lemma ActiveUnseen(codec: Codec, s: Store, t: Store, state: CanonicalDocumentState, generation: nat, request: ResolutionRequest)
    requires SameBut(s, t, ManifestPath(request))
    requires forall c :: c in state.conflicts ==> c.preservedPath.ConflictIncoming?
    ensures PlanResolveActive(codec, t, state, generation, request) == PlanResolveActive(codec, s, state, generation, request)
  {
    FindConflictMeaning(state.conflicts, request.conflictEventId);
    var found := FindConflict(state.conflicts, request.conflictEventId);
    if found.Some? && ReadObject(s, found.value.preservedPath).Some? {
      assert ReadObject(t, found.value.preservedPath) == ReadObject(s, found.value.preservedPath);
      MergeUnseen(codec, s, t, state, generation, found.value, ReadObject(s, found.value.preservedPath).value, request);
    }
  }

  /** What is at the manifest path makes no difference to planning the resolution. */
  lemma PlanUnseen(codec: Codec, s: Store, t: Store, d: DocumentId, request: ResolutionRequest)
    requires Inv(s, d) && request.documentId == d && SameBut(s, t, ManifestPath(request))
    ensures PlanResolve(codec, t, request) == PlanResolve(codec, s, request)
  {
    var (state, generation) := ReadState(s, d).value;
    assert ReadState(t, d) == ReadState(s, d);
    forall c | c in state.conflicts ensures c.preservedPath.ConflictIncoming? {
      assert c.preservedPath == ConflictIncoming(d, c.eventId);
    }
    ActiveUnseen(codec, s, t, state, generation, request);
  }

  // ---------------------------------------------------------------- one edit makes the difference

  /** One device edit of the manifest path, which devices may make, leaves the plan of any resolution that has
      something to tell Supernote as it was, and makes it refused. */
  lemma EditRefuses(codec: Codec, s: Store, d: DocumentId, request: ResolutionRequest, bytes: Blob, metadata: Metadata)
    requires Inv(s, d) && request.documentId == d && PlanResolve(codec, s, request).Success? && TellsSupernote(codec, s, StateOf(s, d), request)
    ensures var t := s.Put(ManifestPath(request), bytes, metadata);
            && InDeviceFolder(ManifestPath(request))
            && PlanResolve(codec, t, request) == PlanResolve(codec, s, request)
            && !t.Admits(PlanResolve(codec, t, request).value.writes)
  {
    var t := s.Put(ManifestPath(request), bytes, metadata);
    PlanUnseen(codec, s, t, d, request);
    ResolutionWrites(codec, s, d, request);
    ManifestIsNew(codec, s, request);
    PathTakenRefuses(t, request, PlanResolve(codec, t, request).value.writes);
  }

  /** A manifest is only ever written to a free path. */
  lemma ManifestIsNew(codec: Codec, snap: Store, request: ResolutionRequest)
    requires PlanResolve(codec, snap, request).Success?
    ensures forall w :: w in PlanResolve(codec, snap, request).value.writes && w.path == ManifestPath(request) ==> w.precondition == DoesNotExist
  {
    if PlanResolve(codec, snap, request).value.writes != [] {
      ResolveEndsInState(codec, snap, request);
      var (state, generation) := ReadState(snap, request.documentId).value;
      var conflict := FindConflict(state.conflicts, request.conflictEventId).value;
      var input := ReadObject(snap, conflict.preservedPath).value;
      if conflict.sourceRevision >= state.Device(conflict.source).revision {
        var proposed := ProposedManifest(codec, state, conflict, input.bytes).value;
        var selection := Selected(Classify(state, conflict, proposed.operations).value, request.strategy);
        var strokes := ChosenStrokes(state, conflict, selection, request);
        PublishWrites(codec, snap, state, generation, conflict, input,
                      Settled(state, conflict, input.generation, proposed.sourceFileName, strokes, request), selection, request);
      }
    }
  }

  lemma PathTakenRefuses(s: Store, request: ResolutionRequest, writes: seq<ConditionalWrite>)
    requires ManifestPath(request) in s.objects && WritesManifest(writes, request)
    requires forall w :: w in writes && w.path == ManifestPath(request) ==> w.precondition == DoesNotExist
    ensures !s.Admits(writes)
  {
    var w :| w in writes && w.path == ManifestPath(request);
    var i :| 0 <= i < |writes| && writes[i] == w;
    assert !Holds(writes[i].precondition, s.Generation(writes[i].path));
  }

  // ---------------------------------------------------------------- over runs

  lemma OneMore(h: History, step: Step) returns (next: History)
    requires IsRun(h) && Allowed(step, |h.steps|)
    ensures IsRun(next) && next.codec == h.codec && next.steps == h.steps + [step]
    ensures next.stores == h.stores + [Next(h.codec, h.stores[Seen(step, |h.steps|)], h.stores[|h.steps|], step)]
  {
    next := History(h.codec, h.stores + [Next(h.codec, h.stores[Seen(step, |h.steps|)], h.stores[|h.steps|], step)], h.steps + [step]);
    forall i | 0 <= i < |next.steps| ensures StepTaken(next, i) {
      if i < |h.steps| {
        assert StepTaken(h, i);
        assert Seen(h.steps[i], i) <= i;
      }
    }
  }

  /** The run ends in a store from which the resolution can be planned and has something to tell Supernote. */
  ghost predicate ComesTo(h: History, request: ResolutionRequest) {
    && RegisteredAt(h, |h.steps|, request.documentId)
    && PlanResolve(h.codec, h.stores[|h.steps|], request).Success?
    && TellsSupernote(h.codec, h.stores[|h.steps|], StateAt(h, |h.steps|, request.documentId), request)
  }

  /** In the last store of `edited`, one step after `h`, the resolution is planned as in the last one of `h`, and
      refused. */
  ghost predicate NoLongerAdmitted(h: History, edited: History, request: ResolutionRequest) {
    var n := |h.steps|;
    && |h.stores| == n + 1 && |edited.stores| == n + 2 && edited.codec == h.codec
    && PlanResolve(h.codec, h.stores[n], request).Success?
    && PlanResolve(h.codec, edited.stores[n + 1], request) == PlanResolve(h.codec, h.stores[n], request)
    && !edited.stores[n + 1].Admits(PlanResolve(h.codec, h.stores[n], request).value.writes)
  }

  lemma EditInARun(h: History, request: ResolutionRequest, bytes: Blob, metadata: Metadata) returns (edited: History)
    requires IsRun(h) && ComesTo(h, request)
    ensures IsRun(edited) && edited.steps == h.steps + [Edit(ManifestPath(request), bytes, metadata)] && h.stores <= edited.stores
    ensures NoLongerAdmitted(h, edited, request)
  {
    RunTracked(h, |h.steps|, request.documentId);
    EditRefuses(h.codec, h.stores[|h.steps|], request.documentId, request, bytes, metadata);
    edited := OneMore(h, Edit(ManifestPath(request), bytes, metadata));
  }

  /** Every run that comes to a resolution with something to tell Supernote can go on so: a device writes the manifest
      path, the resolution is planned from the store as it then is, exactly as before, and its commit is refused and
      changes nothing. */
  lemma RefusedInARun(h: History, request: ResolutionRequest, bytes: Blob, metadata: Metadata) returns (next: History)
    requires IsRun(h) && ComesTo(h, request)
    ensures IsRun(next) && next.codec == h.codec && h.stores <= next.stores
    ensures next.steps == h.steps + [Edit(ManifestPath(request), bytes, metadata), Resolve(|h.steps| + 1, request)]
    ensures Refused(h, next, request)
  {
    var edited := EditInARun(h, request, bytes, metadata);
    next := OneMore(edited, Resolve(|h.steps| + 1, request));
    RefusedAttempt(h, edited, next, request);
  }

  /** `next` goes on from `h` by an edit and a fresh attempt at the resolution, which is planned as before, refused,
      and leaves the store as it was. */
  ghost predicate Refused(h: History, next: History, request: ResolutionRequest) {
    var n := |h.steps|;
    && n < |h.stores| && n + 2 < |next.stores|
    && PlanResolve(next.codec, next.stores[n + 1], request) == PlanResolve(h.codec, h.stores[n], request)
    && PlanResolve(h.codec, h.stores[n], request).Success?
    && !next.stores[n + 1].Admits(PlanResolve(h.codec, h.stores[n], request).value.writes)
    && next.stores[n + 2] == next.stores[n + 1]
  }

  lemma RefusedAttempt(h: History, edited: History, next: History, request: ResolutionRequest)
    requires NoLongerAdmitted(h, edited, request) && next.codec == h.codec
    requires var n := |h.steps|; next.stores == edited.stores + [Next(h.codec, edited.stores[n + 1], edited.stores[n + 1], Resolve(n + 1, request))]
    ensures Refused(h, next, request)
  {
  }

  /** Once the manifest path of a resolution ID is taken, no resolution with that ID and something to tell Supernote
      is ever admitted, whenever it was planned. */
  lemma TakenForEver(h: History, j: nat, i: nat)
    requires IsRun(h) && j <= i < |h.steps| && h.steps[i].Resolve?
    requires ManifestPath(h.steps[i].request) in h.stores[j].objects
    requires h.steps[i].seen <= i && WritesManifest(Planned(h.codec, h.stores[h.steps[i].seen], h.steps[i]), h.steps[i].request)
    ensures h.stores[i + 1] == h.stores[i]
  {
    RunFollows(h, j, i);
    assert StepTaken(h, i);
    var writes := Planned(h.codec, h.stores[h.steps[i].seen], h.steps[i]);
    if PlanResolve(h.codec, h.stores[h.steps[i].seen], h.steps[i].request).Success? {
      ManifestIsNew(h.codec, h.stores[h.steps[i].seen], h.steps[i].request);
    }
    PathTakenRefuses(h.stores[i], h.steps[i].request, writes);
  }

  /** No device is needed: of all resolutions of a document under one ID, at most one that has something to tell
      Supernote is ever committed, whichever conflicts they are about. */
  lemma OneManifestPerId(h: History, k: nat, i: nat)
    requires IsRun(h) && k < i < |h.steps| && h.steps[k].Resolve? && h.steps[i].Resolve?
    requires ManifestPath(h.steps[k].request) == ManifestPath(h.steps[i].request)
    requires h.steps[k].seen <= k && WritesManifest(Planned(h.codec, h.stores[h.steps[k].seen], h.steps[k]), h.steps[k].request)
    requires h.steps[i].seen <= i && WritesManifest(Planned(h.codec, h.stores[h.steps[i].seen], h.steps[i]), h.steps[i].request)
    ensures h.stores[k + 1] == h.stores[k] || h.stores[i + 1] == h.stores[i]
  {
    var request, writes := h.steps[k].request, Planned(h.codec, h.stores[h.steps[k].seen], h.steps[k]);
    assert StepTaken(h, k);
    if h.stores[k].Admits(writes) {
      RunTracked(h, h.steps[k].seen, request.documentId);
      ResolutionLands(h.codec, h.stores[h.steps[k].seen], h.stores[k], request, writes);
      TakenForEver(h, k + 1, i);
    }
  }

  lemma ResolutionLands(codec: Codec, snap: Store, s: Store, request: ResolutionRequest, writes: seq<ConditionalWrite>)
    requires PlanResolve(codec, snap, request).Success? && writes == PlanResolve(codec, snap, request).value.writes
    requires Tracked(snap, request.documentId) && s.Admits(writes) && WritesManifest(writes, request)
    ensures ManifestPath(request) in s.Commit(writes).objects
  {
    ResolveEndsInState(codec, snap, request);
    ResolveViews(codec, snap, request.documentId, request);
    WriteAllEffect(s, writes);
    var w :| w in writes && w.path == ManifestPath(request);
  }

  // ---------------------------------------------------------------- a run that comes to such a resolution

  const INK := StrokeSnapshot(0, "boox", 0, NativeStyle(0, 1, 0, 0), [], "ink")

  const ADD_INK := Manifest("ink", [UpsertStroke(0, 0, None, INK)])

  /** Conversions under which the BOOX input adds one stroke, and Supernote is told so. */
  const ADDS_ONE_STROKE := Codec(
    (original: Digest) => "document",
    (state: CanonicalDocumentState, event: StorageEvent, input: Blob) => Success(ADD_INK),
    (input: Blob) => Failure("not an export"),
    (original: Blob, strokes: map<StrokeId, StrokeSnapshot>, deleted: set<StrokeId>) => Success(Raw([2])),
    (state: CanonicalDocumentState, conflict: PreservedInput, input: Blob) => Success(ADD_INK),
    (state: CanonicalDocumentState, settled: CanonicalDocumentState, conflict: PreservedInput, input: Blob, pdf: Blob) => Success(ADD_INK))

  /** A first BOOX revision based on a Supernote revision the broker has not seen. */
  function Ahead(d: DocumentId, generation: nat): StorageEvent {
    StorageEvent(1, "edit", d, Boox, DeviceFile(Boox, "ink.pdf"), generation, 1, RevisionPair(0, 1), None, DeviceView, None)
  }

  function AcceptIt(d: DocumentId): ResolutionRequest {
    ResolutionRequest(1, "accept", d, "edit", 1, NO_REVISIONS, AcceptIncoming)
  }

  function Started(d: DocumentId): CanonicalDocumentState {
    InitialState(d, Raw([0]), "notes.pdf", 1)
  }

  lemma FirstStore(d: DocumentId)
    ensures var t := Store(map[], map[], 0).Commit(RegisterWrites(d, Raw([0]), "notes.pdf", 1));
            && ReadState(t, d).Success? && StateOf(t, d) == Started(d) && t.nextGeneration == 2
            && t.objects.Keys == {OriginalPath(d), StatePath(d)}
  {
    var s, writes := Store(map[], map[], 0), RegisterWrites(d, Raw([0]), "notes.pdf", 1);
    RegisterInstalls(s, d, Raw([0]), "notes.pdf", 1);
    WriteAllEffect(s, writes);
    assert writes[0].path == OriginalPath(d) && writes[1].path == StatePath(d);
    assert forall i :: 0 <= i < |writes| ==> Holds(writes[i].precondition, s.Generation(writes[i].path));
  }

  lemma RegisteredRun(d: DocumentId) returns (h: History)
    ensures IsRun(h) && h.codec == ADDS_ONE_STROKE && |h.steps| == 1 && |h.stores| == 2
    ensures RegisteredAt(h, 1, d) && StateAt(h, 1, d) == Started(d)
    ensures h.stores[1].nextGeneration == 2 && h.stores[1].objects.Keys == {OriginalPath(d), StatePath(d)}
  {
    FirstStore(d);
    assert !IsWhitespace("notes.pdf"[0]);
    h := OneMore(History(ADDS_ONE_STROKE, [Store(map[], map[], 0)], []), Register(d, Raw([0]), "notes.pdf", 1));
  }

  /** The store of a document just begun, with one file of BOOX's beside it, the third object written. */
  ghost predicate OneFile(s: Store, d: DocumentId) {
    && s.objects.Keys == {OriginalPath(d), StatePath(d), DeviceFile(Boox, "ink.pdf")}
    && ReadVersion(s, DeviceFile(Boox, "ink.pdf"), 3) == Some(StoredObject(Raw([1]), 3, NO_METADATA))
  }

  lemma EditedRun(d: DocumentId) returns (h: History)
    ensures IsRun(h) && h.codec == ADDS_ONE_STROKE && |h.steps| == 2 && |h.stores| == 3
    ensures RegisteredAt(h, 2, d) && StateAt(h, 2, d) == Started(d) && OneFile(h.stores[2], d)
  {
    var registered := RegisteredRun(d);
    h := OneMore(registered, Edit(DeviceFile(Boox, "ink.pdf"), Raw([1]), NO_METADATA));
    assert h.stores[2] == registered.stores[1].Put(DeviceFile(Boox, "ink.pdf"), Raw([1]), NO_METADATA);
    assert ReadObject(h.stores[2], StatePath(d)) == ReadObject(registered.stores[1], StatePath(d));
  }

  // The event is preserved as a conflict.

  lemma AheadPlan(s: Store, d: DocumentId)
    requires !IsBlank(d) && ReadState(s, d).Success? && StateOf(s, d) == Started(d) && OneFile(s, d)
    ensures PlanProcess(ADDS_ONE_STROKE, s, Ahead(d, 3))
            == PlanPreserve(s, Started(d), ReadState(s, d).value.1, Stamped(Ahead(d, 3), Raw([1])), Raw([1]))
    ensures PlanProcess(ADDS_ONE_STROKE, s, Ahead(d, 3)).Success?
  {
    assert !IsWhitespace("edit"[0]);
  }

  function Conflicted(d: DocumentId): CanonicalDocumentState {
    Preserved(Started(d), Stamped(Ahead(d, 3), Raw([1])), Sha256(Raw([1])), [])
  }

  lemma AheadState(s: Store, d: DocumentId, generation: nat)
    ensures var r := PlanPreserve(s, Started(d), generation, Stamped(Ahead(d, 3), Raw([1])), Raw([1]));
            r.Success? && r.value.state == Conflicted(d) && |r.value.writes| == 2
  {
    assert PathsOf([] + []) == [];
  }

  /** What committing the event to `s` comes to. */
  ghost predicate KeepsConflict(s: Store, d: DocumentId) {
    var r := PlanProcess(ADDS_ONE_STROKE, s, Ahead(d, 3));
    && r.Success? && r.value.state == Conflicted(d) && r.value.writes != [] && s.Admits(r.value.writes)
    && forall i :: 0 <= i < |r.value.writes| ==> !r.value.writes[i].path.BooxView?
  }

  lemma AheadCommits(s: Store, d: DocumentId)
    requires !IsBlank(d) && Inv(s, d) && StateOf(s, d) == Started(d) && OneFile(s, d)
    ensures KeepsConflict(s, d)
  {
    AheadPlan(s, d);
    AheadState(s, d, ReadState(s, d).value.1);
    FreshEventPlanCommits(ADDS_ONE_STROKE, s, d, Ahead(d, 3));
    PreserveShape(s, Started(d), ReadState(s, d).value.1, Stamped(Ahead(d, 3), Raw([1])), Raw([1]));
  }

  lemma AfterConflict(h: History, d: DocumentId)
    requires IsRun(h) && h.codec == ADDS_ONE_STROKE && |h.steps| == 3 && |h.stores| == 4 && h.steps[2] == Process(2, Ahead(d, 3))
    requires KeepsConflict(h.stores[2], d) && BooxView(d, "notes.pdf") !in h.stores[2].objects
    ensures RegisteredAt(h, 3, d) && StateAt(h, 3, d) == Conflicted(d) && BooxView(d, "notes.pdf") !in h.stores[3].objects
  {
    CommittedEvent(h, 2, d);
    ViewNotWritten(h.stores[2], EventPlan(h, 2).writes, d);
  }

  lemma EditedCommits(h: History, d: DocumentId)
    requires !IsBlank(d) && IsRun(h) && RegisteredAt(h, 2, d) && StateAt(h, 2, d) == Started(d) && OneFile(h.stores[2], d)
    ensures KeepsConflict(h.stores[2], d) && BooxView(d, "notes.pdf") !in h.stores[2].objects
  {
    RunTracked(h, 2, d);
    AheadCommits(h.stores[2], d);
  }

  /** The event is processed, and kept as a conflict. */
  lemma ConflictRun(d: DocumentId) returns (h: History)
    requires !IsBlank(d)
    ensures IsRun(h) && h.codec == ADDS_ONE_STROKE && |h.steps| == 3 && |h.stores| == 4
    ensures RegisteredAt(h, 3, d) && StateAt(h, 3, d) == Conflicted(d) && BooxView(d, "notes.pdf") !in h.stores[3].objects
  {
    var edited := EditedRun(d);
    EditedCommits(edited, d);
    h := OneMore(edited, Process(2, Ahead(d, 3)));
    AfterConflict(h, d);
  }

  lemma ViewNotWritten(s: Store, writes: seq<ConditionalWrite>, d: DocumentId)
    requires BooxView(d, "notes.pdf") !in s.objects && forall i :: 0 <= i < |writes| ==> !writes[i].path.BooxView?
    ensures BooxView(d, "notes.pdf") !in s.Commit(writes).objects
  {
    WriteAllElsewhere(s, writes, BooxView(d, "notes.pdf"));
  }

  // It is resolved by accepting it.

  function InkConflict(d: DocumentId): PreservedInput {
    Conflicted(d).conflicts[0]
  }

  lemma OneGroup(state: CanonicalDocumentState, conflict: PreservedInput)
    ensures Classify(state, conflict, ADD_INK.operations).Some?
  {
    var ops := ADD_INK.operations;
    assert OperationIds(ops) == {0};
    assert Ascending({0}) == [0];
    assert ops[..0] == [] && ops[1..] == [];
    assert OperationsOf(ops, 0) == ops && FirstDeletion(ops) == None && FirstUpsert(ops) == Some(ops[0]);
    assert ClassifyOne(state, conflict, ops, 0).Some?;
    assert [0][..0] == [];
  }

  lemma AcceptSettles(s: Store, d: DocumentId, input: StoredObject)
    requires Inv(s, d) && StateOf(s, d) == Conflicted(d) && BooxView(d, "notes.pdf") !in s.objects
    ensures PlanMerge(ADDS_ONE_STROKE, s, Conflicted(d), ReadState(s, d).value.1, InkConflict(d), input, AcceptIt(d)).Success?
    ensures var groups := Classify(Conflicted(d), InkConflict(d), ADD_INK.operations);
            && groups.Some?
            && var strokes := ChosenStrokes(Conflicted(d), InkConflict(d), Selected(groups.value, AcceptIncoming), AcceptIt(d));
            SettledManifest(ADDS_ONE_STROKE, s, Conflicted(d), InkConflict(d), input.bytes,
                            Settled(Conflicted(d), InkConflict(d), input.generation, "ink", strokes, AcceptIt(d))) == Some(ADD_INK)
  {
    OneGroup(Conflicted(d), InkConflict(d));
    var groups := Classify(Conflicted(d), InkConflict(d), ADD_INK.operations).value;
    var strokes := ChosenStrokes(Conflicted(d), InkConflict(d), Selected(groups, AcceptIncoming), AcceptIt(d));
    var settled := Settled(Conflicted(d), InkConflict(d), input.generation, "ink", strokes, AcceptIt(d));
    SettledFields(Conflicted(d), InkConflict(d), input.generation, "ink", strokes, AcceptIt(d));
    assert ReadOriginal(s, settled) == ReadOriginal(s, Conflicted(d));
    assert ReadObject(s, BooxViewPath(settled)) == None;
  }

  lemma AcceptLooks(d: DocumentId)
    requires !IsBlank(d)
    ensures PlansResolution(Conflicted(d), AcceptIt(d))
    ensures FindConflict(Conflicted(d).conflicts, "edit") == Some(InkConflict(d)) && InResolutionOrder(Conflicted(d), InkConflict(d))
  {
    assert !IsWhitespace("accept"[0]) && !IsWhitespace("edit"[0]);
  }

  lemma AcceptActive(s: Store, d: DocumentId, generation: nat)
    requires !IsBlank(d) && ReadObject(s, InkConflict(d).preservedPath).Some?
    requires Sha256(ReadObject(s, InkConflict(d).preservedPath).value.bytes) == InkConflict(d).contentSha256
    ensures PlanResolveActive(ADDS_ONE_STROKE, s, Conflicted(d), generation, AcceptIt(d))
            == PlanMerge(ADDS_ONE_STROKE, s, Conflicted(d), generation, InkConflict(d), ReadObject(s, InkConflict(d).preservedPath).value, AcceptIt(d))
  {
    AcceptLooks(d);
  }

  lemma AcceptPlans(s: Store, d: DocumentId)
    requires !IsBlank(d) && Inv(s, d) && StateOf(s, d) == Conflicted(d) && BooxView(d, "notes.pdf") !in s.objects
    ensures PlanResolve(ADDS_ONE_STROKE, s, AcceptIt(d)).Success?
  {
    var generation := ReadState(s, d).value.1;
    InkPreserved(s, d);
    AcceptLooks(d);
    AcceptSettles(s, d, ReadObject(s, InkConflict(d).preservedPath).value);
    AcceptActive(s, d, generation);
    ResolveFrom(ADDS_ONE_STROKE, s, Conflicted(d), generation, AcceptIt(d));
  }

  lemma InkPreserved(s: Store, d: DocumentId)
    requires Inv(s, d) && StateOf(s, d) == Conflicted(d)
    ensures ReadObject(s, InkConflict(d).preservedPath).Some?
    ensures Sha256(ReadObject(s, InkConflict(d).preservedPath).value.bytes) == InkConflict(d).contentSha256
  {
    assert InkConflict(d) in Conflicted(d).conflicts;
  }

  lemma AcceptTells(s: Store, d: DocumentId)
    requires Inv(s, d) && StateOf(s, d) == Conflicted(d) && BooxView(d, "notes.pdf") !in s.objects
    ensures TellsSupernote(ADDS_ONE_STROKE, s, Conflicted(d), AcceptIt(d))
  {
    InkPreserved(s, d);
    AcceptSettles(s, d, ReadObject(s, InkConflict(d).preservedPath).value);
  }

  /** So it happens: registered, edited, processed into a conflict, the manifest path written by a device, and the
      resolution, which plans successfully from that very store, is refused. */
  lemma RefusalReached(d: DocumentId) returns (before: History, after: History)
    requires !IsBlank(d)
    ensures IsRun(before) && IsRun(after) && before.codec == after.codec == ADDS_ONE_STROKE
    ensures |before.steps| == 3 && ComesTo(before, AcceptIt(d))
    ensures after.steps == before.steps + [Edit(ManifestPath(AcceptIt(d)), Raw([3]), NO_METADATA), Resolve(4, AcceptIt(d))]
    ensures Refused(before, after, AcceptIt(d))
  {
    before := ConflictRun(d);
    RunTracked(before, 3, d);
    AcceptPlans(before.stores[3], d);
    AcceptTells(before.stores[3], d);
    after := RefusedInARun(before, AcceptIt(d), Raw([3]), NO_METADATA);
  }
}
