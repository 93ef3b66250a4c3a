/** Whole runs of the broker: devices edit their folders, documents are registered, and any number of
    broker instances process events and resolve conflicts, each planning from a store it read earlier
    and committing later. The theorems hold at every index of every run, for every document. */
module Histories {
  import opened Wrappers
  import opened Model
  import opened Storage
  import opened Manifests
  import opened Merge
  import opened Brokers
  import opened BrokerInvariant
  import opened BrokerSteps
  import opened BrokerViews

  /** `seen` is the index of the store the plan was made from. */
  datatype Step =
    | Edit(path: Path, bytes: Blob, metadata: Metadata)
    | Register(d: DocumentId, original: Blob, fileName: string, pageCount: nat)
    | Process(seen: nat, event: StorageEvent)
    | Resolve(seen: nat, request: ResolutionRequest)

  /** The writes a broker step tries to commit. */
  function Planned(codec: Codec, snap: Store, step: Step): seq<ConditionalWrite> {
    match step
    case Edit(_, _, _) => []
    case Register(d, original, fileName, pageCount) =>
      if IsBlank(fileName) || pageCount == 0 then [] else RegisterWrites(d, original, fileName, pageCount)
    case Process(_, event) =>
      (match PlanProcess(codec, snap, event)
       case Failure(_) => []
       case Success(plan) => plan.writes)
    case Resolve(_, request) =>
      match PlanResolve(codec, snap, request)
      case Failure(_) => []
      case Success(plan) => plan.writes
  }

  function Next(codec: Codec, snap: Store, s: Store, step: Step): Store {
    if step.Edit? then s.Put(step.path, step.bytes, step.metadata) else s.Commit(Planned(codec, snap, step))
  }

  datatype History = History(codec: Codec, stores: seq<Store>, steps: seq<Step>)

  predicate Allowed(step: Step, i: nat) {
    match step
    case Edit(path, _, _) => InDeviceFolder(path)
    case Register(_, _, _, _) => true
    case Process(seen, _) => seen <= i
    case Resolve(seen, _) => seen <= i
  }

  function Seen(step: Step, i: nat): (seen: nat)
    requires Allowed(step, i)
    ensures seen <= i
  {
    match step
    case Process(seen, _) => seen
    case Resolve(seen, _) => seen
    case _ => i
  }

  ghost predicate IsRun(h: History) {
    && |h.stores| == |h.steps| + 1
    && h.stores[0] == Store(map[], map[], 0)
    && forall i :: 0 <= i < |h.steps| ==> StepTaken(h, i)
  }

  /** Step `i` is allowed and leads to the next store. */
  ghost predicate StepTaken(h: History, i: nat)
    requires |h.stores| == |h.steps| + 1 && i < |h.steps|
  {
    && Allowed(h.steps[i], i)
    && h.stores[i + 1] == Next(h.codec, h.stores[Seen(h.steps[i], i)], h.stores[i], h.steps[i])
  }

  predicate Registered(s: Store, d: DocumentId) {
    StatePath(d) in s.objects
  }

  /** Registered documents satisfy the invariant; of the others the broker has written nothing. */
  ghost predicate Tracked(s: Store, d: DocumentId) {
    && s.Valid()
    && if Registered(s, d) then Inv(s, d) else forall p :: BrokerOwned(p, d) ==> p !in s.objects
  }

  ghost predicate OnceKept(s: Store, t: Store) {
    forall p :: WrittenOnce(p) && p in s.objects ==> p in t.objects && t.objects[p] == s.objects[p]
  }

  // ---------------------------------------------------------------- one step

  lemma {:induction false} WriteAllElsewhere(s: Store, writes: seq<ConditionalWrite>, p: Path)
    requires forall i :: 0 <= i < |writes| ==> writes[i].path != p
    ensures p in s.WriteAll(writes).objects <==> p in s.objects
    ensures p in s.objects ==> s.WriteAll(writes).objects[p] == s.objects[p]
    decreases |writes|
  {
    if writes != [] {
      WriteAllElsewhere(s.Write(writes[0]), writes[1..], p);
    }
  }

  lemma CommitKeepsOnce(s: Store, writes: seq<ConditionalWrite>, d: DocumentId)
    requires WritesFor(writes, d)
    ensures OnceKept(s, s.Commit(writes))
  {
    if s.Admits(writes) {
      forall p | WrittenOnce(p) && p in s.objects
        ensures p in s.Commit(writes).objects && s.Commit(writes).objects[p] == s.objects[p]
      {
        forall i | 0 <= i < |writes| ensures writes[i].path != p {
          assert WriteFor(writes[i], d);
        }
        WriteAllElsewhere(s, writes, p);
      }
    }
  }

  function DocumentOf(step: Step): DocumentId
    requires !step.Edit?
  {
    match step
    case Register(d, _, _, _) => d
    case Process(_, event) => event.documentId
    case Resolve(_, request) => request.documentId
  }

  lemma PlannedFor(codec: Codec, snap: Store, step: Step)
    requires !step.Edit?
    ensures WritesFor(Planned(codec, snap, step), DocumentOf(step))
  {
    if Planned(codec, snap, step) != [] {
      match step {
        case Register(_, _, _, _) =>
        case Process(_, event) => ProcessViews(codec, snap, event);
        case Resolve(_, request) => ResolvePaths(codec, snap, request);
      }
    }
  }

  lemma OthersKeepTracked(s: Store, writes: seq<ConditionalWrite>, d: DocumentId, other: DocumentId)
    requires Tracked(s, d) && WritesFor(writes, other) && d != other
    ensures Tracked(s.Commit(writes), d)
    ensures Registered(s.Commit(writes), d) <==> Registered(s, d)
    ensures Registered(s, d) ==> StateOf(s.Commit(writes), d) == StateOf(s, d)
  {
    forall i | 0 <= i < |writes| ensures !BrokerOwned(writes[i].path, d) {
      assert WriteFor(writes[i], other);
    }
    CommitFollows(s, writes);
    OwnedUntouched(s, writes, d);
    assert BrokerOwned(StatePath(d), d);
    if Registered(s, d) && s.Admits(writes) {
      OthersKeepInv(s, writes, d);
    }
  }

  lemma RegisterInstalls(s: Store, d: DocumentId, original: Blob, fileName: string, pageCount: nat)
    requires Tracked(s, d)
    ensures var t := s.Commit(RegisterWrites(d, original, fileName, pageCount));
            if Registered(s, d) then t == s
            else && ReadState(t, d).Success?
                 && StateOf(t, d) == InitialState(d, original, fileName, pageCount)
                 && ReadObject(t, OriginalPath(d)).Some? && ReadObject(t, OriginalPath(d)).value.bytes == original
                 && forall p :: p != OriginalPath(d) && p != StatePath(d) ==> (p in t.objects <==> p in s.objects)
  {
    var writes := RegisterWrites(d, original, fileName, pageCount);
    assert writes[1].path == StatePath(d) && writes[0].path == OriginalPath(d);
    assert Holds(writes[1].precondition, s.Generation(StatePath(d))) <==> !Registered(s, d);
    if !Registered(s, d) {
      assert BrokerOwned(OriginalPath(d), d);
      WriteAllEffect(s, writes);
      var t := s.Commit(writes);
      assert t == s.WriteAll(writes);
      forall p | p != OriginalPath(d) && p != StatePath(d) ensures p in t.objects <==> p in s.objects {
        WriteAllElsewhere(s, writes, p);
      }
    }
  }

  lemma InitialOk(t: Store, d: DocumentId, original: Blob, fileName: string, pageCount: nat)
    requires t.Valid() && ReadState(t, d).Success? && StateOf(t, d) == InitialState(d, original, fileName, pageCount)
    requires ReadObject(t, OriginalPath(d)).Some? && ReadObject(t, OriginalPath(d)).value.bytes == original
    requires forall p :: BrokerOwned(p, d) && !p.OriginalPath? && !p.StatePath? ==> p !in t.objects
    ensures Inv(t, d)
  {
    forall e, side ensures ConflictIncoming(d, e) !in t.objects && ConflictCurrent(d, e, side) !in t.objects
                           && ResolutionMarker(d, e) !in t.objects
    {
      assert BrokerOwned(ConflictIncoming(d, e), d) && BrokerOwned(ConflictCurrent(d, e, side), d)
             && BrokerOwned(ResolutionMarker(d, e), d);
    }
  }

  lemma RegisterKeepsTracked(s: Store, d: DocumentId, original: Blob, fileName: string, pageCount: nat)
    requires Tracked(s, d)
    ensures Tracked(s.Commit(RegisterWrites(d, original, fileName, pageCount)), d)
    ensures Registered(s, d) ==> s.Commit(RegisterWrites(d, original, fileName, pageCount)) == s
  {
    RegisterInstalls(s, d, original, fileName, pageCount);
    CommitFollows(s, RegisterWrites(d, original, fileName, pageCount));
    if !Registered(s, d) {
      InitialOk(s.Commit(RegisterWrites(d, original, fileName, pageCount)), d, original, fileName, pageCount);
    }
  }

  lemma EvolvesReflexive(state: CanonicalDocumentState)
    ensures Evolves(state, state)
  {
  }

  /** What one step keeps, for one document. */
  ghost predicate Carries(s: Store, t: Store, d: DocumentId)
    requires Tracked(s, d)
  {
    && Tracked(t, d) && Follows(s, t) && OnceKept(s, t)
    && (Registered(s, d) ==> Registered(t, d) && Evolves(StateOf(s, d), StateOf(t, d)))
  }

  lemma EditCarries(s: Store, d: DocumentId, p: Path, bytes: Blob, metadata: Metadata)
    requires Tracked(s, d) && InDeviceFolder(p)
    ensures Carries(s, s.Put(p, bytes, metadata), d)
    ensures Registered(s, d) ==> ReadState(s.Put(p, bytes, metadata), d) == ReadState(s, d)
  {
    PutFollows(s, p, bytes, metadata);
    var t := s.Put(p, bytes, metadata);
    if Registered(s, d) {
      EvolvesReflexive(StateOf(s, d));
      var state := StateOf(s, d);
      EvidenceFollows(s, t, state.boox);
      EvidenceFollows(s, t, state.supernote);
      assert StateOk(t, state, d);
    }
  }

  /** Writes that another store was read for leave the store alone when they are not admitted. */
  lemma UnadmittedCarries(s: Store, d: DocumentId)
    requires Tracked(s, d)
    ensures Carries(s, s, d)
  {
    if Registered(s, d) {
      EvolvesReflexive(StateOf(s, d));
    }
  }

  lemma BrokerCarries(codec: Codec, snap: Store, s: Store, step: Step, d: DocumentId)
    requires Tracked(snap, d) && Tracked(s, d) && Follows(snap, s) && !step.Edit?
    ensures Carries(s, s.Commit(Planned(codec, snap, step)), d)
  {
    var writes := Planned(codec, snap, step);
    CommitFollows(s, writes);
    PlannedFor(codec, snap, step);
    CommitKeepsOnce(s, writes, DocumentOf(step));
    UnadmittedCarries(s, d);
    if DocumentOf(step) != d {
      OthersKeepTracked(s, writes, d, DocumentOf(step));
    } else if writes != [] && s.Admits(writes) {
      match step {
        case Register(_, original, fileName, pageCount) =>
          RegisterKeepsTracked(s, d, original, fileName, pageCount);
        case Process(_, event) =>
          ProcessEndsInState(codec, snap, event);
          ProcessStep(codec, snap, s, d, event);
        case Resolve(_, request) =>
          ResolveEndsInState(codec, snap, request);
          ResolveStep(codec, snap, s, d, request);
      }
    }
  }

  // ---------------------------------------------------------------- every run

  lemma FollowsReflexive(s: Store)
    requires s.Valid()
    ensures Follows(s, s)
  {
  }

  lemma StepFollows(h: History, i: nat)
    requires IsRun(h) && i < |h.steps| && h.stores[i].Valid()
    ensures h.stores[i + 1].Valid() && Follows(h.stores[i], h.stores[i + 1])
  {
    assert StepTaken(h, i);
    var step := h.steps[i];
    if step.Edit? {
      PutFollows(h.stores[i], step.path, step.bytes, step.metadata);
    } else {
      CommitFollows(h.stores[i], Planned(h.codec, h.stores[Seen(step, i)], step));
    }
  }

  /** Generations only grow and no version is ever lost, over any stretch of a run. */
  lemma {:induction false} RunFollows(h: History, j: nat, i: nat)
    requires IsRun(h) && j <= i < |h.stores|
    ensures h.stores[j].Valid() && h.stores[i].Valid() && Follows(h.stores[j], h.stores[i])
    decreases i
  {
    if i == 0 {
    } else if j == i {
      RunFollows(h, i - 1, i - 1);
      StepFollows(h, i - 1);
      FollowsReflexive(h.stores[i]);
    } else {
      RunFollows(h, j, i - 1);
      StepFollows(h, i - 1);
      FollowsTransitive(h.stores[j], h.stores[i - 1], h.stores[i]);
    }
  }

  /** The invariant holds for every document at every index of every run. */
  lemma {:induction false} RunTracked(h: History, i: nat, d: DocumentId)
    requires IsRun(h) && i < |h.stores|
    ensures Tracked(h.stores[i], d)
    decreases i, 0
  {
    if i > 0 {
      RunCarries(h, i - 1, d);
    }
  }

  /** Every step of every run keeps what Carries lists. */
  lemma {:induction false} RunCarries(h: History, i: nat, d: DocumentId)
    requires IsRun(h) && i < |h.steps|
    ensures Tracked(h.stores[i], d) && Carries(h.stores[i], h.stores[i + 1], d)
    decreases i, 1
  {
    RunTracked(h, i, d);
    assert StepTaken(h, i);
    var step := h.steps[i];
    if step.Edit? {
      EditCarries(h.stores[i], d, step.path, step.bytes, step.metadata);
    } else {
      var seen := Seen(step, i);
      RunTracked(h, seen, d);
      RunFollows(h, seen, i);
      BrokerCarries(h.codec, h.stores[seen], h.stores[i], step, d);
    }
  }

  // ---------------------------------------------------------------- one document's states

  ghost predicate RegisteredAt(h: History, i: nat, d: DocumentId) {
    i < |h.stores| && ReadState(h.stores[i], d).Success?
  }

  function StateAt(h: History, i: nat, d: DocumentId): CanonicalDocumentState
    requires i < |h.stores| && ReadState(h.stores[i], d).Success?
  {
    StateOf(h.stores[i], d)
  }

  /** What holds of the state alone. */
  ghost predicate StateFine(state: CanonicalDocumentState) {
    && Stamps(state) && state.lastCommonRevisions == state.Revisions() && ConflictIds(state)
  }

  lemma StepEvolves(h: History, i: nat, d: DocumentId)
    requires IsRun(h) && i < |h.steps| && RegisteredAt(h, i, d)
    ensures RegisteredAt(h, i + 1, d)
    ensures StateFine(StateAt(h, i, d)) && StateFine(StateAt(h, i + 1, d)) && Evolves(StateAt(h, i, d), StateAt(h, i + 1, d))
  {
    RunCarries(h, i, d);
  }

  ghost predicate Evolving(states: seq<CanonicalDocumentState>) {
    && (forall m :: 0 <= m < |states| ==> StateFine(states[m]))
    && (forall m, n :: 0 <= m && n == m + 1 && n < |states| ==> Evolves(states[m], states[n]))
  }

  lemma {:induction false} StaysRegistered(h: History, j: nat, i: nat, d: DocumentId)
    requires IsRun(h) && j <= i < |h.stores| && RegisteredAt(h, j, d)
    ensures RegisteredAt(h, i, d)
    decreases i
  {
    if j < i {
      StaysRegistered(h, j, i - 1, d);
      StepEvolves(h, i - 1, d);
    }
  }

  lemma LastEvolves(h: History, j: nat, i: nat, d: DocumentId)
    requires IsRun(h) && j <= i < |h.stores| && RegisteredAt(h, j, d)
    ensures RegisteredAt(h, i, d) && StateFine(StateAt(h, i, d))
    ensures j < i ==> RegisteredAt(h, i - 1, d) && Evolves(StateAt(h, i - 1, d), StateAt(h, i, d))
  {
    StaysRegistered(h, j, i, d);
    if j < i {
      StaysRegistered(h, j, i - 1, d);
      StepEvolves(h, i - 1, d);
    } else {
      RunTracked(h, i, d);
    }
  }

  lemma EvolvingExtends(states: seq<CanonicalDocumentState>, next: CanonicalDocumentState)
    requires Evolving(states) && states != [] && StateFine(next) && Evolves(states[|states| - 1], next)
    ensures Evolving(states + [next])
  {
  }

  /** The states of `d` from index `j` to index `i`. */
  ghost function StatesOf(h: History, j: nat, i: nat, d: DocumentId): (states: seq<CanonicalDocumentState>)
    requires IsRun(h) && j <= i < |h.stores| && RegisteredAt(h, j, d)
    ensures |states| == i - j + 1
    ensures forall m :: j <= m <= i ==> RegisteredAt(h, m, d) && states[m - j] == StateAt(h, m, d)
    ensures Evolving(states)
    decreases i
  {
    LastEvolves(h, j, i, d);
    if j == i then [StateAt(h, i, d)]
    else
      var earlier := StatesOf(h, j, i - 1, d);
      EvolvingExtends(earlier, StateAt(h, i, d));
      earlier + [StateAt(h, i, d)]
  }

  /** Frontiers never fall, strokes are never forgotten, and processed and resolved ids stay so. */
  ghost predicate Grows(before: CanonicalDocumentState, now: CanonicalDocumentState) {
    && before.Revisions().Within(now.Revisions())
    && (forall id :: id in before.strokes ==> id in now.strokes)
    && before.processedEventIds <= now.processedEventIds
    && (forall e :: e in before.resolvedConflicts ==>
                      e in now.resolvedConflicts && now.resolvedConflicts[e] == before.resolvedConflicts[e])
  }

  lemma {:induction false} EvolvingGrows(states: seq<CanonicalDocumentState>, j: nat, i: nat)
    requires Evolving(states) && j <= i < |states|
    ensures Grows(states[j], states[i])
    decreases i
  {
    if j < i {
      EvolvingGrows(states, j, i - 1);
      assert Evolves(states[i - 1], states[i]);
    }
  }

  // ---------------------------------------------------------------- frontier discipline

  /** Over any stretch of any run: frontiers never fall and nothing is forgotten; last-common equals the
      frontier; every stroke's stamp is within it. */
  lemma FrontierDiscipline(h: History, j: nat, i: nat, d: DocumentId)
    requires IsRun(h) && j <= i < |h.stores| && RegisteredAt(h, j, d)
    ensures RegisteredAt(h, i, d)
    ensures Grows(StateAt(h, j, d), StateAt(h, i, d))
    ensures var now := StateAt(h, i, d);
            && now.lastCommonRevisions == now.Revisions()
            && forall id :: id in now.strokes ==> now.strokes[id].sourceRevisions.Within(now.Revisions())
  {
    var states := StatesOf(h, j, i, d);
    EvolvingGrows(states, 0, i - j);
    assert StateFine(states[i - j]);
  }

  /** Step `i` of the run is an event of `d` whose plan was committed. */
  ghost predicate CommitsEvent(h: History, i: nat, d: DocumentId) {
    && i < |h.steps| && h.steps[i].Process? && h.steps[i].event.documentId == d
    && h.steps[i].seen <= i < |h.stores|
    && PlanProcess(h.codec, h.stores[h.steps[i].seen], h.steps[i].event).Success?
    && EventPlan(h, i).writes != [] && h.stores[i].Admits(EventPlan(h, i).writes)
  }

  function EventPlan(h: History, i: nat): Plan
    requires i < |h.steps| && h.steps[i].Process? && h.steps[i].seen < |h.stores|
    requires PlanProcess(h.codec, h.stores[h.steps[i].seen], h.steps[i].event).Success?
  {
    PlanProcess(h.codec, h.stores[h.steps[i].seen], h.steps[i].event).value
  }

  lemma CommittedEvent(h: History, i: nat, d: DocumentId)
    requires IsRun(h) && CommitsEvent(h, i, d)
    ensures RegisteredAt(h, h.steps[i].seen, d) && RegisteredAt(h, i, d) && RegisteredAt(h, i + 1, d)
    ensures StateAt(h, h.steps[i].seen, d) == StateAt(h, i, d)
    ensures h.stores[i + 1] == h.stores[i].Commit(EventPlan(h, i).writes)
    ensures StepOk(h.stores[i], d, h.steps[i].event, EventPlan(h, i))
  {
    var step := h.steps[i];
    var snap := h.stores[step.seen];
    assert StepTaken(h, i);
    ProcessEndsInState(h.codec, snap, step.event);
    StaysRegistered(h, step.seen, i, d);
    StaysRegistered(h, i, i + 1, d);
    RunTracked(h, step.seen, d);
    RunTracked(h, i, d);
    RunFollows(h, step.seen, i);
    ProcessStep(h.codec, snap, h.stores[i], d, step.event);
  }

  /** An event changes strokes or the frontier only by being applied, and it is applied only when it was
      based on exactly the frontier at that moment and carries its device's very next revision. The
      preserved-predecessor exception never lets an event skip ahead. */
  lemma AppliedOnlyInOrder(h: History, i: nat, d: DocumentId)
    requires IsRun(h) && CommitsEvent(h, i, d)
    ensures RegisteredAt(h, i, d) && RegisteredAt(h, i + 1, d)
    ensures var event, plan := h.steps[i].event, EventPlan(h, i);
            var now, next := StateAt(h, i, d), StateAt(h, i + 1, d);
            && next == plan.state
            && (if Applies(plan)
                then && event.basedOn == now.Revisions()
                     && event.sourceRevision == now.Revisions().Get(event.source) + 1
                     && next.Revisions() == now.Revisions().Set(event.source, event.sourceRevision)
                else next.strokes == now.strokes && next.Revisions() == now.Revisions())
  {
    CommittedEvent(h, i, d);
  }

  // ---------------------------------------------------------------- merge soundness

  /** What document `d` holds under `id` at index `i`. */
  ghost function StrokeAt(h: History, i: nat, d: DocumentId, id: StrokeId): Option<CanonicalStroke> {
    if RegisteredAt(h, i, d) then Lookup(StateAt(h, i, d).strokes, id) else None
  }

  ghost predicate DeletedAt(h: History, i: nat, d: DocumentId, id: StrokeId) {
    StrokeAt(h, i, d, id).Some? && StrokeAt(h, i, d, id).value.tombstone.Some?
  }

  /** Step `k` changed (or first brought in) stroke `id` at a frontier `baseline` has not seen. */
  ghost predicate TouchesBeyond(h: History, k: nat, d: DocumentId, id: StrokeId, baseline: RevisionPair) {
    && RegisteredAt(h, k, d) && RegisteredAt(h, k + 1, d)
    && StrokeAt(h, k, d, id) != StrokeAt(h, k + 1, d, id)
    && !StateAt(h, k + 1, d).Revisions().Within(baseline)
  }

  ghost predicate StampedBeyond(h: History, i: nat, d: DocumentId, id: StrokeId, baseline: RevisionPair) {
    StrokeAt(h, i, d, id).Some? && !StrokeAt(h, i, d, id).value.sourceRevisions.Within(baseline)
  }

  /** Once touched at a frontier outside `baseline`, a stroke carries a stamp outside it for ever. */
  lemma {:induction false} StampRemembers(states: seq<CanonicalDocumentState>, i: nat, id: StrokeId, baseline: RevisionPair)
    requires Evolving(states) && 1 <= i < |states|
    requires Lookup(states[0].strokes, id) != Lookup(states[1].strokes, id)
    requires !states[1].Revisions().Within(baseline)
    ensures id in states[i].strokes && !states[i].strokes[id].sourceRevisions.Within(baseline)
  {
    assert Evolves(states[i - 1], states[i]);
    EvolvingGrows(states, 1, i);
    if i > 1 {
      StampRemembers(states, i - 1, id, baseline);
    } else {
      assert id in states[0].strokes ==> id in states[1].strokes;
    }
  }

  /** Step `i` commits a resolution of `conflict` under `strategy`. */
  ghost predicate CommitsResolution(h: History, i: nat, d: DocumentId, conflict: PreservedInput, strategy: ConflictResolutionStrategy) {
    && i < |h.steps| && h.steps[i].Resolve? && h.steps[i].request.documentId == d
    && h.steps[i].request.strategy == strategy
    && h.steps[i].seen <= i && RegisteredAt(h, i, d)
    && FindConflict(StateAt(h, i, d).conflicts, h.steps[i].request.conflictEventId) == Some(conflict)
    && PlanResolve(h.codec, h.stores[h.steps[i].seen], h.steps[i].request).Success?
    && ResolutionPlan(h, i).writes != [] && h.stores[i].Admits(ResolutionPlan(h, i).writes)
  }

  function ResolutionPlan(h: History, i: nat): Plan
    requires i < |h.steps| && h.steps[i].Resolve? && h.steps[i].seen < |h.stores|
    requires PlanResolve(h.codec, h.stores[h.steps[i].seen], h.steps[i].request).Success?
  {
    PlanResolve(h.codec, h.stores[h.steps[i].seen], h.steps[i].request).value
  }

  lemma CommittedResolution(h: History, i: nat, d: DocumentId, conflict: PreservedInput, strategy: ConflictResolutionStrategy)
    requires IsRun(h) && CommitsResolution(h, i, d, conflict, strategy)
    ensures RegisteredAt(h, h.steps[i].seen, d) && RegisteredAt(h, i + 1, d)
    ensures StateAt(h, h.steps[i].seen, d) == StateAt(h, i, d) && StateAt(h, i + 1, d) == ResolutionPlan(h, i).state
    ensures h.stores[i + 1] == h.stores[i].Commit(ResolutionPlan(h, i).writes)
    ensures var now, next := StateAt(h, i, d), StateAt(h, i + 1, d);
            || next.strokes == now.strokes
            || ResolvedStrokes(h.codec, now, conflict, conflict.contentSha256.preimage, h.steps[i].request) == Some(next.strokes)
  {
    var step := h.steps[i];
    var snap := h.stores[step.seen];
    assert StepTaken(h, i);
    ResolveEndsInState(h.codec, snap, step.request);
    StaysRegistered(h, i, i + 1, d);
    RunTracked(h, step.seen, d);
    RunTracked(h, i, d);
    RunFollows(h, step.seen, i);
    ResolveStep(h.codec, snap, h.stores[i], d, step.request);
  }

  /** A merge leaves a stroke alone when its stamp is beyond the baseline or it is deleted. */
  lemma MergedStrokesKeep(
    codec: Codec, now: CanonicalDocumentState, conflict: PreservedInput, request: ResolutionRequest, next: StrokeMap, id: StrokeId)
    requires request.strategy.MergePreservingCurrent?
    requires ResolvedStrokes(codec, now, conflict, conflict.contentSha256.preimage, request) == Some(next)
    requires id in now.strokes && (now.strokes[id].tombstone.Some? || !now.strokes[id].sourceRevisions.Within(conflict.basedOn))
    ensures Lookup(next, id) == Lookup(now.strokes, id)
  {
    var ops := ProposedManifest(codec, now, conflict, conflict.contentSha256.preimage).value.operations;
    MergeKeepsCurrent(now, conflict, ops, ResolutionAuthor(now, conflict, request), id);
  }

  lemma TouchedStamp(h: History, k: nat, i: nat, d: DocumentId, id: StrokeId, baseline: RevisionPair)
    requires IsRun(h) && k < i < |h.stores| && TouchesBeyond(h, k, d, id, baseline)
    ensures StampedBeyond(h, i, d, id, baseline)
  {
    StampRemembers(StatesOf(h, k, i, d), i - k, id, baseline);
  }

  lemma MergeKeepsStamped(h: History, i: nat, d: DocumentId, conflict: PreservedInput, id: StrokeId)
    requires IsRun(h) && CommitsResolution(h, i, d, conflict, MergePreservingCurrent)
    requires DeletedAt(h, i, d, id) || StampedBeyond(h, i, d, id, conflict.basedOn)
    ensures StrokeAt(h, i + 1, d, id) == StrokeAt(h, i, d, id)
  {
    var request := h.steps[i].request;
    assert id in StateAt(h, i, d).strokes && request.strategy.MergePreservingCurrent?;
    CommittedResolution(h, i, d, conflict, MergePreservingCurrent);
    if StateAt(h, i + 1, d).strokes != StateAt(h, i, d).strokes {
      MergedStrokesKeep(h.codec, StateAt(h, i, d), conflict, request, StateAt(h, i + 1, d).strokes, id);
    }
  }

  /** Merge soundness over whole histories: whatever happened before, an automatic merge never changes
      or deletes a stroke that some earlier step touched at a frontier the incoming edit had not seen,
      and never brings a deleted stroke back. */
  lemma MergeSoundOverHistories(h: History, i: nat, d: DocumentId, conflict: PreservedInput, id: StrokeId)
    requires IsRun(h) && CommitsResolution(h, i, d, conflict, MergePreservingCurrent)
    requires (exists k: nat :: k < i && TouchesBeyond(h, k, d, id, conflict.basedOn)) || DeletedAt(h, i, d, id)
    ensures StrokeAt(h, i + 1, d, id) == StrokeAt(h, i, d, id)
  {
    if k: nat :| k < i && TouchesBeyond(h, k, d, id, conflict.basedOn) {
      TouchedStamp(h, k, i, d, id, conflict.basedOn);
    }
    MergeKeepsStamped(h, i, d, conflict, id);
  }

  /** `ops` mention stroke `id`, and every old version they name is the one in `strokes`. */
  ghost predicate SeenBy(strokes: StrokeMap, ops: seq<Operation>, id: StrokeId) {
    && id in OperationIds(ops)
    && (id in strokes ==>
          forall o :: o in ops && o.sourceUuid == id ==>
                        match o
                        case DeleteStroke(_, _, deleted) => deleted == strokes[id].snapshot
                        case UpsertStroke(_, _, before, _) => before.Some? ==> before.value == strokes[id].snapshot)
  }

  lemma MergedStrokesSeen(
    codec: Codec, now: CanonicalDocumentState, conflict: PreservedInput, request: ResolutionRequest, next: StrokeMap, id: StrokeId)
    requires request.strategy.MergePreservingCurrent?
    requires ResolvedStrokes(codec, now, conflict, conflict.contentSha256.preimage, request) == Some(next)
    requires Lookup(next, id) != Lookup(now.strokes, id)
    ensures ProposedManifest(codec, now, conflict, conflict.contentSha256.preimage).Success?
    ensures SeenBy(now.strokes, ProposedManifest(codec, now, conflict, conflict.contentSha256.preimage).value.operations, id)
  {
    var ops := ProposedManifest(codec, now, conflict, conflict.contentSha256.preimage).value.operations;
    MergeChangesOnlySafe(now, conflict, ops, ResolutionAuthor(now, conflict, request), id);
  }

  /** What an automatic merge does change: strokes the incoming edit mentions, seen by the incoming device
      as they are, with every earlier touch inside the incoming baseline. */
  lemma MergedWasSeen(h: History, i: nat, d: DocumentId, conflict: PreservedInput, id: StrokeId)
    requires IsRun(h) && CommitsResolution(h, i, d, conflict, MergePreservingCurrent)
    requires StrokeAt(h, i + 1, d, id) != StrokeAt(h, i, d, id)
    ensures forall k: nat :: k < i ==> !TouchesBeyond(h, k, d, id, conflict.basedOn)
    ensures ProposedManifest(h.codec, StateAt(h, i, d), conflict, conflict.contentSha256.preimage).Success?
    ensures SeenBy(StateAt(h, i, d).strokes,
                   ProposedManifest(h.codec, StateAt(h, i, d), conflict, conflict.contentSha256.preimage).value.operations, id)
  {
    forall k: nat | k < i ensures !TouchesBeyond(h, k, d, id, conflict.basedOn) {
      if TouchesBeyond(h, k, d, id, conflict.basedOn) {
        MergeSoundOverHistories(h, i, d, conflict, id);
      }
    }
    CommittedResolution(h, i, d, conflict, MergePreservingCurrent);
    MergedStrokesSeen(h.codec, StateAt(h, i, d), conflict, h.steps[i].request, StateAt(h, i + 1, d).strokes, id);
  }
}
