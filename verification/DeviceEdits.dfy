/** The broker never overwrites an edit it has not consumed. Every view hash a reachable state records was
    either written by the broker at that path or read there as the content of an applied event, so the
    destination guard identifies exactly the bytes that may be replaced. */
module DeviceEdits {
  import opened Model
  import opened Storage
  import opened Brokers
  import opened BrokerInvariant
  import opened BrokerSteps
  import opened BrokerViews
  import opened Histories

  /** Step `k` is a broker commit that put bytes of hash `hash` at `p`. */
  ghost predicate BrokerWrote(h: History, k: nat, p: Path, hash: Digest) {
    && k < |h.steps| && k + 1 < |h.stores| && !h.steps[k].Edit?
    && p in h.stores[k + 1].objects && Sha256(h.stores[k + 1].objects[p].bytes) == hash
    && h.stores[k + 1].objects[p].generation > h.stores[k].nextGeneration
  }

  /** Step `k` applied an event whose content, at `p`, has hash `hash`. */
  ghost predicate AppliedInput(h: History, k: nat, p: Path, hash: Digest) {
    && k < |h.steps| && h.steps[k].Process? && CommitsEvent(h, k, h.steps[k].event.documentId)
    && Applies(EventPlan(h, k)) && h.steps[k].event.objectPath == p
    && ReadVersion(h.stores[k], p, h.steps[k].event.sourceGeneration).Some?
    && Sha256(ReadVersion(h.stores[k], p, h.steps[k].event.sourceGeneration).value.bytes) == hash
  }

  /** Before index `i` the broker wrote bytes of hash `hash` at `p` or applied them as an event's content. */
  ghost predicate HasSource(h: History, i: nat, p: Path, hash: Digest) {
    || (exists k: nat :: k < i && BrokerWrote(h, k, p, hash))
    || (exists k: nat :: k < i && AppliedInput(h, k, p, hash))
  }

  /** The bytes at `p`, of hash `hash`, are the input of the conflict that step `i` resolves, and a copy of
      them is preserved as evidence. */
  ghost predicate PreservedAsEvidence(h: History, i: nat, p: Path, hash: Digest) {
    && i < |h.steps| && i + 1 < |h.stores| && h.steps[i].Resolve? && RegisteredAt(h, i, h.steps[i].request.documentId)
    && var conflicts := StateAt(h, i, h.steps[i].request.documentId).conflicts;
       exists c :: && c in conflicts && c.objectPath == p && c.contentSha256 == hash
                   && p in h.stores[i].objects && c.sourceGeneration == h.stores[i].objects[p].generation
                   && ReadObject(h.stores[i + 1], c.preservedPath).Some?
                   && Sha256(ReadObject(h.stores[i + 1], c.preservedPath).value.bytes) == hash
  }

  // ---------------------------------------------------------------- committed writes

  lemma OutputsLand(s: Store, writes: seq<ConditionalWrite>, p: Path, hash: Digest)
    requires DistinctPaths(writes) && s.Admits(writes) && Outputs(writes, p, hash)
    ensures p in s.Commit(writes).objects
    ensures Sha256(s.Commit(writes).objects[p].bytes) == hash
    ensures s.Commit(writes).objects[p].generation > s.nextGeneration
  {
    WriteAllEffect(s, writes);
    var i :| 0 <= i < |writes| && writes[i].path == p && Sha256(writes[i].bytes) == hash;
    assert s.WriteAll(writes).objects[writes[i].path].bytes == writes[i].bytes;
  }

  lemma ChangedMeansWritten(s: Store, writes: seq<ConditionalWrite>, p: Path)
    requires p in s.objects && p in s.Commit(writes).objects && s.Commit(writes).objects[p] != s.objects[p]
    ensures s.Admits(writes)
    ensures exists i :: 0 <= i < |writes| && writes[i].path == p && writes[i].precondition == Match(s.objects[p].generation)
  {
    if forall i :: 0 <= i < |writes| ==> writes[i].path != p {
      WriteAllElsewhere(s, writes, p);
    }
    var i :| 0 <= i < |writes| && writes[i].path == p;
    assert Holds(writes[i].precondition, s.Generation(p));
  }

  /** A replacement that is still admitted replaces what was read. */
  lemma ReplacesWhatWasRead(snap: Store, s: Store, w: ConditionalWrite, hash: Digest)
    requires snap.Valid() && Follows(snap, s) && Replaces(snap, w, hash)
    requires w.path in s.objects && w.precondition == Match(s.objects[w.path].generation)
    ensures s.objects[w.path] == snap.objects[w.path] && Sha256(s.objects[w.path].bytes) == hash
  {
    SameObject(snap, s, w.path);
  }

  // ---------------------------------------------------------------- what can change a document's state

  /** Step `i` commits writes it planned for a resolution. */
  ghost predicate AdmitsResolution(h: History, i: nat) {
    && i < |h.steps| && h.steps[i].Resolve? && h.steps[i].seen <= i < |h.stores|
    && PlanResolve(h.codec, h.stores[h.steps[i].seen], h.steps[i].request).Success?
    && ResolutionPlan(h, i).writes != [] && h.stores[i].Admits(ResolutionPlan(h, i).writes)
  }

  lemma ResolutionUnmoved(h: History, i: nat)
    requires IsRun(h) && AdmitsResolution(h, i)
    ensures var d := h.steps[i].request.documentId;
            && RegisteredAt(h, i, d) && RegisteredAt(h, h.steps[i].seen, d)
            && StateAt(h, i, d) == StateAt(h, h.steps[i].seen, d)
            && FindConflict(StateAt(h, i, d).conflicts, h.steps[i].request.conflictEventId).Some?
  {
    var step := h.steps[i];
    var d := step.request.documentId;
    ResolveEndsInState(h.codec, h.stores[step.seen], step.request);
    StateUnmoved(h, step.seen, i, d, ResolutionPlan(h, i).writes, ResolutionPlan(h, i).state);
  }

  /** Writes planned from an earlier store are still admitted only if the state has not moved since. */
  lemma StateUnmoved(h: History, seen: nat, i: nat, d: DocumentId, writes: seq<ConditionalWrite>, next: CanonicalDocumentState)
    requires IsRun(h) && seen <= i < |h.stores| && h.stores[i].Admits(writes)
    requires ReadState(h.stores[seen], d).Success?
    requires writes != [] && writes[|writes| - 1] == StateWrite(d, next, Match(ReadState(h.stores[seen], d).value.1))
    ensures RegisteredAt(h, i, d) && RegisteredAt(h, seen, d) && StateAt(h, i, d) == StateAt(h, seen, d)
  {
    StaysRegistered(h, seen, i, d);
    RunTracked(h, seen, d);
    RunTracked(h, i, d);
    RunFollows(h, seen, i);
    SameState(h.stores[seen], h.stores[i], d, writes, next);
  }

  lemma CommittedResolve(h: History, i: nat)
    requires IsRun(h) && AdmitsResolution(h, i)
    ensures exists c :: CommitsResolution(h, i, h.steps[i].request.documentId, c, h.steps[i].request.strategy)
  {
    ResolutionUnmoved(h, i);
    var request := h.steps[i].request;
    var c := FindConflict(StateAt(h, i, request.documentId).conflicts, request.conflictEventId).value;
    assert CommitsResolution(h, i, request.documentId, c, request.strategy);
  }

  /** Only registering a document, committing one of its events, or committing one of its resolutions
      changes its canonical state. */
  lemma StateChangesOnlyBy(h: History, i: nat, d: DocumentId)
    requires IsRun(h) && i < |h.steps| && RegisteredAt(h, i + 1, d)
    ensures || (RegisteredAt(h, i, d) && StateAt(h, i + 1, d) == StateAt(h, i, d))
            || (!RegisteredAt(h, i, d) && h.steps[i].Register? && h.steps[i].d == d
                && StateAt(h, i + 1, d) == InitialState(d, h.steps[i].original, h.steps[i].fileName, h.steps[i].pageCount))
            || CommitsEvent(h, i, d)
            || (h.steps[i].Resolve? && h.steps[i].request.documentId == d
                && exists c :: CommitsResolution(h, i, d, c, h.steps[i].request.strategy))
  {
    assert StepTaken(h, i);
    var step := h.steps[i];
    RunTracked(h, i, d);
    if step.Edit? {
      EditCarries(h.stores[i], d, step.path, step.bytes, step.metadata);
    } else {
      var snap := h.stores[Seen(step, i)];
      var writes := Planned(h.codec, snap, step);
      PlannedFor(h.codec, snap, step);
      if DocumentOf(step) != d {
        OthersKeepTracked(h.stores[i], writes, d, DocumentOf(step));
      } else if writes != [] && h.stores[i].Admits(writes) {
        match step {
          case Register(_, original, fileName, pageCount) =>
            RegisterInstalls(h.stores[i], d, original, fileName, pageCount);
          case Process(_, _) =>
          case Resolve(_, _) => CommittedResolve(h, i);
        }
      }
    }
  }

  // ---------------------------------------------------------------- recorded views have sources

  lemma EventSources(h: History, i: nat, d: DocumentId, p: Path)
    requires IsRun(h) && CommitsEvent(h, i, d)
    requires RegisteredAt(h, i, d) && RegisteredAt(h, i + 1, d)
    requires p in StateAt(h, i + 1, d).generatedViews
    ensures var hash := StateAt(h, i + 1, d).generatedViews[p].contentSha256;
            HasView(StateAt(h, i, d), p, hash) || BrokerWrote(h, i, p, hash) || AppliedInput(h, i, p, hash)
  {
    var hash := StateAt(h, i + 1, d).generatedViews[p].contentSha256;
    var snap, plan := h.stores[h.steps[i].seen], EventPlan(h, i);
    CommittedEvent(h, i, d);
    RunFollows(h, h.steps[i].seen, i);
    ProcessViews(h.codec, snap, h.steps[i].event);
    if Outputs(plan.writes, p, hash) {
      OutputsLand(h.stores[i], plan.writes, p, hash);
    }
    if Consumes(snap, h.steps[i].event, plan, p, hash) {
      assert AppliedInput(h, i, p, hash);
    }
  }

  lemma ResolutionSources(h: History, i: nat, d: DocumentId, c: PreservedInput, strategy: ConflictResolutionStrategy, p: Path)
    requires IsRun(h) && CommitsResolution(h, i, d, c, strategy)
    requires RegisteredAt(h, i, d) && RegisteredAt(h, i + 1, d)
    requires p in StateAt(h, i + 1, d).generatedViews
    ensures var hash := StateAt(h, i + 1, d).generatedViews[p].contentSha256;
            HasView(StateAt(h, i, d), p, hash) || BrokerWrote(h, i, p, hash)
  {
    var hash := StateAt(h, i + 1, d).generatedViews[p].contentSha256;
    var snap, plan := h.stores[h.steps[i].seen], ResolutionPlan(h, i);
    CommittedResolution(h, i, d, c, strategy);
    RunTracked(h, h.steps[i].seen, d);
    ResolveViews(h.codec, snap, d, h.steps[i].request);
    if Outputs(plan.writes, p, hash) {
      OutputsLand(h.stores[i], plan.writes, p, hash);
    }
  }

  lemma SourceLater(h: History, i: nat, j: nat, p: Path, hash: Digest)
    requires HasSource(h, i, p, hash) && i <= j
    ensures HasSource(h, j, p, hash)
  {
    if k: nat :| k < i && BrokerWrote(h, k, p, hash) {
      assert k < j;
    } else {
      var k: nat :| k < i && AppliedInput(h, k, p, hash);
      assert k < j;
    }
  }

  /** A view hash recorded after a step was recorded before it, or the step is its source. */
  lemma ViewFromStep(h: History, i: nat, d: DocumentId, p: Path, hash: Digest)
    requires IsRun(h) && i < |h.steps| && RegisteredAt(h, i + 1, d) && HasView(StateAt(h, i + 1, d), p, hash)
    ensures (RegisteredAt(h, i, d) && HasView(StateAt(h, i, d), p, hash)) || HasSource(h, i + 1, p, hash)
  {
    StateChangesOnlyBy(h, i, d);
    if RegisteredAt(h, i, d) && HasView(StateAt(h, i, d), p, hash) {
    } else if CommitsEvent(h, i, d) {
      CommittedEvent(h, i, d);
      EventSources(h, i, d, p);
    } else {
      var c :| CommitsResolution(h, i, d, c, h.steps[i].request.strategy);
      ResolutionSources(h, i, d, c, h.steps[i].request.strategy, p);
    }
  }

  /** In every reachable state every recorded view hash has a source. */
  lemma {:induction false} ViewsHaveSources(h: History, i: nat, d: DocumentId, p: Path)
    requires IsRun(h) && RegisteredAt(h, i, d) && p in StateAt(h, i, d).generatedViews
    ensures HasSource(h, i, p, StateAt(h, i, d).generatedViews[p].contentSha256)
    decreases i
  {
    var hash := StateAt(h, i, d).generatedViews[p].contentSha256;
    assert i > 0 by {
      assert h.stores[0] == Store(map[], map[], 0);
    }
    ViewFromStep(h, i - 1, d, p, hash);
    if RegisteredAt(h, i - 1, d) && HasView(StateAt(h, i - 1, d), p, hash) {
      ViewsHaveSources(h, i - 1, d, p);
      SourceLater(h, i - 1, i, p, hash);
    }
  }

  // ---------------------------------------------------------------- the theorem

  lemma RecordedHasSource(h: History, i: nat, d: DocumentId, p: Path, hash: Digest)
    requires IsRun(h) && RegisteredAt(h, i, d) && HasView(StateAt(h, i, d), p, hash)
    ensures HasSource(h, i, p, hash)
  {
    ViewsHaveSources(h, i, d, p);
  }

  /** What the writes of an event may still replace at a device path was recorded, or is what the event consumes. */
  lemma EventReplacesKnown(snap: Store, s: Store, state: CanonicalDocumentState, event: StorageEvent, plan: Plan, p: Path)
    requires snap.Valid() && Follows(snap, s) && ViewsOk(snap, state, event, plan)
    requires InDeviceFolder(p) && MayReplace(s, plan.writes, p)
    ensures var hash := Sha256(s.objects[p].bytes); HasView(state, p, hash) || Consumes(snap, event, plan, p, hash)
  {
    var m :| 0 <= m < |plan.writes| && plan.writes[m].path == p && plan.writes[m].precondition == Match(s.objects[p].generation);
    var hash :| && Replaces(snap, plan.writes[m], hash) && (HasView(state, p, hash) || Consumes(snap, event, plan, p, hash));
    ReplacesWhatWasRead(snap, s, plan.writes[m], hash);
  }

  lemma ResolutionReplacesKnown(snap: Store, s: Store, state: CanonicalDocumentState, request: ResolutionRequest, plan: Plan, p: Path)
    requires snap.Valid() && Follows(snap, s) && ResolutionViewsOk(snap, state, request, plan)
    requires InDeviceFolder(p) && MayReplace(s, plan.writes, p)
    ensures var hash := Sha256(s.objects[p].bytes); HasView(state, p, hash) || IsConflictInput(snap, state, request, p, hash)
  {
    var m :| 0 <= m < |plan.writes| && plan.writes[m].path == p && plan.writes[m].precondition == Match(s.objects[p].generation);
    var hash :| && Replaces(snap, plan.writes[m], hash) && (HasView(state, p, hash) || IsConflictInput(snap, state, request, p, hash));
    ReplacesWhatWasRead(snap, s, plan.writes[m], hash);
  }

  lemma EventReplaces(h: History, i: nat, p: Path)
    requires IsRun(h) && i < |h.steps| && h.steps[i].Process? && CommitsEvent(h, i, h.steps[i].event.documentId)
    requires InDeviceFolder(p) && MayReplace(h.stores[i], EventPlan(h, i).writes, p)
    ensures var hash := Sha256(h.stores[i].objects[p].bytes);
            HasSource(h, i, p, hash) || AppliedInput(h, i, p, hash)
  {
    var step := h.steps[i];
    var d, snap := step.event.documentId, h.stores[step.seen];
    CommittedEvent(h, i, d);
    ProcessViews(h.codec, snap, step.event);
    RunFollows(h, step.seen, i);
    var hash := Sha256(h.stores[i].objects[p].bytes);
    EventReplacesKnown(snap, h.stores[i], StateOf(snap, d), step.event, EventPlan(h, i), p);
    if HasView(StateOf(snap, d), p, hash) {
      RecordedHasSource(h, i, d, p, hash);
    } else {
      assert AppliedInput(h, i, p, hash);
    }
  }

  lemma ResolutionPreserves(h: History, i: nat, d: DocumentId, c: PreservedInput, strategy: ConflictResolutionStrategy, p: Path, hash: Digest)
    requires IsRun(h) && CommitsResolution(h, i, d, c, strategy)
    requires IsConflictInput(h.stores[i], StateAt(h, i, d), h.steps[i].request, p, hash)
    ensures PreservedAsEvidence(h, i, p, hash)
  {
    RunTracked(h, i, d);
    RunCarries(h, i, d);
    FindConflictMeaning(StateAt(h, i, d).conflicts, h.steps[i].request.conflictEventId);
    assert c in StateAt(h, i, d).conflicts;
  }

  lemma ResolutionReplaces(h: History, i: nat, d: DocumentId, c: PreservedInput, strategy: ConflictResolutionStrategy, p: Path)
    requires IsRun(h) && CommitsResolution(h, i, d, c, strategy)
    requires InDeviceFolder(p) && MayReplace(h.stores[i], ResolutionPlan(h, i).writes, p)
    ensures var hash := Sha256(h.stores[i].objects[p].bytes);
            HasSource(h, i, p, hash) || PreservedAsEvidence(h, i, p, hash)
  {
    var step := h.steps[i];
    var snap := h.stores[step.seen];
    CommittedResolution(h, i, d, c, strategy);
    RunTracked(h, step.seen, d);
    RunFollows(h, step.seen, i);
    ResolveViews(h.codec, snap, d, step.request);
    var hash := Sha256(h.stores[i].objects[p].bytes);
    ResolutionReplacesKnown(snap, h.stores[i], StateOf(snap, d), step.request, ResolutionPlan(h, i), p);
    if HasView(StateOf(snap, d), p, hash) {
      RecordedHasSource(h, i, d, p, hash);
    } else {
      ResolutionPreserves(h, i, d, c, strategy, p, hash);
    }
  }

  lemma ResolveReplaces(h: History, i: nat, p: Path)
    requires IsRun(h) && AdmitsResolution(h, i)
    requires InDeviceFolder(p) && MayReplace(h.stores[i], ResolutionPlan(h, i).writes, p)
    ensures var hash := Sha256(h.stores[i].objects[p].bytes);
            HasSource(h, i, p, hash) || PreservedAsEvidence(h, i, p, hash)
  {
    CommittedResolve(h, i);
    var request := h.steps[i].request;
    var c :| CommitsResolution(h, i, request.documentId, c, request.strategy);
    ResolutionReplaces(h, i, request.documentId, c, request.strategy, p);
  }

  /** `writes` may replace what store `s` holds at `p`. */
  ghost predicate MayReplace(s: Store, writes: seq<ConditionalWrite>, p: Path) {
    && p in s.objects && s.Admits(writes)
    && exists m :: 0 <= m < |writes| && writes[m].path == p && writes[m].precondition == Match(s.objects[p].generation)
  }

  lemma ReplacedMeansPlanned(h: History, i: nat, p: Path)
    requires IsRun(h) && i < |h.steps| && !h.steps[i].Edit?
    requires p in h.stores[i].objects && p in h.stores[i + 1].objects && h.stores[i + 1].objects[p] != h.stores[i].objects[p]
    ensures Allowed(h.steps[i], i)
    ensures MayReplace(h.stores[i], Planned(h.codec, h.stores[Seen(h.steps[i], i)], h.steps[i]), p)
  {
    assert StepTaken(h, i);
    ChangedMeansWritten(h.stores[i], Planned(h.codec, h.stores[Seen(h.steps[i], i)], h.steps[i]), p);
  }

  /** Whatever bytes any broker step replaces at a device path were the broker's own earlier output there, or
      the content of an event it has applied (at the latest in this very step), or the input of the conflict
      it is resolving, which is kept as evidence. */
  lemma NoUnconsumedEditOverwritten(h: History, i: nat, p: Path)
    requires IsRun(h) && i < |h.steps| && !h.steps[i].Edit? && InDeviceFolder(p)
    requires p in h.stores[i].objects && p in h.stores[i + 1].objects
    requires h.stores[i + 1].objects[p] != h.stores[i].objects[p]
    ensures var hash := Sha256(h.stores[i].objects[p].bytes);
            HasSource(h, i, p, hash) || AppliedInput(h, i, p, hash) || PreservedAsEvidence(h, i, p, hash)
  {
    ReplacedMeansPlanned(h, i, p);
    if h.steps[i].Process? {
      EventReplaces(h, i, p);
    } else if h.steps[i].Resolve? {
      ResolveReplaces(h, i, p);
    }
  }
}
