/** What every reachable store satisfies for one document, and how one commit changes its state. */
module BrokerInvariant {
  import opened Wrappers
  import opened Model
  import opened Storage
  import opened Manifests
  import opened Brokers

  // ---------------------------------------------------------------- the invariant

  /** An accepted device revision stays readable, by generation, with its recorded hash. */
  ghost predicate DeviceEvidence(store: Store, device: DeviceRevision) {
    match device.sourceObjectPath
    case None => device.revision == 0
    case Some(path) =>
      var evidence := ReadVersion(store, path, device.sourceGeneration);
      evidence.Some? && device.contentSha256 == Some(Sha256(evidence.value.bytes))
  }

  ghost predicate ConflictIds(state: CanonicalDocumentState) {
    && (forall i, j :: 0 <= i < j < |state.conflicts| ==> state.conflicts[i].eventId != state.conflicts[j].eventId)
    && (forall c :: c in state.conflicts ==> c.eventId in state.processedEventIds && c.eventId !in state.resolvedConflicts)
    && state.resolvedConflicts.Keys <= state.processedEventIds
  }

  /** A preserved input stays at its path with its recorded hash, also after it is resolved. */
  ghost predicate ConflictEvidence(store: Store, state: CanonicalDocumentState, d: DocumentId) {
    && (forall c :: c in state.conflicts ==>
          && c.preservedPath == ConflictIncoming(d, c.eventId)
          && c.preservedPath in store.objects
          && Sha256(store.objects[c.preservedPath].bytes) == c.contentSha256)
    && (forall e :: e in state.resolvedConflicts ==> ConflictIncoming(d, e) in store.objects)
  }

  ghost predicate OwnedPaths(store: Store, state: CanonicalDocumentState, d: DocumentId) {
    && (forall e :: ConflictIncoming(d, e) in store.objects ==> e in state.processedEventIds)
    && (forall e, side :: ConflictCurrent(d, e, side) in store.objects ==> e in state.processedEventIds)
    && (forall e :: ResolutionMarker(d, e) in store.objects ==> e in state.resolvedConflicts)
  }

  ghost predicate Stamps(state: CanonicalDocumentState) {
    && KeysMatch(state.strokes)
    && (forall id :: id in state.strokes ==> state.strokes[id].sourceRevisions.Within(state.Revisions()))
  }

  ghost predicate OriginalKept(store: Store, state: CanonicalDocumentState) {
    ReadOriginal(store, state).Success?
  }

  ghost predicate StateOk(store: Store, state: CanonicalDocumentState, d: DocumentId) {
    && state.documentId == d
    && state.lastCommonRevisions == state.Revisions()
    && ConflictIds(state)
    && ConflictEvidence(store, state, d)
    && DeviceEvidence(store, state.boox)
    && DeviceEvidence(store, state.supernote)
    && OwnedPaths(store, state, d)
    && Stamps(state)
    && OriginalKept(store, state)
  }

  ghost predicate Inv(store: Store, d: DocumentId) {
    && store.Valid()
    && ReadState(store, d).Success?
    && StateOk(store, ReadState(store, d).value.0, d)
  }

  function StateOf(store: Store, d: DocumentId): CanonicalDocumentState
    requires ReadState(store, d).Success?
  {
    ReadState(store, d).value.0
  }

  // ---------------------------------------------------------------- how a state may change

  /** Frontiers only rise, strokes are never forgotten, every stroke that changes is stamped with the
      new frontier, and what was processed or resolved stays so. */
  ghost predicate Evolves(state: CanonicalDocumentState, next: CanonicalDocumentState) {
    && state.Revisions().Within(next.Revisions())
    && (forall id :: id in state.strokes ==> id in next.strokes)
    && (forall id :: id in next.strokes && Lookup(state.strokes, id) != Lookup(next.strokes, id)
                     ==> next.strokes[id].sourceRevisions == next.Revisions())
    && state.processedEventIds <= next.processedEventIds
    && (forall e :: e in state.resolvedConflicts ==>
                      e in next.resolvedConflicts && next.resolvedConflicts[e] == state.resolvedConflicts[e])
    && (forall c :: c in state.conflicts ==> c in next.conflicts || c.eventId in next.resolvedConflicts)
  }

  lemma AppliedStamps(strokes: StrokeMap, ops: seq<Operation>, a: Author)
    ensures forall id :: id in strokes ==> id in Applied(strokes, ops, a)
    ensures forall id :: id in Applied(strokes, ops, a) && Lookup(strokes, id) != Lookup(Applied(strokes, ops, a), id)
                         ==> Applied(strokes, ops, a)[id].sourceRevisions == a.frontier
  {
    forall id | id in strokes ensures id in Applied(strokes, ops, a) {
      AppliedAt(strokes, ops, a, id);
    }
  }

  lemma ExportStamps(strokes: StrokeMap, pages: seq<ExportPage>, a: Author)
    ensures forall id :: id in strokes ==> id in ExportApplied(strokes, pages, a)
    ensures forall id :: id in ExportApplied(strokes, pages, a) && Lookup(strokes, id) != Lookup(ExportApplied(strokes, pages, a), id)
                         ==> ExportApplied(strokes, pages, a)[id].sourceRevisions == a.frontier
  {
    forall id | id in strokes ensures id in ExportApplied(strokes, pages, a) {
      ExportAppliedAt(strokes, pages, a, id);
    }
  }

  /** New strokes that differ from the old ones only where they carry `frontier`. */
  ghost predicate Restamped(strokes: StrokeMap, next: StrokeMap, frontier: RevisionPair) {
    && KeysMatch(next)
    && (forall id :: id in strokes ==> id in next)
    && (forall id :: id in next && Lookup(strokes, id) != Lookup(next, id) ==> next[id].sourceRevisions == frontier)
  }

  lemma RestampedWithin(strokes: StrokeMap, next: StrokeMap, earlier: RevisionPair, frontier: RevisionPair)
    requires Restamped(strokes, next, frontier) && earlier.Within(frontier)
    requires forall id :: id in strokes ==> strokes[id].sourceRevisions.Within(earlier)
    ensures forall id :: id in next ==> next[id].sourceRevisions.Within(frontier)
  {
    forall id | id in next ensures next[id].sourceRevisions.Within(frontier) {
      if Lookup(strokes, id) == Lookup(next, id) {
        assert id in strokes;
      }
    }
  }

  // ---------------------------------------------------------------- removing a conflict

  lemma {:induction false} WithoutMeaning(conflicts: seq<PreservedInput>, e: EventId)
    ensures forall c :: c in Without(conflicts, e) <==> c in conflicts && c.eventId != e
  {
    if conflicts != [] {
      WithoutMeaning(conflicts[1..], e);
      assert conflicts == [conflicts[0]] + conflicts[1..];
    }
  }

  ghost predicate DistinctIds(conflicts: seq<PreservedInput>) {
    forall i, j :: 0 <= i < j < |conflicts| ==> conflicts[i].eventId != conflicts[j].eventId
  }

  lemma {:induction false} WithoutDistinct(conflicts: seq<PreservedInput>, e: EventId)
    requires DistinctIds(conflicts)
    ensures DistinctIds(Without(conflicts, e))
  {
    if conflicts != [] {
      WithoutDistinct(conflicts[1..], e);
      WithoutMeaning(conflicts[1..], e);
      var rest := Without(conflicts[1..], e);
      forall k | 0 <= k < |rest| ensures rest[k].eventId != conflicts[0].eventId {
        assert rest[k] in rest;
        var m :| 0 <= m < |conflicts[1..]| && conflicts[1..][m] == rest[k];
        assert conflicts[m + 1] == rest[k];
      }
    }
  }

  lemma {:induction false} FindConflictMeaning(conflicts: seq<PreservedInput>, e: EventId)
    ensures FindConflict(conflicts, e).Some? ==> FindConflict(conflicts, e).value in conflicts && FindConflict(conflicts, e).value.eventId == e
    ensures FindConflict(conflicts, e).None? ==> forall c :: c in conflicts ==> c.eventId != e
  {
    if conflicts != [] {
      FindConflictMeaning(conflicts[1..], e);
      assert conflicts == [conflicts[0]] + conflicts[1..];
    }
  }

  // ---------------------------------------------------------------- committing a new state

  /** `writes` end in the state write and otherwise stay off the paths the invariant watches, except
      for new conflict evidence under `event` and a marker for `event`. */
  ghost predicate Shape(writes: seq<ConditionalWrite>, d: DocumentId, next: CanonicalDocumentState, generation: nat, event: EventId) {
    && writes != []
    && writes[|writes| - 1] == StateWrite(d, next, Match(generation))
    && DistinctPaths(writes)
    && forall i :: 0 <= i < |writes| - 1 ==> BrokerOwned(writes[i].path, d) ==>
                     && (|| writes[i].path == ConflictIncoming(d, event)
                         || writes[i].path == ResolutionMarker(d, event)
                         || (writes[i].path.ConflictCurrent? && writes[i].path.event == event))
                     && writes[i].precondition == DoesNotExist
  }

  /** After the commit the new state is installed and everything the invariant watches, outside
      `event`'s own new paths, is where it was. */
  lemma CommitInstalls(s: Store, writes: seq<ConditionalWrite>, d: DocumentId, next: CanonicalDocumentState, generation: nat, event: EventId)
    requires s.Valid() && Shape(writes, d, next, generation, event) && s.Admits(writes)
    ensures s.Commit(writes).Valid() && Follows(s, s.Commit(writes))
    ensures ReadState(s.Commit(writes), d).Success? && StateOf(s.Commit(writes), d) == next
    ensures forall p :: p in s.objects && BrokerOwned(p, d) && !p.StatePath? ==>
                          p in s.Commit(writes).objects && s.Commit(writes).objects[p] == s.objects[p]
    ensures forall p :: p in s.Commit(writes).objects && p !in s.objects && BrokerOwned(p, d) ==>
                          exists i :: 0 <= i < |writes| - 1 && writes[i].path == p
    ensures forall i :: 0 <= i < |writes| ==> writes[i].path in s.Commit(writes).objects
                                              && s.Commit(writes).objects[writes[i].path].bytes == writes[i].bytes
  {
    CommitFollows(s, writes);
    WriteAllEffect(s, writes);
    assert s.Commit(writes).objects[writes[|writes| - 1].path].bytes == StateJson(next);
    OwnedKept(s, writes, d, next, generation, event);
    NewlyOwned(s, writes, d, next, generation, event);
  }

  lemma OwnedKept(s: Store, writes: seq<ConditionalWrite>, d: DocumentId, next: CanonicalDocumentState, generation: nat, event: EventId)
    requires Shape(writes, d, next, generation, event) && s.Admits(writes)
    ensures forall p :: p in s.objects && BrokerOwned(p, d) && !p.StatePath? ==>
                          p in s.Commit(writes).objects && s.Commit(writes).objects[p] == s.objects[p]
  {
    WriteAllEffect(s, writes);
    forall p | p in s.objects && BrokerOwned(p, d) && !p.StatePath?
      ensures p in s.Commit(writes).objects && s.Commit(writes).objects[p] == s.objects[p]
    {
      forall i | 0 <= i < |writes| ensures writes[i].path != p {
        assert Holds(writes[i].precondition, s.Generation(writes[i].path));
      }
    }
  }

  lemma NewlyOwned(s: Store, writes: seq<ConditionalWrite>, d: DocumentId, next: CanonicalDocumentState, generation: nat, event: EventId)
    requires Shape(writes, d, next, generation, event) && s.Admits(writes)
    ensures forall p :: p in s.Commit(writes).objects && p !in s.objects && BrokerOwned(p, d) ==>
                          exists i :: 0 <= i < |writes| - 1 && writes[i].path == p
  {
    WriteAllEffect(s, writes);
    forall p | p in s.Commit(writes).objects && p !in s.objects && BrokerOwned(p, d)
      ensures exists i :: 0 <= i < |writes| - 1 && writes[i].path == p
    {
      var i :| 0 <= i < |writes| && writes[i].path == p;
      assert Holds(writes[i].precondition, s.Generation(writes[i].path));
    }
  }

  lemma EvidenceFollows(s: Store, t: Store, device: DeviceRevision)
    requires DeviceEvidence(s, device) && Follows(s, t)
    ensures DeviceEvidence(t, device)
  {
  }

  /** Writes of other documents and of devices leave the invariant alone. */
  lemma OthersKeepInv(s: Store, writes: seq<ConditionalWrite>, d: DocumentId)
    requires Inv(s, d) && s.Admits(writes)
    requires forall i :: 0 <= i < |writes| ==> !BrokerOwned(writes[i].path, d)
    ensures Inv(s.Commit(writes), d) && StateOf(s.Commit(writes), d) == StateOf(s, d)
    ensures ReadState(s.Commit(writes), d) == ReadState(s, d)
  {
    CommitFollows(s, writes);
    OwnedUntouched(s, writes, d);
    var t := s.Commit(writes);
    var state := StateOf(s, d);
    EvidenceFollows(s, t, state.boox);
    EvidenceFollows(s, t, state.supernote);
    assert BrokerOwned(StatePath(d), d) && BrokerOwned(OriginalPath(d), d);
    forall e ensures (ConflictIncoming(d, e) in t.objects <==> ConflictIncoming(d, e) in s.objects)
                     && (ResolutionMarker(d, e) in t.objects <==> ResolutionMarker(d, e) in s.objects)
    {
      assert BrokerOwned(ConflictIncoming(d, e), d) && BrokerOwned(ResolutionMarker(d, e), d);
    }
    forall e, side ensures ConflictCurrent(d, e, side) in t.objects <==> ConflictCurrent(d, e, side) in s.objects {
      assert BrokerOwned(ConflictCurrent(d, e, side), d);
    }
  }

  lemma {:induction false} OwnedUntouched(s: Store, writes: seq<ConditionalWrite>, d: DocumentId)
    requires forall i :: 0 <= i < |writes| ==> !BrokerOwned(writes[i].path, d)
    ensures forall p :: BrokerOwned(p, d) ==> (p in s.WriteAll(writes).objects <==> p in s.objects)
    ensures forall p :: BrokerOwned(p, d) && p in s.objects ==> s.WriteAll(writes).objects[p] == s.objects[p]
    decreases |writes|
  {
    if writes != [] {
      OwnedUntouched(s.Write(writes[0]), writes[1..], d);
    }
  }

  /** Every new conflict's input is written by the commit, and every newly resolved one was preserved before. */
  ghost predicate PreservesInputs(
    s: Store, state: CanonicalDocumentState, writes: seq<ConditionalWrite>, d: DocumentId, next: CanonicalDocumentState, event: EventId)
  {
    && (forall c :: c in next.conflicts ==> c in state.conflicts ||
                                            exists i :: 0 <= i < |writes| - 1 && c.eventId == event
                                                        && writes[i].path == ConflictIncoming(d, event) == c.preservedPath
                                                        && Sha256(writes[i].bytes) == c.contentSha256)
    && (forall e :: e in next.resolvedConflicts && e !in state.resolvedConflicts ==> ConflictIncoming(d, e) in s.objects)
  }

  /** The commit's own paths under `d` are accounted for by the new state. */
  predicate AccountsFor(writes: seq<ConditionalWrite>, d: DocumentId, next: CanonicalDocumentState, event: EventId) {
    forall i :: 0 <= i < |writes| - 1 && BrokerOwned(writes[i].path, d) ==>
                  if writes[i].path.ResolutionMarker? then event in next.resolvedConflicts else event in next.processedEventIds
  }

  lemma InstalledEvidence(
    s: Store, writes: seq<ConditionalWrite>, d: DocumentId, next: CanonicalDocumentState, generation: nat, event: EventId)
    requires Inv(s, d) && Shape(writes, d, next, generation, event) && s.Admits(writes)
    requires PreservesInputs(s, StateOf(s, d), writes, d, next, event)
    ensures ConflictEvidence(s.Commit(writes), next, d)
  {
    CommitInstalls(s, writes, d, next, generation, event);
    var t := s.Commit(writes);
    forall c | c in next.conflicts
      ensures c.preservedPath == ConflictIncoming(d, c.eventId) && c.preservedPath in t.objects
              && Sha256(t.objects[c.preservedPath].bytes) == c.contentSha256
    {
      assert BrokerOwned(ConflictIncoming(d, c.eventId), d);
    }
    forall e | e in next.resolvedConflicts ensures ConflictIncoming(d, e) in t.objects {
      assert BrokerOwned(ConflictIncoming(d, e), d);
    }
  }

  lemma InstalledPaths(
    s: Store, writes: seq<ConditionalWrite>, d: DocumentId, next: CanonicalDocumentState, generation: nat, event: EventId)
    requires Inv(s, d) && Shape(writes, d, next, generation, event) && s.Admits(writes)
    requires Evolves(StateOf(s, d), next) && AccountsFor(writes, d, next, event)
    ensures OwnedPaths(s.Commit(writes), next, d)
  {
    CommitInstalls(s, writes, d, next, generation, event);
    var t := s.Commit(writes);
    forall e | ConflictIncoming(d, e) in t.objects ensures e in next.processedEventIds {
      assert BrokerOwned(ConflictIncoming(d, e), d);
    }
    forall e, side | ConflictCurrent(d, e, side) in t.objects ensures e in next.processedEventIds {
      assert BrokerOwned(ConflictCurrent(d, e, side), d);
    }
    forall e | ResolutionMarker(d, e) in t.objects ensures e in next.resolvedConflicts {
      assert BrokerOwned(ResolutionMarker(d, e), d);
    }
  }

  /** Everything but the new state's own content follows from the shape of the commit. */
  lemma InstallKeepsInv(
    s: Store, writes: seq<ConditionalWrite>, d: DocumentId, next: CanonicalDocumentState, generation: nat, event: EventId)
    requires Inv(s, d) && Shape(writes, d, next, generation, event) && s.Admits(writes)
    requires Evolves(StateOf(s, d), next)
    requires next.documentId == d && next.lastCommonRevisions == next.Revisions()
    requires next.originalPdfSha256 == StateOf(s, d).originalPdfSha256
    requires ConflictIds(next) && Stamps(next)
    requires DeviceEvidence(s, next.boox) && DeviceEvidence(s, next.supernote)
    requires PreservesInputs(s, StateOf(s, d), writes, d, next, event) && AccountsFor(writes, d, next, event)
    ensures Inv(s.Commit(writes), d) && StateOf(s.Commit(writes), d) == next
  {
    InstalledEvidence(s, writes, d, next, generation, event);
    InstalledPaths(s, writes, d, next, generation, event);
    CommitInstalls(s, writes, d, next, generation, event);
    EvidenceFollows(s, s.Commit(writes), next.boox);
    EvidenceFollows(s, s.Commit(writes), next.supernote);
    assert BrokerOwned(OriginalPath(d), d);
  }
}
