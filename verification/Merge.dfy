/** The three-way merge by stroke of inkbridge-broker/src/conflict.rs: classifying a preserved
    input's operations against the current strokes, and selecting which of them to apply. */
module Merge {
  import opened Wrappers
  import opened Model
  import opened Manifests

  datatype ConflictChangeKind = Add | Update | Delete | Move

  datatype StrokeChange = StrokeChange(strokeId: StrokeId, kind: ConflictChangeKind, pageIndex: nat)

  datatype OperationGroup = OperationGroup(change: StrokeChange, operations: seq<Operation>, safe: bool)

  predicate ChangedAfter(revisions: RevisionPair, baseline: RevisionPair) {
    revisions.boox > baseline.boox || revisions.supernote > baseline.supernote
  }

  function FirstUpsert(ops: seq<Operation>): Option<Operation> {
    if ops == [] then None else if ops[0].UpsertStroke? then Some(ops[0]) else FirstUpsert(ops[1..])
  }

  function FirstDeletion(ops: seq<Operation>): Option<Operation> {
    if ops == [] then None else if ops[0].DeleteStroke? then Some(ops[0]) else FirstDeletion(ops[1..])
  }

  /** None stands for the "unsupported operation set" error. */
  function DescribeChange(id: StrokeId, ops: seq<Operation>): Option<StrokeChange> {
    match (FirstDeletion(ops), FirstUpsert(ops))
    case (Some(d), Some(u)) =>
      if u.UpsertStroke? && d.DeleteStroke? && u.before.None? && d.deleted.pageIndex != u.after.pageIndex
      then Some(StrokeChange(id, Move, u.after.pageIndex))
      else None
    case (None, Some(u)) =>
      if u.DeleteStroke? then None
      else if u.before.None? then Some(StrokeChange(id, Add, u.after.pageIndex))
      else if u.before.value.nativeStyle == u.after.nativeStyle
              && (u.before.value.pageIndex != u.after.pageIndex || u.before.value.samples != u.after.samples)
      then Some(StrokeChange(id, Move, u.after.pageIndex))
      else Some(StrokeChange(id, Update, u.after.pageIndex))
    case (Some(d), None) =>
      if d.UpsertStroke? then None else Some(StrokeChange(id, Delete, d.deleted.pageIndex))
    case (None, None) => None
  }

  predicate OperationsMatchCurrent(ops: seq<Operation>, current: Option<StrokeSnapshot>) {
    if current.None? then
      forall o :: o in ops ==> o.UpsertStroke? && o.before.None?
    else
      forall o :: o in ops ==>
                    match o
                    case DeleteStroke(_, _, deleted) => deleted == current.value
                    case UpsertStroke(_, _, before, _) =>
                      if before.Some? then before.value == current.value
                      else exists d :: d in ops && d.DeleteStroke? && d.deleted == current.value
  }

  predicate InheritedRejectedChange(state: CanonicalDocumentState, conflict: PreservedInput, id: StrokeId) {
    exists e :: e in state.resolvedConflicts &&
                var record := state.resolvedConflicts[e];
                && record.source == conflict.source
                && record.resultingRevisions.Get(conflict.source) <= conflict.basedOn.Get(conflict.source)
                && (id in state.strokes ==>
                      state.strokes[id].sourceRevisions.Get(conflict.source) <= record.resultingRevisions.Get(conflict.source))
                && id in record.preservedCurrentStrokeIds
  }

  predicate UnchangedSinceBaseline(state: CanonicalDocumentState, conflict: PreservedInput, id: StrokeId, kind: ConflictChangeKind) {
    if kind.Add? then id !in state.strokes
    else
      && id in state.strokes
      && state.strokes[id].tombstone.None?
      && !ChangedAfter(state.strokes[id].sourceRevisions, conflict.basedOn)
  }

  predicate IsSafe(state: CanonicalDocumentState, conflict: PreservedInput, id: StrokeId, kind: ConflictChangeKind, ops: seq<Operation>) {
    && UnchangedSinceBaseline(state, conflict, id, kind)
    && !InheritedRejectedChange(state, conflict, id)
    && OperationsMatchCurrent(ops, if id in state.strokes then Some(state.strokes[id].snapshot) else None)
  }

  function ClassifyOne(state: CanonicalDocumentState, conflict: PreservedInput, ops: seq<Operation>, id: StrokeId)
    : (group: Option<OperationGroup>)
    ensures group.Some? ==> group.value.change.strokeId == id && group.value.operations == OperationsOf(ops, id)
  {
    var group := OperationsOf(ops, id);
    match DescribeChange(id, group)
    case None => None
    case Some(change) => Some(OperationGroup(change, group, IsSafe(state, conflict, id, change.kind, group)))
  }

  function ClassifyAll(state: CanonicalDocumentState, conflict: PreservedInput, ops: seq<Operation>, ids: seq<StrokeId>)
    : Option<seq<OperationGroup>>
    decreases |ids|
  {
    if ids == [] then Some([])
    else
      var rest := ClassifyAll(state, conflict, ops, ids[..|ids| - 1]);
      var last := ClassifyOne(state, conflict, ops, ids[|ids| - 1]);
      if rest.None? || last.None? then None else Some(rest.value + [last.value])
  }

  /** classify_operations: one group per stroke, in id order; None when any group cannot be described. */
  function Classify(state: CanonicalDocumentState, conflict: PreservedInput, ops: seq<Operation>): Option<seq<OperationGroup>> {
    ClassifyAll(state, conflict, ops, Ascending(OperationIds(ops)))
  }

  lemma {:induction false} ClassifyAllMeaning(
    state: CanonicalDocumentState, conflict: PreservedInput, ops: seq<Operation>, ids: seq<StrokeId>)
    ensures ClassifyAll(state, conflict, ops, ids).Some? <==> forall i :: 0 <= i < |ids| ==> ClassifyOne(state, conflict, ops, ids[i]).Some?
    ensures ClassifyAll(state, conflict, ops, ids).Some? ==>
              var groups := ClassifyAll(state, conflict, ops, ids).value;
              |groups| == |ids| && forall i :: 0 <= i < |ids| ==> Some(groups[i]) == ClassifyOne(state, conflict, ops, ids[i])
    decreases |ids|
  {
    if ids != [] {
      var n := |ids| - 1;
      ClassifyAllMeaning(state, conflict, ops, ids[..n]);
      forall i | 0 <= i < n ensures ids[..n][i] == ids[i] {}
      if ClassifyAll(state, conflict, ops, ids[..n]).None? {
        var i :| 0 <= i < n && ClassifyOne(state, conflict, ops, ids[..n][i]).None?;
        assert ClassifyOne(state, conflict, ops, ids[i]).None?;
      }
    }
  }

  // ---------------------------------------------------------------- selecting operations

  predicate Chosen(strategy: ConflictResolutionStrategy, group: OperationGroup) {
    match strategy
    case KeepCurrent => false
    case AcceptIncoming => true
    case MergePreservingCurrent => group.safe
  }

  datatype Selection = Selection(operations: seq<Operation>, applied: seq<StrokeId>, preserved: seq<StrokeId>)

  function Selected(groups: seq<OperationGroup>, strategy: ConflictResolutionStrategy): Selection
    decreases |groups|
  {
    if groups == [] then Selection([], [], [])
    else
      var rest := Selected(groups[..|groups| - 1], strategy);
      var group := groups[|groups| - 1];
      if Chosen(strategy, group)
      then Selection(rest.operations + group.operations, rest.applied + [group.change.strokeId], rest.preserved)
      else Selection(rest.operations, rest.applied, rest.preserved + [group.change.strokeId])
  }

  method SelectOperations(groups: seq<OperationGroup>, strategy: ConflictResolutionStrategy)
    returns (operations: seq<Operation>, applied: seq<StrokeId>, preserved: seq<StrokeId>)
    ensures Selection(operations, applied, preserved) == Selected(groups, strategy)
  {
    operations, applied, preserved := [], [], [];
    var i := 0;
    while i < |groups|
      invariant 0 <= i <= |groups|
      invariant Selection(operations, applied, preserved) == Selected(groups[..i], strategy)
    {
      assert groups[..i + 1][..i] == groups[..i];
      var apply := match strategy
        case KeepCurrent => false
        case AcceptIncoming => true
        case MergePreservingCurrent => groups[i].safe;
      if apply {
        operations := operations + groups[i].operations;
        applied := applied + [groups[i].change.strokeId];
      } else {
        preserved := preserved + [groups[i].change.strokeId];
      }
      i := i + 1;
    }
    assert groups[..|groups|] == groups;
  }

  /** The groups partition `ops` by stroke. */
  ghost predicate Partition(groups: seq<OperationGroup>, ops: seq<Operation>) {
    && (forall i :: 0 <= i < |groups| ==> groups[i].operations == OperationsOf(ops, groups[i].change.strokeId))
    && (forall i, j :: 0 <= i < j < |groups| ==> groups[i].change.strokeId != groups[j].change.strokeId)
  }

  ghost predicate ChosenFor(groups: seq<OperationGroup>, strategy: ConflictResolutionStrategy, id: StrokeId) {
    exists i :: 0 <= i < |groups| && groups[i].change.strokeId == id && Chosen(strategy, groups[i])
  }

  lemma {:induction false} OperationsOfOther(ops: seq<Operation>, g: StrokeId, id: StrokeId)
    ensures OperationsOf(OperationsOf(ops, g), id) == if g == id then OperationsOf(ops, id) else []
    decreases |ops|
  {
    if ops != [] {
      var n := |ops| - 1;
      OperationsOfOther(ops[..n], g, id);
      if ops[n].sourceUuid == g {
        var rest := OperationsOf(ops[..n], g);
        assert (rest + [ops[n]])[..|rest|] == rest;
      }
    }
  }

  lemma {:induction false} SelectedOf(groups: seq<OperationGroup>, ops: seq<Operation>, strategy: ConflictResolutionStrategy, id: StrokeId)
    requires Partition(groups, ops)
    ensures OperationsOf(Selected(groups, strategy).operations, id)
            == if ChosenFor(groups, strategy, id) then OperationsOf(ops, id) else []
    ensures id in Selected(groups, strategy).applied <==> ChosenFor(groups, strategy, id)
    ensures id in Selected(groups, strategy).preserved <==>
            exists i :: 0 <= i < |groups| && groups[i].change.strokeId == id && !Chosen(strategy, groups[i])
    decreases |groups|
  {
    if groups != [] {
      var n := |groups| - 1;
      var g := groups[n];
      assert groups == groups[..n] + [g];
      SelectedOf(groups[..n], ops, strategy, id);
      OperationsOfConcat(Selected(groups[..n], strategy).operations, g.operations, id);
      OperationsOfOther(ops, g.change.strokeId, id);
      assert ChosenFor(groups[..n], strategy, id) ==> ChosenFor(groups, strategy, id) by {
        if ChosenFor(groups[..n], strategy, id) {
          var i :| 0 <= i < n && groups[..n][i].change.strokeId == id && Chosen(strategy, groups[..n][i]);
          assert groups[i].change.strokeId == id && Chosen(strategy, groups[i]);
        }
      }
      if g.change.strokeId == id {
        assert !ChosenFor(groups[..n], strategy, id);
      }
      if ChosenFor(groups, strategy, id) && g.change.strokeId != id {
        var i :| 0 <= i < |groups| && groups[i].change.strokeId == id && Chosen(strategy, groups[i]);
        assert groups[..n][i].change.strokeId == id;
      }
      if exists i :: 0 <= i < |groups| && groups[i].change.strokeId == id && !Chosen(strategy, groups[i]) {
        var i :| 0 <= i < |groups| && groups[i].change.strokeId == id && !Chosen(strategy, groups[i]);
        if i < n {
          assert groups[..n][i].change.strokeId == id;
        }
      }
    }
  }

  lemma ClassifiedIds(state: CanonicalDocumentState, conflict: PreservedInput, ops: seq<Operation>)
    requires Classify(state, conflict, ops).Some?
    ensures var groups := Classify(state, conflict, ops).value;
            var ids := Ascending(OperationIds(ops));
            && |groups| == |ids|
            && forall i :: 0 <= i < |ids| ==>
                             && Some(groups[i]) == ClassifyOne(state, conflict, ops, ids[i])
                             && groups[i].change.strokeId == ids[i]
                             && groups[i].operations == OperationsOf(ops, ids[i])
  {
    ClassifyAllMeaning(state, conflict, ops, Ascending(OperationIds(ops)));
  }

  lemma ClassifyPartitions(state: CanonicalDocumentState, conflict: PreservedInput, ops: seq<Operation>)
    requires Classify(state, conflict, ops).Some?
    ensures Partition(Classify(state, conflict, ops).value, ops)
  {
    ClassifiedIds(state, conflict, ops);
  }

  /** A stroke the automatic merge would change: its group is described and safe. */
  predicate MergeApplies(state: CanonicalDocumentState, conflict: PreservedInput, ops: seq<Operation>, id: StrokeId) {
    ClassifyOne(state, conflict, ops, id).Some? && ClassifyOne(state, conflict, ops, id).value.safe
  }

  lemma ChosenMeaning(state: CanonicalDocumentState, conflict: PreservedInput, ops: seq<Operation>, strategy: ConflictResolutionStrategy, id: StrokeId)
    requires Classify(state, conflict, ops).Some?
    ensures ChosenFor(Classify(state, conflict, ops).value, strategy, id) <==>
            && id in OperationIds(ops)
            && !strategy.KeepCurrent?
            && (strategy.MergePreservingCurrent? ==> MergeApplies(state, conflict, ops, id))
  {
    var ids := Ascending(OperationIds(ops));
    ClassifiedIds(state, conflict, ops);
    var groups := Classify(state, conflict, ops).value;
    var one := ClassifyOne(state, conflict, ops, id);
    if id in OperationIds(ops) {
      assert id in ids;
      var i :| 0 <= i < |ids| && ids[i] == id;
      assert Some(groups[i]) == one;
      forall k | 0 <= k < |groups| && groups[k].change.strokeId == id ensures k == i {}
      assert Chosen(strategy, groups[i]) <==> ChosenFor(groups, strategy, id);
    }
  }

  /** What each strategy leaves for each stroke, in terms of the incoming operations alone: keep-current
      nothing, accept-incoming everything, merge exactly the safe groups. */
  lemma StrategyOutcome(
    state: CanonicalDocumentState, conflict: PreservedInput, ops: seq<Operation>,
    strategy: ConflictResolutionStrategy, a: Author, id: StrokeId)
    requires Classify(state, conflict, ops).Some?
    ensures Lookup(Applied(state.strokes, Selected(Classify(state, conflict, ops).value, strategy).operations, a), id)
            == if !strategy.KeepCurrent? && (strategy.AcceptIncoming? || MergeApplies(state, conflict, ops, id))
               then Outcome(state.strokes, ops, a, id)
               else Lookup(state.strokes, id)
  {
    var groups := Classify(state, conflict, ops).value;
    var selected := Selected(groups, strategy).operations;
    ClassifyPartitions(state, conflict, ops);
    SelectedOf(groups, ops, strategy, id);
    ChosenMeaning(state, conflict, ops, strategy, id);
    AppliedAt(state.strokes, selected, a, id);
    OperationsOfDecides(selected, id);
    OperationsOfDecides(ops, id);
    if id !in OperationIds(ops) {
      LastUpsertWitness(ops, id);
      FirstDeleteWitness(ops, id);
    }
  }

  /** One merge step is sound: a stroke stamped beyond the incoming baseline, a tombstoned stroke and a
      stroke whose change an earlier resolution rejected all stay exactly as they are. */
  lemma MergeKeepsCurrent(state: CanonicalDocumentState, conflict: PreservedInput, ops: seq<Operation>, a: Author, id: StrokeId)
    requires Classify(state, conflict, ops).Some?
    requires || (id in state.strokes && (state.strokes[id].tombstone.Some?
                                         || !state.strokes[id].sourceRevisions.Within(conflict.basedOn)))
             || InheritedRejectedChange(state, conflict, id)
    ensures Lookup(Applied(state.strokes,
                           Selected(Classify(state, conflict, ops).value, MergePreservingCurrent).operations, a), id)
            == Lookup(state.strokes, id)
  {
    StrategyOutcome(state, conflict, ops, MergePreservingCurrent, a, id);
  }

  /** Anything the merge does change was either unknown, or live, unchanged since the baseline and seen
      by the incoming device exactly as it is now. */
  lemma MergeChangesOnlySafe(state: CanonicalDocumentState, conflict: PreservedInput, ops: seq<Operation>, a: Author, id: StrokeId)
    requires Classify(state, conflict, ops).Some?
    requires Lookup(Applied(state.strokes,
                            Selected(Classify(state, conflict, ops).value, MergePreservingCurrent).operations, a), id)
             != Lookup(state.strokes, id)
    ensures id in OperationIds(ops)
    ensures id in state.strokes ==>
              && state.strokes[id].tombstone.None?
              && state.strokes[id].sourceRevisions.Within(conflict.basedOn)
              && forall o :: o in ops && o.sourceUuid == id ==>
                               match o
                               case DeleteStroke(_, _, deleted) => deleted == state.strokes[id].snapshot
                               case UpsertStroke(_, _, before, _) => before.Some? ==> before.value == state.strokes[id].snapshot
  {
    StrategyOutcome(state, conflict, ops, MergePreservingCurrent, a, id);
    OperationsOfDecides(ops, id);
    LastUpsertWitness(ops, id);
    FirstDeleteWitness(ops, id);
  }

  // ---------------------------------------------------------------- the export route, end to end

  lemma {:induction false} FirstOnesExist(ops: seq<Operation>)
    ensures FirstUpsert(ops).Some? <==> exists o :: o in ops && o.UpsertStroke?
    ensures FirstDeletion(ops).Some? <==> exists o :: o in ops && o.DeleteStroke?
    ensures FirstUpsert(ops).Some? ==> FirstUpsert(ops).value.UpsertStroke?
    ensures FirstDeletion(ops).Some? ==> FirstDeletion(ops).value.DeleteStroke?
  {
    if ops != [] {
      FirstOnesExist(ops[1..]);
      assert ops == [ops[0]] + ops[1..];
    }
  }

  lemma FirstAndLast(ops: seq<Operation>, id: StrokeId)
    requires forall o :: o in ops ==> o.sourceUuid == id
    ensures FirstUpsert(ops).Some? <==> LastUpsert(ops, id).Some?
    ensures FirstDeletion(ops).Some? <==> FirstDelete(ops, id).Some?
  {
    FirstOnesExist(ops);
    LastUpsertWitness(ops, id);
    FirstDeleteWitness(ops, id);
    if FirstUpsert(ops).Some? {
      var u :| u in ops && u.UpsertStroke?;
      assert u.sourceUuid in UpsertedIds(ops);
    }
  }

  lemma ExportGroupDescribed(strokes: StrokeMap, pages: seq<ExportPage>, id: StrokeId)
    requires id in OperationIds(ExportOperations(strokes, pages))
    ensures DescribeChange(id, OperationsOf(ExportOperations(strokes, pages), id)).Some?
  {
    var ops := ExportOperations(strokes, pages);
    var group := OperationsOf(ops, id);
    ExportOperationsMeaning(strokes, pages, id);
    OperationsOfDecides(ops, id);
    FirstAndLast(group, id);
    FirstOnesExist(group);
    var o :| o in ops && o.sourceUuid == id;
    assert o in group;
  }

  /** Accepting all of a preserved Supernote export never fails to classify, and leaves the same
      active snapshots and tombstoned ids as applying the export directly would. */
  lemma AcceptingExportAgrees(state: CanonicalDocumentState, conflict: PreservedInput, pages: seq<ExportPage>, direct: Author, a: Author)
    requires KeysMatch(state.strokes)
    ensures Classify(state, conflict, ExportOperations(state.strokes, pages)).Some?
    ensures var groups := Classify(state, conflict, ExportOperations(state.strokes, pages)).value;
            var accepted := Applied(state.strokes, Selected(groups, AcceptIncoming).operations, a);
            && ActiveSnapshots(accepted) == ActiveSnapshots(ExportApplied(state.strokes, pages, direct))
            && TombstonedIds(accepted) == TombstonedIds(ExportApplied(state.strokes, pages, direct))
  {
    var ops := ExportOperations(state.strokes, pages);
    var ids := Ascending(OperationIds(ops));
    ClassifyAllMeaning(state, conflict, ops, ids);
    forall i | 0 <= i < |ids| ensures ClassifyOne(state, conflict, ops, ids[i]).Some? {
      ExportGroupDescribed(state.strokes, pages, ids[i]);
    }
    var groups := Classify(state, conflict, ops).value;
    var accepted := Applied(state.strokes, Selected(groups, AcceptIncoming).operations, a);
    forall id ensures Lookup(accepted, id) == Lookup(Applied(state.strokes, ops, a), id) {
      StrategyOutcome(state, conflict, ops, AcceptIncoming, a, id);
      AppliedAt(state.strokes, ops, a, id);
    }
    SameLookups(accepted, Applied(state.strokes, ops, a));
    TwoRoutesAgree(state.strokes, pages, direct, a);
  }
}
