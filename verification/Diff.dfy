/** inkbridge-convert/src/lib.rs: turning what was extracted from a returned PDF into operations against a
    baseline, and why applying them to the canonical strokes reaches the extracted state.

    The fingerprint is any function of style and samples. Strokes are read from the PDF elsewhere. */
module Diffs {
  import opened Wrappers
  import opened Model
  import opened Manifests

  type Fingerprint = (NativeStyle, seq<Sample>) -> string

  datatype Extraction = Extraction(
    strokes: seq<StrokeSnapshot>,
    incompletePages: set<nat>,
    failed: set<StrokeId>,
    tombstoned: set<StrokeId>)

  type Baseline = map<StrokeId, StrokeSnapshot>

  const PDF_INK := "pdf-ink"

  // ---------------------------------------------------------------- preserve_pressure_profile

  /** The baseline sample whose pressure output sample `i` takes: `i * lastBefore / lastAfter`, rounded half up. */
  function SourceIndex(i: nat, lastBefore: nat, lastAfter: nat): nat
    requires lastAfter > 0
  {
    (2 * i * lastBefore + lastAfter) / (2 * lastAfter)
  }

  function Min(a: nat, b: nat): nat {
    if a < b then a else b
  }

  function LastAfter(n: nat): nat {
    if n > 2 then n - 1 else 1
  }

  /** `after` with the pressures of `before`, stretched over its length. */
  function Resampled(before: seq<Sample>, after: seq<Sample>): seq<Sample> {
    if before == [] then after
    else seq(|after|, i requires 0 <= i < |after| =>
           after[i].(pressure := before[Min(SourceIndex(i, |before| - 1, LastAfter(|after|)), |before| - 1)].pressure))
  }

  method PreservePressureProfile(before: seq<Sample>, after: array<Sample>)
    modifies after
    ensures after[..] == Resampled(before, old(after[..]))
  {
    if before == [] || after.Length == 0 {
      return;
    }
    var lastBefore := |before| - 1;
    var lastAfter := if after.Length - 1 > 1 then after.Length - 1 else 1;
    for index := 0 to after.Length
      invariant forall i :: 0 <= i < index ==> after[i] == Resampled(before, old(after[..]))[i]
      invariant forall i :: index <= i < after.Length ==> after[i] == old(after[i])
    {
      var sourceIndex := SourceIndex(index, lastBefore, lastAfter);
      after[index] := after[index].(pressure := before[if sourceIndex < lastBefore then sourceIndex else lastBefore].pressure);
    }
  }

  lemma Scaled(k: int, d: int)
    requires d > 0
    ensures k > 0 ==> d * k >= d
    ensures k < 0 ==> d * k <= -d
  {
  }

  /** Dividing `q * d + r` by `d` gives `q` for a remainder `r`. */
  lemma Quotient(q: nat, d: nat, r: nat)
    requires r < d
    ensures (q * d + r) / d == q
  {
    var x := q * d + r;
    assert x == d * (x / d) + x % d;
    assert d * (x / d - q) == r - x % d;
    Scaled(x / d - q, d);
  }

  /** The rounded position of the sample `i` scaled from `m` intervals to `n`, where that is exact. */
  lemma RoundedOnto(i: nat, m: nat)
    requires m > 0
    ensures SourceIndex(i, m, m) == i
    ensures SourceIndex(0, i, m) == 0
    ensures SourceIndex(m, i, m) == i
  {
    assert 2 * i * m == i * (2 * m);
    assert 2 * m * i == i * (2 * m);
    Quotient(i, 2 * m, m);
    Quotient(0, 2 * m, m);
  }

  /** Endpoints keep their pressure, and resampling onto the same length a second time changes nothing. */
  lemma ResampledProfile(before: seq<Sample>, after: seq<Sample>)
    requires before != [] && after != []
    ensures |Resampled(before, after)| == |after|
    ensures Resampled(before, after)[0].pressure == before[0].pressure
    ensures |after| > 1 ==> Resampled(before, after)[|after| - 1].pressure == before[|before| - 1].pressure
    ensures Resampled(Resampled(before, after), after) == Resampled(before, after)
  {
    RoundedOnto(|before| - 1, LastAfter(|after|));
    if |after| > 1 {
      assert LastAfter(|after|) == |after| - 1;
    }
    ResampledOnto(Resampled(before, after), after);
  }

  /** Resampling from a profile of the same length copies it. */
  lemma ResampledOnto(before: seq<Sample>, after: seq<Sample>)
    requires |before| == |after|
    requires forall i :: 0 <= i < |after| ==> before[i] == after[i].(pressure := before[i].pressure)
    ensures Resampled(before, after) == before
  {
    if |after| > 1 {
      forall i | 0 <= i < |after| ensures Resampled(before, after)[i] == before[i] {
        RoundedOnto(i, |after| - 1);
      }
    }
  }

  // ---------------------------------------------------------------- one extracted stroke

  /** An extracted stroke with the native metadata a PDF cannot carry taken back from the baseline. */
  function Restored(before: StrokeSnapshot, after: StrokeSnapshot, fp: Fingerprint): StrokeSnapshot {
    if after.origin != PDF_INK then after
    else
      var style := after.nativeStyle.(layerNum := before.nativeStyle.layerNum, penType := before.nativeStyle.penType);
      var samples := if after.nativeStyle.thickness == before.nativeStyle.thickness
                     then Resampled(before.samples, after.samples) else after.samples;
      after.(nativeStyle := style, samples := samples, geometryFingerprint := fp(style, samples))
  }

  function Upsert(before: Option<StrokeSnapshot>, after: StrokeSnapshot): Operation {
    UpsertStroke(after.sourceUuid, after.pageIndex, before, after)
  }

  function Delete(before: StrokeSnapshot): Operation {
    DeleteStroke(before.sourceUuid, before.pageIndex, before)
  }

  /** The operations one extracted stroke gives rise to. */
  function Emitted(baseline: Baseline, fp: Fingerprint, e: StrokeSnapshot): seq<Operation> {
    if e.sourceUuid !in baseline then [Upsert(None, e)]
    else
      var before := baseline[e.sourceUuid];
      var after := Restored(before, e, fp);
      if after.pageIndex != before.pageIndex then [Delete(before), Upsert(None, after)]
      else if after.geometryFingerprint == before.geometryFingerprint then []
      else [Upsert(Some(before), after)]
  }

  function AllEmitted(baseline: Baseline, fp: Fingerprint, strokes: seq<StrokeSnapshot>): seq<Operation>
    decreases |strokes|
  {
    if strokes == [] then []
    else AllEmitted(baseline, fp, strokes[..|strokes| - 1]) + Emitted(baseline, fp, strokes[|strokes| - 1])
  }

  function SameCount(baseline: Baseline, fp: Fingerprint, strokes: seq<StrokeSnapshot>): nat
    decreases |strokes|
  {
    if strokes == [] then 0
    else SameCount(baseline, fp, strokes[..|strokes| - 1]) + if Emitted(baseline, fp, strokes[|strokes| - 1]) == [] then 1 else 0
  }

  // ---------------------------------------------------------------- deletions

  function ExtractedIds(strokes: seq<StrokeSnapshot>): set<StrokeId> {
    set s | s in strokes :: s.sourceUuid
  }

  function ActiveIds(x: Extraction): set<StrokeId> {
    x.failed + ExtractedIds(x.strokes)
  }

  predicate ShouldInferDeletion(before: StrokeSnapshot, baselinePages: set<nat>, activeIds: set<StrokeId>, incompletePages: set<nat>) {
    && before.pageIndex in baselinePages
    && before.pageIndex !in incompletePages
    && before.sourceUuid !in activeIds
  }

  /** A baseline stroke the diff deletes: neither extracted nor failed, and either marked deleted or missing
      from a page that was extracted completely. */
  predicate Disappeared(x: Extraction, before: StrokeSnapshot) {
    && before.sourceUuid !in ActiveIds(x)
    && (before.sourceUuid in x.tombstoned || before.pageIndex !in x.incompletePages)
  }

  predicate KeyLeq(a: Operation, b: Operation) {
    || a.pageIndex < b.pageIndex
    || (a.pageIndex == b.pageIndex && a.sourceUuid < b.sourceUuid)
    || (a.pageIndex == b.pageIndex && a.sourceUuid == b.sourceUuid && (a.UpsertStroke? || b.DeleteStroke?))
  }

  ghost predicate Sorted(ops: seq<Operation>) {
    forall i, j :: 0 <= i < j < |ops| ==> KeyLeq(ops[i], ops[j])
  }

  function InsertByKey(ops: seq<Operation>, o: Operation): seq<Operation>
    decreases |ops|
  {
    if ops == [] then [o]
    else if KeyLeq(ops[|ops| - 1], o) then ops + [o]
    else InsertByKey(ops[..|ops| - 1], o) + [ops[|ops| - 1]]
  }

  /** The source's stable sort by page, id and kind. */
  function SortByKey(ops: seq<Operation>): seq<Operation>
    decreases |ops|
  {
    if ops == [] then [] else InsertByKey(SortByKey(ops[..|ops| - 1]), ops[|ops| - 1])
  }

  lemma {:induction false} InsertedByKey(ops: seq<Operation>, o: Operation)
    requires Sorted(ops)
    ensures multiset(InsertByKey(ops, o)) == multiset(ops) + multiset{o}
    ensures Sorted(InsertByKey(ops, o))
    decreases |ops|
  {
    if ops != [] {
      var n := |ops| - 1;
      assert ops == ops[..n] + [ops[n]];
      if !KeyLeq(ops[n], o) {
        InsertedByKey(ops[..n], o);
        var earlier := InsertByKey(ops[..n], o);
        forall i | 0 <= i < |earlier| ensures KeyLeq(earlier[i], ops[n]) {
          assert earlier[i] in multiset(earlier);
          assert earlier[i] in multiset(ops[..n]) || earlier[i] == o;
        }
      }
    }
  }

  lemma {:induction false} SortedByKey(ops: seq<Operation>)
    ensures multiset(SortByKey(ops)) == multiset(ops) && Sorted(SortByKey(ops))
    decreases |ops|
  {
    if ops != [] {
      assert ops == ops[..|ops| - 1] + [ops[|ops| - 1]];
      SortedByKey(ops[..|ops| - 1]);
      InsertedByKey(SortByKey(ops[..|ops| - 1]), ops[|ops| - 1]);
    }
  }

  ghost predicate KeyedByUuid(baseline: Baseline) {
    forall id :: id in baseline ==> baseline[id].sourceUuid == id
  }

  /** One delete for every baseline stroke outside `todo` that disappeared. */
  ghost predicate DeletesOf(x: Extraction, baseline: Baseline, todo: set<StrokeId>, deletes: seq<Operation>) {
    && (forall o :: o in deletes <==> exists id :: id in baseline && id !in todo && Disappeared(x, baseline[id]) && o == Delete(baseline[id]))
    && (forall i, j :: 0 <= i < j < |deletes| ==> deletes[i].sourceUuid != deletes[j].sourceUuid)
  }

  /** What `diff_strokes` returns: what every extracted stroke emits and one delete for every stroke that
      disappeared, sorted. */
  ghost predicate IsDiff(x: Extraction, baseline: Baseline, fp: Fingerprint, ops: seq<Operation>) {
    && Sorted(ops)
    && exists deletes: seq<Operation> ::
         && multiset(ops) == multiset(AllEmitted(baseline, fp, x.strokes)) + multiset(deletes)
         && DeletesOf(x, baseline, {}, deletes)
  }

  method RestoreMetadata(before: StrokeSnapshot, extracted: StrokeSnapshot, fp: Fingerprint) returns (after: StrokeSnapshot)
    ensures after == Restored(before, extracted, fp)
  {
    after := extracted;
    if after.origin == PDF_INK {
      var sameVisibleThickness := after.nativeStyle.thickness == before.nativeStyle.thickness;
      var sameVisibleColor := after.nativeStyle.penColor == before.nativeStyle.penColor;
      after := after.(nativeStyle := after.nativeStyle.(layerNum := before.nativeStyle.layerNum));
      after := after.(nativeStyle := after.nativeStyle.(penType := before.nativeStyle.penType));
      if sameVisibleThickness {
        after := after.(nativeStyle := after.nativeStyle.(thickness := before.nativeStyle.thickness));
        var samples := new Sample[|after.samples|](i requires 0 <= i < |after.samples| => after.samples[i]);
        assert samples[..] == after.samples;
        PreservePressureProfile(before.samples, samples);
        after := after.(samples := samples[..]);
      }
      if sameVisibleColor {
        after := after.(nativeStyle := after.nativeStyle.(penColor := before.nativeStyle.penColor));
      }
      after := after.(geometryFingerprint := fp(after.nativeStyle, after.samples));
    }
  }

  method EmitOne(baseline: Baseline, fp: Fingerprint, e: StrokeSnapshot) returns (operations: seq<Operation>)
    ensures operations == Emitted(baseline, fp, e)
  {
    if e.sourceUuid !in baseline {
      return [Upsert(None, e)];
    }
    var before := baseline[e.sourceUuid];
    var after := RestoreMetadata(before, e, fp);
    if after.pageIndex != before.pageIndex {
      return [Delete(before), Upsert(None, after)];
    }
    if after.geometryFingerprint == before.geometryFingerprint {
      return [];
    }
    operations := [Upsert(Some(before), after)];
  }

  method EmitOperations(x: Extraction, baseline: Baseline, fp: Fingerprint)
    returns (operations: seq<Operation>, activeIds: set<StrokeId>, same: nat)
    ensures operations == AllEmitted(baseline, fp, x.strokes) && activeIds == ActiveIds(x)
    ensures same == SameCount(baseline, fp, x.strokes)
  {
    activeIds := x.failed;
    operations, same := [], 0;
    var n := 0;
    while n < |x.strokes|
      invariant 0 <= n <= |x.strokes|
      invariant activeIds == x.failed + ExtractedIds(x.strokes[..n])
      invariant operations == AllEmitted(baseline, fp, x.strokes[..n])
      invariant same == SameCount(baseline, fp, x.strokes[..n])
    {
      assert x.strokes[..n + 1][..n] == x.strokes[..n];
      assert x.strokes[..n + 1] == x.strokes[..n] + [x.strokes[n]];
      activeIds := activeIds + {x.strokes[n].sourceUuid};
      var emitted := EmitOne(baseline, fp, x.strokes[n]);
      if emitted == [] {
        same := same + 1;
      }
      operations := operations + emitted;
      n := n + 1;
    }
    assert x.strokes[..n] == x.strokes;
  }

  /** Deletes what disappeared. The baseline is a hash map, so its strokes are visited in any order. */
  method EmitDeletes(x: Extraction, baseline: Baseline, activeIds: set<StrokeId>) returns (deletes: seq<Operation>)
    requires KeyedByUuid(baseline) && activeIds == ActiveIds(x)
    ensures DeletesOf(x, baseline, {}, deletes)
  {
    var baselinePages := set id | id in baseline :: baseline[id].pageIndex;
    deletes := [];
    var todo := baseline.Keys;
    while todo != {}
      invariant todo <= baseline.Keys && DeletesOf(x, baseline, todo, deletes)
    {
      var id :| id in todo;
      var before := baseline[id];
      if before.sourceUuid !in activeIds
         && (before.sourceUuid in x.tombstoned || ShouldInferDeletion(before, baselinePages, activeIds, x.incompletePages)) {
        assert forall i :: 0 <= i < |deletes| ==> deletes[i] in deletes;
        deletes := deletes + [Delete(before)];
      }
      todo := todo - {id};
    }
  }

  method DiffStrokes(x: Extraction, baseline: Baseline, fp: Fingerprint) returns (operations: seq<Operation>, same: nat)
    requires KeyedByUuid(baseline)
    ensures IsDiff(x, baseline, fp, operations)
    ensures same == SameCount(baseline, fp, x.strokes)
  {
    var activeIds: set<StrokeId>;
    operations, activeIds, same := EmitOperations(x, baseline, fp);
    var deletes := EmitDeletes(x, baseline, activeIds);
    SortedByKey(operations + deletes);
    operations := SortByKey(operations + deletes);
  }

  // ---------------------------------------------------------------- diff, then apply

  ghost predicate UniqueIds(strokes: seq<StrokeSnapshot>) {
    forall i, j :: 0 <= i < j < |strokes| ==> strokes[i].sourceUuid != strokes[j].sourceUuid
  }

  lemma {:induction false} EmittedFrom(baseline: Baseline, fp: Fingerprint, strokes: seq<StrokeSnapshot>)
    ensures forall o :: o in AllEmitted(baseline, fp, strokes) <==> exists e :: e in strokes && o in Emitted(baseline, fp, e)
    decreases |strokes|
  {
    if strokes != [] {
      var n := |strokes| - 1;
      assert strokes == strokes[..n] + [strokes[n]];
      EmittedFrom(baseline, fp, strokes[..n]);
    }
  }

  /** Which operations a diff holds. */
  lemma DiffHolds(x: Extraction, baseline: Baseline, fp: Fingerprint, ops: seq<Operation>)
    requires IsDiff(x, baseline, fp, ops)
    ensures forall o :: o in ops <==> || (exists e :: e in x.strokes && o in Emitted(baseline, fp, e))
                                      || (exists id :: id in baseline && Disappeared(x, baseline[id]) && o == Delete(baseline[id]))
  {
    var deletes: seq<Operation> :|
      multiset(ops) == multiset(AllEmitted(baseline, fp, x.strokes)) + multiset(deletes) && DeletesOf(x, baseline, {}, deletes);
    EmittedFrom(baseline, fp, x.strokes);
    var emitted := AllEmitted(baseline, fp, x.strokes);
    forall o ensures o in ops <==> o in emitted || o in deletes {
      assert o in ops <==> o in multiset(ops);
      assert o in emitted <==> o in multiset(emitted);
      assert o in deletes <==> o in multiset(deletes);
    }
  }

  /** What an extracted stroke is upserted as. */
  function Target(baseline: Baseline, fp: Fingerprint, e: StrokeSnapshot): StrokeSnapshot {
    if e.sourceUuid in baseline then Restored(baseline[e.sourceUuid], e, fp) else e
  }

  /** Extracted stroke `e` differs from the baseline. */
  predicate Changed(baseline: Baseline, fp: Fingerprint, e: StrokeSnapshot) {
    Emitted(baseline, fp, e) != []
  }

  lemma EmittedShape(baseline: Baseline, fp: Fingerprint, e: StrokeSnapshot)
    requires KeyedByUuid(baseline)
    ensures forall o :: o in Emitted(baseline, fp, e) ==>
              && o.sourceUuid == e.sourceUuid && (o.UpsertStroke? ==> o.after == Target(baseline, fp, e))
    ensures Changed(baseline, fp, e) ==> exists o :: o in Emitted(baseline, fp, e) && o.UpsertStroke?
  {
    var emitted := Emitted(baseline, fp, e);
    if emitted != [] {
      assert emitted[|emitted| - 1] in emitted;
    }
  }

  lemma UpsertsOf(x: Extraction, baseline: Baseline, fp: Fingerprint, ops: seq<Operation>, id: StrokeId)
    requires IsDiff(x, baseline, fp, ops) && KeyedByUuid(baseline)
    ensures LastUpsert(ops, id).Some? <==> exists e :: e in x.strokes && e.sourceUuid == id && Changed(baseline, fp, e)
    ensures LastUpsert(ops, id).Some? ==>
              exists e :: e in x.strokes && e.sourceUuid == id && Changed(baseline, fp, e) && LastUpsert(ops, id).value == Target(baseline, fp, e)
  {
    DiffHolds(x, baseline, fp, ops);
    LastUpsertWitness(ops, id);
    if e :| e in x.strokes && e.sourceUuid == id && Changed(baseline, fp, e) {
      EmittedShape(baseline, fp, e);
      var u :| u in Emitted(baseline, fp, e) && u.UpsertStroke?;
      assert u in ops && u.sourceUuid in UpsertedIds(ops);
    }
    if LastUpsert(ops, id).Some? {
      var o :| o in ops && o.UpsertStroke? && o.sourceUuid == id && o.after == LastUpsert(ops, id).value;
      var e :| e in x.strokes && o in Emitted(baseline, fp, e);
      EmittedShape(baseline, fp, e);
    }
  }

  lemma DeletesMeanGone(x: Extraction, baseline: Baseline, fp: Fingerprint, ops: seq<Operation>, id: StrokeId)
    requires IsDiff(x, baseline, fp, ops) && KeyedByUuid(baseline) && LastUpsert(ops, id).None?
    ensures FirstDelete(ops, id).Some? <==> id in baseline && Disappeared(x, baseline[id])
  {
    DiffHolds(x, baseline, fp, ops);
    FirstDeleteWitness(ops, id);
    UpsertsOf(x, baseline, fp, ops, id);
    if id in baseline && Disappeared(x, baseline[id]) {
      assert Delete(baseline[id]) in ops;
    }
    if FirstDelete(ops, id).Some? {
      var o :| o in ops && o.DeleteStroke? && o.sourceUuid == id;
      forall e | e in x.strokes && o in Emitted(baseline, fp, e) ensures e.sourceUuid == id && Changed(baseline, fp, e) {
        EmittedShape(baseline, fp, e);
      }
    }
  }

  /** The strokes the extraction reports as present: extracted, or in the baseline and either failed or
      neither marked deleted nor on a completely extracted page. */
  predicate StaysActive(x: Extraction, baseline: Baseline, id: StrokeId) {
    || id in ExtractedIds(x.strokes)
    || (id in baseline && (id in x.failed || (id !in x.tombstoned && baseline[id].pageIndex in x.incompletePages)))
  }

  /** Diff, then apply: a stroke ends active exactly when it was extracted, or was in the baseline and either
      failed extraction or is unmarked on an incomplete page. */
  lemma DiffThenApplyActive(x: Extraction, strokes: StrokeMap, fp: Fingerprint, ops: seq<Operation>, a: Author, id: StrokeId)
    requires KeyedByUuid(ActiveSnapshots(strokes)) && IsDiff(x, ActiveSnapshots(strokes), fp, ops)
    ensures id in ActiveSnapshots(Applied(strokes, ops, a)) <==> StaysActive(x, ActiveSnapshots(strokes), id)
  {
    var baseline := ActiveSnapshots(strokes);
    AppliedAt(strokes, ops, a, id);
    UpsertsOf(x, baseline, fp, ops, id);
    if LastUpsert(ops, id).None? {
      DeletesMeanGone(x, baseline, fp, ops, id);
      forall e | e in x.strokes && e.sourceUuid == id ensures id in baseline {
        assert !Changed(baseline, fp, e);
      }
    }
  }

  /** Diff, then apply: every extracted stroke is then active with its restored snapshot, or with a baseline
      one of the same page and fingerprint. */
  lemma DiffThenApplyContent(x: Extraction, strokes: StrokeMap, fp: Fingerprint, ops: seq<Operation>, a: Author, e: StrokeSnapshot)
    requires KeyedByUuid(ActiveSnapshots(strokes)) && IsDiff(x, ActiveSnapshots(strokes), fp, ops)
    requires UniqueIds(x.strokes) && e in x.strokes
    ensures e.sourceUuid in ActiveSnapshots(Applied(strokes, ops, a))
    ensures var now, target := ActiveSnapshots(Applied(strokes, ops, a))[e.sourceUuid], Target(ActiveSnapshots(strokes), fp, e);
            if Changed(ActiveSnapshots(strokes), fp, e) then now == target
            else && e.sourceUuid in ActiveSnapshots(strokes) && now == ActiveSnapshots(strokes)[e.sourceUuid]
                 && now.pageIndex == target.pageIndex && now.geometryFingerprint == target.geometryFingerprint
  {
    var baseline := ActiveSnapshots(strokes);
    var id := e.sourceUuid;
    DiffThenApplyActive(x, strokes, fp, ops, a, id);
    AppliedAt(strokes, ops, a, id);
    UpsertsOf(x, baseline, fp, ops, id);
    if LastUpsert(ops, id).None? {
      DeletesMeanGone(x, baseline, fp, ops, id);
    }
  }

  /** What the broker's other strokes keep: whatever was not extracted and stays active keeps its snapshot. */
  lemma DiffThenApplyKeeps(x: Extraction, strokes: StrokeMap, fp: Fingerprint, ops: seq<Operation>, a: Author, id: StrokeId)
    requires KeyedByUuid(ActiveSnapshots(strokes)) && IsDiff(x, ActiveSnapshots(strokes), fp, ops)
    requires id !in ExtractedIds(x.strokes) && StaysActive(x, ActiveSnapshots(strokes), id)
    ensures id in ActiveSnapshots(strokes) && Lookup(Applied(strokes, ops, a), id) == Lookup(strokes, id)
  {
    AppliedAt(strokes, ops, a, id);
    UpsertsOf(x, ActiveSnapshots(strokes), fp, ops, id);
    DeletesMeanGone(x, ActiveSnapshots(strokes), fp, ops, id);
  }

  // ---------------------------------------------------------------- the fixpoint

  /** Extraction computes fingerprints from the style and samples it reports. */
  ghost predicate Consistent(strokes: seq<StrokeSnapshot>, fp: Fingerprint) {
    forall e :: e in strokes ==> e.geometryFingerprint == fp(e.nativeStyle, e.samples)
  }

  /** Restoring from a restored stroke changes nothing more. */
  lemma RestoredTwice(before: StrokeSnapshot, e: StrokeSnapshot, fp: Fingerprint)
    ensures Restored(Restored(before, e, fp), e, fp) == Restored(before, e, fp)
  {
    var once := Restored(before, e, fp);
    if e.origin == PDF_INK {
      ResampledOnto(once.samples, e.samples);
    }
  }

  lemma RestoredFromItself(e: StrokeSnapshot, fp: Fingerprint)
    requires e.geometryFingerprint == fp(e.nativeStyle, e.samples)
    ensures Restored(e, e, fp) == e
  {
    if e.origin == PDF_INK {
      ResampledOnto(e.samples, e.samples);
    }
  }

  lemma NothingMoreEmitted(x: Extraction, strokes: StrokeMap, fp: Fingerprint, ops: seq<Operation>, a: Author, e: StrokeSnapshot)
    requires KeyedByUuid(ActiveSnapshots(strokes)) && IsDiff(x, ActiveSnapshots(strokes), fp, ops)
    requires UniqueIds(x.strokes) && Consistent(x.strokes, fp) && e in x.strokes
    ensures !Changed(ActiveSnapshots(Applied(strokes, ops, a)), fp, e)
  {
    var baseline := ActiveSnapshots(strokes);
    DiffThenApplyContent(x, strokes, fp, ops, a, e);
    if e.sourceUuid in baseline {
      RestoredTwice(baseline[e.sourceUuid], e, fp);
    } else {
      RestoredFromItself(e, fp);
    }
  }

  lemma SomeOperation(ops: seq<Operation>)
    ensures ops != [] ==> exists o :: o in ops
  {
    if ops != [] {
      assert ops[0] in ops;
    }
  }

  /** Diff, then apply, then diff again: nothing is left to do. */
  lemma DiffIsFixpoint(x: Extraction, strokes: StrokeMap, fp: Fingerprint, ops: seq<Operation>, a: Author, again: seq<Operation>)
    requires KeyedByUuid(ActiveSnapshots(strokes)) && IsDiff(x, ActiveSnapshots(strokes), fp, ops)
    requires UniqueIds(x.strokes) && Consistent(x.strokes, fp)
    requires IsDiff(x, ActiveSnapshots(Applied(strokes, ops, a)), fp, again)
    ensures KeyedByUuid(ActiveSnapshots(Applied(strokes, ops, a)))
    ensures again == []
  {
    var baseline, next := ActiveSnapshots(strokes), ActiveSnapshots(Applied(strokes, ops, a));
    forall e | e in x.strokes ensures !Changed(next, fp, e) {
      NothingMoreEmitted(x, strokes, fp, ops, a, e);
    }
    forall id | id in next ensures next[id].sourceUuid == id && !Disappeared(x, next[id]) {
      DiffThenApplyActive(x, strokes, fp, ops, a, id);
      if e :| e in x.strokes && e.sourceUuid == id {
        DiffThenApplyContent(x, strokes, fp, ops, a, e);
      } else {
        DiffThenApplyKeeps(x, strokes, fp, ops, a, id);
      }
    }
    DiffHolds(x, next, fp, again);
    SomeOperation(again);
  }
}
