/** Applying operations and exports to the canonical stroke map
    (apply_manifest and apply_supernote_export in inkbridge-broker/src/broker.rs,
    supernote_export_manifest in inkbridge-broker/src/conflict.rs).

    Each in-place update is a method with the source's loops, specified by a function that says,
    stroke by stroke, what the result is without mentioning order or passes. */
module Manifests {
  import opened Wrappers
  import opened Model

  /** Who makes a change, and the frontier the change is stamped with. */
  datatype Author = Author(source: DeviceSide, revision: u64, frontier: RevisionPair, eventId: EventId)

  function Live(id: StrokeId, snapshot: StrokeSnapshot, a: Author): CanonicalStroke {
    CanonicalStroke(id, snapshot, a.source, a.frontier, None)
  }

  function Buried(stroke: CanonicalStroke, a: Author): CanonicalStroke {
    stroke.(lastModifiedBy := a.source,
    sourceRevisions := a.frontier,
    tombstone := Some(Tombstone(a.source, a.revision, a.eventId)))
  }

  function Lookup<T>(m: map<StrokeId, T>, id: StrokeId): Option<T> {
    if id in m then Some(m[id]) else None
  }

  ghost predicate KeysMatch(strokes: StrokeMap) {
    forall id :: id in strokes ==> strokes[id].strokeId == id
  }

  function ActiveSnapshots(strokes: StrokeMap): map<StrokeId, StrokeSnapshot> {
    map id | id in strokes && strokes[id].tombstone.None? :: strokes[id].snapshot
  }

  function TombstonedIds(strokes: StrokeMap): set<StrokeId> {
    set id | id in strokes && strokes[id].tombstone.Some?
  }

  // ---------------------------------------------------------------- what a list of operations says

  /** The snapshot the last upsert of `id` carries. */
  function LastUpsert(ops: seq<Operation>, id: StrokeId): Option<StrokeSnapshot>
    decreases |ops|
  {
    if ops == [] then None
    else
      var last := ops[|ops| - 1];
      if last.UpsertStroke? && last.sourceUuid == id then Some(last.after)
      else LastUpsert(ops[..|ops| - 1], id)
  }

  /** The snapshot the first delete of `id` carries. */
  function FirstDelete(ops: seq<Operation>, id: StrokeId): Option<StrokeSnapshot>
    decreases |ops|
  {
    if ops == [] then None
    else
      var earlier := FirstDelete(ops[..|ops| - 1], id);
      var last := ops[|ops| - 1];
      if earlier.Some? then earlier
      else if last.DeleteStroke? && last.sourceUuid == id then Some(last.deleted)
      else None
  }

  function OperationIds(ops: seq<Operation>): set<StrokeId> {
    set o | o in ops :: o.sourceUuid
  }

  function UpsertedIds(ops: seq<Operation>): set<StrokeId> {
    set o | o in ops && o.UpsertStroke? :: o.sourceUuid
  }

  lemma {:induction false} LastUpsertWitness(ops: seq<Operation>, id: StrokeId)
    ensures LastUpsert(ops, id).Some? <==> id in UpsertedIds(ops)
    ensures LastUpsert(ops, id).Some? ==> exists o :: o in ops && o.UpsertStroke? && o.sourceUuid == id
                                                      && o.after == LastUpsert(ops, id).value
    decreases |ops|
  {
    if ops != [] {
      var n := |ops| - 1;
      assert ops == ops[..n] + [ops[n]];
      LastUpsertWitness(ops[..n], id);
    }
  }

  lemma {:induction false} FirstDeleteWitness(ops: seq<Operation>, id: StrokeId)
    ensures FirstDelete(ops, id).Some? <==> exists o :: o in ops && o.DeleteStroke? && o.sourceUuid == id
    ensures FirstDelete(ops, id).Some? ==> exists o :: o in ops && o.DeleteStroke? && o.sourceUuid == id
                                                       && o.deleted == FirstDelete(ops, id).value
    decreases |ops|
  {
    if ops != [] {
      var n := |ops| - 1;
      assert ops == ops[..n] + [ops[n]];
      FirstDeleteWitness(ops[..n], id);
    }
  }

  // ---------------------------------------------------------------- apply_manifest

  /** What applying `ops` leaves for one stroke: the last upsert wins over every delete, wherever the
      delete stands; a delete of a stroke nothing upserts buries it; anything else is kept. */
  function Outcome(strokes: StrokeMap, ops: seq<Operation>, a: Author, id: StrokeId): Option<CanonicalStroke> {
    match LastUpsert(ops, id)
    case Some(after) => Some(Live(id, after, a))
    case None =>
      match FirstDelete(ops, id)
      case Some(deleted) => Some(Buried(if id in strokes then strokes[id] else Live(id, deleted, a), a))
      case None => Lookup(strokes, id)
  }

  function Applied(strokes: StrokeMap, ops: seq<Operation>, a: Author): StrokeMap {
    map id | id in strokes.Keys + OperationIds(ops) && Outcome(strokes, ops, a, id).Some? ::
      Outcome(strokes, ops, a, id).value
  }

  lemma AppliedAt(strokes: StrokeMap, ops: seq<Operation>, a: Author, id: StrokeId)
    ensures Lookup(Applied(strokes, ops, a), id) == Outcome(strokes, ops, a, id)
  {
    LastUpsertWitness(ops, id);
    FirstDeleteWitness(ops, id);
  }

  function DeletePass(strokes: StrokeMap, ops: seq<Operation>, upserted: set<StrokeId>, a: Author, id: StrokeId)
    : Option<CanonicalStroke>
  {
    match FirstDelete(ops, id)
    case Some(deleted) =>
      if id in upserted then Lookup(strokes, id)
      else Some(Buried(if id in strokes then strokes[id] else Live(id, deleted, a), a))
    case None => Lookup(strokes, id)
  }

  method ApplyManifest(strokes: StrokeMap, ops: seq<Operation>, a: Author) returns (r: StrokeMap)
    ensures r == Applied(strokes, ops, a)
  {
    r := strokes;
    var upserted := UpsertedIds(ops);
    var i := 0;
    while i < |ops|
      invariant 0 <= i <= |ops|
      invariant forall id :: Lookup(r, id) == DeletePass(strokes, ops[..i], upserted, a, id)
    {
      assert ops[..i + 1] == ops[..i] + [ops[i]];
      assert ops[..i + 1][..i] == ops[..i];
      var op := ops[i];
      ghost var before := r;
      if op.DeleteStroke? && op.sourceUuid !in upserted {
        var canonical := if op.sourceUuid in r then r[op.sourceUuid] else Live(op.sourceUuid, op.deleted, a);
        r := r[op.sourceUuid := Buried(canonical, a)];
      }
      forall id ensures Lookup(r, id) == DeletePass(strokes, ops[..i + 1], upserted, a, id) {
        assert Lookup(before, id) == DeletePass(strokes, ops[..i], upserted, a, id);
      }
      i := i + 1;
    }
    assert ops[..|ops|] == ops;
    i := 0;
    while i < |ops|
      invariant 0 <= i <= |ops|
      invariant forall id :: Lookup(r, id) ==
                             if LastUpsert(ops[..i], id).Some? then Some(Live(id, LastUpsert(ops[..i], id).value, a))
                             else DeletePass(strokes, ops, upserted, a, id)
    {
      assert ops[..i + 1] == ops[..i] + [ops[i]];
      assert ops[..i + 1][..i] == ops[..i];
      if ops[i].UpsertStroke? {
        r := r[ops[i].sourceUuid := Live(ops[i].sourceUuid, ops[i].after, a)];
      }
      i := i + 1;
    }
    assert ops[..|ops|] == ops;
    forall id ensures Lookup(r, id) == Lookup(Applied(strokes, ops, a), id) {
      LastUpsertWitness(ops, id);
      AppliedAt(strokes, ops, a, id);
    }
    SameLookups(r, Applied(strokes, ops, a));
  }

  lemma SameLookups<T>(m: map<StrokeId, T>, n: map<StrokeId, T>)
    requires forall id :: Lookup(m, id) == Lookup(n, id)
    ensures m == n
  {
    forall id ensures id in m <==> id in n {
      assert Lookup(m, id) == Lookup(n, id);
    }
    forall id | id in m ensures m[id] == n[id] {
      assert Lookup(m, id) == Lookup(n, id);
    }
  }

  lemma AppliedKeepsKeys(strokes: StrokeMap, ops: seq<Operation>, a: Author)
    requires KeysMatch(strokes)
    ensures KeysMatch(Applied(strokes, ops, a))
  {
  }

  // ---------------------------------------------------------------- order independence

  /** Every upsert of a stroke carries one snapshot, and so does every delete of a stroke that is
      neither upserted nor known. */
  ghost predicate Unambiguous(strokes: StrokeMap, ops: seq<Operation>) {
    && (forall o, p :: o in ops && p in ops && o.UpsertStroke? && p.UpsertStroke? && o.sourceUuid == p.sourceUuid
                       ==> o.after == p.after)
    && (forall o, p :: o in ops && p in ops && o.DeleteStroke? && p.DeleteStroke? && o.sourceUuid == p.sourceUuid
                       && o.sourceUuid !in UpsertedIds(ops) && o.sourceUuid !in strokes
                       ==> o.deleted == p.deleted)
  }

  lemma SameElements(ops: seq<Operation>, other: seq<Operation>)
    requires multiset(ops) == multiset(other)
    ensures forall o :: o in ops <==> o in other
  {
    forall o ensures o in ops <==> o in other {
      assert o in ops <==> o in multiset(ops);
      assert o in other <==> o in multiset(other);
    }
  }

  lemma PermutationApplies(strokes: StrokeMap, ops: seq<Operation>, other: seq<Operation>, a: Author)
    requires Unambiguous(strokes, ops)
    requires multiset(ops) == multiset(other)
    ensures Applied(strokes, ops, a) == Applied(strokes, other, a)
  {
    SameElements(ops, other);
    assert UpsertedIds(ops) == UpsertedIds(other);
    forall id ensures Lookup(Applied(strokes, ops, a), id) == Lookup(Applied(strokes, other, a), id) {
      AppliedAt(strokes, ops, a, id);
      AppliedAt(strokes, other, a, id);
      LastUpsertWitness(ops, id);
      LastUpsertWitness(other, id);
      FirstDeleteWitness(ops, id);
      FirstDeleteWitness(other, id);
    }
    SameLookups(Applied(strokes, ops, a), Applied(strokes, other, a));
  }

  /** The operations with the one at `i` moved to the end, or to the front. */
  function MovedLast(ops: seq<Operation>, i: nat): seq<Operation>
    requires i < |ops|
  {
    ops[..i] + ops[i + 1..] + [ops[i]]
  }

  function MovedFirst(ops: seq<Operation>, i: nat): seq<Operation>
    requires i < |ops|
  {
    [ops[i]] + ops[..i] + ops[i + 1..]
  }

  lemma MovedIsPermutation(ops: seq<Operation>, i: nat)
    requires i < |ops|
    ensures multiset(MovedLast(ops, i)) == multiset(ops) == multiset(MovedFirst(ops, i))
  {
    assert ops == ops[..i] + [ops[i]] + ops[i + 1..];
  }

  lemma {:induction false} FirstDeleteOfHead(ops: seq<Operation>)
    requires ops != [] && ops[0].DeleteStroke?
    ensures FirstDelete(ops, ops[0].sourceUuid) == Some(ops[0].deleted)
    decreases |ops|
  {
    if |ops| > 1 {
      FirstDeleteOfHead(ops[..|ops| - 1]);
    }
  }

  lemma MovedLastWins(strokes: StrokeMap, ops: seq<Operation>, a: Author, i: nat)
    requires i < |ops| && ops[i].UpsertStroke?
    ensures Outcome(strokes, MovedLast(ops, i), a, ops[i].sourceUuid) == Some(Live(ops[i].sourceUuid, ops[i].after, a))
  {
  }

  lemma MovedFirstWins(strokes: StrokeMap, ops: seq<Operation>, a: Author, i: nat)
    requires i < |ops| && ops[i].DeleteStroke?
    requires ops[i].sourceUuid !in UpsertedIds(ops) && ops[i].sourceUuid !in strokes
    ensures Outcome(strokes, MovedFirst(ops, i), a, ops[i].sourceUuid)
            == Some(Buried(Live(ops[i].sourceUuid, ops[i].deleted, a), a))
  {
    var moved := MovedFirst(ops, i);
    MovedIsPermutation(ops, i);
    SameElements(ops, moved);
    assert UpsertedIds(ops) == UpsertedIds(moved);
    LastUpsertWitness(moved, ops[i].sourceUuid);
    FirstDeleteOfHead(moved);
  }

  /** Applying a manifest is independent of the order of its operations exactly when the operations
      are unambiguous. One delete and one upsert per stroke is the case the converters produce. */
  lemma OrderIndependentExactly(strokes: StrokeMap, ops: seq<Operation>, a: Author)
    ensures Unambiguous(strokes, ops) <==>
            forall other :: multiset(other) == multiset(ops) ==> Applied(strokes, other, a) == Applied(strokes, ops, a)
  {
    if Unambiguous(strokes, ops) {
      forall other | multiset(other) == multiset(ops) ensures Applied(strokes, other, a) == Applied(strokes, ops, a) {
        PermutationApplies(strokes, ops, other, a);
      }
    } else {
      var o, p :| o in ops && p in ops && o.sourceUuid == p.sourceUuid
                  && ((o.UpsertStroke? && p.UpsertStroke? && o.after != p.after)
                      || (o.DeleteStroke? && p.DeleteStroke? && o.deleted != p.deleted
                          && o.sourceUuid !in UpsertedIds(ops) && o.sourceUuid !in strokes));
      var i :| 0 <= i < |ops| && ops[i] == o;
      var j :| 0 <= j < |ops| && ops[j] == p;
      MovedIsPermutation(ops, i);
      MovedIsPermutation(ops, j);
      if o.UpsertStroke? {
        MovedLastWins(strokes, ops, a, i);
        MovedLastWins(strokes, ops, a, j);
        AppliedAt(strokes, MovedLast(ops, i), a, o.sourceUuid);
        AppliedAt(strokes, MovedLast(ops, j), a, o.sourceUuid);
        assert Applied(strokes, MovedLast(ops, i), a) != Applied(strokes, MovedLast(ops, j), a);
      } else {
        MovedFirstWins(strokes, ops, a, i);
        MovedFirstWins(strokes, ops, a, j);
        AppliedAt(strokes, MovedFirst(ops, i), a, o.sourceUuid);
        AppliedAt(strokes, MovedFirst(ops, j), a, o.sourceUuid);
        assert Applied(strokes, MovedFirst(ops, i), a) != Applied(strokes, MovedFirst(ops, j), a);
      }
    }
  }

  /** At most one delete and one upsert per stroke, as both converters and the compact-manifest
      validation guarantee. */
  ghost predicate OneOfEach(ops: seq<Operation>) {
    forall i, j :: 0 <= i < j < |ops| && ops[i].sourceUuid == ops[j].sourceUuid
                   ==> ops[i].UpsertStroke? != ops[j].UpsertStroke?
  }

  /** A cross-page move, in either order of its two operations, ends active on its new page. */
  lemma MoveEndsOnNewPage(strokes: StrokeMap, ops: seq<Operation>, other: seq<Operation>, a: Author, d: Operation, u: Operation)
    requires OneOfEach(ops) && multiset(other) == multiset(ops)
    requires d in ops && u in ops && d.DeleteStroke? && u.UpsertStroke? && d.sourceUuid == u.sourceUuid
    ensures Applied(strokes, other, a) == Applied(strokes, ops, a)
    ensures u.sourceUuid in ActiveSnapshots(Applied(strokes, other, a))
    ensures ActiveSnapshots(Applied(strokes, other, a))[u.sourceUuid] == u.after
  {
    PermutationApplies(strokes, ops, other, a);
    AppliedAt(strokes, ops, a, u.sourceUuid);
    LastUpsertWitness(ops, u.sourceUuid);
  }

  // ---------------------------------------------------------------- operations of one stroke

  function OperationsOf(ops: seq<Operation>, id: StrokeId): seq<Operation>
    decreases |ops|
  {
    if ops == [] then []
    else
      var rest := OperationsOf(ops[..|ops| - 1], id);
      if ops[|ops| - 1].sourceUuid == id then rest + [ops[|ops| - 1]] else rest
  }

  lemma {:induction false} OperationsOfDecides(ops: seq<Operation>, id: StrokeId)
    ensures LastUpsert(OperationsOf(ops, id), id) == LastUpsert(ops, id)
    ensures FirstDelete(OperationsOf(ops, id), id) == FirstDelete(ops, id)
    ensures forall o :: o in OperationsOf(ops, id) <==> o in ops && o.sourceUuid == id
    decreases |ops|
  {
    if ops != [] {
      var n := |ops| - 1;
      assert ops == ops[..n] + [ops[n]];
      OperationsOfDecides(ops[..n], id);
      var rest := OperationsOf(ops[..n], id);
      assert (rest + [ops[n]])[..|rest|] == rest;
    }
  }

  lemma {:induction false} OperationsOfConcat(a: seq<Operation>, b: seq<Operation>, id: StrokeId)
    ensures OperationsOf(a + b, id) == OperationsOf(a, id) + OperationsOf(b, id)
    decreases |b|
  {
    if b == [] {
      assert a + b == a;
    } else {
      var n := |b| - 1;
      assert (a + b)[..|a + b| - 1] == a + b[..n];
      OperationsOfConcat(a, b[..n], id);
    }
  }

  // ---------------------------------------------------------------- apply_supernote_export

  function Incoming(pages: seq<ExportPage>): seq<StrokeSnapshot>
    decreases |pages|
  {
    if pages == [] then [] else Incoming(pages[..|pages| - 1]) + pages[|pages| - 1].strokes
  }

  function AffectedPages(pages: seq<ExportPage>): set<nat> {
    set page | page in pages :: page.pageIndex
  }

  function IncomingIds(pages: seq<ExportPage>): set<StrokeId> {
    set s | s in Incoming(pages) :: s.sourceUuid
  }

  function LastSnapshot(xs: seq<StrokeSnapshot>, id: StrokeId): Option<StrokeSnapshot>
    decreases |xs|
  {
    if xs == [] then None
    else if xs[|xs| - 1].sourceUuid == id then Some(xs[|xs| - 1])
    else LastSnapshot(xs[..|xs| - 1], id)
  }

  lemma {:induction false} LastSnapshotWitness(xs: seq<StrokeSnapshot>, id: StrokeId)
    ensures LastSnapshot(xs, id).Some? <==> exists s :: s in xs && s.sourceUuid == id
    ensures LastSnapshot(xs, id).Some? ==> LastSnapshot(xs, id).value.sourceUuid == id && LastSnapshot(xs, id).value in xs
    decreases |xs|
  {
    if xs != [] {
      var n := |xs| - 1;
      assert xs == xs[..n] + [xs[n]];
      LastSnapshotWitness(xs[..n], id);
    }
  }

  predicate LeftOut(stroke: CanonicalStroke, pages: seq<ExportPage>) {
    && stroke.snapshot.pageIndex in AffectedPages(pages)
    && stroke.tombstone.None?
    && stroke.strokeId !in IncomingIds(pages)
  }

  /** What a page-scoped export leaves for one stroke: what it brings in is live, what it leaves out
      of an exported page is buried, everything else is kept. */
  function ExportOutcome(strokes: StrokeMap, pages: seq<ExportPage>, a: Author, id: StrokeId): Option<CanonicalStroke> {
    match LastSnapshot(Incoming(pages), id)
    case Some(snapshot) => Some(Live(id, snapshot, a))
    case None =>
      if id in strokes && LeftOut(strokes[id], pages) then Some(Buried(strokes[id], a)) else Lookup(strokes, id)
  }

  function ExportApplied(strokes: StrokeMap, pages: seq<ExportPage>, a: Author): StrokeMap {
    map id | id in strokes.Keys + IncomingIds(pages) && ExportOutcome(strokes, pages, a, id).Some? ::
      ExportOutcome(strokes, pages, a, id).value
  }

  lemma ExportAppliedAt(strokes: StrokeMap, pages: seq<ExportPage>, a: Author, id: StrokeId)
    ensures Lookup(ExportApplied(strokes, pages, a), id) == ExportOutcome(strokes, pages, a, id)
  {
    LastSnapshotWitness(Incoming(pages), id);
  }

  method ApplySupernoteExport(strokes: StrokeMap, pages: seq<ExportPage>, a: Author) returns (r: StrokeMap)
    ensures r == ExportApplied(strokes, pages, a)
  {
    r := strokes;
    var affected := AffectedPages(pages);
    var incomingIds := IncomingIds(pages);
    var todo := strokes.Keys;
    while todo != {}
      invariant todo <= strokes.Keys
      invariant forall id :: Lookup(r, id) ==
                             if id in strokes && id !in todo && LeftOut(strokes[id], pages) then Some(Buried(strokes[id], a))
                             else Lookup(strokes, id)
    {
      var id :| id in todo;
      assert Lookup(r, id) == Some(strokes[id]);
      if r[id].snapshot.pageIndex in affected && r[id].tombstone.None? && r[id].strokeId !in incomingIds {
        r := r[id := Buried(r[id], a)];
      }
      todo := todo - {id};
    }
    var p := 0;
    while p < |pages|
      invariant 0 <= p <= |pages|
      invariant forall id :: Lookup(r, id) == Inserted(strokes, pages, Incoming(pages[..p]), a, id)
    {
      var page := pages[p].strokes;
      ghost var before := Incoming(pages[..p]);
      var s := 0;
      assert before + page[..0] == before;
      while s < |page|
        invariant 0 <= s <= |page|
        invariant forall id :: Lookup(r, id) == Inserted(strokes, pages, before + page[..s], a, id)
      {
        assert before + page[..s + 1] == (before + page[..s]) + [page[s]];
        assert (before + page[..s + 1])[..|before| + s] == before + page[..s];
        ghost var last := r;
        r := r[page[s].sourceUuid := Live(page[s].sourceUuid, page[s], a)];
        forall id ensures Lookup(r, id) == Inserted(strokes, pages, before + page[..s + 1], a, id) {
          assert Lookup(last, id) == Inserted(strokes, pages, before + page[..s], a, id);
        }
        s := s + 1;
      }
      assert page[..|page|] == page;
      assert pages[..p + 1][..p] == pages[..p];
      assert Incoming(pages[..p + 1]) == before + page;
      p := p + 1;
    }
    assert pages[..|pages|] == pages;
    forall id ensures Lookup(r, id) == Lookup(ExportApplied(strokes, pages, a), id) {
      ExportAppliedAt(strokes, pages, a, id);
    }
    SameLookups(r, ExportApplied(strokes, pages, a));
  }

  function Inserted(strokes: StrokeMap, pages: seq<ExportPage>, done: seq<StrokeSnapshot>, a: Author, id: StrokeId)
    : Option<CanonicalStroke>
  {
    match LastSnapshot(done, id)
    case Some(snapshot) => Some(Live(id, snapshot, a))
    case None =>
      if id in strokes && LeftOut(strokes[id], pages) then Some(Buried(strokes[id], a)) else Lookup(strokes, id)
  }

  lemma ExportKeepsKeys(strokes: StrokeMap, pages: seq<ExportPage>, a: Author)
    requires KeysMatch(strokes)
    ensures KeysMatch(ExportApplied(strokes, pages, a))
  {
  }

  /** Strokes on pages the export does not carry are untouched unless the export brings their id in. */
  lemma OtherPagesKept(strokes: StrokeMap, pages: seq<ExportPage>, a: Author, id: StrokeId)
    requires KeysMatch(strokes) && id in strokes
    requires strokes[id].snapshot.pageIndex !in AffectedPages(pages)
    requires id !in IncomingIds(pages)
    ensures Lookup(ExportApplied(strokes, pages, a), id) == Some(strokes[id])
  {
    ExportAppliedAt(strokes, pages, a, id);
    LastSnapshotWitness(Incoming(pages), id);
  }

  // ---------------------------------------------------------------- supernote_export_manifest

  predicate IsLeast(m: StrokeId, s: set<StrokeId>) {
    m in s && forall x :: x in s ==> m <= x
  }

  function MinOf(s: set<StrokeId>): (m: StrokeId)
    requires s != {}
    ensures m in s && forall x :: x in s ==> m <= x
  {
    MinExists(s);
    var m :| m in s && IsLeast(m, s);
    m
  }

  lemma {:induction false} MinExists(s: set<StrokeId>)
    requires s != {}
    ensures exists m :: m in s && IsLeast(m, s)
    decreases |s|
  {
    var y :| y in s;
    if s == {y} {
      assert forall x :: x in s ==> x == y;
      assert IsLeast(y, s);
    } else {
      MinExists(s - {y});
      var m :| m in s - {y} && IsLeast(m, s - {y});
      assert forall x :: x in s ==> x == y || x in s - {y};
      assert IsLeast(if y < m then y else m, s);
    }
  }

  /** The keys of a BTreeMap, in iteration order. */
  function Ascending(s: set<StrokeId>): (r: seq<StrokeId>)
    ensures forall x :: x in r <==> x in s
    ensures forall i, j :: 0 <= i < j < |r| ==> r[i] < r[j]
    decreases |s|
  {
    if s == {} then [] else [MinOf(s)] + Ascending(s - {MinOf(s)})
  }

  /** Stable insertion: after every operation whose id is not greater. */
  function InsertById(ops: seq<Operation>, o: Operation): seq<Operation>
    decreases |ops|
  {
    if ops == [] then [o]
    else if ops[|ops| - 1].sourceUuid <= o.sourceUuid then ops + [o]
    else InsertById(ops[..|ops| - 1], o) + [ops[|ops| - 1]]
  }

  /** The source's stable sort by operation id. */
  function SortById(ops: seq<Operation>): seq<Operation>
    decreases |ops|
  {
    if ops == [] then [] else InsertById(SortById(ops[..|ops| - 1]), ops[|ops| - 1])
  }

  lemma {:induction false} InsertByIdKeepsOrder(ops: seq<Operation>, o: Operation, id: StrokeId)
    ensures OperationsOf(InsertById(ops, o), id) == OperationsOf(ops + [o], id)
    decreases |ops|
  {
    OperationsOfConcat(ops, [o], id);
    if ops != [] && ops[|ops| - 1].sourceUuid > o.sourceUuid {
      var n := |ops| - 1;
      InsertByIdKeepsOrder(ops[..n], o, id);
      OperationsOfConcat(ops[..n], [o], id);
      OperationsOfConcat(InsertById(ops[..n], o), [ops[n]], id);
      assert ops == ops[..n] + [ops[n]];
      OperationsOfConcat(ops[..n], [ops[n]], id);
      assert [o][..0] == [] && [ops[n]][..0] == [];
    }
  }

  lemma {:induction false} SortByIdIsStable(ops: seq<Operation>, id: StrokeId)
    ensures OperationsOf(SortById(ops), id) == OperationsOf(ops, id)
    decreases |ops|
  {
    if ops != [] {
      var n := |ops| - 1;
      assert ops == ops[..n] + [ops[n]];
      SortByIdIsStable(ops[..n], id);
      InsertByIdKeepsOrder(SortById(ops[..n]), ops[n], id);
      OperationsOfConcat(SortById(ops[..n]), [ops[n]], id);
      OperationsOfConcat(ops[..n], [ops[n]], id);
    }
  }

  datatype Scan = Scan(active: map<StrokeId, StrokeSnapshot>, ops: seq<Operation>)

  function ScanStep(scan: Scan, s: StrokeSnapshot): Scan {
    var id := s.sourceUuid;
    var rest := scan.active - {id};
    if id in scan.active then
      if scan.active[id] == s then Scan(rest, scan.ops)
      else Scan(rest, scan.ops + [UpsertStroke(id, s.pageIndex, Some(scan.active[id]), s)])
    else Scan(rest, scan.ops + [UpsertStroke(id, s.pageIndex, None, s)])
  }

  function ScanAll(active: map<StrokeId, StrokeSnapshot>, xs: seq<StrokeSnapshot>): Scan
    decreases |xs|
  {
    if xs == [] then Scan(active, []) else ScanStep(ScanAll(active, xs[..|xs| - 1]), xs[|xs| - 1])
  }

  function ExportBaseline(strokes: StrokeMap, pages: seq<ExportPage>): map<StrokeId, StrokeSnapshot> {
    map id | id in strokes && strokes[id].tombstone.None? && strokes[id].snapshot.pageIndex in AffectedPages(pages) ::
      strokes[id].snapshot
  }

  function DeleteOf(active: map<StrokeId, StrokeSnapshot>, id: StrokeId): Operation
    requires id in active
  {
    DeleteStroke(id, active[id].pageIndex, active[id])
  }

  function DeletesOf(active: map<StrokeId, StrokeSnapshot>, ids: seq<StrokeId>): seq<Operation>
    requires forall id :: id in ids ==> id in active
    decreases |ids|
  {
    if ids == [] then []
    else
      DeletesOf(active, ids[..|ids| - 1]) + [DeleteOf(active, ids[|ids| - 1])]
  }

  function ExportOperations(strokes: StrokeMap, pages: seq<ExportPage>): seq<Operation> {
    var scan := ScanAll(ExportBaseline(strokes, pages), Incoming(pages));
    SortById(scan.ops + DeletesOf(scan.active, Ascending(scan.active.Keys)))
  }

  lemma ScanOneMore(active: map<StrokeId, StrokeSnapshot>, done: seq<StrokeSnapshot>, page: seq<StrokeSnapshot>, i: nat)
    requires i < |page|
    ensures ScanAll(active, done + page[..i + 1]) == ScanStep(ScanAll(active, done + page[..i]), page[i])
  {
    assert (done + page[..i + 1])[..|done| + i] == done + page[..i];
  }

  lemma IncomingOneMore(pages: seq<ExportPage>, i: nat)
    requires i < |pages|
    ensures Incoming(pages[..i + 1]) == Incoming(pages[..i]) + pages[i].strokes
  {
    assert pages[..i + 1][..i] == pages[..i];
  }

  /** One page of the scan, after the snapshots already `done`. */
  method ScanPage(before: map<StrokeId, StrokeSnapshot>, found: seq<Operation>, page: seq<StrokeSnapshot>,
                  ghost baseline: map<StrokeId, StrokeSnapshot>, ghost done: seq<StrokeSnapshot>)
    returns (active: map<StrokeId, StrokeSnapshot>, operations: seq<Operation>)
    requires Scan(before, found) == ScanAll(baseline, done)
    ensures Scan(active, operations) == ScanAll(baseline, done + page)
  {
    active, operations := before, found;
    assert done + page[..0] == done;
    for s := 0 to |page|
      invariant Scan(active, operations) == ScanAll(baseline, done + page[..s])
    {
      ScanOneMore(baseline, done, page, s);
      var snapshot := page[s];
      var removed := Lookup(active, snapshot.sourceUuid);
      active := active - {snapshot.sourceUuid};
      if removed != Some(snapshot) {
        operations := operations + [UpsertStroke(snapshot.sourceUuid, snapshot.pageIndex, removed, snapshot)];
      }
    }
    assert page[..|page|] == page;
  }

  method ScanExport(baseline: map<StrokeId, StrokeSnapshot>, pages: seq<ExportPage>)
    returns (active: map<StrokeId, StrokeSnapshot>, operations: seq<Operation>)
    ensures Scan(active, operations) == ScanAll(baseline, Incoming(pages))
  {
    active, operations := baseline, [];
    for p := 0 to |pages|
      invariant Scan(active, operations) == ScanAll(baseline, Incoming(pages[..p]))
    {
      active, operations := ScanPage(active, operations, pages[p].strokes, baseline, Incoming(pages[..p]));
      IncomingOneMore(pages, p);
    }
    assert pages[..|pages|] == pages;
  }

  method AppendDeletes(scanned: seq<Operation>, active: map<StrokeId, StrokeSnapshot>, ids: seq<StrokeId>)
    returns (operations: seq<Operation>)
    requires forall id :: id in ids ==> id in active
    ensures operations == scanned + DeletesOf(active, ids)
  {
    operations := scanned;
    for i := 0 to |ids|
      invariant operations == scanned + DeletesOf(active, ids[..i])
    {
      DeleteOneMore(active, ids, i);
      operations := operations + [DeleteOf(active, ids[i])];
    }
    assert ids[..|ids|] == ids;
  }

  lemma DeleteOneMore(active: map<StrokeId, StrokeSnapshot>, ids: seq<StrokeId>, i: nat)
    requires i < |ids| && forall id :: id in ids ==> id in active
    ensures DeletesOf(active, ids[..i + 1]) == DeletesOf(active, ids[..i]) + [DeleteOf(active, ids[i])]
  {
    assert ids[..i + 1][..i] == ids[..i];
  }

  method SupernoteExportManifest(strokes: StrokeMap, pages: seq<ExportPage>) returns (operations: seq<Operation>)
    ensures operations == ExportOperations(strokes, pages)
  {
    var active, scanned := ScanExport(ExportBaseline(strokes, pages), pages);
    operations := AppendDeletes(scanned, active, Ascending(active.Keys));
    operations := SortById(operations);
  }

  /** What the scan knows of stroke `id`, whose baseline snapshot was `base` and whose last
      incoming snapshot so far is `last`. */
  ghost predicate ScanMeans(scan: Scan, base: Option<StrokeSnapshot>, last: Option<StrokeSnapshot>, id: StrokeId) {
    && FirstDelete(scan.ops, id).None?
    && Lookup(scan.active, id) == (if last.Some? then None else base)
    && (last.None? ==> LastUpsert(scan.ops, id).None?)
    && (last.Some? ==> LastUpsert(scan.ops, id) == last || (LastUpsert(scan.ops, id).None? && base == last))
  }

  lemma AppendOne(ops: seq<Operation>, o: Operation, id: StrokeId)
    ensures LastUpsert(ops + [o], id) == if o.UpsertStroke? && o.sourceUuid == id then Some(o.after) else LastUpsert(ops, id)
    ensures FirstDelete(ops + [o], id)
            == if FirstDelete(ops, id).None? && o.DeleteStroke? && o.sourceUuid == id then Some(o.deleted) else FirstDelete(ops, id)
  {
    assert (ops + [o])[..|ops|] == ops;
  }

  lemma ScanStepMeans(scan: Scan, base: Option<StrokeSnapshot>, last: Option<StrokeSnapshot>, s: StrokeSnapshot, id: StrokeId)
    requires ScanMeans(scan, base, last, id)
    ensures ScanMeans(ScanStep(scan, s), base, if s.sourceUuid == id then Some(s) else last, id)
  {
    var u := UpsertStroke(s.sourceUuid, s.pageIndex, Lookup(scan.active, s.sourceUuid), s);
    AppendOne(scan.ops, u, id);
  }

  lemma {:induction false} ScanMeaning(active: map<StrokeId, StrokeSnapshot>, xs: seq<StrokeSnapshot>, id: StrokeId)
    ensures ScanMeans(ScanAll(active, xs), Lookup(active, id), LastSnapshot(xs, id), id)
    decreases |xs|
  {
    if xs != [] {
      var n := |xs| - 1;
      ScanMeaning(active, xs[..n], id);
      ScanStepMeans(ScanAll(active, xs[..n]), Lookup(active, id), LastSnapshot(xs[..n], id), xs[n], id);
    }
  }

  lemma {:induction false} DeletesOfAt(active: map<StrokeId, StrokeSnapshot>, ids: seq<StrokeId>)
    requires forall x :: x in ids ==> x in active
    ensures |DeletesOf(active, ids)| == |ids|
    ensures forall i :: 0 <= i < |ids| ==> DeletesOf(active, ids)[i] == DeleteOf(active, ids[i])
    decreases |ids|
  {
    if ids != [] {
      DeletesOfAt(active, ids[..|ids| - 1]);
    }
  }

  lemma DeletesOfMeaning(active: map<StrokeId, StrokeSnapshot>, ids: seq<StrokeId>, id: StrokeId)
    requires forall x :: x in ids ==> x in active
    ensures OperationsOf(DeletesOf(active, ids), id) == [] <==> id !in ids
    ensures forall o :: o in DeletesOf(active, ids) ==>
                          o.DeleteStroke? && o.sourceUuid in active && o.deleted == active[o.sourceUuid]
  {
    var ops := DeletesOf(active, ids);
    DeletesOfAt(active, ids);
    OperationsOfDecides(ops, id);
    if id in ids {
      var i :| 0 <= i < |ids| && ids[i] == id;
      assert ops[i] in ops && ops[i].sourceUuid == id;
    }
    if OperationsOf(ops, id) != [] {
      assert OperationsOf(ops, id)[0] in OperationsOf(ops, id);
    }
  }

  lemma NoOperationsOf(ops: seq<Operation>, id: StrokeId)
    ensures OperationsOf(ops, id) == [] <==> LastUpsert(ops, id).None? && FirstDelete(ops, id).None?
  {
    OperationsOfDecides(ops, id);
    LastUpsertWitness(ops, id);
    FirstDeleteWitness(ops, id);
    if OperationsOf(ops, id) != [] {
      var o := OperationsOf(ops, id)[0];
      assert o in OperationsOf(ops, id);
      assert o.sourceUuid == id && o in ops;
      assert o.UpsertStroke? ==> id in UpsertedIds(ops);
    }
  }

  /** The order the operations are sorted into changes nothing for a single stroke. */
  lemma SortedMeansSame(ops: seq<Operation>, id: StrokeId)
    ensures LastUpsert(SortById(ops), id) == LastUpsert(ops, id)
    ensures FirstDelete(SortById(ops), id) == FirstDelete(ops, id)
  {
    SortByIdIsStable(ops, id);
    OperationsOfDecides(ops, id);
    OperationsOfDecides(SortById(ops), id);
  }

  lemma ConcatMeans(a: seq<Operation>, b: seq<Operation>, id: StrokeId)
    ensures OperationsOf(b, id) == [] ==> LastUpsert(a + b, id) == LastUpsert(a, id) && FirstDelete(a + b, id) == FirstDelete(a, id)
    ensures OperationsOf(a, id) == [] ==> LastUpsert(a + b, id) == LastUpsert(b, id) && FirstDelete(a + b, id) == FirstDelete(b, id)
  {
    OperationsOfConcat(a, b, id);
    OperationsOfDecides(a + b, id);
    OperationsOfDecides(a, id);
    OperationsOfDecides(b, id);
    if OperationsOf(b, id) == [] {
      assert OperationsOf(a + b, id) == OperationsOf(a, id);
    }
    if OperationsOf(a, id) == [] {
      assert OperationsOf(a + b, id) == OperationsOf(b, id);
    }
  }

  lemma DeletesMean(active: map<StrokeId, StrokeSnapshot>, ids: seq<StrokeId>, id: StrokeId)
    requires forall x :: x in ids <==> x in active
    ensures LastUpsert(DeletesOf(active, ids), id).None?
    ensures FirstDelete(DeletesOf(active, ids), id) == Lookup(active, id)
  {
    var deletes := DeletesOf(active, ids);
    DeletesOfMeaning(active, ids, id);
    LastUpsertWitness(deletes, id);
    FirstDeleteWitness(deletes, id);
    if id in active {
      var o := OperationsOf(deletes, id)[0];
      assert o in OperationsOf(deletes, id);
      OperationsOfDecides(deletes, id);
      assert o in deletes && o.DeleteStroke? && o.sourceUuid == id;
    }
  }

  /** What the conflict manifest of an export says about one stroke. */
  lemma ExportOperationsMeaning(strokes: StrokeMap, pages: seq<ExportPage>, id: StrokeId)
    ensures var ops := ExportOperations(strokes, pages);
            var last := LastSnapshot(Incoming(pages), id);
            var base := Lookup(ExportBaseline(strokes, pages), id);
            && (last.Some? ==>
                  && FirstDelete(ops, id).None?
                  && (LastUpsert(ops, id) == last || (LastUpsert(ops, id).None? && base == last)))
            && (last.None? ==> LastUpsert(ops, id).None? && FirstDelete(ops, id) == base)
  {
    var baseline := ExportBaseline(strokes, pages);
    var scan := ScanAll(baseline, Incoming(pages));
    var ids := Ascending(scan.active.Keys);
    var deletes := DeletesOf(scan.active, ids);
    ScanMeaning(baseline, Incoming(pages), id);
    DeletesMean(scan.active, ids, id);
    SortedMeansSame(scan.ops + deletes, id);
    ConcatMeans(scan.ops, deletes, id);
    if id in scan.active {
      NoOperationsOf(scan.ops, id);
    } else {
      NoOperationsOf(deletes, id);
    }
  }

  /** Two routes, one result: turning an export into a conflict manifest and applying all of it
      leaves the same active snapshots and the same tombstoned ids as applying the export directly,
      whoever is recorded as the author of each route. */
  lemma TwoRoutesAgree(strokes: StrokeMap, pages: seq<ExportPage>, direct: Author, viaManifest: Author)
    requires KeysMatch(strokes)
    ensures ActiveSnapshots(Applied(strokes, ExportOperations(strokes, pages), viaManifest))
            == ActiveSnapshots(ExportApplied(strokes, pages, direct))
    ensures TombstonedIds(Applied(strokes, ExportOperations(strokes, pages), viaManifest))
            == TombstonedIds(ExportApplied(strokes, pages, direct))
  {
    var left := Applied(strokes, ExportOperations(strokes, pages), viaManifest);
    var right := ExportApplied(strokes, pages, direct);
    forall id
      ensures Lookup(ActiveSnapshots(left), id) == Lookup(ActiveSnapshots(right), id)
      ensures id in TombstonedIds(left) <==> id in TombstonedIds(right)
    {
      AppliedAt(strokes, ExportOperations(strokes, pages), viaManifest, id);
      ExportAppliedAt(strokes, pages, direct, id);
      ExportOperationsMeaning(strokes, pages, id);
      LastSnapshotWitness(Incoming(pages), id);
      if id in left {}
      if id in right {}
    }
    SameLookups(ActiveSnapshots(left), ActiveSnapshots(right));
  }
}
