/** inkbridge-broker/src/storage.rs: the atomic, generation-conditional object store
    that every broker commit is specified against. */
module Storage {
  import opened Wrappers
  import opened Model

  datatype StoredObject = StoredObject(bytes: Blob, generation: nat, metadata: Metadata)

  datatype GenerationPrecondition = DoesNotExist | Match(generation: nat)

  datatype ConditionalWrite = ConditionalWrite(
    path: Path,
    bytes: Blob,
    metadata: Metadata,
    precondition: GenerationPrecondition)

  datatype CommitError =
    | PreconditionFailed(path: Path, expected: GenerationPrecondition, actual: Option<nat>)
    | Other(message: string)

  predicate Holds(precondition: GenerationPrecondition, actual: Option<nat>) {
    match precondition
    case DoesNotExist => actual.None?
    case Match(expected) => actual == Some(expected)
  }

  /** The value of a store: what each path holds now, and every generation ever written. */
  datatype Store = Store(
    objects: map<Path, StoredObject>,
    versions: map<(Path, nat), StoredObject>,
    nextGeneration: nat)
  {
    ghost predicate Valid() {
      && (forall p :: p in objects ==> objects[p].generation <= nextGeneration)
      && (forall p :: p in objects ==> (p, objects[p].generation) in versions
                                       && versions[(p, objects[p].generation)] == objects[p])
      && (forall k: (Path, nat) :: k in versions ==> k.1 <= nextGeneration && versions[k].generation == k.1)
    }

    function Generation(p: Path): Option<nat> {
      if p in objects then Some(objects[p].generation) else None
    }

    function Put(p: Path, bytes: Blob, metadata: Metadata): Store {
      var stored := StoredObject(bytes, nextGeneration + 1, metadata);
      Store(objects[p := stored], versions[(p, nextGeneration + 1) := stored], nextGeneration + 1)
    }

    function Write(w: ConditionalWrite): Store {
      Put(w.path, w.bytes, w.metadata)
    }

    function WriteAll(writes: seq<ConditionalWrite>): Store
      decreases |writes|
    {
      if writes == [] then this else Write(writes[0]).WriteAll(writes[1..])
    }

    predicate Admits(writes: seq<ConditionalWrite>) {
      forall i :: 0 <= i < |writes| ==> Holds(writes[i].precondition, Generation(writes[i].path))
    }

    /** The specification of an atomic commit: all preconditions against one state, then all writes. */
    function Commit(writes: seq<ConditionalWrite>): Store {
      if Admits(writes) then WriteAll(writes) else this
    }
  }

  predicate DistinctPaths(writes: seq<ConditionalWrite>) {
    forall i, j :: 0 <= i < j < |writes| ==> writes[i].path != writes[j].path
  }

  /** `later` comes after `earlier` in some run: generations only grow and no version is lost. */
  ghost predicate Follows(earlier: Store, later: Store) {
    && earlier.nextGeneration <= later.nextGeneration
    && (forall k: (Path, nat) :: k in earlier.versions ==> k in later.versions && later.versions[k] == earlier.versions[k])
    && (forall p :: p in earlier.objects ==> p in later.objects)
    && (forall p :: p in later.objects && p in earlier.objects
                    && later.objects[p].generation <= earlier.nextGeneration
                    ==> later.objects[p] == earlier.objects[p])
    && (forall p :: p in later.objects && p !in earlier.objects
                    ==> later.objects[p].generation > earlier.nextGeneration)
  }

  lemma PutFollows(s: Store, p: Path, bytes: Blob, metadata: Metadata)
    requires s.Valid()
    ensures s.Put(p, bytes, metadata).Valid()
    ensures Follows(s, s.Put(p, bytes, metadata))
  {
    var t := s.Put(p, bytes, metadata);
    forall k: (Path, nat) | k in s.versions ensures k in t.versions && t.versions[k] == s.versions[k] {
      assert k.1 <= s.nextGeneration;
    }
  }

  lemma FollowsTransitive(a: Store, b: Store, c: Store)
    requires Follows(a, b) && Follows(b, c)
    ensures Follows(a, c)
  {
    forall p | p in c.objects && p in a.objects && c.objects[p].generation <= a.nextGeneration
      ensures c.objects[p] == a.objects[p]
    {
      assert p in b.objects;
      assert c.objects[p] == b.objects[p];
    }
    forall p | p in c.objects && p !in a.objects ensures c.objects[p].generation > a.nextGeneration {
      if p in b.objects && c.objects[p].generation <= b.nextGeneration {
        assert c.objects[p] == b.objects[p];
      }
    }
  }

  lemma {:induction false} WriteAllFollows(s: Store, writes: seq<ConditionalWrite>)
    requires s.Valid()
    ensures s.WriteAll(writes).Valid() && Follows(s, s.WriteAll(writes))
    decreases |writes|
  {
    if writes != [] {
      var w := writes[0];
      PutFollows(s, w.path, w.bytes, w.metadata);
      WriteAllFollows(s.Write(w), writes[1..]);
      FollowsTransitive(s, s.Write(w), s.WriteAll(writes));
    }
  }

  /** What a list of writes to distinct paths does: exactly those paths change, each to its own write. */
  lemma {:induction false} WriteAllEffect(s: Store, writes: seq<ConditionalWrite>)
    requires DistinctPaths(writes)
    ensures s.WriteAll(writes).nextGeneration == s.nextGeneration + |writes|
    ensures forall i :: 0 <= i < |writes| ==>
              && writes[i].path in s.WriteAll(writes).objects
              && s.WriteAll(writes).objects[writes[i].path]
                 == StoredObject(writes[i].bytes, s.nextGeneration + 1 + i, writes[i].metadata)
    ensures forall p {:trigger p in s.WriteAll(writes).objects} ::
              (forall i :: 0 <= i < |writes| ==> writes[i].path != p) ==>
                && (p in s.WriteAll(writes).objects <==> p in s.objects)
                && (p in s.objects ==> s.WriteAll(writes).objects[p] == s.objects[p])
    decreases |writes|
  {
    if writes != [] {
      var rest := writes[1..];
      var t := s.Write(writes[0]);
      WriteAllEffect(t, rest);
      assert t.WriteAll(rest) == s.WriteAll(writes);
      forall i | 0 <= i < |writes|
        ensures writes[i].path in s.WriteAll(writes).objects
        ensures s.WriteAll(writes).objects[writes[i].path]
                == StoredObject(writes[i].bytes, s.nextGeneration + 1 + i, writes[i].metadata)
      {
        if i == 0 {
          forall k | 0 <= k < |rest| ensures rest[k].path != writes[0].path {
            assert rest[k] == writes[k + 1];
          }
        } else {
          assert rest[i - 1] == writes[i];
        }
      }
      forall p | forall i :: 0 <= i < |writes| ==> writes[i].path != p
        ensures p in s.WriteAll(writes).objects <==> p in s.objects
        ensures p in s.objects ==> s.WriteAll(writes).objects[p] == s.objects[p]
      {
        forall k | 0 <= k < |rest| ensures rest[k].path != p {
          assert rest[k] == writes[k + 1];
        }
      }
    }
  }

  lemma CommitFollows(s: Store, writes: seq<ConditionalWrite>)
    requires s.Valid()
    ensures s.Commit(writes).Valid() && Follows(s, s.Commit(writes))
  {
    WriteAllFollows(s, writes);
  }

  /** A commit is all or nothing: either every path holds its write, or nothing moved. */
  lemma CommitIsAtomic(s: Store, writes: seq<ConditionalWrite>)
    requires s.Valid() && DistinctPaths(writes) && writes != []
    ensures s.Admits(writes) ==>
              forall i :: 0 <= i < |writes| ==>
                && writes[i].path in s.Commit(writes).objects
                && s.Commit(writes).objects[writes[i].path].bytes == writes[i].bytes
                && s.Commit(writes).objects[writes[i].path].metadata == writes[i].metadata
                && s.Commit(writes).objects[writes[i].path].generation > s.nextGeneration
    ensures s.Commit(writes) == s <==> !s.Admits(writes)
  {
    WriteAllEffect(s, writes);
    if s.Admits(writes) {
      assert s.Commit(writes).nextGeneration == s.nextGeneration + |writes|;
    }
  }

  class MemoryStorage {
    var objects: map<Path, StoredObject>
    var versions: map<(Path, nat), StoredObject>
    var nextGeneration: nat

    constructor ()
      ensures View() == Store(map[], map[], 0)
    {
      objects := map[];
      versions := map[];
      nextGeneration := 0;
    }

    function View(): Store
      reads this
    {
      Store(objects, versions, nextGeneration)
    }

    method PutUnchecked(path: Path, bytes: Blob, metadata: Metadata) returns (stored: StoredObject)
      modifies this
      ensures View() == old(View()).Put(path, bytes, metadata)
      ensures stored == View().objects[path]
    {
      nextGeneration := nextGeneration + 1;
      stored := StoredObject(bytes, nextGeneration, metadata);
      objects := objects[path := stored];
      versions := versions[(path, nextGeneration) := stored];
    }

    method Read(path: Path) returns (stored: Option<StoredObject>)
      ensures stored == if path in objects then Some(objects[path]) else None
    {
      stored := if path in objects then Some(objects[path]) else None;
    }

    method ReadGeneration(path: Path, generation: nat) returns (stored: Option<StoredObject>)
      ensures stored == if (path, generation) in versions then Some(versions[(path, generation)]) else None
    {
      stored := if (path, generation) in versions then Some(versions[(path, generation)]) else None;
    }

    method Commit(writes: seq<ConditionalWrite>) returns (r: Result<seq<StoredObject>, CommitError>)
      modifies this
      ensures View() == old(View()).Commit(writes)
      ensures r.Success? <==> old(View()).Admits(writes)
      ensures r.Success? ==> |r.value| == |writes| && forall i :: 0 <= i < |writes| ==>
                r.value[i] == StoredObject(writes[i].bytes, old(nextGeneration) + 1 + i, writes[i].metadata)
      ensures r.Failure? ==> exists i :: (
                && 0 <= i < |writes|
                && !Holds(writes[i].precondition, old(View()).Generation(writes[i].path))
                && r.error == PreconditionFailed(
                     writes[i].path, writes[i].precondition, old(View()).Generation(writes[i].path)))
    {
      var i := 0;
      while i < |writes|
        invariant 0 <= i <= |writes|
        invariant forall k :: 0 <= k < i ==> Holds(writes[k].precondition, View().Generation(writes[k].path))
      {
        var actual := if writes[i].path in objects then Some(objects[writes[i].path].generation) else None;
        if !Holds(writes[i].precondition, actual) {
          return Failure(PreconditionFailed(writes[i].path, writes[i].precondition, actual));
        }
        i := i + 1;
      }
      var committed := [];
      i := 0;
      while i < |writes|
        invariant 0 <= i <= |writes| == |writes|
        invariant |committed| == i && nextGeneration == old(nextGeneration) + i
        invariant View().WriteAll(writes[i..]) == old(View()).WriteAll(writes)
        invariant forall k :: 0 <= k < i ==>
          committed[k] == StoredObject(writes[k].bytes, old(nextGeneration) + 1 + k, writes[k].metadata)
      {
        ghost var before := View();
        var write := writes[i];
        nextGeneration := nextGeneration + 1;
        var stored := StoredObject(write.bytes, nextGeneration, write.metadata);
        objects := objects[write.path := stored];
        versions := versions[(write.path, nextGeneration) := stored];
        committed := committed + [stored];
        assert View() == before.Write(writes[i]);
        assert writes[i..][1..] == writes[i + 1..];
        i := i + 1;
      }
      r := Success(committed);
    }
  }
}
