/** inkbridge-drive-gateway/src/model.rs: the gateway's checkpoint, its bindings, and its validation. */
module Gateway {
  import opened Wrappers
  import opened Model
  import opened Texts

  const SCHEMA_VERSION: nat := 1
  const GATEWAY_PRODUCER := "inkbridge-drive-gateway"

  /** The custom properties the gateway sets on a Drive file it creates. */
  datatype PropertyKey =
    | GeneratedBy | SourceEventId | DocumentKey | SourceRevisions | ContentHash | ObjectGeneration | DeliveryKey
    | OtherProperty(name: string)

  type Properties = map<PropertyKey, string>

  // ---------------------------------------------------------------- strings

  predicate StartsWith(s: string, prefix: string) {
    prefix == [] || (s != [] && s[0] == prefix[0] && StartsWith(s[1..], prefix[1..]))
  }

  predicate Contains(s: string, part: string) {
    StartsWith(s, part) || (s != [] && Contains(s[1..], part))
  }

  lemma {:induction false} StartsWithMeaning(s: string, prefix: string)
    ensures StartsWith(s, prefix) <==> |prefix| <= |s| && s[..|prefix|] == prefix
  {
    if prefix != [] && s != [] {
      StartsWithMeaning(s[1..], prefix[1..]);
      assert |prefix| <= |s| ==> s[..|prefix|] == [s[0]] + s[1..][..|prefix| - 1];
      assert prefix == [prefix[0]] + prefix[1..];
    }
  }

  lemma {:induction false} ContainsAfter(s: string, rest: string, part: string)
    requires StartsWith(rest, part)
    ensures Contains(s + rest, part)
  {
    if s == [] {
      assert s + rest == rest;
    } else {
      ContainsAfter(s[1..], rest, part);
      assert (s + rest)[1..] == s[1..] + rest;
    }
  }

  predicate IsHexDigit(c: char) {
    '0' <= c <= '9' || 'a' <= c <= 'f' || 'A' <= c <= 'F'
  }

  predicate IsHexHash(s: string) {
    |s| == 64 && forall i :: 0 <= i < |s| ==> IsHexDigit(s[i])
  }

  /** SHA-256 in hex. Nothing here needs more of it than its shape. */
  type Sha = string -> string

  ghost predicate HexSha(sha: Sha) {
    forall s :: IsHexHash(sha(s))
  }

  // ---------------------------------------------------------------- configuration and files

  datatype Config = Config(schemaVersion: nat, booxFolder: string, supernoteFolder: string) {
    function Folder(side: DeviceSide): string {
      match side
      case Boox => booxFolder
      case Supernote => supernoteFolder
    }

    predicate Valid() {
      && schemaVersion == SCHEMA_VERSION
      && IsDriveId(booxFolder) && IsDriveId(supernoteFolder)
      && booxFolder != supernoteFolder
    }
  }

  predicate IsDriveIdChar(c: char) {
    '0' <= c <= '9' || 'a' <= c <= 'z' || 'A' <= c <= 'Z' || c == '-' || c == '_'
  }

  predicate IsDriveId(s: string) {
    10 <= |s| <= 200 && forall i :: 0 <= i < |s| ==> IsDriveIdChar(s[i])
  }

  datatype FileRevision = FileRevision(
    fileId: string,
    name: string,
    version: nat,
    mimeType: string,
    parents: seq<string>,
    size: nat,
    trashed: bool,
    appProperties: Properties)

  /** One entry of the change feed. */
  datatype DriveChange = DriveChange(file: FileRevision)

  // ---------------------------------------------------------------- the checkpoint

  datatype Binding = Binding(documentId: string, originalSha256: string, booxFiles: set<string>, supernoteFiles: set<string>) {
    function SideFor(file: string): Option<DeviceSide> {
      if file in booxFiles && file !in supernoteFiles then Some(Boox)
      else if file !in booxFiles && file in supernoteFiles then Some(Supernote)
      else None
    }

    function Files(): set<string> {
      booxFiles + supernoteFiles
    }

    function With(side: DeviceSide, file: string): Binding {
      match side
      case Boox => this.(booxFiles := booxFiles + {file})
      case Supernote => this.(supernoteFiles := supernoteFiles + {file})
    }
  }

  datatype PendingInput = PendingInput(
    eventId: string,
    fileId: string,
    objectPath: string,
    generation: nat,
    documentId: string,
    source: DeviceSide,
    contentSha256: string,
    previousFrontier: RevisionPair,
    proposedFrontier: RevisionPair)

  datatype PreparedOutput = PreparedOutput(
    deliveryId: string,
    fileId: string,
    objectPath: string,
    generation: nat,
    documentId: string,
    target: DeviceSide,
    contentSha256: string,
    sourceRevisions: RevisionPair,
    parentFolder: string,
    fileName: string,
    appProperties: Properties)

  datatype DeliveredOutput = DeliveredOutput(
    deliveryId: string,
    fileId: string,
    fileVersion: nat,
    documentId: string,
    target: DeviceSide,
    contentSha256: string,
    sourceRevisions: RevisionPair)

  datatype Checkpoint = Checkpoint(
    schemaVersion: nat,
    nextPageToken: Option<string>,
    documents: map<string, Binding>,
    processed: set<string>,
    accepted: map<string, string>,
    frontiers: map<string, RevisionPair>,
    pendingInputs: map<string, PendingInput>,
    pendingOutputs: map<string, PreparedOutput>,
    delivered: map<string, DeliveredOutput>)

  const EMPTY := Checkpoint(SCHEMA_VERSION, None, map[], {}, map[], map[], map[], map[], map[])

  function FolderName(side: DeviceSide): string {
    match side
    case Boox => "BOOX_Folder"
    case Supernote => "Supernote_Folder"
  }

  /** An object path under the side's folder that names the document. */
  predicate NamesDocument(path: string, side: DeviceSide, documentId: string) {
    StartsWith(path, FolderName(side) + "/") && Contains(path, "/" + documentId + "/")
  }

  function Property(properties: Properties, key: PropertyKey): Option<string> {
    if key in properties then Some(properties[key]) else None
  }

  // ---------------------------------------------------------------- validity, clause by clause

  predicate BindingOk(d: string, b: Binding) {
    && d == b.documentId && |b.originalSha256| == 64 && d == "inkbridge-doc-v1-" + b.originalSha256
    && b.booxFiles !! b.supernoteFiles
  }

  predicate BindingsOk(c: Checkpoint) {
    && (forall d :: d in c.documents ==> BindingOk(d, c.documents[d]))
    && (forall d, e :: d in c.documents && e in c.documents && d != e ==> c.documents[d].Files() !! c.documents[e].Files())
  }

  function BoundFiles(c: Checkpoint): set<string> {
    set d, f | d in c.documents && f in c.documents[d].Files() :: f
  }

  predicate PropertiesOk(p: PreparedOutput) {
    && Property(p.appProperties, DeliveryKey) == Some(p.deliveryId)
    && Property(p.appProperties, DocumentKey) == Some(p.documentId)
    && Property(p.appProperties, ContentHash) == Some(p.contentSha256)
    && Property(p.appProperties, ObjectGeneration) == Some(Decimal(p.generation))
  }

  predicate PendingOutputOk(c: Checkpoint, d: string, p: PreparedOutput) {
    && d == p.deliveryId && d !in c.delivered && p.documentId in c.documents
    && !IsBlank(p.fileId) && !IsBlank(p.objectPath) && p.generation != 0
    && !IsBlank(p.parentFolder) && !IsBlank(p.fileName) && |p.contentSha256| == 64
    && PropertiesOk(p) && NamesDocument(p.objectPath, p.target, p.documentId)
  }

  predicate DeliveredOk(c: Checkpoint, d: string, o: DeliveredOutput) {
    && d == o.deliveryId && o.fileVersion != 0
    && o.documentId in c.documents && c.documents[o.documentId].SideFor(o.fileId) == Some(o.target)
  }

  predicate PendingInputOk(c: Checkpoint, e: string, p: PendingInput) {
    && e == p.eventId && e in c.processed
    && p.documentId in c.documents && c.documents[p.documentId].SideFor(p.fileId) == Some(p.source)
    && p.fileId in c.frontiers && c.frontiers[p.fileId] == p.previousFrontier
    && p.proposedFrontier.Get(p.source) > p.previousFrontier.Get(p.source)
    && p.proposedFrontier.Get(p.source.Other()) == p.previousFrontier.Get(p.source.Other())
    && IsHexHash(p.contentSha256)
    && !IsBlank(p.objectPath) && p.generation != 0 && NamesDocument(p.objectPath, p.source, p.documentId)
  }

  predicate OneInputPerFile(c: Checkpoint) {
    forall e, g :: e in c.pendingInputs && g in c.pendingInputs && e != g ==> c.pendingInputs[e].fileId != c.pendingInputs[g].fileId
  }

  predicate AcceptedOk(c: Checkpoint) {
    forall f :: f in c.accepted ==> f in BoundFiles(c) && IsHexHash(c.accepted[f])
  }

  predicate PendingOutputsOk(c: Checkpoint) {
    forall d :: d in c.pendingOutputs ==> PendingOutputOk(c, d, c.pendingOutputs[d])
  }

  predicate DeliveriesOk(c: Checkpoint) {
    forall d :: d in c.delivered ==> DeliveredOk(c, d, c.delivered[d])
  }

  predicate InputsOk(c: Checkpoint) {
    && (forall e :: e in c.pendingInputs ==> PendingInputOk(c, e, c.pendingInputs[e]))
    && OneInputPerFile(c)
  }

  predicate FrontiersOk(c: Checkpoint) {
    c.frontiers.Keys == BoundFiles(c)
  }

  /** What `validate` accepts. */
  predicate Valid(c: Checkpoint) {
    && c.schemaVersion == SCHEMA_VERSION
    && BindingsOk(c) && PendingOutputsOk(c) && DeliveriesOk(c)
    && AcceptedOk(c) && FrontiersOk(c) && InputsOk(c)
  }

  // ---------------------------------------------------------------- the order of keys

  /** The order of strings, in which the checkpoint's maps are gone through. */
  predicate Before(a: string, b: string) {
    b != [] && (a == [] || a[0] < b[0] || (a[0] == b[0] && Before(a[1..], b[1..])))
  }

  lemma {:induction false} BeforeTransitive(a: string, b: string, c: string)
    requires Before(a, b) && Before(b, c)
    ensures Before(a, c)
  {
    if a != [] && a[0] == b[0] == c[0] {
      BeforeTransitive(a[1..], b[1..], c[1..]);
    }
  }

  lemma {:induction false} BeforeTotal(a: string, b: string)
    ensures Before(a, b) || a == b || Before(b, a)
    ensures !(Before(a, b) && (a == b || Before(b, a)))
  {
    if a != [] && b != [] && a[0] == b[0] {
      BeforeTotal(a[1..], b[1..]);
      assert a == [a[0]] + a[1..] && b == [b[0]] + b[1..];
    }
  }

  predicate IsFirst(keys: set<string>, d: string) {
    d in keys && forall e :: e in keys ==> !Before(e, d)
  }

  lemma FirstIsUnique(keys: set<string>, d: string, e: string)
    requires IsFirst(keys, d) && IsFirst(keys, e)
    ensures d == e
  {
    BeforeTotal(d, e);
  }

  method First(keys: set<string>) returns (d: string)
    requires keys != {}
    ensures IsFirst(keys, d)
  {
    d :| d in keys;
    var rest := keys - {d};
    BeforeTotal(d, d);
    while rest != {}
      invariant rest <= keys && IsFirst(keys - rest, d)
    {
      var e :| e in rest;
      BeforeTotal(e, e);
      if Before(e, d) {
        forall f | f in keys - rest ensures !Before(f, e) {
          if Before(f, e) {
            BeforeTransitive(f, e, d);
          }
        }
        d := e;
      }
      rest := rest - {e};
    }
    assert keys - {} == keys;
  }

  lemma {:induction false} FirstExists(keys: set<string>)
    requires keys != {}
    ensures exists d :: IsFirst(keys, d)
    decreases |keys|
  {
    var x :| x in keys;
    BeforeTotal(x, x);
    if keys == {x} {
      assert IsFirst(keys, x);
    } else {
      assert keys - {x} != {};
      FirstExists(keys - {x});
      var y :| IsFirst(keys - {x}, y);
      if Before(x, y) {
        forall e | e in keys ensures !Before(e, x) {
          if Before(e, x) {
            BeforeTransitive(e, x, y);
          }
        }
        assert IsFirst(keys, x);
      } else {
        assert IsFirst(keys, y);
      }
    }
  }

  // ---------------------------------------------------------------- binding_for_file

  /** The documents that have the file on exactly one side. */
  function Holders(c: Checkpoint, file: string): set<string> {
    set d | d in c.documents && c.documents[d].SideFor(file).Some?
  }

  /** The document a file belongs to, the first in key order: in a valid checkpoint there is at most one. */
  ghost function BindingFor(c: Checkpoint, file: string): (binding: Option<Binding>)
    ensures binding.Some? ==> exists d :: IsFirst(Holders(c, file), d) && c.documents[d] == binding.value
    ensures binding.Some? ==> exists d :: d in c.documents && c.documents[d] == binding.value && binding.value.SideFor(file).Some?
    ensures binding.None? ==> forall d :: d in c.documents ==> c.documents[d].SideFor(file).None?
  {
    assert forall d :: d in c.documents && c.documents[d].SideFor(file).Some? ==> d in Holders(c, file);
    if Holders(c, file) == {} then None
    else
      FirstExists(Holders(c, file));
      var d :| IsFirst(Holders(c, file), d);
      Some(c.documents[d])
  }

  /** In a valid checkpoint a file is bound exactly when it has a binding, and to that document only. */
  lemma BindingForMeaning(c: Checkpoint, file: string)
    requires BindingsOk(c)
    ensures BindingFor(c, file).Some? <==> file in BoundFiles(c)
    ensures forall d :: d in c.documents && file in c.documents[d].Files() ==> BindingFor(c, file) == Some(c.documents[d])
    ensures BindingFor(c, file).Some? ==>
              var b := BindingFor(c, file).value; b.documentId in c.documents && c.documents[b.documentId] == b && b.SideFor(file).Some?
  {
    forall d | d in c.documents && file in c.documents[d].Files() ensures BindingFor(c, file) == Some(c.documents[d]) {
      assert BindingOk(d, c.documents[d]);
      assert c.documents[d].SideFor(file).Some?;
    }
  }

  method FindBinding(c: Checkpoint, file: string) returns (binding: Option<Binding>)
    ensures binding == BindingFor(c, file)
  {
    var todo := c.documents.Keys;
    while todo != {}
      invariant todo <= c.documents.Keys
      invariant forall d :: d in c.documents && d !in todo ==> c.documents[d].SideFor(file).None?
    {
      var d := First(todo);
      if c.documents[d].SideFor(file).Some? {
        FirstHolder(c, file, todo, d);
        return Some(c.documents[d]);
      }
      todo := todo - {d};
    }
    assert Holders(c, file) == {};
    binding := None;
  }

  lemma FirstHolder(c: Checkpoint, file: string, todo: set<string>, d: string)
    requires todo <= c.documents.Keys && IsFirst(todo, d) && c.documents[d].SideFor(file).Some?
    requires forall e :: e in c.documents && e !in todo ==> c.documents[e].SideFor(file).None?
    ensures BindingFor(c, file) == Some(c.documents[d])
  {
    assert IsFirst(Holders(c, file), d);
    var e :| IsFirst(Holders(c, file), e) && c.documents[e] == BindingFor(c, file).value;
    FirstIsUnique(Holders(c, file), d, e);
  }

  // ---------------------------------------------------------------- validate

  method ValidateBindings(c: Checkpoint) returns (r: Result<set<string>, string>)
    ensures r.Success? <==> BindingsOk(c)
    ensures r.Success? ==> r.value == BoundFiles(c)
  {
    var allFiles: set<string> := {};
    var todo := c.documents.Keys;
    while todo != {}
      invariant todo <= c.documents.Keys
      invariant forall d :: d in c.documents && d !in todo ==> BindingOk(d, c.documents[d])
      invariant forall d, e :: d in c.documents && e in c.documents && d !in todo && e !in todo && d != e ==>
                  c.documents[d].Files() !! c.documents[e].Files()
      invariant allFiles == set d, f | d in c.documents && d !in todo && f in c.documents[d].Files() :: f
    {
      var d :| d in todo;
      var b := c.documents[d];
      if !BindingOk(d, b) {
        return Failure("invalid document binding");
      }
      var files := b.Files();
      ghost var before := allFiles;
      while files != {}
        invariant files <= b.Files() && allFiles == before + (b.Files() - files)
        invariant forall f :: f in b.Files() && f !in files ==> f !in before
      {
        var f :| f in files;
        if f in allFiles {
          assert f in before && f in b.Files();
          var e :| e in c.documents && e !in todo && f in c.documents[e].Files();
          return Failure("Drive file is bound to more than one document");
        }
        allFiles := allFiles + {f};
        files := files - {f};
      }
      forall e | e in c.documents && e !in todo ensures c.documents[e].Files() !! b.Files() {
        assert forall f :: f in c.documents[e].Files() ==> f in before;
      }
      todo := todo - {d};
    }
    r := Success(allFiles);
  }

  lemma BoundAsPlanned(c: Checkpoint, e: string, p: PendingInput)
    requires BindingsOk(c) && PendingInputOk(c, e, p)
    ensures BindingFor(c, p.fileId).Some?
    ensures BindingFor(c, p.fileId).value.documentId == p.documentId && BindingFor(c, p.fileId).value.SideFor(p.fileId) == Some(p.source)
  {
    BindingForMeaning(c, p.fileId);
  }

  /** The inputs outside `todo` are in order, and `files` are theirs. */
  ghost predicate InputsChecked(c: Checkpoint, todo: set<string>, files: set<string>) {
    && todo <= c.pendingInputs.Keys
    && (forall e :: e in c.pendingInputs && e !in todo ==> PendingInputOk(c, e, c.pendingInputs[e]))
    && (forall e, g :: e in c.pendingInputs && g in c.pendingInputs && e !in todo && g !in todo && e != g ==>
          c.pendingInputs[e].fileId != c.pendingInputs[g].fileId)
    && files == set e | e in c.pendingInputs && e !in todo :: c.pendingInputs[e].fileId
  }

  lemma OneMoreInput(c: Checkpoint, todo: set<string>, files: set<string>, e: string)
    requires InputsChecked(c, todo, files) && e in todo
    ensures c.pendingInputs[e].fileId in files ==> !InputsOk(c)
    ensures c.pendingInputs[e].fileId !in files && PendingInputOk(c, e, c.pendingInputs[e]) ==>
              InputsChecked(c, todo - {e}, files + {c.pendingInputs[e].fileId})
  {
    if c.pendingInputs[e].fileId in files {
      var g :| g in c.pendingInputs && g !in todo && c.pendingInputs[g].fileId == c.pendingInputs[e].fileId;
    }
  }

  method ValidateInputs(c: Checkpoint) returns (ok: bool)
    requires BindingsOk(c)
    ensures ok <==> InputsOk(c)
  {
    var pendingFiles: set<string> := {};
    var todo := c.pendingInputs.Keys;
    while todo != {}
      invariant InputsChecked(c, todo, pendingFiles)
    {
      var e :| e in todo;
      var p := c.pendingInputs[e];
      OneMoreInput(c, todo, pendingFiles, e);
      if p.fileId in pendingFiles {
        return false;
      }
      var binding := FindBinding(c, p.fileId);
      if binding.None? || binding.value.documentId != p.documentId || binding.value.SideFor(p.fileId) != Some(p.source) {
        if PendingInputOk(c, e, p) {
          BoundAsPlanned(c, e, p);
          assert false;
        }
        return false;
      }
      if !PendingInputOk(c, e, p) {
        return false;
      }
      pendingFiles := pendingFiles + {p.fileId};
      todo := todo - {e};
    }
    ok := true;
  }

  method ValidateOutputs(c: Checkpoint) returns (ok: bool)
    ensures ok <==> PendingOutputsOk(c) && DeliveriesOk(c)
  {
    if exists d :: d in c.pendingOutputs && !PendingOutputOk(c, d, c.pendingOutputs[d]) {
      return false;
    }
    if exists d :: d in c.delivered && !DeliveredOk(c, d, c.delivered[d]) {
      return false;
    }
    ok := true;
  }

  method ValidateFiles(c: Checkpoint, allFiles: set<string>) returns (ok: bool)
    requires allFiles == BoundFiles(c)
    ensures ok <==> AcceptedOk(c) && FrontiersOk(c)
  {
    if exists f :: f in c.accepted && (f !in allFiles || !IsHexHash(c.accepted[f])) {
      return false;
    }
    if exists f :: f in allFiles && f !in c.frontiers {
      return false;
    }
    if exists f :: f in c.frontiers && f !in allFiles {
      return false;
    }
    ok := true;
  }

  method Validate(c: Checkpoint) returns (ok: bool)
    ensures ok <==> Valid(c)
  {
    if c.schemaVersion != SCHEMA_VERSION {
      return false;
    }
    var allFiles := ValidateBindings(c);
    if allFiles.Failure? {
      return false;
    }
    ok := ValidateOutputs(c);
    if !ok {
      return false;
    }
    ok := ValidateFiles(c, allFiles.value);
    if !ok {
      return false;
    }
    ok := ValidateInputs(c);
  }
}
