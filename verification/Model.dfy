/** The broker's data model: strokes, operations, the canonical document state,
    events, conflict records, and the bytes and paths they are stored under.

    Three modelling choices are used everywhere.
    - SHA-256 is a constructor, so equal digests mean equal bytes.
    - Serialised JSON is a constructor of Blob, so decoding inverts encoding.
    - A storage path is a constructor applied to the identifiers it is formatted from,
      so two paths are equal exactly when kind and identifiers are. */
module Model {
  import opened Wrappers

  const U64_MAX: int := 0xFFFF_FFFF_FFFF_FFFF

  type u64 = x: int | 0 <= x <= U64_MAX witness 0

  /** Stroke identifiers are tokens; their order stands for the order of the stable id strings. */
  type StrokeId = nat

  type EventId = string

  type DocumentId = string

  predicate IsWhitespace(c: char) {
    c == ' ' || c == '\t' || c == '\n' || c == '\r'
  }

  predicate IsBlank(s: string) {
    forall i :: 0 <= i < |s| ==> IsWhitespace(s[i])
  }

  // ---------------------------------------------------------------- devices and revisions

  datatype DeviceSide = Boox | Supernote {
    function Other(): DeviceSide {
      match this
      case Boox => Supernote
      case Supernote => Boox
    }
  }

  datatype DevicePayloadKind = DeviceView | BooxOperationManifest

  /** A revision frontier: how far each device's history has been taken into account. */
  datatype RevisionPair = RevisionPair(boox: u64, supernote: u64) {
    function Get(side: DeviceSide): u64 {
      match side
      case Boox => boox
      case Supernote => supernote
    }

    function Set(side: DeviceSide, revision: u64): RevisionPair {
      match side
      case Boox => this.(boox := revision)
      case Supernote => this.(supernote := revision)
    }

    /** Component-wise order: everything this frontier has seen, `other` has seen too. */
    predicate Within(other: RevisionPair) {
      boox <= other.boox && supernote <= other.supernote
    }
  }

  const NO_REVISIONS := RevisionPair(0, 0)

  // ---------------------------------------------------------------- strokes and operations

  datatype NativeStyle = NativeStyle(layerNum: int, thickness: int, penColor: int, penType: int)

  datatype Sample = Sample(x: real, y: real, pressure: real)

  datatype StrokeSnapshot = StrokeSnapshot(
    sourceUuid: StrokeId,
    origin: string,
    pageIndex: nat,
    nativeStyle: NativeStyle,
    samples: seq<Sample>,
    geometryFingerprint: string)

  datatype Operation =
    | UpsertStroke(sourceUuid: StrokeId, pageIndex: nat, before: Option<StrokeSnapshot>, after: StrokeSnapshot)
    | DeleteStroke(sourceUuid: StrokeId, pageIndex: nat, deleted: StrokeSnapshot)

  datatype Manifest = Manifest(sourceFileName: string, operations: seq<Operation>)

  datatype ExportPage = ExportPage(pageIndex: nat, strokes: seq<StrokeSnapshot>)

  datatype Export = Export(
    documentId: Option<DocumentId>,
    basedOn: Option<RevisionPair>,
    sourceFileName: Option<string>,
    pages: seq<ExportPage>)

  datatype Tombstone = Tombstone(deletedBy: DeviceSide, deletedAtRevision: u64, eventId: EventId)

  datatype CanonicalStroke = CanonicalStroke(
    strokeId: StrokeId,
    snapshot: StrokeSnapshot,
    lastModifiedBy: DeviceSide,
    sourceRevisions: RevisionPair,
    tombstone: Option<Tombstone>)

  type StrokeMap = map<StrokeId, CanonicalStroke>

  // ---------------------------------------------------------------- paths, bytes and metadata

  datatype Path =
    | OriginalPath(doc: DocumentId)
    | StatePath(doc: DocumentId)
    | BooxView(doc: DocumentId, fileName: string)
    | SupernoteManifest(doc: DocumentId, event: EventId)
    | ConflictIncoming(doc: DocumentId, event: EventId)
    | ConflictCurrent(doc: DocumentId, event: EventId, side: DeviceSide)
    | ResolutionMarker(doc: DocumentId, event: EventId)
    | DeviceFile(side: DeviceSide, name: string)
    | OtherPath(name: string)

  /** Paths under BOOX_Folder/ or Supernote_Folder/, where devices may write. */
  predicate InDeviceFolder(p: Path) {
    p.BooxView? || p.SupernoteManifest? || p.DeviceFile?
  }

  /** Paths only the broker writes, and only for document `d`. */
  predicate BrokerOwned(p: Path, d: DocumentId) {
    && (p.OriginalPath? || p.StatePath? || p.ConflictIncoming? || p.ConflictCurrent? || p.ResolutionMarker?)
    && p.doc == d
  }

  datatype Blob =
    | Raw(content: seq<int>)
    | StateJson(state: CanonicalDocumentState)
    | ManifestJson(manifest: Manifest)
    | ResolutionJson(record: ConflictResolutionRecord)

  datatype Digest = Sha256(preimage: Blob)

  datatype Metadata = Metadata(
    generatedBy: Option<string>,
    eventId: Option<EventId>,
    documentId: Option<DocumentId>,
    sourceRevisions: Option<RevisionPair>,
    contentSha256: Option<Digest>,
    kind: Option<string>,
    conflictEventId: Option<EventId>)

  const BROKER_PRODUCER := "inkbridge-broker"

  const RESOLUTION_KIND := "conflict-resolution"

  datatype BrokerOutputMarker = BrokerOutputMarker(
    producer: string,
    eventId: EventId,
    documentId: DocumentId,
    sourceRevisions: RevisionPair)

  // ---------------------------------------------------------------- the canonical document state

  datatype DeviceRevision = DeviceRevision(
    revision: u64,
    contentSha256: Option<Digest>,
    sourceGeneration: nat,
    sourceObjectPath: Option<Path>,
    sourceFileName: Option<string>)

  const NO_DEVICE := DeviceRevision(0, None, 0, None, None)

  datatype GeneratedView = GeneratedView(
    objectPath: Path,
    contentSha256: Digest,
    sourceRevisions: RevisionPair,
    eventId: EventId)

  datatype PreservedInput = PreservedInput(
    eventId: EventId,
    source: DeviceSide,
    objectPath: Path,
    payloadKind: DevicePayloadKind,
    preservedPath: Path,
    competingPreservedPaths: seq<Path>,
    sourceGeneration: nat,
    sourceRevision: u64,
    contentSha256: Digest,
    basedOn: RevisionPair,
    currentRevisions: RevisionPair)

  datatype ConflictResolutionStrategy = KeepCurrent | AcceptIncoming | MergePreservingCurrent

  datatype ConflictResolutionRecord = ConflictResolutionRecord(
    resolutionId: EventId,
    conflictEventId: EventId,
    strategy: ConflictResolutionStrategy,
    superseded: bool,
    source: DeviceSide,
    previousRevisions: RevisionPair,
    resultingRevisions: RevisionPair,
    appliedStrokeIds: seq<StrokeId>,
    preservedCurrentStrokeIds: seq<StrokeId>,
    markerPath: Path)

  datatype CanonicalDocumentState = CanonicalDocumentState(
    documentId: DocumentId,
    originalPdfSha256: Digest,
    originalFileName: string,
    originalPageCount: nat,
    stateRevision: nat,
    boox: DeviceRevision,
    supernote: DeviceRevision,
    lastCommonRevisions: RevisionPair,
    processedEventIds: set<EventId>,
    strokes: StrokeMap,
    sourceGenerations: map<Path, nat>,
    generatedViews: map<Path, GeneratedView>,
    conflicts: seq<PreservedInput>,
    resolvedConflicts: map<EventId, ConflictResolutionRecord>)
  {
    function Revisions(): RevisionPair {
      RevisionPair(boox.revision, supernote.revision)
    }

    function Device(side: DeviceSide): DeviceRevision {
      match side
      case Boox => boox
      case Supernote => supernote
    }

    function WithDevice(side: DeviceSide, device: DeviceRevision): CanonicalDocumentState {
      match side
      case Boox => this.(boox := device)
      case Supernote => this.(supernote := device)
    }
  }

  datatype StorageEvent = StorageEvent(
    schemaVersion: nat,
    eventId: EventId,
    documentId: DocumentId,
    source: DeviceSide,
    objectPath: Path,
    sourceGeneration: nat,
    sourceRevision: u64,
    basedOn: RevisionPair,
    contentSha256: Option<Digest>,
    payloadKind: DevicePayloadKind,
    brokerOutput: Option<BrokerOutputMarker>)
}
