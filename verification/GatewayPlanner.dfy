/** inkbridge-drive-gateway/src/planner.rs: deciding what a Drive change or a broker output means, and
    recording it in the checkpoint.

    Decisions are functions of the checkpoint. Each commit is a function to an Outcome, the result and the
    checkpoint it leaves, also when it fails; GatewayState performs the same commits in place. */
module GatewayPlanner {
  import opened Wrappers
  import opened Model
  import opened Texts
  import opened Gateway

  // ---------------------------------------------------------------- drive inputs

  datatype PreparedInput = PreparedInput(
    eventId: string,
    fileId: string,
    objectPath: string,
    contentSha256: string,
    documentId: string,
    source: DeviceSide,
    sourceRevision: u64,
    basedOn: RevisionPair,
    canonicalFrontier: RevisionPair,
    payloadKind: DevicePayloadKind)

  datatype InputDecision =
    | Ignore(reason: string)
    | Duplicate(eventId: string)
    | Deferred(fileId: string, pendingEventId: string)
    | Unbound(fileId: string)
    | Upload(input: PreparedInput)

  function DriveEventId(sha: Sha, file: string, version: nat, contentSha256: string): string {
    "drive-v1-" + sha(file + "\0" + Decimal(version) + "\0" + contentSha256)
  }

  function SupportedPayloadKind(source: DeviceSide, mimeType: string): Option<DevicePayloadKind> {
    if source.Boox? && mimeType == "application/pdf" then Some(DeviceView)
    else if source.Boox? && mimeType == "application/json" then Some(BooxOperationManifest)
    else if source.Supernote? && mimeType == "application/json" then Some(DeviceView)
    else None
  }

  predicate Generated(file: FileRevision) {
    Property(file.appProperties, GeneratedBy) in {Some(BROKER_PRODUCER), Some(GATEWAY_PRODUCER)}
  }

  function AcceptedContent(c: Checkpoint, file: string): Option<string> {
    if file in c.accepted then Some(c.accepted[file]) else None
  }

  /** The file has an input pending. */
  predicate HasPending(c: Checkpoint, file: string) {
    exists e :: e in c.pendingInputs && c.pendingInputs[e].fileId == file
  }

  function Max(a: u64, b: u64): u64 {
    if a < b then b else a
  }

  function InputPath(sha: Sha, source: DeviceSide, documentId: string, eventId: string, kind: DevicePayloadKind): string {
    FolderName(source) + "/" + documentId + "/drive/" + sha(eventId) + "." + (if kind.DeviceView? && source.Boox? then "pdf" else "json")
  }

  /** What is left to decide about a bound, live, fresh change. */
  ghost function PlanUpload(sha: Sha, config: Config, c: Checkpoint, file: FileRevision, binding: Binding, hash: string, frontier: RevisionPair)
    : Result<InputDecision, string>
    requires binding.SideFor(file.fileId).Some?
  {
    var source := binding.SideFor(file.fileId).value;
    var eventId := DriveEventId(sha, file.fileId, file.version, hash);
    if config.Folder(source) !in file.parents then Success(Ignore("outside its device folder"))
    else
      match SupportedPayloadKind(source, file.mimeType)
      case None => Success(Ignore("unsupported MIME type"))
      case Some(kind) =>
        if file.fileId !in c.frontiers then Failure("bound Drive file lacks an observed revision frontier")
        else
          var basedOn := c.frontiers[file.fileId];
          var newest := Max(basedOn.Get(source), frontier.Get(source));
          if newest == U64_MAX then Failure("source revision overflow")
          else
            Success(Upload(PreparedInput(
                             eventId, file.fileId, InputPath(sha, source, binding.documentId, eventId, kind), hash, binding.documentId,
                             source, newest + 1, basedOn, frontier, kind)))
  }

  ghost function PendingEvent(c: Checkpoint, file: string): string
    requires HasPending(c, file)
  {
    var e :| e in c.pendingInputs && c.pendingInputs[e].fileId == file;
    c.pendingInputs[e].eventId
  }

  ghost function PrepareInput(sha: Sha, config: Config, c: Checkpoint, change: DriveChange, bytes: string, frontier: RevisionPair)
    : Result<InputDecision, string>
  {
    var file := change.file;
    if !config.Valid() || !Valid(c) then Failure("invalid configuration or checkpoint")
    else if file.trashed then Success(Ignore("trashed"))
    else
      match BindingFor(c, file.fileId)
      case None => Success(if Generated(file) then Ignore("uncommitted generated file") else Unbound(file.fileId))
      case Some(binding) =>
        var hash := sha(bytes);
        var eventId := DriveEventId(sha, file.fileId, file.version, hash);
        if file.size != |bytes| then Failure("download length does not match declared size")
        else if HasPending(c, file.fileId) then Success(Deferred(file.fileId, PendingEvent(c, file.fileId)))
        else if AcceptedContent(c, file.fileId) == Some(hash) then Success(Duplicate(eventId))
        else if eventId in c.processed then Success(Duplicate(eventId))
        else PlanUpload(sha, config, c, file, binding, hash, frontier)
  }

  /** What a commit does to a valid checkpoint: refuse, find nothing to do, or change it and then validate
      the changed checkpoint. A failing closing validation does not undo the change. */
  datatype Outcome = Refused(reason: string) | Unchanged | Changed(next: Checkpoint) {
    /** The checkpoint in memory afterwards. */
    function After(c: Checkpoint): Checkpoint {
      if Changed? then next else c
    }

    predicate Succeeds() {
      Unchanged? || (Changed? && Valid(next))
    }
  }

  function PendingFor(input: PreparedInput, generation: nat): PendingInput {
    PendingInput(input.eventId, input.fileId, input.objectPath, generation, input.documentId, input.source, input.contentSha256,
                 input.basedOn, input.basedOn.Set(input.source, input.sourceRevision))
  }

  ghost function CommitInput(c: Checkpoint, input: PreparedInput, generation: nat): Outcome {
    var pending := PendingFor(input, generation);
    if generation == 0 then Refused("evidence generation must be nonzero")
    else
      match BindingFor(c, input.fileId)
      case None => Refused("unbound Drive input file")
      case Some(binding) =>
        if binding.documentId != input.documentId || binding.SideFor(input.fileId) != Some(input.source) then
          Refused("file no longer matches its prepared binding")
        else if Max(input.basedOn.Get(input.source), input.canonicalFrontier.Get(input.source)) == U64_MAX then
          Refused("source revision overflow")
        else if input.sourceRevision != Max(input.basedOn.Get(input.source), input.canonicalFrontier.Get(input.source)) + 1 then
          Refused("invalid source revision")
        else if input.fileId !in c.frontiers || c.frontiers[input.fileId] != input.basedOn then
          Refused("stale against its file frontier")
        else if input.eventId in c.pendingInputs then
          if c.pendingInputs[input.eventId] == pending then Unchanged else Refused("pending event has different content")
        else if HasPending(c, input.fileId) then Refused("file already has a pending input")
        else if input.eventId in c.processed then
          if AcceptedContent(c, input.fileId) == Some(input.contentSha256) then Unchanged
          else Refused("event was already finalized with different content")
        else
          Changed(c.(processed := c.processed + {input.eventId}, pendingInputs := c.pendingInputs[input.eventId := pending]))
  }

  function AcceptInput(c: Checkpoint, eventId: string): Outcome {
    if eventId !in c.pendingInputs then Unchanged
    else
      var pending := c.pendingInputs[eventId];
      if !(pending.fileId in c.frontiers && c.frontiers[pending.fileId] == pending.previousFrontier) then
        Refused("stale against its file frontier")
      else
        Changed(c.(pendingInputs := c.pendingInputs - {eventId},
                frontiers := c.frontiers[pending.fileId := pending.proposedFrontier],
                accepted := c.accepted[pending.fileId := pending.contentSha256]))
  }

  function RejectInput(c: Checkpoint, eventId: string): Outcome {
    Changed(c.(pendingInputs := c.pendingInputs - {eventId}))
  }

  // ---------------------------------------------------------------- registering originals

  datatype RegistrationApproval = RegistrationApproval(fileId: string, fileVersion: nat, contentSha256: string)

  datatype PreparedRegistration = PreparedRegistration(
    eventId: string, fileId: string, source: DeviceSide, documentId: string, originalSha256: string, objectPath: string)

  datatype RegistrationDecision =
    | IgnoreOriginal(reason: string)
    | DuplicateOriginal(eventId: string)
    | RegisterOriginal(registration: PreparedRegistration)

  function PrepareRegistration(sha: Sha, config: Config, c: Checkpoint, change: DriveChange, bytes: string, approval: RegistrationApproval)
    : Result<RegistrationDecision, string>
  {
    var file := change.file;
    if !config.Valid() || !Valid(c) then Failure("invalid configuration or checkpoint")
    else if file.trashed || file.mimeType != "application/pdf" then Success(IgnoreOriginal("not a live PDF"))
    else if Generated(file) then Success(IgnoreOriginal("generated PDF"))
    else if file.size != |bytes| then Failure("download length does not match declared size")
    else if (config.booxFolder in file.parents) == (config.supernoteFolder in file.parents) then
      Success(IgnoreOriginal("not inside exactly one device folder"))
    else
      var source := if config.booxFolder in file.parents then Boox else Supernote;
      var hash := sha(bytes);
      var eventId := DriveEventId(sha, file.fileId, file.version, hash);
      if approval != RegistrationApproval(file.fileId, file.version, hash) then Success(IgnoreOriginal("not approved"))
      else if eventId in c.processed then Success(DuplicateOriginal(eventId))
      else Success(RegisterOriginal(PreparedRegistration(
                                      eventId, file.fileId, source, "inkbridge-doc-v1-" + hash, hash, "Staging/drive-" + sha(eventId) + ".pdf")))
  }

  function WithFile(c: Checkpoint, documentId: string, originalSha256: string, side: DeviceSide, file: string): map<string, Binding> {
    var binding := if documentId in c.documents then c.documents[documentId] else Binding(documentId, originalSha256, {}, {});
    c.documents[documentId := binding.With(side, file)]
  }

  ghost function CommitRegistration(c: Checkpoint, registration: PreparedRegistration): Outcome {
    match BindingFor(c, registration.fileId)
    case Some(existing) =>
      if existing.documentId == registration.documentId && existing.SideFor(registration.fileId) == Some(registration.source)
      then Unchanged else Refused("already bound elsewhere")
    case None =>
      if registration.documentId in c.documents && c.documents[registration.documentId].originalSha256 != registration.originalSha256 then
        Refused("collides with a different original")
      else if registration.eventId in c.processed then
        Refused("processed original registration lacks its file binding")
      else
        Changed(c.(processed := c.processed + {registration.eventId},
                accepted := c.accepted[registration.fileId := registration.originalSha256],
                frontiers := c.frontiers[registration.fileId := NO_REVISIONS],
                documents := WithFile(c, registration.documentId, registration.originalSha256, registration.source, registration.fileId)))
  }

  // ---------------------------------------------------------------- binding device artifacts

  datatype ArtifactApproval = ArtifactApproval(
    fileId: string, fileVersion: nat, contentSha256: string, documentId: string, source: DeviceSide, basedOn: RevisionPair)

  datatype PreparedArtifact = PreparedArtifact(
    fileId: string, fileVersion: nat, contentSha256: string, documentId: string, source: DeviceSide,
    basedOn: RevisionPair, canonicalFrontier: RevisionPair)

  datatype ArtifactDecision =
    | IgnoreArtifact(reason: string)
    | AlreadyBound(fileId: string)
    | BindArtifact(artifact: PreparedArtifact)

  ghost function PrepareArtifact(
    sha: Sha, config: Config, c: Checkpoint, change: DriveChange, bytes: string, approval: ArtifactApproval, frontier: RevisionPair)
    : Result<ArtifactDecision, string>
  {
    var file := change.file;
    if !config.Valid() || !Valid(c) then Failure("invalid configuration or checkpoint")
    else if file.trashed then Success(IgnoreArtifact("trashed"))
    else
      match BindingFor(c, file.fileId)
      case Some(existing) =>
        if existing.documentId == approval.documentId && existing.SideFor(file.fileId) == Some(approval.source)
        then Success(AlreadyBound(file.fileId)) else Failure("already bound elsewhere")
      case None =>
        if approval.documentId !in c.documents then Success(IgnoreArtifact("unknown document"))
        else if Generated(file) then Success(IgnoreArtifact("uncommitted generated file"))
        else if config.Folder(approval.source) !in file.parents || config.Folder(approval.source.Other()) in file.parents then
          Success(IgnoreArtifact("not inside only its approved folder"))
        else if SupportedPayloadKind(approval.source, file.mimeType).None? then Success(IgnoreArtifact("unsupported MIME type"))
        else if file.size != |bytes| then Failure("download length does not match declared size")
        else if file.version == 0 || approval.fileId != file.fileId || approval.fileVersion != file.version
                || approval.contentSha256 != sha(bytes) then Success(IgnoreArtifact("not approved"))
        else if !approval.basedOn.Within(frontier) then Success(IgnoreArtifact("causal base is ahead of the broker"))
        else Success(BindArtifact(PreparedArtifact(
                                    file.fileId, file.version, sha(bytes), approval.documentId, approval.source, approval.basedOn, frontier)))
  }

  ghost function CommitArtifact(c: Checkpoint, artifact: PreparedArtifact): Outcome {
    if !artifact.basedOn.Within(artifact.canonicalFrontier) then Refused("causal base is ahead of its broker frontier")
    else
      match BindingFor(c, artifact.fileId)
      case Some(existing) =>
        if existing.documentId == artifact.documentId && existing.SideFor(artifact.fileId) == Some(artifact.source)
        then Unchanged else Refused("already bound elsewhere")
      case None =>
        if artifact.documentId !in c.documents then Refused("unknown document")
        else
          Changed(c.(documents := WithFile(c, artifact.documentId, "", artifact.source, artifact.fileId),
                 frontiers := c.frontiers[artifact.fileId := artifact.basedOn]))
  }

  // ---------------------------------------------------------------- drive outputs

  datatype BrokerOutput = BrokerOutput(
    objectPath: string, generation: nat, documentId: string, target: DeviceSide, eventId: string,
    sourceRevisions: RevisionPair, contentSha256: string, extension: string)

  datatype OutputDecision =
    | DuplicateOutput(deliveryId: string)
    | ReserveOutput(output: PreparedOutput)
    | ReconcileOutput(output: PreparedOutput)
    | CreateOutput(output: PreparedOutput)
    | ExistingOutput(output: PreparedOutput, fileId: string, fileVersion: nat)

  function DeliveryId(sha: Sha, output: BrokerOutput): string {
    "drive-delivery-v1-" + sha(output.objectPath + "\0" + Decimal(output.generation) + "\0" + output.documentId + "\0"
                               + output.eventId + "\0" + output.contentSha256)
  }

  function WithoutDots(s: string): string {
    if s != [] && s[0] == '.' then WithoutDots(s[1..]) else s
  }

  function SideName(side: DeviceSide): string {
    match side
    case Boox => "boox"
    case Supernote => "supernote"
  }

  function OutputProperties(output: BrokerOutput, deliveryId: string): Properties {
    map[
      GeneratedBy := BROKER_PRODUCER,
      SourceEventId := output.eventId,
      DocumentKey := output.documentId,
      SourceRevisions := Decimal(output.sourceRevisions.boox) + ":" + Decimal(output.sourceRevisions.supernote),
      ContentHash := output.contentSha256,
      ObjectGeneration := Decimal(output.generation),
      DeliveryKey := deliveryId]
  }

  /** The delivery an output asks for, before a Drive file is reserved for it. */
  function Planned(sha: Sha, config: Config, output: BrokerOutput): PreparedOutput
    requires |sha(output.eventId)| >= 16
  {
    var deliveryId := DeliveryId(sha, output);
    PreparedOutput(
      deliveryId, "", output.objectPath, output.generation, output.documentId, output.target, output.contentSha256,
      output.sourceRevisions, config.Folder(output.target),
      "inkbridge-" + SideName(output.target) + "-r" + Decimal(output.sourceRevisions.boox) + "-r"
      + Decimal(output.sourceRevisions.supernote) + "-" + sha(output.eventId)[..16] + "." + WithoutDots(output.extension),
      OutputProperties(output, deliveryId))
  }

  function PrepareOutput(sha: Sha, config: Config, c: Checkpoint, output: BrokerOutput): Result<OutputDecision, string>
    requires |sha(output.eventId)| >= 16
  {
    var deliveryId := DeliveryId(sha, output);
    if !config.Valid() || !Valid(c) then Failure("invalid configuration or checkpoint")
    else if output.documentId !in c.documents then Failure("output references unbound document")
    else if output.generation == 0 || |output.contentSha256| != 64 || IsBlank(output.eventId) then Failure("output marker is incomplete")
    else if deliveryId in c.delivered then Success(DuplicateOutput(deliveryId))
    else if WithoutDots(output.extension) !in {"pdf", "json"} then Failure("unsupported output extension")
    else
      var prepared := Planned(sha, config, output);
      if deliveryId in c.pendingOutputs then
        if c.pendingOutputs[deliveryId] != prepared.(fileId := c.pendingOutputs[deliveryId].fileId)
        then Failure("pending delivery has different content")
        else Success(ReconcileOutput(c.pendingOutputs[deliveryId]))
      else Success(ReserveOutput(prepared))
  }

  function Reserve(c: Checkpoint, output: PreparedOutput): Outcome {
    if IsBlank(output.fileId) then Refused("a pre-generated file ID is required")
    else if output.deliveryId in c.delivered then Unchanged
    else if output.deliveryId in c.pendingOutputs && c.pendingOutputs[output.deliveryId] != output then
      Refused("pending delivery has different content")
    else Changed(c.(pendingOutputs := c.pendingOutputs[output.deliveryId := output]))
  }

  predicate Matches(file: FileRevision, output: PreparedOutput) {
    && file.fileId == output.fileId && !file.trashed && file.version != 0
    && output.parentFolder in file.parents
    && forall k :: k in output.appProperties ==> Property(file.appProperties, k) == Some(output.appProperties[k])
  }

  function Reconcile(config: Config, c: Checkpoint, output: PreparedOutput, files: seq<FileRevision>): Result<OutputDecision, string> {
    if !config.Valid() || !Valid(c) then Failure("invalid configuration or checkpoint")
    else if output.parentFolder != config.Folder(output.target) then Failure("targets an unexpected folder")
    else if !(output.deliveryId in c.pendingOutputs && c.pendingOutputs[output.deliveryId] == output) then Failure("does not match its reservation")
    else if files == [] then Success(CreateOutput(output))
    else if |files| > 1 then Failure("multiple matching files")
    else if !Matches(files[0], output) then Failure("existing file does not match its reserved output")
    else Success(ExistingOutput(output, files[0].fileId, files[0].version))
  }

  function Delivery(output: PreparedOutput, fileVersion: nat): DeliveredOutput {
    DeliveredOutput(output.deliveryId, output.fileId, fileVersion, output.documentId, output.target, output.contentSha256, output.sourceRevisions)
  }

  function DeliveredCheckpoint(c: Checkpoint, output: PreparedOutput, fileVersion: nat, event: string): Checkpoint {
    c.(documents := WithFile(c, output.documentId, "", output.target, output.fileId),
    processed := c.processed + {event},
    accepted := c.accepted[output.fileId := output.contentSha256],
    frontiers := c.frontiers[output.fileId := output.sourceRevisions],
    delivered := c.delivered[output.deliveryId := Delivery(output, fileVersion)],
    pendingOutputs := c.pendingOutputs - {output.deliveryId})
  }

  ghost function CommitOutput(sha: Sha, c: Checkpoint, output: PreparedOutput, fileId: string, fileVersion: nat): Outcome {
    if IsBlank(fileId) || fileVersion == 0 then Refused("created output identity is incomplete")
    else if fileId != output.fileId then Refused("does not use its reserved file ID")
    else if output.deliveryId in c.delivered then
      if c.delivered[output.deliveryId] == Delivery(output, fileVersion) then Unchanged
      else Refused("already committed to another file revision")
    else if !(output.deliveryId in c.pendingOutputs && c.pendingOutputs[output.deliveryId] == output) then
      Refused("was not durably reserved")
    else if BindingFor(c, fileId).Some?
            && !(BindingFor(c, fileId).value.documentId == output.documentId
                 && BindingFor(c, fileId).value.SideFor(fileId) == Some(output.target)) then
      Refused("file is already bound elsewhere")
    else if output.documentId !in c.documents then Refused("unbound output document")
    else Changed(DeliveredCheckpoint(c, output, fileVersion, DriveEventId(sha, fileId, fileVersion, output.contentSha256)))
  }

  function WithToken(c: Checkpoint, token: string): Checkpoint {
    c.(nextPageToken := Some(token))
  }
}
