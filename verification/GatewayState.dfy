/** The gateway's checkpoint as an object: the planner's commits performed in place, on its maps and sets. */
module GatewayState {
  import opened Wrappers
  import opened Model
  import opened Gateway
  import opened GatewayPlanner

  lemma OnePending(c: Checkpoint, e: string)
    requires InputsOk(c) && e in c.pendingInputs
    ensures HasPending(c, c.pendingInputs[e].fileId) && PendingEvent(c, c.pendingInputs[e].fileId) == e
  {
    assert PendingInputOk(c, e, c.pendingInputs[e]);
  }

  method FindPending(c: Checkpoint, file: string) returns (event: Option<string>)
    requires InputsOk(c)
    ensures event.Some? <==> HasPending(c, file)
    ensures event.Some? ==> event.value == PendingEvent(c, file)
  {
    var todo := c.pendingInputs.Keys;
    while todo != {}
      invariant todo <= c.pendingInputs.Keys
      invariant forall e :: e in c.pendingInputs && e !in todo ==> c.pendingInputs[e].fileId != file
    {
      var e :| e in todo;
      if c.pendingInputs[e].fileId == file {
        OnePending(c, e);
        return Some(e);
      }
      todo := todo - {e};
    }
    event := None;
  }

  method AnyPending(c: Checkpoint, file: string) returns (found: bool)
    ensures found <==> HasPending(c, file)
  {
    var todo := c.pendingInputs.Keys;
    while todo != {}
      invariant todo <= c.pendingInputs.Keys
      invariant forall e :: e in c.pendingInputs && e !in todo ==> c.pendingInputs[e].fileId != file
    {
      var e :| e in todo;
      if c.pendingInputs[e].fileId == file {
        return true;
      }
      todo := todo - {e};
    }
    found := false;
  }

  /** What is left to decide about a bound, live, fresh change. */
  method DecideUpload(sha: Sha, config: Config, c: Checkpoint, file: FileRevision, binding: Binding, hash: string, frontier: RevisionPair)
    returns (r: Result<InputDecision, string>)
    requires binding.SideFor(file.fileId).Some?
    ensures r == PlanUpload(sha, config, c, file, binding, hash, frontier)
  {
    var eventId := DriveEventId(sha, file.fileId, file.version, hash);
    var source := binding.SideFor(file.fileId).value;
    if config.Folder(source) !in file.parents {
      return Success(Ignore("outside its device folder"));
    }
    var kind := SupportedPayloadKind(source, file.mimeType);
    if kind.None? {
      return Success(Ignore("unsupported MIME type"));
    }
    if file.fileId !in c.frontiers {
      return Failure("bound Drive file lacks an observed revision frontier");
    }
    var basedOn := c.frontiers[file.fileId];
    var newest := Max(basedOn.Get(source), frontier.Get(source));
    if newest == U64_MAX {
      return Failure("source revision overflow");
    }
    r := Success(Upload(PreparedInput(
                          eventId, file.fileId, InputPath(sha, source, binding.documentId, eventId, kind.value), hash, binding.documentId,
                          source, newest + 1, basedOn, frontier, kind.value)));
  }

  /** The decision about a change to a bound file, once its binding is known. */
  method PrepareBound(sha: Sha, config: Config, c: Checkpoint, file: FileRevision, bytes: string, frontier: RevisionPair, binding: Binding)
    returns (r: Result<InputDecision, string>)
    requires config.Valid() && Valid(c) && !file.trashed && BindingFor(c, file.fileId) == Some(binding)
    ensures r == PrepareInput(sha, config, c, DriveChange(file), bytes, frontier)
  {
    if file.size != |bytes| {
      return Failure("download length does not match declared size");
    }
    var hash := sha(bytes);
    var eventId := DriveEventId(sha, file.fileId, file.version, hash);
    var pending := FindPending(c, file.fileId);
    if pending.Some? {
      return Success(Deferred(file.fileId, pending.value));
    }
    if AcceptedContent(c, file.fileId) == Some(hash) || eventId in c.processed {
      return Success(Duplicate(eventId));
    }
    r := DecideUpload(sha, config, c, file, binding, hash, frontier);
  }

  method PrepareDriveInput(sha: Sha, config: Config, c: Checkpoint, change: DriveChange, bytes: string, frontier: RevisionPair)
    returns (r: Result<InputDecision, string>)
    ensures r == PrepareInput(sha, config, c, change, bytes, frontier)
  {
    var valid := Validate(c);
    if !config.Valid() || !valid {
      return Failure("invalid configuration or checkpoint");
    }
    if change.file.trashed {
      return Success(Ignore("trashed"));
    }
    var binding := FindBinding(c, change.file.fileId);
    if binding.None? {
      return Success(if Generated(change.file) then Ignore("uncommitted generated file") else Unbound(change.file.fileId));
    }
    r := PrepareBound(sha, config, c, change.file, bytes, frontier, binding.value);
  }

  method PrepareDeviceArtifactBinding(
    sha: Sha, config: Config, c: Checkpoint, change: DriveChange, bytes: string, approval: ArtifactApproval, frontier: RevisionPair)
    returns (r: Result<ArtifactDecision, string>)
    ensures r == PrepareArtifact(sha, config, c, change, bytes, approval, frontier)
  {
    var file := change.file;
    var valid := Validate(c);
    if !config.Valid() || !valid {
      return Failure("invalid configuration or checkpoint");
    }
    if file.trashed {
      return Success(IgnoreArtifact("trashed"));
    }
    var existing := FindBinding(c, file.fileId);
    if existing.Some? {
      if existing.value.documentId == approval.documentId && existing.value.SideFor(file.fileId) == Some(approval.source) {
        return Success(AlreadyBound(file.fileId));
      }
      return Failure("already bound elsewhere");
    }
    if approval.documentId !in c.documents {
      return Success(IgnoreArtifact("unknown document"));
    }
    if Generated(file) {
      return Success(IgnoreArtifact("uncommitted generated file"));
    }
    if config.Folder(approval.source) !in file.parents || config.Folder(approval.source.Other()) in file.parents {
      return Success(IgnoreArtifact("not inside only its approved folder"));
    }
    if SupportedPayloadKind(approval.source, file.mimeType).None? {
      return Success(IgnoreArtifact("unsupported MIME type"));
    }
    if file.size != |bytes| {
      return Failure("download length does not match declared size");
    }
    var hash := sha(bytes);
    if file.version == 0 || approval.fileId != file.fileId || approval.fileVersion != file.version || approval.contentSha256 != hash {
      return Success(IgnoreArtifact("not approved"));
    }
    if !approval.basedOn.Within(frontier) {
      return Success(IgnoreArtifact("causal base is ahead of the broker"));
    }
    r := Success(BindArtifact(PreparedArtifact(
                                file.fileId, file.version, hash, approval.documentId, approval.source, approval.basedOn, frontier)));
  }

  class DriveGatewayCheckpoint {
    var schemaVersion: nat
    var nextPageToken: Option<string>
    var documents: map<string, Binding>
    var processed: set<string>
    var accepted: map<string, string>
    var frontiers: map<string, RevisionPair>
    var pendingInputs: map<string, PendingInput>
    var pendingOutputs: map<string, PreparedOutput>
    var delivered: map<string, DeliveredOutput>

    constructor (c: Checkpoint)
      ensures View() == c
    {
      schemaVersion, nextPageToken, documents, processed, accepted := c.schemaVersion, c.nextPageToken, c.documents, c.processed, c.accepted;
      frontiers, pendingInputs, pendingOutputs, delivered := c.frontiers, c.pendingInputs, c.pendingOutputs, c.delivered;
    }

    function View(): Checkpoint
      reads this
    {
      Checkpoint(schemaVersion, nextPageToken, documents, processed, accepted, frontiers, pendingInputs, pendingOutputs, delivered)
    }

    /** The result and the state left by a commit that validates first. */
    ghost predicate Performed(before: Checkpoint, outcome: Outcome, r: Result<(), string>)
      reads this
    {
      if !Valid(before) then r.Failure? && View() == before else Closing(before, outcome, r)
    }

    ghost predicate Closing(before: Checkpoint, outcome: Outcome, r: Result<(), string>)
      reads this
    {
      View() == outcome.After(before) && (r.Success? <==> outcome.Succeeds())
    }

    /** `validate` on the checkpoint as it is. */
    method Validated() returns (r: Result<(), string>)
      ensures r.Success? <==> Valid(View())
    {
      var valid := Validate(View());
      r := if valid then Success(()) else Failure("invalid checkpoint");
    }

    /** Adds a file to a document's side. */
    method BindFile(documentId: string, originalSha256: string, side: DeviceSide, file: string)
      modifies this`documents
      ensures documents == WithFile(old(View()), documentId, originalSha256, side, file)
    {
      var binding := if documentId in documents then documents[documentId] else Binding(documentId, originalSha256, {}, {});
      match side {
        case Boox => binding := binding.(booxFiles := binding.booxFiles + {file});
        case Supernote => binding := binding.(supernoteFiles := binding.supernoteFiles + {file});
      }
      documents := documents[documentId := binding];
    }

    method CommitDriveInput(input: PreparedInput, generation: nat) returns (r: Result<(), string>)
      modifies this
      ensures Closing(old(View()), CommitInput(old(View()), input, generation), r)
    {
      if generation == 0 {
        return Failure("evidence generation must be nonzero");
      }
      var binding := FindBinding(View(), input.fileId);
      if binding.None? {
        return Failure("unbound Drive input file");
      }
      if binding.value.documentId != input.documentId || binding.value.SideFor(input.fileId) != Some(input.source) {
        return Failure("file no longer matches its prepared binding");
      }
      var newest := Max(input.basedOn.Get(input.source), input.canonicalFrontier.Get(input.source));
      if newest == U64_MAX {
        return Failure("source revision overflow");
      }
      if input.sourceRevision != newest + 1 {
        return Failure("invalid source revision");
      }
      if input.fileId !in frontiers || frontiers[input.fileId] != input.basedOn {
        return Failure("stale against its file frontier");
      }
      var proposed := input.basedOn.Set(input.source, input.sourceRevision);
      var pending := PendingInput(input.eventId, input.fileId, input.objectPath, generation, input.documentId, input.source,
                                  input.contentSha256, input.basedOn, proposed);
      if input.eventId in pendingInputs {
        if pendingInputs[input.eventId] == pending {
          return Success(());
        }
        return Failure("pending event has different content");
      }
      var another := AnyPending(View(), input.fileId);
      if another {
        return Failure("file already has a pending input");
      }
      if input.eventId in processed {
        if AcceptedContent(View(), input.fileId) == Some(input.contentSha256) {
          return Success(());
        }
        return Failure("event was already finalized with different content");
      }
      processed := processed + {input.eventId};
      pendingInputs := pendingInputs[input.eventId := pending];
      r := Validated();
    }

    method AcceptDriveInput(eventId: string) returns (r: Result<(), string>)
      modifies this
      ensures Performed(old(View()), AcceptInput(old(View()), eventId), r)
    {
      var start := Validated();
      if start.Failure? {
        return start;
      }
      if eventId !in pendingInputs {
        return Success(());
      }
      r := TakeDriveInput(eventId);
    }

    method TakeDriveInput(eventId: string) returns (r: Result<(), string>)
      requires eventId in pendingInputs
      modifies this
      ensures Closing(old(View()), AcceptInput(old(View()), eventId), r)
    {
      var pending := pendingInputs[eventId];
      pendingInputs := pendingInputs - {eventId};
      if pending.fileId !in frontiers || frontiers[pending.fileId] != pending.previousFrontier {
        pendingInputs := pendingInputs[eventId := pending];
        assert pendingInputs == old(pendingInputs);
        return Failure("stale against its file frontier");
      }
      frontiers := frontiers[pending.fileId := pending.proposedFrontier];
      accepted := accepted[pending.fileId := pending.contentSha256];
      r := Validated();
    }

    method RejectDriveInput(eventId: string) returns (r: Result<(), string>)
      modifies this
      ensures Performed(old(View()), RejectInput(old(View()), eventId), r)
    {
      var start := Validated();
      if start.Failure? {
        return start;
      }
      pendingInputs := pendingInputs - {eventId};
      r := Validated();
    }

    method CommitOriginalRegistration(registration: PreparedRegistration) returns (r: Result<(), string>)
      modifies this
      ensures Performed(old(View()), CommitRegistration(old(View()), registration), r)
    {
      var start := Validated();
      if start.Failure? {
        return start;
      }
      var existing := FindBinding(View(), registration.fileId);
      if existing.Some? {
        if existing.value.documentId == registration.documentId && existing.value.SideFor(registration.fileId) == Some(registration.source) {
          return Success(());
        }
        return Failure("already bound elsewhere");
      }
      if registration.documentId in documents && documents[registration.documentId].originalSha256 != registration.originalSha256 {
        return Failure("collides with a different original");
      }
      if registration.eventId in processed {
        return Failure("processed original registration lacks its file binding");
      }
      processed := processed + {registration.eventId};
      accepted := accepted[registration.fileId := registration.originalSha256];
      frontiers := frontiers[registration.fileId := NO_REVISIONS];
      BindFile(registration.documentId, registration.originalSha256, registration.source, registration.fileId);
      r := Validated();
    }

    method CommitDeviceArtifactBinding(artifact: PreparedArtifact) returns (r: Result<(), string>)
      modifies this
      ensures Performed(old(View()), CommitArtifact(old(View()), artifact), r)
    {
      var start := Validated();
      if start.Failure? {
        return start;
      }
      if !artifact.basedOn.Within(artifact.canonicalFrontier) {
        return Failure("causal base is ahead of its broker frontier");
      }
      var existing := FindBinding(View(), artifact.fileId);
      if existing.Some? {
        if existing.value.documentId == artifact.documentId && existing.value.SideFor(artifact.fileId) == Some(artifact.source) {
          return Success(());
        }
        return Failure("already bound elsewhere");
      }
      if artifact.documentId !in documents {
        return Failure("unknown document");
      }
      BindFile(artifact.documentId, "", artifact.source, artifact.fileId);
      frontiers := frontiers[artifact.fileId := artifact.basedOn];
      r := Validated();
    }

    method ReserveDriveOutput(output: PreparedOutput) returns (r: Result<(), string>)
      modifies this
      ensures Performed(old(View()), Reserve(old(View()), output), r)
    {
      var start := Validated();
      if start.Failure? {
        return start;
      }
      if IsBlank(output.fileId) {
        return Failure("a pre-generated file ID is required");
      }
      if output.deliveryId in delivered {
        return Success(());
      }
      if output.deliveryId in pendingOutputs && pendingOutputs[output.deliveryId] != output {
        return Failure("pending delivery has different content");
      }
      pendingOutputs := pendingOutputs[output.deliveryId := output];
      r := Validated();
    }

    method CommitDriveOutput(sha: Sha, output: PreparedOutput, fileId: string, fileVersion: nat) returns (r: Result<(), string>)
      modifies this
      ensures Performed(old(View()), CommitOutput(sha, old(View()), output, fileId, fileVersion), r)
    {
      var start := Validated();
      if start.Failure? {
        return start;
      }
      if IsBlank(fileId) || fileVersion == 0 {
        return Failure("created output identity is incomplete");
      }
      if fileId != output.fileId {
        return Failure("does not use its reserved file ID");
      }
      var delivery := Delivery(output, fileVersion);
      if output.deliveryId in delivered {
        if delivered[output.deliveryId] == delivery {
          return Success(());
        }
        return Failure("already committed to another file revision");
      }
      if output.deliveryId !in pendingOutputs || pendingOutputs[output.deliveryId] != output {
        return Failure("was not durably reserved");
      }
      var existing := FindBinding(View(), fileId);
      if existing.Some? && !(existing.value.documentId == output.documentId && existing.value.SideFor(fileId) == Some(output.target)) {
        return Failure("file is already bound elsewhere");
      }
      if output.documentId !in documents {
        return Failure("unbound output document");
      }
      RecordDelivery(output, fileVersion, DriveEventId(sha, fileId, fileVersion, output.contentSha256));
      r := Validated();
    }

    method RecordDelivery(output: PreparedOutput, fileVersion: nat, event: string)
      modifies this
      ensures View() == DeliveredCheckpoint(old(View()), output, fileVersion, event)
    {
      BindFile(output.documentId, "", output.target, output.fileId);
      processed := processed + {event};
      accepted := accepted[output.fileId := output.contentSha256];
      frontiers := frontiers[output.fileId := output.sourceRevisions];
      delivered := delivered[output.deliveryId := Delivery(output, fileVersion)];
      pendingOutputs := pendingOutputs - {output.deliveryId};
    }

    method CommitPageToken(token: string)
      modifies this`nextPageToken
      ensures View() == WithToken(old(View()), token)
    {
      nextPageToken := Some(token);
    }
  }
}
