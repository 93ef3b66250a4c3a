/** The gateway's checkpoint stays valid: for a plan made by the matching prepare call, when a commit's
    closing validation passes, and what every commit keeps. */
module GatewayValidity {
  import opened Wrappers
  import opened Model
  import opened Gateway
  import opened GatewayPlanner

  // ---------------------------------------------------------------- what prepare guarantees

  lemma NamedUnder(side: DeviceSide, documentId: string, rest: string)
    ensures NamesDocument(FolderName(side) + "/" + documentId + "/" + rest, side, documentId)
    ensures !IsBlank(FolderName(side) + "/" + documentId + "/" + rest)
  {
    var path, part := FolderName(side) + "/" + documentId + "/" + rest, "/" + documentId + "/";
    StartsWithMeaning(path, FolderName(side) + "/");
    StartsWithMeaning(part + rest, part);
    ContainsAfter(FolderName(side), part + rest, part);
    assert path == FolderName(side) + (part + rest);
    assert !IsWhitespace(path[0]);
  }

  /** A drive input as `prepare_drive_input` makes it. */
  ghost predicate PlannedInput(input: PreparedInput) {
    && IsHexHash(input.contentSha256)
    && NamesDocument(input.objectPath, input.source, input.documentId) && !IsBlank(input.objectPath)
  }

  lemma UploadIsPlanned(sha: Sha, config: Config, c: Checkpoint, change: DriveChange, bytes: string, frontier: RevisionPair)
    requires HexSha(sha) && PrepareInput(sha, config, c, change, bytes, frontier).Success?
    requires PrepareInput(sha, config, c, change, bytes, frontier).value.Upload?
    ensures var input := PrepareInput(sha, config, c, change, bytes, frontier).value.input;
            && PlannedInput(input)
            && input.fileId == change.file.fileId && input.contentSha256 == sha(bytes)
            && input.eventId == DriveEventId(sha, change.file.fileId, change.file.version, sha(bytes))
            && input.eventId !in c.processed && !HasPending(c, input.fileId)
            && BindingFor(c, input.fileId).Some? && BindingFor(c, input.fileId).value.documentId == input.documentId
            && BindingFor(c, input.fileId).value.SideFor(input.fileId) == Some(input.source)
            && input.fileId in c.frontiers && c.frontiers[input.fileId] == input.basedOn
            && input.sourceRevision > input.basedOn.Get(input.source)
            && input.sourceRevision == Max(input.basedOn.Get(input.source), input.canonicalFrontier.Get(input.source)) + 1
  {
    var input := PrepareInput(sha, config, c, change, bytes, frontier).value.input;
    InputPathNamed(sha, input.source, input.documentId, input.eventId, input.payloadKind);
  }

  lemma Regrouped(folder: string, name: string, extension: string)
    ensures folder + "/" + ("drive/" + (name + "." + extension)) == folder + "/drive/" + name + "." + extension
  {
    assert "/drive/" == "/" + "drive/";
  }

  lemma InputPathNamed(sha: Sha, source: DeviceSide, documentId: string, eventId: string, kind: DevicePayloadKind)
    ensures NamesDocument(InputPath(sha, source, documentId, eventId, kind), source, documentId)
    ensures !IsBlank(InputPath(sha, source, documentId, eventId, kind))
  {
    var extension := if kind.DeviceView? && source.Boox? then "pdf" else "json";
    NamedUnder(source, documentId, "drive/" + (sha(eventId) + "." + extension));
    Regrouped(FolderName(source) + "/" + documentId, sha(eventId), extension);
  }

  ghost predicate PlannedRegistration(registration: PreparedRegistration) {
    IsHexHash(registration.originalSha256) && registration.documentId == "inkbridge-doc-v1-" + registration.originalSha256
  }

  /** A delivery as `prepare_drive_output` makes it, with a file reserved for it. */
  ghost predicate PlannedOutput(config: Config, output: PreparedOutput) {
    && output.generation != 0 && |output.contentSha256| == 64
    && output.parentFolder == config.Folder(output.target) && !IsBlank(output.parentFolder) && !IsBlank(output.fileName)
    && PropertiesOk(output)
  }

  lemma OutputIsPlanned(sha: Sha, config: Config, c: Checkpoint, output: BrokerOutput, fileId: string)
    requires HexSha(sha) && PrepareOutput(sha, config, c, output).Success? && PrepareOutput(sha, config, c, output).value.ReserveOutput?
    ensures var prepared := PrepareOutput(sha, config, c, output).value.output.(fileId := fileId);
            && PlannedOutput(config, prepared) && prepared.documentId in c.documents
            && prepared.deliveryId !in c.delivered && prepared.deliveryId !in c.pendingOutputs
  {
    ReservationMeans(sha, config, c, output);
    PlannedIsPlanned(sha, config, output, fileId);
  }

  lemma ReservationMeans(sha: Sha, config: Config, c: Checkpoint, output: BrokerOutput)
    requires HexSha(sha) && PrepareOutput(sha, config, c, output).Success? && PrepareOutput(sha, config, c, output).value.ReserveOutput?
    ensures PrepareOutput(sha, config, c, output).value.output == Planned(sha, config, output)
    ensures config.Valid() && output.documentId in c.documents && output.generation != 0 && |output.contentSha256| == 64
    ensures DeliveryId(sha, output) !in c.delivered && DeliveryId(sha, output) !in c.pendingOutputs
  {
  }

  lemma PlannedIsPlanned(sha: Sha, config: Config, output: BrokerOutput, fileId: string)
    requires HexSha(sha) && config.Valid() && output.generation != 0 && |output.contentSha256| == 64
    ensures PlannedOutput(config, Planned(sha, config, output).(fileId := fileId))
  {
    var prepared := Planned(sha, config, output);
    assert !IsWhitespace(prepared.fileName[0]);
    assert IsDriveId(prepared.parentFolder) && IsDriveIdChar(prepared.parentFolder[0]);
  }

  // ---------------------------------------------------------------- files and bindings

  lemma BoundByOne(c: Checkpoint, d: string, file: string)
    requires BindingsOk(c) && d in c.documents && file in c.documents[d].Files()
    ensures file in BoundFiles(c)
    ensures forall e :: e in c.documents && file in c.documents[e].Files() ==> e == d
  {
  }

  lemma WithFileBinding(c: Checkpoint, d: string, originalSha256: string, side: DeviceSide, file: string)
    requires BindingsOk(c) && file !in BoundFiles(c)
    requires d !in c.documents ==> |originalSha256| == 64 && d == "inkbridge-doc-v1-" + originalSha256
    ensures d in WithFile(c, d, originalSha256, side, file)
    ensures var b := WithFile(c, d, originalSha256, side, file)[d];
            && BindingOk(d, b) && b.SideFor(file) == Some(side)
            && b.Files() == (if d in c.documents then c.documents[d].Files() else {}) + {file}
            && (d in c.documents ==> && b.originalSha256 == c.documents[d].originalSha256
                                     && c.documents[d].booxFiles <= b.booxFiles && c.documents[d].supernoteFiles <= b.supernoteFiles)
  {
    if d in c.documents {
      assert BindingOk(d, c.documents[d]);
      assert file !in c.documents[d].Files();
    }
  }

  lemma WithFileBinds(c: Checkpoint, d: string, originalSha256: string, side: DeviceSide, file: string)
    requires BindingsOk(c) && file !in BoundFiles(c)
    requires d !in c.documents ==> |originalSha256| == 64 && d == "inkbridge-doc-v1-" + originalSha256
    ensures var next := c.(documents := WithFile(c, d, originalSha256, side, file));
            && BindingsOk(next) && BoundFiles(next) == BoundFiles(c) + {file}
            && next.documents[d].SideFor(file) == Some(side)
            && KeepsBindings(c, next)
  {
    WithFileBinding(c, d, originalSha256, side, file);
    FilesWith(c, c.(documents := WithFile(c, d, originalSha256, side, file)), d, file);
  }

  lemma FilesWith(c: Checkpoint, next: Checkpoint, d: string, file: string)
    requires BindingsOk(c) && file !in BoundFiles(c) && d in next.documents && BindingOk(d, next.documents[d])
    requires next.documents == c.documents[d := next.documents[d]]
    requires next.documents[d].Files() == (if d in c.documents then c.documents[d].Files() else {}) + {file}
    ensures BindingsOk(next) && BoundFiles(next) == BoundFiles(c) + {file}
  {
    assert forall e :: e in c.documents ==> file !in c.documents[e].Files();
    forall f ensures f in BoundFiles(next) <==> f in BoundFiles(c) + {file} {
      if f in BoundFiles(c) {
        var e :| e in c.documents && f in c.documents[e].Files();
        assert f in next.documents[e].Files();
      }
      assert file in next.documents[d].Files();
    }
  }

  /** The clauses about outputs survive any change that keeps documents' bindings and outputs. */
  predicate KeepsBindings(c: Checkpoint, next: Checkpoint) {
    forall d :: d in c.documents ==>
                  && d in next.documents && next.documents[d].originalSha256 == c.documents[d].originalSha256
                  && c.documents[d].booxFiles <= next.documents[d].booxFiles
                  && c.documents[d].supernoteFiles <= next.documents[d].supernoteFiles
  }

  lemma SideForKept(c: Checkpoint, next: Checkpoint, d: string, file: string)
    requires KeepsBindings(c, next) && BindingsOk(next) && d in c.documents && c.documents[d].SideFor(file).Some?
    ensures next.documents[d].SideFor(file) == c.documents[d].SideFor(file)
  {
    assert BindingOk(d, next.documents[d]);
  }

  // ---------------------------------------------------------------- what every successful commit keeps

  /** Bindings, processed events and per-file frontiers only grow; a reserved delivery stays reserved with
      its file, or is delivered to that file; a delivered one stays so. */
  predicate Grows(c: Checkpoint, next: Checkpoint) {
    && KeepsBindings(c, next)
    && c.processed <= next.processed
    && (forall f :: f in c.frontiers ==> f in next.frontiers && c.frontiers[f].Within(next.frontiers[f]))
    && (forall d :: d in c.pendingOutputs ==>
          || (d in next.pendingOutputs && next.pendingOutputs[d] == c.pendingOutputs[d])
          || (d in next.delivered && next.delivered[d].fileId == c.pendingOutputs[d].fileId))
    && (forall d :: d in c.delivered ==> d in next.delivered && next.delivered[d] == c.delivered[d])
  }

  lemma GrowsReflexive(c: Checkpoint)
    ensures Grows(c, c)
  {
  }

  lemma GrowsTransitive(a: Checkpoint, b: Checkpoint, c: Checkpoint)
    requires Grows(a, b) && Grows(b, c)
    ensures Grows(a, c)
  {
    forall d | d in a.documents
      ensures d in c.documents && c.documents[d].originalSha256 == a.documents[d].originalSha256
      ensures a.documents[d].booxFiles <= c.documents[d].booxFiles && a.documents[d].supernoteFiles <= c.documents[d].supernoteFiles
    {
      assert d in b.documents;
    }
    forall f | f in a.frontiers ensures f in c.frontiers && a.frontiers[f].Within(c.frontiers[f]) {
      assert f in b.frontiers;
    }
  }

  /** The closing validation of a commit cannot fail, so its only errors are refusals that change nothing;
      and the checkpoint only grows. */
  ghost predicate Sound(c: Checkpoint, outcome: Outcome) {
    && (outcome.Changed? ==> Valid(outcome.next))
    && Grows(c, outcome.After(c))
  }

  lemma OutputsStay(c: Checkpoint, next: Checkpoint)
    requires PendingOutputsOk(c) && DeliveriesOk(c) && BindingsOk(next) && KeepsBindings(c, next)
    requires next.delivered == c.delivered && next.pendingOutputs == c.pendingOutputs
    ensures PendingOutputsOk(next) && DeliveriesOk(next)
  {
    forall d | d in c.delivered ensures DeliveredOk(next, d, c.delivered[d]) {
      assert DeliveredOk(c, d, c.delivered[d]);
      SideForKept(c, next, c.delivered[d].documentId, c.delivered[d].fileId);
    }
    forall d | d in c.pendingOutputs ensures PendingOutputOk(next, d, c.pendingOutputs[d]) {
      assert PendingOutputOk(c, d, c.pendingOutputs[d]);
    }
  }

  /** A pending input survives when its file's frontier does. */
  lemma InputStays(c: Checkpoint, next: Checkpoint, e: string)
    requires InputsOk(c) && BindingsOk(next) && KeepsBindings(c, next) && c.processed <= next.processed
    requires e in c.pendingInputs
    requires c.pendingInputs[e].fileId in c.frontiers ==>
               c.pendingInputs[e].fileId in next.frontiers && next.frontiers[c.pendingInputs[e].fileId] == c.frontiers[c.pendingInputs[e].fileId]
    ensures PendingInputOk(next, e, c.pendingInputs[e])
  {
    assert PendingInputOk(c, e, c.pendingInputs[e]);
    SideForKept(c, next, c.pendingInputs[e].documentId, c.pendingInputs[e].fileId);
  }

  lemma InputIsBound(c: Checkpoint, e: string)
    requires InputsOk(c) && BindingsOk(c) && e in c.pendingInputs
    ensures c.pendingInputs[e].fileId in BoundFiles(c)
  {
    var p := c.pendingInputs[e];
    assert PendingInputOk(c, e, p);
    BoundByOne(c, p.documentId, p.fileId);
  }

  /** Changes that leave documents and outputs alone only have to keep the inputs in order. */
  lemma SameDocumentsSound(c: Checkpoint, next: Checkpoint)
    requires Valid(c) && next.schemaVersion == c.schemaVersion && next.documents == c.documents
    requires next.delivered == c.delivered && next.pendingOutputs == c.pendingOutputs && c.processed <= next.processed
    requires next.frontiers.Keys == c.frontiers.Keys
    requires forall f :: f in c.frontiers ==> c.frontiers[f].Within(next.frontiers[f])
    requires InputsOk(next) && AcceptedOk(next)
    ensures Valid(next) && Grows(c, next)
  {
    OutputsStay(c, next);
    assert BoundFiles(next) == BoundFiles(c);
  }

  // ---------------------------------------------------------------- each commit

  function WithInput(c: Checkpoint, input: PreparedInput, generation: nat): Checkpoint {
    c.(processed := c.processed + {input.eventId}, pendingInputs := c.pendingInputs[input.eventId := PendingFor(input, generation)])
  }

  lemma NewInputOk(c: Checkpoint, input: PreparedInput, generation: nat)
    requires BindingsOk(c) && PlannedInput(input) && generation != 0
    requires BindingFor(c, input.fileId).Some? && BindingFor(c, input.fileId).value.documentId == input.documentId
    requires BindingFor(c, input.fileId).value.SideFor(input.fileId) == Some(input.source)
    requires input.sourceRevision > input.basedOn.Get(input.source)
    requires input.fileId in c.frontiers && c.frontiers[input.fileId] == input.basedOn
    ensures PendingInputOk(WithInput(c, input, generation), input.eventId, PendingFor(input, generation))
  {
    BindingForMeaning(c, input.fileId);
  }

  lemma CommittedInputsOk(c: Checkpoint, input: PreparedInput, generation: nat)
    requires BindingsOk(c) && InputsOk(c) && !HasPending(c, input.fileId)
    requires PendingInputOk(WithInput(c, input, generation), input.eventId, PendingFor(input, generation))
    requires input.eventId !in c.pendingInputs
    ensures InputsOk(WithInput(c, input, generation))
  {
    var next := WithInput(c, input, generation);
    assert BindingsOk(next);
    forall e | e in c.pendingInputs ensures PendingInputOk(next, e, c.pendingInputs[e]) {
      InputStays(c, next, e);
    }
    assert OneInputPerFile(next) by {
      assert forall e :: e in c.pendingInputs ==> c.pendingInputs[e].fileId != input.fileId;
    }
  }

  lemma WithInputValid(c: Checkpoint, input: PreparedInput, generation: nat)
    requires Valid(c) && InputsOk(WithInput(c, input, generation))
    ensures Valid(WithInput(c, input, generation)) && Grows(c, WithInput(c, input, generation))
  {
    var next := WithInput(c, input, generation);
    assert AcceptedOk(next) by {
      assert BoundFiles(next) == BoundFiles(c);
    }
    SameDocumentsSound(c, next);
  }

  /** Committing a prepared input, on this checkpoint or any later one, cannot fail its closing validation. */
  lemma CommitInputSound(c: Checkpoint, input: PreparedInput, generation: nat)
    requires Valid(c) && PlannedInput(input)
    ensures Sound(c, CommitInput(c, input, generation))
  {
    GrowsReflexive(c);
    if CommitInput(c, input, generation).Changed? {
      NewInputOk(c, input, generation);
      CommittedInputsOk(c, input, generation);
      WithInputValid(c, input, generation);
    }
  }

  lemma WithoutInput(c: Checkpoint, eventId: string, frontiers: map<string, RevisionPair>, accepted: map<string, string>)
    requires Valid(c)
    requires forall e :: e in c.pendingInputs && e != eventId ==>
                           && c.pendingInputs[e].fileId in frontiers
                           && c.pendingInputs[e].fileId in c.frontiers
                           && frontiers[c.pendingInputs[e].fileId] == c.frontiers[c.pendingInputs[e].fileId]
    ensures InputsOk(c.(pendingInputs := c.pendingInputs - {eventId}, frontiers := frontiers, accepted := accepted))
  {
    var next := c.(pendingInputs := c.pendingInputs - {eventId}, frontiers := frontiers, accepted := accepted);
    assert BindingsOk(next);
    forall e | e in next.pendingInputs ensures PendingInputOk(next, e, next.pendingInputs[e]) {
      InputStays(c, next, e);
    }
  }

  function AcceptedCheckpoint(c: Checkpoint, eventId: string): Checkpoint
    requires eventId in c.pendingInputs
  {
    var pending := c.pendingInputs[eventId];
    c.(pendingInputs := c.pendingInputs - {eventId},
    frontiers := c.frontiers[pending.fileId := pending.proposedFrontier],
    accepted := c.accepted[pending.fileId := pending.contentSha256])
  }

  lemma AcceptedInputsOk(c: Checkpoint, eventId: string)
    requires Valid(c) && eventId in c.pendingInputs
    ensures InputsOk(AcceptedCheckpoint(c, eventId))
  {
    var pending := c.pendingInputs[eventId];
    forall e | e in c.pendingInputs && e != eventId
      ensures c.pendingInputs[e].fileId in c.frontiers && c.pendingInputs[e].fileId != pending.fileId
    {
      InputIsBound(c, e);
    }
    WithoutInput(c, eventId, c.frontiers[pending.fileId := pending.proposedFrontier], c.accepted[pending.fileId := pending.contentSha256]);
  }

  lemma AcceptedValid(c: Checkpoint, eventId: string)
    requires Valid(c) && eventId in c.pendingInputs
    ensures Valid(AcceptedCheckpoint(c, eventId)) && Grows(c, AcceptedCheckpoint(c, eventId))
  {
    assert PendingInputOk(c, eventId, c.pendingInputs[eventId]);
    InputIsBound(c, eventId);
    AcceptedInputsOk(c, eventId);
    AcceptedContentOk(c, eventId);
    SameDocumentsSound(c, AcceptedCheckpoint(c, eventId));
  }

  lemma AcceptedContentOk(c: Checkpoint, eventId: string)
    requires AcceptedOk(c) && eventId in c.pendingInputs && IsHexHash(c.pendingInputs[eventId].contentSha256)
    requires c.pendingInputs[eventId].fileId in BoundFiles(c)
    ensures AcceptedOk(AcceptedCheckpoint(c, eventId))
  {
    assert BoundFiles(AcceptedCheckpoint(c, eventId)) == BoundFiles(c);
  }

  lemma AcceptInputSound(c: Checkpoint, eventId: string)
    requires Valid(c)
    ensures Sound(c, AcceptInput(c, eventId)) && AcceptInput(c, eventId).Succeeds()
    ensures eventId !in AcceptInput(c, eventId).After(c).pendingInputs
    ensures eventId in c.pendingInputs ==> AcceptInput(c, eventId).After(c) == AcceptedCheckpoint(c, eventId)
  {
    GrowsReflexive(c);
    if eventId in c.pendingInputs {
      AcceptedValid(c, eventId);
      assert PendingInputOk(c, eventId, c.pendingInputs[eventId]);
    }
  }

  lemma RejectInputSound(c: Checkpoint, eventId: string)
    requires Valid(c)
    ensures Sound(c, RejectInput(c, eventId)) && RejectInput(c, eventId).Succeeds()
    ensures eventId !in RejectInput(c, eventId).After(c).pendingInputs
  {
    var next := RejectInput(c, eventId).After(c);
    forall e | e in c.pendingInputs ensures c.pendingInputs[e].fileId in c.frontiers {
      InputIsBound(c, e);
    }
    WithoutInput(c, eventId, c.frontiers, c.accepted);
    assert AcceptedOk(next) by {
      assert BoundFiles(next) == BoundFiles(c);
    }
    SameDocumentsSound(c, next);
  }

  /** An unbound file has no pending input, no frontier and no accepted content. */
  lemma UnboundHasNothing(c: Checkpoint, file: string)
    requires Valid(c) && file !in BoundFiles(c)
    ensures forall e :: e in c.pendingInputs ==> c.pendingInputs[e].fileId != file
    ensures file !in c.frontiers && file !in c.accepted
  {
    forall e | e in c.pendingInputs ensures c.pendingInputs[e].fileId in BoundFiles(c) {
      InputIsBound(c, e);
    }
  }

  lemma InputsStay(c: Checkpoint, next: Checkpoint)
    requires InputsOk(c) && BindingsOk(c) && FrontiersOk(c) && BindingsOk(next) && KeepsBindings(c, next) && c.processed <= next.processed
    requires next.pendingInputs == c.pendingInputs
    requires forall e :: e in c.pendingInputs && c.pendingInputs[e].fileId in c.frontiers ==>
                           && c.pendingInputs[e].fileId in next.frontiers
                           && next.frontiers[c.pendingInputs[e].fileId] == c.frontiers[c.pendingInputs[e].fileId]
    ensures InputsOk(next)
  {
    forall e | e in next.pendingInputs ensures PendingInputOk(next, e, next.pendingInputs[e]) {
      InputStays(c, next, e);
    }
  }

  /** A file newly bound, with its first frontier and possibly its accepted content. */
  ghost predicate BindsFile(c: Checkpoint, next: Checkpoint, d: string, originalSha256: string, side: DeviceSide, file: string) {
    && file !in BoundFiles(c)
    && (d !in c.documents ==> |originalSha256| == 64 && d == "inkbridge-doc-v1-" + originalSha256)
    && next.schemaVersion == c.schemaVersion && next.documents == WithFile(c, d, originalSha256, side, file)
    && c.processed <= next.processed && next.pendingInputs == c.pendingInputs
    && next.frontiers.Keys == c.frontiers.Keys + {file}
    && (forall f :: f in c.frontiers && f != file ==> next.frontiers[f] == c.frontiers[f])
    && (next.accepted == c.accepted || (file in next.accepted && IsHexHash(next.accepted[file]) && next.accepted == c.accepted[file := next.accepted[file]]))
  }

  lemma BindsFileKeeps(c: Checkpoint, next: Checkpoint, d: string, originalSha256: string, side: DeviceSide, file: string)
    requires Valid(c) && BindsFile(c, next, d, originalSha256, side, file)
    ensures BindingsOk(next) && KeepsBindings(c, next) && AcceptedOk(next) && FrontiersOk(next) && InputsOk(next)
    ensures next.documents[d].SideFor(file) == Some(side)
    ensures forall f :: f in c.frontiers ==> f in next.frontiers && c.frontiers[f] == next.frontiers[f]
  {
    BindsFileBindings(c, next, d, originalSha256, side, file);
    BindsFileContent(c, next, d, originalSha256, side, file);
    UnboundHasNothing(c, file);
    InputsStay(c, next);
  }

  lemma BindsFileContent(c: Checkpoint, next: Checkpoint, d: string, originalSha256: string, side: DeviceSide, file: string)
    requires FrontiersOk(c) && AcceptedOk(c) && BindsFile(c, next, d, originalSha256, side, file)
    requires BoundFiles(next) == BoundFiles(c) + {file}
    ensures AcceptedOk(next) && FrontiersOk(next)
  {
  }

  lemma BindsFileBindings(c: Checkpoint, next: Checkpoint, d: string, originalSha256: string, side: DeviceSide, file: string)
    requires BindingsOk(c) && BindsFile(c, next, d, originalSha256, side, file)
    ensures BindingsOk(next) && KeepsBindings(c, next) && BoundFiles(next) == BoundFiles(c) + {file}
    ensures next.documents[d].SideFor(file) == Some(side)
  {
    var same := c.(documents := WithFile(c, d, originalSha256, side, file));
    WithFileBinds(c, d, originalSha256, side, file);
    SameBindings(same, next);
  }

  lemma SameBindings(c: Checkpoint, next: Checkpoint)
    requires BindingsOk(c) && next.documents == c.documents
    ensures BindingsOk(next) && BoundFiles(next) == BoundFiles(c)
  {
  }

  /** Binding a file nobody had keeps everything, whatever frontier it starts from. */
  lemma BindingSound(c: Checkpoint, next: Checkpoint, d: string, originalSha256: string, side: DeviceSide, file: string)
    requires Valid(c) && BindsFile(c, next, d, originalSha256, side, file)
    requires next.pendingOutputs == c.pendingOutputs && next.delivered == c.delivered
    ensures Valid(next) && Grows(c, next)
  {
    BindsFileKeeps(c, next, d, originalSha256, side, file);
    OutputsStay(c, next);
  }

  lemma CommitRegistrationSound(c: Checkpoint, registration: PreparedRegistration)
    requires Valid(c) && PlannedRegistration(registration)
    ensures Sound(c, CommitRegistration(c, registration))
  {
    var next := CommitRegistration(c, registration).After(c);
    GrowsReflexive(c);
    if next != c {
      BindingForMeaning(c, registration.fileId);
      BindingSound(c, next, registration.documentId, registration.originalSha256, registration.source, registration.fileId);
    }
  }

  lemma CommitArtifactSound(c: Checkpoint, artifact: PreparedArtifact)
    requires Valid(c)
    ensures Sound(c, CommitArtifact(c, artifact))
  {
    var next := CommitArtifact(c, artifact).After(c);
    GrowsReflexive(c);
    if next != c {
      BindingForMeaning(c, artifact.fileId);
      BindingSound(c, next, artifact.documentId, "", artifact.source, artifact.fileId);
    }
  }

  // ---------------------------------------------------------------- outputs: when the closing validation passes

  function WithReservation(c: Checkpoint, output: PreparedOutput): Checkpoint {
    c.(pendingOutputs := c.pendingOutputs[output.deliveryId := output])
  }

  lemma ReservationOutputs(c: Checkpoint, output: PreparedOutput)
    requires PendingOutputsOk(c) && DeliveriesOk(c) && output.deliveryId !in c.pendingOutputs
    ensures PendingOutputsOk(WithReservation(c, output)) <==> PendingOutputOk(c, output.deliveryId, output)
    ensures DeliveriesOk(WithReservation(c, output))
  {
    var next := WithReservation(c, output);
    forall d | d in c.pendingOutputs ensures PendingOutputOk(next, d, next.pendingOutputs[d]) {
      assert PendingOutputOk(c, d, c.pendingOutputs[d]);
    }
    forall d | d in c.delivered ensures DeliveredOk(next, d, next.delivered[d]) {
      assert DeliveredOk(c, d, c.delivered[d]);
    }
    assert PendingOutputOk(next, output.deliveryId, output) <==> PendingOutputOk(c, output.deliveryId, output);
    assert output.deliveryId in next.pendingOutputs && next.pendingOutputs[output.deliveryId] == output;
  }

  lemma ReservationRest(c: Checkpoint, output: PreparedOutput)
    requires Valid(c) && output.deliveryId !in c.pendingOutputs
    ensures var next := WithReservation(c, output);
            BindingsOk(next) && AcceptedOk(next) && FrontiersOk(next) && InputsOk(next) && Grows(c, next)
  {
    var next := WithReservation(c, output);
    ReservationBindings(c, output);
    InputsStay(c, next);
  }

  lemma ReservationBindings(c: Checkpoint, output: PreparedOutput)
    requires BindingsOk(c) && AcceptedOk(c) && FrontiersOk(c)
    ensures var next := WithReservation(c, output);
            BoundFiles(next) == BoundFiles(c) && BindingsOk(next) && AcceptedOk(next) && FrontiersOk(next) && KeepsBindings(c, next)
  {
    assert BoundFiles(WithReservation(c, output)) == BoundFiles(c);
  }

  /** Reserving a prepared delivery, with a file generated for it, validates exactly when its object path lies
      under the target's folder and names the document: `prepare_drive_output` does not check that. */
  lemma ReserveExactly(config: Config, c: Checkpoint, output: PreparedOutput)
    requires Valid(c) && PlannedOutput(config, output) && output.documentId in c.documents && !IsBlank(output.fileId)
    requires output.deliveryId !in c.delivered && output.deliveryId !in c.pendingOutputs
    ensures Reserve(c, output).Succeeds() <==> !IsBlank(output.objectPath) && NamesDocument(output.objectPath, output.target, output.documentId)
    ensures Reserve(c, output).Succeeds() ==> Sound(c, Reserve(c, output))
  {
    ReservePasses(c, output);
    ReservationRest(c, output);
  }

  lemma ReservePasses(c: Checkpoint, output: PreparedOutput)
    requires Valid(c) && !IsBlank(output.fileId) && output.deliveryId !in c.delivered && output.deliveryId !in c.pendingOutputs
    ensures Reserve(c, output) == Changed(WithReservation(c, output))
    ensures Reserve(c, output).Succeeds() <==> PendingOutputOk(c, output.deliveryId, output)
  {
    ReservationOutputs(c, output);
    ReservationRest(c, output);
  }

  /** `output` is reserved, and its file ID, being freshly generated, is bound to nothing. */
  predicate Reserved(c: Checkpoint, output: PreparedOutput) {
    output.deliveryId in c.pendingOutputs && c.pendingOutputs[output.deliveryId] == output
  }

  lemma DeliveredOutputsOk(c: Checkpoint, output: PreparedOutput, fileVersion: nat, event: string)
    requires Valid(c) && Reserved(c, output) && fileVersion != 0
    requires var next := DeliveredCheckpoint(c, output, fileVersion, event);
             && BindingsOk(next) && KeepsBindings(c, next) && next.documents[output.documentId].SideFor(output.fileId) == Some(output.target)
    ensures PendingOutputsOk(DeliveredCheckpoint(c, output, fileVersion, event)) && DeliveriesOk(DeliveredCheckpoint(c, output, fileVersion, event))
  {
    var next := DeliveredCheckpoint(c, output, fileVersion, event);
    assert PendingOutputOk(c, output.deliveryId, output);
    forall d | d in next.pendingOutputs ensures PendingOutputOk(next, d, next.pendingOutputs[d]) {
      assert PendingOutputOk(c, d, c.pendingOutputs[d]);
    }
    forall d | d in next.delivered ensures DeliveredOk(next, d, next.delivered[d]) {
      if d != output.deliveryId {
        assert DeliveredOk(c, d, c.delivered[d]);
        SideForKept(c, next, c.delivered[d].documentId, c.delivered[d].fileId);
      }
    }
  }

  /** Committing a reserved delivery to its fresh file validates exactly when the content hash is hexadecimal:
      `prepare_drive_output` only checks its length. */
  lemma CommitFreshOutputExactly(sha: Sha, c: Checkpoint, output: PreparedOutput, fileVersion: nat)
    requires Valid(c) && Reserved(c, output) && fileVersion != 0 && output.fileId !in BoundFiles(c)
    ensures var outcome := CommitOutput(sha, c, output, output.fileId, fileVersion);
            && (outcome.Succeeds() <==> IsHexHash(output.contentSha256))
            && (outcome.Succeeds() ==> Sound(c, outcome) && outcome.After(c) == DeliveredCheckpoint(c, output, fileVersion, DriveEventId(sha, output.fileId, fileVersion, output.contentSha256)))
  {
    var event := DriveEventId(sha, output.fileId, fileVersion, output.contentSha256);
    CommitOutputCloses(sha, c, output, fileVersion);
    PendingNotDelivered(c, output.deliveryId);
    if IsHexHash(output.contentSha256) {
      FreshOutputSound(c, output, fileVersion, event);
    } else {
      NotHexNotAccepted(c, output, fileVersion, event);
    }
  }

  lemma NotHexNotAccepted(c: Checkpoint, output: PreparedOutput, fileVersion: nat, event: string)
    requires !IsHexHash(output.contentSha256)
    ensures !Valid(DeliveredCheckpoint(c, output, fileVersion, event))
  {
    var next := DeliveredCheckpoint(c, output, fileVersion, event);
    assert output.fileId in next.accepted && next.accepted[output.fileId] == output.contentSha256;
    assert !AcceptedOk(next);
  }

  lemma PendingNotDelivered(c: Checkpoint, d: string)
    requires PendingOutputsOk(c) && d in c.pendingOutputs
    ensures d !in c.delivered && c.pendingOutputs[d].documentId in c.documents && c.pendingOutputs[d].deliveryId == d
    ensures !IsBlank(c.pendingOutputs[d].fileId)
  {
    assert PendingOutputOk(c, d, c.pendingOutputs[d]);
  }

  lemma DeliveredBinds(c: Checkpoint, output: PreparedOutput, fileVersion: nat, event: string)
    requires output.fileId !in BoundFiles(c) && output.documentId in c.documents && IsHexHash(output.contentSha256)
    ensures BindsFile(c, DeliveredCheckpoint(c, output, fileVersion, event), output.documentId, "", output.target, output.fileId)
  {
  }

  lemma DeliveredGrows(c: Checkpoint, output: PreparedOutput, fileVersion: nat, event: string)
    requires Reserved(c, output) && output.deliveryId !in c.delivered && output.fileId !in c.frontiers
    requires KeepsBindings(c, DeliveredCheckpoint(c, output, fileVersion, event))
    ensures Grows(c, DeliveredCheckpoint(c, output, fileVersion, event))
  {
  }

  lemma FreshOutputSound(c: Checkpoint, output: PreparedOutput, fileVersion: nat, event: string)
    requires Valid(c) && Reserved(c, output) && fileVersion != 0 && output.fileId !in BoundFiles(c)
    requires output.documentId in c.documents && IsHexHash(output.contentSha256)
    ensures Valid(DeliveredCheckpoint(c, output, fileVersion, event)) && Grows(c, DeliveredCheckpoint(c, output, fileVersion, event))
  {
    DeliveredBinds(c, output, fileVersion, event);
    BindsFileKeeps(c, DeliveredCheckpoint(c, output, fileVersion, event), output.documentId, "", output.target, output.fileId);
    DeliveredOutputsOk(c, output, fileVersion, event);
    PendingNotDelivered(c, output.deliveryId);
    DeliveredGrows(c, output, fileVersion, event);
  }

  lemma BoundOutputClauses(c: Checkpoint, output: PreparedOutput, fileVersion: nat, event: string)
    requires BindingsOk(c) && FrontiersOk(c) && AcceptedOk(c)
    requires output.documentId in c.documents && c.documents[output.documentId].SideFor(output.fileId) == Some(output.target)
    ensures var next := DeliveredCheckpoint(c, output, fileVersion, event);
            && next.documents == c.documents && BindingsOk(next) && FrontiersOk(next)
            && (AcceptedOk(next) <==> IsHexHash(output.contentSha256))
  {
    var next := DeliveredCheckpoint(c, output, fileVersion, event);
    var d := output.documentId;
    BoundByOne(c, d, output.fileId);
    assert c.documents[d].With(output.target, output.fileId) == c.documents[d];
    assert next.documents == c.documents;
    SameBindings(c, next);
    assert output.fileId in next.accepted;
  }

  lemma CommitOutputCloses(sha: Sha, c: Checkpoint, output: PreparedOutput, fileVersion: nat)
    requires Valid(c) && Reserved(c, output) && fileVersion != 0
    requires output.fileId in BoundFiles(c) ==>
               output.documentId in c.documents && c.documents[output.documentId].SideFor(output.fileId) == Some(output.target)
    ensures CommitOutput(sha, c, output, output.fileId, fileVersion)
            == Changed(DeliveredCheckpoint(c, output, fileVersion, DriveEventId(sha, output.fileId, fileVersion, output.contentSha256)))
  {
    PendingNotDelivered(c, output.deliveryId);
    BindingForMeaning(c, output.fileId);
  }

  /** On a file that is bound already the commit can also trip over a pending input whose frontier it moves. */
  lemma CommitBoundOutputExactly(sha: Sha, c: Checkpoint, output: PreparedOutput, fileVersion: nat)
    requires Valid(c) && Reserved(c, output) && fileVersion != 0
    requires output.documentId in c.documents && c.documents[output.documentId].SideFor(output.fileId) == Some(output.target)
    ensures CommitOutput(sha, c, output, output.fileId, fileVersion).Succeeds() <==>
            && IsHexHash(output.contentSha256)
            && (forall e :: e in c.pendingInputs && c.pendingInputs[e].fileId == output.fileId ==>
                              c.pendingInputs[e].previousFrontier == output.sourceRevisions)
  {
    var event := DriveEventId(sha, output.fileId, fileVersion, output.contentSha256);
    CommitOutputCloses(sha, c, output, fileVersion);
    BoundOutputValid(c, output, fileVersion, event);
  }

  lemma BoundOutputValid(c: Checkpoint, output: PreparedOutput, fileVersion: nat, event: string)
    requires Valid(c) && Reserved(c, output) && fileVersion != 0
    requires output.documentId in c.documents && c.documents[output.documentId].SideFor(output.fileId) == Some(output.target)
    ensures Valid(DeliveredCheckpoint(c, output, fileVersion, event)) <==>
            && IsHexHash(output.contentSha256)
            && (forall e :: e in c.pendingInputs && c.pendingInputs[e].fileId == output.fileId ==>
                              c.pendingInputs[e].previousFrontier == output.sourceRevisions)
  {
    var next := DeliveredCheckpoint(c, output, fileVersion, event);
    BoundOutputClauses(c, output, fileVersion, event);
    DeliveredOutputsOk(c, output, fileVersion, event);
    BoundByOne(c, output.documentId, output.fileId);
    RebasedInputs(c, next, output.fileId);
  }

  lemma RebasedInputs(c: Checkpoint, next: Checkpoint, file: string)
    requires InputsOk(c) && BindingsOk(c) && next.documents == c.documents && c.processed <= next.processed && next.pendingInputs == c.pendingInputs
    requires file in c.frontiers && file in next.frontiers && next.frontiers == c.frontiers[file := next.frontiers[file]]
    ensures InputsOk(next) <==> forall e :: e in c.pendingInputs && c.pendingInputs[e].fileId == file ==>
                                            c.pendingInputs[e].previousFrontier == next.frontiers[file]
  {
    forall e | e in c.pendingInputs
      ensures PendingInputOk(next, e, next.pendingInputs[e]) <==>
              (c.pendingInputs[e].fileId == file ==> c.pendingInputs[e].previousFrontier == next.frontiers[file])
    {
      assert PendingInputOk(c, e, c.pendingInputs[e]);
    }
  }
}
