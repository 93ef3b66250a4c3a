/** What prepare accepts and the closing validation then refuses: the exact condition for every prepared
    delivery, and runs that meet each failing case. */
module GatewayWitnesses {
  import opened Wrappers
  import opened Model
  import opened Gateway
  import opened GatewayPlanner
  import opened GatewayValidity
  import opened GatewayRuns

  /** The delivery `prepare_drive_output` asks to be reserved, with the file generated for it. */
  ghost predicate PreparedFor(sha: Sha, config: Config, c: Checkpoint, output: BrokerOutput, prepared: PreparedOutput)
    requires HexSha(sha)
  {
    PrepareOutput(sha, config, c, output) == Success(ReserveOutput(prepared.(fileId := "")))
  }

  predicate PathOk(output: BrokerOutput) {
    !IsBlank(output.objectPath) && NamesDocument(output.objectPath, output.target, output.documentId)
  }

  /** A prepared delivery can be reserved exactly when the broker's object path is under the target's folder
      and names the document. */
  lemma PreparedReserves(sha: Sha, config: Config, c: Checkpoint, output: BrokerOutput, prepared: PreparedOutput)
    requires HexSha(sha) && PreparedFor(sha, config, c, output, prepared) && !IsBlank(prepared.fileId)
    ensures Reserve(c, prepared).Succeeds() <==> PathOk(output)
  {
    PreparedIsPlanned(sha, config, c, output, prepared);
    ReservePasses(c, prepared);
  }

  lemma PreparedIsPlanned(sha: Sha, config: Config, c: Checkpoint, output: BrokerOutput, prepared: PreparedOutput)
    requires HexSha(sha) && PreparedFor(sha, config, c, output, prepared)
    ensures Valid(c) && PlannedOutput(config, prepared) && prepared.documentId in c.documents
    ensures prepared.deliveryId !in c.delivered && prepared.deliveryId !in c.pendingOutputs
    ensures prepared.(fileId := "") == Planned(sha, config, output)
  {
    OutputIsPlanned(sha, config, c, output, prepared.fileId);
  }

  // ---------------------------------------------------------------- a checkpoint with one original

  function FirstOriginal(sha: Sha): PreparedRegistration {
    var hash := sha("pdf");
    var eventId := DriveEventId(sha, "original-file", 1, hash);
    PreparedRegistration(
      eventId, "original-file", Boox, "inkbridge-doc-v1-" + hash, hash, "Staging/drive-" + sha(eventId) + ".pdf")
  }

  ghost function WithOriginal(sha: Sha): Checkpoint {
    CommitRegistration(EMPTY, FirstOriginal(sha)).After(EMPTY)
  }

  lemma EmptyValid()
    ensures Valid(EMPTY) && Fresh(EMPTY) && BoundFiles(EMPTY) == {}
  {
  }

  lemma WithOriginalReached(sha: Sha, config: Config)
    requires HexSha(sha)
    ensures Proper(config, EMPTY, Register(FirstOriginal(sha)))
    ensures Do(sha, EMPTY, Register(FirstOriginal(sha))).Succeeds()
    ensures Valid(WithOriginal(sha)) && Fresh(WithOriginal(sha))
    ensures BoundFiles(WithOriginal(sha)) == {"original-file"} && FirstOriginal(sha).documentId in WithOriginal(sha).documents
    ensures WithOriginal(sha).pendingOutputs == map[] && WithOriginal(sha).delivered == map[]
  {
    var registration := FirstOriginal(sha);
    EmptyValid();
    BindingForMeaning(EMPTY, registration.fileId);
    assert IsHexHash(registration.originalSha256);
    CommitRegistrationSound(EMPTY, registration);
    RegisterFresh(EMPTY, registration);
    assert WithOriginal(sha).documents == map[registration.documentId := Binding(registration.documentId, registration.originalSha256, {}, {}).With(Boox, "original-file")];
    assert WithOriginal(sha).documents[registration.documentId].Files() == {"original-file"};
  }

  /** The broker's output of one event for that document, at `path` and with the content hash `hash`. */
  function FirstOutput(sha: Sha, path: string, hash: string): BrokerOutput {
    BrokerOutput(path, 1, FirstOriginal(sha).documentId, Boox, "event", RevisionPair(1, 0), hash, "pdf")
  }

  lemma FirstOutputPrepared(sha: Sha, config: Config, path: string, hash: string, file: string)
    requires HexSha(sha) && config.Valid() && |hash| == 64
    ensures PreparedFor(sha, config, WithOriginal(sha), FirstOutput(sha, path, hash), Planned(sha, config, FirstOutput(sha, path, hash)).(fileId := file))
  {
    WithOriginalReached(sha, config);
    assert !IsWhitespace("event"[0]);
  }

  lemma FirstOriginalPrepared(sha: Sha, config: Config)
    requires HexSha(sha) && config.Valid()
    ensures PrepareRegistration(
              sha, config, EMPTY,
              DriveChange(FileRevision("original-file", "notes.pdf", 1, "application/pdf", [config.booxFolder], 3, false, map[])),
              "pdf", RegistrationApproval("original-file", 1, sha("pdf"))) == Success(RegisterOriginal(FirstOriginal(sha)))
  {
    EmptyValid();
  }

  // ---------------------------------------------------------------- an object path outside the folder

  /** On that checkpoint the broker output at `Elsewhere/view.pdf` is answered with a reservation, and no file
      generated for it can be reserved. */
  lemma PreparedButNotReserved(sha: Sha, config: Config, file: string)
    requires HexSha(sha) && config.Valid()
    ensures var output := FirstOutput(sha, "Elsewhere/view.pdf", sha("view"));
            && Valid(WithOriginal(sha))
            && PrepareOutput(sha, config, WithOriginal(sha), output) == Success(ReserveOutput(Planned(sha, config, output)))
            && !Reserve(WithOriginal(sha), Planned(sha, config, output).(fileId := file)).Succeeds()
  {
    var path := "Elsewhere/view.pdf";
    var output := FirstOutput(sha, path, sha("view"));
    WithOriginalReached(sha, config);
    FirstOutputPrepared(sha, config, path, sha("view"), file);
    if !IsBlank(file) {
      PreparedReserves(sha, config, WithOriginal(sha), output, Planned(sha, config, output).(fileId := file));
      assert path[0] != (FolderName(Boox) + "/")[0];
    }
  }

  // ---------------------------------------------------------------- a content hash that is not hexadecimal

  /** The delivery is reserved, and its content hash is not hexadecimal. */
  predicate Stuck(c: Checkpoint, output: PreparedOutput) {
    Reserved(c, output) && !IsHexHash(output.contentSha256)
  }

  lemma CommitOutputShape(sha: Sha, c: Checkpoint, output: PreparedOutput, file: string, fileVersion: nat)
    ensures var outcome := CommitOutput(sha, c, output, file, fileVersion);
            && (outcome.Changed? ==> outcome.next == DeliveredCheckpoint(c, output, fileVersion, DriveEventId(sha, file, fileVersion, output.contentSha256)))
            && (outcome.Unchanged? ==> output.deliveryId in c.delivered)
  {
  }

  /** No commit of such a delivery succeeds, under any file ID and version, in any valid checkpoint. */
  lemma NeverCommitted(sha: Sha, c: Checkpoint, output: PreparedOutput, file: string, fileVersion: nat)
    requires Valid(c) && Stuck(c, output)
    ensures !CommitOutput(sha, c, output, file, fileVersion).Succeeds()
  {
    PendingNotDelivered(c, output.deliveryId);
    NotHexNotAccepted(c, output, fileVersion, DriveEventId(sha, file, fileVersion, output.contentSha256));
    CommitOutputShape(sha, c, output, file, fileVersion);
  }

  lemma StuckStep(sha: Sha, config: Config, c: Checkpoint, step: Step, output: PreparedOutput)
    requires Valid(c) && Stuck(c, output) && Do(sha, c, step).Succeeds()
    ensures Stuck(Do(sha, c, step).After(c), output)
  {
    if !step.Deliver? {
      PendingNotDelivered(c, output.deliveryId);
      OnlyDeliveryUnreserves(sha, c, step, output);
    } else if step.output == output {
      NeverCommitted(sha, c, output, output.fileId, step.fileVersion);
    } else {
      OtherDelivered(sha, c, step.output, step.fileVersion, output);
    }
  }

  lemma OnlyDeliveryUnreserves(sha: Sha, c: Checkpoint, step: Step, output: PreparedOutput)
    requires Reserved(c, output) && output.deliveryId !in c.delivered && !step.Deliver?
    ensures Reserved(Do(sha, c, step).After(c), output)
  {
    match step {
      case Take(input, generation) => TakeEffect(c, input, generation);
      case Accept(eventId) => AcceptEffect(c, eventId);
      case Reject(eventId) => RejectEffect(c, eventId);
      case Register(registration) => RegisterEffect(c, registration);
      case Bind(artifact) => BindEffect(c, artifact);
      case ReserveFile(_) =>
      case MoveToken(_) =>
    }
  }

  lemma OtherDelivered(sha: Sha, c: Checkpoint, other: PreparedOutput, fileVersion: nat, output: PreparedOutput)
    requires Reserved(c, output) && other != output
    ensures Reserved(CommitOutput(sha, c, other, other.fileId, fileVersion).After(c), output)
  {
    DeliverEffect(sha, c, other, fileVersion);
  }

  /** Once such a delivery is reserved, it stays reserved in every later checkpoint of every run: nothing ever
      commits it, and with an output pending no job gets past recovering it. */
  lemma {:induction false} ReservedAndStuck(r: Run, k: nat, j: nat, output: PreparedOutput)
    requires IsRun(r) && k <= j < |r.checkpoints|
    requires Stuck(r.checkpoints[k], output)
    ensures Stuck(r.checkpoints[j], output)
    decreases j
  {
    if k < j {
      ReservedAndStuck(r, k, j - 1, output);
      RunValid(r, j - 1);
      assert StepTaken(r, j - 1);
      StuckStep(r.sha, r.config, r.checkpoints[j - 1], r.steps[j - 1], output);
    }
  }

  function NotHex(): string {
    seq(64, _ => 'z')
  }

  /** An output whose object path is under the folder and names the document. */
  function NamedOutput(sha: Sha, hash: string): BrokerOutput {
    FirstOutput(sha, FolderName(Boox) + "/" + FirstOriginal(sha).documentId + "/view.pdf", hash)
  }

  function Generated(sha: Sha, config: Config, hash: string): PreparedOutput
    requires |sha("event")| >= 16
  {
    Planned(sha, config, NamedOutput(sha, hash)).(fileId := "generated-file")
  }

  ghost function AfterReserving(sha: Sha, config: Config, hash: string): Checkpoint
    requires HexSha(sha)
  {
    WithReservation(WithOriginal(sha), Generated(sha, config, hash))
  }

  lemma NamedReserves(sha: Sha, config: Config, hash: string)
    requires HexSha(sha) && config.Valid() && |hash| == 64
    ensures PrepareOutput(sha, config, WithOriginal(sha), NamedOutput(sha, hash)) == Success(ReserveOutput(Planned(sha, config, NamedOutput(sha, hash))))
    ensures Proper(config, WithOriginal(sha), ReserveFile(Generated(sha, config, hash)))
    ensures Reserve(WithOriginal(sha), Generated(sha, config, hash)) == Changed(AfterReserving(sha, config, hash))
    ensures Valid(AfterReserving(sha, config, hash))
  {
    var output, reserved := NamedOutput(sha, hash), Generated(sha, config, hash);
    WithOriginalReached(sha, config);
    FirstOutputPrepared(sha, config, output.objectPath, hash, "generated-file");
    NamedUnder(Boox, output.documentId, "view.pdf");
    assert FolderName(Boox) + "/" + output.documentId + "/" + "view.pdf" == output.objectPath;
    assert !IsWhitespace("generated-file"[0]);
    PreparedReserves(sha, config, WithOriginal(sha), output, reserved);
    PreparedIsPlanned(sha, config, WithOriginal(sha), output, reserved);
    ReservePasses(WithOriginal(sha), reserved);
  }

  /** A run that registers the original and then reserves a delivery whose content hash is 64 letters z. */
  ghost function StuckRun(sha: Sha, config: Config): Run
    requires HexSha(sha)
  {
    Run(sha, config,
        [EMPTY, WithOriginal(sha), AfterReserving(sha, config, NotHex())],
        [Register(FirstOriginal(sha)), ReserveFile(Generated(sha, config, NotHex()))])
  }

  /** The code gets there: the broker output is answered with a reservation, and reserving it ends a run that,
      by `ReservedAndStuck`, no longer run ever leaves. */
  lemma StuckReached(sha: Sha, config: Config)
    requires HexSha(sha) && config.Valid()
    ensures PrepareOutput(sha, config, WithOriginal(sha), NamedOutput(sha, NotHex()))
            == Success(ReserveOutput(Planned(sha, config, NamedOutput(sha, NotHex()))))
    ensures IsRun(StuckRun(sha, config))
    ensures Stuck(StuckRun(sha, config).checkpoints[2], Generated(sha, config, NotHex()))
  {
    WithOriginalReached(sha, config);
    NamedReserves(sha, config, NotHex());
    assert !IsHexDigit(NotHex()[0]);
    assert StepTaken(StuckRun(sha, config), 0);
    assert StepTaken(StuckRun(sha, config), 1);
  }

  // ---------------------------------------------------------------- a reserved file bound by hand

  /** The reserved file of a delivery is bound to its document by hand, as an artifact, before the delivery is
      committed. */
  ghost predicate BoundByHand(c: Checkpoint, output: PreparedOutput, artifact: PreparedArtifact) {
    && Reserved(c, output) && output.fileId !in BoundFiles(c)
    && artifact.fileId == output.fileId && artifact.documentId == output.documentId && artifact.source == output.target
    && CommitArtifact(c, artifact).Changed?
  }

  lemma HandBinds(c: Checkpoint, output: PreparedOutput, artifact: PreparedArtifact)
    requires Valid(c) && BoundByHand(c, output, artifact)
    ensures var next := CommitArtifact(c, artifact).After(c);
            && Valid(next) && Reserved(next, output) && output.documentId in next.documents
            && next.documents[output.documentId].SideFor(output.fileId) == Some(output.target)
            && (forall e :: e in next.pendingInputs ==> next.pendingInputs[e].fileId != output.fileId)
  {
    CommitArtifactSound(c, artifact);
    HandBindsFile(c, output, artifact);
    UnboundHasNothing(c, output.fileId);
    BindEffect(c, artifact);
  }

  lemma HandBindsFile(c: Checkpoint, output: PreparedOutput, artifact: PreparedArtifact)
    requires BindingsOk(c) && BoundByHand(c, output, artifact)
    ensures var next := CommitArtifact(c, artifact).After(c);
            && output.documentId in next.documents && next.documents[output.documentId].SideFor(output.fileId) == Some(output.target)
  {
    WithFileBinds(c, artifact.documentId, "", artifact.source, artifact.fileId);
  }

  lemma TakenWith(c: Checkpoint, input: PreparedInput, generation: nat)
    requires CommitInput(c, input, generation).Changed?
    ensures CommitInput(c, input, generation).next == WithInput(c, input, generation)
    ensures !HasPending(c, input.fileId) && input.fileId in c.frontiers && c.frontiers[input.fileId] == input.basedOn
  {
  }

  /** An input then taken for that file is pending with the frontier the artifact was based on, and the delivery
      commits exactly when that is its own source revisions. */
  lemma HandBoundCommits(sha: Sha, c: Checkpoint, output: PreparedOutput, input: PreparedInput, generation: nat, fileVersion: nat)
    requires Valid(c) && Reserved(c, output) && IsHexHash(output.contentSha256) && fileVersion != 0
    requires output.documentId in c.documents && c.documents[output.documentId].SideFor(output.fileId) == Some(output.target)
    requires PlannedInput(input) && input.fileId == output.fileId && CommitInput(c, input, generation).Changed?
    ensures Valid(WithInput(c, input, generation)) && CommitInput(c, input, generation).next == WithInput(c, input, generation)
    ensures CommitOutput(sha, WithInput(c, input, generation), output, output.fileId, fileVersion).Succeeds()
            <==> input.basedOn == output.sourceRevisions
  {
    CommitInputSound(c, input, generation);
    TakenWith(c, input, generation);
    CommitBoundOutputExactly(sha, WithInput(c, input, generation), output, fileVersion);
    OnlyInput(c, input, generation);
  }

  lemma OnlyInput(c: Checkpoint, input: PreparedInput, generation: nat)
    requires !HasPending(c, input.fileId)
    ensures var next := WithInput(c, input, generation);
            && input.eventId in next.pendingInputs && next.pendingInputs[input.eventId].fileId == input.fileId
            && forall e :: e in next.pendingInputs && next.pendingInputs[e].fileId == input.fileId ==>
                             next.pendingInputs[e].previousFrontier == input.basedOn
  {
  }

  // Prepared, bound and taken on the checkpoint with one original, for a delivery with nothing wrong with it.

  ghost function WithDelivery(sha: Sha, config: Config): Checkpoint
    requires HexSha(sha)
  {
    AfterReserving(sha, config, sha("view"))
  }

  function HandBound(sha: Sha): PreparedArtifact {
    PreparedArtifact("generated-file", 1, sha("view"), FirstOriginal(sha).documentId, Boox, NO_REVISIONS, NO_REVISIONS)
  }

  function HandInput(sha: Sha): PreparedInput {
    var event := DriveEventId(sha, "generated-file", 2, sha("edit"));
    PreparedInput(event, "generated-file", InputPath(sha, Boox, FirstOriginal(sha).documentId, event, DeviceView),
                  sha("edit"), FirstOriginal(sha).documentId, Boox, 1, NO_REVISIONS, NO_REVISIONS, DeviceView)
  }

  lemma DeliveryReserved(sha: Sha, config: Config)
    requires HexSha(sha) && config.Valid()
    ensures Valid(WithDelivery(sha, config)) && Reserved(WithDelivery(sha, config), Generated(sha, config, sha("view")))
    ensures BoundFiles(WithDelivery(sha, config)) == {"original-file"}
    ensures FirstOriginal(sha).documentId in WithDelivery(sha, config).documents
  {
    WithOriginalReached(sha, config);
    NamedReserves(sha, config, sha("view"));
    SameFiles(WithOriginal(sha), WithDelivery(sha, config));
  }

  /** A file listed under the reserved ID without the gateway's properties, and approved, is prepared for binding. */
  lemma HandBoundPrepared(sha: Sha, config: Config)
    requires HexSha(sha) && config.Valid()
    ensures PrepareArtifact(
              sha, config, WithDelivery(sha, config),
              DriveChange(FileRevision("generated-file", "view.pdf", 1, "application/pdf", [config.booxFolder], 4, false, map[])), "view",
              ArtifactApproval("generated-file", 1, sha("view"), FirstOriginal(sha).documentId, Boox, NO_REVISIONS), NO_REVISIONS)
            == Success(BindArtifact(HandBound(sha)))
  {
    DeliveryReserved(sha, config);
    BindingForMeaning(WithDelivery(sha, config), "generated-file");
    HandPrepares(sha, config, WithDelivery(sha, config), FirstOriginal(sha).documentId);
  }

  lemma HandPrepares(sha: Sha, config: Config, c: Checkpoint, d: string)
    requires config.Valid() && Valid(c) && BindingFor(c, "generated-file").None? && d in c.documents
    ensures PrepareArtifact(
              sha, config, c,
              DriveChange(FileRevision("generated-file", "view.pdf", 1, "application/pdf", [config.booxFolder], 4, false, map[])), "view",
              ArtifactApproval("generated-file", 1, sha("view"), d, Boox, NO_REVISIONS), NO_REVISIONS)
            == Success(BindArtifact(PreparedArtifact("generated-file", 1, sha("view"), d, Boox, NO_REVISIONS, NO_REVISIONS)))
  {
  }

  lemma HandBoundByHand(sha: Sha, config: Config)
    requires HexSha(sha) && config.Valid()
    ensures BoundByHand(WithDelivery(sha, config), Generated(sha, config, sha("view")), HandBound(sha))
  {
    DeliveryReserved(sha, config);
    BindingForMeaning(WithDelivery(sha, config), "generated-file");
  }

  ghost function AfterBinding(sha: Sha, config: Config): Checkpoint
    requires HexSha(sha)
  {
    CommitArtifact(WithDelivery(sha, config), HandBound(sha)).After(WithDelivery(sha, config))
  }

  lemma AfterBindingHas(sha: Sha, config: Config)
    requires HexSha(sha) && config.Valid()
    ensures var c := AfterBinding(sha, config);
            && c.pendingInputs == map[] && c.processed == {FirstOriginal(sha).eventId}
            && "generated-file" in c.frontiers && c.frontiers["generated-file"] == NO_REVISIONS
  {
    HandBoundByHand(sha, config);
  }

  /** What matters of the checkpoint after binding. */
  ghost predicate HasHandBound(sha: Sha, c: Checkpoint, output: PreparedOutput) {
    && Valid(c) && Reserved(c, output) && FirstOriginal(sha).documentId in c.documents
    && c.documents[FirstOriginal(sha).documentId].SideFor("generated-file") == Some(Boox)
    && c.pendingInputs == map[] && c.processed == {FirstOriginal(sha).eventId}
    && "generated-file" in c.frontiers && c.frontiers["generated-file"] == NO_REVISIONS
  }

  lemma AfterBindingSound(sha: Sha, config: Config)
    requires HexSha(sha) && config.Valid()
    ensures CommitArtifact(WithDelivery(sha, config), HandBound(sha)) == Changed(AfterBinding(sha, config))
    ensures HasHandBound(sha, AfterBinding(sha, config), Generated(sha, config, sha("view")))
  {
    DeliveryReserved(sha, config);
    HandBoundByHand(sha, config);
    AfterBindingHas(sha, config);
    HandBinds(WithDelivery(sha, config), Generated(sha, config, sha("view")), HandBound(sha));
  }

  lemma HandInputPlanned(sha: Sha)
    requires HexSha(sha)
    ensures PlannedInput(HandInput(sha))
  {
    InputPathNamed(sha, Boox, FirstOriginal(sha).documentId, HandInput(sha).eventId, DeviceView);
  }

  /** The input is taken, when its event ID is not by chance that of the original. */
  lemma HandInputTaken(sha: Sha, c: Checkpoint)
    requires BindingsOk(c) && FirstOriginal(sha).documentId in c.documents
    requires c.documents[FirstOriginal(sha).documentId].SideFor("generated-file") == Some(Boox)
    requires c.pendingInputs == map[] && c.processed == {FirstOriginal(sha).eventId} && HandInput(sha).eventId != FirstOriginal(sha).eventId
    requires "generated-file" in c.frontiers && c.frontiers["generated-file"] == NO_REVISIONS
    ensures CommitInput(c, HandInput(sha), 1).Changed?
  {
    BindingForMeaning(c, "generated-file");
    assert BindingOk(FirstOriginal(sha).documentId, c.documents[FirstOriginal(sha).documentId]);
  }

  /** Taking the input leads to a valid checkpoint in which that version of the reserved file commits no delivery. */
  ghost predicate Blocks(sha: Sha, c: Checkpoint, input: PreparedInput, output: PreparedOutput, fileVersion: nat) {
    && CommitInput(c, input, 1) == Changed(WithInput(c, input, 1)) && Valid(WithInput(c, input, 1))
    && !CommitOutput(sha, WithInput(c, input, 1), output, output.fileId, fileVersion).Succeeds()
  }

  /** The input is planned and taken for the file of a sound delivery, bound already, but is based on other revisions. */
  ghost predicate Clashes(c: Checkpoint, input: PreparedInput, output: PreparedOutput) {
    && Valid(c) && Reserved(c, output) && IsHexHash(output.contentSha256)
    && output.documentId in c.documents && c.documents[output.documentId].SideFor(output.fileId) == Some(output.target)
    && PlannedInput(input) && input.fileId == output.fileId && CommitInput(c, input, 1).Changed?
    && input.basedOn != output.sourceRevisions
  }

  lemma ClashBlocks(sha: Sha, c: Checkpoint, input: PreparedInput, output: PreparedOutput, fileVersion: nat)
    requires Clashes(c, input, output) && fileVersion != 0
    ensures Blocks(sha, c, input, output, fileVersion)
  {
    HandBoundCommits(sha, c, output, input, 1, fileVersion);
  }

  /** A delivery of revisions (1, 0) to the reserved file, with nothing wrong with it. */
  predicate SoundDelivery(sha: Sha, output: PreparedOutput) {
    && output.fileId == "generated-file" && output.documentId == FirstOriginal(sha).documentId && output.target == Boox
    && IsHexHash(output.contentSha256) && output.sourceRevisions == RevisionPair(1, 0)
  }

  lemma GeneratedIsSound(sha: Sha, config: Config)
    requires HexSha(sha)
    ensures SoundDelivery(sha, Generated(sha, config, sha("view")))
  {
  }

  lemma HandClashes(sha: Sha, c: Checkpoint, output: PreparedOutput)
    requires HexSha(sha) && HasHandBound(sha, c, output) && HandInput(sha).eventId != FirstOriginal(sha).eventId && SoundDelivery(sha, output)
    ensures Clashes(c, HandInput(sha), output)
  {
    HandInputPlanned(sha);
    HandInputTaken(sha, c);
  }

  lemma HandBoundBlocks(sha: Sha, c: Checkpoint, output: PreparedOutput, fileVersion: nat)
    requires HexSha(sha) && HasHandBound(sha, c, output) && HandInput(sha).eventId != FirstOriginal(sha).eventId && SoundDelivery(sha, output)
    requires fileVersion != 0
    ensures Valid(c) && Blocks(sha, c, HandInput(sha), output, fileVersion)
  {
    HandClashes(sha, c, output);
    ClashBlocks(sha, c, HandInput(sha), output, fileVersion);
  }

  /** The case is met: on the checkpoint of one original and one reserved delivery, the artifact is prepared and bound,
      the input is taken, and then no version of the created file commits the delivery. */
  lemma HandBoundReached(sha: Sha, config: Config, fileVersion: nat)
    requires HexSha(sha) && config.Valid() && HandInput(sha).eventId != FirstOriginal(sha).eventId && fileVersion != 0
    ensures CommitArtifact(WithDelivery(sha, config), HandBound(sha)) == Changed(AfterBinding(sha, config)) && Valid(AfterBinding(sha, config))
    ensures Blocks(sha, AfterBinding(sha, config), HandInput(sha), Generated(sha, config, sha("view")), fileVersion)
  {
    AfterBindingSound(sha, config);
    GeneratedIsSound(sha, config);
    HandBoundBlocks(sha, AfterBinding(sha, config), Generated(sha, config, sha("view")), fileVersion);
  }
}
