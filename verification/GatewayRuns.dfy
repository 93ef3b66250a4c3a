/** Whole runs of the gateway's checkpoint: every checkpoint any job ever persists is reached from the empty
    one by successful commits of prepared plans. A commit that fails ends its job, which drops what it had
    in memory, so failures never show in the chain. */
module GatewayRuns {
  import opened Wrappers
  import opened Model
  import opened Gateway
  import opened GatewayPlanner
  import opened GatewayValidity

  datatype Step =
    | Take(input: PreparedInput, generation: nat)
    | Accept(eventId: string)
    | Reject(eventId: string)
    | Register(registration: PreparedRegistration)
    | Bind(artifact: PreparedArtifact)
    | ReserveFile(output: PreparedOutput)
    | Deliver(output: PreparedOutput, fileVersion: nat)
    | MoveToken(token: string)

  ghost function Do(sha: Sha, c: Checkpoint, step: Step): Outcome {
    match step
    case Take(input, generation) => CommitInput(c, input, generation)
    case Accept(eventId) => AcceptInput(c, eventId)
    case Reject(eventId) => RejectInput(c, eventId)
    case Register(registration) => CommitRegistration(c, registration)
    case Bind(artifact) => CommitArtifact(c, artifact)
    case ReserveFile(output) => Reserve(c, output)
    case Deliver(output, fileVersion) => CommitOutput(sha, c, output, output.fileId, fileVersion)
    case MoveToken(token) => Changed(WithToken(c, token))
  }

  /** No delivery is reserved for this file. */
  predicate NotReserved(c: Checkpoint, file: string) {
    forall d :: d in c.pendingOutputs ==> c.pendingOutputs[d].fileId != file
  }

  /** Reserved files are bound to nothing and reserved once: Drive generates an ID only once. */
  predicate Fresh(c: Checkpoint) {
    && (forall d :: d in c.pendingOutputs ==> c.pendingOutputs[d].fileId !in BoundFiles(c))
    && (forall d, e :: d in c.pendingOutputs && e in c.pendingOutputs && d != e ==> c.pendingOutputs[d].fileId != c.pendingOutputs[e].fileId)
  }

  /** The step's argument is a plan its prepare call makes; a reservation comes with a newly generated file,
      and a file that is only reserved is not yet registered or bound by hand. */
  ghost predicate Proper(config: Config, c: Checkpoint, step: Step) {
    match step
    case Take(input, _) => PlannedInput(input)
    case Register(registration) => PlannedRegistration(registration) && NotReserved(c, registration.fileId)
    case Bind(artifact) => NotReserved(c, artifact.fileId)
    case ReserveFile(output) =>
      && PlannedOutput(config, output) && output.documentId in c.documents
      && (output.deliveryId !in c.pendingOutputs ==> output.fileId !in BoundFiles(c) && NotReserved(c, output.fileId))
    case _ => true
  }

  // ---------------------------------------------------------------- one step

  // What each commit changes.

  lemma TakeEffect(c: Checkpoint, input: PreparedInput, generation: nat)
    ensures var next := CommitInput(c, input, generation).After(c);
            && next.documents == c.documents && next.accepted == c.accepted && next.pendingOutputs == c.pendingOutputs
            && next.nextPageToken == c.nextPageToken
            && (next.pendingInputs == c.pendingInputs
                || next.pendingInputs == c.pendingInputs[input.eventId := PendingFor(input, generation)])
            && (forall e :: e in next.pendingInputs && e !in c.pendingInputs ==> e !in c.processed)
  {
  }

  lemma AcceptEffect(c: Checkpoint, eventId: string)
    ensures var next := AcceptInput(c, eventId).After(c);
            && next.documents == c.documents && next.pendingOutputs == c.pendingOutputs && next.nextPageToken == c.nextPageToken
            && (next.pendingInputs == c.pendingInputs || next.pendingInputs == c.pendingInputs - {eventId})
            && (next.accepted == c.accepted
                || (eventId in c.pendingInputs
                    && next.accepted == c.accepted[c.pendingInputs[eventId].fileId := c.pendingInputs[eventId].contentSha256]))
  {
  }

  lemma RejectEffect(c: Checkpoint, eventId: string)
    ensures var next := RejectInput(c, eventId).After(c);
            && next.documents == c.documents && next.accepted == c.accepted && next.pendingOutputs == c.pendingOutputs
            && next.nextPageToken == c.nextPageToken && next.pendingInputs == c.pendingInputs - {eventId}
  {
  }

  lemma RegisterEffect(c: Checkpoint, registration: PreparedRegistration)
    ensures var next := CommitRegistration(c, registration).After(c);
            && next.pendingInputs == c.pendingInputs && next.pendingOutputs == c.pendingOutputs && next.nextPageToken == c.nextPageToken
            && (next == c || (BindingFor(c, registration.fileId).None?
                              && next.accepted == c.accepted[registration.fileId := registration.originalSha256]))
  {
  }

  lemma BindEffect(c: Checkpoint, artifact: PreparedArtifact)
    ensures var next := CommitArtifact(c, artifact).After(c);
            && next.pendingInputs == c.pendingInputs && next.pendingOutputs == c.pendingOutputs && next.accepted == c.accepted
            && next.nextPageToken == c.nextPageToken
  {
  }

  lemma ReserveEffect(c: Checkpoint, output: PreparedOutput)
    ensures var next := Reserve(c, output).After(c);
            && next.pendingInputs == c.pendingInputs && next.documents == c.documents && next.accepted == c.accepted
            && next.nextPageToken == c.nextPageToken
            && (next.pendingOutputs == c.pendingOutputs || next.pendingOutputs == c.pendingOutputs[output.deliveryId := output])
            && (output.deliveryId in c.delivered ==> next == c)
  {
  }

  lemma DeliverEffect(sha: Sha, c: Checkpoint, output: PreparedOutput, fileVersion: nat)
    ensures var next := CommitOutput(sha, c, output, output.fileId, fileVersion).After(c);
            && next.pendingInputs == c.pendingInputs && next.nextPageToken == c.nextPageToken
            && (next == c || (&& Reserved(c, output) && next.accepted == c.accepted[output.fileId := output.contentSha256]
                              && next.pendingOutputs == c.pendingOutputs - {output.deliveryId}))
  {
  }

  lemma FreshStays(c: Checkpoint, next: Checkpoint)
    requires Fresh(c) && next.documents == c.documents
    requires forall d :: d in next.pendingOutputs ==> d in c.pendingOutputs && next.pendingOutputs[d] == c.pendingOutputs[d]
    ensures Fresh(next)
  {
    assert BoundFiles(next) == BoundFiles(c);
  }

  lemma FreshAfterBinding(c: Checkpoint, next: Checkpoint, file: string)
    requires Fresh(c) && BoundFiles(next) == BoundFiles(c) + {file}
    requires forall d :: d in next.pendingOutputs ==>
                           d in c.pendingOutputs && next.pendingOutputs[d] == c.pendingOutputs[d] && next.pendingOutputs[d].fileId != file
    ensures Fresh(next)
  {
  }

  lemma RegisterFresh(c: Checkpoint, registration: PreparedRegistration)
    requires Valid(c) && Fresh(c) && NotReserved(c, registration.fileId)
    requires PlannedRegistration(registration) && CommitRegistration(c, registration).Succeeds()
    ensures Fresh(CommitRegistration(c, registration).After(c))
  {
    var next := CommitRegistration(c, registration).After(c);
    if next != c {
      BindingForMeaning(c, registration.fileId);
      WithFileBinds(c, registration.documentId, registration.originalSha256, registration.source, registration.fileId);
      SameBindings(c.(documents := WithFile(c, registration.documentId, registration.originalSha256, registration.source, registration.fileId)), next);
      FreshAfterBinding(c, next, registration.fileId);
    }
  }

  lemma BindFresh(c: Checkpoint, artifact: PreparedArtifact)
    requires Valid(c) && Fresh(c) && NotReserved(c, artifact.fileId) && CommitArtifact(c, artifact).Succeeds()
    ensures Fresh(CommitArtifact(c, artifact).After(c))
  {
    var next := CommitArtifact(c, artifact).After(c);
    if next != c {
      BindingForMeaning(c, artifact.fileId);
      WithFileBinds(c, artifact.documentId, "", artifact.source, artifact.fileId);
      SameBindings(c.(documents := WithFile(c, artifact.documentId, "", artifact.source, artifact.fileId)), next);
      FreshAfterBinding(c, next, artifact.fileId);
    }
  }

  lemma ReserveFresh(c: Checkpoint, output: PreparedOutput)
    requires Fresh(c)
    requires output.deliveryId !in c.pendingOutputs ==> output.fileId !in BoundFiles(c) && NotReserved(c, output.fileId)
    requires output.deliveryId in c.pendingOutputs ==> c.pendingOutputs[output.deliveryId] == output || Reserve(c, output).After(c) == c
    ensures Fresh(Reserve(c, output).After(c))
  {
    ReserveEffect(c, output);
    SameFiles(c, Reserve(c, output).After(c));
  }

  lemma SameFiles(c: Checkpoint, next: Checkpoint)
    requires next.documents == c.documents
    ensures BoundFiles(next) == BoundFiles(c)
  {
  }

  lemma ReserveAgain(c: Checkpoint, output: PreparedOutput)
    requires output.deliveryId in c.delivered || output.deliveryId in c.pendingOutputs
    requires Reserve(c, output).Succeeds()
    ensures Reserve(c, output).After(c) == c
  {
    if output.deliveryId in c.pendingOutputs && output.deliveryId !in c.delivered {
      assert c.pendingOutputs[output.deliveryId := output] == c.pendingOutputs;
    }
  }

  lemma ReserveStep(config: Config, c: Checkpoint, output: PreparedOutput)
    requires Valid(c) && Fresh(c) && Proper(config, c, ReserveFile(output)) && Reserve(c, output).Succeeds()
    ensures Sound(c, Reserve(c, output)) && Fresh(Reserve(c, output).After(c))
  {
    if output.deliveryId in c.delivered || output.deliveryId in c.pendingOutputs {
      ReserveAgain(c, output);
      GrowsReflexive(c);
    } else {
      ReserveNew(config, c, output);
      ReserveFresh(c, output);
    }
  }

  lemma ReserveNew(config: Config, c: Checkpoint, output: PreparedOutput)
    requires Valid(c) && PlannedOutput(config, output) && output.documentId in c.documents && Reserve(c, output).Succeeds()
    requires output.deliveryId !in c.delivered && output.deliveryId !in c.pendingOutputs
    ensures Sound(c, Reserve(c, output))
  {
    assert !IsBlank(output.fileId);
    ReserveExactly(config, c, output);
  }

  lemma DeliverStep(sha: Sha, c: Checkpoint, output: PreparedOutput, fileVersion: nat)
    requires Valid(c) && Fresh(c) && CommitOutput(sha, c, output, output.fileId, fileVersion).Succeeds()
    ensures Sound(c, CommitOutput(sha, c, output, output.fileId, fileVersion))
    ensures Fresh(CommitOutput(sha, c, output, output.fileId, fileVersion).After(c))
  {
    GrowsReflexive(c);
    if output.deliveryId !in c.delivered {
      CommitFreshOutputExactly(sha, c, output, fileVersion);
      DeliveredFresh(c, output, fileVersion, DriveEventId(sha, output.fileId, fileVersion, output.contentSha256));
    }
  }

  lemma DeliveredFresh(c: Checkpoint, output: PreparedOutput, fileVersion: nat, event: string)
    requires Valid(c) && Fresh(c) && Reserved(c, output) && output.documentId in c.documents
    ensures Fresh(DeliveredCheckpoint(c, output, fileVersion, event))
  {
    var next := DeliveredCheckpoint(c, output, fileVersion, event);
    WithFileBinds(c, output.documentId, "", output.target, output.fileId);
    SameBindings(c.(documents := WithFile(c, output.documentId, "", output.target, output.fileId)), next);
    FreshAfterBinding(c, next, output.fileId);
  }

  lemma TokenSound(c: Checkpoint, token: string)
    requires Valid(c)
    ensures Valid(WithToken(c, token)) && Grows(c, WithToken(c, token))
  {
    var next := WithToken(c, token);
    SameBindings(c, next);
    OutputsStay(c, next);
    InputsStay(c, next);
  }

  /** What every successful step keeps. */
  ghost predicate Kept(c: Checkpoint, next: Checkpoint) {
    Valid(next) && Fresh(next) && Grows(c, next)
  }

  lemma TakeKeeps(c: Checkpoint, input: PreparedInput, generation: nat)
    requires Valid(c) && Fresh(c) && PlannedInput(input)
    ensures Kept(c, CommitInput(c, input, generation).After(c))
  {
    CommitInputSound(c, input, generation);
    TakeFresh(c, input, generation);
  }

  lemma TakeFresh(c: Checkpoint, input: PreparedInput, generation: nat)
    requires Fresh(c)
    ensures Fresh(CommitInput(c, input, generation).After(c))
  {
    TakeEffect(c, input, generation);
    FreshStays(c, CommitInput(c, input, generation).After(c));
  }

  lemma AcceptKeeps(c: Checkpoint, eventId: string)
    requires Valid(c) && Fresh(c)
    ensures Kept(c, AcceptInput(c, eventId).After(c))
  {
    AcceptInputSound(c, eventId);
    AcceptFresh(c, eventId);
  }

  lemma AcceptFresh(c: Checkpoint, eventId: string)
    requires Fresh(c)
    ensures Fresh(AcceptInput(c, eventId).After(c))
  {
    AcceptEffect(c, eventId);
    FreshStays(c, AcceptInput(c, eventId).After(c));
  }

  lemma RejectKeeps(c: Checkpoint, eventId: string)
    requires Valid(c) && Fresh(c)
    ensures Kept(c, RejectInput(c, eventId).After(c))
  {
    RejectInputSound(c, eventId);
    RejectEffect(c, eventId);
    FreshStays(c, RejectInput(c, eventId).After(c));
  }

  lemma RegisterKeeps(c: Checkpoint, registration: PreparedRegistration)
    requires Valid(c) && Fresh(c) && PlannedRegistration(registration) && NotReserved(c, registration.fileId)
    requires CommitRegistration(c, registration).Succeeds()
    ensures Kept(c, CommitRegistration(c, registration).After(c))
  {
    CommitRegistrationSound(c, registration);
    RegisterFresh(c, registration);
  }

  lemma BindKeeps(c: Checkpoint, artifact: PreparedArtifact)
    requires Valid(c) && Fresh(c) && NotReserved(c, artifact.fileId) && CommitArtifact(c, artifact).Succeeds()
    ensures Kept(c, CommitArtifact(c, artifact).After(c))
  {
    CommitArtifactSound(c, artifact);
    BindFresh(c, artifact);
  }

  lemma TokenKeeps(c: Checkpoint, token: string)
    requires Valid(c) && Fresh(c)
    ensures Kept(c, WithToken(c, token))
  {
    TokenSound(c, token);
    FreshStays(c, WithToken(c, token));
  }

  /** Every successful step keeps validity and freshness and only grows the checkpoint. */
  lemma StepKeeps(sha: Sha, config: Config, c: Checkpoint, step: Step)
    requires Valid(c) && Fresh(c) && Proper(config, c, step) && Do(sha, c, step).Succeeds()
    ensures Kept(c, Do(sha, c, step).After(c))
  {
    match step {
      case Take(input, generation) => TakeKeeps(c, input, generation);
      case Accept(eventId) => AcceptKeeps(c, eventId);
      case Reject(eventId) => RejectKeeps(c, eventId);
      case Register(registration) => RegisterKeeps(c, registration);
      case Bind(artifact) => BindKeeps(c, artifact);
      case ReserveFile(output) => ReserveStep(config, c, output);
      case Deliver(output, fileVersion) => DeliverStep(sha, c, output, fileVersion);
      case MoveToken(token) => TokenKeeps(c, token);
    }
  }

  // ---------------------------------------------------------------- runs

  datatype Run = Run(sha: Sha, config: Config, checkpoints: seq<Checkpoint>, steps: seq<Step>)

  ghost predicate StepTaken(r: Run, i: nat)
    requires |r.checkpoints| == |r.steps| + 1 && i < |r.steps|
  {
    && Proper(r.config, r.checkpoints[i], r.steps[i])
    && Do(r.sha, r.checkpoints[i], r.steps[i]).Succeeds()
    && r.checkpoints[i + 1] == Do(r.sha, r.checkpoints[i], r.steps[i]).After(r.checkpoints[i])
  }

  ghost predicate IsRun(r: Run) {
    && |r.checkpoints| == |r.steps| + 1
    && r.checkpoints[0] == EMPTY
    && forall i :: 0 <= i < |r.steps| ==> StepTaken(r, i)
  }

  /** Every checkpoint of every run is valid. */
  lemma {:induction false} RunValid(r: Run, i: nat)
    requires IsRun(r) && i < |r.checkpoints|
    ensures Valid(r.checkpoints[i]) && Fresh(r.checkpoints[i])
  {
    if i > 0 {
      RunValid(r, i - 1);
      assert StepTaken(r, i - 1);
      StepKeeps(r.sha, r.config, r.checkpoints[i - 1], r.steps[i - 1]);
    }
  }

  /** Bindings, processed events, per-file frontiers, reservations and deliveries only grow. */
  lemma {:induction false} RunGrows(r: Run, j: nat, i: nat)
    requires IsRun(r) && j <= i < |r.checkpoints|
    ensures Grows(r.checkpoints[j], r.checkpoints[i])
    decreases i
  {
    if j == i {
      GrowsReflexive(r.checkpoints[i]);
    } else {
      RunGrows(r, j, i - 1);
      RunValid(r, i - 1);
      assert StepTaken(r, i - 1);
      StepKeeps(r.sha, r.config, r.checkpoints[i - 1], r.steps[i - 1]);
      GrowsTransitive(r.checkpoints[j], r.checkpoints[i - 1], r.checkpoints[i]);
    }
  }

  /** Step `i` makes event `e` pending. */
  ghost predicate BecomesPending(r: Run, i: nat, e: string) {
    && i < |r.steps| && i + 1 < |r.checkpoints|
    && e !in r.checkpoints[i].pendingInputs && e in r.checkpoints[i + 1].pendingInputs
  }

  lemma OnlyFreshBecomePending(sha: Sha, c: Checkpoint, step: Step, e: string)
    requires e !in c.pendingInputs && e in Do(sha, c, step).After(c).pendingInputs
    ensures e !in c.processed
  {
    match step {
      case Take(input, generation) => TakeEffect(c, input, generation);
      case Accept(eventId) => AcceptEffect(c, eventId);
      case Reject(eventId) => RejectEffect(c, eventId);
      case Register(registration) => RegisterEffect(c, registration);
      case Bind(artifact) => BindEffect(c, artifact);
      case ReserveFile(output) => ReserveEffect(c, output);
      case Deliver(output, fileVersion) => DeliverEffect(sha, c, output, fileVersion);
      case MoveToken(_) =>
    }
  }

  /** A Drive event becomes pending at most once, over any run. */
  lemma PendingAtMostOnce(r: Run, i: nat, j: nat, e: string)
    requires IsRun(r) && i < j && BecomesPending(r, i, e)
    ensures !BecomesPending(r, j, e)
  {
    if BecomesPending(r, j, e) {
      RunValid(r, i + 1);
      assert PendingInputOk(r.checkpoints[i + 1], e, r.checkpoints[i + 1].pendingInputs[e]);
      RunGrows(r, i + 1, j);
      assert StepTaken(r, j);
      OnlyFreshBecomePending(r.sha, r.checkpoints[j], r.steps[j], e);
    }
  }

  // ---------------------------------------------------------------- no echo

  predicate IsUpload(r: Result<InputDecision, string>) {
    r.Success? && r.value.Upload?
  }

  /** While a file is only reserved, what Drive lists under its ID is never uploaded. */
  lemma ReservedIsNoInput(sha: Sha, config: Config, c: Checkpoint, output: PreparedOutput, change: DriveChange, bytes: string, frontier: RevisionPair)
    requires Valid(c) && Fresh(c) && Reserved(c, output) && change.file.fileId == output.fileId
    ensures !IsUpload(PrepareInput(sha, config, c, change, bytes, frontier))
  {
    BindingForMeaning(c, output.fileId);
  }

  /** File `f` is bound and `hash` is its accepted content. */
  predicate Knows(c: Checkpoint, f: string, hash: string) {
    f in BoundFiles(c) && AcceptedContent(c, f) == Some(hash)
  }

  lemma KnownContentIsNoInput(sha: Sha, config: Config, c: Checkpoint, hash: string, change: DriveChange, bytes: string, frontier: RevisionPair)
    requires Valid(c) && Knows(c, change.file.fileId, hash) && sha(bytes) == hash
    ensures !IsUpload(PrepareInput(sha, config, c, change, bytes, frontier))
  {
  }

  /** The step accepts, for file `f`, content other than `hash`. */
  ghost predicate AcceptsOther(c: Checkpoint, step: Step, f: string, hash: string) {
    && step.Accept? && step.eventId in c.pendingInputs
    && c.pendingInputs[step.eventId].fileId == f && c.pendingInputs[step.eventId].contentSha256 != hash
  }

  lemma BoundStays(c: Checkpoint, next: Checkpoint, f: string)
    requires KeepsBindings(c, next) && f in BoundFiles(c)
    ensures f in BoundFiles(next)
  {
    var d :| d in c.documents && f in c.documents[d].Files();
    assert f in next.documents[d].Files();
  }

  /** Only accepting, registering and delivering change accepted content, each for its own file. */
  lemma ContentChanges(sha: Sha, c: Checkpoint, step: Step, f: string, hash: string)
    requires AcceptedContent(c, f) == Some(hash) && BindingFor(c, f).Some?
    requires !AcceptsOther(c, step, f, hash)
    requires step.Deliver? && Reserved(c, step.output) ==> step.output.fileId != f
    ensures AcceptedContent(Do(sha, c, step).After(c), f) == Some(hash)
  {
    match step {
      case Take(input, generation) => TakeEffect(c, input, generation);
      case Accept(eventId) => AcceptEffect(c, eventId);
      case Reject(eventId) => RejectEffect(c, eventId);
      case Register(registration) => RegisterEffect(c, registration);
      case Bind(artifact) => BindEffect(c, artifact);
      case ReserveFile(output) => ReserveEffect(c, output);
      case Deliver(output, fileVersion) => DeliverEffect(sha, c, output, fileVersion);
      case MoveToken(_) =>
    }
  }

  lemma StepKeepsKnown(sha: Sha, config: Config, c: Checkpoint, step: Step, f: string, hash: string)
    requires Valid(c) && Fresh(c) && Proper(config, c, step) && Do(sha, c, step).Succeeds()
    requires Knows(c, f, hash) && !AcceptsOther(c, step, f, hash)
    ensures Knows(Do(sha, c, step).After(c), f, hash)
  {
    StepKeeps(sha, config, c, step);
    BoundStays(c, Do(sha, c, step).After(c), f);
    BindingForMeaning(c, f);
    ContentChanges(sha, c, step, f, hash);
  }

  lemma {:induction false} KnownUntilOtherAccepted(r: Run, k: nat, j: nat, f: string, hash: string)
    requires IsRun(r) && k <= j < |r.checkpoints| && Knows(r.checkpoints[k], f, hash)
    requires forall m :: k <= m < j ==> !AcceptsOther(r.checkpoints[m], r.steps[m], f, hash)
    ensures Knows(r.checkpoints[j], f, hash)
    decreases j
  {
    if k < j {
      KnownUntilOtherAccepted(r, k, j - 1, f, hash);
      RunValid(r, j - 1);
      assert StepTaken(r, j - 1);
      StepKeepsKnown(r.sha, r.config, r.checkpoints[j - 1], r.steps[j - 1], f, hash);
    }
  }

  /** No echo: from the commit of a generated file until different content for it is accepted, preparing its
      generated bytes, under any version, name or parents, never yields an upload. */
  lemma NoEcho(r: Run, k: nat, j: nat, change: DriveChange, bytes: string, frontier: RevisionPair)
    requires IsRun(r) && k < j < |r.checkpoints| && r.steps[k].Deliver?
    requires r.steps[k].output.deliveryId !in r.checkpoints[k].delivered
    requires change.file.fileId == r.steps[k].output.fileId && r.sha(bytes) == r.steps[k].output.contentSha256
    requires forall m :: k < m < j ==> !AcceptsOther(r.checkpoints[m], r.steps[m], change.file.fileId, r.steps[k].output.contentSha256)
    ensures !IsUpload(PrepareInput(r.sha, r.config, r.checkpoints[j], change, bytes, frontier))
  {
    var output, c := r.steps[k].output, r.checkpoints[k];
    RunValid(r, k);
    assert StepTaken(r, k);
    CommitFreshOutputExactly(r.sha, c, output, r.steps[k].fileVersion);
    assert output.fileId in r.checkpoints[k + 1].documents[output.documentId].Files();
    KnownUntilOtherAccepted(r, k + 1, j, output.fileId, output.contentSha256);
    RunValid(r, j);
    KnownContentIsNoInput(r.sha, r.config, r.checkpoints[j], output.contentSha256, change, bytes, frontier);
  }

  // ---------------------------------------------------------------- one Drive file per delivery

  /** Once reserved, a delivery stays reserved for its file or is delivered to that file, for ever. */
  lemma ReservedForever(r: Run, k: nat, j: nat, d: string)
    requires IsRun(r) && k <= j < |r.checkpoints| && d in r.checkpoints[k].pendingOutputs
    ensures var f, now := r.checkpoints[k].pendingOutputs[d].fileId, r.checkpoints[j];
            if d in now.pendingOutputs then d !in now.delivered && now.pendingOutputs[d].fileId == f
            else d in now.delivered && now.delivered[d].fileId == f
  {
    RunGrows(r, k, j);
    RunValid(r, j);
    if d in r.checkpoints[j].pendingOutputs {
      PendingNotDelivered(r.checkpoints[j], d);
    }
  }
}
