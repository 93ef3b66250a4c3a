/** inkbridge-drive-runtime/src/runtime.rs: one gateway job in apply mode.

    Jobs may run concurrently and crash anywhere: the checkpoint store lets other jobs persist before each
    of its calls and may fail, and every other service returns anything at all. The store's history of
    persisted checkpoints is a chain, because compare-and-swap only replaces the version a job started from. */
module GatewayJobs {
  import opened Wrappers
  import opened Model
  import opened Gateway
  import opened GatewayPlanner
  import opened GatewayValidity
  import opened GatewayRuns
  import opened GatewayState

  // ---------------------------------------------------------------- the checkpoint store

  datatype Stored = Stored(value: Checkpoint, version: nat)

  /** The `i`-th persisted checkpoint is valid and follows the one before. */
  ghost predicate ChainedAt(history: seq<Checkpoint>, i: nat)
    requires i < |history|
  {
    Valid(history[i]) && Fresh(history[i]) && (i > 0 ==> Grows(history[i - 1], history[i]))
  }

  ghost predicate IsChain(history: seq<Checkpoint>) {
    && history != [] && history[0] == EMPTY
    && forall i :: 0 <= i < |history| ==> ChainedAt(history, i)
  }

  lemma ChainValid(history: seq<Checkpoint>, i: nat)
    requires IsChain(history) && i < |history|
    ensures Valid(history[i]) && Fresh(history[i])
  {
    assert ChainedAt(history, i);
  }

  lemma ChainExtends(history: seq<Checkpoint>, c: Checkpoint)
    requires IsChain(history) && Valid(c) && Fresh(c) && Grows(history[|history| - 1], c)
    ensures IsChain(history + [c])
  {
    var longer := history + [c];
    forall i | 0 <= i < |longer| ensures ChainedAt(longer, i) {
      if i < |history| {
        assert ChainedAt(history, i);
      }
    }
  }

  lemma {:induction false} ChainGrows(history: seq<Checkpoint>, i: nat, j: nat)
    requires IsChain(history) && i <= j < |history|
    ensures Grows(history[i], history[j])
    decreases j
  {
    if i == j {
      GrowsReflexive(history[i]);
    } else {
      ChainGrows(history, i, j - 1);
      assert ChainedAt(history, j);
      GrowsTransitive(history[i], history[j - 1], history[j]);
    }
  }

  /** At most one Drive file per delivery: two persisted reservations of one delivery, by whatever jobs, name
      the same file, and from the first on the delivery is reserved for that file or delivered to it. */
  lemma OneFilePerDelivery(history: seq<Checkpoint>, i: nat, j: nat, d: string)
    requires IsChain(history) && i <= j < |history| && d in history[i].pendingOutputs
    ensures var f := history[i].pendingOutputs[d].fileId;
            if d in history[j].pendingOutputs then d !in history[j].delivered && history[j].pendingOutputs[d].fileId == f
            else d in history[j].delivered && history[j].delivered[d].fileId == f
  {
    ChainGrows(history, i, j);
    ChainValid(history, j);
    if d in history[j].pendingOutputs {
      PendingNotDelivered(history[j], d);
    }
  }

  /** `output` is a reservation some job persisted. */
  ghost predicate EverReserved(history: seq<Checkpoint>, output: PreparedOutput) {
    exists k :: 0 <= k < |history| && Reserved(history[k], output)
  }

  /** Every create asked of Drive used the file of a persisted reservation. */
  ghost predicate AllReserved(history: seq<Checkpoint>, creates: seq<PreparedOutput>) {
    forall p :: p in creates ==> EverReserved(history, p)
  }

  /** However many jobs asked Drive to create a delivery, and however often, all asked for the same file. */
  lemma CreatesAgree(history: seq<Checkpoint>, creates: seq<PreparedOutput>, p: PreparedOutput, q: PreparedOutput)
    requires IsChain(history) && AllReserved(history, creates)
    requires p in creates && q in creates && p.deliveryId == q.deliveryId
    ensures p.fileId == q.fileId
  {
    var i :| 0 <= i < |history| && Reserved(history[i], p);
    var j :| 0 <= j < |history| && Reserved(history[j], q);
    if i <= j {
      OneFilePerDelivery(history, i, j, p.deliveryId);
    } else {
      OneFilePerDelivery(history, j, i, p.deliveryId);
    }
  }

  lemma ReservedStay(before: seq<Checkpoint>, after: seq<Checkpoint>, creates: seq<PreparedOutput>)
    requires AllReserved(before, creates) && before <= after
    ensures AllReserved(after, creates)
  {
    forall p | p in creates ensures EverReserved(after, p) {
      var k :| 0 <= k < |before| && Reserved(before[k], p);
      assert after[k] == before[k];
    }
  }

  class CheckpointStore {
    var current: Checkpoint
    var version: nat
    ghost var history: seq<Checkpoint>
    /** What was loaded from here, and what replaced the checkpoint by compare-and-swap, other jobs apart. */
    ghost var loads: seq<Stored>
    ghost var swaps: seq<Stored>

    ghost predicate Consistent()
      reads this
    {
      |history| == version + 1 && history[version] == current && IsChain(history)
    }

    constructor ()
      ensures Consistent() && history == [EMPTY] && loads == [] && swaps == []
    {
      current, version, history := EMPTY, 0, [EMPTY];
      loads, swaps := [], [];
      assert ChainedAt([EMPTY], 0);
    }

    /** Any number of other jobs persist valid successors of the current checkpoint. */
    method Others()
      requires Consistent()
      modifies this`current, this`version, this`history
      ensures Consistent() && old(history) <= history
    {
      var persisted: seq<Checkpoint> := *;
      var i := 0;
      while i < |persisted|
        invariant Consistent() && old(history) <= history
      {
        if Valid(persisted[i]) && Fresh(persisted[i]) && Grows(current, persisted[i]) {
          ChainExtends(history, persisted[i]);
          history := history + [persisted[i]];
          current, version := persisted[i], version + 1;
        }
        i := i + 1;
      }
    }

    method Load() returns (r: Result<Stored, string>)
      requires Consistent()
      modifies this
      ensures Consistent() && old(history) <= history && swaps == old(swaps)
      ensures r.Success? ==> r.value.version < |history| && history[r.value.version] == r.value.value
      ensures loads == old(loads) + (if r.Success? then [r.value] else [])
    {
      Others();
      var failed: bool := *;
      if failed {
        return Failure("checkpoint store unavailable");
      }
      loads := loads + [Stored(current, version)];
      r := Success(Stored(current, version));
    }

    /** Replaces exactly the expected version. */
    method CompareAndSwap(expected: nat, value: Checkpoint) returns (r: Result<Stored, string>)
      requires Consistent() && expected < |history|
      requires Valid(value) && Fresh(value) && Grows(history[expected], value)
      modifies this
      ensures Consistent() && old(history) <= history && loads == old(loads)
      ensures r.Success? ==> && r.value == Stored(value, expected + 1)
                             && expected + 1 < |history| && history[expected + 1] == value
                             && |old(history)| == expected + 1
      ensures swaps == old(swaps) + (if r.Success? then [r.value] else [])
    {
      Others();
      var failed: bool := *;
      if failed || version != expected {
        return Failure("checkpoint was changed by another job");
      }
      ChainExtends(history, value);
      history := history + [value];
      current, version := value, version + 1;
      r := Success(Stored(value, version));
      swaps := swaps + [r.value];
    }
  }

  // ---------------------------------------------------------------- the other services

  datatype ChangePage = ChangePage(changes: seq<DriveChange>, nextPageToken: Option<string>, newStartPageToken: Option<string>)

  function DurableSuccessor(page: ChangePage): Result<string, string> {
    if page.nextPageToken.Some? && page.newStartPageToken.None? && page.nextPageToken.value != "" then Success(page.nextPageToken.value)
    else if page.nextPageToken.None? && page.newStartPageToken.Some? && page.newStartPageToken.value != "" then Success(page.newStartPageToken.value)
    else Failure("page must contain exactly one nonempty successor token")
  }

  datatype Approval = OriginalApproval(original: RegistrationApproval) | ArtifactApproved(artifact: ArtifactApproval)

  datatype BrokerResult = BrokerResult(accepted: bool, output: Option<BrokerOutput>)

  /** A call that was answered, with its answer, or a create that was asked for. */
  datatype Call =
    | StartToken(token: string)
    | InitialFiles(files: seq<FileRevision>)
    | Changes(token: string, page: ChangePage)
    | Downloaded(fileId: string, bytes: string)
    | Revision(fileId: string, current: FileRevision)
    | ApprovalOf(fileId: string, approval: Option<Approval>)
    | OriginalRegistered(registration: PreparedRegistration, generation: nat)
    | Processed(input: PendingInput, verdict: BrokerResult)
    | CreateAsked(output: PreparedOutput, bytes: string)

  /** Drive, the evidence store, the approval store and the broker may answer anything, or fail. */
  class Services {
    const store: CheckpointStore
    /** The calls answered so far, and the creates Drive was asked for by all jobs. */
    ghost var calls: seq<Call>
    ghost var creates: seq<PreparedOutput>

    constructor (store: CheckpointStore)
      ensures this.store == store && calls == [] && creates == []
    {
      this.store, calls, creates := store, [], [];
    }

    method StartPageToken() returns (r: Result<string, string>)
      modifies this`calls
      ensures calls == old(calls) + (if r.Success? then [StartToken(r.value)] else [])
    {
      r := *;
      calls := calls + (if r.Success? then [StartToken(r.value)] else []);
    }

    method ListInitialFiles() returns (r: Result<seq<FileRevision>, string>)
      modifies this`calls
      ensures calls == old(calls) + (if r.Success? then [InitialFiles(r.value)] else [])
    {
      r := *;
      calls := calls + (if r.Success? then [InitialFiles(r.value)] else []);
    }

    method ListChanges(token: string) returns (r: Result<ChangePage, string>)
      modifies this`calls
      ensures calls == old(calls) + (if r.Success? then [Changes(token, r.value)] else [])
    {
      r := *;
      calls := calls + (if r.Success? then [Changes(token, r.value)] else []);
    }

    method Download(fileId: string) returns (r: Result<string, string>)
      modifies this`calls
      ensures calls == old(calls) + (if r.Success? then [Downloaded(fileId, r.value)] else [])
    {
      r := *;
      calls := calls + (if r.Success? then [Downloaded(fileId, r.value)] else []);
    }

    method CurrentRevision(fileId: string) returns (r: Result<FileRevision, string>)
      modifies this`calls
      ensures calls == old(calls) + (if r.Success? then [Revision(fileId, r.value)] else [])
    {
      r := *;
      calls := calls + (if r.Success? then [Revision(fileId, r.value)] else []);
    }

    method FindDelivery(deliveryId: string) returns (r: Result<seq<FileRevision>, string>) {
      r := *;
    }

    /** Drive never generates an ID that is in use. */
    method GenerateFileId(taken: set<string>) returns (r: Result<string, string>)
      ensures r.Success? ==> r.value !in taken
    {
      r := *;
      if r.Success? && r.value in taken {
        r := Failure("file ID service unavailable");
      }
    }

    /** Other jobs ask for files they have reserved. */
    ghost method OthersCreate()
      modifies this`creates
      ensures old(creates) <= creates
      ensures forall p :: p in creates ==> p in old(creates) || EverReserved(store.history, p)
    {
      var asked: seq<PreparedOutput> := *;
      if AllReserved(store.history, asked) {
        creates := creates + asked;
      }
    }

    /** Drive creates whatever file it is asked for. */
    method CreateDelivery(output: PreparedOutput, bytes: string) returns (r: Result<FileRevision, string>)
      modifies this
      ensures calls == old(calls) + [CreateAsked(output, bytes)]
      ensures old(creates) <= creates && output in creates
      ensures forall p :: p in creates ==> p in old(creates) || p == output || EverReserved(store.history, p)
    {
      OthersCreate();
      r := *;
      calls, creates := calls + [CreateAsked(output, bytes)], creates + [output];
    }

    method PutImmutable(path: string, bytes: string) returns (generation: Result<nat, string>) {
      generation := *;
    }

    method ReadGeneration(path: string, generation: nat) returns (r: Result<Option<string>, string>) {
      r := *;
    }

    method LoadApproval(fileId: string) returns (r: Result<Option<Approval>, string>)
      modifies this`calls
      ensures calls == old(calls) + (if r.Success? then [ApprovalOf(fileId, r.value)] else [])
    {
      r := *;
      calls := calls + (if r.Success? then [ApprovalOf(fileId, r.value)] else []);
    }

    method RegisterOriginal(registration: PreparedRegistration, generation: nat) returns (r: Result<(), string>)
      modifies this`calls
      ensures calls == old(calls) + (if r.Success? then [OriginalRegistered(registration, generation)] else [])
    {
      r := *;
      calls := calls + (if r.Success? then [OriginalRegistered(registration, generation)] else []);
    }

    method Frontier(documentId: string) returns (r: Result<RevisionPair, string>) {
      r := *;
    }

    method Process(pending: PendingInput) returns (r: Result<BrokerResult, string>)
      modifies this`calls
      ensures calls == old(calls) + (if r.Success? then [Processed(pending, r.value)] else [])
    {
      r := *;
      calls := calls + (if r.Success? then [Processed(pending, r.value)] else []);
    }
  }

  // ---------------------------------------------------------------- settling a change

  /** How a listed change was settled; `bytes` is the content it was settled with. */
  datatype Settlement =
    | Ignored
    | DuplicateOf(bytes: string)
    | Registered(bytes: string)
    | Finished(bytes: string)

  ghost predicate Ignorable(config: Config, c: Checkpoint, file: FileRevision) {
    || file.trashed
    || (BindingFor(c, file.fileId).None? && Generated(file))
    || (BindingFor(c, file.fileId).Some? && BindingFor(c, file.fileId).value.SideFor(file.fileId).Some?
        && var side := BindingFor(c, file.fileId).value.SideFor(file.fileId).value;
           config.Folder(side) !in file.parents || SupportedPayloadKind(side, file.mimeType).None?)
  }

  /** What a settlement means for the checkpoint at that moment. */
  ghost predicate SettledIn(sha: Sha, config: Config, c: Checkpoint, change: DriveChange, s: Settlement) {
    var file := change.file;
    match s
    case Ignored => Ignorable(config, c, file)
    case DuplicateOf(bytes) =>
      AcceptedContent(c, file.fileId) == Some(sha(bytes)) || DriveEventId(sha, file.fileId, file.version, sha(bytes)) in c.processed
    case Registered(bytes) => file.fileId in BoundFiles(c) && DriveEventId(sha, file.fileId, file.version, sha(bytes)) in c.processed
    case Finished(bytes) =>
      var e := DriveEventId(sha, file.fileId, file.version, sha(bytes));
      e in c.processed && e !in c.pendingInputs
  }

  /** The file was downloaded and was then still the listed revision, since call `from`. */
  ghost predicate Verified(calls: seq<Call>, from: nat, file: FileRevision, bytes: string) {
    && |bytes| == file.size
    && exists i :: from <= i < |calls| - 1 && calls[i] == Downloaded(file.fileId, bytes) && calls[i + 1] == Revision(file.fileId, file)
  }

  /** Since call `from` the broker gave its verdict on event `e`. */
  ghost predicate JudgedSince(calls: seq<Call>, from: nat, e: string) {
    exists i :: from <= i < |calls| && calls[i].Processed? && calls[i].input.eventId == e
  }

  /** Since call `from` the broker registered the original of event `e`. */
  ghost predicate RegisteredSince(calls: seq<Call>, from: nat, e: string) {
    exists i :: from <= i < |calls| && calls[i].OriginalRegistered? && calls[i].registration.eventId == e
  }

  /** The content a settlement names was downloaded, and the broker had its say on it. */
  ghost predicate Evidenced(sha: Sha, calls: seq<Call>, from: nat, file: FileRevision, s: Settlement) {
    match s
    case Ignored => true
    case DuplicateOf(bytes) => Verified(calls, from, file, bytes)
    case Registered(bytes) =>
      Verified(calls, from, file, bytes) && RegisteredSince(calls, from, DriveEventId(sha, file.fileId, file.version, sha(bytes)))
    case Finished(bytes) =>
      Verified(calls, from, file, bytes) && JudgedSince(calls, from, DriveEventId(sha, file.fileId, file.version, sha(bytes)))
  }

  lemma VerifiedLater(calls: seq<Call>, later: seq<Call>, from: nat, file: FileRevision, bytes: string)
    requires Verified(calls, from, file, bytes) && calls <= later
    ensures Verified(later, from, file, bytes)
  {
    var i :| from <= i < |calls| - 1 && calls[i] == Downloaded(file.fileId, bytes) && calls[i + 1] == Revision(file.fileId, file);
    assert later[i] == calls[i] && later[i + 1] == calls[i + 1];
  }

  lemma JudgedLater(calls: seq<Call>, later: seq<Call>, from: nat, e: string)
    requires JudgedSince(calls, from, e) && calls <= later
    ensures JudgedSince(later, from, e)
  {
    var i :| from <= i < |calls| && calls[i].Processed? && calls[i].input.eventId == e;
    assert later[i] == calls[i];
  }

  lemma JudgedEarlier(calls: seq<Call>, later: nat, from: nat, e: string)
    requires JudgedSince(calls, later, e) && from <= later
    ensures JudgedSince(calls, from, e)
  {
  }

  lemma RegisteredLater(calls: seq<Call>, later: seq<Call>, from: nat, e: string)
    requires RegisteredSince(calls, from, e) && calls <= later
    ensures RegisteredSince(later, from, e)
  {
    var i :| from <= i < |calls| && calls[i].OriginalRegistered? && calls[i].registration.eventId == e;
    assert later[i] == calls[i];
  }

  lemma EvidencedLater(sha: Sha, calls: seq<Call>, later: seq<Call>, from: nat, file: FileRevision, s: Settlement)
    requires Evidenced(sha, calls, from, file, s) && calls <= later
    ensures Evidenced(sha, later, from, file, s)
  {
    if !s.Ignored? {
      VerifiedLater(calls, later, from, file, s.bytes);
      var e := DriveEventId(sha, file.fileId, file.version, sha(s.bytes));
      if s.Finished? {
        JudgedLater(calls, later, from, e);
      } else if s.Registered? {
        RegisteredLater(calls, later, from, e);
      }
    }
  }

  /** The delivery is reserved or delivered. */
  predicate Answered(c: Checkpoint, d: string) {
    d in c.pendingOutputs || d in c.delivered
  }

  /** A delivery is to be reserved exactly when it is neither reserved nor delivered. */
  lemma OutputDecided(sha: Sha, config: Config, c: Checkpoint, output: BrokerOutput)
    requires |sha(output.eventId)| >= 16 && PrepareOutput(sha, config, c, output).Success?
    ensures var decision := PrepareOutput(sha, config, c, output).value;
            && (decision.DuplicateOutput? || decision.ReconcileOutput? || decision.ReserveOutput?)
            && (decision.ReserveOutput? <==> !Answered(c, DeliveryId(sha, output)))
            && (decision.ReserveOutput? ==> decision.output.deliveryId == DeliveryId(sha, output))
  {
  }

  predicate Idle(c: Checkpoint) {
    c.pendingInputs == map[] && c.pendingOutputs == map[]
  }

  function ReservedFiles(c: Checkpoint): set<string> {
    set d | d in c.pendingOutputs :: c.pendingOutputs[d].fileId
  }

  lemma OutputIsReserved(history: seq<Checkpoint>, i: nat, d: string)
    requires IsChain(history) && i < |history| && d in history[i].pendingOutputs
    ensures Reserved(history[i], history[i].pendingOutputs[d])
    ensures history[i].pendingOutputs[d].deliveryId == d
  {
    ChainValid(history, i);
    PendingNotDelivered(history[i], d);
  }

  /** What committing a delivery to its reserved file does to a persisted checkpoint. */
  lemma DeliveredOutputFacts(sha: Sha, history: seq<Checkpoint>, i: nat, output: PreparedOutput, fileVersion: nat)
    requires IsChain(history) && i < |history| && Reserved(history[i], output)
    requires CommitOutput(sha, history[i], output, output.fileId, fileVersion).Succeeds()
    ensures Valid(history[i])
    ensures var c, next := history[i], CommitOutput(sha, history[i], output, output.fileId, fileVersion).After(history[i]);
            && Valid(next) && Fresh(next) && Grows(c, next)
            && next.pendingInputs == c.pendingInputs && next.nextPageToken == c.nextPageToken
            && next.pendingOutputs == c.pendingOutputs - {output.deliveryId}
  {
    ChainValid(history, i);
    PendingNotDelivered(history[i], output.deliveryId);
    DeliverStep(sha, history[i], output, fileVersion);
    DeliverEffect(sha, history[i], output, fileVersion);
    CommitFreshOutputExactly(sha, history[i], output, fileVersion);
  }

  lemma PendingNamed(history: seq<Checkpoint>, i: nat, e: string)
    requires IsChain(history) && i < |history| && e in history[i].pendingInputs
    ensures history[i].pendingInputs[e].eventId == e && e in history[i].processed
  {
    ChainValid(history, i);
    assert PendingInputOk(history[i], e, history[i].pendingInputs[e]);
  }

  /** `next` follows `c` with the input under `e` no longer pending. */
  ghost predicate WithoutPending(c: Checkpoint, next: Checkpoint, e: string) {
    Kept(c, next) && next.pendingInputs == c.pendingInputs - {e} && next.nextPageToken == c.nextPageToken
  }

  lemma AcceptedFacts(c: Checkpoint, e: string)
    requires Valid(c) && Fresh(c)
    ensures AcceptInput(c, e).Succeeds() && WithoutPending(c, AcceptInput(c, e).After(c), e)
  {
    AcceptKeeps(c, e);
    AcceptEffect(c, e);
    AcceptInputSound(c, e);
    assert e !in c.pendingInputs ==> c.pendingInputs - {e} == c.pendingInputs;
  }

  lemma RejectedFacts(c: Checkpoint, e: string)
    requires Valid(c) && Fresh(c)
    ensures RejectInput(c, e).Succeeds() && WithoutPending(c, RejectInput(c, e).After(c), e)
  {
    RejectKeeps(c, e);
    RejectEffect(c, e);
    RejectInputSound(c, e);
  }

  /** What committing a fresh prepared input does to an idle persisted checkpoint. */
  lemma TakenFacts(history: seq<Checkpoint>, i: nat, input: PreparedInput, generation: nat)
    requires IsChain(history) && i < |history| && Idle(history[i]) && PlannedInput(input) && input.eventId !in history[i].processed
    requires CommitInput(history[i], input, generation).Succeeds()
    ensures var c, next := history[i], CommitInput(history[i], input, generation).After(history[i]);
            && Kept(c, next) && next.pendingInputs == map[input.eventId := PendingFor(input, generation)]
            && next.pendingOutputs == map[] && next.nextPageToken == c.nextPageToken
  {
    ChainValid(history, i);
    TakenFrom(history[i], input, generation);
  }

  lemma TakenFrom(c: Checkpoint, input: PreparedInput, generation: nat)
    requires Valid(c) && Idle(c) && PlannedInput(input) && input.eventId !in c.processed
    requires CommitInput(c, input, generation).Succeeds()
    ensures var next := CommitInput(c, input, generation).After(c);
            && Kept(c, next) && next.pendingInputs == map[input.eventId := PendingFor(input, generation)]
            && next.pendingOutputs == map[] && next.nextPageToken == c.nextPageToken
  {
    TakeKeeps(c, input, generation);
    TakenPending(c, input, generation);
  }

  lemma TakenPending(c: Checkpoint, input: PreparedInput, generation: nat)
    requires Idle(c) && input.eventId !in c.processed && CommitInput(c, input, generation).Succeeds()
    ensures var next := CommitInput(c, input, generation).After(c);
            && next.pendingInputs == map[input.eventId := PendingFor(input, generation)]
            && next.pendingOutputs == map[] && next.nextPageToken == c.nextPageToken
  {
    TakeEffect(c, input, generation);
  }

  lemma BindingsValid(history: seq<Checkpoint>, i: nat)
    requires IsChain(history) && i < |history|
    ensures BindingsOk(history[i])
  {
    ChainValid(history, i);
  }

  /** What a decision about a bound file means while nothing is pending: it is never deferred, never unbound. */
  lemma BoundDecision(sha: Sha, config: Config, history: seq<Checkpoint>, i: nat, change: DriveChange, bytes: string, frontier: RevisionPair)
    requires HexSha(sha) && IsChain(history) && i < |history| && Idle(history[i]) && BindingFor(history[i], change.file.fileId).Some?
    requires PrepareInput(sha, config, history[i], change, bytes, frontier).Success?
    ensures match PrepareInput(sha, config, history[i], change, bytes, frontier).value
            case Ignore(_) => SettledIn(sha, config, history[i], change, Ignored)
            case Duplicate(_) => SettledIn(sha, config, history[i], change, DuplicateOf(bytes)) && !change.file.trashed
            case Unbound(_) => false
            case Deferred(_, _) => false
            case Upload(input) =>
              && PlannedInput(input) && input.eventId !in history[i].processed && !change.file.trashed
              && input.eventId == DriveEventId(sha, change.file.fileId, change.file.version, sha(bytes))
  {
    if PrepareInput(sha, config, history[i], change, bytes, frontier).value.Upload? {
      UploadIsPlanned(sha, config, history[i], change, bytes, frontier);
    }
  }

  lemma RegistrationDecided(sha: Sha, config: Config, c: Checkpoint, change: DriveChange, bytes: string, approval: RegistrationApproval)
    requires HexSha(sha) && PrepareRegistration(sha, config, c, change, bytes, approval).Success?
    ensures match PrepareRegistration(sha, config, c, change, bytes, approval).value
            case IgnoreOriginal(_) => true
            case DuplicateOriginal(_) => SettledIn(sha, config, c, change, DuplicateOf(bytes))
            case RegisterOriginal(registration) =>
              && PlannedRegistration(registration) && registration.fileId == change.file.fileId
              && registration.eventId == DriveEventId(sha, change.file.fileId, change.file.version, sha(bytes))
              && registration.eventId !in c.processed
  {
  }

  lemma RegisteredFacts(history: seq<Checkpoint>, i: nat, registration: PreparedRegistration)
    requires IsChain(history) && i < |history| && Idle(history[i]) && PlannedRegistration(registration)
    requires CommitRegistration(history[i], registration).Succeeds()
    ensures var c, next := history[i], CommitRegistration(history[i], registration).After(history[i]);
            && Valid(c) && Kept(c, next) && Idle(next) && next.nextPageToken == c.nextPageToken
            && registration.fileId in BoundFiles(next)
            && (BindingFor(c, registration.fileId).None? ==> registration.eventId in next.processed)
  {
    var c := history[i];
    ChainValid(history, i);
    RegisterKeeps(c, registration);
    RegisterEffect(c, registration);
    BindingForMeaning(c, registration.fileId);
    RegisteredIsBound(c, registration);
  }

  lemma RegisteredIsBound(c: Checkpoint, registration: PreparedRegistration)
    requires BindingsOk(c) && CommitRegistration(c, registration).Succeeds()
    ensures registration.fileId in BoundFiles(CommitRegistration(c, registration).After(c))
  {
    BindingForMeaning(c, registration.fileId);
    var next := CommitRegistration(c, registration).After(c);
    if next != c {
      assert registration.fileId in next.documents[registration.documentId].Files();
    }
  }

  lemma BoundFacts(history: seq<Checkpoint>, i: nat, artifact: PreparedArtifact)
    requires IsChain(history) && i < |history| && Idle(history[i]) && CommitArtifact(history[i], artifact).Succeeds()
    ensures var c, next := history[i], CommitArtifact(history[i], artifact).After(history[i]);
            Valid(c) && Kept(c, next) && Idle(next) && next.nextPageToken == c.nextPageToken
  {
    ChainValid(history, i);
    BindKeeps(history[i], artifact);
    BindEffect(history[i], artifact);
  }

  /** Change `i` was settled, with evidence, at the persisted checkpoint logged for it. */
  ghost predicate SettledAt(
    sha: Sha, config: Config, history: seq<Checkpoint>, calls: seq<Call>, from: nat, change: DriveChange,
    entry: (Settlement, nat), first: nat, last: nat)
  {
    && first <= entry.1 <= last < |history|
    && SettledIn(sha, config, history[entry.1], change, entry.0)
    && Evidenced(sha, calls, from, change.file, entry.0)
  }

  ghost predicate SettledAll(
    sha: Sha, config: Config, history: seq<Checkpoint>, calls: seq<Call>, from: nat, changes: seq<DriveChange>,
    log: seq<(Settlement, nat)>, first: nat, last: nat)
  {
    |log| == |changes| && forall i :: 0 <= i < |changes| ==> SettledAt(sha, config, history, calls, from, changes[i], log[i], first, last)
  }

  lemma SettledLater(
    sha: Sha, config: Config, history: seq<Checkpoint>, calls: seq<Call>, from: nat, change: DriveChange, entry: (Settlement, nat),
    first: nat, last: nat, laterHistory: seq<Checkpoint>, laterCalls: seq<Call>, laterLast: nat)
    requires SettledAt(sha, config, history, calls, from, change, entry, first, last)
    requires history <= laterHistory && calls <= laterCalls && last <= laterLast < |laterHistory|
    ensures SettledAt(sha, config, laterHistory, laterCalls, from, change, entry, first, laterLast)
  {
    EvidencedLater(sha, calls, laterCalls, from, change.file, entry.0);
    assert laterHistory[entry.1] == history[entry.1];
  }

  lemma OneMoreSettled(
    sha: Sha, config: Config, history: seq<Checkpoint>, calls: seq<Call>, from: nat, changes: seq<DriveChange>, i: nat,
    log: seq<(Settlement, nat)>, first: nat, last: nat, laterHistory: seq<Checkpoint>, laterCalls: seq<Call>, laterLast: nat, s: Settlement)
    requires i < |changes| && SettledAll(sha, config, history, calls, from, changes[..i], log, first, last)
    requires history <= laterHistory && calls <= laterCalls && last <= laterLast < |laterHistory|
    requires SettledAt(sha, config, laterHistory, laterCalls, from, changes[i], (s, laterLast), first, laterLast)
    ensures SettledAll(sha, config, laterHistory, laterCalls, from, changes[..i + 1], log + [(s, laterLast)], first, laterLast)
  {
    var longer := log + [(s, laterLast)];
    forall k | 0 <= k < |longer|
      ensures SettledAt(sha, config, laterHistory, laterCalls, from, changes[..i + 1][k], longer[k], first, laterLast)
    {
      if k < i {
        assert changes[..i][k] == changes[..i + 1][k];
        SettledLater(sha, config, history, calls, from, changes[k], log[k], first, last, laterHistory, laterCalls, laterLast);
      }
    }
  }

  lemma EvidencedEarlier(sha: Sha, calls: seq<Call>, later: nat, from: nat, file: FileRevision, s: Settlement)
    requires Evidenced(sha, calls, later, file, s) && from <= later
    ensures Evidenced(sha, calls, from, file, s)
  {
  }

  lemma SettledEarlier(
    sha: Sha, config: Config, history: seq<Checkpoint>, calls: seq<Call>, later: nat, from: nat, changes: seq<DriveChange>,
    log: seq<(Settlement, nat)>, first: nat, last: nat)
    requires SettledAll(sha, config, history, calls, later, changes, log, first, last) && from <= later
    ensures SettledAll(sha, config, history, calls, from, changes, log, first, last)
  {
    forall i | 0 <= i < |changes| ensures SettledAt(sha, config, history, calls, from, changes[i], log[i], first, last) {
      assert SettledAt(sha, config, history, calls, later, changes[i], log[i], first, last);
      EvidencedEarlier(sha, calls, later, from, changes[i].file, log[i].0);
    }
  }

  lemma AllSettledLater(
    sha: Sha, config: Config, history: seq<Checkpoint>, calls: seq<Call>, from: nat, changes: seq<DriveChange>,
    log: seq<(Settlement, nat)>, first: nat, last: nat, laterHistory: seq<Checkpoint>)
    requires SettledAll(sha, config, history, calls, from, changes, log, first, last) && history <= laterHistory && last < |history|
    ensures SettledAll(sha, config, laterHistory, calls, from, changes, log, first, last)
  {
    forall k | 0 <= k < |changes| ensures SettledAt(sha, config, laterHistory, calls, from, changes[k], log[k], first, last) {
      SettledLater(sha, config, history, calls, from, changes[k], log[k], first, last, laterHistory, calls, last);
    }
  }

  // ---------------------------------------------------------------- the work of one run

  /** Since call `from` Drive answered with these changes and this cursor: the page at `token` with its successor,
      or, without a token, a cursor captured before the folders were listed. */
  ghost predicate Listed(calls: seq<Call>, from: nat, token: Option<string>, changes: seq<DriveChange>, cursor: string) {
    if token.Some? then
      exists i :: && from <= i < |calls| && calls[i].Changes? && calls[i].token == token.value
                  && calls[i].page.changes == changes && DurableSuccessor(calls[i].page) == Success(cursor)
    else
      exists i, j :: && from <= i < j < |calls| && calls[i] == StartToken(cursor) && calls[j].InitialFiles?
                     && changes == AsChanges(calls[j].files)
  }

  function AsChanges(files: seq<FileRevision>): seq<DriveChange> {
    seq(|files|, i requires 0 <= i < |files| => DriveChange(files[i]))
  }

  lemma ListedEarlier(calls: seq<Call>, later: nat, from: nat, token: Option<string>, changes: seq<DriveChange>, cursor: string)
    requires Listed(calls, later, token, changes, cursor) && from <= later
    ensures Listed(calls, from, token, changes, cursor)
  {
  }

  lemma ListedLater(calls: seq<Call>, later: seq<Call>, from: nat, token: Option<string>, changes: seq<DriveChange>, cursor: string)
    requires Listed(calls, from, token, changes, cursor) && calls <= later
    ensures Listed(later, from, token, changes, cursor)
  {
    if token.Some? {
      var i :| && from <= i < |calls| && calls[i].Changes? && calls[i].token == token.value
               && calls[i].page.changes == changes && DurableSuccessor(calls[i].page) == Success(cursor);
      assert later[i] == calls[i];
    } else {
      var i, j :| && from <= i < j < |calls| && calls[i] == StartToken(cursor) && calls[j].InitialFiles?
                  && changes == AsChanges(calls[j].files);
      assert later[i] == calls[i] && later[j] == calls[j];
    }
  }

  /** The approval calls that ordering these changes makes: one for each file nothing binds, in order. */
  function AskedFor(changes: seq<DriveChange>, c: Checkpoint, answers: seq<Option<Approval>>): seq<Call>
    requires |answers| == |changes|
    decreases |changes|
  {
    if changes == [] then []
    else
      var n := |changes| - 1;
      AskedFor(changes[..n], c, answers[..n]) + AskedAbout(changes[n].file.fileId, c, answers[n])
  }

  function AskedAbout(file: string, c: Checkpoint, answer: Option<Approval>): seq<Call> {
    if file in BoundFiles(c) then [] else [ApprovalOf(file, answer)]
  }

  predicate IsOriginal(change: DriveChange, c: Checkpoint, answer: Option<Approval>) {
    change.file.fileId !in BoundFiles(c) && answer.Some? && answer.value.OriginalApproval?
  }

  /** Which changes are to unbound files approved as originals. */
  function Approved(changes: seq<DriveChange>, c: Checkpoint, answers: seq<Option<Approval>>): (flags: seq<bool>)
    requires |answers| == |changes|
    ensures |flags| == |changes|
  {
    seq(|changes|, i requires 0 <= i < |changes| => IsOriginal(changes[i], c, answers[i]))
  }

  function PickedOriginals(changes: seq<DriveChange>, c: Checkpoint, answers: seq<Option<Approval>>, approved: bool): seq<DriveChange>
    requires |answers| == |changes|
  {
    Picked(changes, Approved(changes, c, answers), approved)
  }

  /** Approved originals first; otherwise the listed order. */
  function Ordered(changes: seq<DriveChange>, c: Checkpoint, answers: seq<Option<Approval>>): seq<DriveChange>
    requires |answers| == |changes|
  {
    PickedOriginals(changes, c, answers, true) + PickedOriginals(changes, c, answers, false)
  }

  /** The state of ordering after `i` changes: the answers so far, the two groups, and the approval calls made. */
  ghost predicate Ordering(
    changes: seq<DriveChange>, c: Checkpoint, i: nat, answers: seq<Option<Approval>>, originals: seq<DriveChange>,
    remaining: seq<DriveChange>, asked: seq<Call>)
  {
    && i <= |changes| && |answers| == i && asked == AskedFor(changes[..i], c, answers)
    && originals == PickedOriginals(changes[..i], c, answers, true)
    && remaining == PickedOriginals(changes[..i], c, answers, false)
  }

  lemma OneMoreAsked(
    changes: seq<DriveChange>, c: Checkpoint, i: nat, answers: seq<Option<Approval>>, originals: seq<DriveChange>,
    remaining: seq<DriveChange>, asked: seq<Call>, answer: Option<Approval>)
    requires i < |changes| && Ordering(changes, c, i, answers, originals, remaining, asked)
    ensures var original := IsOriginal(changes[i], c, answer);
            Ordering(changes, c, i + 1, answers + [answer], if original then originals + [changes[i]] else originals,
                     if original then remaining else remaining + [changes[i]], asked + AskedAbout(changes[i].file.fileId, c, answer))
  {
    var flags := Approved(changes[..i + 1], c, answers + [answer]);
    assert changes[..i + 1][..i] == changes[..i] && (answers + [answer])[..i] == answers;
    assert flags[..i] == Approved(changes[..i], c, answers);
  }

  lemma AllAsked(
    changes: seq<DriveChange>, c: Checkpoint, answers: seq<Option<Approval>>, originals: seq<DriveChange>,
    remaining: seq<DriveChange>, asked: seq<Call>)
    requires Ordering(changes, c, |changes|, answers, originals, remaining, asked)
    ensures |answers| == |changes| && originals + remaining == Ordered(changes, c, answers) && asked == AskedFor(changes, c, answers)
  {
    assert changes[..|changes|] == changes;
  }

  /** Since call `from` the approval store gave these answers about these changes. */
  ghost predicate AskedSince(calls: seq<Call>, from: nat, changes: seq<DriveChange>, c: Checkpoint, answers: seq<Option<Approval>>)
    requires |answers| == |changes|
  {
    exists i :: from <= i <= |calls| && AskedFor(changes, c, answers) <= calls[i..]
  }

  lemma AskedLater(calls: seq<Call>, later: seq<Call>, from: nat, changes: seq<DriveChange>, c: Checkpoint, answers: seq<Option<Approval>>)
    requires |answers| == |changes| && AskedSince(calls, from, changes, c, answers) && calls <= later
    ensures AskedSince(later, from, changes, c, answers)
  {
    var i :| from <= i <= |calls| && AskedFor(changes, c, answers) <= calls[i..];
    assert calls[i..] <= later[i..];
  }

  /** The changes whose flag is `flag`, in order. */
  function Picked(changes: seq<DriveChange>, flags: seq<bool>, flag: bool): seq<DriveChange>
    requires |flags| == |changes|
    decreases |changes|
  {
    if changes == [] then []
    else
      var n := |changes| - 1;
      Picked(changes[..n], flags[..n], flag) + (if flags[n] == flag then [changes[n]] else [])
  }

  /** Picking by a flag drops and repeats nothing. */
  lemma {:induction false} PickedAll(changes: seq<DriveChange>, flags: seq<bool>)
    requires |flags| == |changes|
    ensures multiset(Picked(changes, flags, true) + Picked(changes, flags, false)) == multiset(changes)
    decreases |changes|
  {
    if changes != [] {
      var n := |changes| - 1;
      PickedAll(changes[..n], flags[..n]);
      assert changes == changes[..n] + [changes[n]];
    }
  }

  /** The course of a run: what it loaded and recovered, the work it listed, the approvals it was told of, how each
      change was settled at which checkpoint, and what it persisted last. */
  datatype RunTrace = RunTrace(
    loaded: Stored, recovered: Stored, changes: seq<DriveChange>, cursor: string, answers: seq<Option<Approval>>,
    log: seq<(Settlement, nat)>, last: Stored)

  /** What a run works through is a permutation of what Drive listed: no change is dropped or repeated. */
  lemma OrderedIsPermutation(changes: seq<DriveChange>, c: Checkpoint, answers: seq<Option<Approval>>)
    requires |answers| == |changes|
    ensures multiset(Ordered(changes, c, answers)) == multiset(changes)
  {
    PickedAll(changes, Approved(changes, c, answers));
  }

  /** A settled event stays settled, whatever any job persists later: it stays processed,
      and its file stays bound. */
  lemma SettledStays(sha: Sha, config: Config, history: seq<Checkpoint>, i: nat, j: nat, change: DriveChange, s: Settlement)
    requires IsChain(history) && i <= j < |history| && SettledIn(sha, config, history[i], change, s)
    requires s.Registered? || s.Finished?
    ensures DriveEventId(sha, change.file.fileId, change.file.version, sha(s.bytes)) in history[j].processed
    ensures s.Registered? ==> change.file.fileId in BoundFiles(history[j])
  {
    ChainGrows(history, i, j);
    ChainValid(history, i);
    if s.Registered? {
      BoundStays(history[i], history[j], change.file.fileId);
    }
  }

  /** What was persisted after `before` carries page token `token`. */
  ghost predicate OnlyToken(before: seq<Stored>, after: seq<Stored>, token: Option<string>) {
    before <= after && forall k :: |before| <= k < |after| ==> after[k].value.nextPageToken == token
  }

  class GatewayJob {
    const sha: Sha
    const config: Config
    const store: CheckpointStore
    const services: Services

    constructor (sha: Sha, config: Config, store: CheckpointStore, services: Services)
      requires store.Consistent() && HexSha(sha) && config.Valid()
      requires services.store == store && AllReserved(store.history, services.creates)
      ensures Consistent() && this.store == store && this.services == services
    {
      this.sha, this.config, this.store, this.services := sha, config, store, services;
    }

    /** What every job keeps true of what all jobs share. */
    ghost predicate Consistent()
      reads this, store, services
    {
      && store.Consistent() && HexSha(sha) && config.Valid()
      && services.store == store && AllReserved(store.history, services.creates)
    }

    /** The job is still consistent, nothing persisted or answered is forgotten, and nothing was loaded. */
    twostate predicate Continued()
      reads this, store, services
    {
      && Consistent() && old(store.history) <= store.history && old(services.calls) <= services.calls
      && store.loads == old(store.loads)
    }

    /** `s` descends from a persisted checkpoint. */
    ghost predicate Linked(s: Stored)
      reads this, store
    {
      && s.version < |store.history| && Valid(s.value) && Fresh(s.value)
      && Grows(store.history[s.version], s.value)
    }

    ghost predicate Persisted(s: Stored)
      reads this, store
    {
      s.version < |store.history| && store.history[s.version] == s.value
    }

    /** Since `before` this job persisted only checkpoints with page token `token`. */
    ghost predicate TokenRetained(before: seq<Stored>, token: Option<string>)
      reads this, store
    {
      OnlyToken(before, store.swaps, token)
    }

    /** Since `before` this job persisted `last` after checkpoints with page token `token` only. */
    ghost predicate TokenMovedLast(before: seq<Stored>, token: Option<string>, last: Stored)
      reads this, store
    {
      store.swaps != [] && store.swaps[|store.swaps| - 1] == last && OnlyToken(before, store.swaps[..|store.swaps| - 1], token)
    }

    /** The job went on from `before` to `after`, on its own line of checkpoints. */
    ghost predicate Advanced(before: Stored, after: Stored)
      reads this, store
    {
      && Persisted(after) && before.version <= after.version
      && Grows(before.value, after.value) && after.value.nextPageToken == before.value.nextPageToken
    }

    method Persist(s: Stored) returns (r: Result<Stored, string>)
      requires Consistent() && Linked(s)
      modifies store
      ensures Continued()
      ensures r.Success? ==> Persisted(r.value) && r.value == Stored(s.value, s.version + 1)
      ensures store.swaps == old(store.swaps) + (if r.Success? then [r.value] else [])
    {
      var valid := Validate(s.value);
      if !valid {
        return Failure("invalid checkpoint");
      }
      r := store.CompareAndSwap(s.version, s.value);
      ReservedStay(old(store.history), store.history, services.creates);
    }

    /** Downloads a listed revision, and checks that it is still the listed one. */
    method DownloadVerified(listed: FileRevision) returns (r: Result<string, string>)
      modifies services`calls
      ensures old(services.calls) <= services.calls
      ensures r.Success? ==> Verified(services.calls, |old(services.calls)|, listed, r.value)
    {
      ghost var from := |services.calls|;
      var bytes :- services.Download(listed.fileId);
      var current :- services.CurrentRevision(listed.fileId);
      if current != listed {
        return Failure("Drive file changed while it was being downloaded");
      }
      if |bytes| != listed.size {
        return Failure("download length does not match declared size");
      }
      assert services.calls[from] == Downloaded(listed.fileId, bytes) && services.calls[from + 1] == Revision(listed.fileId, listed);
      r := Success(bytes);
    }

    // ---------------------------------------------------------------- outputs

    /** Reserves a Drive file for a broker output, in memory, unless it is reserved or delivered already. */
    method ReserveOutput(c: Checkpoint, output: BrokerOutput) returns (r: Result<Checkpoint, string>)
      requires HexSha(sha) && config.Valid() && Valid(c) && Fresh(c)
      ensures r.Success? ==> && Valid(r.value) && Fresh(r.value) && Grows(c, r.value)
                             && r.value.pendingInputs == c.pendingInputs && r.value.nextPageToken == c.nextPageToken
                             && Answered(r.value, DeliveryId(sha, output))
                             && (Answered(c, DeliveryId(sha, output)) ==> r.value == c)
    {
      GrowsReflexive(c);
      assert IsHexHash(sha(output.eventId));
      var decision :- PrepareOutput(sha, config, c, output);
      OutputDecided(sha, config, c, output);
      match decision {
        case DuplicateOutput(_) => r := Success(c);
        case ReconcileOutput(_) => r := Success(c);
        case ReserveOutput(prepared) => r := ReserveFile(c, output, prepared);
        case _ =>
          assert false;
          r := Failure("unexpected output decision before reservation");
      }
    }

    method ReserveFile(c: Checkpoint, output: BrokerOutput, prepared: PreparedOutput) returns (r: Result<Checkpoint, string>)
      requires HexSha(sha) && config.Valid() && Valid(c) && Fresh(c) && IsHexHash(sha(output.eventId))
      requires PrepareOutput(sha, config, c, output) == Success(OutputDecision.ReserveOutput(prepared))
      ensures r.Success? ==> && Valid(r.value) && Fresh(r.value) && Grows(c, r.value)
                             && r.value.pendingInputs == c.pendingInputs && r.value.nextPageToken == c.nextPageToken
                             && Answered(r.value, DeliveryId(sha, output))
    {
      var fileId :- services.GenerateFileId(BoundFiles(c) + ReservedFiles(c));
      var reserved := prepared.(fileId := fileId);
      OutputIsPlanned(sha, config, c, output, fileId);
      var checkpoint := new DriveGatewayCheckpoint(c);
      var done := checkpoint.ReserveDriveOutput(reserved);
      if done.Failure? {
        return Failure(done.error);
      }
      ReserveStep(config, c, reserved);
      ReserveEffect(c, reserved);
      r := Success(checkpoint.View());
    }

    /** Every create since call `from` asked for `output`, with bytes of its recorded hash. */
    ghost predicate CreatesOnly(from: nat, output: PreparedOutput)
      reads this, services
    {
      forall i :: from <= i < |services.calls| && services.calls[i].CreateAsked? ==>
        services.calls[i].output == output && sha(services.calls[i].bytes) == output.contentSha256
    }

    /** Creates the Drive file of a persisted reservation from the broker's output. */
    method CreateFile(s: Stored, create: PreparedOutput) returns (r: Result<nat, string>)
      requires Consistent() && Persisted(s) && Reserved(s.value, create)
      modifies services
      ensures Continued() && CreatesOnly(|old(services.calls)|, create)
    {
      var bytes :- services.ReadGeneration(create.objectPath, create.generation);
      if bytes.None? {
        return Failure("broker output is missing");
      }
      if sha(bytes.value) != create.contentSha256 {
        return Failure("broker output hash does not match its reservation");
      }
      assert EverReserved(store.history, create);
      var created :- services.CreateDelivery(create, bytes.value);
      var again :- Reconcile(config, s.value, create, [created]);
      if !again.ExistingOutput? {
        return Failure("created Drive delivery failed reconciliation");
      }
      r := Success(again.fileVersion);
    }

    /** Finds or creates the Drive file of a persisted reservation. */
    method FindOrCreate(s: Stored, output: PreparedOutput) returns (r: Result<nat, string>)
      requires Consistent() && Persisted(s) && Reserved(s.value, output)
      modifies services
      ensures Continued() && CreatesOnly(|old(services.calls)|, output)
    {
      var files :- services.FindDelivery(output.deliveryId);
      var decision :- Reconcile(config, s.value, output, files);
      if decision.ExistingOutput? {
        return Success(decision.fileVersion);
      }
      if !decision.CreateOutput? {
        return Failure("unexpected output reconciliation decision");
      }
      r := CreateFile(s, output);
    }

    /** Records the delivery, in memory. */
    method CommitDelivery(s: Stored, output: PreparedOutput, fileVersion: nat) returns (r: Result<Checkpoint, string>)
      requires Consistent() && Persisted(s) && Reserved(s.value, output)
      ensures r.Success? ==> && Linked(Stored(r.value, s.version)) && Grows(s.value, r.value)
                             && r.value.pendingInputs == s.value.pendingInputs && r.value.nextPageToken == s.value.nextPageToken
                             && r.value.pendingOutputs == s.value.pendingOutputs - {output.deliveryId}
    {
      var checkpoint := new DriveGatewayCheckpoint(s.value);
      var done := checkpoint.CommitDriveOutput(sha, output, output.fileId, fileVersion);
      if done.Failure? {
        return Failure(done.error);
      }
      ChainValid(store.history, s.version);
      DeliveredOutputFacts(sha, store.history, s.version, output, fileVersion);
      r := Success(checkpoint.View());
    }

    /** Whatever it asks Drive to create, it asks for the reserved file. */
    method DeliverOutput(s: Stored, d: string) returns (r: Result<Stored, string>)
      requires Consistent() && Persisted(s) && d in s.value.pendingOutputs
      modifies store, services
      ensures Continued()
      ensures TokenRetained(old(store.swaps), s.value.nextPageToken)
      ensures CreatesOnly(|old(services.calls)|, s.value.pendingOutputs[d])
      ensures r.Success? ==> && Advanced(s, r.value)
                             && r.value.value.pendingInputs == s.value.pendingInputs
                             && r.value.value.pendingOutputs == s.value.pendingOutputs - {d}
    {
      var output := s.value.pendingOutputs[d];
      OutputIsReserved(store.history, s.version, d);
      var version := FindOrCreate(s, output);
      if version.Failure? {
        return Failure(version.error);
      }
      var next := CommitDelivery(s, output, version.value);
      if next.Failure? {
        return Failure(next.error);
      }
      r := Persist(Stored(next.value, s.version));
    }

    method RecoverPendingOutputs(s: Stored) returns (r: Result<Stored, string>)
      requires Consistent() && Persisted(s)
      modifies store, services
      ensures Continued()
      ensures TokenRetained(old(store.swaps), s.value.nextPageToken)
      ensures r.Success? ==> && Advanced(s, r.value)
                             && r.value.value.pendingInputs == s.value.pendingInputs && r.value.value.pendingOutputs == map[]
    {
      GrowsReflexive(s.value);
      var now := s;
      var todo := s.value.pendingOutputs.Keys;
      while todo != {}
        invariant Continued()
        invariant TokenRetained(old(store.swaps), s.value.nextPageToken)
        invariant Advanced(s, now) && now.value.pendingInputs == s.value.pendingInputs
        invariant now.value.pendingOutputs.Keys == todo
        decreases |todo|
      {
        var d :| d in todo;
        ghost var before := now.value;
        now :- DeliverOutput(now, d);
        GrowsTransitive(s.value, before, now.value);
        todo := todo - {d};
      }
      r := Success(now);
    }

    // ---------------------------------------------------------------- inputs

    /** Marks a pending input accepted or rejected, in memory. */
    method JudgeInput(c: Checkpoint, e: string, accepted: bool) returns (r: Result<Checkpoint, string>)
      requires Valid(c) && Fresh(c)
      ensures r.Success? ==> WithoutPending(c, r.value, e)
    {
      var checkpoint := new DriveGatewayCheckpoint(c);
      var done;
      if accepted {
        done := checkpoint.AcceptDriveInput(e);
      } else {
        done := checkpoint.RejectDriveInput(e);
      }
      r := if done.Success? then Success(checkpoint.View()) else Failure(done.error);
      AcceptedFacts(c, e);
      RejectedFacts(c, e);
    }

    /** Records the broker's verdict on a pending input and reserves its output, in memory. */
    method SettleInput(c: Checkpoint, input: PendingInput, verdict: BrokerResult) returns (r: Result<Checkpoint, string>)
      requires HexSha(sha) && config.Valid() && Valid(c) && Fresh(c)
      ensures r.Success? ==> WithoutPending(c, r.value, input.eventId)
      ensures r.Success? && verdict.accepted && verdict.output.Some? ==> Answered(r.value, DeliveryId(sha, verdict.output.value))
    {
      r := JudgeInput(c, input.eventId, verdict.accepted);
      if r.Success? && verdict.accepted && verdict.output.Some? {
        ghost var judged := r.value;
        r := ReserveOutput(r.value, verdict.output.value);
        if r.Success? {
          GrowsTransitive(c, judged, r.value);
        }
      }
    }

    /** Lets the broker process a pending input, persists its verdict, and delivers every reserved output. */
    method FinishPendingInput(s: Stored, input: PendingInput) returns (r: Result<Stored, string>)
      requires Consistent() && Persisted(s)
      modifies store, services
      ensures Continued()
      ensures TokenRetained(old(store.swaps), s.value.nextPageToken)
      ensures r.Success? ==> && Advanced(s, r.value)
                             && r.value.value.pendingInputs == s.value.pendingInputs - {input.eventId}
                             && r.value.value.pendingOutputs == map[]
                             && JudgedSince(services.calls, |old(services.calls)|, input.eventId)
    {
      ghost var from := |services.calls|;
      var verdict :- services.Process(input);
      assert services.calls[from] == Processed(input, verdict);
      ChainValid(store.history, s.version);
      var settled := SettleInput(s.value, input, verdict);
      if settled.Failure? {
        return Failure(settled.error);
      }
      var persisted := Persist(Stored(settled.value, s.version));
      if persisted.Failure? {
        return Failure(persisted.error);
      }
      var recovered := RecoverPendingOutputs(persisted.value);
      if recovered.Failure? {
        return Failure(recovered.error);
      }
      GrowsTransitive(s.value, settled.value, recovered.value.value);
      r := Success(recovered.value);
    }

    method RecoverPendingInputs(s: Stored) returns (r: Result<Stored, string>)
      requires Consistent() && Persisted(s)
      modifies store, services
      ensures Continued()
      ensures TokenRetained(old(store.swaps), s.value.nextPageToken)
      ensures r.Success? ==> Advanced(s, r.value) && r.value.value.pendingInputs == map[]
    {
      GrowsReflexive(s.value);
      var now := s;
      var todo := s.value.pendingInputs.Keys;
      while todo != {}
        invariant Continued()
        invariant TokenRetained(old(store.swaps), s.value.nextPageToken)
        invariant Advanced(s, now) && now.value.pendingInputs.Keys == todo
        decreases |todo|
      {
        var e :| e in todo;
        ghost var before := now.value;
        PendingNamed(store.history, now.version, e);
        now :- FinishPendingInput(now, now.value.pendingInputs[e]);
        GrowsTransitive(s.value, before, now.value);
        todo := todo - {e};
      }
      r := Success(now);
    }

    /** Records a prepared input with its evidence as pending, in memory. */
    method RecordInput(s: Stored, input: PreparedInput, generation: nat) returns (r: Result<Checkpoint, string>)
      requires Consistent() && Persisted(s) && Idle(s.value) && PlannedInput(input) && input.eventId !in s.value.processed
      ensures r.Success? ==> && Linked(Stored(r.value, s.version)) && Grows(s.value, r.value)
                             && r.value.pendingInputs == map[input.eventId := PendingFor(input, generation)]
                             && r.value.nextPageToken == s.value.nextPageToken
    {
      ChainValid(store.history, s.version);
      var checkpoint := new DriveGatewayCheckpoint(s.value);
      var done := checkpoint.CommitDriveInput(input, generation);
      if done.Failure? {
        return Failure(done.error);
      }
      TakenFacts(store.history, s.version, input, generation);
      r := Success(checkpoint.View());
    }

    /** Persists a prepared input with its evidence as pending. */
    method PersistInput(s: Stored, input: PreparedInput, generation: nat) returns (r: Result<Stored, string>)
      requires Consistent() && Persisted(s) && Idle(s.value) && PlannedInput(input) && input.eventId !in s.value.processed
      modifies store
      ensures Continued()
      ensures TokenRetained(old(store.swaps), s.value.nextPageToken)
      ensures r.Success? ==> Advanced(s, r.value) && r.value.value.pendingInputs == map[input.eventId := PendingFor(input, generation)]
    {
      var recorded := RecordInput(s, input, generation);
      if recorded.Failure? {
        return Failure(recorded.error);
      }
      r := Persist(Stored(recorded.value, s.version));
    }

    /** Uploads a prepared input as evidence, persists it as pending, and finishes it. */
    method TakeInput(s: Stored, bytes: string, input: PreparedInput) returns (r: Result<Stored, string>)
      requires Consistent() && Persisted(s) && Idle(s.value) && PlannedInput(input) && input.eventId !in s.value.processed
      modifies store, services
      ensures Continued()
      ensures TokenRetained(old(store.swaps), s.value.nextPageToken)
      ensures r.Success? ==> && Advanced(s, r.value) && Idle(r.value.value) && input.eventId in r.value.value.processed
                             && JudgedSince(services.calls, |old(services.calls)|, input.eventId)
    {
      var generation :- services.PutImmutable(input.objectPath, bytes);
      var taken := PersistInput(s, input, generation);
      if taken.Failure? {
        return Failure(taken.error);
      }
      var pending := taken.value.value.pendingInputs[input.eventId];
      PendingNamed(store.history, taken.value.version, input.eventId);
      ghost var before := taken.value.value;
      var finished := FinishPendingInput(taken.value, pending);
      if finished.Failure? {
        return Failure(finished.error);
      }
      GrowsTransitive(s.value, before, finished.value.value);
      r := Success(finished.value);
    }

    // ---------------------------------------------------------------- changes

    /** A settled change: the job stays on its line of checkpoints, with nothing pending, and since call `from` the
        content was downloaded and judged. */
    ghost predicate Settles(s: Stored, change: DriveChange, from: nat, done: (Stored, Settlement))
      reads this, store, services
    {
      && Advanced(s, done.0) && Idle(done.0.value) && SettledIn(sha, config, done.0.value, change, done.1)
      && Evidenced(sha, services.calls, from, change.file, done.1)
    }

    method ProcessBoundChange(s: Stored, change: DriveChange, bytes: string, ghost from: nat) returns (r: Result<(Stored, Settlement), string>)
      requires Consistent() && Persisted(s) && Idle(s.value) && from <= |services.calls|
      requires !change.file.trashed ==> Verified(services.calls, from, change.file, bytes)
      modifies store, services
      ensures Continued()
      ensures TokenRetained(old(store.swaps), s.value.nextPageToken)
      ensures r.Success? ==> Settles(s, change, from, r.value)
      ensures r.Success? && !r.value.1.Ignored? ==> r.value.1.bytes == bytes
    {
      BindingsValid(store.history, s.version);
      GrowsReflexive(s.value);
      var binding := FindBinding(s.value, change.file.fileId);
      if binding.None? {
        return Failure("Drive binding disappeared");
      }
      var frontier :- services.Frontier(binding.value.documentId);
      var decision :- PrepareDriveInput(sha, config, s.value, change, bytes, frontier);
      BoundDecision(sha, config, store.history, s.version, change, bytes, frontier);
      match decision {
        case Ignore(_) => r := Success((s, Ignored));
        case Duplicate(_) => r := Success((s, DuplicateOf(bytes)));
        case Unbound(_) =>
          assert false;
          r := Failure("bound Drive file became unbound");
        case Deferred(_, _) =>
          assert false;
          r := Failure("Drive input is still blocked by a pending event");
        case Upload(input) =>
          ghost var before := services.calls;
          var taken := TakeInput(s, bytes, input);
          if taken.Failure? {
            return Failure(taken.error);
          }
          VerifiedLater(before, services.calls, from, change.file, bytes);
          JudgedEarlier(services.calls, |before|, from, input.eventId);
          r := Success((taken.value, Finished(bytes)));
      }
    }

    /** Registers an approved original. */
    method RegisterApproved(s: Stored, change: DriveChange, bytes: string, approval: RegistrationApproval, ghost from: nat)
      returns (r: Result<(Stored, Settlement), string>)
      requires Consistent() && Persisted(s) && Idle(s.value) && BindingFor(s.value, change.file.fileId).None?
      requires from <= |services.calls| && Verified(services.calls, from, change.file, bytes)
      modifies store, services
      ensures Continued()
      ensures TokenRetained(old(store.swaps), s.value.nextPageToken)
      ensures r.Success? ==> Settles(s, change, from, r.value)
    {
      GrowsReflexive(s.value);
      ghost var before := services.calls;
      var decision :- PrepareRegistration(sha, config, s.value, change, bytes, approval);
      RegistrationDecided(sha, config, s.value, change, bytes, approval);
      match decision {
        case IgnoreOriginal(reason) => r := Failure("onboarding approval is invalid: " + reason);
        case DuplicateOriginal(_) => r := Success((s, DuplicateOf(bytes)));
        case RegisterOriginal(registration) =>
          var registered := Register(s, registration, bytes);
          if registered.Failure? {
            return Failure(registered.error);
          }
          VerifiedLater(before, services.calls, from, change.file, bytes);
          r := Success((registered.value, Registered(bytes)));
      }
    }

    /** Keeps the original as evidence, registers it with the broker, and persists its binding. */
    method Register(s: Stored, registration: PreparedRegistration, bytes: string) returns (r: Result<Stored, string>)
      requires Consistent() && Persisted(s) && Idle(s.value) && PlannedRegistration(registration)
      requires registration.eventId !in s.value.processed && BindingFor(s.value, registration.fileId).None?
      modifies store, services
      ensures Continued()
      ensures TokenRetained(old(store.swaps), s.value.nextPageToken)
      ensures r.Success? ==> && Advanced(s, r.value) && Idle(r.value.value)
                             && registration.fileId in BoundFiles(r.value.value) && registration.eventId in r.value.value.processed
                             && RegisteredSince(services.calls, |old(services.calls)|, registration.eventId)
    {
      ghost var from := |services.calls|;
      var generation :- services.PutImmutable(registration.objectPath, bytes);
      if generation == 0 {
        return Failure("original registration evidence has generation zero");
      }
      var accepted :- services.RegisterOriginal(registration, generation);
      assert services.calls[from] == OriginalRegistered(registration, generation);
      r := PersistRegistration(s, registration);
    }

    method PersistRegistration(s: Stored, registration: PreparedRegistration) returns (r: Result<Stored, string>)
      requires Consistent() && Persisted(s) && Idle(s.value) && PlannedRegistration(registration)
      requires registration.eventId !in s.value.processed
      modifies store
      ensures Continued()
      ensures TokenRetained(old(store.swaps), s.value.nextPageToken)
      ensures r.Success? ==> && Advanced(s, r.value) && Idle(r.value.value)
                             && registration.fileId in BoundFiles(r.value.value)
                             && (BindingFor(s.value, registration.fileId).None? ==> registration.eventId in r.value.value.processed)
    {
      var checkpoint := new DriveGatewayCheckpoint(s.value);
      var done := checkpoint.CommitOriginalRegistration(registration);
      if done.Failure? {
        return Failure(done.error);
      }
      RegisteredFacts(store.history, s.version, registration);
      r := Persist(Stored(checkpoint.View(), s.version));
    }

    /** Binds an approved device artifact, so that its change can be processed as a bound one. */
    method BindApproved(s: Stored, change: DriveChange, bytes: string, approval: ArtifactApproval) returns (r: Result<Stored, string>)
      requires Consistent() && Persisted(s) && Idle(s.value)
      modifies store
      ensures Continued()
      ensures TokenRetained(old(store.swaps), s.value.nextPageToken)
      ensures r.Success? ==> Advanced(s, r.value) && Idle(r.value.value)
    {
      GrowsReflexive(s.value);
      var frontier :- services.Frontier(approval.documentId);
      var decision :- PrepareDeviceArtifactBinding(sha, config, s.value, change, bytes, approval, frontier);
      match decision {
        case IgnoreArtifact(reason) => r := Failure("onboarding approval is invalid: " + reason);
        case AlreadyBound(_) => r := Success(s);
        case BindArtifact(artifact) =>
          var checkpoint := new DriveGatewayCheckpoint(s.value);
          var done := checkpoint.CommitDeviceArtifactBinding(artifact);
          if done.Failure? {
            return Failure(done.error);
          }
          BoundFacts(store.history, s.version, artifact);
          r := Persist(Stored(checkpoint.View(), s.version));
      }
    }

    /** Whether a change to a file nothing binds is ignored; otherwise it needs onboarding. */
    method IgnoresUnbound(s: Stored, change: DriveChange) returns (r: Result<bool, string>)
      requires HexSha(sha) && BindingFor(s.value, change.file.fileId).None?
      ensures r.Success? && r.value ==> SettledIn(sha, config, s.value, change, Ignored)
    {
      var decision :- PrepareDriveInput(sha, config, s.value, change, "", NO_REVISIONS);
      if decision.Ignore? {
        return Success(true);
      }
      if !decision.Unbound? {
        return Failure("unbound Drive file produced an invalid decision");
      }
      r := Success(false);
    }

    /** Settles a change to a file nothing binds: it is ignored as generated, or onboarded by its approval. */
    method ProcessUnboundChange(s: Stored, change: DriveChange) returns (r: Result<(Stored, Settlement), string>)
      requires Consistent() && Persisted(s) && Idle(s.value) && BindingFor(s.value, change.file.fileId).None?
      modifies store, services
      ensures Continued()
      ensures TokenRetained(old(store.swaps), s.value.nextPageToken)
      ensures r.Success? ==> Settles(s, change, |old(services.calls)|, r.value)
    {
      GrowsReflexive(s.value);
      var ignored :- IgnoresUnbound(s, change);
      if ignored {
        return Success((s, Ignored));
      }
      r := Onboard(s, change);
    }

    method Onboard(s: Stored, change: DriveChange) returns (r: Result<(Stored, Settlement), string>)
      requires Consistent() && Persisted(s) && Idle(s.value) && BindingFor(s.value, change.file.fileId).None?
      modifies store, services
      ensures Continued()
      ensures TokenRetained(old(store.swaps), s.value.nextPageToken)
      ensures r.Success? ==> Settles(s, change, |old(services.calls)|, r.value)
    {
      ghost var from := |services.calls|;
      var bytes :- DownloadVerified(change.file);
      ghost var downloaded := services.calls;
      var approval :- services.LoadApproval(change.file.fileId);
      if approval.None? {
        return Failure("Drive file has no explicit onboarding approval; page token retained");
      }
      VerifiedLater(downloaded, services.calls, from, change.file, bytes);
      match approval.value {
        case OriginalApproval(original) => r := RegisterApproved(s, change, bytes, original, from);
        case ArtifactApproved(artifact) => r := OnboardArtifact(s, change, bytes, artifact, from);
      }
    }

    /** Binds an approved device artifact and processes its change as a bound one. */
    method OnboardArtifact(s: Stored, change: DriveChange, bytes: string, approval: ArtifactApproval, ghost from: nat)
      returns (r: Result<(Stored, Settlement), string>)
      requires Consistent() && Persisted(s) && Idle(s.value)
      requires from <= |services.calls| && Verified(services.calls, from, change.file, bytes)
      modifies store, services
      ensures Continued()
      ensures TokenRetained(old(store.swaps), s.value.nextPageToken)
      ensures r.Success? ==> Settles(s, change, from, r.value)
    {
      ghost var verified := services.calls;
      var bound := BindApproved(s, change, bytes, approval);
      if bound.Failure? {
        return Failure(bound.error);
      }
      ghost var before := bound.value;
      VerifiedLater(verified, services.calls, from, change.file, bytes);
      r := ProcessBoundChange(bound.value, change, bytes, from);
      if r.Success? {
        GrowsTransitive(s.value, before.value, r.value.0.value);
      }
    }

    method ProcessChange(s: Stored, change: DriveChange) returns (r: Result<(Stored, Settlement), string>)
      requires Consistent() && Persisted(s) && Idle(s.value)
      modifies store, services
      ensures Continued()
      ensures TokenRetained(old(store.swaps), s.value.nextPageToken)
      ensures r.Success? ==> Settles(s, change, |old(services.calls)|, r.value)
    {
      BindingsValid(store.history, s.version);
      ghost var from := |services.calls|;
      var binding := FindBinding(s.value, change.file.fileId);
      if binding.None? {
        r := ProcessUnboundChange(s, change);
        return;
      }
      var bytes := "";
      if !change.file.trashed {
        bytes :- DownloadVerified(change.file);
      }
      r := ProcessBoundChange(s, change, bytes, from);
    }

    // ---------------------------------------------------------------- one run

    /** The approval of a file nothing binds; a bound file needs none. */
    method ApprovalOfUnbound(file: string, c: Checkpoint) returns (r: Result<Option<Approval>, string>)
      requires BindingsOk(c)
      modifies services`calls
      ensures old(services.calls) <= services.calls
      ensures r.Success? ==> services.calls == old(services.calls) + AskedAbout(file, c, r.value)
      ensures r.Success? && file in BoundFiles(c) ==> r.value.None?
    {
      var binding := FindBinding(c, file);
      BindingForMeaning(c, file);
      if binding.Some? {
        return Success(None);
      }
      r := services.LoadApproval(file);
    }

    /** Asks for the approval of every unbound file, in the listed order. */
    method OrderChanges(changes: seq<DriveChange>, c: Checkpoint)
      returns (r: Result<seq<DriveChange>, string>, ghost answers: seq<Option<Approval>>)
      requires BindingsOk(c)
      modifies services`calls
      ensures old(services.calls) <= services.calls
      ensures r.Success? ==> && |answers| == |changes| && r.value == Ordered(changes, c, answers)
                             && services.calls == old(services.calls) + AskedFor(changes, c, answers)
    {
      var approvedOriginals: seq<DriveChange>, remaining: seq<DriveChange> := [], [];
      answers := [];
      ghost var asked: seq<Call> := [];
      for i := 0 to |changes|
        invariant services.calls == old(services.calls) + asked
        invariant Ordering(changes, c, i, answers, approvedOriginals, remaining, asked)
      {
        var approval := ApprovalOfUnbound(changes[i].file.fileId, c);
        if approval.Failure? {
          r := Failure(approval.error);
          return;
        }
        OneMoreAsked(changes, c, i, answers, approvedOriginals, remaining, asked, approval.value);
        if approval.value.Some? && approval.value.value.OriginalApproval? {
          approvedOriginals := approvedOriginals + [changes[i]];
        } else {
          remaining := remaining + [changes[i]];
        }
        answers, asked := answers + [approval.value], asked + AskedAbout(changes[i].file.fileId, c, approval.value);
      }
      AllAsked(changes, c, answers, approvedOriginals, remaining, asked);
      r := Success(approvedOriginals + remaining);
    }

    /** The listed changes, or the initial snapshot, with the cursor to move to once they are settled. */
    method ListWork(token: Option<string>) returns (r: Result<(seq<DriveChange>, string), string>)
      modifies services`calls
      ensures old(services.calls) <= services.calls
      ensures r.Success? ==> Listed(services.calls, |old(services.calls)|, token, r.value.0, r.value.1)
    {
      ghost var from := |services.calls|;
      if token.Some? {
        var page :- services.ListChanges(token.value);
        var successor :- DurableSuccessor(page);
        assert services.calls[from] == Changes(token.value, page);
        return Success((page.changes, successor));
      }
      var start :- services.StartPageToken();
      if IsBlank(start) {
        return Failure("Drive returned an empty start page token");
      }
      var files :- services.ListInitialFiles();
      assert services.calls[from] == StartToken(start) && services.calls[from + 1] == InitialFiles(files);
      r := Success((AsChanges(files), start));
    }

    /** Since call `from` every change was settled, between the checkpoints `first` and `last`. */
    ghost predicate AllSettled(from: nat, changes: seq<DriveChange>, log: seq<(Settlement, nat)>, first: nat, last: nat)
      reads this, store, services
    {
      SettledAll(sha, config, store.history, services.calls, from, changes, log, first, last)
    }

    /** Settles every change in order; `log` says how, and at which persisted checkpoint. */
    method SettleAll(s: Stored, changes: seq<DriveChange>) returns (r: Result<Stored, string>, ghost log: seq<(Settlement, nat)>)
      requires Consistent() && Persisted(s) && Idle(s.value)
      modifies store, services
      ensures Continued()
      ensures TokenRetained(old(store.swaps), s.value.nextPageToken)
      ensures r.Success? ==> && Advanced(s, r.value) && Idle(r.value.value)
                             && AllSettled(|old(services.calls)|, changes, log, s.version, r.value.version)
    {
      GrowsReflexive(s.value);
      ghost var from := |services.calls|;
      var now := s;
      log := [];
      var i := 0;
      while i < |changes|
        invariant 0 <= i <= |changes| && |log| == i
        invariant Continued() && from <= |services.calls|
        invariant TokenRetained(old(store.swaps), s.value.nextPageToken)
        invariant Advanced(s, now) && Idle(now.value) && AllSettled(from, changes[..i], log, s.version, now.version)
      {
        ghost var before, history, calls := now, store.history, services.calls;
        var settled := ProcessChange(now, changes[i]);
        if settled.Failure? {
          return Failure(settled.error), log;
        }
        now := settled.value.0;
        GrowsTransitive(s.value, before.value, now.value);
        EvidencedEarlier(sha, services.calls, |calls|, from, changes[i].file, settled.value.1);
        OneMoreSettled(sha, config, history, calls, from, changes, i, log, s.version, before.version,
                       store.history, services.calls, now.version, settled.value.1);
        log := log + [(settled.value.1, now.version)];
        i := i + 1;
      }
      assert changes[..i] == changes;
      r := Success(now);
    }

    /** What a run that succeeded did: it loaded one checkpoint, finished what was pending, took the work Drive
        listed for that checkpoint's token, and settled all of it, before it persisted the token that follows. */
    ghost predicate RanOnce(from: nat, t: RunTrace)
      reads this, store, services
    {
      && Persisted(t.loaded) && Persisted(t.recovered) && t.loaded.version <= t.recovered.version && Idle(t.recovered.value)
      && Listed(services.calls, from, t.loaded.value.nextPageToken, t.changes, t.cursor)
      && |t.answers| == |t.changes| && AskedSince(services.calls, from, t.changes, t.recovered.value, t.answers)
      && t.last.version > t.recovered.version && Persisted(t.last)
      && AllSettled(from, Ordered(t.changes, t.recovered.value, t.answers), t.log, t.recovered.version, t.last.version - 1)
      && Idle(t.last.value) && t.last.value.nextPageToken == Some(t.cursor)
    }

    /** One job in apply mode. The page token moves only after every listed change was settled, none dropped;
        until then, and whenever the run fails, everything this job persists carries the token it loaded. */
    method RunOnce() returns (r: Result<(), string>, ghost t: RunTrace)
      requires Consistent()
      modifies store, services
      ensures Consistent() && old(store.history) <= store.history && old(services.calls) <= services.calls
      ensures r.Failure? ==>
                || (store.loads == old(store.loads) && store.swaps == old(store.swaps))
                || (|store.loads| == |old(store.loads)| + 1 && old(store.loads) <= store.loads
                    && TokenRetained(old(store.swaps), store.loads[|old(store.loads)|].value.nextPageToken))
      ensures r.Success? ==>
                && store.loads == old(store.loads) + [t.loaded]
                && RanOnce(|old(services.calls)|, t)
                && TokenMovedLast(old(store.swaps), t.loaded.value.nextPageToken, t.last)
    {
      t := RunTrace(Stored(EMPTY, 0), Stored(EMPTY, 0), [], "", [], [], Stored(EMPTY, 0));
      ghost var from := |services.calls|;
      var begun := Begin();
      if begun.Failure? {
        return Failure(begun.error), t;
      }
      r, t := WorkOff(begun.value.0, begun.value.1, from);
    }

    /** Settles the listed work and then moves the token. */
    method WorkOff(loaded: Stored, s: Stored, ghost from: nat) returns (r: Result<(), string>, ghost t: RunTrace)
      requires Consistent() && Persisted(loaded) && Advanced(loaded, s) && Idle(s.value) && from <= |services.calls|
      modifies store, services
      ensures Continued()
      ensures r.Failure? ==> TokenRetained(old(store.swaps), loaded.value.nextPageToken)
      ensures r.Success? ==>
                && t.loaded == loaded && RanOnce(from, t)
                && TokenMovedLast(old(store.swaps), loaded.value.nextPageToken, t.last)
    {
      t := RunTrace(loaded, s, [], "", [], [], s);
      var settled, cursor;
      settled, cursor, t := SettleListed(s, from, t);
      if settled.Failure? {
        return Failure(settled.error), t;
      }
      ghost var history := store.history;
      var moved := MoveToken(settled.value, cursor);
      if moved.Failure? {
        return Failure(moved.error), t;
      }
      t := t.(last := moved.value);
      AllSettledLater(sha, config, history, services.calls, from, Ordered(t.changes, t.recovered.value, t.answers), t.log,
                      t.recovered.version, settled.value.version, store.history);
      r := Success(());
    }

    /** Loads the checkpoint and finishes what earlier jobs left pending. */
    method Begin() returns (r: Result<(Stored, Stored), string>)
      requires Consistent()
      modifies store, services
      ensures Consistent() && old(store.history) <= store.history && old(services.calls) <= services.calls
      ensures r.Failure? ==>
                || (store.loads == old(store.loads) && store.swaps == old(store.swaps))
                || (|store.loads| == |old(store.loads)| + 1 && old(store.loads) <= store.loads
                    && TokenRetained(old(store.swaps), store.loads[|old(store.loads)|].value.nextPageToken))
      ensures r.Success? ==>
                && store.loads == old(store.loads) + [r.value.0] && Persisted(r.value.0)
                && Advanced(r.value.0, r.value.1) && Idle(r.value.1.value)
                && TokenRetained(old(store.swaps), r.value.0.value.nextPageToken)
    {
      var loaded := store.Load();
      ReservedStay(old(store.history), store.history, services.creates);
      if loaded.Failure? {
        return Failure(loaded.error);
      }
      var valid := Validate(loaded.value.value);
      if !valid {
        return Failure("invalid checkpoint");
      }
      var recovered := Recover(loaded.value);
      if recovered.Failure? {
        return Failure(recovered.error);
      }
      r := Success((loaded.value, recovered.value));
    }

    /** Lists, orders and settles the work that follows the present token. */
    method SettleListed(s: Stored, ghost from: nat, ghost begun: RunTrace)
      returns (r: Result<Stored, string>, cursor: string, ghost t: RunTrace)
      requires Consistent() && Persisted(s) && Idle(s.value) && from <= |services.calls|
      modifies store, services
      ensures Continued()
      ensures TokenRetained(old(store.swaps), s.value.nextPageToken)
      ensures t == begun.(changes := t.changes, cursor := t.cursor, answers := t.answers, log := t.log)
      ensures r.Success? ==> t.cursor == cursor
      ensures r.Success? ==>
                && Advanced(s, r.value) && Idle(r.value.value)
                && Listed(services.calls, from, s.value.nextPageToken, t.changes, t.cursor)
                && |t.answers| == |t.changes| && AskedSince(services.calls, from, t.changes, s.value, t.answers)
                && AllSettled(from, Ordered(t.changes, s.value, t.answers), t.log, s.version, r.value.version)
    {
      cursor, t := "", begun;
      BindingsValid(store.history, s.version);
      var listed := ListWork(s.value.nextPageToken);
      if listed.Failure? {
        return Failure(listed.error), cursor, t;
      }
      cursor, t := listed.value.1, t.(changes := listed.value.0, cursor := listed.value.1);
      ghost var calls := services.calls;
      var order;
      ghost var answers;
      order, answers := OrderChanges(listed.value.0, s.value);
      if order.Failure? {
        return Failure(order.error), cursor, t;
      }
      t := t.(answers := answers);
      ghost var asked := services.calls;
      assert asked[|calls|..] == AskedFor(t.changes, s.value, answers);
      assert AskedSince(asked, from, t.changes, s.value, answers);
      ghost var log;
      r, log := SettleAll(s, order.value);
      t := t.(log := log);
      if r.Success? {
        ListedEarlier(calls, |old(services.calls)|, from, s.value.nextPageToken, t.changes, cursor);
        ListedLater(calls, services.calls, from, s.value.nextPageToken, t.changes, cursor);
        AskedLater(asked, services.calls, from, t.changes, s.value, answers);
        SettledEarlier(sha, config, store.history, services.calls, |asked|, from, order.value, log, s.version, r.value.version);
      }
    }

    /** Finishes what earlier jobs left pending. */
    method Recover(s: Stored) returns (r: Result<Stored, string>)
      requires Consistent() && Persisted(s)
      modifies store, services
      ensures Continued()
      ensures TokenRetained(old(store.swaps), s.value.nextPageToken)
      ensures r.Success? ==> Advanced(s, r.value) && Idle(r.value.value)
    {
      var inputs := RecoverPendingInputs(s);
      if inputs.Failure? {
        return Failure(inputs.error);
      }
      ghost var before := inputs.value.value;
      r := RecoverPendingOutputs(inputs.value);
      if r.Success? {
        GrowsTransitive(s.value, before, r.value.value);
      }
    }

    method MoveToken(s: Stored, token: string) returns (r: Result<Stored, string>)
      requires Consistent() && Persisted(s)
      modifies store
      ensures Continued()
      ensures r.Success? ==> Persisted(r.value) && r.value == Stored(WithToken(s.value, token), s.version + 1)
      ensures store.swaps == old(store.swaps) + (if r.Success? then [r.value] else [])
    {
      ChainValid(store.history, s.version);
      TokenKeeps(s.value, token);
      var checkpoint := new DriveGatewayCheckpoint(s.value);
      checkpoint.CommitPageToken(token);
      r := Persist(Stored(checkpoint.View(), s.version));
    }
  }
}
