/** recovery_subscriber.go: a recovery envelope is decoded into a write command, run as one, and completed. */
module RecoveryHandler {
  import opened Text
  import opened Wrappers
  import opened Domain
  import opened Commands
  import opened WriteModel
  import opened GigCommands

  const POST := "post"
  const PATCH := "patch"
  const PUT := "put"

  const NO_PAYLOAD := Payload("", "", "", "", "", "", 0, "", [], [], [], "")

  function DecodeDraft(e: Envelope, p: Payload): Result<Command, Error> {
    var owner := FirstNonBlank(p.freelancerId, p.freelancerIdCamel, e.recoveryPrincipalId);
    if owner == "" then Err(InvalidFreelancerID) else Ok(CreateDraft(TrimSpace(p.gigId), owner))
  }

  function GigIdOf(e: Envelope, p: Payload): string {
    if p.gigId == "" then RecoveryGigId(e, e.aggregateId) else p.gigId
  }

  /** What a command is decoded from; a publication needs no payload. */
  function PayloadOf(e: Envelope): Payload {
    if e.payload.Json? then e.payload.value else NO_PAYLOAD
  }

  function UsernameOf(e: Envelope, p: Payload): string {
    if p.username != "" then p.username
    else if e.recoveryUsername != "" then e.recoveryUsername
    else TrimSpace(e.tokenUsername)
  }

  function DecodePackages(e: Envelope, p: Payload): Result<Command, Error> {
    if exists i :: 0 <= i < |p.packages| && TrimSpace(p.packages[i].id) == "" then Err(InvalidPackageID)
    else Ok(ReplacePackages(GigIdOf(e, p), RecoveryFreelancerId(p.freelancerId, e), p.packages))
  }

  function DecodeBasicInfo(e: Envelope, p: Payload): Result<Command, Error> {
    Ok(UpdateBasicInfo(GigIdOf(e, p), RecoveryFreelancerId(p.freelancerId, e), p.title, p.shortInfo,
                       p.description, p.categoryId, p.currency))
  }

  function DecodeQuestions(e: Envelope, p: Payload): Result<Command, Error> {
    Ok(ReplaceQuestions(GigIdOf(e, p), RecoveryFreelancerId(p.freelancerId, e), p.questions))
  }

  predicate AllDecode(files: seq<EncodedFile>) {
    forall i :: 0 <= i < |files| ==> files[i].data.Some?
  }

  function DecodedFiles(files: seq<EncodedFile>): (inputs: seq<FileInput>)
    requires AllDecode(files)
    ensures |inputs| == |files|
  {
    seq(|files|, i requires 0 <= i < |files| => FileInput(files[i].filename, files[i].contentType, files[i].data.value))
  }

  function DecodeMedia(e: Envelope, p: Payload): Result<Command, Error> {
    if !AllDecode(p.files) then Err(Malformed)
    else Ok(ReplaceMedia(GigIdOf(e, p), RecoveryFreelancerId(p.freelancerId, e), DecodedFiles(p.files)))
  }

  function DecodePublish(e: Envelope, p: Payload): Result<Command, Error> {
    Ok(Publish(GigIdOf(e, p), RecoveryFreelancerId(p.freelancerId, e), UsernameOf(e, p)))
  }

  /** The commands a recovery message can carry, by what tells them apart: operation and path. */
  datatype Kind = DraftKind | BasicInfoKind | PackagesKind | RequirementsKind | MediaKind | PublishKind

  const BASIC_INFO_SUFFIX := "/basic-info"
  const PACKAGES_SUFFIX := "/packages"
  const REQUIREMENTS_SUFFIX := "/requirements"
  const MEDIA_SUFFIX := "/media"
  const PUBLISH_SUFFIX := "/publish"

  function KindOf(operation: string, path: string): Option<Kind> {
    if operation == POST && HasSuffix(path, DRAFTS_SUFFIX) then Some(DraftKind)
    else if operation == PATCH && HasSuffix(path, BASIC_INFO_SUFFIX) then Some(BasicInfoKind)
    else if operation == PUT && HasSuffix(path, PACKAGES_SUFFIX) then Some(PackagesKind)
    else if operation == PUT && HasSuffix(path, REQUIREMENTS_SUFFIX) then Some(RequirementsKind)
    else if operation == PUT && HasSuffix(path, MEDIA_SUFFIX) then Some(MediaKind)
    else if operation == POST && HasSuffix(path, PUBLISH_SUFFIX) then Some(PublishKind)
    else None
  }

  /** Publishing alone needs no payload. */
  function DecodeAs(kind: Kind, e: Envelope): Result<Command, Error> {
    if e.payload.NoJson? || (e.payload.Empty? && kind != PublishKind) then Err(Malformed)
    else
      match kind
      case DraftKind => DecodeDraft(e, PayloadOf(e))
      case BasicInfoKind => DecodeBasicInfo(e, PayloadOf(e))
      case PackagesKind => DecodePackages(e, PayloadOf(e))
      case RequirementsKind => DecodeQuestions(e, PayloadOf(e))
      case MediaKind => DecodeMedia(e, PayloadOf(e))
      case PublishKind => DecodePublish(e, PayloadOf(e))
  }

  function Dispatch(e: Envelope): Result<Command, Error> {
    match KindOf(e.operation, e.commandPath)
    case None => Err(Unsupported)
    case Some(kind) => DecodeAs(kind, e)
  }

  function Decode(e: Envelope): Result<Command, Error> {
    if e.aggregateType != "gig" && e.aggregateType != "gigs" then Err(Unsupported)
    else if TrimSpace(e.aggregateId) == "" then Err(MissingAggregateID)
    else Dispatch(e)
  }

  /** The surroundings of one handling: those of the command, whether the result of a creation can be
      recorded, and whether the completion event can be published. */
  datatype Outside = Outside(env: Env, ledger: bool, completion: bool)

  /** Nothing outside the tables fails. */
  ghost predicate Works(out: Outside) {
    out.env.events && out.ledger && out.completion && forall k: nat :: !out.env.faults(k)
  }

  function Completed(r: Result<Gig, Error>, create: bool, out: Outside): Result<(), Error> {
    if r.Err? then Err(r.error)
    else if create && !out.ledger then Err(StorageFailure)
    else if !out.completion then Err(EventPublishFailure)
    else Ok(())
  }

  /** A publication that finds the gig published already reads it instead. */
  function Tolerated(db: DB, cmd: Command, r: Result<Gig, Error>): Result<Gig, Error> {
    if cmd.Publish? && r == Err(GigAlreadyPublished) then OwnedGig(db, cmd.gigId, cmd.freelancerId) else r
  }

  function HandleCommand(db: DB, cmd: Command, out: Outside): (DB, Result<(), Error>) {
    var (d, r) := Execute(db, cmd, out.env.(recovery := true));
    (d, Completed(Tolerated(d, cmd, r), cmd.CreateDraft?, out))
  }

  function HandleDecoded(db: DB, decoded: Result<Command, Error>, out: Outside): (DB, Result<(), Error>) {
    match decoded
    case Err(error) => (db, Err(error))
    case Ok(cmd) => HandleCommand(db, cmd, out)
  }

  function HandleEnvelope(db: DB, e: Envelope, out: Outside): (DB, Result<(), Error>) {
    HandleDecoded(db, Decode(e), out)
  }
}
