/** Which recovery envelopes are handled with success: by their own texts, and by what the gig tables hold. */
module RecoveryAcceptance {
  import opened Text
  import opened Wrappers
  import opened ChildTable
  import opened Domain
  import opened Commands
  import opened WriteModel
  import opened GigCommands
  import opened GigAcceptance
  import opened RecoveryHandler
  import opened RecoveryKeys
  import opened RecoveryPayloads

  // ----- Decoding -----

  /** Operation and path as the recorded HTTP request had them, and a payload that this kind of command accepts. */
  predicate DraftRequest(e: Envelope) {
    && e.operation == "post" && HasSuffix(e.commandPath, "/gigs/drafts") && e.payload.Json?
    && (TrimSpace(e.payload.value.freelancerId) != "" || TrimSpace(e.payload.value.freelancerIdCamel) != ""
        || TrimSpace(e.recoveryPrincipalId) != "")
  }

  predicate BasicInfoRequest(e: Envelope) {
    e.operation == "patch" && HasSuffix(e.commandPath, "/basic-info") && e.payload.Json?
  }

  predicate PackagesRequest(e: Envelope) {
    && e.operation == "put" && HasSuffix(e.commandPath, "/packages") && e.payload.Json?
    && forall i :: 0 <= i < |e.payload.value.packages| ==> TrimSpace(e.payload.value.packages[i].id) != ""
  }

  predicate QuestionsRequest(e: Envelope) {
    e.operation == "put" && HasSuffix(e.commandPath, "/requirements") && e.payload.Json?
  }

  predicate MediaRequest(e: Envelope) {
    && e.operation == "put" && HasSuffix(e.commandPath, "/media") && e.payload.Json?
    && forall i :: 0 <= i < |e.payload.value.files| ==> e.payload.value.files[i].data.Some?
  }

  predicate PublishRequest(e: Envelope) {
    e.operation == "post" && HasSuffix(e.commandPath, "/publish") && !e.payload.NoJson?
  }

  predicate Request(e: Envelope) {
    DraftRequest(e) || BasicInfoRequest(e) || PackagesRequest(e) || QuestionsRequest(e) || MediaRequest(e) || PublishRequest(e)
  }

  predicate ForGigs(e: Envelope) {
    (e.aggregateType == "gig" || e.aggregateType == "gigs") && TrimSpace(e.aggregateId) != ""
  }

  lemma KindIsRequested(e: Envelope, kind: Kind)
    requires KindOf(e.operation, e.commandPath) == Some(kind)
    ensures match kind
            case DraftKind => e.operation == "post" && HasSuffix(e.commandPath, "/gigs/drafts")
            case BasicInfoKind => e.operation == "patch" && HasSuffix(e.commandPath, "/basic-info")
            case PackagesKind => e.operation == "put" && HasSuffix(e.commandPath, "/packages")
            case RequirementsKind => e.operation == "put" && HasSuffix(e.commandPath, "/requirements")
            case MediaKind => e.operation == "put" && HasSuffix(e.commandPath, "/media")
            case PublishKind => e.operation == "post" && HasSuffix(e.commandPath, "/publish")
  {
  }

  /** Some envelope of its kind decodes exactly if it is such a request. */
  lemma DecodesAs(e: Envelope, kind: Kind)
    ensures DecodeAs(kind, e).Ok? <==>
            && !e.payload.NoJson? && (e.payload.Empty? ==> kind == PublishKind)
            && (kind == DraftKind ==> TrimSpace(e.payload.value.freelancerId) != "" || TrimSpace(e.payload.value.freelancerIdCamel) != ""
                                      || TrimSpace(e.recoveryPrincipalId) != "")
            && (kind == PackagesKind ==>
                  forall i :: 0 <= i < |e.payload.value.packages| ==> TrimSpace(e.payload.value.packages[i].id) != "")
            && (kind == MediaKind ==> forall i :: 0 <= i < |e.payload.value.files| ==> e.payload.value.files[i].data.Some?)
  {
  }

  lemma RequestIsKind(e: Envelope) returns (kind: Kind)
    requires Request(e)
    ensures KindOf(e.operation, e.commandPath) == Some(kind) && DecodeAs(kind, e).Ok?
  {
    if DraftRequest(e) {
      PostsDraft(e.commandPath);
      kind := DraftKind;
    } else if BasicInfoRequest(e) {
      PatchesBasicInfo(e.commandPath);
      kind := BasicInfoKind;
    } else if PackagesRequest(e) {
      PutsPackages(e.commandPath);
      kind := PackagesKind;
    } else if QuestionsRequest(e) {
      PutsRequirements(e.commandPath);
      kind := RequirementsKind;
    } else if MediaRequest(e) {
      PutsMedia(e.commandPath);
      kind := MediaKind;
    } else {
      PostsPublication(e.commandPath);
      kind := PublishKind;
    }
    DecodesAs(e, kind);
  }

  lemma KindIsRequest(e: Envelope, kind: Kind)
    requires KindOf(e.operation, e.commandPath) == Some(kind) && DecodeAs(kind, e).Ok?
    ensures Request(e)
  {
    KindIsRequested(e, kind);
    DecodesAs(e, kind);
  }

  /** An envelope decodes if and only if it is for gigs and asks for one of the six commands with a payload that fits. */
  lemma DecodesExactly(e: Envelope)
    ensures Decode(e).Ok? <==> ForGigs(e) && Request(e)
  {
    if Request(e) {
      var kind := RequestIsKind(e);
    }
    if Decode(e).Ok? {
      KindIsRequest(e, KindOf(e.operation, e.commandPath).value);
    }
  }

  // ----- Handling -----

  /** A publication of an owned gig that is no draft, which is read instead. */
  predicate AlreadyOut(x: DB, cmd: Command) {
    cmd.Publish? && OwnedBy(x, cmd.gigId, cmd.freelancerId) && x.gigs[TrimSpace(cmd.gigId)].status != Draft
  }

  /** The command can be carried out, or has been. */
  ghost predicate Doable(x: DB, cmd: Command, env: Env) {
    Acceptable(x, cmd, env) || AlreadyOut(x, cmd)
  }

  /** What handling needs outside the tables: its statements, its events, the record of a creation, and the completion. */
  ghost predicate Unhindered(x: DB, cmd: Command, out: Outside) {
    && out.completion && (cmd.CreateDraft? ==> out.ledger)
    && (AlreadyOut(x, cmd) || (out.env.events && NoFault(out.env.faults, 0, Statements(x, cmd))))
  }

  lemma OutIsRefused(x: DB, cmd: Command, env: Env)
    requires OwnIds(x) && cmd.Publish?
    ensures AlreadyOut(x, cmd) <==> Check(x, cmd, env) == Err(GigAlreadyPublished)
    ensures AlreadyOut(x, cmd) ==> !Acceptable(x, cmd, env) && OwnedGig(x, cmd.gigId, cmd.freelancerId).Ok?
  {
    OwnedExactly(x, cmd.gigId, cmd.freelancerId);
    if OwnedBy(x, cmd.gigId, cmd.freelancerId) {
      PackagesNotPublished(RowData(Read(x.packages, TrimSpace(cmd.gigId))), 0);
    }
  }

  lemma ExecutedOut(x: DB, cmd: Command, env: Env)
    requires OwnIds(x) && cmd.Publish?
    ensures Execute(x, cmd, env).1 == Err(GigAlreadyPublished) <==> AlreadyOut(x, cmd)
    ensures AlreadyOut(x, cmd) ==> Execute(x, cmd, env).0 == x
  {
    OutIsRefused(x, cmd, env);
    if Check(x, cmd, env).Ok? {
      CheckedWrite(x, cmd, env, Check(x, cmd, env).value);
      WriteFails(x, Check(x, cmd, env).value, env);
    }
  }

  /** A command is handled with success if and only if it can be carried out or has been, and nothing it needs fails. */
  lemma CommandHandledExactly(x: DB, cmd: Command, out: Outside)
    requires OwnIds(x)
    ensures HandleCommand(x, cmd, out).1.Ok? <==> Doable(x, cmd, out.env.(recovery := true)) && Unhindered(x, cmd, out)
  {
    var env := out.env.(recovery := true);
    SucceedsExactly(x, cmd, env);
    if cmd.Publish? {
      OutIsRefused(x, cmd, env);
      ExecutedOut(x, cmd, env);
    }
  }

  /** The envelope is for gigs, asks for one of the six commands with a payload that fits, the command can be carried out or
      has been, and nothing that it needs fails. */
  ghost predicate CanBeHandled(x: DB, e: Envelope, out: Outside) {
    && ForGigs(e) && Request(e)
    && Decode(e).Ok? && Doable(x, Decode(e).value, out.env.(recovery := true)) && Unhindered(x, Decode(e).value, out)
  }

  /** Main result. Exactly such envelopes are handled with success. */
  lemma HandledExactly(x: DB, e: Envelope, out: Outside)
    requires OwnIds(x)
    ensures HandleEnvelope(x, e, out).1.Ok? <==> CanBeHandled(x, e, out)
  {
    DecodesExactly(e);
    if Decode(e).Ok? {
      CommandHandledExactly(x, Decode(e).value, out);
    }
  }
}
