/** recovery_subscriber.go in its own form: the subscriber that decodes an envelope, calls the service and
    reports the completion. */
module RecoverySubscriber {
  import opened Text
  import opened Wrappers
  import opened Domain
  import opened Commands
  import opened WriteModel
  import opened WriteInvariant
  import opened RecoveryHandler
  import opened RecoveryReplay
  import opened RecoveryPayloads
  import opened RecoveryAcceptance
  import GigService

  /** Handling the envelope from here, where nothing fails, succeeds and changes nothing. */
  ghost predicate HandledForGood(y: DB, e: Envelope, slugify: string -> string) {
    forall again :: Works(again) && again.env.slugify == slugify ==> HandleEnvelope(y, e, again) == (y, Ok(()))
  }

  ghost predicate Kept(x: DB, y: DB) {
    GoodTables(y) && NoneReverts(x, y)
  }

  lemma EnvelopeKeeps(x: DB, e: Envelope, out: Outside)
    ensures GoodTables(x) ==> Kept(x, HandleEnvelope(x, e, out).0)
  {
    if GoodTables(x) && Decode(e).Ok? {
      ExecuteKeeps(x, Decode(e).value, out.env.(recovery := true));
    }
  }

  /** An envelope that was handled with success is handled for good, unless it made ids of its own. */
  lemma EnvelopeTwice(x: DB, e: Envelope, out: Outside)
    ensures GoodTables(x) && HandleEnvelope(x, e, out).1.Ok? && NamesIds(Decode(e).value) ==>
              HandledForGood(HandleEnvelope(x, e, out).0, e, out.env.slugify)
  {
    if GoodTables(x) && HandleEnvelope(x, e, out).1.Ok? && NamesIds(Decode(e).value) {
      var y := HandleEnvelope(x, e, out).0;
      forall again | Works(again) && again.env.slugify == out.env.slugify
        ensures HandleEnvelope(y, e, again) == (y, Ok(()))
      {
        TwiceIsOnce(x, Decode(e).value, out, again);
      }
    }
  }

  lemma DraftLanded(x: DB, e: Envelope, p: Payload, out: Outside)
    ensures var (y, r) := HandleDecoded(x, DecodeDraft(e, p), out);
            GoodTables(x) && r.Ok? ==> DraftLands(y, e, p, out.env)
  {
    var (y, r) := HandleDecoded(x, DecodeDraft(e, p), out);
    if GoodTables(x) && r.Ok? {
      DraftLanding(x, y, e, p, DecodeDraft(e, p), out);
    }
  }

  lemma BasicInfoLanded(x: DB, e: Envelope, p: Payload, out: Outside)
    ensures var (y, r) := HandleDecoded(x, DecodeBasicInfo(e, p), out);
            GoodTables(x) && r.Ok? ==> BasicInfoLands(y, e, p)
  {
    var (y, r) := HandleDecoded(x, DecodeBasicInfo(e, p), out);
    if GoodTables(x) && r.Ok? {
      BasicInfoLanding(x, y, e, p, DecodeBasicInfo(e, p), out);
    }
  }

  lemma PackagesLanded(x: DB, e: Envelope, p: Payload, out: Outside)
    ensures var (y, r) := HandleDecoded(x, DecodePackages(e, p), out);
            GoodTables(x) && r.Ok? ==> PackagesLand(y, e, p)
  {
    var (y, r) := HandleDecoded(x, DecodePackages(e, p), out);
    if GoodTables(x) && r.Ok? {
      PackagesLanding(x, y, e, p, DecodePackages(e, p), out);
    }
  }

  lemma QuestionsLanded(x: DB, e: Envelope, p: Payload, out: Outside)
    ensures var (y, r) := HandleDecoded(x, DecodeQuestions(e, p), out);
            GoodTables(x) && r.Ok? ==> QuestionsLand(y, e, p)
  {
    var (y, r) := HandleDecoded(x, DecodeQuestions(e, p), out);
    if GoodTables(x) && r.Ok? {
      QuestionsLanding(x, y, e, p, DecodeQuestions(e, p), out);
    }
  }

  lemma MediaLanded(x: DB, e: Envelope, p: Payload, out: Outside)
    ensures var (y, r) := HandleDecoded(x, DecodeMedia(e, p), out);
            GoodTables(x) && r.Ok? ==> MediaLand(y, e, p, out.env)
  {
    var (y, r) := HandleDecoded(x, DecodeMedia(e, p), out);
    if GoodTables(x) && r.Ok? {
      MediaLanding(x, y, e, p, DecodeMedia(e, p), out);
    }
  }

  lemma PublishLanded(x: DB, e: Envelope, p: Payload, out: Outside)
    ensures var (y, r) := HandleDecoded(x, DecodePublish(e, p), out);
            GoodTables(x) && r.Ok? ==> PublicationLands(x, y, e, p, out.env)
  {
    var (y, r) := HandleDecoded(x, DecodePublish(e, p), out);
    if GoodTables(x) && r.Ok? {
      PublicationLanding(x, y, e, p, DecodePublish(e, p), out);
    }
  }

  /** What the payload asked for stands. */
  lemma EnvelopeLanded(x: DB, e: Envelope, out: Outside)
    ensures GoodTables(x) && HandleEnvelope(x, e, out).1.Ok? ==> Lands(x, HandleEnvelope(x, e, out).0, e, out.env)
  {
    if GoodTables(x) && HandleEnvelope(x, e, out).1.Ok? {
      EnvelopeLands(x, HandleEnvelope(x, e, out).0, e, out);
    }
  }

  lemma EnvelopeHandled(x: DB, e: Envelope, out: Outside)
    ensures GoodTables(x) ==> (HandleEnvelope(x, e, out).1.Ok? <==> CanBeHandled(x, e, out))
  {
    if GoodTables(x) {
      HandledExactly(x, e, out);
    }
  }

  class Subscriber {
    const svc: GigService.Service

    constructor (service: GigService.Service)
      ensures svc == service
    {
      svc := service;
    }

    /** The end of every handling: the completion event. */
    method Complete(result: Result<Gig, Error>, out: Outside) returns (r: Result<(), Error>)
      ensures r == Completed(result, false, out)
    {
      if result.Err? {
        return Err(result.error);
      }
      if !out.completion {
        return Err(EventPublishFailure);
      }
      r := Ok(());
    }

    method HandleDraft(e: Envelope, p: Payload, out: Outside) returns (r: Result<(), Error>)
      modifies svc.repo
      ensures (svc.repo.View(), r) == HandleDecoded(old(svc.repo.View()), DecodeDraft(e, p), out)
      ensures old(svc.Valid()) && r.Ok? ==> DraftLands(svc.repo.View(), e, p, out.env)
    {
      DraftLanded(svc.repo.View(), e, p, out);
      var freelancerId := TrimSpace(p.freelancerId);
      if freelancerId == "" {
        freelancerId := TrimSpace(p.freelancerIdCamel);
      }
      if freelancerId == "" {
        freelancerId := TrimSpace(e.recoveryPrincipalId);
      }
      if freelancerId == "" {
        return Err(InvalidFreelancerID);
      }
      var result := svc.CreateDraft(TrimSpace(p.gigId), freelancerId, out.env.(recovery := true));
      if result.Ok? && !out.ledger {
        return Err(StorageFailure);
      }
      r := Complete(result, out);
    }

    method HandleBasicInfo(e: Envelope, p: Payload, out: Outside) returns (r: Result<(), Error>)
      modifies svc.repo
      ensures (svc.repo.View(), r) == HandleDecoded(old(svc.repo.View()), DecodeBasicInfo(e, p), out)
      ensures old(svc.Valid()) && r.Ok? ==> BasicInfoLands(svc.repo.View(), e, p)
    {
      BasicInfoLanded(svc.repo.View(), e, p, out);
      var gigId := p.gigId;
      if gigId == "" {
        gigId := RecoveryGigId(e, e.aggregateId);
      }
      var result := svc.UpdateBasicInfo(gigId, RecoveryFreelancerId(p.freelancerId, e), p.title, p.shortInfo,
                                        p.description, p.categoryId, p.currency, out.env.(recovery := true));
      r := Complete(result, out);
    }

    method HandlePackages(e: Envelope, p: Payload, out: Outside) returns (r: Result<(), Error>)
      modifies svc.repo
      ensures (svc.repo.View(), r) == HandleDecoded(old(svc.repo.View()), DecodePackages(e, p), out)
      ensures old(svc.Valid()) && r.Ok? ==> PackagesLand(svc.repo.View(), e, p)
    {
      PackagesLanded(svc.repo.View(), e, p, out);
      var gigId := p.gigId;
      if gigId == "" {
        gigId := RecoveryGigId(e, e.aggregateId);
      }
      for i := 0 to |p.packages|
        invariant forall j :: 0 <= j < i ==> TrimSpace(p.packages[j].id) != ""
        invariant svc.repo.View() == old(svc.repo.View())
      {
        if TrimSpace(p.packages[i].id) == "" {
          return Err(InvalidPackageID);
        }
      }
      var result := svc.ReplacePackages(gigId, RecoveryFreelancerId(p.freelancerId, e), p.packages,
                                        out.env.(recovery := true));
      r := Complete(result, out);
    }

    method HandleQuestions(e: Envelope, p: Payload, out: Outside) returns (r: Result<(), Error>)
      modifies svc.repo
      ensures (svc.repo.View(), r) == HandleDecoded(old(svc.repo.View()), DecodeQuestions(e, p), out)
      ensures old(svc.Valid()) && r.Ok? ==> QuestionsLand(svc.repo.View(), e, p)
    {
      QuestionsLanded(svc.repo.View(), e, p, out);
      var gigId := p.gigId;
      if gigId == "" {
        gigId := RecoveryGigId(e, e.aggregateId);
      }
      var result := svc.ReplaceQuestions(gigId, RecoveryFreelancerId(p.freelancerId, e), p.questions,
                                         out.env.(recovery := true));
      r := Complete(result, out);
    }

    method HandleMedia(e: Envelope, p: Payload, out: Outside) returns (r: Result<(), Error>)
      modifies svc.repo
      ensures (svc.repo.View(), r) == HandleDecoded(old(svc.repo.View()), DecodeMedia(e, p), out)
      ensures old(svc.Valid()) && r.Ok? ==> MediaLand(svc.repo.View(), e, p, out.env)
    {
      MediaLanded(svc.repo.View(), e, p, out);
      var gigId := p.gigId;
      if gigId == "" {
        gigId := RecoveryGigId(e, e.aggregateId);
      }
      var files: seq<FileInput> := [];
      for i := 0 to |p.files|
        invariant AllDecode(p.files[..i]) && files == DecodedFiles(p.files[..i])
        invariant svc.repo.View() == old(svc.repo.View())
      {
        if p.files[i].data.None? {
          return Err(Malformed);
        }
        files := files + [FileInput(p.files[i].filename, p.files[i].contentType, p.files[i].data.value)];
      }
      assert p.files[..|p.files|] == p.files;
      var result := svc.ReplaceMedia(gigId, RecoveryFreelancerId(p.freelancerId, e), files, out.env.(recovery := true));
      r := Complete(result, out);
    }

    method HandlePublish(e: Envelope, p: Payload, out: Outside) returns (r: Result<(), Error>)
      modifies svc.repo
      ensures (svc.repo.View(), r) == HandleDecoded(old(svc.repo.View()), DecodePublish(e, p), out)
      ensures old(svc.Valid()) && r.Ok? ==> PublicationLands(old(svc.repo.View()), svc.repo.View(), e, p, out.env)
    {
      PublishLanded(svc.repo.View(), e, p, out);
      var gigId, owner := p.gigId, RecoveryFreelancerId(p.freelancerId, e);
      if gigId == "" {
        gigId := RecoveryGigId(e, e.aggregateId);
      }
      var username := p.username;
      if username == "" {
        username := e.recoveryUsername;
      }
      if username == "" {
        username := TrimSpace(e.tokenUsername);
      }
      var result := svc.Publish(gigId, owner, username, out.env.(recovery := true));
      if result == Err(GigAlreadyPublished) {
        result := svc.GetOwnedGig(gigId, owner);
      }
      r := Complete(result, out);
    }

    method Handle(e: Envelope, out: Outside) returns (r: Result<(), Error>)
      modifies svc.repo
      ensures (svc.repo.View(), r) == HandleEnvelope(old(svc.repo.View()), e, out)
      ensures old(svc.Valid()) ==> svc.Valid() && Kept(old(svc.repo.View()), svc.repo.View())
      ensures old(svc.Valid()) && r.Ok? && NamesIds(Decode(e).value) ==> HandledForGood(svc.repo.View(), e, out.env.slugify)
      ensures old(svc.Valid()) && r.Ok? ==> Lands(old(svc.repo.View()), svc.repo.View(), e, out.env)
      ensures old(svc.Valid()) ==> (r.Ok? <==> CanBeHandled(old(svc.repo.View()), e, out))
    {
      EnvelopeHandled(svc.repo.View(), e, out);
      EnvelopeLanded(svc.repo.View(), e, out);
      EnvelopeKeeps(svc.repo.View(), e, out);
      EnvelopeTwice(svc.repo.View(), e, out);
      if e.aggregateType != "gig" && e.aggregateType != "gigs" {
        return Err(Unsupported);
      }
      if TrimSpace(e.aggregateId) == "" {
        return Err(MissingAggregateID);
      }
      var kind := KindOf(e.operation, e.commandPath);
      if kind.None? {
        return Err(Unsupported);
      }
      if e.payload.NoJson? || (e.payload.Empty? && kind.value != PublishKind) {
        return Err(Malformed);
      }
      match kind.value
      case DraftKind => r := HandleDraft(e, PayloadOf(e), out);
      case BasicInfoKind => r := HandleBasicInfo(e, PayloadOf(e), out);
      case PackagesKind => r := HandlePackages(e, PayloadOf(e), out);
      case RequirementsKind => r := HandleQuestions(e, PayloadOf(e), out);
      case MediaKind => r := HandleMedia(e, PayloadOf(e), out);
      case PublishKind => r := HandlePublish(e, PayloadOf(e), out);
    }
  }
}
