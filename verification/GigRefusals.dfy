/** Why a write command is refused: for every error a caller can see before the write, exactly the requests that get it. */
module GigRefusals {
  import opened Text
  import opened Wrappers
  import opened ChildTable
  import opened Domain
  import opened Commands
  import opened WriteModel
  import opened GigCommands
  import opened GigAcceptance

  /** The error of a refusal; failures of the database and of the events are none. */
  function Refusal<T>(r: Result<T, Error>): Option<Error> {
    if r.Err? && r.error != StorageFailure && r.error != EventPublishFailure then Some(r.error) else None
  }

  // ----- The gig and its owner -----

  /** What every command on a gig asks first. */
  ghost predicate OwnershipRefused(db: DB, gigId: string, freelancerId: string, refusal: Option<Error>) {
    var id, owner := TrimSpace(gigId), TrimSpace(freelancerId);
    && (refusal == Some(InvalidGigID) <==> id == "")
    && (refusal == Some(InvalidFreelancerID) <==> id != "" && (owner == "" || (id in db.gigs && db.gigs[id].freelancerId != owner)))
    && (refusal == Some(GigNotFound) <==> id != "" && owner != "" && id !in db.gigs)
  }

  /** No check behind the ownership check gives one of its errors. */
  predicate OwnershipError(e: Error) {
    e == InvalidGigID || e == InvalidFreelancerID || e == GigNotFound
  }

  lemma {:induction false} PackageFaults(packages: seq<PackageData>, i: nat)
    requires i <= |packages|
    ensures ValidateFrom(packages, i).Some? ==>
              !OwnershipError(ValidateFrom(packages, i).value) && ValidateFrom(packages, i).value != GigDraftIncomplete
              && !ValidateFrom(packages, i).value.ConnectUnavailable? && !ValidateFrom(packages, i).value.ConnectOnboardingIncomplete?
    decreases |packages| - i
  {
    if i < |packages| {
      PackageFaults(packages, i + 1);
    }
  }

  lemma {:induction false} NormalizingFaults(packages: seq<PackageInput>, recovery: bool)
    ensures NormalizePackages(packages, recovery).Err? ==> !OwnershipError(NormalizePackages(packages, recovery).error)
  {
    if packages != [] {
      NormalizingFaults(packages[1..], recovery);
    }
  }

  lemma {:induction false} QuestionFaults(questions: seq<QuestionInput>, recovery: bool)
    ensures CheckQuestions(questions, recovery).Err? ==> !OwnershipError(CheckQuestions(questions, recovery).error)
  {
    if questions != [] {
      QuestionFaults(questions[1..], recovery);
    }
  }

  lemma GigFaults(gig: Gig, cmd: Command, env: Env)
    requires !cmd.CreateDraft?
    ensures CheckOnGig(gig, cmd, env).Err? ==> !OwnershipError(CheckOnGig(gig, cmd, env).error)
  {
    match cmd
    case ReplacePackages(_, _, packages) =>
      NormalizingFaults(packages, env.recovery);
      if NormalizePackages(packages, env.recovery).Ok? {
        PackageFaults(InputData(NormalizePackages(packages, env.recovery).value), 0);
      }
    case ReplaceQuestions(_, _, questions) => QuestionFaults(questions, env.recovery);
    case Publish(_, _, _) => PackageFaults(RowData(gig.packages), 0);
    case _ =>
  }

  lemma ChecksOwnership(db: DB, cmd: Command, env: Env)
    requires OwnIds(db) && !cmd.CreateDraft?
    ensures OwnershipRefused(db, cmd.gigId, cmd.freelancerId, Refusal(Check(db, cmd, env)))
  {
    OwnedExactly(db, cmd.gigId, cmd.freelancerId);
    if OwnedGig(db, cmd.gigId, cmd.freelancerId).Ok? {
      GigFaults(OwnedGig(db, cmd.gigId, cmd.freelancerId).value, cmd, env);
    }
  }

  // ----- Basic info -----

  /** The first text that is out of its limits decides. */
  ghost predicate BasicInfoRefused(cmd: Command, slugify: string -> string, refusal: Option<Error>)
    requires cmd.UpdateBasicInfo?
  {
    var titled := TrimSpace(cmd.title) != "";
    var short := TrimSpace(cmd.shortInfo) != "" && |Utf8(TrimSpace(cmd.shortInfo))| <= 128;
    var described, sorted, priced := cmd.description != "", cmd.categoryId > 0, TrimSpace(cmd.currency) != "";
    && (refusal == Some(InvalidTitle) <==> !titled || (short && described && sorted && priced && slugify(TrimSpace(cmd.title)) == ""))
    && (refusal == Some(InvalidShortInfo) <==> titled && !short)
    && (refusal == Some(InvalidDescription) <==> titled && short && !described)
    && (refusal == Some(InvalidCategoryID) <==> titled && short && described && !sorted)
    && (refusal == Some(InvalidCurrency) <==> titled && short && described && sorted && !priced)
  }

  lemma ChecksBasicInfo(db: DB, cmd: Command, env: Env)
    requires OwnIds(db) && cmd.UpdateBasicInfo? && OwnedBy(db, cmd.gigId, cmd.freelancerId)
    ensures BasicInfoRefused(cmd, env.slugify, Refusal(Check(db, cmd, env)))
  {
    OwnedExactly(db, cmd.gigId, cmd.freelancerId);
  }

  // ----- Requirements -----

  predicate NeedsId(id: string, recovery: bool) {
    recovery && TrimSpace(id) == ""
  }

  predicate FineQuestion(q: QuestionInput, recovery: bool) {
    !NeedsId(q.id, recovery) && TrimSpace(q.content) != ""
  }

  /** The first question that is not fine. */
  predicate FirstBadQuestion(questions: seq<QuestionInput>, recovery: bool, i: int) {
    && 0 <= i < |questions| && !FineQuestion(questions[i], recovery)
    && forall j :: 0 <= j < i ==> FineQuestion(questions[j], recovery)
  }

  ghost predicate QuestionsRefused(questions: seq<QuestionInput>, recovery: bool, refusal: Option<Error>) {
    && (refusal == Some(InvalidQuestionID) <==> exists i :: FirstBadQuestion(questions, recovery, i) && NeedsId(questions[i].id, recovery))
    && (refusal == Some(InvalidQuestionContent) <==> exists i :: FirstBadQuestion(questions, recovery, i) && !NeedsId(questions[i].id, recovery))
  }

  lemma BadQuestionBehind(questions: seq<QuestionInput>, recovery: bool, i: int)
    requires questions != [] && FineQuestion(questions[0], recovery)
    ensures FirstBadQuestion(questions[1..], recovery, i) <==> i >= 0 && FirstBadQuestion(questions, recovery, i + 1)
  {
    if i >= 0 && FirstBadQuestion(questions, recovery, i + 1) {
      forall j | 0 <= j < i
        ensures FineQuestion(questions[1..][j], recovery)
      {
        assert FineQuestion(questions[j + 1], recovery);
      }
    }
    if FirstBadQuestion(questions[1..], recovery, i) {
      forall j | 0 < j < i + 1
        ensures FineQuestion(questions[j], recovery)
      {
        assert FineQuestion(questions[1..][j - 1], recovery);
      }
    }
  }

  lemma {:induction false} CollectRefuses(questions: seq<QuestionInput>, recovery: bool)
    ensures QuestionsRefused(questions, recovery, Refusal(CheckQuestions(questions, recovery)))
  {
    if questions != [] {
      if FineQuestion(questions[0], recovery) {
        CollectRefuses(questions[1..], recovery);
        forall i
          ensures FirstBadQuestion(questions[1..], recovery, i) <==> i >= 0 && FirstBadQuestion(questions, recovery, i + 1)
        {
          BadQuestionBehind(questions, recovery, i);
        }
        forall i
          ensures FirstBadQuestion(questions, recovery, i) ==> FirstBadQuestion(questions[1..], recovery, i - 1) && questions[i] == questions[1..][i - 1]
        {
          BadQuestionBehind(questions, recovery, i - 1);
        }
      } else {
        assert FirstBadQuestion(questions, recovery, 0);
      }
    }
  }

  lemma ChecksQuestions(db: DB, cmd: Command, env: Env)
    requires OwnIds(db) && cmd.ReplaceQuestions? && OwnedBy(db, cmd.gigId, cmd.freelancerId)
    ensures QuestionsRefused(cmd.questions, env.recovery, Refusal(Check(db, cmd, env)))
  {
    OwnedExactly(db, cmd.gigId, cmd.freelancerId);
    CollectRefuses(cmd.questions, env.recovery);
  }

  // ----- Packages -----

  predicate NormalPackage(p: PackageInput, recovery: bool) {
    !NeedsId(p.id, recovery) && TrimSpace(p.tier) != ""
  }

  /** The first package without tier, or without an id that it needs. */
  predicate FirstAbnormal(packages: seq<PackageInput>, recovery: bool, i: int) {
    && 0 <= i < |packages| && !NormalPackage(packages[i], recovery)
    && forall j :: 0 <= j < i ==> NormalPackage(packages[j], recovery)
  }

  predicate AllNormal(packages: seq<PackageInput>, recovery: bool) {
    forall i :: 0 <= i < |packages| ==> NormalPackage(packages[i], recovery)
  }

  predicate TierFits(p: PackageInput, i: int) {
    0 <= i < 3 && TrimSpace(p.tier) == ["basic", "standard", "premium"][i]
  }

  predicate SellableAt(p: PackageInput, i: int) {
    TierFits(p, i) && TrimSpace(p.description) != "" && p.deliveryDays > 0 && p.priceCents > 0
  }

  predicate FirstUnsellable(packages: seq<PackageInput>, i: int) {
    && 0 <= i < |packages| && !SellableAt(packages[i], i)
    && forall j :: 0 <= j < i ==> SellableAt(packages[j], j)
  }

  /** Ids and tiers are looked at first, in all packages; then their number; then the packages one by one. */
  ghost predicate PackagesRefused(packages: seq<PackageInput>, recovery: bool, refusal: Option<Error>) {
    var counted := AllNormal(packages, recovery) && 1 <= |packages| <= 3;
    && (refusal == Some(InvalidPackageID) <==> exists i :: FirstAbnormal(packages, recovery, i) && NeedsId(packages[i].id, recovery))
    && (refusal == Some(InvalidPackageCount) <==> AllNormal(packages, recovery) && !counted)
    && (refusal == Some(InvalidPackageTier) <==>
          || (exists i :: FirstAbnormal(packages, recovery, i) && !NeedsId(packages[i].id, recovery))
          || (counted && exists i :: FirstUnsellable(packages, i) && !TierFits(packages[i], i)))
    && (refusal == Some(InvalidPackageDescription) <==>
          counted && exists i :: FirstUnsellable(packages, i) && TierFits(packages[i], i) && TrimSpace(packages[i].description) == "")
    && (refusal == Some(InvalidPackageDeliveryDays) <==>
          counted && exists i :: FirstUnsellable(packages, i) && TierFits(packages[i], i) && TrimSpace(packages[i].description) != ""
                                 && packages[i].deliveryDays <= 0)
    && (refusal == Some(InvalidPackagePriceCents) <==>
          counted && exists i :: FirstUnsellable(packages, i) && TierFits(packages[i], i) && TrimSpace(packages[i].description) != ""
                                 && packages[i].deliveryDays > 0)
  }

  lemma AbnormalBehind(packages: seq<PackageInput>, recovery: bool, i: int)
    requires packages != [] && NormalPackage(packages[0], recovery)
    ensures FirstAbnormal(packages[1..], recovery, i) <==> i >= 0 && FirstAbnormal(packages, recovery, i + 1)
  {
    if i >= 0 && FirstAbnormal(packages, recovery, i + 1) {
      forall j | 0 <= j < i
        ensures NormalPackage(packages[1..][j], recovery)
      {
        assert NormalPackage(packages[j + 1], recovery);
      }
    }
    if FirstAbnormal(packages[1..], recovery, i) {
      forall j | 0 < j < i + 1
        ensures NormalPackage(packages[j], recovery)
      {
        assert NormalPackage(packages[1..][j - 1], recovery);
      }
    }
  }

  /** Normalizing fails at the first package that is not normal. */
  lemma {:induction false} NormalizeRefuses(packages: seq<PackageInput>, recovery: bool) returns (i: int)
    ensures NormalizePackages(packages, recovery).Ok? <==> AllNormal(packages, recovery)
    ensures NormalizePackages(packages, recovery).Err? ==>
              && FirstAbnormal(packages, recovery, i)
              && NormalizePackages(packages, recovery).error == if NeedsId(packages[i].id, recovery) then InvalidPackageID else InvalidPackageTier
  {
    i := 0;
    if packages != [] && NormalPackage(packages[0], recovery) {
      var k := NormalizeRefuses(packages[1..], recovery);
      assert forall j :: 0 < j < |packages| ==> packages[j] == packages[1..][j - 1];
      AbnormalBehind(packages, recovery, k);
      i := k + 1;
    }
  }

  /** Validation fails at the first package that cannot be sold at its place. */
  lemma {:induction false} ValidateRefuses(data: seq<PackageData>, i: nat) returns (k: nat)
    requires i <= |data|
    ensures ValidateFrom(data, i).Some? ==>
              && i <= k < |data| && ValidateFrom(data, i) == ValidatePackage(data[k], k)
              && forall j: nat :: i <= j < k ==> ValidatePackage(data[j], j).None?
    decreases |data| - i
  {
    k := i;
    if i < |data| && ValidatePackage(data[i], i).None? {
      k := ValidateRefuses(data, i + 1);
    }
  }

  /** The fault of a package at its place. */
  function FaultAt(p: PackageInput, i: int): Error {
    if !TierFits(p, i) then InvalidPackageTier
    else if TrimSpace(p.description) == "" then InvalidPackageDescription
    else if p.deliveryDays <= 0 then InvalidPackageDeliveryDays
    else InvalidPackagePriceCents
  }

  lemma PlaceValidated(p: PackageInput, d: PackageData, i: nat)
    requires i < 3 && d.tier == TrimSpace(p.tier) && d.description == TrimSpace(p.description)
    requires d.deliveryDays == p.deliveryDays && d.priceCents == p.priceCents
    ensures ValidatePackage(d, i) == if SellableAt(p, i) then None else Some(FaultAt(p, i))
  {
    TrimSpaceTrims(p.tier);
    TrimSpaceTrims(p.description);
    TierNames(i);
  }

  lemma ValidatedPackages(packages: seq<PackageInput>, recovery: bool) returns (k: int)
    requires AllNormal(packages, recovery) && 1 <= |packages| <= 3
    ensures CheckPackages(packages, recovery).Err? ==>
              FirstUnsellable(packages, k) && CheckPackages(packages, recovery).error == FaultAt(packages[k], k)
    ensures CheckPackages(packages, recovery).Ok? ==> forall i :: 0 <= i < |packages| ==> SellableAt(packages[i], i)
  {
    var normal := NormalizeRefuses(packages, recovery);
    NormalizedShape(packages, recovery);
    var data := InputData(NormalizePackages(packages, recovery).value);
    forall i: nat | i < |packages|
      ensures ValidatePackage(data[i], i) == if SellableAt(packages[i], i) then None else Some(FaultAt(packages[i], i))
    {
      PlaceValidated(packages[i], data[i], i);
    }
    ValidFrom(data, 0);
    k := ValidateRefuses(data, 0);
    if ValidateFrom(data, 0).Some? {
      forall j | 0 <= j < k
        ensures SellableAt(packages[j], j)
      {
        assert ValidatePackage(data[j], j).None?;
      }
    }
  }

  lemma OneFirst(packages: seq<PackageInput>, recovery: bool)
    ensures forall i, j :: FirstAbnormal(packages, recovery, i) && FirstAbnormal(packages, recovery, j) ==> i == j
    ensures forall i, j :: FirstUnsellable(packages, i) && FirstUnsellable(packages, j) ==> i == j
  {
  }

  lemma AbnormalRefused(packages: seq<PackageInput>, recovery: bool)
    requires !AllNormal(packages, recovery)
    ensures PackagesRefused(packages, recovery, Refusal(CheckPackages(packages, recovery)))
  {
    var i := NormalizeRefuses(packages, recovery);
    OneFirst(packages, recovery);
  }

  lemma MiscountRefused(packages: seq<PackageInput>, recovery: bool)
    requires AllNormal(packages, recovery) && !(1 <= |packages| <= 3)
    ensures CheckPackages(packages, recovery) == Err(InvalidPackageCount)
  {
    var i := NormalizeRefuses(packages, recovery);
    NormalizedShape(packages, recovery);
  }

  lemma CountedRefused(packages: seq<PackageInput>, recovery: bool)
    requires AllNormal(packages, recovery) && 1 <= |packages| <= 3
    ensures PackagesRefused(packages, recovery, Refusal(CheckPackages(packages, recovery)))
  {
    var k := ValidatedPackages(packages, recovery);
    OneFirst(packages, recovery);
  }

  lemma PackagesRefuse(packages: seq<PackageInput>, recovery: bool)
    ensures PackagesRefused(packages, recovery, Refusal(CheckPackages(packages, recovery)))
  {
    if !AllNormal(packages, recovery) {
      AbnormalRefused(packages, recovery);
    } else if 1 <= |packages| <= 3 {
      CountedRefused(packages, recovery);
    } else {
      MiscountRefused(packages, recovery);
    }
  }

  lemma ChecksPackages(db: DB, cmd: Command, env: Env)
    requires OwnIds(db) && cmd.ReplacePackages? && OwnedBy(db, cmd.gigId, cmd.freelancerId)
    ensures PackagesRefused(cmd.packages, env.recovery, Refusal(Check(db, cmd, env)))
  {
    OwnedExactly(db, cmd.gigId, cmd.freelancerId);
    PackagesRefuse(cmd.packages, env.recovery);
  }

  // ----- Media -----

  ghost predicate MediaRefused(cmd: Command, env: Env, refusal: Option<Error>)
    requires cmd.ReplaceMedia?
  {
    var uploaded := UploadOf(cmd.gigId, cmd.freelancerId, cmd.files, env);
    && (refusal == Some(InvalidMediaUpload) <==> !FileTexts(cmd.files) || (uploaded.Some? && |uploaded.value| != |cmd.files|))
    && (refusal == Some(UploadFailure) <==> FileTexts(cmd.files) && uploaded.None?)
  }

  lemma ChecksMedia(db: DB, cmd: Command, env: Env)
    requires OwnIds(db) && cmd.ReplaceMedia? && OwnedBy(db, cmd.gigId, cmd.freelancerId)
    ensures MediaRefused(cmd, env, Refusal(Check(db, cmd, env)))
  {
    OwnedExactly(db, cmd.gigId, cmd.freelancerId);
    TrimSpaceTrims(cmd.gigId);
  }

  // ----- Publication -----

  ghost predicate PublicationRefused(db: DB, cmd: Command, env: Env, refusal: Option<Error>)
    requires cmd.Publish? && TrimSpace(cmd.gigId) in db.gigs
  {
    var row, packages := db.gigs[TrimSpace(cmd.gigId)], Read(db.packages, TrimSpace(cmd.gigId));
    var complete := row.status == Draft && row.basicInfoCompleted && row.packagesCompleted && packages != [];
    var sellable := complete && SellablePackages(RowData(packages));
    && (refusal == Some(GigAlreadyPublished) <==> row.status != Draft)
    && (refusal == Some(GigDraftIncomplete) <==> row.status == Draft && !complete)
    && (refusal == Some(ConnectUnavailable) <==> sellable && !env.recovery && env.connect.ConnectDown?)
    && (refusal == Some(ConnectOnboardingIncomplete) <==> sellable && !env.recovery && env.connect == ConnectStatus(false))
  }

  lemma ChecksPublication(db: DB, cmd: Command, env: Env)
    requires OwnIds(db) && cmd.Publish? && OwnedBy(db, cmd.gigId, cmd.freelancerId)
    ensures PublicationRefused(db, cmd, env, Refusal(Check(db, cmd, env)))
  {
    var packages := RowData(Read(db.packages, TrimSpace(cmd.gigId)));
    OwnedExactly(db, cmd.gigId, cmd.freelancerId);
    ValidPackagesAreSellable(packages);
    PackageFaults(packages, 0);
    PackagesNotPublished(packages, 0);
  }

  // ----- All commands -----

  /** Every refusal has its cause: ownership first, then the request. */
  ghost predicate RefusedFor(db: DB, cmd: Command, env: Env, refusal: Option<Error>) {
    if cmd.CreateDraft? then refusal == Some(InvalidFreelancerID) <==> TrimSpace(cmd.freelancerId) == ""
    else
      && OwnershipRefused(db, cmd.gigId, cmd.freelancerId, refusal)
      && (OwnedBy(db, cmd.gigId, cmd.freelancerId) ==>
            match cmd
            case UpdateBasicInfo(_, _, _, _, _, _, _) => BasicInfoRefused(cmd, env.slugify, refusal)
            case ReplacePackages(_, _, packages) => PackagesRefused(packages, env.recovery, refusal)
            case ReplaceQuestions(_, _, questions) => QuestionsRefused(questions, env.recovery, refusal)
            case ReplaceMedia(_, _, _) => MediaRefused(cmd, env, refusal)
            case Publish(_, _, _) => PublicationRefused(db, cmd, env, refusal))
  }

  lemma CheckRefuses(db: DB, cmd: Command, env: Env)
    requires OwnIds(db)
    ensures RefusedFor(db, cmd, env, Refusal(Check(db, cmd, env)))
  {
    if !cmd.CreateDraft? {
      ChecksOwnership(db, cmd, env);
      if OwnedBy(db, cmd.gigId, cmd.freelancerId) {
        match cmd
        case UpdateBasicInfo(_, _, _, _, _, _, _) => ChecksBasicInfo(db, cmd, env);
        case ReplacePackages(_, _, _) => ChecksPackages(db, cmd, env);
        case ReplaceQuestions(_, _, _) => ChecksQuestions(db, cmd, env);
        case ReplaceMedia(_, _, _) => ChecksMedia(db, cmd, env);
        case Publish(_, _, _) => ChecksPublication(db, cmd, env);
      }
    }
  }

  /** The command is refused as its checks are. */
  lemma RefusedAsChecked(db: DB, cmd: Command, env: Env)
    requires OwnIds(db)
    ensures Refusal(Execute(db, cmd, env).1) == Refusal(Check(db, cmd, env))
  {
    if Check(db, cmd, env).Ok? {
      CheckedWrite(db, cmd, env, Check(db, cmd, env).value);
      WriteFails(db, Check(db, cmd, env).value, env);
    }
  }

  /** Main result. For every command the error it is refused with tells exactly what is wrong with the request. */
  lemma RefusalsAreExact(db: DB, cmd: Command, env: Env)
    requires OwnIds(db)
    ensures RefusedFor(db, cmd, env, Refusal(Execute(db, cmd, env).1))
  {
    CheckRefuses(db, cmd, env);
    RefusedAsChecked(db, cmd, env);
  }
}
