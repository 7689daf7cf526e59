/** service.go: the write commands of the gig service. Each command checks and then writes; other commands
    may run in between, so both halves are functions of their own. */
module GigCommands {
  import opened Text
  import opened Wrappers
  import opened ChildTable
  import opened Domain
  import opened Commands
  import opened Slug
  import opened WriteModel

  datatype ConnectRead = ConnectDown | ConnectStatus(completed: bool)

  /** The surroundings of one command: whether it replays a recovery command, the seller's payment
      onboarding, whether the required events can be published, the time, generated ids, the file ids that an
      upload of files for an owner under a prefix yields (None is a failed upload), failing statements, and the
      title normalizer. */
  datatype Env = Env(
    recovery: bool,
    connect: ConnectRead,
    events: bool,
    now: int,
    generated: nat -> string,
    upload: (string, string, seq<FileInput>) -> Option<seq<string>>,
    faults: Faults,
    slugify: string -> string)

  datatype Command =
    | CreateDraft(gigId: string, freelancerId: string)
    | UpdateBasicInfo(gigId: string, freelancerId: string, title: string, shortInfo: string, description: string,
                      categoryId: int, currency: string)
    | ReplacePackages(gigId: string, freelancerId: string, packages: seq<PackageInput>)
    | ReplaceQuestions(gigId: string, freelancerId: string, questions: seq<QuestionInput>)
    | ReplaceMedia(gigId: string, freelancerId: string, files: seq<FileInput>)
    | Publish(gigId: string, freelancerId: string, username: string)

  /** What a checked command goes on to write. */
  datatype Write =
    | WriteDraft(id: string, freelancerId: string)
    | WriteBasicInfo(id: string, info: BasicInfo)
    | WritePackages(id: string, packages: seq<Input<PackageData>>)
    | WriteQuestions(id: string, questions: seq<Input<string>>)
    | WriteMedia(id: string, picture: string, files: seq<Input<string>>)
    | WritePublish(id: string, username: string)

  const SHORT_INFO_BYTES := 128

  // ----- Checks -----

  /** getOwnedGig. */
  function OwnedGig(db: DB, gigId: string, freelancerId: string): Result<Gig, Error> {
    var id, owner := TrimSpace(gigId), TrimSpace(freelancerId);
    if id == "" then Err(InvalidGigID)
    else if owner == "" then Err(InvalidFreelancerID)
    else
      var gig := GetById(db, id, false);
      if gig.Ok? && gig.value.row.freelancerId != owner then Err(InvalidFreelancerID) else gig
  }

  function CheckBasicInfo(cmd: Command, id: string, slugify: string -> string): Result<BasicInfo, Error>
    requires cmd.UpdateBasicInfo?
  {
    var title, shortInfo := TrimSpace(cmd.title), TrimSpace(cmd.shortInfo);
    var slug := Generate(slugify(title), id);
    if title == "" then Err(InvalidTitle)
    else if shortInfo == "" || |Utf8(shortInfo)| > SHORT_INFO_BYTES then Err(InvalidShortInfo)
    else if cmd.description == "" then Err(InvalidDescription)
    else if cmd.categoryId <= 0 then Err(InvalidCategoryID)
    else if TrimSpace(cmd.currency) == "" then Err(InvalidCurrency)
    else if slug == "" then Err(InvalidTitle)
    else Ok(BasicInfo(title, shortInfo, slug, TrimSpace(cmd.description), cmd.categoryId, TrimSpace(cmd.currency)))
  }

  function NormalizePackage(p: PackageInput, recovery: bool): Result<Input<PackageData>, Error> {
    if TrimSpace(p.id) == "" && recovery then Err(InvalidPackageID)
    else if TrimSpace(p.tier) == "" then Err(InvalidPackageTier)
    else Ok(Input(TrimSpace(p.id), PackageData(TrimSpace(p.tier), TrimSpace(p.description), p.deliveryDays, p.priceCents)))
  }

  /** The first package that is refused, or all of them normalized. */
  function NormalizePackages(packages: seq<PackageInput>, recovery: bool): Result<seq<Input<PackageData>>, Error> {
    if packages == [] then Ok([])
    else
      match NormalizePackage(packages[0], recovery)
      case Err(e) => Err(e)
      case Ok(p) =>
        match NormalizePackages(packages[1..], recovery)
        case Err(e) => Err(e)
        case Ok(rest) => Ok([p] + rest)
  }

  function TierAt(i: nat): string {
    if i == 0 then TIER_BASIC else if i == 1 then TIER_STANDARD else TIER_PREMIUM
  }

  function ValidatePackage(p: PackageData, i: nat): Option<Error> {
    if TrimSpace(p.tier) != TierAt(i) then Some(InvalidPackageTier)
    else if TrimSpace(p.description) == "" then Some(InvalidPackageDescription)
    else if p.deliveryDays <= 0 then Some(InvalidPackageDeliveryDays)
    else if p.priceCents <= 0 then Some(InvalidPackagePriceCents)
    else None
  }

  function ValidateFrom(packages: seq<PackageData>, i: nat): Option<Error>
    requires i <= |packages|
    decreases |packages| - i
  {
    if i == |packages| then None
    else if ValidatePackage(packages[i], i).Some? then ValidatePackage(packages[i], i)
    else ValidateFrom(packages, i + 1)
  }

  /** validatePackages. */
  function ValidatePackages(packages: seq<PackageData>): Option<Error> {
    if |packages| < 1 || |packages| > 3 then Some(InvalidPackageCount) else ValidateFrom(packages, 0)
  }

  function InputData(items: seq<Input<PackageData>>): (d: seq<PackageData>)
    ensures |d| == |items| && forall i :: 0 <= i < |d| ==> d[i] == items[i].value
  {
    seq(|items|, i requires 0 <= i < |items| => items[i].value)
  }

  function RowData(rows: seq<PackageRow>): (d: seq<PackageData>)
    ensures |d| == |rows| && forall i :: 0 <= i < |d| ==> d[i] == rows[i].value
  {
    seq(|rows|, i requires 0 <= i < |rows| => rows[i].value)
  }

  function CheckPackages(packages: seq<PackageInput>, recovery: bool): Result<seq<Input<PackageData>>, Error> {
    match NormalizePackages(packages, recovery)
    case Err(e) => Err(e)
    case Ok(items) =>
      var invalid := ValidatePackages(InputData(items));
      if invalid.Some? then Err(invalid.value) else Ok(items)
  }

  function CheckQuestions(questions: seq<QuestionInput>, recovery: bool): Result<seq<Input<string>>, Error> {
    if questions == [] then Ok([])
    else if TrimSpace(questions[0].id) == "" && recovery then Err(InvalidQuestionID)
    else if TrimSpace(questions[0].content) == "" then Err(InvalidQuestionContent)
    else
      match CheckQuestions(questions[1..], recovery)
      case Err(e) => Err(e)
      case Ok(rest) => Ok([Input(questions[0].id, questions[0].content)] + rest)
  }

  /** validateMediaUploads. */
  function ValidMedia(files: seq<FileInput>): bool {
    && files != []
    && forall i :: 0 <= i < |files| ==>
         TrimSpace(files[i].filename) != "" && TrimSpace(files[i].contentType) != "" && files[i].data != []
  }

  /** buildGigMedia: rows without ids, one for each file after the cover. */
  function MediaInputs(fileIds: seq<string>): (items: seq<Input<string>>)
    ensures |items| == |fileIds| && forall i :: 0 <= i < |items| ==> items[i] == Input("", fileIds[i])
  {
    seq(|fileIds|, i requires 0 <= i < |fileIds| => Input("", fileIds[i]))
  }

  /** gigMediaPrefix. */
  function MediaPrefix(id: string): string {
    "gigs/" + TrimSpace(id) + "/media"
  }

  /** The upload comes between the check and the write; the first file is the cover. */
  function CheckMedia(gig: Gig, files: seq<FileInput>, env: Env): Result<Write, Error> {
    if !ValidMedia(files) then Err(InvalidMediaUpload)
    else
      var uploaded := env.upload(gig.row.freelancerId, MediaPrefix(gig.row.id), files);
      if uploaded.None? then Err(UploadFailure)
      else if uploaded.value == [] || |uploaded.value| != |files| then Err(InvalidMediaUpload)
      else Ok(WriteMedia(gig.row.id, uploaded.value[0], MediaInputs(uploaded.value[1..])))
  }

  /** validatePublishReady. */
  function ValidatePublishReady(gig: Gig): Option<Error> {
    if gig.row.status != Draft then Some(GigAlreadyPublished)
    else if !gig.row.basicInfoCompleted || !gig.row.packagesCompleted || gig.packages == [] then Some(GigDraftIncomplete)
    else ValidatePackages(RowData(gig.packages))
  }

  function CheckConnect(env: Env): Option<Error> {
    if env.recovery then None
    else if env.connect.ConnectDown? then Some(ConnectUnavailable)
    else if !env.connect.completed then Some(ConnectOnboardingIncomplete)
    else None
  }

  function CheckOnGig(gig: Gig, cmd: Command, env: Env): Result<Write, Error>
    requires !cmd.CreateDraft?
  {
    var id := gig.row.id;
    match cmd
    case UpdateBasicInfo(_, _, _, _, _, _, _) =>
      (match CheckBasicInfo(cmd, id, env.slugify) case Ok(info) => Ok(WriteBasicInfo(id, info)) case Err(e) => Err(e))
    case ReplacePackages(_, _, packages) =>
      (match CheckPackages(packages, env.recovery) case Ok(items) => Ok(WritePackages(id, items)) case Err(e) => Err(e))
    case ReplaceQuestions(_, _, questions) =>
      (match CheckQuestions(questions, env.recovery) case Ok(items) => Ok(WriteQuestions(id, items)) case Err(e) => Err(e))
    case ReplaceMedia(_, _, files) => CheckMedia(gig, files, env)
    case Publish(_, _, username) =>
      if ValidatePublishReady(gig).Some? then Err(ValidatePublishReady(gig).value)
      else if CheckConnect(env).Some? then Err(CheckConnect(env).value)
      else Ok(WritePublish(id, TrimSpace(username)))
  }

  function Check(db: DB, cmd: Command, env: Env): Result<Write, Error> {
    if cmd.CreateDraft? then
      if TrimSpace(cmd.freelancerId) == "" then Err(InvalidFreelancerID)
      else Ok(WriteDraft(cmd.gigId, TrimSpace(cmd.freelancerId)))
    else
      match OwnedGig(db, cmd.gigId, cmd.freelancerId)
      case Err(e) => Err(e)
      case Ok(gig) => CheckOnGig(gig, cmd, env)
  }

  // ----- Writes -----

  function From(faults: Faults, k: nat): Faults {
    (i: nat) => faults(k + i)
  }

  /** After the publishing update: a seller name where the gig has none. */
  predicate NamesSeller(r: Result<Gig, Error>, username: string) {
    r.Ok? && username != "" && TrimSpace(r.value.row.sellerUsername) == ""
  }

  function Perform(db: DB, w: Write, env: Env): (DB, Result<Gig, Error>) {
    match w
    case WriteDraft(id, freelancerId) => WriteModel.CreateDraft(db, id, env.generated(0), freelancerId, env.faults)
    case WriteBasicInfo(id, info) => WriteModel.UpdateBasicInfo(db, id, info, env.faults)
    case WritePackages(id, items) => WriteModel.ReplacePackages(db, id, items, env.generated, env.faults)
    case WriteQuestions(id, items) => WriteModel.ReplaceQuestions(db, id, items, env.generated, env.faults)
    case WriteMedia(id, picture, items) => WriteModel.ReplaceMedia(db, id, picture, items, env.generated, env.faults)
    case WritePublish(id, username) =>
      var (d, r) := WriteModel.Publish(db, id, env.now, env.faults);
      if NamesSeller(r, username) then UpdateSellerUsername(d, id, username, From(env.faults, 2)) else (d, r)
  }

  /** A command as it runs alone. The events go out after the write: where they cannot, the command
      fails and the write stays. */
  function Execute(db: DB, cmd: Command, env: Env): (DB, Result<Gig, Error>) {
    match Check(db, cmd, env)
    case Err(e) => (db, Err(e))
    case Ok(w) =>
      var (d, r) := Perform(db, w, env);
      (d, if r.Ok? && !env.events then Err(EventPublishFailure) else r)
  }

  // ----- What validation means -----

  /** One to three packages whose tiers are the first of basic, standard, premium, with positive price
      and delivery days. */
  ghost predicate SellablePackages(packages: seq<PackageData>) {
    && 1 <= |packages| <= 3
    && forall i :: 0 <= i < |packages| ==>
         && TrimSpace(packages[i].tier) == [TIER_BASIC, TIER_STANDARD, TIER_PREMIUM][i]
         && TrimSpace(packages[i].description) != ""
         && packages[i].deliveryDays > 0
         && packages[i].priceCents > 0
  }

  lemma {:induction false} ValidFrom(packages: seq<PackageData>, i: nat)
    requires i <= |packages|
    ensures ValidateFrom(packages, i).None? <==> forall j: nat :: i <= j < |packages| ==> ValidatePackage(packages[j], j).None?
    decreases |packages| - i
  {
    if i < |packages| {
      ValidFrom(packages, i + 1);
    }
  }

  /** validatePackages accepts exactly the sellable package lists. */
  lemma ValidPackagesAreSellable(packages: seq<PackageData>)
    ensures ValidatePackages(packages).None? <==> SellablePackages(packages)
  {
    ValidFrom(packages, 0);
    if SellablePackages(packages) {
      forall j: nat | j < |packages|
        ensures ValidatePackage(packages[j], j).None?
      {
      }
    }
  }

  /** Normalized packages: one for each, with trimmed texts and, in recovery, an id. */
  lemma {:induction false} NormalizedShape(packages: seq<PackageInput>, recovery: bool)
    ensures NormalizePackages(packages, recovery).Ok? <==>
            forall i :: 0 <= i < |packages| ==> TrimSpace(packages[i].tier) != "" && (recovery ==> TrimSpace(packages[i].id) != "")
    ensures NormalizePackages(packages, recovery).Ok? ==>
              var items := NormalizePackages(packages, recovery).value;
              && |items| == |packages|
              && forall i :: 0 <= i < |items| ==>
                   && items[i].id == TrimSpace(packages[i].id)
                   && items[i].value.tier == TrimSpace(packages[i].tier)
                   && items[i].value.description == TrimSpace(packages[i].description)
                   && items[i].value.deliveryDays == packages[i].deliveryDays
                   && items[i].value.priceCents == packages[i].priceCents
  {
    if packages != [] {
      NormalizedShape(packages[1..], recovery);
      assert forall i :: 0 < i < |packages| ==> packages[i] == packages[1..][i - 1];
    }
  }

  // ----- Publishing -----

  /** What a seller must have for a gig to be published. */
  ghost predicate Publishable(db: DB, cmd: Command, env: Env)
    requires cmd.Publish?
  {
    var id := TrimSpace(cmd.gigId);
    && id != "" && id in db.gigs
    && TrimSpace(cmd.freelancerId) != "" && db.gigs[id].freelancerId == TrimSpace(cmd.freelancerId)
    && db.gigs[id].status == Draft && db.gigs[id].basicInfoCompleted && db.gigs[id].packagesCompleted
    && SellablePackages(RowData(Read(db.packages, id)))
    && (env.recovery || (env.connect.ConnectStatus? && env.connect.completed))
  }

  /** The row a publication leaves: only status, time and a missing seller name change. */
  function PublishedRow(row: GigRow, username: string, now: int): GigRow {
    var name := if TrimSpace(username) != "" && TrimSpace(row.sellerUsername) == "" then TrimSpace(username) else row.sellerUsername;
    row.(status := Published, publishedAt := Some(now), sellerUsername := name)
  }

  lemma PublishChecks(db: DB, cmd: Command, env: Env)
    requires cmd.Publish? && forall id :: id in db.gigs ==> db.gigs[id].id == id
    ensures Check(db, cmd, env).Ok? <==> Publishable(db, cmd, env)
    ensures Check(db, cmd, env).Ok? ==> Check(db, cmd, env).value == WritePublish(TrimSpace(cmd.gigId), TrimSpace(cmd.username))
  {
    var id := TrimSpace(cmd.gigId);
    if id in db.gigs {
      ValidPackagesAreSellable(RowData(Read(db.packages, id)));
    }
  }

  /** Only a status that is no draft reads as published already. */
  lemma {:induction false} PackagesNotPublished(packages: seq<PackageData>, i: nat)
    requires i <= |packages|
    ensures ValidateFrom(packages, i) != Some(GigAlreadyPublished)
    decreases |packages| - i
  {
    if i < |packages| {
      PackagesNotPublished(packages, i + 1);
    }
  }

  lemma PerformNotPublished(x: DB, id: string, username: string, env: Env)
    ensures Perform(x, WritePublish(id, username), env).1 != Err(GigAlreadyPublished)
  {
  }

  lemma PublishPerforms(db: DB, id: string, username: string, env: Env)
    requires id in db.gigs && db.gigs[id].id == id && TrimSpace(username) == username
    requires forall k: nat :: !env.faults(k)
    ensures Perform(db, WritePublish(id, username), env).0 == db.(gigs := db.gigs[id := PublishedRow(db.gigs[id], username, env.now)])
    ensures Perform(db, WritePublish(id, username), env).1.Ok?
  {
    var d := WriteModel.Publish(db, id, env.now, env.faults).0;
    var row := PublishedRow(db.gigs[id], username, env.now);
    assert d.gigs[id := d.gigs[id].(sellerUsername := username)] == db.gigs[id := d.gigs[id].(sellerUsername := username)];
  }

  /** Whatever fails, a publication changes at most its gig's status, time and seller name. */
  lemma PublishWrites(db: DB, id: string, username: string, env: Env)
    requires id in db.gigs
    ensures var (d, r) := Perform(db, WritePublish(id, username), env);
            && id in d.gigs && d == db.(gigs := db.gigs[id := d.gigs[id]])
            && (r.Ok? ==> d.gigs[id].status == Published)
            && (d.gigs[id] == db.gigs[id]
                || d.gigs[id] == db.gigs[id].(status := Published, publishedAt := Some(env.now),
                                              sellerUsername := d.gigs[id].sellerUsername))
  {
    var d := WriteModel.Publish(db, id, env.now, env.faults).0;
    var row := db.gigs[id].(status := Published, publishedAt := Some(env.now));
    assert !env.faults(0) ==> d.gigs == db.gigs[id := row];
    assert db.gigs[id := db.gigs[id]] == db.gigs;
  }

  /** Main result. With a working database and broker a publication succeeds if and only if the gig is an
      owned draft with basic info and sellable packages, and the seller is onboarded (or the command is a
      recovery); then the gig's row is published and nothing else changes. Refused, it changes nothing. */
  lemma PublishSucceedsExactly(db: DB, cmd: Command, env: Env)
    requires cmd.Publish? && (forall id :: id in db.gigs ==> db.gigs[id].id == id)
    requires env.events && forall k: nat :: !env.faults(k)
    ensures Execute(db, cmd, env).1.Ok? <==> Publishable(db, cmd, env)
    ensures Execute(db, cmd, env).0
            == if Publishable(db, cmd, env)
               then db.(gigs := db.gigs[TrimSpace(cmd.gigId) := PublishedRow(db.gigs[TrimSpace(cmd.gigId)], cmd.username, env.now)])
               else db
  {
    PublishChecks(db, cmd, env);
    if Publishable(db, cmd, env) {
      TrimSpaceTrims(cmd.username);
      PublishPerforms(db, TrimSpace(cmd.gigId), TrimSpace(cmd.username), env);
    }
  }

  // ----- One gig at a time -----

  function TargetOf(cmd: Command, env: Env): string {
    if !cmd.CreateDraft? then TrimSpace(cmd.gigId) else if cmd.gigId == "" then env.generated(0) else cmd.gigId
  }

  /** The gig is in both states with the same row, packages and questions, or in neither. */
  ghost predicate SameGig(a: DB, b: DB, id: string) {
    && (id in a.gigs <==> id in b.gigs)
    && (id in a.gigs ==> a.gigs[id] == b.gigs[id])
    && Read(a.packages, id) == Read(b.packages, id)
    && Read(a.questions, id) == Read(b.questions, id)
    && Read(a.media, id) == Read(b.media, id)
  }

  lemma PublishTouchesOne(db: DB, id: string, username: string, env: Env, other: string)
    requires other != id
    ensures SameGig(db, Perform(db, WritePublish(id, username), env).0, other)
  {
  }

  lemma RowWriteTouchesOne(db: DB, w: Write, env: Env, other: string)
    requires w.WriteDraft? || w.WriteBasicInfo?
    requires other != if w.WriteDraft? && w.id == "" then env.generated(0) else w.id
    ensures SameGig(db, Perform(db, w, env).0, other)
  {
  }

  lemma PerformTouchesOne(db: DB, w: Write, env: Env, other: string)
    requires other != if w.WriteDraft? && w.id == "" then env.generated(0) else w.id
    ensures SameGig(db, Perform(db, w, env).0, other)
  {
    match w
    case WriteDraft(_, _) => RowWriteTouchesOne(db, w, env, other);
    case WriteBasicInfo(_, _) => RowWriteTouchesOne(db, w, env, other);
    case WritePackages(id, items) => PackagesAllOrNothing(db, id, items, env.generated, env.faults, other);
    case WriteQuestions(id, items) => QuestionsAllOrNothing(db, id, items, env.generated, env.faults, other);
    case WriteMedia(id, picture, items) => MediaAllOrNothing(db, id, picture, items, env.generated, env.faults, other);
    case WritePublish(id, username) => PublishTouchesOne(db, id, username, env, other);
  }

  /** What a checked command writes to is the gig it names. */
  lemma CheckedTarget(db: DB, cmd: Command, env: Env)
    requires (forall id :: id in db.gigs ==> db.gigs[id].id == id) && Check(db, cmd, env).Ok?
    ensures var w := Check(db, cmd, env).value;
            TargetOf(cmd, env) == if w.WriteDraft? && w.id == "" then env.generated(0) else w.id
  {
  }

  /** A command, whether it succeeds or fails, touches no gig but the one it names: what keying the recovery
      lanes by gig relies on. */
  lemma OtherGigsUntouched(db: DB, cmd: Command, env: Env, other: string)
    requires (forall id :: id in db.gigs ==> db.gigs[id].id == id) && other != TargetOf(cmd, env)
    ensures SameGig(db, Execute(db, cmd, env).0, other)
  {
    var checked := Check(db, cmd, env);
    if checked.Ok? {
      CheckedTarget(db, cmd, env);
      PerformTouchesOne(db, checked.value, env, other);
    }
  }
}
