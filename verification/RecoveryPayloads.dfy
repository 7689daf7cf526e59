/** What a recovered command leaves: the texts and rows of its payload, for each operation and path. */
module RecoveryPayloads {
  import opened Text
  import opened Wrappers
  import opened ChildTable
  import opened Domain
  import opened Commands
  import opened WriteModel
  import opened GigCommands
  import opened WriteInvariant
  import opened GigPromises
  import opened GigAcceptance
  import opened RecoveryHandler
  import opened RecoveryKeys

  // ----- Operation and path decide the command -----

  lemma PostsDraft(path: string)
    requires HasSuffix(path, "/gigs/drafts")
    ensures KindOf("post", path) == Some(DraftKind)
  {
  }

  lemma PatchesBasicInfo(path: string)
    requires HasSuffix(path, "/basic-info")
    ensures KindOf("patch", path) == Some(BasicInfoKind)
  {
    assert "patch"[1] != "post"[1];
  }

  lemma NotPost()
    ensures "put" != "post" && "put" != "patch"
  {
    assert "put"[1] != "post"[1] && "put"[1] != "patch"[1];
  }

  lemma NotBoth(path: string, a: string, b: string)
    requires HasSuffix(path, a) && 3 <= |a| && 3 <= |b| && a[|a| - 3..] != b[|b| - 3..]
    ensures !HasSuffix(path, b)
  {
    LastOfSuffix(path, a);
    if HasSuffix(path, b) {
      LastOfSuffix(path, b);
    }
  }

  lemma LastThree()
    ensures "/packages"[6..] == "ges" && "/requirements"[10..] == "nts" && "/media"[3..] == "dia"
    ensures "/publish"[5..] == "ish" && "/gigs/drafts"[9..] == "fts"
    ensures "ges"[0] != "nts"[0] && "ges"[0] != "dia"[0] && "nts"[0] != "dia"[0] && "ish"[0] != "fts"[0]
  {
  }

  lemma PutsPackages(path: string)
    requires HasSuffix(path, "/packages")
    ensures KindOf("put", path) == Some(PackagesKind)
  {
    NotPost();
  }

  lemma PutsRequirements(path: string)
    requires HasSuffix(path, "/requirements")
    ensures KindOf("put", path) == Some(RequirementsKind)
  {
    NotPost();
    LastThree();
    NotBoth(path, "/requirements", "/packages");
  }

  lemma PutsMedia(path: string)
    requires HasSuffix(path, "/media")
    ensures KindOf("put", path) == Some(MediaKind)
  {
    NotPost();
    LastThree();
    NotBoth(path, "/media", "/packages");
    NotBoth(path, "/media", "/requirements");
  }

  lemma PostsPublication(path: string)
    requires HasSuffix(path, "/publish")
    ensures KindOf("post", path) == Some(PublishKind)
  {
    LastThree();
    NotBoth(path, "/publish", "/gigs/drafts");
    assert "put"[1] != "post"[1] && "patch"[1] != "post"[1];
  }

  // ----- What stands in the tables afterwards -----

  /** The gig addressed by the payload's id, or else by the path. */
  function Addressed(e: Envelope, p: Payload): string {
    TrimSpace(if p.gigId == "" then RecoveryGigId(e, e.aggregateId) else p.gigId)
  }

  /** The owner: the payload's, else the recorded principal, else the subject of the token. */
  function OwnerNamed(e: Envelope, p: Payload): string {
    if TrimSpace(p.freelancerId) != "" then TrimSpace(p.freelancerId)
    else if TrimSpace(e.recoveryPrincipalId) != "" then TrimSpace(e.recoveryPrincipalId)
    else TrimSpace(e.tokenSubject)
  }

  /** The gig is there and its owner is the one named. */
  predicate OwnedThere(y: DB, e: Envelope, p: Payload) {
    Addressed(e, p) in y.gigs && y.gigs[Addressed(e, p)].freelancerId == OwnerNamed(e, p)
  }

  /** PATCH …/basic-info. */
  predicate BasicInfoLands(y: DB, e: Envelope, p: Payload) {
    && OwnedThere(y, e, p)
    && var row := y.gigs[Addressed(e, p)];
       && row.basicInfoCompleted
       && row.title == TrimSpace(p.title) && row.shortInfo == TrimSpace(p.shortInfo)
       && row.description == TrimSpace(p.description) && row.currency == TrimSpace(p.currency)
       && row.categoryId == p.categoryId
  }

  /** PUT …/packages. */
  ghost predicate PackagesLand(y: DB, e: Envelope, p: Payload) {
    && OwnedThere(y, e, p) && y.gigs[Addressed(e, p)].packagesCompleted
    && var rows := Read(y.packages, Addressed(e, p));
       && |rows| == |p.packages|
       && forall i :: 0 <= i < |rows| ==>
            && rows[i].id == TrimSpace(p.packages[i].id) && rows[i].sortOrder == i + 1
            && rows[i].value.tier == TrimSpace(p.packages[i].tier)
            && rows[i].value.description == TrimSpace(p.packages[i].description)
            && rows[i].value.deliveryDays == p.packages[i].deliveryDays
            && rows[i].value.priceCents == p.packages[i].priceCents
  }

  /** PUT …/requirements. */
  ghost predicate QuestionsLand(y: DB, e: Envelope, p: Payload) {
    && OwnedThere(y, e, p) && y.gigs[Addressed(e, p)].requirementsCompleted
    && var rows := Read(y.questions, Addressed(e, p));
       && |rows| == |p.questions|
       && forall i :: 0 <= i < |rows| ==>
            rows[i].id == p.questions[i].id && rows[i].sortOrder == i + 1 && rows[i].value == p.questions[i].content
  }

  /** The payload's files, decoded, in its order. */
  ghost predicate FilesOf(p: Payload, files: seq<FileInput>) {
    && |files| == |p.files|
    && forall i :: 0 <= i < |files| ==>
         files[i].filename == p.files[i].filename && files[i].contentType == p.files[i].contentType
         && p.files[i].data == Some(files[i].data)
  }

  /** PUT …/media: the files were uploaded in the payload's order; the first is the cover, the others follow. */
  ghost predicate MediaLand(y: DB, e: Envelope, p: Payload, env: Env) {
    && OwnedThere(y, e, p) && y.gigs[Addressed(e, p)].mediaCompleted
    && exists files: seq<FileInput> :: FilesOf(p, files) && UploadedTo(y, Addressed(e, p), OwnerNamed(e, p), files, env)
  }

  ghost predicate UploadedTo(y: DB, id: string, owner: string, files: seq<FileInput>, env: Env)
    requires id in y.gigs
  {
    var ids := env.upload(owner, "gigs/" + id + "/media", files);
    var rows := Read(y.media, id);
    && ids.Some? && |ids.value| == |files| == |rows| + 1
    && y.gigs[id].pictureFileId == ids.value[0]
    && forall i :: 0 <= i < |rows| ==> rows[i].value == ids.value[i + 1] && rows[i].sortOrder == i + 1
  }

  /** POST …/gigs/drafts. */
  predicate DraftLands(y: DB, e: Envelope, p: Payload, env: Env) {
    var id := if TrimSpace(p.gigId) == "" then env.generated(0) else TrimSpace(p.gigId);
    && id in y.gigs
    && y.gigs[id].freelancerId != ""
    && y.gigs[id].freelancerId
       == if TrimSpace(p.freelancerId) != "" then TrimSpace(p.freelancerId)
          else if TrimSpace(p.freelancerIdCamel) != "" then TrimSpace(p.freelancerIdCamel)
          else TrimSpace(e.recoveryPrincipalId)
  }

  /** The seller name asked for: the payload's, else the one recorded, else the token's. */
  function NameAsked(e: Envelope, p: Payload): string {
    if p.username != "" then p.username else if e.recoveryUsername != "" then e.recoveryUsername else TrimSpace(e.tokenUsername)
  }

  /** POST …/publish. A draft is published now, under the name asked for where it has none; a published gig stays. */
  predicate PublicationLands(x: DB, y: DB, e: Envelope, p: Payload, env: Env) {
    && OwnedThere(y, e, p)
    && var id := Addressed(e, p);
       && id in x.gigs
       && y.gigs[id]
          == if x.gigs[id].status != Draft then x.gigs[id]
             else x.gigs[id].(status := Published, publishedAt := Some(env.now),
                              sellerUsername := if TrimSpace(x.gigs[id].sellerUsername) == "" && TrimSpace(NameAsked(e, p)) != ""
                                                then TrimSpace(NameAsked(e, p)) else x.gigs[id].sellerUsername)
  }

  /** All of it: what an envelope handled with success leaves. */
  ghost predicate Lands(x: DB, y: DB, e: Envelope, env: Env) {
    && (e.payload.Json? ==>
          var p := e.payload.value;
          && (e.operation == "patch" && HasSuffix(e.commandPath, "/basic-info") ==> BasicInfoLands(y, e, p))
          && (e.operation == "put" && HasSuffix(e.commandPath, "/packages") ==> PackagesLand(y, e, p))
          && (e.operation == "put" && HasSuffix(e.commandPath, "/requirements") ==> QuestionsLand(y, e, p))
          && (e.operation == "put" && HasSuffix(e.commandPath, "/media") ==> MediaLand(y, e, p, env))
          && (e.operation == "post" && HasSuffix(e.commandPath, "/gigs/drafts") ==> DraftLands(y, e, p, env))
          && (e.operation == "post" && HasSuffix(e.commandPath, "/publish") ==> PublicationLands(x, y, e, p, env)))
    && (e.payload.Empty? && e.operation == "post" && HasSuffix(e.commandPath, "/publish") ==>
          PublicationLands(x, y, e, Payload("", "", "", "", "", "", 0, "", [], [], [], ""), env))
  }

  // ----- Each kind lands -----

  /** A command that is no publication has run to its end. */
  lemma Ran(x: DB, cmd: Command, out: Outside) returns (gig: Gig)
    requires GoodTables(x) && !cmd.Publish? && HandleCommand(x, cmd, out).1.Ok?
    ensures var env := out.env.(recovery := true);
            && Execute(x, cmd, env) == (HandleCommand(x, cmd, out).0, Ok(gig))
            && Promised(x, cmd, env, HandleCommand(x, cmd, out).0, Ok(gig))
  {
    var env := out.env.(recovery := true);
    ExecuteKeepsPromise(x, cmd, env);
    gig := Execute(x, cmd, env).1.value;
  }

  /** A write on a gig that is there leaves its owner. */
  lemma OwnerStays(x: DB, w: Write, id: string, env: Env)
    requires id in x.gigs && Perform(x, w, env).1.Ok?
    requires match w
             case WriteBasicInfo(i, _) => i == id
             case WritePackages(i, _) => i == id
             case WriteQuestions(i, _) => i == id
             case WriteMedia(i, _, _) => i == id
             case _ => false
    ensures id in Perform(x, w, env).0.gigs && Perform(x, w, env).0.gigs[id].freelancerId == x.gigs[id].freelancerId
  {
  }

  lemma CheckedOnOwned(x: DB, cmd: Command, env: Env)
    requires OwnIds(x) && !cmd.CreateDraft? && !cmd.Publish? && Check(x, cmd, env).Ok?
    ensures OwnedBy(x, cmd.gigId, cmd.freelancerId)
    ensures match Check(x, cmd, env).value
            case WriteBasicInfo(i, _) => i == TrimSpace(cmd.gigId)
            case WritePackages(i, _) => i == TrimSpace(cmd.gigId)
            case WriteQuestions(i, _) => i == TrimSpace(cmd.gigId)
            case WriteMedia(i, _, _) => i == TrimSpace(cmd.gigId)
            case _ => false
  {
    OwnedExactly(x, cmd.gigId, cmd.freelancerId);
  }

  lemma OwnerIsCaller(x: DB, cmd: Command, env: Env)
    requires OwnIds(x) && !cmd.CreateDraft? && !cmd.Publish? && Execute(x, cmd, env).1.Ok?
    ensures TrimSpace(cmd.gigId) in Execute(x, cmd, env).0.gigs
    ensures Execute(x, cmd, env).0.gigs[TrimSpace(cmd.gigId)].freelancerId == TrimSpace(cmd.freelancerId)
  {
    CheckedOnOwned(x, cmd, env);
    OwnerStays(x, Check(x, cmd, env).value, TrimSpace(cmd.gigId), env);
  }

  lemma OwnerIsNamedOwner(e: Envelope, p: Payload)
    ensures TrimSpace(RecoveryFreelancerId(p.freelancerId, e)) == OwnerNamed(e, p)
  {
    TrimSpaceTrims(p.freelancerId);
    TrimSpaceTrims(e.recoveryPrincipalId);
    TrimSpaceTrims(e.tokenSubject);
  }

  /** The gig of the payload is there, its named owner's. */
  lemma RanOnOwned(x: DB, cmd: Command, e: Envelope, p: Payload, out: Outside)
    requires GoodTables(x) && !cmd.Publish? && !cmd.CreateDraft? && HandleCommand(x, cmd, out).1.Ok?
    requires cmd.gigId == GigIdOf(e, p) && cmd.freelancerId == RecoveryFreelancerId(p.freelancerId, e)
    ensures TrimSpace(cmd.gigId) == Addressed(e, p) && OwnedThere(HandleCommand(x, cmd, out).0, e, p)
  {
    OwnerIsCaller(x, cmd, out.env.(recovery := true));
    OwnerIsNamedOwner(e, p);
  }

  lemma BasicInfoLanding(x: DB, y: DB, e: Envelope, p: Payload, decoded: Result<Command, Error>, out: Outside)
    requires GoodTables(x) && decoded == DecodeBasicInfo(e, p) && HandleDecoded(x, decoded, out) == (y, Ok(()))
    ensures BasicInfoLands(y, e, p)
  {
    var gig := Ran(x, decoded.value, out);
    RanOnOwned(x, decoded.value, e, p, out);
  }

  lemma PackagesLanding(x: DB, y: DB, e: Envelope, p: Payload, decoded: Result<Command, Error>, out: Outside)
    requires GoodTables(x) && decoded == DecodePackages(e, p) && HandleDecoded(x, decoded, out) == (y, Ok(()))
    ensures PackagesLand(y, e, p)
  {
    var gig := Ran(x, decoded.value, out);
    RanOnOwned(x, decoded.value, e, p, out);
  }

  lemma QuestionIdsAreGiven(questions: seq<QuestionInput>)
    requires CheckQuestions(questions, true).Ok?
    ensures forall i :: 0 <= i < |questions| ==> questions[i].id != ""
  {
    QuestionsPass(questions, true);
    assert TrimSpace([]) == [];
  }

  lemma ChecksPassed(x: DB, cmd: Command, env: Env)
    requires Execute(x, cmd, env).1.Ok?
    ensures Check(x, cmd, env).Ok?
    ensures cmd.ReplaceQuestions? ==> CheckQuestions(cmd.questions, env.recovery).Ok?
  {
  }

  lemma QuestionsLanding(x: DB, y: DB, e: Envelope, p: Payload, decoded: Result<Command, Error>, out: Outside)
    requires GoodTables(x) && decoded == DecodeQuestions(e, p) && HandleDecoded(x, decoded, out) == (y, Ok(()))
    ensures QuestionsLand(y, e, p)
  {
    var gig := Ran(x, decoded.value, out);
    RanOnOwned(x, decoded.value, e, p, out);
    ChecksPassed(x, decoded.value, out.env.(recovery := true));
    QuestionIdsAreGiven(p.questions);
  }

  /** Media that were taken: the gig's rows after the first upload follow the uploads' order. */
  lemma MediaTook(x: DB, id: string, owner: string, files: seq<FileInput>, ids: seq<string>, env: Env)
    requires env.upload(owner, "gigs/" + id + "/media", files) == Some(ids) && id in x.gigs && |ids| == |files| > 0
    requires WriteModel.ReplaceMedia(x, id, ids[0], MediaInputs(ids[1..]), env.generated, env.faults).1.Ok?
    ensures var y := WriteModel.ReplaceMedia(x, id, ids[0], MediaInputs(ids[1..]), env.generated, env.faults).0;
            id in y.gigs && y.gigs[id].mediaCompleted && UploadedTo(y, id, owner, files, env)
  {
    MediaAllOrNothing(x, id, ids[0], MediaInputs(ids[1..]), env.generated, env.faults, id);
  }

  lemma MediaRan(x: DB, gigId: string, freelancerId: string, files: seq<FileInput>, env: Env)
    requires OwnIds(x) && Execute(x, ReplaceMedia(gigId, freelancerId, files), env).1.Ok?
    ensures var y := Execute(x, ReplaceMedia(gigId, freelancerId, files), env).0;
            TrimSpace(gigId) in y.gigs && y.gigs[TrimSpace(gigId)].mediaCompleted
            && UploadedTo(y, TrimSpace(gigId), TrimSpace(freelancerId), files, env)
  {
    MediaExecuted(x, gigId, freelancerId, files, env);
    MediaTook(x, TrimSpace(gigId), TrimSpace(freelancerId), files, UploadOf(gigId, freelancerId, files, env).value, env);
  }

  lemma MediaLanding(x: DB, y: DB, e: Envelope, p: Payload, decoded: Result<Command, Error>, out: Outside)
    requires GoodTables(x) && decoded == DecodeMedia(e, p) && HandleDecoded(x, decoded, out) == (y, Ok(()))
    ensures MediaLand(y, e, p, out.env)
  {
    var cmd := decoded.value;
    RanOnOwned(x, cmd, e, p, out);
    OwnerIsNamedOwner(e, p);
    MediaRan(x, cmd.gigId, cmd.freelancerId, cmd.files, out.env.(recovery := true));
    assert FilesOf(p, cmd.files);
  }

  lemma DraftLanding(x: DB, y: DB, e: Envelope, p: Payload, decoded: Result<Command, Error>, out: Outside)
    requires GoodTables(x) && decoded == DecodeDraft(e, p) && HandleDecoded(x, decoded, out) == (y, Ok(()))
    ensures DraftLands(y, e, p, out.env)
  {
    var gig := Ran(x, decoded.value, out);
    TrimSpaceTrims(p.freelancerId);
    TrimSpaceTrims(p.freelancerIdCamel);
    TrimSpaceTrims(e.recoveryPrincipalId);
  }

  lemma PublicationRow(x: DB, id: string, username: string, env: Env)
    requires id in x.gigs && TrimSpace(username) == username && Perform(x, WritePublish(id, username), env).1.Ok?
    ensures var y := Perform(x, WritePublish(id, username), env).0;
            id in y.gigs && y.gigs[id] == PublishedRow(x.gigs[id], username, env.now)
  {
  }

  /** A publication that is refused and yet counts as handled has found an owned gig that is no draft. */
  lemma RefusedPublication(x: DB, cmd: Command, out: Outside)
    requires cmd.Publish? && GoodTables(x) && HandleCommand(x, cmd, out).1.Ok? && Check(x, cmd, out.env.(recovery := true)).Err?
    ensures HandleCommand(x, cmd, out).0 == x && TrimSpace(cmd.gigId) in x.gigs
    ensures x.gigs[TrimSpace(cmd.gigId)].freelancerId == TrimSpace(cmd.freelancerId) && x.gigs[TrimSpace(cmd.gigId)].status != Draft
  {
    OwnedExactly(x, cmd.gigId, cmd.freelancerId);
    PackagesNotPublished(RowData(Read(x.packages, TrimSpace(cmd.gigId))), 0);
  }

  /** What a publication handled with success leaves of the row: a draft is published, and any other row stays. */
  function HandledRow(row: GigRow, username: string, now: int): GigRow {
    if row.status != Draft then row else PublishedRow(row, username, now)
  }

  lemma PublicationChecked(x: DB, cmd: Command, env: Env)
    requires cmd.Publish? && OwnIds(x) && Check(x, cmd, env).Ok?
    ensures OwnedBy(x, cmd.gigId, cmd.freelancerId) && x.gigs[TrimSpace(cmd.gigId)].status == Draft
    ensures Check(x, cmd, env).value == WritePublish(TrimSpace(cmd.gigId), TrimSpace(cmd.username))
  {
    OwnedExactly(x, cmd.gigId, cmd.freelancerId);
  }

  lemma PublicationExecuted(x: DB, cmd: Command, w: Write, env: Env)
    requires Check(x, cmd, env) == Ok(w) && w.WritePublish?
    ensures Execute(x, cmd, env).1 != Err(GigAlreadyPublished)
    ensures Execute(x, cmd, env).1.Ok? ==> Perform(x, w, env).1.Ok? && Execute(x, cmd, env).0 == Perform(x, w, env).0
  {
    PerformNotPublished(x, w.id, w.username, env);
  }

  lemma PublicationPerformed(x: DB, cmd: Command, w: Write, out: Outside)
    requires cmd.Publish? && HandleCommand(x, cmd, out).1.Ok? && Check(x, cmd, out.env.(recovery := true)) == Ok(w) && w.WritePublish?
    ensures Perform(x, w, out.env.(recovery := true)).1.Ok?
    ensures HandleCommand(x, cmd, out).0 == Perform(x, w, out.env.(recovery := true)).0
  {
    PublicationExecuted(x, cmd, w, out.env.(recovery := true));
  }

  lemma AcceptedPublication(x: DB, cmd: Command, out: Outside)
    requires cmd.Publish? && OwnIds(x) && HandleCommand(x, cmd, out).1.Ok? && Check(x, cmd, out.env.(recovery := true)).Ok?
    ensures var y, id := HandleCommand(x, cmd, out).0, TrimSpace(cmd.gigId);
            id in x.gigs && id in y.gigs && y.gigs[id] == PublishedRow(x.gigs[id], TrimSpace(cmd.username), out.env.now)
    ensures x.gigs[TrimSpace(cmd.gigId)].freelancerId == TrimSpace(cmd.freelancerId) && x.gigs[TrimSpace(cmd.gigId)].status == Draft
  {
    var env := out.env.(recovery := true);
    PublicationChecked(x, cmd, env);
    TrimSpaceTrims(cmd.username);
    PublicationPerformed(x, cmd, WritePublish(TrimSpace(cmd.gigId), TrimSpace(cmd.username)), out);
    PublicationRow(x, TrimSpace(cmd.gigId), TrimSpace(cmd.username), env);
  }

  lemma PublicationHandledRow(x: DB, cmd: Command, out: Outside)
    requires cmd.Publish? && GoodTables(x) && HandleCommand(x, cmd, out).1.Ok?
    ensures var y, id := HandleCommand(x, cmd, out).0, TrimSpace(cmd.gigId);
            && id in x.gigs && id in y.gigs && x.gigs[id].freelancerId == TrimSpace(cmd.freelancerId)
            && y.gigs[id] == HandledRow(x.gigs[id], TrimSpace(cmd.username), out.env.now)
  {
    if Check(x, cmd, out.env.(recovery := true)).Ok? {
      AcceptedPublication(x, cmd, out);
    } else {
      RefusedPublication(x, cmd, out);
    }
  }

  lemma PublicationLanding(x: DB, y: DB, e: Envelope, p: Payload, decoded: Result<Command, Error>, out: Outside)
    requires GoodTables(x) && decoded == DecodePublish(e, p) && HandleDecoded(x, decoded, out) == (y, Ok(()))
    ensures PublicationLands(x, y, e, p, out.env)
  {
    OwnerIsNamedOwner(e, p);
    PublicationHandledRow(x, decoded.value, out);
    TrimSpaceTrims(NameAsked(e, p));
  }

  // ----- The kinds together -----

  lemma EnvelopeDecodes(x: DB, y: DB, e: Envelope, out: Outside)
    requires HandleEnvelope(x, e, out) == (y, Ok(()))
    ensures Decode(e).Ok? && HandleDecoded(x, Decode(e), out) == (y, Ok(()))
  {
  }

  lemma KindDecodes(e: Envelope, kind: Kind)
    requires KindOf(e.operation, e.commandPath) == Some(kind) && Decode(e).Ok?
    ensures Decode(e) == DecodeAs(kind, e) && (e.payload.Json? || (kind == PublishKind && e.payload.Empty?))
  {
  }

  lemma BasicInfoDecodes(e: Envelope)
    requires e.operation == "patch" && HasSuffix(e.commandPath, "/basic-info") && Decode(e).Ok?
    ensures e.payload.Json? && Decode(e) == DecodeBasicInfo(e, e.payload.value)
  {
    PatchesBasicInfo(e.commandPath);
    KindDecodes(e, BasicInfoKind);
  }

  lemma PackagesDecode(e: Envelope)
    requires e.operation == "put" && HasSuffix(e.commandPath, "/packages") && Decode(e).Ok?
    ensures e.payload.Json? && Decode(e) == DecodePackages(e, e.payload.value)
  {
    PutsPackages(e.commandPath);
    KindDecodes(e, PackagesKind);
  }

  lemma RequirementsDecode(e: Envelope)
    requires e.operation == "put" && HasSuffix(e.commandPath, "/requirements") && Decode(e).Ok?
    ensures e.payload.Json? && Decode(e) == DecodeQuestions(e, e.payload.value)
  {
    PutsRequirements(e.commandPath);
    KindDecodes(e, RequirementsKind);
  }

  lemma MediaDecode(e: Envelope)
    requires e.operation == "put" && HasSuffix(e.commandPath, "/media") && Decode(e).Ok?
    ensures e.payload.Json? && Decode(e) == DecodeMedia(e, e.payload.value)
  {
    PutsMedia(e.commandPath);
    KindDecodes(e, MediaKind);
  }

  lemma DraftDecodes(e: Envelope)
    requires e.operation == "post" && HasSuffix(e.commandPath, "/gigs/drafts") && Decode(e).Ok?
    ensures e.payload.Json? && Decode(e) == DecodeDraft(e, e.payload.value)
  {
    PostsDraft(e.commandPath);
    KindDecodes(e, DraftKind);
  }

  lemma PublicationDecodes(e: Envelope)
    requires e.operation == "post" && HasSuffix(e.commandPath, "/publish") && Decode(e).Ok?
    ensures !e.payload.NoJson?
    ensures Decode(e) == DecodePublish(e, if e.payload.Json? then e.payload.value else Payload("", "", "", "", "", "", 0, "", [], [], [], ""))
  {
    PostsPublication(e.commandPath);
    KindDecodes(e, PublishKind);
  }

  /** Main result. Whatever fails, an envelope handled with success has left in the tables what its payload asks for. */
  lemma EnvelopeLands(x: DB, y: DB, e: Envelope, out: Outside)
    requires GoodTables(x) && HandleEnvelope(x, e, out) == (y, Ok(()))
    ensures Lands(x, y, e, out.env)
  {
    EnvelopeDecodes(x, y, e, out);
    DecodedLands(x, y, e, Decode(e), out);
  }

  lemma DecodedLands(x: DB, y: DB, e: Envelope, decoded: Result<Command, Error>, out: Outside)
    requires GoodTables(x) && decoded == Decode(e) && decoded.Ok? && HandleDecoded(x, decoded, out) == (y, Ok(()))
    ensures Lands(x, y, e, out.env)
  {
    if e.operation == "patch" && HasSuffix(e.commandPath, "/basic-info") {
      BasicInfoDecodes(e);
      BasicInfoLanding(x, y, e, e.payload.value, decoded, out);
    }
    if e.operation == "put" && HasSuffix(e.commandPath, "/packages") {
      PackagesDecode(e);
      PackagesLanding(x, y, e, e.payload.value, decoded, out);
    }
    if e.operation == "put" && HasSuffix(e.commandPath, "/requirements") {
      RequirementsDecode(e);
      QuestionsLanding(x, y, e, e.payload.value, decoded, out);
    }
    if e.operation == "put" && HasSuffix(e.commandPath, "/media") {
      MediaDecode(e);
      MediaLanding(x, y, e, e.payload.value, decoded, out);
    }
    if e.operation == "post" && HasSuffix(e.commandPath, "/gigs/drafts") {
      DraftDecodes(e);
      DraftLanding(x, y, e, e.payload.value, decoded, out);
    }
    if e.operation == "post" && HasSuffix(e.commandPath, "/publish") {
      PublicationDecodes(e);
      PublicationLanding(x, y, e, if e.payload.Json? then e.payload.value else Payload("", "", "", "", "", "", 0, "", [], [], [], ""), decoded, out);
    }
  }
}
