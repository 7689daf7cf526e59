/** When each write command succeeds: with a working database and broker, exactly on the requests described here, and
    refused it changes nothing. */
module GigAcceptance {
  import opened Text
  import opened Wrappers
  import opened ChildTable
  import opened Domain
  import opened Commands
  import opened Slug
  import opened WriteModel
  import opened GigCommands

  /** No statement fails, and the events can be published. */
  ghost predicate Working(env: Env) {
    env.events && forall k: nat :: !env.faults(k)
  }

  ghost predicate OwnIds(db: DB) {
    forall id :: id in db.gigs ==> db.gigs[id].id == id
  }

  /** The gig named exists and belongs to the caller. */
  predicate OwnedBy(db: DB, gigId: string, freelancerId: string) {
    && TrimSpace(gigId) != "" && TrimSpace(freelancerId) != ""
    && TrimSpace(gigId) in db.gigs && db.gigs[TrimSpace(gigId)].freelancerId == TrimSpace(freelancerId)
  }

  lemma OwnedExactly(db: DB, gigId: string, freelancerId: string)
    requires OwnIds(db)
    ensures OwnedGig(db, gigId, freelancerId).Ok? <==> OwnedBy(db, gigId, freelancerId)
    ensures OwnedGig(db, gigId, freelancerId).Ok? ==> OwnedGig(db, gigId, freelancerId).value == GigAt(db, TrimSpace(gigId))
  {
  }

  /** The ids of the new rows, by position, differ from each other and from the ids of other gigs' rows. */
  ghost predicate IdsAreFree<T>(table: seq<Child<T>>, gigId: string, ids: seq<string>) {
    && (forall i, j :: 0 <= i < j < |ids| ==> ids[i] != ids[j])
    && (forall k, j :: 0 <= k < |table| && 0 <= j < |ids| && table[k].gigId != gigId ==> table[k].id != ids[j])
  }

  lemma {:induction false} OthersMembers<T>(table: seq<Child<T>>, gigId: string)
    ensures forall r :: r in Others(table, gigId) <==> r in table && r.gigId != gigId
  {
    if table != [] {
      OthersMembers(table[1..], gigId);
    }
  }

  lemma FreeExactly<T>(table: seq<Child<T>>, gigId: string, rows: seq<Child<T>>, ids: seq<string>)
    requires |rows| == |ids| && forall i :: 0 <= i < |rows| ==> rows[i].id == ids[i]
    ensures FreeIds(Others(table, gigId), rows) <==> IdsAreFree(table, gigId, ids)
  {
    var others := Others(table, gigId);
    OthersMembers(table, gigId);
    if FreeIds(others, rows) {
      forall k, j | 0 <= k < |table| && 0 <= j < |ids| && table[k].gigId != gigId
        ensures table[k].id != ids[j]
      {
        assert table[k] in others;
        var i :| 0 <= i < |others| && others[i] == table[k];
        assert others[i].id != rows[j].id;
      }
    }
    if IdsAreFree(table, gigId, ids) {
      forall i, j | 0 <= i < |others| && 0 <= j < |rows|
        ensures others[i].id != rows[j].id
      {
        assert others[i] in others;
        var k :| 0 <= k < |table| && table[k] == others[i];
      }
    }
  }

  lemma Unhindered(env: Env, n: nat)
    requires Working(env)
    ensures NoFault(env.faults, 0, n) && !env.faults(n)
  {
  }

  // ----- Requirements -----

  /** The id a supplied id asks for: the empty one a generated id. */
  function QuestionIds(questions: seq<QuestionInput>, generated: nat -> string): (ids: seq<string>)
    ensures |ids| == |questions|
  {
    seq(|questions|, i requires 0 <= i < |questions| => if questions[i].id == "" then generated(i) else questions[i].id)
  }

  /** No blank content, and in recovery no blank id. */
  predicate QuestionTexts(questions: seq<QuestionInput>, recovery: bool) {
    forall i :: 0 <= i < |questions| ==> TrimSpace(questions[i].content) != "" && (recovery ==> TrimSpace(questions[i].id) != "")
  }

  lemma {:induction false} QuestionsPass(questions: seq<QuestionInput>, recovery: bool)
    ensures CheckQuestions(questions, recovery).Ok? <==> QuestionTexts(questions, recovery)
    ensures CheckQuestions(questions, recovery).Ok? ==>
              && |CheckQuestions(questions, recovery).value| == |questions|
              && forall i :: 0 <= i < |questions| ==>
                   CheckQuestions(questions, recovery).value[i] == Input(questions[i].id, questions[i].content)
  {
    if questions != [] {
      QuestionsPass(questions[1..], recovery);
      assert forall i :: 0 < i < |questions| ==> questions[i] == questions[1..][i - 1];
    }
  }

  ghost predicate QuestionsAcceptable(db: DB, gigId: string, freelancerId: string, questions: seq<QuestionInput>, env: Env) {
    && OwnedBy(db, gigId, freelancerId)
    && QuestionTexts(questions, env.recovery)
    && IdsAreFree(db.questions, TrimSpace(gigId), QuestionIds(questions, env.generated))
  }

  lemma QuestionsCommitExactly(db: DB, id: string, questions: seq<QuestionInput>, env: Env)
    requires id in db.gigs && Working(env) && CheckQuestions(questions, env.recovery).Ok?
    ensures RowsCommit(db.questions, db, id, CheckQuestions(questions, env.recovery).value, env.generated, env.faults)
            <==> IdsAreFree(db.questions, id, QuestionIds(questions, env.generated))
  {
    var items := CheckQuestions(questions, env.recovery).value;
    QuestionsPass(questions, env.recovery);
    Unhindered(env, |items| + 3);
    FreeExactly(db.questions, id, NewRows(id, items, env.generated), QuestionIds(questions, env.generated));
  }

  lemma QuestionsExecuted(db: DB, gigId: string, freelancerId: string, questions: seq<QuestionInput>, env: Env)
    requires OwnIds(db) && env.events
    ensures var (d, r) := Execute(db, ReplaceQuestions(gigId, freelancerId, questions), env);
            if OwnedBy(db, gigId, freelancerId) && CheckQuestions(questions, env.recovery).Ok? then
              (d, r) == WriteModel.ReplaceQuestions(db, TrimSpace(gigId), CheckQuestions(questions, env.recovery).value, env.generated, env.faults)
            else d == db && r.Err?
  {
    OwnedExactly(db, gigId, freelancerId);
  }

  /** On a gig that is there, a working replacement succeeds exactly when it commits. */
  lemma QuestionsReplaced(db: DB, id: string, items: seq<Input<string>>, env: Env)
    requires id in db.gigs && Working(env)
    ensures var (d, r) := WriteModel.ReplaceQuestions(db, id, items, env.generated, env.faults);
            (r.Ok? <==> RowsCommit(db.questions, db, id, items, env.generated, env.faults)) && (r.Err? ==> d == db)
  {
    QuestionsAllOrNothing(db, id, items, env.generated, env.faults, id);
    Unhindered(env, |items| + 3);
  }

  /** Main result. Requirements are accepted exactly when the caller owns the gig, no content is blank, no id is blank in
      recovery, and the row ids, supplied or generated, are free. Refused, they change nothing. */
  lemma QuestionsSucceedExactly(db: DB, gigId: string, freelancerId: string, questions: seq<QuestionInput>, env: Env)
    requires OwnIds(db) && Working(env)
    ensures var (d, r) := Execute(db, ReplaceQuestions(gigId, freelancerId, questions), env);
            && (r.Ok? <==> QuestionsAcceptable(db, gigId, freelancerId, questions, env))
            && (r.Err? ==> d == db)
  {
    QuestionsExecuted(db, gigId, freelancerId, questions, env);
    QuestionsPass(questions, env.recovery);
    if OwnedBy(db, gigId, freelancerId) && CheckQuestions(questions, env.recovery).Ok? {
      QuestionsCommitExactly(db, TrimSpace(gigId), questions, env);
      QuestionsReplaced(db, TrimSpace(gigId), CheckQuestions(questions, env.recovery).value, env);
    }
  }

  // ----- Packages -----

  function PackageIds(packages: seq<PackageInput>, generated: nat -> string): (ids: seq<string>)
    ensures |ids| == |packages|
  {
    seq(|packages|, i requires 0 <= i < |packages| =>
          if TrimSpace(packages[i].id) == "" then generated(i) else TrimSpace(packages[i].id))
  }

  /** One to three, of the tiers basic, standard and premium in this order, described, with positive price and days, and
      in recovery with ids. */
  predicate PackageTexts(packages: seq<PackageInput>, recovery: bool) {
    && 1 <= |packages| <= 3
    && forall i :: 0 <= i < |packages| ==>
         && TrimSpace(packages[i].tier) == ["basic", "standard", "premium"][i]
         && TrimSpace(packages[i].description) != ""
         && packages[i].deliveryDays > 0 && packages[i].priceCents > 0
         && (recovery ==> TrimSpace(packages[i].id) != "")
  }

  lemma TierNames(i: nat)
    requires i < 3
    ensures ["basic", "standard", "premium"][i] == [TIER_BASIC, TIER_STANDARD, TIER_PREMIUM][i] != ""
  {
  }

  lemma PackagesPass(packages: seq<PackageInput>, recovery: bool)
    ensures CheckPackages(packages, recovery).Ok? <==> PackageTexts(packages, recovery)
    ensures CheckPackages(packages, recovery).Ok? ==>
              && |CheckPackages(packages, recovery).value| == |packages| <= 3
              && forall i :: 0 <= i < |packages| ==>
                   && CheckPackages(packages, recovery).value[i].id == TrimSpace(packages[i].id)
                   && CheckPackages(packages, recovery).value[i].value.tier == ["basic", "standard", "premium"][i]
  {
    NormalizedShape(packages, recovery);
    if NormalizePackages(packages, recovery).Ok? {
      var items := NormalizePackages(packages, recovery).value;
      ValidPackagesAreSellable(InputData(items));
      SellableTexts(packages, recovery, items);
    } else {
      var i :| 0 <= i < |packages| && (TrimSpace(packages[i].tier) == "" || (recovery && TrimSpace(packages[i].id) == ""));
      assert 0 <= i < 3 ==> ["basic", "standard", "premium"][i] != "" by {
        if i < 3 {
          TierNames(i);
        }
      }
    }
  }

  lemma SellableTexts(packages: seq<PackageInput>, recovery: bool, items: seq<Input<PackageData>>)
    requires NormalizePackages(packages, recovery) == Ok(items)
    ensures |items| == |packages|
    ensures SellablePackages(InputData(items)) <==> PackageTexts(packages, recovery)
    ensures SellablePackages(InputData(items)) ==>
              |items| <= 3 && forall i :: 0 <= i < |items| ==> items[i].value.tier == ["basic", "standard", "premium"][i]
  {
    NormalizedShape(packages, recovery);
    forall i | 0 <= i < |packages|
      ensures TrimSpace(items[i].value.tier) == items[i].value.tier == TrimSpace(packages[i].tier)
      ensures TrimSpace(items[i].value.description) == TrimSpace(packages[i].description)
    {
      TrimSpaceTrims(packages[i].tier);
      TrimSpaceTrims(packages[i].description);
    }
  }

  ghost predicate PackagesAcceptable(db: DB, gigId: string, freelancerId: string, packages: seq<PackageInput>, env: Env) {
    && OwnedBy(db, gigId, freelancerId)
    && PackageTexts(packages, env.recovery)
    && IdsAreFree(db.packages, TrimSpace(gigId), PackageIds(packages, env.generated))
  }

  lemma PackagesCommitExactly(db: DB, id: string, packages: seq<PackageInput>, env: Env)
    requires id in db.gigs && Working(env) && CheckPackages(packages, env.recovery).Ok?
    ensures PackagesCommit(db, id, CheckPackages(packages, env.recovery).value, env.generated, env.faults)
            <==> IdsAreFree(db.packages, id, PackageIds(packages, env.generated))
  {
    var items := CheckPackages(packages, env.recovery).value;
    PackagesPass(packages, env.recovery);
    Unhindered(env, |items| + 3);
    FreeExactly(db.packages, id, NewRows(id, items, env.generated), PackageIds(packages, env.generated));
    TiersDiffer(items);
  }

  lemma TiersDiffer(items: seq<Input<PackageData>>)
    requires |items| <= 3 && forall i :: 0 <= i < |items| ==> items[i].value.tier == ["basic", "standard", "premium"][i]
    ensures DistinctTiers(items)
  {
    assert |"basic"| == 5 && |"standard"| == 8 && |"premium"| == 7;
  }

  lemma PackagesExecuted(db: DB, gigId: string, freelancerId: string, packages: seq<PackageInput>, env: Env)
    requires OwnIds(db) && env.events
    ensures var (d, r) := Execute(db, ReplacePackages(gigId, freelancerId, packages), env);
            if OwnedBy(db, gigId, freelancerId) && CheckPackages(packages, env.recovery).Ok? then
              (d, r) == WriteModel.ReplacePackages(db, TrimSpace(gigId), CheckPackages(packages, env.recovery).value, env.generated, env.faults)
            else d == db && r.Err?
  {
    OwnedExactly(db, gigId, freelancerId);
  }

  /** On a gig that is there, a working replacement succeeds exactly when it commits. */
  lemma PackagesReplaced(db: DB, id: string, items: seq<Input<PackageData>>, env: Env)
    requires id in db.gigs && Working(env)
    ensures var (d, r) := WriteModel.ReplacePackages(db, id, items, env.generated, env.faults);
            (r.Ok? <==> PackagesCommit(db, id, items, env.generated, env.faults)) && (r.Err? ==> d == db)
  {
    PackagesAllOrNothing(db, id, items, env.generated, env.faults, id);
    Unhindered(env, |items| + 3);
  }

  /** Main result. Packages are accepted exactly when the caller owns the gig, they are sellable, and their row ids are
      free. */
  lemma PackagesSucceedExactly(db: DB, gigId: string, freelancerId: string, packages: seq<PackageInput>, env: Env)
    requires OwnIds(db) && Working(env)
    ensures var (d, r) := Execute(db, ReplacePackages(gigId, freelancerId, packages), env);
            && (r.Ok? <==> PackagesAcceptable(db, gigId, freelancerId, packages, env))
            && (r.Err? ==> d == db)
  {
    PackagesExecuted(db, gigId, freelancerId, packages, env);
    PackagesPass(packages, env.recovery);
    if OwnedBy(db, gigId, freelancerId) && CheckPackages(packages, env.recovery).Ok? {
      PackagesCommitExactly(db, TrimSpace(gigId), packages, env);
      PackagesReplaced(db, TrimSpace(gigId), CheckPackages(packages, env.recovery).value, env);
    }
  }

  // ----- Media -----

  function GeneratedIds(generated: nat -> string, n: nat): (ids: seq<string>)
    ensures |ids| == n
  {
    seq(n, i requires 0 <= i < n => generated(i))
  }

  /** Some file, each with name, type and data. */
  predicate FileTexts(files: seq<FileInput>) {
    && |files| > 0
    && forall i :: 0 <= i < |files| ==>
         TrimSpace(files[i].filename) != "" && TrimSpace(files[i].contentType) != "" && |files[i].data| > 0
  }

  /** What the upload of a gig's files yields. */
  function UploadOf(gig: string, freelancerId: string, files: seq<FileInput>, env: Env): Option<seq<string>> {
    env.upload(TrimSpace(freelancerId), "gigs/" + TrimSpace(gig) + "/media", files)
  }

  /** The files are well-formed, and their upload yields an id for each. */
  predicate MediaTaken(gigId: string, freelancerId: string, files: seq<FileInput>, env: Env) {
    var uploaded := UploadOf(gigId, freelancerId, files, env);
    FileTexts(files) && uploaded.Some? && |uploaded.value| == |files|
  }

  ghost predicate MediaAcceptable(db: DB, gigId: string, freelancerId: string, files: seq<FileInput>, env: Env) {
    && OwnedBy(db, gigId, freelancerId)
    && MediaTaken(gigId, freelancerId, files, env)
    && IdsAreFree(db.media, TrimSpace(gigId), GeneratedIds(env.generated, |files| - 1))
  }

  lemma MediaPasses(gig: Gig, gigId: string, freelancerId: string, files: seq<FileInput>, env: Env)
    requires gig.row.id == TrimSpace(gigId) && gig.row.freelancerId == TrimSpace(freelancerId)
    ensures var uploaded := UploadOf(gigId, freelancerId, files, env);
            && (CheckMedia(gig, files, env).Ok? <==> FileTexts(files) && uploaded.Some? && |uploaded.value| == |files|)
            && (CheckMedia(gig, files, env).Ok? ==>
                  CheckMedia(gig, files, env).value == WriteMedia(gig.row.id, uploaded.value[0], MediaInputs(uploaded.value[1..])))
  {
    TrimSpaceTrims(gigId);
  }

  lemma MediaCommitExactly(db: DB, id: string, rest: seq<string>, env: Env)
    requires id in db.gigs && Working(env)
    ensures RowsCommit(db.media, db, id, MediaInputs(rest), env.generated, env.faults)
            <==> IdsAreFree(db.media, id, GeneratedIds(env.generated, |rest|))
  {
    Unhindered(env, |rest| + 3);
    FreeExactly(db.media, id, NewRows(id, MediaInputs(rest), env.generated), GeneratedIds(env.generated, |rest|));
  }

  lemma MediaExecuted(db: DB, gigId: string, freelancerId: string, files: seq<FileInput>, env: Env)
    requires OwnIds(db) && env.events
    ensures var (d, r) := Execute(db, ReplaceMedia(gigId, freelancerId, files), env);
            if OwnedBy(db, gigId, freelancerId) && MediaTaken(gigId, freelancerId, files, env) then
              var ids := UploadOf(gigId, freelancerId, files, env).value;
              (d, r) == WriteModel.ReplaceMedia(db, TrimSpace(gigId), ids[0], MediaInputs(ids[1..]), env.generated, env.faults)
            else d == db && r.Err?
  {
    OwnedExactly(db, gigId, freelancerId);
    if OwnedBy(db, gigId, freelancerId) {
      MediaPasses(GigAt(db, TrimSpace(gigId)), gigId, freelancerId, files, env);
    }
  }

  lemma MediaReplaced(db: DB, id: string, picture: string, items: seq<Input<string>>, env: Env)
    requires id in db.gigs && Working(env)
    ensures var (d, r) := WriteModel.ReplaceMedia(db, id, picture, items, env.generated, env.faults);
            (r.Ok? <==> RowsCommit(db.media, db, id, items, env.generated, env.faults)) && (r.Err? ==> d == db)
  {
    MediaAllOrNothing(db, id, picture, items, env.generated, env.faults, id);
    Unhindered(env, |items| + 3);
  }

  /** Main result. Media are accepted exactly when the caller owns the gig, the files have names, types and data, the upload
      yields one file id for each, and the generated row ids are free. */
  lemma MediaSucceedsExactly(db: DB, gigId: string, freelancerId: string, files: seq<FileInput>, env: Env)
    requires OwnIds(db) && Working(env)
    ensures var (d, r) := Execute(db, ReplaceMedia(gigId, freelancerId, files), env);
            && (r.Ok? <==> MediaAcceptable(db, gigId, freelancerId, files, env))
            && (r.Err? ==> d == db)
  {
    MediaExecuted(db, gigId, freelancerId, files, env);
    if OwnedBy(db, gigId, freelancerId) && MediaTaken(gigId, freelancerId, files, env) {
      var ids := UploadOf(gigId, freelancerId, files, env).value;
      MediaCommitExactly(db, TrimSpace(gigId), ids[1..], env);
      MediaReplaced(db, TrimSpace(gigId), ids[0], MediaInputs(ids[1..]), env);
    }
  }

  // ----- Basic info and drafts -----

  ghost predicate BasicInfoAcceptable(db: DB, cmd: Command, env: Env)
    requires cmd.UpdateBasicInfo?
  {
    && OwnedBy(db, cmd.gigId, cmd.freelancerId)
    && TrimSpace(cmd.title) != ""
    && TrimSpace(cmd.shortInfo) != "" && |Utf8(TrimSpace(cmd.shortInfo))| <= 128
    && cmd.description != ""
    && cmd.categoryId > 0
    && TrimSpace(cmd.currency) != ""
    && env.slugify(TrimSpace(cmd.title)) != ""
  }

  /** Main result. Basic info is accepted exactly when the caller owns the gig and the texts are within their limits. */
  lemma BasicInfoSucceedsExactly(db: DB, cmd: Command, env: Env)
    requires cmd.UpdateBasicInfo? && OwnIds(db) && Working(env)
    ensures var (d, r) := Execute(db, cmd, env);
            && (r.Ok? <==> BasicInfoAcceptable(db, cmd, env))
            && (r.Err? ==> d == db)
  {
    OwnedExactly(db, cmd.gigId, cmd.freelancerId);
  }

  /** A draft is created, or re-created, exactly when an owner is named. A new one is an empty draft; an existing gig keeps
      everything but its owner, and becomes a draft unless it is published. */
  lemma DraftSucceedsExactly(db: DB, gigId: string, freelancerId: string, env: Env)
    requires Working(env)
    ensures var (d, r) := Execute(db, CreateDraft(gigId, freelancerId), env);
            var id := if gigId == "" then env.generated(0) else gigId;
            && (r.Ok? <==> TrimSpace(freelancerId) != "")
            && (r.Err? ==> d == db)
            && (r.Ok? ==>
                  && id in d.gigs && d.gigs == db.gigs[id := d.gigs[id]]
                  && d.packages == db.packages && d.questions == db.questions && d.media == db.media
                  && d.gigs[id].freelancerId == TrimSpace(freelancerId)
                  && (id !in db.gigs ==> d.gigs[id] == GigRow(id, TrimSpace(freelancerId), "", "", "", "", "", 0, "", Draft,
                                                              false, false, false, false, "", None))
                  && (id in db.gigs ==> d.gigs[id] == db.gigs[id].(freelancerId := TrimSpace(freelancerId), status := d.gigs[id].status))
                  && (id in db.gigs ==> d.gigs[id].status == if db.gigs[id].status == Published then Published else Draft))
  {
  }

  // ----- Failing statements and events -----

  const NEVER: Faults := (k: nat) => false

  /** The same surroundings, where nothing fails. */
  function Unfailing(env: Env): (calm: Env)
    ensures Working(calm)
  {
    env.(faults := NEVER, events := true)
  }

  /** The statements a write runs. A replacement deletes, inserts each row, sets the flag, commits and loads; the other
      writes update and load, and a publication does so again where it adds a seller name. */
  function StatementsOf(db: DB, w: Write): nat {
    match w
    case WriteDraft(_, _) => 2
    case WriteBasicInfo(_, _) => 2
    case WritePackages(_, items) => |items| + 4
    case WriteQuestions(_, items) => |items| + 4
    case WriteMedia(_, _, items) => |items| + 4
    case WritePublish(id, username) =>
      if id in db.gigs && username != "" && TrimSpace(db.gigs[id].sellerUsername) == "" then 4 else 2
  }

  /** What a write comes to, whatever fails: it succeeds exactly if it would where nothing fails and none of its statements
      fails, and then does the same; and it takes effect exactly if all but the load work. */
  ghost predicate StatementsDecide(db: DB, w: Write, env: Env) {
    var (d, r) := Perform(db, w, env);
    var (calm, result) := Perform(db, w, Unfailing(env));
    && (r.Ok? <==> result.Ok? && NoFault(env.faults, 0, StatementsOf(db, w)))
    && (r.Ok? ==> (d, r) == (calm, result))
    && (!w.WritePublish? ==> d == if NoFault(env.faults, 0, StatementsOf(db, w) - 1) then calm else db)
  }

  lemma RowStatements(db: DB, w: Write, env: Env)
    requires w.WriteDraft? || w.WriteBasicInfo?
    ensures StatementsDecide(db, w, env)
  {
  }

  lemma PublicationStatements(db: DB, w: Write, env: Env)
    requires w.WritePublish?
    ensures StatementsDecide(db, w, env)
  {
    assert forall k: nat :: From(env.faults, 2)(k) == env.faults(2 + k);
  }

  lemma PackageStatements(db: DB, w: Write, env: Env)
    requires w.WritePackages? && w.id in db.gigs
    ensures StatementsDecide(db, w, env)
  {
    PackagesAllOrNothing(db, w.id, w.packages, env.generated, env.faults, w.id);
    PackagesAllOrNothing(db, w.id, w.packages, env.generated, NEVER, w.id);
  }

  lemma QuestionStatements(db: DB, w: Write, env: Env)
    requires w.WriteQuestions? && w.id in db.gigs
    ensures StatementsDecide(db, w, env)
  {
    QuestionsAllOrNothing(db, w.id, w.questions, env.generated, env.faults, w.id);
    QuestionsAllOrNothing(db, w.id, w.questions, env.generated, NEVER, w.id);
  }

  lemma MediaStatements(db: DB, w: Write, env: Env)
    requires w.WriteMedia? && w.id in db.gigs
    ensures StatementsDecide(db, w, env)
  {
    MediaAllOrNothing(db, w.id, w.picture, w.files, env.generated, env.faults, w.id);
    MediaAllOrNothing(db, w.id, w.picture, w.files, env.generated, NEVER, w.id);
  }

  // ----- All commands -----

  /** What a command asks for can be done. */
  ghost predicate Acceptable(db: DB, cmd: Command, env: Env) {
    match cmd
    case CreateDraft(_, freelancerId) => TrimSpace(freelancerId) != ""
    case UpdateBasicInfo(_, _, _, _, _, _, _) => BasicInfoAcceptable(db, cmd, env)
    case ReplacePackages(gigId, freelancerId, packages) => PackagesAcceptable(db, gigId, freelancerId, packages, env)
    case ReplaceQuestions(gigId, freelancerId, questions) => QuestionsAcceptable(db, gigId, freelancerId, questions, env)
    case ReplaceMedia(gigId, freelancerId, files) => MediaAcceptable(db, gigId, freelancerId, files, env)
    case Publish(_, _, _) => Publishable(db, cmd, env)
  }

  lemma UnfailingSucceeds(db: DB, cmd: Command, env: Env)
    requires OwnIds(db) && Working(env)
    ensures Execute(db, cmd, env).1.Ok? <==> Acceptable(db, cmd, env)
    ensures Execute(db, cmd, env).1.Err? ==> Execute(db, cmd, env).0 == db
  {
    match cmd
    case CreateDraft(gigId, freelancerId) => DraftSucceedsExactly(db, gigId, freelancerId, env);
    case UpdateBasicInfo(_, _, _, _, _, _, _) => BasicInfoSucceedsExactly(db, cmd, env);
    case ReplacePackages(gigId, freelancerId, packages) => PackagesSucceedExactly(db, gigId, freelancerId, packages, env);
    case ReplaceQuestions(gigId, freelancerId, questions) => QuestionsSucceedExactly(db, gigId, freelancerId, questions, env);
    case ReplaceMedia(gigId, freelancerId, files) => MediaSucceedsExactly(db, gigId, freelancerId, files, env);
    case Publish(_, _, _) => PublishSucceedsExactly(db, cmd, env);
  }

  /** The statements a command runs once it is checked. */
  function Statements(db: DB, cmd: Command): nat {
    match cmd
    case CreateDraft(_, _) => 2
    case UpdateBasicInfo(_, _, _, _, _, _, _) => 2
    case ReplacePackages(_, _, packages) => |packages| + 4
    case ReplaceQuestions(_, _, questions) => |questions| + 4
    case ReplaceMedia(_, _, files) => |files| + 3
    case Publish(gigId, _, username) =>
      if TrimSpace(gigId) in db.gigs && TrimSpace(username) != "" && TrimSpace(db.gigs[TrimSpace(gigId)].sellerUsername) == "" then 4 else 2
  }

  /** What a command comes to, whatever fails. It succeeds exactly if it is acceptable, its events can be published and none
      of its statements fails. Unacceptable, it changes nothing; where a statement fails, the database is what failed, and
      unless it is a publication, it has taken effect only if all that failed is the load; where the events alone fail, it
      has taken effect. */
  ghost predicate Decided(db: DB, cmd: Command, env: Env, d: DB, r: Result<Gig, Error>) {
    var n := Statements(db, cmd);
    && (r.Ok? <==> Acceptable(db, cmd, env) && env.events && NoFault(env.faults, 0, n))
    && (!Acceptable(db, cmd, env) ==> d == db)
    && (Acceptable(db, cmd, env) && !NoFault(env.faults, 0, n) ==> r == Err(StorageFailure))
    && (Acceptable(db, cmd, env) && !cmd.Publish? ==>
          d == if NoFault(env.faults, 0, n - 1) then Execute(db, cmd, Unfailing(env)).0 else db)
    && (Acceptable(db, cmd, env) && NoFault(env.faults, 0, n) && !env.events ==>
          r == Err(EventPublishFailure) && d == Execute(db, cmd, Unfailing(env)).0)
  }

  lemma AcceptableAlike(db: DB, cmd: Command, env: Env)
    ensures Acceptable(db, cmd, env) <==> Acceptable(db, cmd, Unfailing(env))
  {
  }

  lemma ChecksAlike(db: DB, cmd: Command, env: Env)
    ensures Check(db, cmd, env) == Check(db, cmd, Unfailing(env))
  {
  }

  lemma CheckedWrite(db: DB, cmd: Command, env: Env, w: Write)
    requires OwnIds(db) && Check(db, cmd, env) == Ok(w)
    ensures StatementsOf(db, w) == Statements(db, cmd) && w.WritePublish? == cmd.Publish?
    ensures !w.WriteDraft? ==> w.id in db.gigs
  {
    if !cmd.CreateDraft? {
      OwnedExactly(db, cmd.gigId, cmd.freelancerId);
    }
    match cmd
    case ReplacePackages(_, _, packages) => PackagesPass(packages, env.recovery);
    case ReplaceQuestions(_, _, questions) => QuestionsPass(questions, env.recovery);
    case _ =>
  }

  lemma WriteStatements(db: DB, w: Write, env: Env)
    requires !w.WriteDraft? ==> w.id in db.gigs
    ensures StatementsDecide(db, w, env)
  {
    match w
    case WriteDraft(_, _) => RowStatements(db, w, env);
    case WriteBasicInfo(_, _) => RowStatements(db, w, env);
    case WritePackages(_, _) => PackageStatements(db, w, env);
    case WriteQuestions(_, _) => QuestionStatements(db, w, env);
    case WriteMedia(_, _, _) => MediaStatements(db, w, env);
    case WritePublish(_, _) => PublicationStatements(db, w, env);
  }

  lemma WriteFails(db: DB, w: Write, env: Env)
    requires !w.WriteDraft? ==> w.id in db.gigs
    ensures Perform(db, w, env).1.Ok? || Perform(db, w, env).1 == Err(StorageFailure)
  {
    match w
    case WritePackages(id, items) => PackagesAllOrNothing(db, id, items, env.generated, env.faults, id);
    case WriteQuestions(id, items) => QuestionsAllOrNothing(db, id, items, env.generated, env.faults, id);
    case WriteMedia(id, picture, items) => MediaAllOrNothing(db, id, picture, items, env.generated, env.faults, id);
    case _ =>
  }

  lemma RunsCheckedWrite(db: DB, cmd: Command, env: Env, w: Write)
    requires Check(db, cmd, env) == Ok(w)
    ensures var (d, r) := Perform(db, w, env);
            Execute(db, cmd, env) == (d, if r.Ok? && !env.events then Err(EventPublishFailure) else r)
  {
  }

  lemma DecidedByWrite(db: DB, cmd: Command, env: Env, w: Write)
    requires StatementsDecide(db, w, env) && StatementsOf(db, w) == Statements(db, cmd) && w.WritePublish? == cmd.Publish?
    requires Perform(db, w, env).1.Ok? || Perform(db, w, env).1 == Err(StorageFailure)
    requires var (d, r) := Perform(db, w, env);
             Execute(db, cmd, env) == (d, if r.Ok? && !env.events then Err(EventPublishFailure) else r)
    requires Execute(db, cmd, Unfailing(env)) == Perform(db, w, Unfailing(env))
    requires Acceptable(db, cmd, env) <==> Execute(db, cmd, Unfailing(env)).1.Ok?
    requires Execute(db, cmd, Unfailing(env)).1.Err? ==> Execute(db, cmd, Unfailing(env)).0 == Execute(db, cmd, env).0 == db
    ensures Decided(db, cmd, env, Execute(db, cmd, env).0, Execute(db, cmd, env).1)
  {
  }

  /** Main result. Every command, whatever fails, is decided so. */
  lemma SucceedsExactly(db: DB, cmd: Command, env: Env)
    requires OwnIds(db)
    ensures Decided(db, cmd, env, Execute(db, cmd, env).0, Execute(db, cmd, env).1)
  {
    UnfailingSucceeds(db, cmd, Unfailing(env));
    AcceptableAlike(db, cmd, env);
    ChecksAlike(db, cmd, env);
    if Check(db, cmd, env).Ok? {
      var w := Check(db, cmd, env).value;
      CheckedWrite(db, cmd, env, w);
      WriteStatements(db, w, env);
      WriteFails(db, w, env);
      RunsCheckedWrite(db, cmd, env, w);
      RunsCheckedWrite(db, cmd, Unfailing(env), w);
      DecidedByWrite(db, cmd, env, w);
    }
  }
}
