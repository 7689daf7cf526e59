/** What a caller of a write command may rely on, whatever else happens: the gig returned shows what was asked
    for, a refusal changes nothing, other gigs are untouched, and the write model's invariant is kept. */
module GigPromises {
  import opened Text
  import opened Wrappers
  import opened ChildTable
  import opened Domain
  import opened Commands
  import opened WriteModel
  import opened GigCommands
  import opened WriteInvariant

  /** The basic info asked for, trimmed. */
  predicate ShowsBasicInfo(cmd: Command, row: GigRow, slugify: string -> string)
    requires cmd.UpdateBasicInfo?
  {
    && row.basicInfoCompleted
    && row.title == TrimSpace(cmd.title) && row.shortInfo == TrimSpace(cmd.shortInfo)
    && row.description == TrimSpace(cmd.description) && row.currency == TrimSpace(cmd.currency)
    && row.categoryId == cmd.categoryId && row.slug == slugify(row.title) + "-" + row.id
  }

  /** The packages asked for, in order, under the ids supplied. */
  ghost predicate ShowsPackages(packages: seq<PackageInput>, gig: Gig) {
    && gig.row.packagesCompleted && |gig.packages| == |packages|
    && forall i :: 0 <= i < |packages| ==>
         && (TrimSpace(packages[i].id) != "" ==> gig.packages[i].id == TrimSpace(packages[i].id))
         && gig.packages[i].sortOrder == i + 1
         && gig.packages[i].value == PackageData(TrimSpace(packages[i].tier), TrimSpace(packages[i].description),
                                                 packages[i].deliveryDays, packages[i].priceCents)
  }

  ghost predicate ShowsQuestions(questions: seq<QuestionInput>, gig: Gig) {
    && gig.row.requirementsCompleted && |gig.questions| == |questions|
    && forall i :: 0 <= i < |questions| ==>
         && (questions[i].id != "" ==> gig.questions[i].id == questions[i].id)
         && gig.questions[i].sortOrder == i + 1 && gig.questions[i].value == questions[i].content
  }

  /** The first uploaded file is the cover, the others are the media in their order. */
  ghost predicate ShowsMedia(uploaded: Option<seq<string>>, gig: Gig) {
    && uploaded.Some? && gig.row.mediaCompleted
    && uploaded.value == [gig.row.pictureFileId] + seq(|gig.media|, i requires 0 <= i < |gig.media| => gig.media[i].value)
  }

  ghost predicate Shows(cmd: Command, env: Env, gig: Gig) {
    match cmd
    case CreateDraft(_, freelancerId) => gig.row.freelancerId == TrimSpace(freelancerId) != ""
    case UpdateBasicInfo(_, _, _, _, _, _, _) => ShowsBasicInfo(cmd, gig.row, env.slugify)
    case ReplacePackages(_, _, packages) => ShowsPackages(packages, gig)
    case ReplaceQuestions(_, _, questions) => ShowsQuestions(questions, gig)
    case ReplaceMedia(_, _, files) =>
      ShowsMedia(env.upload(gig.row.freelancerId, "gigs/" + TrimSpace(gig.row.id) + "/media", files), gig)
    case Publish(_, _, _) => gig.row.status == Published && gig.row.publishedAt == Some(env.now)
  }

  /** The errors that can come after the write. */
  predicate AfterWrite(e: Error) {
    e == StorageFailure || e == EventPublishFailure
  }

  /** The gig returned is the one named, as it now stands, and shows what was asked for; a refusal leaves
      everything as it was. */
  ghost predicate Answers(db: DB, cmd: Command, env: Env, d: DB, r: Result<Gig, Error>) {
    && (r.Ok? ==> TargetOf(cmd, env) in d.gigs && r.value == GigAt(d, TargetOf(cmd, env)) && Shows(cmd, env, r.value))
    && (r.Err? && !AfterWrite(r.error) ==> d == db)
  }

  /** Only its owner changes a gig, apart from its creation. */
  ghost predicate OwnerOnly(db: DB, cmd: Command, d: DB) {
    d != db && !cmd.CreateDraft? ==>
      TrimSpace(cmd.gigId) in db.gigs && db.gigs[TrimSpace(cmd.gigId)].freelancerId == TrimSpace(cmd.freelancerId) != ""
  }

  ghost predicate Promised(db: DB, cmd: Command, env: Env, d: DB, r: Result<Gig, Error>) {
    && NoneReverts(db, d) && OwnerOnly(db, cmd, d)
    && (forall other :: other != TargetOf(cmd, env) ==> SameGig(db, d, other))
    && Answers(db, cmd, env, d, r)
  }

  // ----- Every command keeps its promise -----

  lemma DraftAnswers(db: DB, cmd: Command, env: Env)
    requires cmd.CreateDraft?
    ensures Answers(db, cmd, env, Execute(db, cmd, env).0, Execute(db, cmd, env).1)
  {
  }

  /** A command on a gig that passes its checks performs its write on that gig. */
  lemma Performed(db: DB, cmd: Command, env: Env) returns (gig: Gig)
    requires GoodTables(db) && !cmd.CreateDraft? && Check(db, cmd, env).Ok?
    ensures TrimSpace(cmd.gigId) in db.gigs && gig == GigAt(db, TrimSpace(cmd.gigId))
    ensures gig.row.id == TrimSpace(cmd.gigId) && Check(db, cmd, env) == CheckOnGig(gig, cmd, env)
  {
    gig := GigAt(db, TrimSpace(cmd.gigId));
  }

  lemma {:induction false} QuestionShape(questions: seq<QuestionInput>, recovery: bool)
    requires CheckQuestions(questions, recovery).Ok?
    ensures |CheckQuestions(questions, recovery).value| == |questions|
    ensures forall i :: 0 <= i < |questions| ==>
              CheckQuestions(questions, recovery).value[i] == Input(questions[i].id, questions[i].content)
  {
    if questions != [] {
      QuestionShape(questions[1..], recovery);
      assert forall i :: 0 < i < |questions| ==> questions[i] == questions[1..][i - 1];
    }
  }

  lemma BasicInfoAnswers(db: DB, cmd: Command, env: Env)
    requires GoodTables(db) && cmd.UpdateBasicInfo?
    ensures Answers(db, cmd, env, Execute(db, cmd, env).0, Execute(db, cmd, env).1)
  {
    if Check(db, cmd, env).Ok? {
      var gig := Performed(db, cmd, env);
    }
  }

  lemma PackagesAnswer(db: DB, cmd: Command, env: Env)
    requires GoodTables(db) && cmd.ReplacePackages?
    ensures Answers(db, cmd, env, Execute(db, cmd, env).0, Execute(db, cmd, env).1)
  {
    if Check(db, cmd, env).Ok? {
      var gig := Performed(db, cmd, env);
      var items := CheckPackages(cmd.packages, env.recovery).value;
      NormalizedShape(cmd.packages, env.recovery);
      PackagesAllOrNothing(db, gig.row.id, items, env.generated, env.faults, gig.row.id);
    }
  }

  lemma QuestionsReturn(db: DB, id: string, questions: seq<QuestionInput>, env: Env)
    requires id in db.gigs && CheckQuestions(questions, env.recovery).Ok?
    ensures var (d, r) := WriteModel.ReplaceQuestions(db, id, CheckQuestions(questions, env.recovery).value, env.generated, env.faults);
            if r.Ok? then id in d.gigs && r.value == GigAt(d, id) && ShowsQuestions(questions, r.value)
            else r.error == StorageFailure
  {
    var items := CheckQuestions(questions, env.recovery).value;
    QuestionShape(questions, env.recovery);
    QuestionsAllOrNothing(db, id, items, env.generated, env.faults, id);
  }

  lemma QuestionsAnswer(db: DB, cmd: Command, env: Env)
    requires GoodTables(db) && cmd.ReplaceQuestions?
    ensures Answers(db, cmd, env, Execute(db, cmd, env).0, Execute(db, cmd, env).1)
  {
    if Check(db, cmd, env).Ok? {
      var gig := Performed(db, cmd, env);
      QuestionsReturn(db, gig.row.id, cmd.questions, env);
    }
  }

  lemma MediaShown(files: seq<string>, generated: nat -> string, gig: Gig)
    requires files != [] && gig.row.mediaCompleted && gig.row.pictureFileId == files[0]
    requires gig.media == NewRows(gig.row.id, MediaInputs(files[1..]), generated)
    ensures ShowsMedia(Some(files), gig)
  {
    var media := seq(|gig.media|, i requires 0 <= i < |gig.media| => gig.media[i].value);
    assert media == files[1..];
    assert files == [files[0]] + files[1..];
  }

  lemma MediaReturn(db: DB, id: string, files: seq<string>, env: Env)
    requires id in db.gigs && db.gigs[id].id == id && files != []
    ensures var (d, r) := WriteModel.ReplaceMedia(db, id, files[0], MediaInputs(files[1..]), env.generated, env.faults);
            if r.Ok? then id in d.gigs && r.value == GigAt(d, id) && ShowsMedia(Some(files), r.value)
            else r.error == StorageFailure
  {
    var items := MediaInputs(files[1..]);
    MediaAllOrNothing(db, id, files[0], items, env.generated, env.faults, id);
    if RowsCommit(db.media, db, id, items, env.generated, env.faults) {
      var d := WriteModel.ReplaceMedia(db, id, files[0], items, env.generated, env.faults).0;
      MediaShown(files, env.generated, GigAt(d, id));
    }
  }

  lemma MediaAnswer(db: DB, cmd: Command, env: Env)
    requires GoodTables(db) && cmd.ReplaceMedia?
    ensures Answers(db, cmd, env, Execute(db, cmd, env).0, Execute(db, cmd, env).1)
  {
    if Check(db, cmd, env).Ok? {
      var gig := Performed(db, cmd, env);
      MediaReturn(db, gig.row.id, env.upload(gig.row.freelancerId, MediaPrefix(gig.row.id), cmd.files).value, env);
    }
  }

  lemma PublishAnswers(db: DB, cmd: Command, env: Env)
    requires GoodTables(db) && cmd.Publish?
    ensures Answers(db, cmd, env, Execute(db, cmd, env).0, Execute(db, cmd, env).1)
  {
    PublishChecks(db, cmd, env);
    if Check(db, cmd, env).Ok? {
      var gig := Performed(db, cmd, env);
      PublishReturns(db, gig.row.id, TrimSpace(cmd.username), env);
    }
  }

  lemma PublishReturns(db: DB, id: string, username: string, env: Env)
    requires id in db.gigs
    ensures var (d, r) := Perform(db, WritePublish(id, username), env);
            if r.Ok? then id in d.gigs && r.value == GigAt(d, id) && d.gigs[id].status == Published && d.gigs[id].publishedAt == Some(env.now)
            else r.error == StorageFailure
  {
  }

  /** Main result. Every command keeps its promise in every state that satisfies the invariant, whatever
      statements and events fail. */
  lemma ExecuteKeepsPromise(db: DB, cmd: Command, env: Env)
    requires GoodTables(db)
    ensures GoodTables(Execute(db, cmd, env).0)
    ensures Promised(db, cmd, env, Execute(db, cmd, env).0, Execute(db, cmd, env).1)
  {
    ExecuteKeeps(db, cmd, env);
    forall other | other != TargetOf(cmd, env)
      ensures SameGig(db, Execute(db, cmd, env).0, other)
    {
      OtherGigsUntouched(db, cmd, env, other);
    }
    AnswersOf(db, cmd, env);
    OwnerChanges(db, cmd, env);
  }

  lemma OwnerChanges(db: DB, cmd: Command, env: Env)
    ensures OwnerOnly(db, cmd, Execute(db, cmd, env).0)
  {
  }

  lemma AnswersOf(db: DB, cmd: Command, env: Env)
    requires GoodTables(db)
    ensures Answers(db, cmd, env, Execute(db, cmd, env).0, Execute(db, cmd, env).1)
  {
    match cmd
    case CreateDraft(_, _) => DraftAnswers(db, cmd, env);
    case UpdateBasicInfo(_, _, _, _, _, _, _) => BasicInfoAnswers(db, cmd, env);
    case ReplacePackages(_, _, _) => PackagesAnswer(db, cmd, env);
    case ReplaceQuestions(_, _, _) => QuestionsAnswer(db, cmd, env);
    case ReplaceMedia(_, _, _) => MediaAnswer(db, cmd, env);
    case Publish(_, _, _) => PublishAnswers(db, cmd, env);
  }
}
