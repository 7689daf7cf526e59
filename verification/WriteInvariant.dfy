/** What holds of every gig in every state the write commands reach, with any number of them interleaved
    between their reads and their writes. */
module WriteInvariant {
  import opened Text
  import opened Wrappers
  import opened ChildTable
  import opened Domain
  import opened Commands
  import opened Slug
  import opened WriteModel
  import opened GigCommands

  /** A command under way. */
  datatype Pending =
    | Reading(row: GigRow, freelancerId: string, username: string)  // Publish has read the gig's row, not yet its packages
    | Ready(write: Write)                                           // checked, about to write
    | Naming(id: string, username: string)                          // published, about to set the seller name

  datatype State = State(db: DB, pending: seq<Pending>)

  datatype Step =
    | Begin(cmd: Command, env: Env)
    | BeginPublish(gigId: string, freelancerId: string, username: string)
    | ReadPackages(i: nat, env: Env)
    | DoWrite(i: nat, env: Env)
    | DoName(i: nat, env: Env)
    | GiveUp(i: nat)

  function Without(pending: seq<Pending>, i: nat): seq<Pending>
    requires i < |pending|
  {
    pending[..i] + pending[i + 1..]
  }

  /** The gig as Publish sees it: its row as read before, its packages as they are now. */
  function SeenBy(row: GigRow, db: DB): Gig {
    Gig(row, Read(db.packages, row.id), Read(db.questions, row.id), Read(db.media, row.id))
  }

  predicate Enabled(s: State, step: Step) {
    match step
    case Begin(cmd, env) => !cmd.Publish? && Check(s.db, cmd, env).Ok?
    case BeginPublish(gigId, _, _) => TrimSpace(gigId) in s.db.gigs
    case ReadPackages(i, env) =>
      && i < |s.pending| && s.pending[i].Reading?
      && s.pending[i].row.freelancerId == TrimSpace(s.pending[i].freelancerId)
      && ValidatePublishReady(SeenBy(s.pending[i].row, s.db)).None?
      && CheckConnect(env).None?
    case DoWrite(i, _) => i < |s.pending| && s.pending[i].Ready?
    case DoName(i, _) => i < |s.pending| && s.pending[i].Naming?
    case GiveUp(i) => i < |s.pending|
  }

  /** The write of a checked command; a publication sets the seller name in a step of its own. */
  function WriteOnce(db: DB, w: Write, env: Env): DB {
    if w.WritePublish? then WriteModel.Publish(db, w.id, env.now, env.faults).0 else Perform(db, w, env).0
  }

  function Follow(db: DB, w: Write, env: Env): seq<Pending> {
    if w.WritePublish? && NamesSeller(WriteModel.Publish(db, w.id, env.now, env.faults).1, w.username)
    then [Naming(w.id, w.username)] else []
  }

  function Next(s: State, step: Step): State
    requires Enabled(s, step)
  {
    match step
    case Begin(cmd, env) => s.(pending := s.pending + [Ready(Check(s.db, cmd, env).value)])
    case BeginPublish(gigId, freelancerId, username) =>
      s.(pending := s.pending + [Reading(s.db.gigs[TrimSpace(gigId)], freelancerId, TrimSpace(username))])
    case ReadPackages(i, _) => s.(pending := s.pending[i := Ready(WritePublish(s.pending[i].row.id, s.pending[i].username))])
    case DoWrite(i, env) =>
      State(WriteOnce(s.db, s.pending[i].write, env), Without(s.pending, i) + Follow(s.db, s.pending[i].write, env))
    case DoName(i, env) =>
      State(UpdateSellerUsername(s.db, s.pending[i].id, s.pending[i].username, env.faults).0, Without(s.pending, i))
    case GiveUp(i) => s.(pending := Without(s.pending, i))
  }

  predicate Moves(s: State, step: Step, t: State) {
    Enabled(s, step) && Next(s, step) == t
  }

  predicate MovesAt(states: seq<State>, steps: seq<Step>, i: nat)
    requires i < |steps| && i + 1 < |states|
  {
    Moves(states[i], steps[i], states[i + 1])
  }

  ghost predicate IsRun(states: seq<State>, steps: seq<Step>) {
    && |states| == |steps| + 1
    && forall i :: 0 <= i < |steps| ==> MovesAt(states, steps, i)
  }

  // ----- The invariant -----

  /** Sellable, with the tier names as they are. */
  ghost predicate TieredPackages(packages: seq<PackageData>) {
    SellablePackages(packages) && forall i :: 0 <= i < |packages| ==> packages[i].tier == TierAt(i)
  }

  /** A stored package list: tiered, and numbered 1..n in reading order. */
  ghost predicate CompletePackages(rows: seq<PackageRow>) {
    TieredPackages(RowData(rows)) && forall i :: 0 <= i < |rows| ==> rows[i].sortOrder == i + 1
  }

  /** Trimmed texts within their limits, and a slug that ends in the gig's id. The description may be empty. */
  ghost predicate CompleteInfo(info: BasicInfo, id: string) {
    && info.title != "" && Trimmed(info.title) && Trimmed(info.description)
    && info.shortInfo != "" && Trimmed(info.shortInfo) && |Utf8(info.shortInfo)| <= 128
    && info.categoryId > 0
    && info.currency != "" && Trimmed(info.currency)
    && exists base :: base != "" && id != "" && info.slug == Generate(base, id)
  }

  function InfoOf(row: GigRow): BasicInfo {
    BasicInfo(row.title, row.shortInfo, row.slug, row.description, row.categoryId, row.currency)
  }

  /** A stored question list: no blank question, numbered 1..n in reading order. */
  ghost predicate CompleteQuestions(rows: seq<QuestionRow>) {
    forall i :: 0 <= i < |rows| ==> TrimSpace(rows[i].value) != "" && rows[i].sortOrder == i + 1
  }

  /** Stored media, numbered 1..n in reading order. */
  ghost predicate CompleteMedia(rows: seq<MediaRow>) {
    forall i :: 0 <= i < |rows| ==> rows[i].sortOrder == i + 1
  }

  /** A gig is a draft or published, with a publication time exactly then; and what a completion flag says is so. */
  ghost predicate GoodGig(row: GigRow, packages: seq<PackageRow>, questions: seq<QuestionRow>, media: seq<MediaRow>) {
    && row.status in {Draft, Published}
    && (row.status == Published <==> row.publishedAt.Some?)
    && (row.status == Published ==> row.basicInfoCompleted && row.packagesCompleted)
    && (row.basicInfoCompleted ==> CompleteInfo(InfoOf(row), row.id))
    && (row.packagesCompleted ==> CompletePackages(Read(packages, row.id)))
    && (row.requirementsCompleted ==> CompleteQuestions(Read(questions, row.id)))
    && (row.mediaCompleted ==> CompleteMedia(Read(media, row.id)))
  }

  ghost predicate GoodTables(db: DB) {
    forall id :: id in db.gigs ==> db.gigs[id].id == id && GoodGig(db.gigs[id], db.packages, db.questions, db.media)
  }

  /** What a row read before still says of the gig: its completion flags hold. */
  predicate StillCompleted(row: GigRow, now: GigRow) {
    && (row.basicInfoCompleted ==> now.basicInfoCompleted)
    && (row.packagesCompleted ==> now.packagesCompleted)
    && (row.requirementsCompleted ==> now.requirementsCompleted)
    && (row.mediaCompleted ==> now.mediaCompleted)
    && (row.status == Published ==> now.status == Published)
  }

  ghost predicate GoodPending(p: Pending, db: DB) {
    match p
    case Reading(row, _, _) => row.id in db.gigs && StillCompleted(row, db.gigs[row.id])
    case Ready(w) =>
      && (w.WriteBasicInfo? ==> CompleteInfo(w.info, w.id))
      && (w.WriteQuestions? ==> forall i :: 0 <= i < |w.questions| ==> TrimSpace(w.questions[i].value) != "")
      && (w.WritePackages? ==> TieredPackages(InputData(w.packages)))
      && (w.WritePublish? ==> w.id in db.gigs && db.gigs[w.id].basicInfoCompleted && db.gigs[w.id].packagesCompleted)
    case Naming(_, _) => true
  }

  ghost predicate Good(s: State) {
    GoodTables(s.db) && forall i :: 0 <= i < |s.pending| ==> GoodPending(s.pending[i], s.db)
  }

  /** Gigs stay, and so do their completion flags and their publication. */
  ghost predicate NoneReverts(before: DB, after: DB) {
    forall id :: id in before.gigs ==> id in after.gigs && StillCompleted(before.gigs[id], after.gigs[id])
  }

  // ----- Writes keep it -----

  /** A write of one row that keeps the packages. */
  lemma RowWrite(db: DB, id: string, row: GigRow)
    requires GoodTables(db) && row.id == id && GoodGig(row, db.packages, db.questions, db.media)
    requires id in db.gigs ==> StillCompleted(db.gigs[id], row)
    ensures GoodTables(db.(gigs := db.gigs[id := row])) && NoneReverts(db, db.(gigs := db.gigs[id := row]))
  {
  }

  lemma PackagesWrite(db: DB, id: string, items: seq<Input<PackageData>>, generated: nat -> string, faults: Faults)
    requires GoodTables(db) && TieredPackages(InputData(items))
    ensures var d := WriteModel.ReplacePackages(db, id, items, generated, faults).0;
            GoodTables(d) && NoneReverts(db, d)
  {
    var d := WriteModel.ReplacePackages(db, id, items, generated, faults).0;
    var rows := NewRows(id, items, generated);
    PackagesAllOrNothing(db, id, items, generated, faults, id);
    if PackagesCommit(db, id, items, generated, faults) {
      assert RowData(rows) == InputData(items);
      forall other | other in d.gigs
        ensures d.gigs[other].id == other && GoodGig(d.gigs[other], d.packages, d.questions, d.media)
      {
        PackagesAllOrNothing(db, id, items, generated, faults, other);
      }
    }
  }

  lemma QuestionsWrite(db: DB, id: string, items: seq<Input<string>>, generated: nat -> string, faults: Faults)
    requires GoodTables(db) && forall i :: 0 <= i < |items| ==> TrimSpace(items[i].value) != ""
    ensures var d := WriteModel.ReplaceQuestions(db, id, items, generated, faults).0;
            GoodTables(d) && NoneReverts(db, d)
  {
    var d := WriteModel.ReplaceQuestions(db, id, items, generated, faults).0;
    QuestionsAllOrNothing(db, id, items, generated, faults, id);
    if RowsCommit(db.questions, db, id, items, generated, faults) {
      forall other | other in d.gigs
        ensures d.gigs[other].id == other && GoodGig(d.gigs[other], d.packages, d.questions, d.media)
      {
        QuestionsAllOrNothing(db, id, items, generated, faults, other);
      }
    }
  }

  lemma MediaWrite(db: DB, id: string, picture: string, items: seq<Input<string>>, generated: nat -> string, faults: Faults)
    requires GoodTables(db)
    ensures var d := WriteModel.ReplaceMedia(db, id, picture, items, generated, faults).0;
            GoodTables(d) && NoneReverts(db, d)
  {
    var d := WriteModel.ReplaceMedia(db, id, picture, items, generated, faults).0;
    MediaAllOrNothing(db, id, picture, items, generated, faults, id);
    if RowsCommit(db.media, db, id, items, generated, faults) {
      forall other | other in d.gigs
        ensures d.gigs[other].id == other && GoodGig(d.gigs[other], d.packages, d.questions, d.media)
      {
        MediaAllOrNothing(db, id, picture, items, generated, faults, other);
      }
    }
  }

  lemma DraftWrite(db: DB, gigId: string, generated: string, freelancerId: string, faults: Faults)
    requires GoodTables(db)
    ensures var d := WriteModel.CreateDraft(db, gigId, generated, freelancerId, faults).0;
            GoodTables(d) && NoneReverts(db, d)
  {
    var id := if gigId == "" then generated else gigId;
    RowWrite(db, id, if id in db.gigs then Redrafted(db.gigs[id], freelancerId) else EmptyDraft(id, freelancerId));
  }

  lemma WriteKeeps(db: DB, w: Write, env: Env)
    requires GoodTables(db) && GoodPending(Ready(w), db)
    ensures GoodTables(WriteOnce(db, w, env)) && NoneReverts(db, WriteOnce(db, w, env))
  {
    match w
    case WriteDraft(id, freelancerId) => DraftWrite(db, id, env.generated(0), freelancerId, env.faults);
    case WriteBasicInfo(id, info) =>
      if id in db.gigs {
        RowWrite(db, id, WithBasicInfo(db.gigs[id], info));
      }
    case WritePackages(id, items) => PackagesWrite(db, id, items, env.generated, env.faults);
    case WriteQuestions(id, items) => QuestionsWrite(db, id, items, env.generated, env.faults);
    case WriteMedia(id, picture, items) => MediaWrite(db, id, picture, items, env.generated, env.faults);
    case WritePublish(id, _) => RowWrite(db, id, db.gigs[id].(status := Published, publishedAt := Some(env.now)));
  }

  lemma PendingKept(p: Pending, before: DB, after: DB)
    requires GoodPending(p, before) && NoneReverts(before, after)
    ensures GoodPending(p, after)
  {
  }

  // ----- Checks establish it -----

  lemma CheckedAreTiered(packages: seq<PackageInput>, recovery: bool)
    requires CheckPackages(packages, recovery).Ok?
    ensures TieredPackages(InputData(CheckPackages(packages, recovery).value))
  {
    var items := CheckPackages(packages, recovery).value;
    NormalizedShape(packages, recovery);
    ValidPackagesAreSellable(InputData(items));
    forall i | 0 <= i < |items|
      ensures items[i].value.tier == TierAt(i)
    {
      TrimSpaceTrims(packages[i].tier);
      assert TrimSpace(InputData(items)[i].tier) == TierAt(i);
    }
  }

  lemma CheckedIsComplete(cmd: Command, id: string, slugify: string -> string)
    requires cmd.UpdateBasicInfo? && CheckBasicInfo(cmd, id, slugify).Ok?
    ensures CompleteInfo(CheckBasicInfo(cmd, id, slugify).value, id)
  {
    TrimSpaceTrims(cmd.title);
    TrimSpaceTrims(cmd.shortInfo);
    TrimSpaceTrims(cmd.description);
    TrimSpaceTrims(cmd.currency);
    var base := slugify(TrimSpace(cmd.title));
    assert base != "" && id != "" && CheckBasicInfo(cmd, id, slugify).value.slug == Generate(base, id);
  }

  lemma {:induction false} CheckedAreAsked(questions: seq<QuestionInput>, recovery: bool)
    requires CheckQuestions(questions, recovery).Ok?
    ensures |CheckQuestions(questions, recovery).value| == |questions|
    ensures forall i :: 0 <= i < |questions| ==>
              && CheckQuestions(questions, recovery).value[i].value == questions[i].content
              && TrimSpace(questions[i].content) != ""
  {
    if questions != [] {
      CheckedAreAsked(questions[1..], recovery);
      assert forall i :: 0 < i < |questions| ==> questions[i] == questions[1..][i - 1];
    }
  }

  lemma CheckGivesGood(db: DB, cmd: Command, env: Env)
    requires !cmd.Publish? && Check(db, cmd, env).Ok?
    ensures GoodPending(Ready(Check(db, cmd, env).value), db)
  {
    if cmd.UpdateBasicInfo? {
      CheckedIsComplete(cmd, Check(db, cmd, env).value.id, env.slugify);
    } else if cmd.ReplaceQuestions? {
      CheckedAreAsked(cmd.questions, env.recovery);
    } else if cmd.ReplacePackages? {
      CheckedAreTiered(cmd.packages, env.recovery);
    }
  }

  lemma StepKeeps(s: State, step: Step)
    requires Good(s) && Enabled(s, step)
    ensures Good(Next(s, step)) && NoneReverts(s.db, Next(s, step).db)
  {
    var t := Next(s, step);
    match step
    case Begin(cmd, env) => CheckGivesGood(s.db, cmd, env);
    case BeginPublish(_, _, _) =>
    case ReadPackages(i, _) => assert GoodPending(s.pending[i], s.db);
    case DoWrite(i, env) =>
      assert GoodPending(s.pending[i], s.db);
      WriteKeeps(s.db, s.pending[i].write, env);
      OthersKept(s, t, i, Follow(s.db, s.pending[i].write, env));
    case DoName(i, env) =>
      var id := s.pending[i].id;
      if id in s.db.gigs {
        RowWrite(s.db, id, s.db.gigs[id].(sellerUsername := s.pending[i].username));
      }
      OthersKept(s, t, i, []);
    case GiveUp(i) => OthersKept(s, t, i, []);
  }

  lemma OthersKept(s: State, t: State, i: nat, more: seq<Pending>)
    requires Good(s) && i < |s.pending| && t.pending == Without(s.pending, i) + more
    requires GoodTables(t.db) && NoneReverts(s.db, t.db)
    requires forall k :: 0 <= k < |more| ==> more[k].Naming?
    ensures Good(t)
  {
    forall j | 0 <= j < |t.pending|
      ensures GoodPending(t.pending[j], t.db)
    {
      if j < |s.pending| - 1 {
        var k := if j < i then j else j + 1;
        assert t.pending[j] == s.pending[k];
        PendingKept(s.pending[k], s.db, t.db);
      } else {
        assert t.pending[j] == more[j - (|s.pending| - 1)];
      }
    }
  }

  /** Main result. From any good state (the empty one, for instance), in every state of every run, whatever
      commands interleave and fail: a published gig has basic info and packages completed; completed basic
      info is in its limits with a slug that ends in the gig's id; completed packages are one to three with
      the first tiers in order, positive prices and days and positions 1..n; completed requirements have no
      blank question; and no completion flag and no publication reverts from any earlier state of the run
      to any later. */
  lemma {:induction false} RunKeeps(states: seq<State>, steps: seq<Step>, i: nat, j: nat)
    requires IsRun(states, steps) && Good(states[0]) && i <= j <= |steps|
    ensures Good(states[j]) && NoneReverts(states[i].db, states[j].db)
    decreases j
  {
    if j > 0 {
      RunKeeps(states, steps, if i < j then i else j - 1, j - 1);
      assert MovesAt(states, steps, j - 1);
      StepKeeps(states[j - 1], steps[j - 1]);
    }
  }

  lemma EmptyIsGood()
    ensures Good(State(DB(map[], [], [], []), []))
  {
  }

  lemma PublishKeeps(db: DB, id: string, username: string, env: Env)
    requires GoodTables(db) && GoodPending(Ready(WritePublish(id, username)), db)
    ensures var d := Perform(db, WritePublish(id, username), env).0;
            GoodTables(d) && NoneReverts(db, d)
  {
    PublishWrites(db, id, username, env);
    RowWrite(db, id, Perform(db, WritePublish(id, username), env).0.gigs[id]);
  }

  /** A command that runs alone, its check, its write and its seller name at once, keeps the same. */
  lemma ExecuteKeeps(db: DB, cmd: Command, env: Env)
    requires GoodTables(db)
    ensures GoodTables(Execute(db, cmd, env).0) && NoneReverts(db, Execute(db, cmd, env).0)
  {
    var checked := Check(db, cmd, env);
    if checked.Ok? {
      CheckEstablishes(db, cmd, env);
      if checked.value.WritePublish? {
        PublishKeeps(db, checked.value.id, checked.value.username, env);
      } else {
        WriteKeeps(db, checked.value, env);
      }
    }
  }

  lemma CheckEstablishes(db: DB, cmd: Command, env: Env)
    requires GoodTables(db) && Check(db, cmd, env).Ok?
    ensures GoodPending(Ready(Check(db, cmd, env).value), db)
  {
    if cmd.Publish? {
      PublishChecks(db, cmd, env);
    } else {
      CheckGivesGood(db, cmd, env);
    }
  }

  /** The slug stored for a completed gig with a version 7 id leads back to that gig if and only if what
      stands before the id is more than white space. */
  lemma StoredSlugResolves(db: DB, id: string)
    requires GoodTables(db) && id in db.gigs && db.gigs[id].basicInfoCompleted && IsUuid7(id)
    ensures |db.gigs[id].slug| > ID_LENGTH + 1
    ensures ParseGigId(db.gigs[id].slug) == Some(id)
            <==> TrimLeft(db.gigs[id].slug[..|db.gigs[id].slug| - (ID_LENGTH + 1)]) != ""
  {
    var row := db.gigs[id];
    var base :| base != "" && id != "" && InfoOf(row).slug == Generate(base, id);
    SlugRoundTrip(base, id);
    Uuid7IsAscii(id);
    SlugFront(base, id);
  }

  lemma SlugFront(base: string, id: string)
    requires base != "" && |id| == ID_LENGTH
    ensures |Generate(base, id)| > ID_LENGTH + 1
    ensures Generate(base, id)[..|Generate(base, id)| - (ID_LENGTH + 1)] == base
  {
  }
}
