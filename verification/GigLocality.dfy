/** A command reads and writes one gig: its result, and what it leaves of the gig, depend on nothing else. */
module GigLocality {
  import opened Text
  import opened Wrappers
  import opened Ordering
  import opened ChildTable
  import opened Domain
  import opened Commands
  import opened WriteModel
  import opened GigCommands
  import opened RecoveryHandler

  /** The new rows take no id of another gig's rows. */
  ghost predicate Apart<T>(stay: seq<Child<T>>, rows: seq<Child<T>>) {
    forall i, j :: 0 <= i < |stay| && 0 <= j < |rows| ==> stay[i].id != rows[j].id
  }

  ghost predicate WriteApart(db: DB, w: Write, generated: nat -> string) {
    match w
    case WritePackages(id, items) => Apart(Others(db.packages, id), NewRows(id, items, generated))
    case WriteQuestions(id, items) => Apart(Others(db.questions, id), NewRows(id, items, generated))
    case WriteMedia(id, _, items) => Apart(Others(db.media, id), NewRows(id, items, generated))
    case WriteDraft(_, _) => true
    case WriteBasicInfo(_, _) => true
    case WritePublish(_, _) => true
  }

  function WrittenGig(w: Write, env: Env): string {
    if w.WriteDraft? && w.id == "" then env.generated(0) else w.id
  }

  lemma RowWriteLocal(a: DB, b: DB, w: Write, env: Env)
    requires w.WriteDraft? || w.WriteBasicInfo?
    requires SameGig(a, b, WrittenGig(w, env))
    ensures Perform(a, w, env).1 == Perform(b, w, env).1
    ensures SameGig(Perform(a, w, env).0, Perform(b, w, env).0, WrittenGig(w, env))
  {
  }

  lemma PublishedLocal(a: DB, b: DB, id: string, now: int, faults: Faults)
    requires SameGig(a, b, id)
    ensures WriteModel.Publish(a, id, now, faults).1 == WriteModel.Publish(b, id, now, faults).1
    ensures SameGig(WriteModel.Publish(a, id, now, faults).0, WriteModel.Publish(b, id, now, faults).0, id)
  {
  }

  lemma SellerLocal(a: DB, b: DB, id: string, username: string, faults: Faults)
    requires SameGig(a, b, id)
    ensures UpdateSellerUsername(a, id, username, faults).1 == UpdateSellerUsername(b, id, username, faults).1
    ensures SameGig(UpdateSellerUsername(a, id, username, faults).0, UpdateSellerUsername(b, id, username, faults).0, id)
  {
  }

  lemma PublishLocal(a: DB, b: DB, id: string, username: string, env: Env)
    requires SameGig(a, b, id)
    ensures Perform(a, WritePublish(id, username), env).1 == Perform(b, WritePublish(id, username), env).1
    ensures SameGig(Perform(a, WritePublish(id, username), env).0, Perform(b, WritePublish(id, username), env).0, id)
  {
    var c, d := WriteModel.Publish(a, id, env.now, env.faults).0, WriteModel.Publish(b, id, env.now, env.faults).0;
    PublishedLocal(a, b, id, env.now, env.faults);
    SellerLocal(c, d, id, username, From(env.faults, 2));
  }

  lemma PackagesLocal(a: DB, b: DB, id: string, items: seq<Input<PackageData>>, generated: nat -> string, faults: Faults)
    requires SameGig(a, b, id)
    requires Apart(Others(a.packages, id), NewRows(id, items, generated)) && Apart(Others(b.packages, id), NewRows(id, items, generated))
    ensures var (c, r) := WriteModel.ReplacePackages(a, id, items, generated, faults);
            var (d, q) := WriteModel.ReplacePackages(b, id, items, generated, faults);
            r == q && SameGig(c, d, id)
  {
    PackagesAllOrNothing(a, id, items, generated, faults, id);
    PackagesAllOrNothing(b, id, items, generated, faults, id);
    assert PackagesCommit(a, id, items, generated, faults) <==> PackagesCommit(b, id, items, generated, faults);
  }

  lemma RowsCommitAlike(tableA: seq<Child<string>>, a: DB, tableB: seq<Child<string>>, b: DB, id: string, items: seq<Input<string>>,
                        generated: nat -> string, faults: Faults)
    requires id in a.gigs <==> id in b.gigs
    requires Apart(Others(tableA, id), NewRows(id, items, generated)) && Apart(Others(tableB, id), NewRows(id, items, generated))
    ensures RowsCommit(tableA, a, id, items, generated, faults) <==> RowsCommit(tableB, b, id, items, generated, faults)
  {
  }

  lemma QuestionsLocal(a: DB, b: DB, id: string, items: seq<Input<string>>, generated: nat -> string, faults: Faults)
    requires SameGig(a, b, id)
    requires Apart(Others(a.questions, id), NewRows(id, items, generated)) && Apart(Others(b.questions, id), NewRows(id, items, generated))
    ensures var (c, r) := WriteModel.ReplaceQuestions(a, id, items, generated, faults);
            var (d, q) := WriteModel.ReplaceQuestions(b, id, items, generated, faults);
            r == q && SameGig(c, d, id)
  {
    QuestionsAllOrNothing(a, id, items, generated, faults, id);
    QuestionsAllOrNothing(b, id, items, generated, faults, id);
    RowsCommitAlike(a.questions, a, b.questions, b, id, items, generated, faults);
  }

  lemma MediaLocal(a: DB, b: DB, id: string, picture: string, items: seq<Input<string>>, generated: nat -> string, faults: Faults)
    requires SameGig(a, b, id)
    requires Apart(Others(a.media, id), NewRows(id, items, generated)) && Apart(Others(b.media, id), NewRows(id, items, generated))
    ensures var (c, r) := WriteModel.ReplaceMedia(a, id, picture, items, generated, faults);
            var (d, q) := WriteModel.ReplaceMedia(b, id, picture, items, generated, faults);
            r == q && SameGig(c, d, id)
  {
    MediaAllOrNothing(a, id, picture, items, generated, faults, id);
    MediaAllOrNothing(b, id, picture, items, generated, faults, id);
    RowsCommitAlike(a.media, a, b.media, b, id, items, generated, faults);
  }

  lemma PerformLocal(a: DB, b: DB, w: Write, env: Env)
    requires SameGig(a, b, WrittenGig(w, env)) && WriteApart(a, w, env.generated) && WriteApart(b, w, env.generated)
    ensures Perform(a, w, env).1 == Perform(b, w, env).1
    ensures SameGig(Perform(a, w, env).0, Perform(b, w, env).0, WrittenGig(w, env))
  {
    match w
    case WriteDraft(_, _) => RowWriteLocal(a, b, w, env);
    case WriteBasicInfo(_, _) => RowWriteLocal(a, b, w, env);
    case WritePackages(id, items) => PackagesLocal(a, b, id, items, env.generated, env.faults);
    case WriteQuestions(id, items) => QuestionsLocal(a, b, id, items, env.generated, env.faults);
    case WriteMedia(id, picture, items) => MediaLocal(a, b, id, picture, items, env.generated, env.faults);
    case WritePublish(id, username) => PublishLocal(a, b, id, username, env);
  }

  lemma OwnedLocal(a: DB, b: DB, gigId: string, freelancerId: string)
    requires SameGig(a, b, TrimSpace(gigId))
    ensures OwnedGig(a, gigId, freelancerId) == OwnedGig(b, gigId, freelancerId)
  {
  }

  ghost predicate OwnRows(db: DB) {
    forall id :: id in db.gigs ==> db.gigs[id].id == id
  }

  lemma CheckLocal(a: DB, b: DB, cmd: Command, env: Env)
    requires SameGig(a, b, TargetOf(cmd, env))
    ensures Check(a, cmd, env) == Check(b, cmd, env)
  {
    if !cmd.CreateDraft? {
      OwnedLocal(a, b, cmd.gigId, cmd.freelancerId);
    }
  }

  /** A command that passes its check writes to its target. */
  lemma CheckWrites(db: DB, cmd: Command, env: Env)
    requires OwnRows(db) && Check(db, cmd, env).Ok?
    ensures WrittenGig(Check(db, cmd, env).value, env) == TargetOf(cmd, env)
  {
    CheckedTarget(db, cmd, env);
  }

  ghost predicate CommandApart(db: DB, cmd: Command, env: Env) {
    Check(db, cmd, env).Ok? ==> WriteApart(db, Check(db, cmd, env).value, env.generated)
  }

  /** Two states that show one gig alike give a command on it one result, and show the gig alike again. */
  lemma ExecuteLocal(a: DB, b: DB, cmd: Command, env: Env)
    requires OwnRows(a) && SameGig(a, b, TargetOf(cmd, env)) && CommandApart(a, cmd, env) && CommandApart(b, cmd, env)
    ensures Execute(a, cmd, env).1 == Execute(b, cmd, env).1
    ensures SameGig(Execute(a, cmd, env).0, Execute(b, cmd, env).0, TargetOf(cmd, env))
  {
    CheckLocal(a, b, cmd, env);
    if Check(a, cmd, env).Ok? {
      CheckWrites(a, cmd, env);
      PerformLocal(a, b, Check(a, cmd, env).value, env);
    }
  }

  /** Main result. What a recovery command does to its gig, and how it ends, depends on that gig's row and reads
      alone, as long as its rows take no ids from other gigs. */
  lemma HandleLocal(a: DB, b: DB, cmd: Command, out: Outside)
    requires OwnRows(a) && SameGig(a, b, TargetOf(cmd, out.env))
    requires CommandApart(a, cmd, out.env.(recovery := true)) && CommandApart(b, cmd, out.env.(recovery := true))
    ensures HandleCommand(a, cmd, out).1 == HandleCommand(b, cmd, out).1
    ensures SameGig(HandleCommand(a, cmd, out).0, HandleCommand(b, cmd, out).0, TargetOf(cmd, out.env))
  {
    var env := out.env.(recovery := true);
    ExecuteLocal(a, b, cmd, env);
    if cmd.Publish? {
      OwnedLocal(Execute(a, cmd, env).0, Execute(b, cmd, env).0, cmd.gigId, cmd.freelancerId);
    }
  }

  // ----- One gig's part of the tables -----

  /** A gig as it is loaded, if it exists. */
  function GigView(db: DB, id: string): Option<Gig> {
    if id in db.gigs then Some(GigAt(db, id)) else None
  }

  /** Tables that hold that gig and no other. */
  function Only(g: Option<Gig>): DB {
    match g
    case None => DB(map[], [], [], [])
    case Some(gig) => DB(map[gig.row.id := gig.row], gig.packages, gig.questions, gig.media)
  }

  /** Which gig a row id belongs to, for each table of child rows. */
  datatype Owners = Owners(packages: string -> string, questions: string -> string, media: string -> string)

  /** Every row has a gig, and its id belongs to that gig. */
  ghost predicate RowsOwned<T>(owner: string -> string, table: seq<Child<T>>, gigs: map<string, GigRow>) {
    forall i :: 0 <= i < |table| ==> table[i].gigId in gigs && owner(table[i].id) == table[i].gigId
  }

  ghost predicate Sound(own: Owners, db: DB) {
    && OwnRows(db)
    && RowsOwned(own.packages, db.packages, db.gigs)
    && RowsOwned(own.questions, db.questions, db.gigs)
    && RowsOwned(own.media, db.media, db.gigs)
  }

  function IdOr(id: string, generated: string): string {
    if id != "" then id else generated
  }

  /** The row ids a command brings, or has generated for it, belong to its gig. */
  ghost predicate KeepsIds(own: Owners, cmd: Command, generated: nat -> string) {
    match cmd
    case ReplacePackages(gigId, _, packages) =>
      forall i :: 0 <= i < |packages| ==> own.packages(IdOr(TrimSpace(packages[i].id), generated(i))) == TrimSpace(gigId)
    case ReplaceQuestions(gigId, _, questions) =>
      forall i :: 0 <= i < |questions| ==> own.questions(IdOr(questions[i].id, generated(i))) == TrimSpace(gigId)
    case ReplaceMedia(gigId, _, files) =>
      forall i: nat :: i + 1 < |files| ==> own.media(generated(i)) == TrimSpace(gigId)
    case CreateDraft(_, _) => true
    case UpdateBasicInfo(_, _, _, _, _, _, _) => true
    case Publish(_, _, _) => true
  }

  ghost predicate AllOwned<T>(owner: string -> string, rows: seq<Child<T>>, id: string) {
    forall j :: 0 <= j < |rows| ==> rows[j].gigId == id && owner(rows[j].id) == id
  }

  /** The rows a checked command goes on to write belong to its gig. */
  ghost predicate WriteOwned(own: Owners, w: Write, generated: nat -> string) {
    match w
    case WritePackages(id, items) => AllOwned(own.packages, NewRows(id, items, generated), id)
    case WriteQuestions(id, items) => AllOwned(own.questions, NewRows(id, items, generated), id)
    case WriteMedia(id, _, items) => AllOwned(own.media, NewRows(id, items, generated), id)
    case WriteDraft(_, _) => true
    case WriteBasicInfo(_, _) => true
    case WritePublish(_, _) => true
  }

  lemma {:induction false} QuestionInputs(questions: seq<QuestionInput>, recovery: bool)
    requires CheckQuestions(questions, recovery).Ok?
    ensures |CheckQuestions(questions, recovery).value| == |questions|
    ensures forall i :: 0 <= i < |questions| ==> CheckQuestions(questions, recovery).value[i].id == questions[i].id
  {
    if questions != [] {
      QuestionInputs(questions[1..], recovery);
      assert forall i :: 0 < i < |questions| ==> questions[i] == questions[1..][i - 1];
    }
  }

  lemma CheckedOwned(own: Owners, gig: Gig, cmd: Command, env: Env)
    requires !cmd.CreateDraft? && CheckOnGig(gig, cmd, env).Ok? && gig.row.id == TrimSpace(cmd.gigId)
    requires KeepsIds(own, cmd, env.generated)
    ensures WriteOwned(own, CheckOnGig(gig, cmd, env).value, env.generated)
  {
    if cmd.ReplacePackages? {
      NormalizedShape(cmd.packages, env.recovery);
    } else if cmd.ReplaceQuestions? {
      QuestionInputs(cmd.questions, env.recovery);
    }
  }

  lemma ChecksOwned(own: Owners, db: DB, cmd: Command, env: Env)
    requires OwnRows(db) && Check(db, cmd, env).Ok? && KeepsIds(own, cmd, env.generated)
    ensures WriteOwned(own, Check(db, cmd, env).value, env.generated)
  {
    if !cmd.CreateDraft? {
      CheckedOwned(own, OwnedGig(db, cmd.gigId, cmd.freelancerId).value, cmd, env);
    }
  }

  lemma {:induction false} OthersOwned<T>(owner: string -> string, table: seq<Child<T>>, gigs: map<string, GigRow>, id: string)
    requires RowsOwned(owner, table, gigs)
    ensures RowsOwned(owner, Others(table, id), gigs)
    ensures forall i :: 0 <= i < |Others(table, id)| ==> Others(table, id)[i].gigId != id
  {
    if table != [] {
      assert forall i :: 0 <= i < |table[1..]| ==> table[1..][i] == table[i + 1];
      OthersOwned(owner, table[1..], gigs, id);
    }
  }

  /** Owned rows take no ids from the rows of other gigs. */
  lemma OwnedIsApart<T>(owner: string -> string, table: seq<Child<T>>, gigs: map<string, GigRow>, rows: seq<Child<T>>, id: string)
    requires RowsOwned(owner, table, gigs) && AllOwned(owner, rows, id)
    ensures Apart(Others(table, id), rows)
  {
    OthersOwned(owner, table, gigs, id);
  }

  lemma WritesApart(own: Owners, db: DB, w: Write, generated: nat -> string)
    requires Sound(own, db) && WriteOwned(own, w, generated)
    ensures WriteApart(db, w, generated)
  {
    match w
    case WritePackages(id, items) => OwnedIsApart(own.packages, db.packages, db.gigs, NewRows(id, items, generated), id);
    case WriteQuestions(id, items) => OwnedIsApart(own.questions, db.questions, db.gigs, NewRows(id, items, generated), id);
    case WriteMedia(id, _, items) => OwnedIsApart(own.media, db.media, db.gigs, NewRows(id, items, generated), id);
    case WriteDraft(_, _) =>
    case WriteBasicInfo(_, _) =>
    case WritePublish(_, _) =>
  }

  lemma CommandsApart(own: Owners, db: DB, cmd: Command, env: Env)
    requires Sound(own, db) && KeepsIds(own, cmd, env.generated)
    ensures CommandApart(db, cmd, env)
  {
    if Check(db, cmd, env).Ok? {
      ChecksOwned(own, db, cmd, env);
      WritesApart(own, db, Check(db, cmd, env).value, env.generated);
    }
  }

  // ----- Commands keep the rows owned -----

  lemma TableOwned<T>(owner: string -> string, table: seq<Child<T>>, gigs: map<string, GigRow>, rows: seq<Child<T>>, id: string,
                      after: map<string, GigRow>)
    requires RowsOwned(owner, table, gigs) && AllOwned(owner, rows, id) && gigs.Keys <= after.Keys && (rows == [] || id in gigs)
    ensures RowsOwned(owner, Others(table, id) + rows, after)
  {
    OthersOwned(owner, table, gigs, id);
  }

  lemma RowsStayOwned<T>(owner: string -> string, table: seq<Child<T>>, gigs: map<string, GigRow>, after: map<string, GigRow>)
    requires RowsOwned(owner, table, gigs) && gigs.Keys <= after.Keys
    ensures RowsOwned(owner, table, after)
  {
  }

  /** Gigs are added or changed, the rows stay. */
  lemma GigsChange(own: Owners, db: DB, gigs: map<string, GigRow>)
    requires Sound(own, db) && db.gigs.Keys <= gigs.Keys && forall id :: id in gigs ==> gigs[id].id == id
    ensures Sound(own, db.(gigs := gigs))
  {
    RowsStayOwned(own.packages, db.packages, db.gigs, gigs);
    RowsStayOwned(own.questions, db.questions, db.gigs, gigs);
    RowsStayOwned(own.media, db.media, db.gigs, gigs);
  }

  lemma PackagesSound(own: Owners, db: DB, id: string, items: seq<Input<PackageData>>, generated: nat -> string, faults: Faults)
    requires Sound(own, db) && AllOwned(own.packages, NewRows(id, items, generated), id)
    ensures Sound(own, WriteModel.ReplacePackages(db, id, items, generated, faults).0)
  {
    PackagesAllOrNothing(db, id, items, generated, faults, id);
    if PackagesCommit(db, id, items, generated, faults) {
      var gigs := MarkPackages(db.gigs, id);
      GigsChange(own, db, gigs);
      TableOwned(own.packages, db.packages, db.gigs, NewRows(id, items, generated), id, gigs);
    }
  }

  lemma QuestionsSound(own: Owners, db: DB, id: string, items: seq<Input<string>>, generated: nat -> string, faults: Faults)
    requires Sound(own, db) && AllOwned(own.questions, NewRows(id, items, generated), id)
    ensures Sound(own, WriteModel.ReplaceQuestions(db, id, items, generated, faults).0)
  {
    QuestionsAllOrNothing(db, id, items, generated, faults, id);
    if RowsCommit(db.questions, db, id, items, generated, faults) {
      var gigs := MarkQuestions(db.gigs, id);
      GigsChange(own, db, gigs);
      TableOwned(own.questions, db.questions, db.gigs, NewRows(id, items, generated), id, gigs);
    }
  }

  lemma MediaSound(own: Owners, db: DB, id: string, picture: string, items: seq<Input<string>>, generated: nat -> string, faults: Faults)
    requires Sound(own, db) && AllOwned(own.media, NewRows(id, items, generated), id)
    ensures Sound(own, WriteModel.ReplaceMedia(db, id, picture, items, generated, faults).0)
  {
    MediaAllOrNothing(db, id, picture, items, generated, faults, id);
    if RowsCommit(db.media, db, id, items, generated, faults) {
      var gigs := MarkMedia(db.gigs, id, picture);
      GigsChange(own, db, gigs);
      TableOwned(own.media, db.media, db.gigs, NewRows(id, items, generated), id, gigs);
    }
  }

  lemma PublishSound(own: Owners, db: DB, id: string, username: string, env: Env)
    requires Sound(own, db)
    ensures Sound(own, Perform(db, WritePublish(id, username), env).0)
  {
    if id in db.gigs {
      var d := Perform(db, WritePublish(id, username), env).0;
      PublishWrites(db, id, username, env);
      GigsChange(own, db, d.gigs);
    }
  }

  lemma RowWriteSound(own: Owners, db: DB, w: Write, env: Env)
    requires Sound(own, db) && (w.WriteDraft? || w.WriteBasicInfo?)
    ensures Sound(own, Perform(db, w, env).0)
  {
    var d := Perform(db, w, env).0;
    assert d == db.(gigs := d.gigs);
    GigsChange(own, db, d.gigs);
  }

  lemma PerformSound(own: Owners, db: DB, w: Write, env: Env)
    requires Sound(own, db) && WriteOwned(own, w, env.generated)
    ensures Sound(own, Perform(db, w, env).0)
  {
    match w
    case WriteDraft(_, _) => RowWriteSound(own, db, w, env);
    case WriteBasicInfo(_, _) => RowWriteSound(own, db, w, env);
    case WritePackages(id, items) => PackagesSound(own, db, id, items, env.generated, env.faults);
    case WriteQuestions(id, items) => QuestionsSound(own, db, id, items, env.generated, env.faults);
    case WriteMedia(id, picture, items) => MediaSound(own, db, id, picture, items, env.generated, env.faults);
    case WritePublish(id, username) => PublishSound(own, db, id, username, env);
  }

  /** Every command keeps the rows with their gigs. */
  lemma ExecuteSound(own: Owners, db: DB, cmd: Command, env: Env)
    requires Sound(own, db) && KeepsIds(own, cmd, env.generated)
    ensures Sound(own, Execute(db, cmd, env).0)
  {
    if Check(db, cmd, env).Ok? {
      ChecksOwned(own, db, cmd, env);
      PerformSound(own, db, Check(db, cmd, env).value, env);
    }
  }

  // ----- A gig alone -----

  lemma PositionsAreWeak<T(!new)>()
    ensures StrictWeak(ByPosition<T>())
  {
  }

  lemma {:induction false} RowsOfGig<T>(table: seq<Child<T>>, id: string)
    ensures forall i :: 0 <= i < |RowsOf(table, id)| ==> RowsOf(table, id)[i].gigId == id
  {
    if table != [] {
      RowsOfGig(table[1..], id);
    }
  }

  /** What is read of a gig reads back the same when it is all there is. */
  lemma ReadAlone<T(!new)>(table: seq<Child<T>>, id: string)
    ensures Read(Read(table, id), id) == Read(table, id) && Others(Read(table, id), id) == []
  {
    var rows := RowsOf(table, id);
    var sorted := Read(table, id);
    RowsOfGig(table, id);
    SortMultiset(ByPosition(), rows);
    forall i | 0 <= i < |sorted|
      ensures sorted[i].gigId == id
    {
      assert sorted[i] in multiset(sorted);
      assert sorted[i] in rows;
    }
    AllOfOneGig(sorted, id, id);
    PositionsAreWeak<T>();
    SortSorted(ByPosition(), rows);
    SortedIsFixed(ByPosition(), sorted);
  }

  lemma {:induction false} NoRows<T>(owner: string -> string, table: seq<Child<T>>, gigs: map<string, GigRow>, id: string)
    requires RowsOwned(owner, table, gigs) && id !in gigs
    ensures RowsOf(table, id) == []
  {
    if table != [] {
      assert forall i :: 0 <= i < |table[1..]| ==> table[1..][i] == table[i + 1];
      NoRows(owner, table[1..], gigs, id);
      assert table[0].gigId in gigs;
    }
  }

  /** The gig loaded shows all that the tables hold of it. */
  lemma OnlyShows(own: Owners, db: DB, id: string)
    requires Sound(own, db)
    ensures SameGig(Only(GigView(db, id)), db, id) && OwnRows(Only(GigView(db, id)))
    ensures var alone := Only(GigView(db, id));
            Others(alone.packages, id) == [] && Others(alone.questions, id) == [] && Others(alone.media, id) == []
  {
    if id in db.gigs {
      ReadAlone(db.packages, id);
      ReadAlone(db.questions, id);
      ReadAlone(db.media, id);
    } else {
      NoRows(own.packages, db.packages, db.gigs, id);
      NoRows(own.questions, db.questions, db.gigs, id);
      NoRows(own.media, db.media, db.gigs, id);
    }
  }
}
