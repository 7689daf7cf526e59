/** Replay: a sequence of recovery commands on one gig that succeeded succeeds again and changes nothing. */
module RecoveryReplay {
  import opened Text
  import opened Wrappers
  import opened ChildTable
  import opened Domain
  import opened Commands
  import opened WriteModel
  import opened GigCommands
  import opened RecoveryHandler
  import opened WriteInvariant

  /** The gig and the owner that all commands of a sequence name. */
  datatype Target = Target(id: string, owner: string)

  predicate Targets(t: Target, cmd: Command) {
    && t.id != "" && t.owner != ""
    && TrimSpace(cmd.freelancerId) == t.owner
    && !cmd.ReplaceMedia?
    && if cmd.CreateDraft? then cmd.gigId == t.id else TrimSpace(cmd.gigId) == t.id
  }

  /** The primary key: a gig's row carries its own id. */
  predicate OwnRow(db: DB, id: string) {
    id in db.gigs ==> db.gigs[id].id == id
  }

  /** What a successful command makes of the gig's status. */
  function StatusAfter(cmd: Command, status: Status): Status {
    if cmd.CreateDraft? then if status == Published then Published else Draft
    else if cmd.Publish? && status == Draft then Published
    else status
  }

  // ----- What a command writes, whatever the state -----

  function NoId(): nat -> string {
    (i: nat) => ""
  }

  function BasicPart(t: Target, cmd: Command, slugify: string -> string): Option<BasicInfo> {
    if cmd.UpdateBasicInfo? && CheckBasicInfo(cmd, t.id, slugify).Ok? then Some(CheckBasicInfo(cmd, t.id, slugify).value) else None
  }

  function PackagePart(t: Target, cmd: Command): Option<seq<PackageRow>> {
    if cmd.ReplacePackages? && CheckPackages(cmd.packages, true).Ok?
    then Some(NewRows(t.id, CheckPackages(cmd.packages, true).value, NoId())) else None
  }

  function QuestionPart(t: Target, cmd: Command): Option<seq<QuestionRow>> {
    if cmd.ReplaceQuestions? && CheckQuestions(cmd.questions, true).Ok?
    then Some(NewRows(t.id, CheckQuestions(cmd.questions, true).value, NoId())) else None
  }

  /** The condition for the write to succeed, whatever the gig's own rows are. */
  ghost predicate Fits(t: Target, cmd: Command, slugify: string -> string, packages: seq<PackageRow>, questions: seq<QuestionRow>) {
    match cmd
    case CreateDraft(_, _) => true
    case Publish(_, _, _) => true
    case UpdateBasicInfo(_, _, _, _, _, _, _) => BasicPart(t, cmd, slugify).Some?
    case ReplacePackages(_, _, _) =>
      && PackagePart(t, cmd).Some?
      && FreeIds(packages, PackagePart(t, cmd).value)
      && DistinctTiers(CheckPackages(cmd.packages, true).value)
    case ReplaceQuestions(_, _, _) => QuestionPart(t, cmd).Some? && FreeIds(questions, QuestionPart(t, cmd).value)
    case ReplaceMedia(_, _, _) => false
  }

  /** The gig's row before a command, or the empty draft its creation starts from. */
  function RowOf(db: DB, t: Target): GigRow {
    if t.id in db.gigs then db.gigs[t.id] else EmptyDraft(t.id, t.owner)
  }

  function BasicOf(row: GigRow): (BasicInfo, bool) {
    (BasicInfo(row.title, row.shortInfo, row.slug, row.description, row.categoryId, row.currency), row.basicInfoCompleted)
  }

  function MediaOf(row: GigRow): (string, bool) {
    (row.pictureFileId, row.mediaCompleted)
  }

  function BasicAfter(part: Option<BasicInfo>, before: (BasicInfo, bool)): (BasicInfo, bool) {
    if part.Some? then (part.value, true) else before
  }

  function TableAfter<T>(part: Option<seq<Child<T>>>, id: string, table: seq<Child<T>>): seq<Child<T>> {
    if part.Some? then Others(table, id) + part.value else table
  }

  /** What the sequence of parts makes of the state it starts from: the parts of the gig's row and the child
      tables are replaced, all else of them and of other gigs stays. Status, seller name and owner are open. */
  ghost predicate PartsWritten(t: Target, x: DB, basic: Option<BasicInfo>, packages: Option<seq<PackageRow>>,
                               questions: Option<seq<QuestionRow>>, y: DB) {
    && t.id in y.gigs
    && y.gigs == x.gigs[t.id := y.gigs[t.id]]
    && y.gigs[t.id].id == RowOf(x, t).id
    && BasicOf(y.gigs[t.id]) == BasicAfter(basic, BasicOf(RowOf(x, t)))
    && y.gigs[t.id].packagesCompleted == (packages.Some? || RowOf(x, t).packagesCompleted)
    && y.gigs[t.id].requirementsCompleted == (questions.Some? || RowOf(x, t).requirementsCompleted)
    && MediaOf(y.gigs[t.id]) == MediaOf(RowOf(x, t)) && y.media == x.media
    && y.packages == TableAfter(packages, t.id, x.packages)
    && y.questions == TableAfter(questions, t.id, x.questions)
  }

  /** One command wrote its parts. */
  ghost predicate Wrote(t: Target, x: DB, cmd: Command, slugify: string -> string, y: DB) {
    PartsWritten(t, x, BasicPart(t, cmd, slugify), PackagePart(t, cmd), QuestionPart(t, cmd), y)
  }

  /** Owner, seller name, status and publication time are the same. */
  predicate SameStanding(a: GigRow, b: GigRow) {
    a.freelancerId == b.freelancerId && a.sellerUsername == b.sellerUsername && a.status == b.status && a.publishedAt == b.publishedAt
  }

  // ----- The first run: what success of one command says -----

  lemma {:induction false} QuestionIds(questions: seq<QuestionInput>)
    requires CheckQuestions(questions, true).Ok?
    ensures forall i :: 0 <= i < |CheckQuestions(questions, true).value| ==> CheckQuestions(questions, true).value[i].id != ""
  {
    if questions != [] {
      QuestionIds(questions[1..]);
      assert TrimSpace([]) == [];
    }
  }

  lemma PackageIds(packages: seq<PackageInput>)
    requires CheckPackages(packages, true).Ok?
    ensures forall i :: 0 <= i < |CheckPackages(packages, true).value| ==> CheckPackages(packages, true).value[i].id != ""
  {
    NormalizedShape(packages, true);
  }

  /** With every id supplied, none is generated. */
  lemma RowsAreGiven<T>(id: string, items: seq<Input<T>>, generated: nat -> string)
    requires forall i :: 0 <= i < |items| ==> items[i].id != ""
    ensures NewRows(id, items, generated) == NewRows(id, items, NoId())
  {
  }

  /** What a successful command tells of the state it met and the state it left. */
  ghost predicate Succeeded(t: Target, x: DB, cmd: Command, slugify: string -> string, y: DB) {
    && Wrote(t, x, cmd, slugify, y)
    && Fits(t, cmd, slugify, Others(x.packages, t.id), Others(x.questions, t.id))
    && (!cmd.CreateDraft? ==> t.id in x.gigs)
    && OwnRow(y, t.id)
    && y.gigs[t.id].freelancerId == t.owner
    && y.gigs[t.id].status == StatusAfter(cmd, RowOf(x, t).status)
  }

  lemma OwnedIs(t: Target, x: DB, cmd: Command)
    requires Targets(t, cmd) && !cmd.CreateDraft?
    ensures OwnedGig(x, cmd.gigId, cmd.freelancerId).Ok? <==> t.id in x.gigs && x.gigs[t.id].freelancerId == t.owner
    ensures OwnedGig(x, cmd.gigId, cmd.freelancerId).Ok? ==>
              OwnedGig(x, cmd.gigId, cmd.freelancerId).value == GigAt(x, t.id)
    ensures OwnedGig(x, cmd.gigId, cmd.freelancerId).Err? ==> OwnedGig(x, cmd.gigId, cmd.freelancerId) != Err(GigAlreadyPublished)
  {
  }

  lemma OnceDraft(t: Target, x: DB, cmd: Command, out: Outside)
    requires cmd.CreateDraft? && Targets(t, cmd) && OwnRow(x, t.id) && HandleCommand(x, cmd, out).1.Ok?
    ensures Succeeded(t, x, cmd, out.env.slugify, HandleCommand(x, cmd, out).0)
  {
  }

  lemma OnceBasicInfo(t: Target, x: DB, cmd: Command, out: Outside)
    requires cmd.UpdateBasicInfo? && Targets(t, cmd) && OwnRow(x, t.id) && HandleCommand(x, cmd, out).1.Ok?
    ensures Succeeded(t, x, cmd, out.env.slugify, HandleCommand(x, cmd, out).0)
  {
    OwnedIs(t, x, cmd);
  }

  lemma OncePackages(t: Target, x: DB, cmd: Command, out: Outside)
    requires cmd.ReplacePackages? && Targets(t, cmd) && OwnRow(x, t.id) && HandleCommand(x, cmd, out).1.Ok?
    ensures Succeeded(t, x, cmd, out.env.slugify, HandleCommand(x, cmd, out).0)
  {
    OwnedIs(t, x, cmd);
    var items := CheckPackages(cmd.packages, true).value;
    PackageIds(cmd.packages);
    RowsAreGiven(t.id, items, out.env.generated);
    PackagesAllOrNothing(x, t.id, items, out.env.generated, out.env.faults, t.id);
  }

  lemma OnceQuestions(t: Target, x: DB, cmd: Command, out: Outside)
    requires cmd.ReplaceQuestions? && Targets(t, cmd) && OwnRow(x, t.id) && HandleCommand(x, cmd, out).1.Ok?
    ensures Succeeded(t, x, cmd, out.env.slugify, HandleCommand(x, cmd, out).0)
  {
    OwnedIs(t, x, cmd);
    var items := CheckQuestions(cmd.questions, true).value;
    QuestionIds(cmd.questions);
    RowsAreGiven(t.id, items, out.env.generated);
    QuestionsAllOrNothing(x, t.id, items, out.env.generated, out.env.faults, t.id);
  }

  /** Only a gig that is no draft is reported as published already. */
  /** The first half of a publication: it is refused, found done, or goes on to write. */
  lemma PublishCheckOutcomes(t: Target, x: DB, cmd: Command, env: Env)
    requires cmd.Publish? && Targets(t, cmd) && OwnRow(x, t.id)
    ensures Check(x, cmd, env).Ok? ==>
              Check(x, cmd, env).value == WritePublish(t.id, TrimSpace(cmd.username)) && t.id in x.gigs && x.gigs[t.id].status == Draft
    ensures Check(x, cmd, env).Ok? || Check(x, cmd, env) == Err(GigAlreadyPublished) ==>
              t.id in x.gigs && x.gigs[t.id].freelancerId == t.owner
    ensures Check(x, cmd, env) == Err(GigAlreadyPublished) ==> x.gigs[t.id].status != Draft
  {
    OwnedIs(t, x, cmd);
    if t.id in x.gigs {
      PackagesNotPublished(RowData(Read(x.packages, t.id)), 0);
    }
  }

  /** A publication that succeeds either finds a gig that is no draft or publishes a draft. */
  lemma PublishOutcomes(t: Target, x: DB, cmd: Command, out: Outside)
    requires cmd.Publish? && Targets(t, cmd) && OwnRow(x, t.id) && HandleCommand(x, cmd, out).1.Ok?
    ensures t.id in x.gigs && x.gigs[t.id].freelancerId == t.owner
    ensures var y := HandleCommand(x, cmd, out).0;
            || (y == x && x.gigs[t.id].status != Draft)
            || (x.gigs[t.id].status == Draft
                && y == Perform(x, WritePublish(t.id, TrimSpace(cmd.username)), out.env.(recovery := true)).0
                && Perform(x, WritePublish(t.id, TrimSpace(cmd.username)), out.env.(recovery := true)).1.Ok?)
  {
    PublishCheckOutcomes(t, x, cmd, out.env.(recovery := true));
    PerformNotPublished(x, t.id, TrimSpace(cmd.username), out.env.(recovery := true));
  }

  lemma OncePublish(t: Target, x: DB, cmd: Command, out: Outside)
    requires cmd.Publish? && Targets(t, cmd) && OwnRow(x, t.id) && HandleCommand(x, cmd, out).1.Ok?
    ensures Succeeded(t, x, cmd, out.env.slugify, HandleCommand(x, cmd, out).0)
  {
    PublishOutcomes(t, x, cmd, out);
    PublishWrites(x, t.id, TrimSpace(cmd.username), out.env.(recovery := true));
    SucceededPublish(t, x, cmd, out.env.slugify, HandleCommand(x, cmd, out).0);
  }

  lemma SucceededPublish(t: Target, x: DB, cmd: Command, slugify: string -> string, y: DB)
    requires cmd.Publish? && OwnRow(x, t.id) && t.id in x.gigs && x.gigs[t.id].freelancerId == t.owner
    requires t.id in y.gigs && y == x.(gigs := x.gigs[t.id := y.gigs[t.id]])
    requires y.gigs[t.id].status == StatusAfter(cmd, x.gigs[t.id].status)
    requires y.gigs[t.id] == x.gigs[t.id].(status := y.gigs[t.id].status, publishedAt := y.gigs[t.id].publishedAt,
                                           sellerUsername := y.gigs[t.id].sellerUsername)
    ensures Succeeded(t, x, cmd, slugify, y)
  {
  }

  lemma Once(t: Target, x: DB, cmd: Command, out: Outside)
    requires Targets(t, cmd) && OwnRow(x, t.id) && HandleCommand(x, cmd, out).1.Ok?
    ensures Succeeded(t, x, cmd, out.env.slugify, HandleCommand(x, cmd, out).0)
  {
    match cmd
    case CreateDraft(_, _) => OnceDraft(t, x, cmd, out);
    case UpdateBasicInfo(_, _, _, _, _, _, _) => OnceBasicInfo(t, x, cmd, out);
    case ReplacePackages(_, _, _) => OncePackages(t, x, cmd, out);
    case ReplaceQuestions(_, _, _) => OnceQuestions(t, x, cmd, out);
    case ReplaceMedia(_, _, _) =>
    case Publish(_, _, _) => OncePublish(t, x, cmd, out);
  }

  // ----- The second run: one command succeeds again -----

  ghost predicate Repeatable(t: Target, x: DB, cmd: Command, slugify: string -> string) {
    && t.id in x.gigs && OwnRow(x, t.id) && x.gigs[t.id].freelancerId == t.owner
    && Fits(t, cmd, slugify, Others(x.packages, t.id), Others(x.questions, t.id))
    && StatusAfter(cmd, x.gigs[t.id].status) == x.gigs[t.id].status
  }

  ghost predicate Repeated(t: Target, x: DB, cmd: Command, slugify: string -> string, y: DB)
    requires t.id in x.gigs
  {
    Wrote(t, x, cmd, slugify, y) && SameStanding(x.gigs[t.id], y.gigs[t.id])
  }

  lemma AgainDraft(t: Target, x: DB, cmd: Command, out: Outside)
    requires cmd.CreateDraft? && Targets(t, cmd) && Works(out) && Repeatable(t, x, cmd, out.env.slugify)
    ensures HandleCommand(x, cmd, out).1.Ok? && Repeated(t, x, cmd, out.env.slugify, HandleCommand(x, cmd, out).0)
  {
  }

  lemma AgainBasicInfo(t: Target, x: DB, cmd: Command, out: Outside)
    requires cmd.UpdateBasicInfo? && Targets(t, cmd) && Works(out) && Repeatable(t, x, cmd, out.env.slugify)
    ensures HandleCommand(x, cmd, out).1.Ok? && Repeated(t, x, cmd, out.env.slugify, HandleCommand(x, cmd, out).0)
  {
    OwnedIs(t, x, cmd);
  }

  lemma AgainPackages(t: Target, x: DB, cmd: Command, out: Outside)
    requires cmd.ReplacePackages? && Targets(t, cmd) && Works(out) && Repeatable(t, x, cmd, out.env.slugify)
    ensures HandleCommand(x, cmd, out).1.Ok? && Repeated(t, x, cmd, out.env.slugify, HandleCommand(x, cmd, out).0)
  {
    OwnedIs(t, x, cmd);
    var items := CheckPackages(cmd.packages, true).value;
    PackageIds(cmd.packages);
    RowsAreGiven(t.id, items, out.env.generated);
    PackagesAllOrNothing(x, t.id, items, out.env.generated, out.env.faults, t.id);
  }

  lemma AgainQuestions(t: Target, x: DB, cmd: Command, out: Outside)
    requires cmd.ReplaceQuestions? && Targets(t, cmd) && Works(out) && Repeatable(t, x, cmd, out.env.slugify)
    ensures HandleCommand(x, cmd, out).1.Ok? && Repeated(t, x, cmd, out.env.slugify, HandleCommand(x, cmd, out).0)
  {
    OwnedIs(t, x, cmd);
    var items := CheckQuestions(cmd.questions, true).value;
    QuestionIds(cmd.questions);
    RowsAreGiven(t.id, items, out.env.generated);
    QuestionsAllOrNothing(x, t.id, items, out.env.generated, out.env.faults, t.id);
  }

  lemma AgainPublish(t: Target, x: DB, cmd: Command, out: Outside)
    requires cmd.Publish? && Targets(t, cmd) && Works(out) && Repeatable(t, x, cmd, out.env.slugify)
    ensures HandleCommand(x, cmd, out).1.Ok? && Repeated(t, x, cmd, out.env.slugify, HandleCommand(x, cmd, out).0)
  {
    OwnedIs(t, x, cmd);
  }

  lemma Again(t: Target, x: DB, cmd: Command, out: Outside)
    requires Targets(t, cmd) && Works(out) && Repeatable(t, x, cmd, out.env.slugify)
    ensures HandleCommand(x, cmd, out).1.Ok? && Repeated(t, x, cmd, out.env.slugify, HandleCommand(x, cmd, out).0)
  {
    match cmd
    case CreateDraft(_, _) => AgainDraft(t, x, cmd, out);
    case UpdateBasicInfo(_, _, _, _, _, _, _) => AgainBasicInfo(t, x, cmd, out);
    case ReplacePackages(_, _, _) => AgainPackages(t, x, cmd, out);
    case ReplaceQuestions(_, _, _) => AgainQuestions(t, x, cmd, out);
    case ReplaceMedia(_, _, _) =>
    case Publish(_, _, _) => AgainPublish(t, x, cmd, out);
  }

  // ----- Sequences -----

  /** The last basic info among the first n commands. */
  function LastBasic(t: Target, cmds: seq<Command>, slugify: string -> string, n: nat): Option<BasicInfo>
    requires n <= |cmds|
  {
    if n == 0 then None
    else if BasicPart(t, cmds[n - 1], slugify).Some? then BasicPart(t, cmds[n - 1], slugify)
    else LastBasic(t, cmds, slugify, n - 1)
  }

  function LastPackages(t: Target, cmds: seq<Command>, n: nat): (part: Option<seq<PackageRow>>)
    requires n <= |cmds|
    ensures OfGig(part, t.id)
  {
    if n == 0 then None
    else if PackagePart(t, cmds[n - 1]).Some? then PackagePart(t, cmds[n - 1])
    else LastPackages(t, cmds, n - 1)
  }

  function LastQuestions(t: Target, cmds: seq<Command>, n: nat): (part: Option<seq<QuestionRow>>)
    requires n <= |cmds|
    ensures OfGig(part, t.id)
  {
    if n == 0 then None
    else if QuestionPart(t, cmds[n - 1]).Some? then QuestionPart(t, cmds[n - 1])
    else LastQuestions(t, cmds, n - 1)
  }

  predicate OfGig<T>(part: Option<seq<Child<T>>>, id: string) {
    part.Some? ==> forall i :: 0 <= i < |part.value| ==> part.value[i].gigId == id
  }

  /** The state shows the last of every part the first n commands write. */
  ghost predicate LastsWritten(t: Target, x: DB, cmds: seq<Command>, slugify: string -> string, n: nat, y: DB)
    requires n <= |cmds|
  {
    PartsWritten(t, x, LastBasic(t, cmds, slugify, n), LastPackages(t, cmds, n), LastQuestions(t, cmds, n), y)
  }

  ghost predicate StepSucceeds(x: DB, cmd: Command, out: Outside, slugify: string -> string, y: DB) {
    out.env.slugify == slugify && HandleCommand(x, cmd, out) == (y, Ok(()))
  }

  /** A run in which every command succeeds. */
  ghost predicate AllSucceed(states: seq<DB>, cmds: seq<Command>, outs: seq<Outside>, slugify: string -> string) {
    && |states| == |cmds| + 1 && |outs| == |cmds|
    && FirstSucceed(states, cmds, outs, slugify, |cmds|)
  }

  ghost predicate FirstSucceed(states: seq<DB>, cmds: seq<Command>, outs: seq<Outside>, slugify: string -> string, n: nat)
    requires |states| > n && |cmds| >= n && |outs| >= n
  {
    forall i :: 0 <= i < n ==> SucceedsAt(states, cmds, outs, slugify, i)
  }

  ghost predicate SucceedsAt(states: seq<DB>, cmds: seq<Command>, outs: seq<Outside>, slugify: string -> string, i: nat)
    requires i < |cmds| && i < |outs| && i + 1 < |states|
  {
    StepSucceeds(states[i], cmds[i], outs[i], slugify, states[i + 1])
  }

  lemma OnceStep(t: Target, x: DB, cmd: Command, out: Outside, slugify: string -> string, y: DB)
    requires StepSucceeds(x, cmd, out, slugify, y) && Targets(t, cmd) && OwnRow(x, t.id)
    ensures Succeeded(t, x, cmd, slugify, y)
  {
    Once(t, x, cmd, out);
  }

  lemma AgainStep(t: Target, x: DB, cmd: Command, out: Outside, slugify: string -> string) returns (y: DB)
    requires Targets(t, cmd) && Works(out) && out.env.slugify == slugify && Repeatable(t, x, cmd, slugify)
    ensures StepSucceeds(x, cmd, out, slugify, y) && Repeated(t, x, cmd, slugify, y)
  {
    Again(t, x, cmd, out);
    y := HandleCommand(x, cmd, out).0;
  }

  /** Whatever a part put for the gig, the other gigs' rows stay. */
  lemma TableKeepsOthers<T>(part: Option<seq<Child<T>>>, id: string, table: seq<Child<T>>)
    requires OfGig(part, id)
    ensures Others(TableAfter(part, id, table), id) == Others(table, id)
  {
    if part.Some? {
      Replaced(table, id, part.value, id);
    }
  }

  lemma OneMore(t: Target, x: DB, cmds: seq<Command>, slugify: string -> string, n: nat, y: DB, z: DB)
    requires n < |cmds| && LastsWritten(t, x, cmds, slugify, n, y) && Wrote(t, y, cmds[n], slugify, z)
    ensures LastsWritten(t, x, cmds, slugify, n + 1, z)
  {
    OthersAfter(t, x, cmds, slugify, n, y);
    assert x.gigs[t.id := y.gigs[t.id]][t.id := z.gigs[t.id]] == x.gigs[t.id := z.gigs[t.id]];
  }

  lemma OthersAfter(t: Target, x: DB, cmds: seq<Command>, slugify: string -> string, n: nat, y: DB)
    requires n <= |cmds| && LastsWritten(t, x, cmds, slugify, n, y)
    ensures Others(y.packages, t.id) == Others(x.packages, t.id) && Others(y.questions, t.id) == Others(x.questions, t.id)
  {
    TableKeepsOthers(LastPackages(t, cmds, n), t.id, x.packages);
    TableKeepsOthers(LastQuestions(t, cmds, n), t.id, x.questions);
  }

  ghost predicate AllFit(t: Target, x: DB, cmds: seq<Command>, slugify: string -> string, n: nat)
    requires n <= |cmds|
  {
    forall i :: 0 <= i < n ==> FitsAt(t, x, cmds, slugify, i)
  }

  ghost predicate FitsAt(t: Target, x: DB, cmds: seq<Command>, slugify: string -> string, i: nat)
    requires i < |cmds|
  {
    Fits(t, cmds[i], slugify, Others(x.packages, t.id), Others(x.questions, t.id))
  }

  /** The status that the first n commands lead to. */
  function StatusOver(cmds: seq<Command>, n: nat, status: Status): Status
    requires n <= |cmds|
  {
    if n == 0 then status else StatusAfter(cmds[n - 1], StatusOver(cmds, n - 1, status))
  }

  /** No command moves the status. */
  predicate AllIdle(cmds: seq<Command>, status: Status) {
    forall i :: 0 <= i < |cmds| ==> StatusAfter(cmds[i], status) == status
  }

  /** What the first n commands of the first run leave. */
  ghost predicate Left(t: Target, x: DB, cmds: seq<Command>, slugify: string -> string, n: nat, y: DB)
    requires n <= |cmds|
  {
    && LastsWritten(t, x, cmds, slugify, n, y)
    && AllFit(t, x, cmds, slugify, n)
    && OwnRow(y, t.id)
    && y.gigs[t.id].freelancerId == t.owner
    && y.gigs[t.id].status == StatusOver(cmds, n, RowOf(x, t).status)
  }

  lemma LeftOnce(t: Target, x: DB, cmds: seq<Command>, slugify: string -> string, y: DB)
    requires cmds != [] && Succeeded(t, x, cmds[0], slugify, y)
    ensures Left(t, x, cmds, slugify, 1, y)
  {
  }

  lemma LeftMore(t: Target, x: DB, cmds: seq<Command>, slugify: string -> string, n: nat, y: DB, z: DB)
    requires n < |cmds| && Left(t, x, cmds, slugify, n, y) && Succeeded(t, y, cmds[n], slugify, z)
    ensures Left(t, x, cmds, slugify, n + 1, z)
  {
    OneMore(t, x, cmds, slugify, n, y, z);
    OthersAfter(t, x, cmds, slugify, n, y);
    assert FitsAt(t, x, cmds, slugify, n);
  }

  lemma StepOf(states: seq<DB>, cmds: seq<Command>, outs: seq<Outside>, slugify: string -> string, n: nat)
    requires AllSucceed(states, cmds, outs, slugify) && n < |cmds|
    ensures StepSucceeds(states[n], cmds[n], outs[n], slugify, states[n + 1])
  {
    assert SucceedsAt(states, cmds, outs, slugify, n);
  }

  lemma SucceededAt(t: Target, states: seq<DB>, cmds: seq<Command>, outs: seq<Outside>, slugify: string -> string, n: nat)
    requires AllSucceed(states, cmds, outs, slugify) && n < |cmds|
    requires (forall i :: 0 <= i < |cmds| ==> Targets(t, cmds[i])) && OwnRow(states[n], t.id)
    ensures Succeeded(t, states[n], cmds[n], slugify, states[n + 1])
  {
    StepOf(states, cmds, outs, slugify, n);
    OnceStep(t, states[n], cmds[n], outs[n], slugify, states[n + 1]);
  }

  lemma {:induction false} FirstRun(t: Target, states: seq<DB>, cmds: seq<Command>, outs: seq<Outside>, slugify: string -> string, n: nat)
    requires AllSucceed(states, cmds, outs, slugify) && 0 < n <= |cmds|
    requires (forall i :: 0 <= i < |cmds| ==> Targets(t, cmds[i])) && OwnRow(states[0], t.id)
    ensures Left(t, states[0], cmds, slugify, n, states[n])
    decreases n
  {
    if n == 1 {
      SucceededAt(t, states, cmds, outs, slugify, 0);
      LeftOnce(t, states[0], cmds, slugify, states[1]);
    } else {
      FirstRun(t, states, cmds, outs, slugify, n - 1);
      SucceededAt(t, states, cmds, outs, slugify, n - 1);
      LeftMore(t, states[0], cmds, slugify, n - 1, states[n - 1], states[n]);
    }
  }

  /** The second run's start: the gig is there, and all commands fit it. */
  ghost predicate Ready(t: Target, z: DB, cmds: seq<Command>, slugify: string -> string) {
    && t.id in z.gigs && OwnRow(z, t.id) && z.gigs[t.id].freelancerId == t.owner
    && AllFit(t, z, cmds, slugify, |cmds|) && AllIdle(cmds, z.gigs[t.id].status)
  }

  lemma LeftIsReady(t: Target, x: DB, cmds: seq<Command>, slugify: string -> string, z: DB)
    requires Left(t, x, cmds, slugify, |cmds|, z) && AllIdle(cmds, z.gigs[t.id].status)
    ensures Ready(t, z, cmds, slugify)
  {
    OthersAfter(t, x, cmds, slugify, |cmds|, z);
    forall i | 0 <= i < |cmds|
      ensures FitsAt(t, z, cmds, slugify, i)
    {
      assert FitsAt(t, x, cmds, slugify, i);
    }
  }

  /** Where the second run stands after n of the commands. */
  ghost predicate Standing(t: Target, z: DB, cmds: seq<Command>, slugify: string -> string, n: nat, y: DB)
    requires n <= |cmds|
  {
    && t.id in z.gigs
    && LastsWritten(t, z, cmds, slugify, n, y)
    && SameStanding(z.gigs[t.id], y.gigs[t.id])
  }

  lemma StandingIsRepeatable(t: Target, z: DB, cmds: seq<Command>, slugify: string -> string, n: nat, y: DB)
    requires Ready(t, z, cmds, slugify) && n < |cmds| && Standing(t, z, cmds, slugify, n, y)
    ensures Repeatable(t, y, cmds[n], slugify)
  {
    assert FitsAt(t, z, cmds, slugify, n);
    OthersAfter(t, z, cmds, slugify, n, y);
  }

  lemma StandingOneMore(t: Target, z: DB, cmds: seq<Command>, slugify: string -> string, n: nat, y: DB, w: DB)
    requires n < |cmds| && Standing(t, z, cmds, slugify, n, y) && Repeated(t, y, cmds[n], slugify, w)
    ensures Standing(t, z, cmds, slugify, n + 1, w)
  {
    OneMore(t, z, cmds, slugify, n, y, w);
  }

  /** A second run of commands on one gig, with nothing failing from outside. */
  ghost predicate Repeats(t: Target, cmds: seq<Command>, outs: seq<Outside>, slugify: string -> string) {
    && |outs| == |cmds|
    && (forall i :: 0 <= i < |cmds| ==> Targets(t, cmds[i]))
    && (forall i :: 0 <= i < |cmds| ==> Works(outs[i]) && outs[i].env.slugify == slugify)
  }

  lemma RunsOn(t: Target, z: DB, cmds: seq<Command>, outs: seq<Outside>, slugify: string -> string, n: nat, y: DB) returns (w: DB)
    requires Repeats(t, cmds, outs, slugify) && Ready(t, z, cmds, slugify)
    requires n < |cmds| && Standing(t, z, cmds, slugify, n, y)
    ensures StepSucceeds(y, cmds[n], outs[n], slugify, w) && Standing(t, z, cmds, slugify, n + 1, w)
  {
    StandingIsRepeatable(t, z, cmds, slugify, n, y);
    w := AgainStep(t, y, cmds[n], outs[n], slugify);
    StandingOneMore(t, z, cmds, slugify, n, y, w);
  }

  lemma FirstSucceedMore(before: seq<DB>, w: DB, cmds: seq<Command>, outs: seq<Outside>, slugify: string -> string, n: nat)
    requires |before| == n + 1 && n < |cmds| == |outs| && FirstSucceed(before, cmds, outs, slugify, n)
    requires StepSucceeds(before[n], cmds[n], outs[n], slugify, w)
    ensures FirstSucceed(before + [w], cmds, outs, slugify, n + 1)
  {
    var all := before + [w];
    forall i | 0 <= i <= n
      ensures SucceedsAt(all, cmds, outs, slugify, i)
    {
      assert all[i] == before[i];
      if i < n {
        assert SucceedsAt(before, cmds, outs, slugify, i);
        assert all[i + 1] == before[i + 1];
      }
    }
  }

  ghost predicate RunsTo(t: Target, z: DB, cmds: seq<Command>, outs: seq<Outside>, slugify: string -> string, n: nat, states: seq<DB>)
    requires n <= |cmds| == |outs|
  {
    && |states| == n + 1 && states[0] == z && FirstSucceed(states, cmds, outs, slugify, n)
    && forall i :: 0 <= i <= n ==> Standing(t, z, cmds, slugify, i, states[i])
  }

  lemma RunsOneMore(t: Target, z: DB, cmds: seq<Command>, outs: seq<Outside>, slugify: string -> string, n: nat, before: seq<DB>)
      returns (states: seq<DB>)
    requires Repeats(t, cmds, outs, slugify) && Ready(t, z, cmds, slugify)
    requires n < |cmds| && RunsTo(t, z, cmds, outs, slugify, n, before)
    ensures RunsTo(t, z, cmds, outs, slugify, n + 1, states)
  {
    var w := RunsOn(t, z, cmds, outs, slugify, n, before[n]);
    FirstSucceedMore(before, w, cmds, outs, slugify, n);
    StandsMore(t, z, cmds, slugify, n, before, w);
    states := before + [w];
  }

  lemma StandsMore(t: Target, z: DB, cmds: seq<Command>, slugify: string -> string, n: nat, before: seq<DB>, w: DB)
    requires n < |cmds| && |before| == n + 1 && forall i :: 0 <= i <= n ==> Standing(t, z, cmds, slugify, i, before[i])
    requires Standing(t, z, cmds, slugify, n + 1, w)
    ensures forall i :: 0 <= i <= n + 1 ==> Standing(t, z, cmds, slugify, i, (before + [w])[i])
  {
    var all := before + [w];
    forall i | 0 <= i <= n + 1
      ensures Standing(t, z, cmds, slugify, i, all[i])
    {
      assert all[i] == if i <= n then before[i] else w;
      if i <= n {
        assert Standing(t, z, cmds, slugify, i, before[i]);
      }
    }
  }

  lemma RunsNowhere(t: Target, z: DB, cmds: seq<Command>, outs: seq<Outside>, slugify: string -> string) returns (states: seq<DB>)
    requires |outs| == |cmds| && t.id in z.gigs
    ensures RunsTo(t, z, cmds, outs, slugify, 0, states)
  {
    states := [z];
    assert z.gigs[t.id := z.gigs[t.id]] == z.gigs;
  }

  /** From a state that fits all commands, they all succeed, and status, owner and name stay. */
  lemma {:induction false} SecondRun(t: Target, z: DB, cmds: seq<Command>, outs: seq<Outside>, slugify: string -> string, n: nat)
      returns (states: seq<DB>)
    requires Repeats(t, cmds, outs, slugify) && Ready(t, z, cmds, slugify) && n <= |cmds|
    ensures RunsTo(t, z, cmds, outs, slugify, n, states)
    decreases n
  {
    if n == 0 {
      states := RunsNowhere(t, z, cmds, outs, slugify);
    } else {
      var before := SecondRun(t, z, cmds, outs, slugify, n - 1);
      states := RunsOneMore(t, z, cmds, outs, slugify, n - 1, before);
    }
  }

  /** Writing the same lasts over a state that shows them changes nothing. */
  lemma LastsAreThere(t: Target, x: DB, cmds: seq<Command>, slugify: string -> string, z: DB, w: DB)
    requires LastsWritten(t, x, cmds, slugify, |cmds|, z) && LastsWritten(t, z, cmds, slugify, |cmds|, w)
    requires SameStanding(z.gigs[t.id], w.gigs[t.id])
    ensures w == z
  {
    OthersAfter(t, x, cmds, slugify, |cmds|, z);
    assert z.gigs[t.id := z.gigs[t.id]] == z.gigs;
  }

  // ----- When a replay is exact -----

  /** Handling the commands again from z, in these surroundings, succeeds throughout and ends in z. */
  ghost predicate Exact(z: DB, cmds: seq<Command>, again: seq<Outside>, slugify: string -> string) {
    exists replayed: seq<DB> :: ReplaysTo(z, cmds, again, slugify, replayed)
  }

  ghost predicate ReplaysTo(z: DB, cmds: seq<Command>, again: seq<Outside>, slugify: string -> string, replayed: seq<DB>) {
    AllSucceed(replayed, cmds, again, slugify) && replayed[0] == z && replayed[|cmds|] == z
  }

  /** A publication stands before the first draft creation, and none behind it. */
  ghost predicate Lapses(cmds: seq<Command>) {
    exists k :: FirstCreation(cmds, k)
                && (exists j :: 0 <= j < k && cmds[j].Publish?)
                && (forall j :: k < j < |cmds| ==> !cmds[j].Publish?)
  }

  predicate FirstCreation(cmds: seq<Command>, k: int) {
    0 <= k < |cmds| && cmds[k].CreateDraft? && forall j :: 0 <= j < k ==> !cmds[j].CreateDraft?
  }

  predicate Live(status: Status) {
    status in {Draft, Published}
  }

  /** A status that has changed does not come back. */
  lemma {:induction false} StatusMovesOn(cmds: seq<Command>, n: nat, status: Status)
    requires n <= |cmds|
    ensures StatusOver(cmds, n, status) == status <==> forall i :: 0 <= i < n ==> StatusAfter(cmds[i], status) == status
    ensures status == Published || StatusOver(cmds, n, status) != status ==> Live(StatusOver(cmds, n, status))
    ensures status == Draft && StatusOver(cmds, n, status) != status ==> StatusOver(cmds, n, status) == Published
  {
    if n > 0 {
      StatusMovesOn(cmds, n - 1, status);
    }
  }

  /** From a draft on: published if and only if some publication is asked for. */
  lemma {:induction false} DraftOver(cmds: seq<Command>, n: nat)
    requires n <= |cmds|
    ensures StatusOver(cmds, n, Draft) == if exists j :: 0 <= j < n && cmds[j].Publish? then Published else Draft
  {
    if n > 0 {
      DraftOver(cmds, n - 1);
    }
  }

  /** A gig that is neither draft nor published becomes what its first creation and the publications behind it say. */
  lemma {:induction false} DormantOver(cmds: seq<Command>, n: nat, k: nat, status: Status)
    requires !Live(status) && n <= |cmds| && k <= |cmds| && (forall j :: 0 <= j < k ==> !cmds[j].CreateDraft?)
    requires k < |cmds| ==> cmds[k].CreateDraft?
    ensures StatusOver(cmds, n, status)
            == if n <= k then status
               else if exists j :: k < j < n && cmds[j].Publish? then Published else Draft
  {
    if n > 0 {
      DormantOver(cmds, n - 1, k, status);
    }
  }

  lemma {:induction false} FindCreation(cmds: seq<Command>, n: nat) returns (k: nat)
    requires n <= |cmds|
    ensures k <= n && (forall j :: 0 <= j < k ==> !cmds[j].CreateDraft?) && (k < n ==> cmds[k].CreateDraft?)
  {
    if n == 0 {
      k := 0;
    } else {
      k := FindCreation(cmds, n - 1);
      if k == n - 1 && !cmds[n - 1].CreateDraft? {
        k := n;
      }
    }
  }

  /** The status a run ends with is moved by a command of the run exactly when the run lapses. */
  lemma IdleUnlessLapsed(cmds: seq<Command>, status: Status)
    ensures AllIdle(cmds, StatusOver(cmds, |cmds|, status)) <==> Live(status) || !Lapses(cmds)
  {
    var n := |cmds|;
    if status == Draft {
      DraftOver(cmds, n);
    } else if status == Published {
      StatusMovesOn(cmds, n, status);
    } else {
      var k := FindCreation(cmds, n);
      DormantOver(cmds, n, k, status);
      if k < n {
        assert FirstCreation(cmds, k);
      }
    }
  }

  lemma ExactIfIdle(t: Target, states: seq<DB>, cmds: seq<Command>, outs: seq<Outside>, again: seq<Outside>, slugify: string -> string)
      returns (replayed: seq<DB>)
    requires cmds != [] && AllSucceed(states, cmds, outs, slugify) && OwnRow(states[0], t.id) && Repeats(t, cmds, again, slugify)
    requires AllIdle(cmds, StatusOver(cmds, |cmds|, RowOf(states[0], t).status))
    ensures ReplaysTo(states[|cmds|], cmds, again, slugify, replayed)
  {
    var z := states[|cmds|];
    FirstRun(t, states, cmds, outs, slugify, |cmds|);
    LeftIsReady(t, states[0], cmds, slugify, z);
    replayed := SecondRun(t, z, cmds, again, slugify, |cmds|);
    LastsAreThere(t, states[0], cmds, slugify, z, replayed[|cmds|]);
  }

  lemma IdleIfExact(t: Target, states: seq<DB>, cmds: seq<Command>, outs: seq<Outside>, again: seq<Outside>, slugify: string -> string,
                    replayed: seq<DB>)
    requires cmds != [] && AllSucceed(states, cmds, outs, slugify) && OwnRow(states[0], t.id) && Repeats(t, cmds, again, slugify)
    requires ReplaysTo(states[|cmds|], cmds, again, slugify, replayed)
    ensures AllIdle(cmds, StatusOver(cmds, |cmds|, RowOf(states[0], t).status))
  {
    var status := StatusOver(cmds, |cmds|, RowOf(states[0], t).status);
    FirstRun(t, states, cmds, outs, slugify, |cmds|);
    FirstRun(t, replayed, cmds, again, slugify, |cmds|);
    StatusMovesOn(cmds, |cmds|, status);
  }

  /** Main result. Let every command of a sequence of draft creations, basic infos, packages, requirements and
      publications of one gig and owner have succeeded, from any state. Handling the whole sequence again, with
      nothing failing from outside, succeeds command by command and leaves the write model exactly as it was,
      the publication time included, if and only if the gig started absent, as a draft or published, or no
      publication stands before the first draft creation without another one behind it. */
  lemma ReplayExactlyUnlessLapsed(t: Target, states: seq<DB>, cmds: seq<Command>, outs: seq<Outside>, again: seq<Outside>,
                                  slugify: string -> string)
    requires AllSucceed(states, cmds, outs, slugify) && OwnRow(states[0], t.id)
    requires Repeats(t, cmds, again, slugify)
    ensures Exact(states[|cmds|], cmds, again, slugify) <==> Live(RowOf(states[0], t).status) || !Lapses(cmds)
  {
    var z := states[|cmds|];
    if cmds == [] {
      assert ReplaysTo(z, cmds, again, slugify, [z]);
    } else {
      IdleUnlessLapsed(cmds, RowOf(states[0], t).status);
      if Exact(z, cmds, again, slugify) {
        var replayed :| ReplaysTo(z, cmds, again, slugify, replayed);
        IdleIfExact(t, states, cmds, outs, again, slugify, replayed);
      }
      if Live(RowOf(states[0], t).status) || !Lapses(cmds) {
        var replayed := ExactIfIdle(t, states, cmds, outs, again, slugify);
      }
    }
  }

  /** Such runs exist: on a paused gig a publication counts as done, and the creation behind it makes a draft of the
      gig, so the replay fails or publishes. */
  lemma PausedIsNotReplayable(t: Target, x: DB, publish: Command, create: Command, out: Outside)
    requires publish.Publish? && create.CreateDraft? && Targets(t, publish) && Targets(t, create) && Works(out)
    requires t.id in x.gigs && x.gigs[t.id].id == t.id && x.gigs[t.id].freelancerId == t.owner && x.gigs[t.id].status == Paused
    ensures var z := HandleCommand(x, create, out).0;
            && AllSucceed([x, x, z], [publish, create], [out, out], out.env.slugify)
            && !Exact(z, [publish, create], [out, out], out.env.slugify)
  {
    var z, cmds := HandleCommand(x, create, out).0, [publish, create];
    OwnedIs(t, x, publish);
    assert SucceedsAt([x, x, z], cmds, [out, out], out.env.slugify, 0);
    assert SucceedsAt([x, x, z], cmds, [out, out], out.env.slugify, 1);
    assert FirstCreation(cmds, 1) && cmds[0].Publish?;
    ReplayExactlyUnlessLapsed(t, [x, x, z], cmds, [out, out], [out, out], out.env.slugify);
  }

  /** Main result, in every state that the write commands reach. */
  lemma ReplayChangesNothing(t: Target, states: seq<DB>, cmds: seq<Command>, outs: seq<Outside>, again: seq<Outside>,
                             slugify: string -> string)
    requires AllSucceed(states, cmds, outs, slugify) && GoodTables(states[0])
    requires Repeats(t, cmds, again, slugify)
    ensures Exact(states[|cmds|], cmds, again, slugify)
  {
    ReplayExactlyUnlessLapsed(t, states, cmds, outs, again, slugify);
  }

  predicate TargetsEnvelope(t: Target, e: Envelope) {
    Decode(e).Ok? && Targets(t, Decode(e).value)
  }

  ghost predicate EnvelopeSucceeds(x: DB, e: Envelope, out: Outside, slugify: string -> string, y: DB) {
    out.env.slugify == slugify && HandleEnvelope(x, e, out) == (y, Ok(()))
  }

  ghost predicate EnvelopeRun(states: seq<DB>, es: seq<Envelope>, outs: seq<Outside>, slugify: string -> string) {
    && |states| == |es| + 1 && |outs| == |es|
    && forall i :: 0 <= i < |es| ==> HandledAt(states, es, outs, slugify, i)
  }

  ghost predicate HandledAt(states: seq<DB>, es: seq<Envelope>, outs: seq<Outside>, slugify: string -> string, i: nat)
    requires i < |es| == |outs| && i + 1 < |states|
  {
    EnvelopeSucceeds(states[i], es[i], outs[i], slugify, states[i + 1])
  }

  function CommandOf(t: Target, e: Envelope): (cmd: Command)
    requires TargetsEnvelope(t, e)
    ensures Targets(t, cmd)
  {
    Decode(e).value
  }

  function Decoded(t: Target, es: seq<Envelope>): (cmds: seq<Command>)
    requires forall i :: 0 <= i < |es| ==> TargetsEnvelope(t, es[i])
    ensures |cmds| == |es| && forall i :: 0 <= i < |es| ==> cmds[i] == CommandOf(t, es[i])
  {
    seq(|es|, i requires 0 <= i < |es| => CommandOf(t, es[i]))
  }

  lemma HandledAsDecoded(t: Target, x: DB, e: Envelope, out: Outside, slugify: string -> string, y: DB)
    requires TargetsEnvelope(t, e)
    ensures EnvelopeSucceeds(x, e, out, slugify, y) <==> StepSucceeds(x, CommandOf(t, e), out, slugify, y)
  {
  }

  lemma DecodedRun(t: Target, states: seq<DB>, es: seq<Envelope>, outs: seq<Outside>, slugify: string -> string)
    requires forall i :: 0 <= i < |es| ==> TargetsEnvelope(t, es[i])
    ensures EnvelopeRun(states, es, outs, slugify) <==> AllSucceed(states, Decoded(t, es), outs, slugify)
  {
    if |states| == |es| + 1 && |outs| == |es| {
      forall i | 0 <= i < |es|
        ensures HandledAt(states, es, outs, slugify, i)
                <==> SucceedsAt(states, Decoded(t, es), outs, slugify, i)
      {
        HandledAsDecoded(t, states[i], es[i], outs[i], slugify, states[i + 1]);
      }
    }
  }

  ghost predicate ExactEnvelopes(z: DB, es: seq<Envelope>, again: seq<Outside>, slugify: string -> string) {
    exists replayed: seq<DB> :: EnvelopeRun(replayed, es, again, slugify) && replayed[0] == z && replayed[|es|] == z
  }

  /** Main result, for the envelopes as the handler gets them. */
  lemma ReplayOfEnvelopes(t: Target, states: seq<DB>, es: seq<Envelope>, outs: seq<Outside>, again: seq<Outside>,
                          slugify: string -> string)
    requires forall i :: 0 <= i < |es| ==> TargetsEnvelope(t, es[i])
    requires EnvelopeRun(states, es, outs, slugify) && OwnRow(states[0], t.id)
    requires |again| == |es| && forall i :: 0 <= i < |es| ==> Works(again[i]) && again[i].env.slugify == slugify
    ensures ExactEnvelopes(states[|es|], es, again, slugify)
            <==> Live(RowOf(states[0], t).status) || !Lapses(Decoded(t, es))
  {
    var z, cmds := states[|es|], Decoded(t, es);
    DecodedRun(t, states, es, outs, slugify);
    ReplayExactlyUnlessLapsed(t, states, cmds, outs, again, slugify);
    forall replayed: seq<DB>
      ensures EnvelopeRun(replayed, es, again, slugify) <==> AllSucceed(replayed, cmds, again, slugify)
    {
      DecodedRun(t, replayed, es, again, slugify);
    }
    if Exact(z, cmds, again, slugify) {
      var replayed :| ReplaysTo(z, cmds, again, slugify, replayed);
      assert EnvelopeRun(replayed, es, again, slugify);
    }
    if ExactEnvelopes(z, es, again, slugify) {
      var replayed: seq<DB> :| EnvelopeRun(replayed, es, again, slugify) && replayed[0] == z && replayed[|es|] == z;
      assert ReplaysTo(z, cmds, again, slugify, replayed);
    }
  }

  // ----- One command twice -----

  /** The command allocates no ids of its own: it is no media upload, and a creation names its gig. */
  predicate NamesIds(cmd: Command) {
    !cmd.ReplaceMedia? && (cmd.CreateDraft? ==> cmd.gigId != "")
  }

  /** Once a command has succeeded, handling it again where nothing fails succeeds and changes nothing,
      whatever status the gig has. */
  lemma TwiceIsOnce(x: DB, cmd: Command, out: Outside, again: Outside)
    requires (forall id :: id in x.gigs ==> OwnRow(x, id)) && NamesIds(cmd) && HandleCommand(x, cmd, out).1.Ok?
    requires Works(again) && again.env.slugify == out.env.slugify
    ensures var y := HandleCommand(x, cmd, out).0;
            HandleCommand(y, cmd, again) == (y, Ok(()))
  {
    var t := Target(if cmd.CreateDraft? then cmd.gigId else TrimSpace(cmd.gigId), TrimSpace(cmd.freelancerId));
    var y := HandleCommand(x, cmd, out).0;
    OneCommandExactly(t, x, y, cmd, out, again);
  }

  lemma OneCommandExactly(t: Target, x: DB, y: DB, cmd: Command, out: Outside, again: Outside)
    requires OwnRow(x, t.id) && Targets(t, cmd) && HandleCommand(x, cmd, out) == (y, Ok(()))
    requires Works(again) && again.env.slugify == out.env.slugify
    ensures HandleCommand(y, cmd, again) == (y, Ok(()))
  {
    var slugify := out.env.slugify;
    assert SucceedsAt([x, y], [cmd], [out], slugify, 0);
    assert !Lapses([cmd]);
    ReplayExactlyUnlessLapsed(t, [x, y], [cmd], [out], [again], slugify);
    var replayed :| ReplaysTo(y, [cmd], [again], slugify, replayed);
    assert SucceedsAt(replayed, [cmd], [again], slugify, 0);
  }
}
