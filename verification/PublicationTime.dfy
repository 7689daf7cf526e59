/** When a gig's publication time changes, and what becomes of blank descriptions, over interleaved runs. */
module PublicationTime {
  import opened Text
  import opened Wrappers
  import opened ChildTable
  import opened Domain
  import opened WriteModel
  import opened GigCommands
  import opened WriteInvariant

  // ----- The publication time -----

  /** The pending command is about to publish the gig. */
  predicate Publishes(p: Pending, id: string) {
    p.Ready? && p.write.WritePublish? && p.write.id == id
  }

  /** Main result. In any reachable state a step changes the publication time of a gig if and only if it is
      the publishing write of that gig, the statement works, and the time differs. */
  lemma TimeMovesExactly(s: State, step: Step, id: string)
    requires Good(s) && Enabled(s, step) && id in s.db.gigs
    ensures id in Next(s, step).db.gigs
    ensures Next(s, step).db.gigs[id].publishedAt != s.db.gigs[id].publishedAt
            <==> && step.DoWrite? && Publishes(s.pending[step.i], id)
                 && !step.env.faults(0) && s.db.gigs[id].publishedAt != Some(step.env.now)
  {
    StepKeeps(s, step);
    if step.DoWrite? {
      WriteMovesExactly(s.db, s.pending[step.i].write, step.env, id);
    }
  }

  lemma WriteMovesExactly(db: DB, w: Write, env: Env, id: string)
    requires id in db.gigs
    ensures id in WriteOnce(db, w, env).gigs
    ensures WriteOnce(db, w, env).gigs[id].publishedAt != db.gigs[id].publishedAt
            <==> w.WritePublish? && w.id == id && !env.faults(0) && db.gigs[id].publishedAt != Some(env.now)
  {
  }

  /** The pending command publishes the gig, or may come to: it has read the gig's row to publish it. */
  predicate Publishing(p: Pending, id: string) {
    Publishes(p, id) || (p.Reading? && p.row.id == id)
  }

  /** In no state of the run are two publications of the gig under way. */
  ghost predicate RaceFree(states: seq<State>, id: string) {
    forall k :: 0 <= k < |states| ==> RaceFreeAt(states, id, k)
  }

  ghost predicate RaceFreeAt(states: seq<State>, id: string, k: nat)
    requires k < |states|
  {
    NoRace(states[k].pending, id)
  }

  ghost predicate NoRace(pending: seq<Pending>, id: string) {
    forall i, j :: 0 <= i < j < |pending| ==> !(Publishing(pending[i], id) && Publishing(pending[j], id))
  }

  /** Once the gig is published, whoever is publishing it has seen that and will be refused. */
  ghost predicate SeenPublished(s: State, id: string) {
    id in s.db.gigs && s.db.gigs[id].status == Published ==>
      forall i :: 0 <= i < |s.pending| && Publishing(s.pending[i], id) ==> WillBeRefused(s.pending[i])
  }

  predicate WillBeRefused(p: Pending) {
    p.Reading? && p.row.status == Published
  }

  lemma NothingPendingIsSeen(s: State, id: string)
    requires s.pending == []
    ensures SeenPublished(s, id)
  {
  }

  /** What is pending beside a write has seen the gig published after it. */
  lemma BesideWrite(s: State, i: nat, k: nat, env: Env, id: string)
    requires i < |s.pending| && k < |s.pending| && k != i && s.pending[i].Ready?
    requires SeenPublished(s, id) && NoRace(s.pending, id) && Publishing(s.pending[k], id)
    requires var d := WriteOnce(s.db, s.pending[i].write, env); id in d.gigs && d.gigs[id].status == Published
    ensures WillBeRefused(s.pending[k])
  {
    PublishedByWrite(s.db, s.pending[i].write, env, id);
    NoOther(s.pending, i, k, id);
  }

  lemma NoOther(pending: seq<Pending>, i: nat, k: nat, id: string)
    requires NoRace(pending, id) && i < |pending| && k < |pending| && i != k && Publishing(pending[k], id)
    ensures !Publishing(pending[i], id)
  {
    assert i < k || k < i;
  }

  lemma WriteSeen(s: State, step: Step, id: string)
    requires Enabled(s, step) && step.DoWrite? && SeenPublished(s, id) && NoRace(s.pending, id)
    ensures SeenPublished(Next(s, step), id)
  {
    var t := Next(s, step);
    forall j | 0 <= j < |t.pending| && Publishing(t.pending[j], id) && id in t.db.gigs && t.db.gigs[id].status == Published
      ensures WillBeRefused(t.pending[j])
    {
      KeptPending(s, step.i, Follow(s.db, s.pending[step.i].write, step.env), j, id);
      BesideWrite(s, step.i, if j < step.i then j else j + 1, step.env, id);
    }
  }

  /** A publication pending after a step was pending before. */
  lemma KeptPending(s: State, i: nat, more: seq<Pending>, j: nat, id: string)
    requires i < |s.pending| && j < |Without(s.pending, i) + more| && forall k :: 0 <= k < |more| ==> more[k].Naming?
    requires Publishing((Without(s.pending, i) + more)[j], id)
    ensures j < |s.pending| - 1
    ensures (Without(s.pending, i) + more)[j] == s.pending[if j < i then j else j + 1]
  {
  }

  /** Only a publishing write makes a gig published. */
  lemma PublishedByWrite(db: DB, w: Write, env: Env, id: string)
    requires id in WriteOnce(db, w, env).gigs && WriteOnce(db, w, env).gigs[id].status == Published
    ensures (id in db.gigs && db.gigs[id].status == Published) || (w.WritePublish? && w.id == id)
  {
  }

  lemma DropSeen(s: State, i: nat, db: DB, id: string)
    requires i < |s.pending| && SeenPublished(s, id)
    requires id in db.gigs && db.gigs[id].status == Published ==> id in s.db.gigs && s.db.gigs[id].status == Published
    ensures SeenPublished(State(db, Without(s.pending, i)), id)
  {
    forall j | 0 <= j < |s.pending| - 1
      ensures Without(s.pending, i)[j] == s.pending[if j < i then j else j + 1]
    {
    }
  }

  lemma SeenStep(s: State, step: Step, id: string)
    requires Good(s) && Enabled(s, step) && SeenPublished(s, id) && NoRace(s.pending, id)
    ensures SeenPublished(Next(s, step), id)
  {
    if step.DoWrite? {
      WriteSeen(s, step, id);
    } else if step.DoName? || step.GiveUp? {
      DropSeen(s, step.i, Next(s, step).db, id);
    } else if step.ReadPackages? {
      ReadSeen(s, step, id);
    } else {
      BeginSeen(s, step, id);
    }
  }

  lemma BeginSeen(s: State, step: Step, id: string)
    requires GoodTables(s.db) && Enabled(s, step) && (step.Begin? || step.BeginPublish?) && SeenPublished(s, id)
    ensures SeenPublished(Next(s, step), id)
  {
  }

  lemma ReadSeen(s: State, step: Step, id: string)
    requires Enabled(s, step) && step.ReadPackages? && SeenPublished(s, id)
    ensures SeenPublished(Next(s, step), id)
  {
    assert ValidatePublishReady(SeenBy(s.pending[step.i].row, s.db)).None?;
    assert s.pending[step.i].row.status == Draft;
  }

  /** Where everyone publishing has seen the gig published, a step keeps its time. */
  lemma TimeKept(s: State, step: Step, id: string)
    requires Good(s) && Enabled(s, step) && SeenPublished(s, id)
    requires id in s.db.gigs && s.db.gigs[id].status == Published
    ensures id in Next(s, step).db.gigs && Next(s, step).db.gigs[id].publishedAt == s.db.gigs[id].publishedAt
  {
    TimeMovesExactly(s, step, id);
    if step.DoWrite? {
      assert Publishes(s.pending[step.i], id) ==> Publishing(s.pending[step.i], id);
    }
  }

  lemma {:induction false} SeenAlong(states: seq<State>, steps: seq<Step>, id: string, i: nat)
    requires IsRun(states, steps) && Good(states[0]) && SeenPublished(states[0], id) && i <= |steps|
    requires RaceFree(states, id)
    ensures SeenPublished(states[i], id)
    decreases i
  {
    if i > 0 {
      SeenAlong(states, steps, id, i - 1);
      assert MovesAt(states, steps, i - 1) && RaceFreeAt(states, id, i - 1);
      RunKeeps(states, steps, 0, i - 1);
      SeenStep(states[i - 1], steps[i - 1], id);
    }
  }

  /** Main result. In a run that starts with nothing pending and never has two publications of the gig
      under way at once, the publication time never changes once the gig is published. */
  lemma {:induction false} TimeKeptWithoutRace(states: seq<State>, steps: seq<Step>, id: string, i: nat, j: nat)
    requires IsRun(states, steps) && Good(states[0]) && states[0].pending == [] && i <= j <= |steps|
    requires RaceFree(states, id)
    requires id in states[i].db.gigs && states[i].db.gigs[id].status == Published
    ensures id in states[j].db.gigs && states[j].db.gigs[id].status == Published
    ensures states[j].db.gigs[id].publishedAt == states[i].db.gigs[id].publishedAt
    decreases j
  {
    if i < j {
      TimeKeptWithoutRace(states, steps, id, i, j - 1);
      TimeKeptAt(states, steps, id, j - 1);
    }
  }

  lemma TimeKeptAt(states: seq<State>, steps: seq<Step>, id: string, j: nat)
    requires IsRun(states, steps) && Good(states[0]) && states[0].pending == [] && j < |steps|
    requires RaceFree(states, id)
    requires id in states[j].db.gigs && states[j].db.gigs[id].status == Published
    ensures id in states[j + 1].db.gigs && states[j + 1].db.gigs[id].status == Published
    ensures states[j + 1].db.gigs[id].publishedAt == states[j].db.gigs[id].publishedAt
  {
    StandsAt(states, steps, id, j);
    StepKeeps(states[j], steps[j]);
    TimeKept(states[j], steps[j], id);
  }

  lemma StandsAt(states: seq<State>, steps: seq<Step>, id: string, j: nat)
    requires IsRun(states, steps) && Good(states[0]) && states[0].pending == [] && j < |steps|
    requires RaceFree(states, id)
    ensures Good(states[j]) && SeenPublished(states[j], id) && Moves(states[j], steps[j], states[j + 1])
  {
    RunKeeps(states, steps, 0, j);
    NothingPendingIsSeen(states[0], id);
    SeenAlong(states, steps, id, j);
    assert MovesAt(states, steps, j);
  }

  /** The gig can be published now by its owner. */
  ghost predicate CanPublish(db: DB, id: string, env: Env) {
    && id in db.gigs && Trimmed(id) && Trimmed(db.gigs[id].freelancerId)
    && db.gigs[id].status == Draft && db.gigs[id].basicInfoCompleted && db.gigs[id].packagesCompleted
    && CheckConnect(env).None?
  }

  lemma SeenReady(db: DB, id: string)
    requires GoodTables(db) && id in db.gigs && db.gigs[id].status == Draft
    requires db.gigs[id].basicInfoCompleted && db.gigs[id].packagesCompleted
    ensures ValidatePublishReady(SeenBy(db.gigs[id], db)).None?
  {
    ValidPackagesAreSellable(RowData(Read(db.packages, id)));
  }

  /** Without that condition the time is not kept: from any good state with nothing pending, two publications
      of one draft that both check before either writes succeed both, and the second overwrites the time. */
  lemma RacingPublishMovesTime(db: DB, id: string, env: Env, env': Env) returns (states: seq<State>, steps: seq<Step>)
    requires GoodTables(db) && CanPublish(db, id, env) && CheckConnect(env').None?
    requires !env.faults(0) && !env'.faults(0) && env.now != env'.now
    ensures IsRun(states, steps) && |steps| == 6 && states[0] == State(db, [])
    ensures states[5].db.gigs == db.gigs[id := db.gigs[id].(status := Published, publishedAt := Some(env.now))]
    ensures id in states[6].db.gigs && states[6].db.gigs[id].publishedAt == Some(env'.now)
  {
    states, steps := BothChecked(db, id, env, env');
    var go := Ready(WritePublish(id, ""));
    var d1 := WriteOnce(db, WritePublish(id, ""), env);
    PublishMoves(db, [go, go], id, env);
    PublishMoves(d1, [go], id, env');
    assert [go, go][1..] == [go];
    states, steps := OneMoreMove(states, steps, DoWrite(0, env), State(d1, [go]));
    states, steps := OneMoreMove(states, steps, DoWrite(0, env'), State(WriteOnce(d1, WritePublish(id, ""), env'), [go][1..]));
  }

  /** Two publications have begun. */
  lemma BothBegun(db: DB, id: string) returns (states: seq<State>, steps: seq<Step>)
    requires id in db.gigs && Trimmed(id)
    ensures IsRun(states, steps) && |steps| == 2 && states[0] == State(db, [])
    ensures var read := Reading(db.gigs[id], db.gigs[id].freelancerId, "");
            states[2] == State(db, [read, read])
  {
    var owner := db.gigs[id].freelancerId;
    var begin, read := BeginPublish(id, owner, ""), Reading(db.gigs[id], owner, "");
    BeginMoves(db, [], id);
    BeginMoves(db, [read], id);
    states, steps := [State(db, [])], [];
    states, steps := OneMoreMove(states, steps, begin, State(db, [] + [read]));
    states, steps := OneMoreMove(states, steps, begin, State(db, [read] + [read]));
  }

  /** Two publications have begun and both have passed their check. */
  lemma BothChecked(db: DB, id: string, env: Env, env': Env) returns (states: seq<State>, steps: seq<Step>)
    requires GoodTables(db) && CanPublish(db, id, env) && CheckConnect(env').None?
    ensures IsRun(states, steps) && |steps| == 4 && states[0] == State(db, [])
    ensures states[4] == State(db, [Ready(WritePublish(id, "")), Ready(WritePublish(id, ""))])
  {
    var read, go := Reading(db.gigs[id], db.gigs[id].freelancerId, ""), Ready(WritePublish(id, ""));
    CheckMoves(db, [read, read], 0, id, env);
    CheckMoves(db, [go, read], 1, id, env');
    states, steps := BothBegun(db, id);
    states, steps := OneMoreMove(states, steps, ReadPackages(0, env), State(db, [read, read][0 := go]));
    assert [read, read][0 := go] == [go, read];
    states, steps := OneMoreMove(states, steps, ReadPackages(1, env'), State(db, [go, read][1 := go]));
  }

  lemma OneMoreMove(states: seq<State>, steps: seq<Step>, step: Step, t: State) returns (states': seq<State>, steps': seq<Step>)
    requires IsRun(states, steps) && Moves(states[|steps|], step, t)
    ensures IsRun(states', steps') && |steps'| == |steps| + 1
    ensures states' == states + [t] && steps' == steps + [step]
  {
    states', steps' := states + [t], steps + [step];
    forall i | 0 <= i < |steps'|
      ensures MovesAt(states', steps', i)
    {
      assert i < |steps| ==> MovesAt(states, steps, i);
    }
  }

  lemma BeginMoves(db: DB, pending: seq<Pending>, id: string)
    requires id in db.gigs && Trimmed(id)
    ensures Moves(State(db, pending), BeginPublish(id, db.gigs[id].freelancerId, ""),
                  State(db, pending + [Reading(db.gigs[id], db.gigs[id].freelancerId, "")]))
  {
    TrimSpaceTrims(id);
    assert TrimSpace("") == "";
  }

  lemma CheckMoves(db: DB, pending: seq<Pending>, i: nat, id: string, env: Env)
    requires GoodTables(db) && CanPublish(db, id, env)
    requires i < |pending| && pending[i] == Reading(db.gigs[id], db.gigs[id].freelancerId, "")
    ensures Moves(State(db, pending), ReadPackages(i, env), State(db, pending[i := Ready(WritePublish(id, ""))]))
  {
    TrimSpaceTrims(db.gigs[id].freelancerId);
    SeenReady(db, id);
  }

  lemma PublishMoves(db: DB, pending: seq<Pending>, id: string, env: Env)
    requires id in db.gigs && !env.faults(0) && pending != [] && pending[0] == Ready(WritePublish(id, ""))
    ensures Moves(State(db, pending), DoWrite(0, env), State(WriteOnce(db, WritePublish(id, ""), env), pending[1..]))
    ensures WriteOnce(db, WritePublish(id, ""), env)
            == db.(gigs := db.gigs[id := db.gigs[id].(status := Published, publishedAt := Some(env.now))])
  {
    assert Without(pending, 0) + [] == pending[1..];
  }

  // ----- Blank descriptions -----

  /** A checked basic info has an empty description if and only if the command's is blank: the check itself
      refuses the empty text only. */
  lemma BlankDescriptionsPass(cmd: Command, id: string, slugify: string -> string)
    requires cmd.UpdateBasicInfo? && CheckBasicInfo(cmd, id, slugify).Ok?
    ensures CheckBasicInfo(cmd, id, slugify).value.description == "" <==> TrimSpace(cmd.description) == ""
    ensures CheckBasicInfo(cmd.(description := " "), id, slugify) == Ok(CheckBasicInfo(cmd, id, slugify).value.(description := ""))
  {
    assert TrimLeft(" ") == TrimLeft([]) == [];
  }

  /** Every completed gig and every basic info about to be written has a description. */
  ghost predicate Described(s: State) {
    && (forall id :: id in s.db.gigs && s.db.gigs[id].basicInfoCompleted ==> s.db.gigs[id].description != "")
    && (forall i :: 0 <= i < |s.pending| && s.pending[i].Ready? && s.pending[i].write.WriteBasicInfo? ==>
          s.pending[i].write.info.description != "")
  }

  predicate HasDescription(step: Step) {
    step.Begin? && step.cmd.UpdateBasicInfo? ==> TrimSpace(step.cmd.description) != ""
  }

  lemma WriteDescribed(db: DB, w: Write, env: Env, id: string)
    requires id in db.gigs && db.gigs[id].basicInfoCompleted ==> db.gigs[id].description != ""
    requires w.WriteBasicInfo? ==> w.info.description != ""
    ensures id in WriteOnce(db, w, env).gigs && WriteOnce(db, w, env).gigs[id].basicInfoCompleted ==>
              WriteOnce(db, w, env).gigs[id].description != ""
  {
  }

  lemma DescribedStep(s: State, step: Step)
    requires Described(s) && Enabled(s, step) && HasDescription(step)
    ensures Described(Next(s, step))
  {
    var t := Next(s, step);
    match step
    case Begin(cmd, env) =>
      if cmd.UpdateBasicInfo? {
        BlankDescriptionsPass(cmd, Check(s.db, cmd, env).value.id, env.slugify);
      }
    case BeginPublish(_, _, _) =>
    case ReadPackages(_, _) =>
    case DoWrite(i, env) =>
      forall id
        ensures id in t.db.gigs && t.db.gigs[id].basicInfoCompleted ==> t.db.gigs[id].description != ""
      {
        WriteDescribed(s.db, s.pending[i].write, env, id);
      }
    case DoName(_, _) =>
    case GiveUp(_) =>
  }

  /** Main result. Over runs, a completed gig lacks its description only where some basic-info command
      brought a blank one. */
  lemma {:induction false} DescribedOverRuns(states: seq<State>, steps: seq<Step>, i: nat)
    requires IsRun(states, steps) && Described(states[0]) && i <= |steps|
    requires forall k :: 0 <= k < |steps| ==> HasDescription(steps[k])
    ensures Described(states[i])
    decreases i
  {
    if i > 0 {
      DescribedOverRuns(states, steps, i - 1);
      assert MovesAt(states, steps, i - 1);
      DescribedStep(states[i - 1], steps[i - 1]);
    }
  }
}
