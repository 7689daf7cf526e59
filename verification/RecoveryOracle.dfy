/** The recovery batch with its real handler: what the lanes call is the handler of the gig write model. */
module RecoveryOracle {
  import opened Wrappers
  import opened ChildTable
  import opened Domain
  import opened Commands
  import opened WriteModel
  import opened GigCommands
  import opened RecoveryHandler
  import opened GigLocality
  import opened RecoverySettle

  /** Which claims, releases and dead-letter writes fail. */
  datatype Failures = Failures(claim: Message -> bool, release: Message -> bool, deadLetter: Message -> bool)

  /** The command a message carries, or why it carries none. */
  function CommandOf(m: Message): Result<Command, Error> {
    if m.envelope.None? then Err(Malformed) else Decode(m.envelope.value)
  }

  /** The gig a message is about. What carries no command is about none, and goes by its lane key. */
  function GigOf(m: Message, out: Outside): string {
    if CommandOf(m).Ok? then TargetOf(CommandOf(m).value, out.env) else LaneKey(m)
  }

  /** Handling a message on the tables: the tables after it, and whether it succeeded. */
  function HandleInTables(db: DB, m: Message, out: Outside): (DB, bool) {
    var (d, r) := HandleDecoded(db, CommandOf(m), out);
    (d, r.Ok?)
  }

  /** Handling a message where its gig is all there is. */
  function HandleAlone(g: Option<Gig>, m: Message, out: Outside): Handled {
    if CommandOf(m).Err? then Handled(g, false)
    else
      var (d, ok) := HandleInTables(Only(g), m, out);
      Handled(GigView(d, GigOf(m, out)), ok)
  }

  function HandlerOracle(outs: Message -> Outside, fail: Failures): Oracle {
    Oracle(m => GigOf(m, outs(m)), (g, m) => HandleAlone(g, m, outs(m)), fail.claim, fail.release, fail.deadLetter)
  }

  /** The store shows the tables gig by gig. */
  ghost predicate Matches(db: DB, store: map<string, Gig>) {
    forall id :: Lookup(store, id) == GigView(db, id)
  }

  ghost predicate MessageKeepsIds(own: Owners, m: Message, out: Outside) {
    CommandOf(m).Ok? ==> KeepsIds(own, CommandOf(m).value, out.env.generated)
  }

  lemma ViewsAlike(a: DB, b: DB, id: string)
    requires SameGig(a, b, id)
    ensures GigView(a, id) == GigView(b, id)
  {
  }

  lemma AloneApart(g: Option<Gig>, id: string, cmd: Command, env: Env)
    requires var alone := Only(g);
             OwnRows(alone) && Others(alone.packages, id) == [] && Others(alone.questions, id) == [] && Others(alone.media, id) == []
    requires id == TargetOf(cmd, env)
    ensures CommandApart(Only(g), cmd, env)
  {
    if Check(Only(g), cmd, env).Ok? {
      CheckWrites(Only(g), cmd, env);
    }
  }

  /** A command on the tables and on its gig alone: one verdict, and one gig after it. */
  lemma AloneAlike(own: Owners, db: DB, cmd: Command, out: Outside)
    requires Sound(own, db) && KeepsIds(own, cmd, out.env.generated)
    ensures var id := TargetOf(cmd, out.env);
            var alone := Only(GigView(db, id));
            && HandleCommand(alone, cmd, out).1 == HandleCommand(db, cmd, out).1
            && GigView(HandleCommand(alone, cmd, out).0, id) == GigView(HandleCommand(db, cmd, out).0, id)
  {
    var id := TargetOf(cmd, out.env);
    var env := out.env.(recovery := true);
    var alone := Only(GigView(db, id));
    OnlyShows(own, db, id);
    AloneApart(GigView(db, id), id, cmd, env);
    CommandsApart(own, db, cmd, env);
    HandleLocal(alone, db, cmd, out);
    ViewsAlike(HandleCommand(alone, cmd, out).0, HandleCommand(db, cmd, out).0, id);
  }

  lemma OtherViews(db: DB, cmd: Command, out: Outside, other: string)
    requires OwnRows(db) && other != TargetOf(cmd, out.env)
    ensures GigView(HandleCommand(db, cmd, out).0, other) == GigView(db, other)
  {
    OtherGigsUntouched(db, cmd, out.env.(recovery := true), other);
    ViewsAlike(db, HandleCommand(db, cmd, out).0, other);
  }

  /** Main result. What the lanes' handler does gig by gig is what it does on the whole tables: the verdict is
      the same, and every gig shows the same afterwards. */
  lemma TablesMatch(own: Owners, db: DB, store: map<string, Gig>, m: Message, out: Outside)
    requires Sound(own, db) && Matches(db, store) && MessageKeepsIds(own, m, out)
    ensures var h := HandleAlone(Lookup(store, GigOf(m, out)), m, out);
            var (d, ok) := HandleInTables(db, m, out);
            h.ok == ok && Sound(own, d) && Matches(d, Put(store, GigOf(m, out), h.gig))
  {
    var id := GigOf(m, out);
    var d := HandleInTables(db, m, out).0;
    var h := HandleAlone(Lookup(store, id), m, out);
    if CommandOf(m).Ok? {
      var cmd := CommandOf(m).value;
      AloneAlike(own, db, cmd, out);
      ExecuteSound(own, db, cmd, out.env.(recovery := true));
      forall other | other != id
        ensures GigView(d, other) == GigView(db, other)
      {
        OtherViews(db, cmd, out, other);
      }
    }
    PutMatches(db, store, d, id, h.gig);
  }

  lemma PutMatches(db: DB, store: map<string, Gig>, d: DB, id: string, g: Option<Gig>)
    requires Matches(db, store) && g == GigView(d, id) && forall other :: other != id ==> GigView(d, other) == GigView(db, other)
    ensures Matches(d, Put(store, id, g))
  {
    forall k
      ensures Lookup(Put(store, id, g), k) == GigView(d, k)
    {
      assert Lookup(store, k) == GigView(db, k);
    }
  }

  /** Tables without orphaned rows that one store shows hold the same gigs. */
  lemma MatchedAlike(own: Owners, a: DB, b: DB, store: map<string, Gig>, id: string)
    requires Sound(own, a) && Sound(own, b) && Matches(a, store) && Matches(b, store)
    ensures SameGig(a, b, id)
  {
    assert Lookup(store, id) == GigView(a, id) == GigView(b, id);
    if id !in a.gigs {
      NoRows(own.packages, a.packages, a.gigs, id);
      NoRows(own.questions, a.questions, a.gigs, id);
      NoRows(own.media, a.media, a.gigs, id);
      NoRows(own.packages, b.packages, b.gigs, id);
      NoRows(own.questions, b.questions, b.gigs, id);
      NoRows(own.media, b.media, b.gigs, id);
    }
  }
}
