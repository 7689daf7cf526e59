/** The fan-out of a recovery batch on the gig tables themselves: any interleaving of the lanes leaves every gig
    as handling the batch in offset order does. */
module RecoveryTables {
  import opened Commands
  import opened WriteModel
  import opened GigCommands
  import opened RecoveryHandler
  import opened GigLocality
  import opened RecoveryOracle
  import opened RecoverySettle
  import opened RecoverySchedule
  import opened RecoveryRouting

  /** The tables change when a worker calls the handler, and only then. */
  function StepTables(outs: Message -> Outside, c: Config, a: Action, db: DB): DB
    requires Shaped(c)
  {
    if a.Work? && a.lane < LANES && c.slots[a.lane].Claimed? then
      HandleInTables(db, c.slots[a.lane].m, outs(c.slots[a.lane].m)).0
    else db
  }

  function RunTables(route: Message -> nat, outs: Message -> Outside, fail: Failures, batch: seq<Message>, c: Config, db: DB,
                     schedule: seq<Action>): DB
    requires Shaped(c) && Legal(route, HandlerOracle(outs, fail), batch, c, schedule)
    decreases |schedule|
  {
    if schedule == [] then db
    else
      RunTables(route, outs, fail, batch, Apply(route, HandlerOracle(outs, fail), batch, c, schedule[0]),
                StepTables(outs, c, schedule[0], db), schedule[1..])
  }

  /** The handler on the tables says what the machine takes it to say. */
  predicate SaysSame(outs: Message -> Outside, fail: Failures, c: Config, a: Action, db: DB)
    requires Shaped(c)
  {
    a.Work? && a.lane < LANES && c.slots[a.lane].Claimed? ==>
      var m := c.slots[a.lane].m;
      var o := HandlerOracle(outs, fail);
      o.handle(Lookup(c.world.store, o.target(m)), m).ok == HandleInTables(db, m, outs(m)).1
  }

  /** Along the whole schedule. */
  predicate VerdictsAgree(route: Message -> nat, outs: Message -> Outside, fail: Failures, batch: seq<Message>, c: Config, db: DB,
                          schedule: seq<Action>)
    requires Shaped(c) && Legal(route, HandlerOracle(outs, fail), batch, c, schedule)
    decreases |schedule|
  {
    schedule == []
    || (SaysSame(outs, fail, c, schedule[0], db)
        && VerdictsAgree(route, outs, fail, batch, Apply(route, HandlerOracle(outs, fail), batch, c, schedule[0]),
                         StepTables(outs, c, schedule[0], db), schedule[1..]))
  }

  /** The row ids each message of a batch brings belong to its gig. */
  ghost predicate BatchKeepsIds(own: Owners, outs: Message -> Outside, batch: seq<Message>) {
    forall m :: m in batch ==> MessageKeepsIds(own, m, outs(m))
  }

  ghost predicate Tracks(own: Owners, db: DB, w: World) {
    Sound(own, db) && Matches(db, w.store)
  }

  lemma AdvanceTracks(outs: Message -> Outside, fail: Failures, own: Owners, w: World, s: Slot, db: DB)
    requires !s.Idle? && Tracks(own, db, w) && MessageKeepsIds(own, s.m, outs(s.m))
    ensures Tracks(own, if s.Claimed? then HandleInTables(db, s.m, outs(s.m)).0 else db, Advance(HandlerOracle(outs, fail), w, s).0)
    ensures s.Claimed? ==> HandleAlone(Lookup(w.store, GigOf(s.m, outs(s.m))), s.m, outs(s.m)).ok == HandleInTables(db, s.m, outs(s.m)).1
  {
    if s.Claimed? {
      TablesMatch(own, db, w.store, s.m, outs(s.m));
    }
  }

  lemma StepTracks(route: Message -> nat, outs: Message -> Outside, fail: Failures, own: Owners, batch: seq<Message>, c: Config, a: Action, db: DB)
    requires Placed(route, batch, c) && Enabled(route, HandlerOracle(outs, fail), batch, c, a)
    requires Tracks(own, db, c.world) && BatchKeepsIds(own, outs, batch)
    ensures Tracks(own, StepTables(outs, c, a, db), Apply(route, HandlerOracle(outs, fail), batch, c, a).world)
    ensures SaysSame(outs, fail, c, a, db)
  {
    if a.Work? {
      AdvanceTracks(outs, fail, own, c.world, c.slots[a.lane], db);
    }
  }

  lemma {:induction false} RunTracks(route: Message -> nat, outs: Message -> Outside, fail: Failures, own: Owners, batch: seq<Message>,
                                     c: Config, db: DB, schedule: seq<Action>)
    requires Placed(route, batch, c) && Legal(route, HandlerOracle(outs, fail), batch, c, schedule)
    requires Tracks(own, db, c.world) && BatchKeepsIds(own, outs, batch)
    ensures Tracks(own, RunTables(route, outs, fail, batch, c, db, schedule), Run(route, HandlerOracle(outs, fail), batch, c, schedule).world)
    ensures VerdictsAgree(route, outs, fail, batch, c, db, schedule)
    decreases |schedule|
  {
    if schedule != [] {
      var d := Apply(route, HandlerOracle(outs, fail), batch, c, schedule[0]);
      StepTracks(route, outs, fail, own, batch, c, schedule[0], db);
      PlacedStep(route, HandlerOracle(outs, fail), batch, c, schedule[0]);
      RunTracks(route, outs, fail, own, batch, d, StepTables(outs, c, schedule[0], db), schedule[1..]);
    }
  }

  // ----- In offset order -----

  predicate Attempted(fail: Failures, w: World, m: Message) {
    !fail.claim(m) && EventId(m) !in w.claims
  }

  /** The tables after the messages one by one: those whose claim succeeds are handled. */
  function SequentialTables(outs: Message -> Outside, fail: Failures, w: World, db: DB, ms: seq<Message>): DB
    decreases |ms|
  {
    if ms == [] then db
    else
      SequentialTables(outs, fail, HandleMessage(HandlerOracle(outs, fail), w, ms[0]),
                       if Attempted(fail, w, ms[0]) then HandleInTables(db, ms[0], outs(ms[0])).0 else db, ms[1..])
  }

  lemma MessageTracks(outs: Message -> Outside, fail: Failures, own: Owners, w: World, db: DB, m: Message)
    requires Tracks(own, db, w) && MessageKeepsIds(own, m, outs(m))
    ensures Tracks(own, if Attempted(fail, w, m) then HandleInTables(db, m, outs(m)).0 else db, HandleMessage(HandlerOracle(outs, fail), w, m))
  {
    MessageOutcome(HandlerOracle(outs, fail), w, m);
    if Attempted(fail, w, m) {
      TablesMatch(own, db, w.store, m, outs(m));
    }
  }

  lemma {:induction false} SequentialTracks(outs: Message -> Outside, fail: Failures, own: Owners, w: World, db: DB, ms: seq<Message>)
    requires Tracks(own, db, w) && BatchKeepsIds(own, outs, ms)
    ensures Tracks(own, SequentialTables(outs, fail, w, db, ms), HandleAll(HandlerOracle(outs, fail), w, ms))
    decreases |ms|
  {
    if ms != [] {
      MessageTracks(outs, fail, own, w, db, ms[0]);
      SequentialTracks(outs, fail, own, HandleMessage(HandlerOracle(outs, fail), w, ms[0]),
                       if Attempted(fail, w, ms[0]) then HandleInTables(db, ms[0], outs(ms[0])).0 else db, ms[1..]);
    }
  }

  /** Main result. Where messages on one gig, and messages with one event id, share a lane key, and no gig is
      sent row ids of another, every schedule of the lanes ends with each gig's row, packages, questions and
      media as handling the batch on the tables in offset order leaves them. */
  lemma TablesAreSequential(hash: string -> nat, outs: Message -> Outside, fail: Failures, own: Owners, batch: seq<Message>, w: World,
                            db: DB, schedule: seq<Action>, id: string)
    requires forall m, n :: m in batch && n in batch && (GigOf(m, outs(m)) == GigOf(n, outs(n)) || EventId(m) == EventId(n)) ==>
               LaneKey(m) == LaneKey(n)
    requires Tracks(own, db, w) && BatchKeepsIds(own, outs, batch)
    requires Legal(ByKey(hash), HandlerOracle(outs, fail), batch, Start(w), schedule)
    requires Finished(Run(ByKey(hash), HandlerOracle(outs, fail), batch, Start(w), schedule))
    ensures SameGig(RunTables(ByKey(hash), outs, fail, batch, Start(w), db, schedule),
                    SequentialTables(outs, fail, w.(errors := multiset{}), db, batch), id)
    ensures VerdictsAgree(ByKey(hash), outs, fail, batch, Start(w), db, schedule)
  {
    var o := HandlerOracle(outs, fail);
    KeyedBatchIsSequential(hash, o, batch, w, schedule);
    RunTracks(ByKey(hash), outs, fail, own, batch, Start(w), db, schedule);
    SequentialTracks(outs, fail, own, w.(errors := multiset{}), db, batch);
    MatchedAlike(own, RunTables(ByKey(hash), outs, fail, batch, Start(w), db, schedule),
                 SequentialTables(outs, fail, w.(errors := multiset{}), db, batch),
                 HandleAll(o, w.(errors := multiset{}), batch).store, id);
  }
}
