/** A draft creation and a command on the draft have two lane keys: handled in the other order, the command
    fails. */
module RecoveryDrafts {
  import opened Text
  import opened Wrappers
  import opened Domain
  import opened Commands
  import opened WriteModel
  import opened GigCommands
  import opened RecoveryHandler
  import opened RecoveryOracle
  import opened RecoverySettle
  import opened RecoverySchedule
  import opened RecoveryRouting
  import opened RecoveryOvertaking

  /** From lanes that are closed and hold one message each: the one, then the other. */
  lemma TakeBoth(route: Message -> nat, o: Oracle, batch: seq<Message>, c: Config, l: nat, k: nat) returns (schedule: seq<Action>)
    requires Shaped(c) && c.closed && l < LANES && k < LANES && l != k && |c.world.errors| == 0 && |batch| == 2
    requires |c.queues[l]| == |c.queues[k]| == 1 && forall i :: 0 <= i < LANES ==> c.slots[i].Idle? && (i != l && i != k ==> c.queues[i] == [])
    ensures Legal(route, o, batch, c, schedule) && Finished(Run(route, o, batch, c, schedule))
    ensures Run(route, o, batch, c, schedule).world == HandleMessage(o, HandleMessage(o, c.world, c.queues[l][0]), c.queues[k][0])
  {
    var first := TakeAndDrain(route, o, batch, c, l);
    var d := Run(route, o, batch, c, first);
    var second := TakeAndDrain(route, o, batch, d, k);
    RunConcat(route, o, batch, c, first, second);
    schedule := first + second;
  }

  /** Two messages in two lanes can be handled in either order: some schedule of the batch [a, b] ends
      exactly as handling b before a. */
  lemma Overtaking(route: Message -> nat, o: Oracle, w: World, a: Message, b: Message) returns (schedule: seq<Action>)
    requires Lane(route, a) != Lane(route, b)
    ensures Legal(route, o, [a, b], Start(w), schedule)
    ensures Finished(Run(route, o, [a, b], Start(w), schedule))
    ensures Run(route, o, [a, b], Start(w), schedule).world == HandleAll(o, w.(errors := multiset{}), [b, a])
  {
    var send, c := DispatchBoth(route, o, w, a, b);
    var take := TakeBoth(route, o, [a, b], c, Lane(route, b), Lane(route, a));
    RunConcat(route, o, [a, b], Start(w), send, take);
    schedule := send + take;
    TwoInOrder(o, Start(w).world, b, a);
  }

  lemma TwoInOrder(o: Oracle, w: World, x: Message, y: Message)
    ensures HandleAll(o, w, [x, y]) == HandleMessage(o, HandleMessage(o, w, x), y)
  {
    var v := HandleMessage(o, w, x);
    assert [x, y][1..] == [y] && [y][1..] == [];
    assert HandleAll(o, v, [y]) == HandleAll(o, HandleMessage(o, v, y), []);
  }

  /** The dispatcher can send two messages to two lanes and close them before any worker moves. */
  lemma DispatchBoth(route: Message -> nat, o: Oracle, w: World, a: Message, b: Message) returns (schedule: seq<Action>, c: Config)
    requires Lane(route, a) != Lane(route, b)
    ensures Legal(route, o, [a, b], Start(w), schedule)
    ensures c == Run(route, o, [a, b], Start(w), schedule)
    ensures Shaped(c)
    ensures c.closed && c.world == Start(w).world
    ensures c.slots == Start(w).slots
    ensures c.queues == Start(w).queues[Lane(route, a) := [a]][Lane(route, b) := [b]]
  {
    var batch := [a, b];
    var c0 := Start(w);
    var c1 := Apply(route, o, batch, c0, Dispatch);
    var c2 := Apply(route, o, batch, c1, Dispatch);
    c := Apply(route, o, batch, c2, Close);
    assert Legal(route, o, batch, c, []);
    RunCons(route, o, batch, c2, Close, []);
    RunCons(route, o, batch, c1, Dispatch, [Close] + []);
    RunCons(route, o, batch, c0, Dispatch, [Dispatch] + ([Close] + []));
    schedule := [Dispatch] + ([Dispatch] + ([Close] + []));
    assert c0.queues[Lane(route, a)] + [a] == [a];
    assert c1.queues[Lane(route, b)] + [b] == [b];
  }

  /** The gig a draft creation leaves where there was none. */
  function NewDraft(id: string, owner: string): Gig {
    Gig(EmptyDraft(id, owner), [], [], [])
  }

  /** Nothing fails from outside, and neither event id is claimed yet. */
  ghost predicate Smooth(outs: Message -> Outside, fail: Failures, w: World, a: Message, b: Message) {
    && Works(outs(a)) && Works(outs(b))
    && !fail.claim(a) && !fail.claim(b) && !fail.deadLetter(a) && !fail.deadLetter(b)
    && EventId(a) !in w.claims && EventId(b) !in w.claims && EventId(a) != EventId(b)
  }

  lemma CreateAlone(m: Message, out: Outside, id: string, owner: string)
    requires Works(out) && CommandOf(m) == Ok(Command.CreateDraft(id, owner)) && id != "" && TrimSpace(owner) != ""
    ensures HandleAlone(None, m, out) == Handled(Some(NewDraft(id, TrimSpace(owner))), true)
  {
  }

  /** Any command on a gig that is not there is refused. */
  lemma AbsentRefuses(m: Message, out: Outside, cmd: Command)
    requires CommandOf(m) == Ok(cmd) && !cmd.CreateDraft?
    ensures HandleAlone(None, m, out) == Handled(None, false)
  {
  }

  lemma UpdateAlone(m: Message, out: Outside, cmd: Command, id: string, owner: string)
    requires Works(out) && CommandOf(m) == Ok(cmd) && cmd.UpdateBasicInfo? && CheckBasicInfo(cmd, id, out.env.slugify).Ok?
    requires id != "" && owner != "" && TrimSpace(cmd.gigId) == id && TrimSpace(cmd.freelancerId) == owner
    ensures HandleAlone(Some(NewDraft(id, owner)), m, out)
            == Handled(Some(NewDraft(id, owner).(row := WithBasicInfo(EmptyDraft(id, owner), CheckBasicInfo(cmd, id, out.env.slugify).value))), true)
  {
  }

  /** Main result. A draft creation goes by its command id, the basic info of its gig by the gig id. When the
      two hash to different lanes, some legal schedule of the batch handles the basic info first. It is then
      dead-lettered and the gig stays an empty draft, while in offset order both succeed. */
  lemma DraftCanBeOvertaken(hash: string -> nat, outs: Message -> Outside, fail: Failures, w: World, create: Message, update: Message,
                            id: string, owner: string, cmd: Command) returns (schedule: seq<Action>)
    requires CommandOf(create) == Ok(Command.CreateDraft(id, owner)) && Smooth(outs, fail, w, create, update)
    requires id !in w.store && id != "" && owner != "" && Trimmed(owner)
    requires CommandOf(update) == Ok(cmd) && cmd.UpdateBasicInfo? && CheckBasicInfo(cmd, id, outs(update).env.slugify).Ok?
    requires TrimSpace(cmd.gigId) == id && TrimSpace(cmd.freelancerId) == owner
    requires hash(LaneKey(create)) % LANES != hash(LaneKey(update)) % LANES
    ensures var route, o, batch := ByKey(hash), HandlerOracle(outs, fail), [create, update];
            && Legal(route, o, batch, Start(w), schedule) && Finished(Run(route, o, batch, Start(w), schedule))
            && var overtaken, ordered := Run(route, o, batch, Start(w), schedule).world, HandleAll(o, w.(errors := multiset{}), batch);
            && overtaken.settled == w.settled + multiset{DeadLettered(update)} + multiset{Succeeded(create)}
            && Lookup(overtaken.store, id) == Some(NewDraft(id, owner))
            && ordered.settled == w.settled + multiset{Succeeded(create)} + multiset{Succeeded(update)}
            && Lookup(ordered.store, id).Some? && Lookup(ordered.store, id).value.row.basicInfoCompleted
  {
    var o, v := HandlerOracle(outs, fail), w.(errors := multiset{});
    var updated := WithBasicInfo(EmptyDraft(id, owner), CheckBasicInfo(cmd, id, outs(update).env.slugify).value);
    schedule := Overtaking(ByKey(hash), o, w, create, update);
    TrimSpaceTrims(owner);
    CreateAlone(create, outs(create), id, owner);
    AbsentRefuses(update, outs(update), cmd);
    UpdateAlone(update, outs(update), cmd, id, owner);
    BothSucceed(o, v, id, create, update, NewDraft(id, owner), NewDraft(id, owner).(row := updated));
    FirstIsRefused(o, v, id, update, create, NewDraft(id, owner));
  }

  /** A message that nothing keeps from being handled, and whose claim and dead letter work. */
  ghost predicate Handles(o: Oracle, w: World, m: Message, id: string) {
    o.target(m) == id && EventId(m) !in w.claims && !o.claimError(m) && !o.deadLetterError(m)
  }

  lemma BothSucceed(o: Oracle, w: World, id: string, a: Message, b: Message, g: Gig, h: Gig)
    requires Handles(o, w, a, id) && Handles(o, w, b, id) && EventId(a) != EventId(b)
    requires o.handle(Lookup(w.store, id), a) == Handled(Some(g), true) && o.handle(Some(g), b) == Handled(Some(h), true)
    ensures HandleAll(o, w, [a, b]).settled == w.settled + multiset{Succeeded(a)} + multiset{Succeeded(b)}
    ensures Lookup(HandleAll(o, w, [a, b]).store, id) == Some(h)
  {
    TwoInOrder(o, w, a, b);
    MessageOutcome(o, w, a);
    MessageOutcome(o, HandleMessage(o, w, a), b);
  }

  lemma FirstIsRefused(o: Oracle, w: World, id: string, a: Message, b: Message, g: Gig)
    requires Handles(o, w, a, id) && Handles(o, w, b, id) && EventId(a) != EventId(b)
    requires Lookup(w.store, id) == None && o.handle(None, a) == Handled(None, false) && o.handle(None, b) == Handled(Some(g), true)
    ensures HandleAll(o, w, [a, b]).settled == w.settled + multiset{DeadLettered(a)} + multiset{Succeeded(b)}
    ensures Lookup(HandleAll(o, w, [a, b]).store, id) == Some(g)
  {
    TwoInOrder(o, w, a, b);
    MessageOutcome(o, w, a);
    MessageOutcome(o, HandleMessage(o, w, a), b);
  }
}
