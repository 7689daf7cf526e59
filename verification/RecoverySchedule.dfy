/** broker.go, runRecoveryBatch: a dispatcher, 16 bounded FIFO lanes and 16 workers, as a state machine
    over every interleaving. */
module RecoverySchedule {
  import opened Commands
  import opened Domain
  import opened RecoverySettle
  import opened Wrappers

  const LANES := 16

  function Lane(route: Message -> nat, m: Message): nat {
    route(m) % LANES
  }

  /** The buffer of each lane channel. */
  function Capacity(batch: seq<Message>): nat {
    |batch| / LANES + 1
  }

  datatype Config = Config(next: nat, closed: bool, queues: seq<seq<Message>>, slots: seq<Slot>, world: World)

  /** What may happen next: the dispatcher sends the next message or closes the lanes; a worker takes the
      head of its lane or performs its next action on the message it holds. */
  datatype Action = Dispatch | Close | Take(lane: nat) | Work(lane: nat)

  function Start(w: World): Config {
    Config(0, false, seq(LANES, _ => []), seq(LANES, _ => Idle), w.(errors := multiset{}))
  }

  predicate Shaped(c: Config) {
    |c.queues| == LANES && |c.slots| == LANES
  }

  /** A send blocks while its channel is full: a lane at its capacity, the results channel at the batch size. */
  predicate Enabled(route: Message -> nat, o: Oracle, batch: seq<Message>, c: Config, a: Action)
    requires Shaped(c)
  {
    match a
    case Dispatch => c.next < |batch| && |c.queues[Lane(route, batch[c.next])]| < Capacity(batch)
    case Close => c.next == |batch| && !c.closed
    case Take(l) => l < LANES && c.slots[l].Idle? && c.queues[l] != []
    case Work(l) =>
      && l < LANES
      && !c.slots[l].Idle?
      && (c.slots[l].Dead? && o.deadLetterError(c.slots[l].m) ==> |c.world.errors| < |batch|)
  }

  function Apply(route: Message -> nat, o: Oracle, batch: seq<Message>, c: Config, a: Action): (d: Config)
    requires Shaped(c) && Enabled(route, o, batch, c, a)
    ensures Shaped(d)
  {
    match a
    case Dispatch =>
      var l := Lane(route, batch[c.next]);
      c.(next := c.next + 1, queues := c.queues[l := c.queues[l] + [batch[c.next]]])
    case Close => c.(closed := true)
    case Take(l) => c.(queues := c.queues[l := c.queues[l][1..]], slots := c.slots[l := Picked(c.queues[l][0])])
    case Work(l) =>
      var (w, s) := Advance(o, c.world, c.slots[l]);
      c.(world := w, slots := c.slots[l := s])
  }

  /** A schedule is a sequence of actions, each enabled where it is taken. */
  predicate Legal(route: Message -> nat, o: Oracle, batch: seq<Message>, c: Config, schedule: seq<Action>)
    requires Shaped(c)
    decreases |schedule|
  {
    schedule == []
    || (Enabled(route, o, batch, c, schedule[0])
        && Legal(route, o, batch, Apply(route, o, batch, c, schedule[0]), schedule[1..]))
  }

  function Run(route: Message -> nat, o: Oracle, batch: seq<Message>, c: Config, schedule: seq<Action>): (d: Config)
    requires Shaped(c) && Legal(route, o, batch, c, schedule)
    ensures Shaped(d)
    decreases |schedule|
  {
    if schedule == [] then c else Run(route, o, batch, Apply(route, o, batch, c, schedule[0]), schedule[1..])
  }

  /** `workers.Wait()` returns: the lanes are closed and drained and every worker is idle. */
  predicate Finished(c: Config)
    requires Shaped(c)
  {
    c.closed && forall l :: 0 <= l < LANES ==> c.queues[l] == [] && c.slots[l].Idle?
  }

  /** The messages of `ms` that go to lane `l`, in order. */
  function OfLane(route: Message -> nat, ms: seq<Message>, l: nat): seq<Message> {
    if ms == [] then []
    else (if Lane(route, ms[0]) == l then [ms[0]] else []) + OfLane(route, ms[1..], l)
  }

  lemma {:induction false} OfLaneAppend(route: Message -> nat, a: seq<Message>, b: seq<Message>, l: nat)
    ensures OfLane(route, a + b, l) == OfLane(route, a, l) + OfLane(route, b, l)
  {
    if a == [] {
      assert a + b == b;
      assert [] + OfLane(route, b, l) == OfLane(route, b, l);
    } else {
      var head := if Lane(route, a[0]) == l then [a[0]] else [];
      assert (a + b)[1..] == a[1..] + b;
      OfLaneAppend(route, a[1..], b, l);
      assert head + (OfLane(route, a[1..], l) + OfLane(route, b, l)) == head + OfLane(route, a[1..], l) + OfLane(route, b, l);
    }
  }

  lemma {:induction false} OfLaneMembers(route: Message -> nat, ms: seq<Message>, l: nat)
    ensures forall m :: m in OfLane(route, ms, l) <==> m in ms && Lane(route, m) == l
  {
    if ms != [] {
      OfLaneMembers(route, ms[1..], l);
    }
  }

  // ----- Every schedule means the sequential run -----

  /** What lane `l` has left to do, in order. */
  function Pending(route: Message -> nat, batch: seq<Message>, c: Config, l: nat): seq<Message>
    requires Shaped(c) && l < LANES && c.next <= |batch|
  {
    c.queues[l] + OfLane(route, batch[c.next..], l)
  }

  /** Every message waits in, or is held by, the lane its key hashes to. */
  ghost predicate Placed(route: Message -> nat, batch: seq<Message>, c: Config) {
    && Shaped(c)
    && c.next <= |batch|
    && (c.closed ==> c.next == |batch|)
    && (forall l, m :: 0 <= l < LANES && m in c.queues[l] ==> m in batch && Lane(route, m) == l)
    && (forall l :: 0 <= l < LANES && !c.slots[l].Idle? ==> c.slots[l].m in batch && Lane(route, c.slots[l].m) == l)
  }

  lemma PlacedStep(route: Message -> nat, o: Oracle, batch: seq<Message>, c: Config, a: Action)
    requires Placed(route, batch, c) && Enabled(route, o, batch, c, a)
    ensures Placed(route, batch, Apply(route, o, batch, c, a))
  {
    var d := Apply(route, o, batch, c, a);
    forall l, m | 0 <= l < LANES && m in d.queues[l]
      ensures m in batch && Lane(route, m) == l
    {
      if a.Take? && l == a.lane {
        assert m in c.queues[l];
      }
    }
  }

  /** A division of gigs and event ids among the lanes that the routing respects: what a message
      touches, and the event id it claims, belong to its own lane. */
  ghost predicate Divides(route: Message -> nat, o: Oracle, batch: seq<Message>, gigLane: string -> nat, idLane: string -> nat) {
    forall m :: m in batch ==> gigLane(o.target(m)) == Lane(route, m) == idLane(EventId(m))
  }

  ghost predicate SameGigs(gigLane: string -> nat, l: nat, v: map<string, Gig>, w: map<string, Gig>) {
    forall k :: gigLane(k) == l ==> Lookup(v, k) == Lookup(w, k)
  }

  ghost predicate SameIds(idLane: string -> nat, l: nat, v: World, w: World) {
    forall e :: idLane(e) == l ==> (e in v.claims <==> e in w.claims) && v.successes[e] == w.successes[e]
  }

  ghost predicate SameHistory(route: Message -> nat, l: nat, v: World, w: World) {
    && (forall x: Settlement :: Lane(route, x.m) == l ==> v.settled[x] == w.settled[x])
    && (forall m :: Lane(route, m) == l ==> v.errors[m] == w.errors[m])
  }

  /** Two worlds that lane `l` cannot tell apart. */
  ghost predicate Agree(route: Message -> nat, gigLane: string -> nat, idLane: string -> nat, l: nat, v: World, w: World) {
    && SameGigs(gigLane, l, v.store, w.store)
    && SameIds(idLane, l, v, w)
    && SameHistory(route, l, v, w)
  }

  lemma PutLocal(gigLane: string -> nat, l: nat, v: map<string, Gig>, w: map<string, Gig>, k: string, g: Option<Gig>)
    requires SameGigs(gigLane, l, v, w)
    ensures SameGigs(gigLane, l, Put(v, k, g), Put(w, k, g))
  {
    forall k' | gigLane(k') == l
      ensures Lookup(Put(v, k, g), k') == Lookup(Put(w, k, g), k')
    {
      assert Lookup(v, k') == Lookup(w, k');
    }
  }

  lemma LocalGigs(o: Oracle, gigLane: string -> nat, idLane: string -> nat, l: nat, v: World, w: World, s: Slot)
    requires !s.Idle? && gigLane(o.target(s.m)) == l == idLane(EventId(s.m))
    requires SameGigs(gigLane, l, v.store, w.store) && SameIds(idLane, l, v, w)
    ensures Advance(o, v, s).1 == Advance(o, w, s).1
    ensures SameGigs(gigLane, l, Advance(o, v, s).0.store, Advance(o, w, s).0.store)
  {
    var k := o.target(s.m);
    assert Lookup(v.store, k) == Lookup(w.store, k);
    assert EventId(s.m) in v.claims <==> EventId(s.m) in w.claims;
    if s.Claimed? {
      PutLocal(gigLane, l, v.store, w.store, k, o.handle(Lookup(v.store, k), s.m).gig);
    }
  }

  lemma LocalIds(o: Oracle, gigLane: string -> nat, idLane: string -> nat, l: nat, v: World, w: World, s: Slot)
    requires !s.Idle? && gigLane(o.target(s.m)) == l == idLane(EventId(s.m))
    requires SameGigs(gigLane, l, v.store, w.store) && SameIds(idLane, l, v, w)
    ensures SameIds(idLane, l, Advance(o, v, s).0, Advance(o, w, s).0)
  {
    assert Lookup(v.store, o.target(s.m)) == Lookup(w.store, o.target(s.m));
    assert EventId(s.m) in v.claims <==> EventId(s.m) in w.claims;
  }

  lemma LocalHistory(route: Message -> nat, o: Oracle, gigLane: string -> nat, idLane: string -> nat, l: nat, v: World, w: World, s: Slot)
    requires !s.Idle? && gigLane(o.target(s.m)) == l == idLane(EventId(s.m))
    requires SameGigs(gigLane, l, v.store, w.store) && SameIds(idLane, l, v, w) && SameHistory(route, l, v, w)
    ensures SameHistory(route, l, Advance(o, v, s).0, Advance(o, w, s).0)
  {
    assert Lookup(v.store, o.target(s.m)) == Lookup(w.store, o.target(s.m));
    assert EventId(s.m) in v.claims <==> EventId(s.m) in w.claims;
  }

  /** A worker's action depends on, and changes, its own lane's part of the world alike. */
  lemma AdvanceLocal(route: Message -> nat, o: Oracle, gigLane: string -> nat, idLane: string -> nat, l: nat, v: World, w: World, s: Slot)
    requires !s.Idle? && gigLane(o.target(s.m)) == l == idLane(EventId(s.m))
    requires Agree(route, gigLane, idLane, l, v, w)
    ensures Advance(o, v, s).1 == Advance(o, w, s).1
    ensures Agree(route, gigLane, idLane, l, Advance(o, v, s).0, Advance(o, w, s).0)
  {
    LocalGigs(o, gigLane, idLane, l, v, w, s);
    LocalIds(o, gigLane, idLane, l, v, w, s);
    LocalHistory(route, o, gigLane, idLane, l, v, w, s);
  }

  /** A worker's action leaves every other lane's part of the world as it was. */
  lemma AdvanceForeign(route: Message -> nat, o: Oracle, gigLane: string -> nat, idLane: string -> nat, l: nat, w: World, s: Slot)
    requires !s.Idle? && gigLane(o.target(s.m)) == Lane(route, s.m) == idLane(EventId(s.m)) != l
    ensures Agree(route, gigLane, idLane, l, w, Advance(o, w, s).0)
  {
    ForeignState(o, gigLane, idLane, l, w, s);
    ForeignHistory(route, o, l, w, s);
  }

  lemma ForeignState(o: Oracle, gigLane: string -> nat, idLane: string -> nat, l: nat, w: World, s: Slot)
    requires !s.Idle? && gigLane(o.target(s.m)) != l && idLane(EventId(s.m)) != l
    ensures SameGigs(gigLane, l, w.store, Advance(o, w, s).0.store)
    ensures SameIds(idLane, l, w, Advance(o, w, s).0)
  {
  }

  lemma ForeignHistory(route: Message -> nat, o: Oracle, l: nat, w: World, s: Slot)
    requires !s.Idle? && Lane(route, s.m) != l
    ensures SameHistory(route, l, w, Advance(o, w, s).0)
  {
  }

  lemma {:induction false} CompleteLocal(route: Message -> nat, o: Oracle, gigLane: string -> nat, idLane: string -> nat, l: nat, v: World, w: World, s: Slot)
    requires !s.Idle? ==> gigLane(o.target(s.m)) == l == idLane(EventId(s.m))
    requires Agree(route, gigLane, idLane, l, v, w)
    ensures Agree(route, gigLane, idLane, l, Complete(o, v, s), Complete(o, w, s))
    decreases Rank(s)
  {
    if !s.Idle? {
      AdvanceLocal(route, o, gigLane, idLane, l, v, w, s);
      var (v', t) := Advance(o, v, s);
      CompleteLocal(route, o, gigLane, idLane, l, v', Advance(o, w, s).0, t);
    }
  }

  lemma {:induction false} CompleteForeign(route: Message -> nat, o: Oracle, gigLane: string -> nat, idLane: string -> nat, l: nat, w: World, s: Slot)
    requires !s.Idle? ==> gigLane(o.target(s.m)) == Lane(route, s.m) == idLane(EventId(s.m)) != l
    ensures Agree(route, gigLane, idLane, l, w, Complete(o, w, s))
    decreases Rank(s)
  {
    if !s.Idle? {
      AdvanceForeign(route, o, gigLane, idLane, l, w, s);
      var (v, t) := Advance(o, w, s);
      CompleteForeign(route, o, gigLane, idLane, l, v, t);
    }
  }

  /** Handling lane messages only from worlds the lane cannot tell apart. */
  lemma {:induction false} HandleAllLocal(route: Message -> nat, o: Oracle, batch: seq<Message>, gigLane: string -> nat, idLane: string -> nat, l: nat, v: World, w: World, ms: seq<Message>)
    requires Divides(route, o, batch, gigLane, idLane)
    requires forall m :: m in ms ==> m in batch && Lane(route, m) == l
    requires Agree(route, gigLane, idLane, l, v, w)
    ensures Agree(route, gigLane, idLane, l, HandleAll(o, v, ms), HandleAll(o, w, ms))
    decreases |ms|
  {
    if ms != [] {
      assert ms[0] in batch;
      CompleteLocal(route, o, gigLane, idLane, l, v, w, Picked(ms[0]));
      HandleAllLocal(route, o, batch, gigLane, idLane, l, HandleMessage(o, v, ms[0]), HandleMessage(o, w, ms[0]), ms[1..]);
    }
  }

  /** The other lanes' messages can be left out of a sequential run as far as lane `l` can tell. */
  lemma {:induction false} SequentialByLane(route: Message -> nat, o: Oracle, batch: seq<Message>, gigLane: string -> nat, idLane: string -> nat, l: nat, v: World, w: World, ms: seq<Message>)
    requires Divides(route, o, batch, gigLane, idLane)
    requires forall m :: m in ms ==> m in batch
    requires Agree(route, gigLane, idLane, l, v, w)
    ensures Agree(route, gigLane, idLane, l, HandleAll(o, v, ms), HandleAll(o, w, OfLane(route, ms, l)))
    decreases |ms|
  {
    if ms != [] {
      var m := ms[0];
      assert m in batch;
      var v' := HandleMessage(o, v, m);
      if Lane(route, m) == l {
        CompleteLocal(route, o, gigLane, idLane, l, v, w, Picked(m));
        SequentialByLane(route, o, batch, gigLane, idLane, l, v', HandleMessage(o, w, m), ms[1..]);
        assert OfLane(route, ms, l) == [m] + OfLane(route, ms[1..], l);
        assert OfLane(route, ms, l)[1..] == OfLane(route, ms[1..], l);
      } else {
        CompleteForeign(route, o, gigLane, idLane, l, v, Picked(m));
        SequentialByLane(route, o, batch, gigLane, idLane, l, v', w, ms[1..]);
        assert OfLane(route, ms, l) == OfLane(route, ms[1..], l);
      }
    }
  }

  /** Where lane `l` will end if from now on it runs alone. */
  function Outlook(route: Message -> nat, o: Oracle, batch: seq<Message>, c: Config, l: nat): World
    requires Shaped(c) && l < LANES && c.next <= |batch|
  {
    HandleAll(o, Complete(o, c.world, c.slots[l]), Pending(route, batch, c, l))
  }

  /** Two configurations alike in lane `l`, over worlds it cannot tell apart, have one outlook for it. */
  lemma OutlooksAgree(route: Message -> nat, o: Oracle, batch: seq<Message>, gigLane: string -> nat, idLane: string -> nat, l: nat, c: Config, d: Config)
    requires Placed(route, batch, c) && Shaped(d) && d.next == c.next && l < LANES
    requires Divides(route, o, batch, gigLane, idLane)
    requires d.slots[l] == c.slots[l] && d.queues[l] == c.queues[l] && Agree(route, gigLane, idLane, l, c.world, d.world)
    ensures Agree(route, gigLane, idLane, l, Outlook(route, o, batch, c, l), Outlook(route, o, batch, d, l))
  {
    OfLaneMembers(route, batch[c.next..], l);
    CompleteLocal(route, o, gigLane, idLane, l, c.world, d.world, c.slots[l]);
    HandleAllLocal(route, o, batch, gigLane, idLane, l, Complete(o, c.world, c.slots[l]), Complete(o, d.world, d.slots[l]), Pending(route, batch, c, l));
  }

  /** Another lane's work is no part of this lane's outlook. */
  lemma OutlookForeignWork(route: Message -> nat, o: Oracle, batch: seq<Message>, gigLane: string -> nat, idLane: string -> nat, l: nat, c: Config, k: nat)
    requires Placed(route, batch, c) && Enabled(route, o, batch, c, Work(k)) && l < LANES && k != l
    requires Divides(route, o, batch, gigLane, idLane)
    ensures Agree(route, gigLane, idLane, l, Outlook(route, o, batch, c, l), Outlook(route, o, batch, Apply(route, o, batch, c, Work(k)), l))
  {
    AdvanceForeign(route, o, gigLane, idLane, l, c.world, c.slots[k]);
    OutlooksAgree(route, o, batch, gigLane, idLane, l, c, Apply(route, o, batch, c, Work(k)));
  }

  /** Every other action leaves the outlook as it is. */
  lemma OutlookSame(route: Message -> nat, o: Oracle, batch: seq<Message>, l: nat, c: Config, a: Action)
    requires Placed(route, batch, c) && Enabled(route, o, batch, c, a) && l < LANES && (a.Work? ==> a.lane == l)
    ensures Apply(route, o, batch, c, a).next <= |batch|
    ensures Outlook(route, o, batch, Apply(route, o, batch, c, a), l) == Outlook(route, o, batch, c, l)
  {
    var d := Apply(route, o, batch, c, a);
    if a.Dispatch? {
      assert batch[c.next..] == [batch[c.next]] + batch[d.next..];
    }
    if a.Take? && a.lane == l {
      assert Pending(route, batch, c, l)[1..] == Pending(route, batch, d, l);
      assert Complete(o, c.world, c.slots[l]) == c.world;
    } else {
      assert Pending(route, batch, d, l) == Pending(route, batch, c, l);
    }
  }

  lemma OutlookStep(route: Message -> nat, o: Oracle, batch: seq<Message>, gigLane: string -> nat, idLane: string -> nat, l: nat, c: Config, a: Action)
    requires Placed(route, batch, c) && Enabled(route, o, batch, c, a) && l < LANES
    requires Divides(route, o, batch, gigLane, idLane)
    ensures Apply(route, o, batch, c, a).next <= |batch|
    ensures Agree(route, gigLane, idLane, l, Outlook(route, o, batch, c, l), Outlook(route, o, batch, Apply(route, o, batch, c, a), l))
  {
    if a.Work? && a.lane != l {
      OutlookForeignWork(route, o, batch, gigLane, idLane, l, c, a.lane);
    } else {
      OutlookSame(route, o, batch, l, c, a);
    }
  }

  lemma {:induction false} OutlookRun(route: Message -> nat, o: Oracle, batch: seq<Message>, gigLane: string -> nat, idLane: string -> nat, l: nat, c: Config, schedule: seq<Action>)
    requires Placed(route, batch, c) && Legal(route, o, batch, c, schedule) && l < LANES
    requires Divides(route, o, batch, gigLane, idLane)
    ensures Placed(route, batch, Run(route, o, batch, c, schedule))
    ensures Agree(route, gigLane, idLane, l, Outlook(route, o, batch, c, l), Outlook(route, o, batch, Run(route, o, batch, c, schedule), l))
    decreases |schedule|
  {
    if schedule != [] {
      var d := Apply(route, o, batch, c, schedule[0]);
      OutlookStep(route, o, batch, gigLane, idLane, l, c, schedule[0]);
      PlacedStep(route, o, batch, c, schedule[0]);
      OutlookRun(route, o, batch, gigLane, idLane, l, d, schedule[1..]);
    }
  }

  /** The routing keeps related messages together: messages that touch the same gig, and messages with
      the same event id, hash to the same lane. */
  ghost predicate KeepsTogether(route: Message -> nat, o: Oracle, batch: seq<Message>) {
    forall m, n :: m in batch && n in batch && (o.target(m) == o.target(n) || EventId(m) == EventId(n)) ==>
      Lane(route, m) == Lane(route, n)
  }

  ghost function GigLane(route: Message -> nat, o: Oracle, batch: seq<Message>, k: string): nat {
    if m :| m in batch && o.target(m) == k then Lane(route, m) else 0
  }

  ghost function IdLane(route: Message -> nat, batch: seq<Message>, e: string): nat {
    if m :| m in batch && EventId(m) == e then Lane(route, m) else 0
  }

  lemma AgreeEverywhere(route: Message -> nat, gigLane: string -> nat, idLane: string -> nat, v: World, w: World)
    requires forall k :: gigLane(k) < LANES
    requires forall e :: idLane(e) < LANES
    requires forall l :: 0 <= l < LANES ==> Agree(route, gigLane, idLane, l, v, w)
    ensures v == w
  {
    forall k
      ensures Lookup(v.store, k) == Lookup(w.store, k)
    {
      assert Agree(route, gigLane, idLane, gigLane(k), v, w);
    }
    assert v.store == w.store by {
      forall k
        ensures k in v.store <==> k in w.store
        ensures k in v.store && k in w.store ==> v.store[k] == w.store[k]
      {
        assert Lookup(v.store, k) == Lookup(w.store, k);
      }
    }
    forall e
      ensures e in v.claims <==> e in w.claims
      ensures v.successes[e] == w.successes[e]
    {
      assert Agree(route, gigLane, idLane, idLane(e), v, w);
    }
    forall x: Settlement
      ensures v.settled[x] == w.settled[x]
    {
      assert Agree(route, gigLane, idLane, Lane(route, x.m), v, w);
    }
    forall m: Message
      ensures v.errors[m] == w.errors[m]
    {
      assert Agree(route, gigLane, idLane, Lane(route, m), v, w);
    }
    assert v.claims == w.claims && v.successes == w.successes && v.settled == w.settled && v.errors == w.errors;
  }

  /** Main result. Whatever the interleaving of dispatcher and workers, a finished batch leaves the gigs,
      the claims, the dead letters, the results and the settlement of every message exactly as handling
      its messages one by one in offset order does. */
  lemma ScheduleIndependence(route: Message -> nat, o: Oracle, batch: seq<Message>, w: World, schedule: seq<Action>)
    requires KeepsTogether(route, o, batch)
    requires Legal(route, o, batch, Start(w), schedule)
    requires Finished(Run(route, o, batch, Start(w), schedule))
    ensures Run(route, o, batch, Start(w), schedule).world == HandleAll(o, w.(errors := multiset{}), batch)
  {
    var gigLane := (k: string) => GigLane(route, o, batch, k);
    var idLane := (e: string) => IdLane(route, batch, e);
    var c := Start(w);
    var d := Run(route, o, batch, c, schedule);
    assert Divides(route, o, batch, gigLane, idLane) by {
      forall m | m in batch
        ensures gigLane(o.target(m)) == Lane(route, m) == idLane(EventId(m))
      {
        assert o.target(m) == o.target(m) && EventId(m) == EventId(m);
      }
    }
    forall l | 0 <= l < LANES
      ensures Agree(route, gigLane, idLane, l, d.world, HandleAll(o, c.world, batch))
    {
      OutlookRun(route, o, batch, gigLane, idLane, l, c, schedule);
      assert batch[0..] == batch;
      assert Pending(route, batch, c, l) == OfLane(route, batch, l);
      assert Pending(route, batch, d, l) == [];
      assert Outlook(route, o, batch, d, l) == d.world;
      SequentialByLane(route, o, batch, gigLane, idLane, l, c.world, c.world, batch);
    }
    AgreeEverywhere(route, gigLane, idLane, d.world, HandleAll(o, c.world, batch));
  }
}
