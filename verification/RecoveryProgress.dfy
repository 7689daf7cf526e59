/** The fan-out of one recovery batch: it settles each message exactly once, keeps lane order, is never
    stuck and always finishes. */
module RecoveryProgress {
  import opened Commands
  import opened RecoverySettle
  import opened RecoverySchedule

  // ----- Each message is settled exactly once -----

  /** How often `m` has been settled. */
  function Times(w: World, m: Message): nat {
    w.settled[Succeeded(m)] + w.settled[AlreadyClaimed(m)] + w.settled[DeadLettered(m)]
  }

  function Holds(s: Slot, m: Message): nat {
    if !s.Idle? && s.m == m then 1 else 0
  }

  /** How often `m` is still to come: undispatched, queued or held by its lane's worker. */
  function Owed(route: Message -> nat, batch: seq<Message>, c: Config, m: Message): nat
    requires Shaped(c) && c.next <= |batch|
  {
    var l := Lane(route, m);
    multiset(batch[c.next..])[m] + multiset(c.queues[l])[m] + Holds(c.slots[l], m)
  }

  /** Conservation: what came in is still owed, was settled since `w`, or was reported as an error. */
  ghost predicate Accounted(route: Message -> nat, batch: seq<Message>, w: World, c: Config) {
    && Placed(route, batch, c)
    && (forall m :: Times(c.world, m) >= Times(w, m))
    && (forall m :: Owed(route, batch, c, m) + Times(c.world, m) + c.world.errors[m] == multiset(batch)[m] + Times(w, m))
  }

  lemma AccountedAtStart(route: Message -> nat, batch: seq<Message>, w: World)
    ensures Accounted(route, batch, w, Start(w))
  {
    assert batch[0..] == batch;
  }

  lemma AdvanceTimes(o: Oracle, w: World, s: Slot, m: Message)
    requires !s.Idle?
    ensures var (v, t) := Advance(o, w, s);
            && Times(v, m) >= Times(w, m)
            && Holds(t, m) + Times(v, m) + v.errors[m] == Holds(s, m) + Times(w, m) + w.errors[m]
  {
  }

  /** What is owed of `m` and what is accounted for add up as before. */
  ghost predicate OwedKept(route: Message -> nat, batch: seq<Message>, c: Config, d: Config, m: Message)
    requires Shaped(c) && c.next <= |batch|
  {
    && Shaped(d) && d.next <= |batch|
    && Times(d.world, m) >= Times(c.world, m)
    && Owed(route, batch, d, m) + Times(d.world, m) + d.world.errors[m]
       == Owed(route, batch, c, m) + Times(c.world, m) + c.world.errors[m]
  }

  lemma OwedDispatch(route: Message -> nat, o: Oracle, batch: seq<Message>, c: Config, m: Message)
    requires Placed(route, batch, c) && Enabled(route, o, batch, c, Dispatch)
    ensures OwedKept(route, batch, c, Apply(route, o, batch, c, Dispatch), m)
  {
    assert batch[c.next..] == [batch[c.next]] + batch[c.next + 1..];
  }

  lemma OwedTake(route: Message -> nat, o: Oracle, batch: seq<Message>, c: Config, k: nat, m: Message)
    requires Placed(route, batch, c) && Enabled(route, o, batch, c, Take(k))
    ensures OwedKept(route, batch, c, Apply(route, o, batch, c, Take(k)), m)
  {
    assert c.queues[k] == [c.queues[k][0]] + c.queues[k][1..];
    assert c.queues[k][0] in c.queues[k];
  }

  lemma OwedWork(route: Message -> nat, o: Oracle, batch: seq<Message>, c: Config, k: nat, m: Message)
    requires Placed(route, batch, c) && Enabled(route, o, batch, c, Work(k))
    ensures OwedKept(route, batch, c, Apply(route, o, batch, c, Work(k)), m)
  {
    AdvanceTimes(o, c.world, c.slots[k], m);
    if k != Lane(route, m) {
      assert Lane(route, c.slots[k].m) == k;
      assert Holds(c.slots[k], m) == 0;
    }
  }

  lemma OwedStep(route: Message -> nat, o: Oracle, batch: seq<Message>, c: Config, a: Action, m: Message)
    requires Placed(route, batch, c) && Enabled(route, o, batch, c, a)
    ensures OwedKept(route, batch, c, Apply(route, o, batch, c, a), m)
  {
    match a
    case Dispatch => OwedDispatch(route, o, batch, c, m);
    case Close =>
    case Take(k) => OwedTake(route, o, batch, c, k, m);
    case Work(k) => OwedWork(route, o, batch, c, k, m);
  }

  lemma AccountedStep(route: Message -> nat, o: Oracle, batch: seq<Message>, w: World, c: Config, a: Action)
    requires Accounted(route, batch, w, c) && Enabled(route, o, batch, c, a)
    ensures Accounted(route, batch, w, Apply(route, o, batch, c, a))
  {
    PlacedStep(route, o, batch, c, a);
    var d := Apply(route, o, batch, c, a);
    forall m
      ensures Times(d.world, m) >= Times(w, m)
      ensures Owed(route, batch, d, m) + Times(d.world, m) + d.world.errors[m] == multiset(batch)[m] + Times(w, m)
    {
      OwedStep(route, o, batch, c, a, m);
    }
  }

  lemma {:induction false} AccountedRun(route: Message -> nat, o: Oracle, batch: seq<Message>, w: World, c: Config, schedule: seq<Action>)
    requires Accounted(route, batch, w, c) && Legal(route, o, batch, c, schedule)
    ensures Accounted(route, batch, w, Run(route, o, batch, c, schedule))
    decreases |schedule|
  {
    if schedule != [] {
      AccountedStep(route, o, batch, w, c, schedule[0]);
      AccountedRun(route, o, batch, w, Apply(route, o, batch, c, schedule[0]), schedule[1..]);
    }
  }

  /** Under every schedule a finished batch has settled or reported each of its messages exactly once,
      and no other message. */
  lemma SettledExactlyOnce(route: Message -> nat, o: Oracle, batch: seq<Message>, w: World, schedule: seq<Action>, m: Message)
    requires Legal(route, o, batch, Start(w), schedule)
    requires Finished(Run(route, o, batch, Start(w), schedule))
    ensures var v := Run(route, o, batch, Start(w), schedule).world;
            Times(v, m) + v.errors[m] == Times(w, m) + multiset(batch)[m]
  {
    AccountedAtStart(route, batch, w);
    AccountedRun(route, o, batch, w, Start(w), schedule);
  }

  // ----- Never stuck -----

  lemma SubsetSize<T>(a: multiset<T>, b: multiset<T>)
    requires a <= b
    ensures |a| <= |b|
  {
    assert b == a + (b - a);
  }

  /** While a worker holds a message the results channel has room. */
  lemma ResultsNeverFull(route: Message -> nat, batch: seq<Message>, w: World, c: Config, l: nat)
    requires Accounted(route, batch, w, c)
    requires l < LANES && !c.slots[l].Idle?
    ensures |c.world.errors| < |batch|
  {
    var held := c.slots[l].m;
    forall m
      ensures (c.world.errors + multiset{held})[m] <= multiset(batch)[m]
    {
      assert Times(c.world, m) >= Times(w, m);
      assert Owed(route, batch, c, m) + Times(c.world, m) + c.world.errors[m] == multiset(batch)[m] + Times(w, m);
    }
    SubsetSize(c.world.errors + multiset{held}, multiset(batch));
  }

  /** No reachable state is a deadlock: until the batch has finished something can happen. */
  lemma NeverStuck(route: Message -> nat, o: Oracle, batch: seq<Message>, w: World, c: Config) returns (a: Action)
    requires Accounted(route, batch, w, c)
    requires !Finished(c)
    ensures Enabled(route, o, batch, c, a)
  {
    if l: nat :| l < LANES && !c.slots[l].Idle? {
      ResultsNeverFull(route, batch, w, c, l);
      a := Work(l);
    } else if l: nat :| l < LANES && c.queues[l] != [] {
      a := Take(l);
    } else if c.next < |batch| {
      a := Dispatch;
    } else {
      a := Close;
    }
  }

  // ----- Always finishes -----

  function Weight(c: Config, l: nat): nat
    requires Shaped(c) && l < LANES
  {
    5 * |c.queues[l]| + Rank(c.slots[l])
  }

  function WeightTo(c: Config, n: nat): nat
    requires Shaped(c) && n <= LANES
  {
    if n == 0 then 0 else WeightTo(c, n - 1) + Weight(c, n - 1)
  }

  /** The work left: it bounds the number of actions still possible. */
  function Measure(batch: seq<Message>, c: Config): nat
    requires Shaped(c) && c.next <= |batch|
  {
    6 * (|batch| - c.next) + WeightTo(c, LANES) + (if c.closed then 0 else 1)
  }

  lemma {:induction false} WeightToChange(c: Config, d: Config, k: nat, n: nat)
    requires Shaped(c) && Shaped(d) && k < LANES && n <= LANES
    requires forall l :: 0 <= l < LANES && l != k ==> Weight(d, l) == Weight(c, l)
    ensures WeightTo(d, n) - WeightTo(c, n) == if k < n then Weight(d, k) - Weight(c, k) else 0
  {
    if n > 0 {
      WeightToChange(c, d, k, n - 1);
    }
  }

  lemma MeasureDrops(route: Message -> nat, o: Oracle, batch: seq<Message>, c: Config, a: Action)
    requires Placed(route, batch, c) && Enabled(route, o, batch, c, a)
    ensures Apply(route, o, batch, c, a).next <= |batch|
    ensures Measure(batch, Apply(route, o, batch, c, a)) < Measure(batch, c)
  {
    var d := Apply(route, o, batch, c, a);
    match a
    case Dispatch => WeightToChange(c, d, Lane(route, batch[c.next]), LANES);
    case Close => WeightToChange(c, d, 0, LANES);
    case Take(k) => WeightToChange(c, d, k, LANES);
    case Work(k) =>
      assert Rank(d.slots[k]) < Rank(c.slots[k]);
      WeightToChange(c, d, k, LANES);
  }

  lemma {:induction false} ScheduleBound(route: Message -> nat, o: Oracle, batch: seq<Message>, c: Config, schedule: seq<Action>)
    requires Placed(route, batch, c) && Legal(route, o, batch, c, schedule)
    ensures |schedule| <= Measure(batch, c)
    decreases |schedule|
  {
    if schedule != [] {
      MeasureDrops(route, o, batch, c, schedule[0]);
      PlacedStep(route, o, batch, c, schedule[0]);
      ScheduleBound(route, o, batch, Apply(route, o, batch, c, schedule[0]), schedule[1..]);
    }
  }

  lemma {:induction false} EmptyWeight(c: Config, n: nat)
    requires Shaped(c) && n <= LANES
    requires forall l :: 0 <= l < LANES ==> c.queues[l] == [] && c.slots[l] == Idle
    ensures WeightTo(c, n) == 0
  {
    if n > 0 {
      EmptyWeight(c, n - 1);
    }
  }

  lemma {:induction false} RunAppend(route: Message -> nat, o: Oracle, batch: seq<Message>, c: Config, schedule: seq<Action>, a: Action)
    requires Shaped(c) && Legal(route, o, batch, c, schedule)
    requires Enabled(route, o, batch, Run(route, o, batch, c, schedule), a)
    ensures Legal(route, o, batch, c, schedule + [a])
    ensures Run(route, o, batch, c, schedule + [a]) == Apply(route, o, batch, Run(route, o, batch, c, schedule), a)
    decreases |schedule|
  {
    if schedule == [] {
      assert schedule + [a] == [a];
      var d := Apply(route, o, batch, c, a);
      assert Legal(route, o, batch, d, [a][1..]);
      assert Run(route, o, batch, c, [a]) == Run(route, o, batch, d, [a][1..]);
    } else {
      assert (schedule + [a])[1..] == schedule[1..] + [a];
      RunAppend(route, o, batch, Apply(route, o, batch, c, schedule[0]), schedule[1..], a);
    }
  }

  lemma StartBound(route: Message -> nat, o: Oracle, batch: seq<Message>, w: World, schedule: seq<Action>)
    requires Legal(route, o, batch, Start(w), schedule)
    ensures |schedule| <= 6 * |batch| + 1
  {
    AccountedAtStart(route, batch, w);
    ScheduleBound(route, o, batch, Start(w), schedule);
    EmptyWeight(Start(w), LANES);
  }

  lemma FinishedIsLast(route: Message -> nat, o: Oracle, batch: seq<Message>, c: Config, schedule: seq<Action>, a: Action)
    requires Shaped(c) && Legal(route, o, batch, c, schedule)
    requires Finished(Run(route, o, batch, c, schedule)) && Placed(route, batch, Run(route, o, batch, c, schedule))
    ensures !Legal(route, o, batch, c, schedule + [a])
  {
    if Legal(route, o, batch, c, schedule + [a]) {
      LegalLast(route, o, batch, c, schedule, a);
    }
  }

  lemma UnfinishedGoesOn(route: Message -> nat, o: Oracle, batch: seq<Message>, w: World, schedule: seq<Action>) returns (a: Action)
    requires Legal(route, o, batch, Start(w), schedule) && !Finished(Run(route, o, batch, Start(w), schedule))
    ensures Legal(route, o, batch, Start(w), schedule + [a])
  {
    AccountedAtStart(route, batch, w);
    AccountedRun(route, o, batch, w, Start(w), schedule);
    a := NeverStuck(route, o, batch, w, Run(route, o, batch, Start(w), schedule));
    RunAppend(route, o, batch, Start(w), schedule, a);
  }

  /** Main result. Every schedule takes at most 6n + 1 actions on a batch of n messages, and one that
      cannot be continued has finished: the dispatcher, the lanes and the workers never deadlock. */
  lemma AlwaysFinishes(route: Message -> nat, o: Oracle, batch: seq<Message>, w: World, schedule: seq<Action>)
    requires Legal(route, o, batch, Start(w), schedule)
    ensures |schedule| <= 6 * |batch| + 1
    ensures Finished(Run(route, o, batch, Start(w), schedule)) <==>
            forall a :: !Legal(route, o, batch, Start(w), schedule + [a])
  {
    StartBound(route, o, batch, w, schedule);
    AccountedAtStart(route, batch, w);
    AccountedRun(route, o, batch, w, Start(w), schedule);
    if Finished(Run(route, o, batch, Start(w), schedule)) {
      forall a
        ensures !Legal(route, o, batch, Start(w), schedule + [a])
      {
        FinishedIsLast(route, o, batch, Start(w), schedule, a);
      }
    } else {
      var a := UnfinishedGoesOn(route, o, batch, w, schedule);
    }
  }

  lemma {:induction false} LegalLast(route: Message -> nat, o: Oracle, batch: seq<Message>, c: Config, schedule: seq<Action>, a: Action)
    requires Shaped(c) && Legal(route, o, batch, c, schedule) && Legal(route, o, batch, c, schedule + [a])
    ensures Enabled(route, o, batch, Run(route, o, batch, c, schedule), a)
    decreases |schedule|
  {
    if schedule == [] {
      assert schedule + [a] == [a];
    } else {
      assert (schedule + [a])[1..] == schedule[1..] + [a];
      LegalLast(route, o, batch, Apply(route, o, batch, c, schedule[0]), schedule[1..], a);
    }
  }

  // ----- Lane order -----

  /** The messages the workers took, in the order they took them. */
  function Taken(route: Message -> nat, o: Oracle, batch: seq<Message>, c: Config, schedule: seq<Action>): seq<Message>
    requires Shaped(c) && Legal(route, o, batch, c, schedule)
    decreases |schedule|
  {
    if schedule == [] then []
    else
      TakenBy(c, schedule[0]) + Taken(route, o, batch, Apply(route, o, batch, c, schedule[0]), schedule[1..])
  }

  /** The message an action takes, if it takes one. */
  function TakenBy(c: Config, a: Action): seq<Message> {
    if a.Take? && a.lane < |c.queues| && c.queues[a.lane] != [] then [c.queues[a.lane][0]] else []
  }

  lemma PendingTake(route: Message -> nat, o: Oracle, batch: seq<Message>, c: Config, k: nat, l: nat)
    requires Placed(route, batch, c) && Enabled(route, o, batch, c, Take(k)) && l < LANES
    ensures Pending(route, batch, c, l)
            == OfLane(route, TakenBy(c, Take(k)), l) + Pending(route, batch, Apply(route, o, batch, c, Take(k)), l)
  {
    var m, rest := c.queues[k][0], c.queues[k][1..];
    assert m in c.queues[k];
    assert OfLane(route, [m], l) == if k == l then [m] else [];
    assert c.queues[k] == [m] + rest;
    var later := OfLane(route, batch[c.next..], l);
    assert [m] + rest + later == [m] + (rest + later);
    assert [] + (c.queues[l] + later) == c.queues[l] + later;
  }

  lemma PendingDispatch(route: Message -> nat, o: Oracle, batch: seq<Message>, c: Config, l: nat)
    requires Placed(route, batch, c) && Enabled(route, o, batch, c, Dispatch) && l < LANES
    ensures Pending(route, batch, c, l) == Pending(route, batch, Apply(route, o, batch, c, Dispatch), l)
  {
    var m, rest := batch[c.next], batch[c.next + 1..];
    assert batch[c.next..] == [m] + rest;
    assert c.queues[l] + ([m] + OfLane(route, rest, l)) == c.queues[l] + [m] + OfLane(route, rest, l);
  }

  lemma PendingStep(route: Message -> nat, o: Oracle, batch: seq<Message>, c: Config, a: Action, l: nat)
    requires Placed(route, batch, c) && Enabled(route, o, batch, c, a) && l < LANES
    ensures Apply(route, o, batch, c, a).next <= |batch|
    ensures Pending(route, batch, c, l)
            == OfLane(route, TakenBy(c, a), l) + Pending(route, batch, Apply(route, o, batch, c, a), l)
  {
    if a.Take? {
      PendingTake(route, o, batch, c, a.lane, l);
    } else {
      var d := Apply(route, o, batch, c, a);
      assert [] + Pending(route, batch, d, l) == Pending(route, batch, d, l);
      if a.Dispatch? {
        PendingDispatch(route, o, batch, c, l);
      }
    }
  }

  /** The lane's part of what was taken, followed by what it has pending in `d`, is what it had pending in `c`. */
  ghost predicate LaneKept(route: Message -> nat, batch: seq<Message>, l: nat, c: Config, taken: seq<Message>, d: Config)
    requires l < LANES && Shaped(c) && Shaped(d) && c.next <= |batch|
  {
    d.next <= |batch| && OfLane(route, taken, l) + Pending(route, batch, d, l) == Pending(route, batch, c, l)
  }

  lemma LaneKeptCompose(route: Message -> nat, batch: seq<Message>, l: nat, c: Config, first: seq<Message>, d: Config,
                        rest: seq<Message>, e: Config)
    requires l < LANES && Shaped(c) && Shaped(d) && Shaped(e) && c.next <= |batch| && d.next <= |batch|
    requires LaneKept(route, batch, l, c, first, d) && LaneKept(route, batch, l, d, rest, e)
    ensures LaneKept(route, batch, l, c, first + rest, e)
  {
    OfLaneAppend(route, first, rest, l);
    var x, y, z := OfLane(route, first, l), OfLane(route, rest, l), Pending(route, batch, e, l);
    assert (x + y) + z == x + (y + z);
  }

  /** Each lane's messages are taken in their order in the batch: what a lane's worker took, followed by
      what it has pending, is always that lane's part of the batch. */
  lemma {:induction false} LaneOrder(route: Message -> nat, o: Oracle, batch: seq<Message>, c: Config, schedule: seq<Action>, l: nat)
    requires Placed(route, batch, c) && Legal(route, o, batch, c, schedule) && l < LANES
    ensures LaneKept(route, batch, l, c, Taken(route, o, batch, c, schedule), Run(route, o, batch, c, schedule))
    decreases |schedule|
  {
    if schedule == [] {
      assert [] + Pending(route, batch, c, l) == Pending(route, batch, c, l);
    } else {
      var d := Apply(route, o, batch, c, schedule[0]);
      PlacedStep(route, o, batch, c, schedule[0]);
      PendingStep(route, o, batch, c, schedule[0], l);
      LaneOrder(route, o, batch, d, schedule[1..], l);
      LaneKeptCompose(route, batch, l, c, TakenBy(c, schedule[0]), d, Taken(route, o, batch, d, schedule[1..]),
                      Run(route, o, batch, d, schedule[1..]));
    }
  }
}
