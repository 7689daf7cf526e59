/** broker.go, runRecoveryBatch and handleRecoveryMessage in their own form: lane channels and workers that
    change shared state, scheduled in any order. */
module RecoveryBatch {
  import opened Commands
  import opened RecoverySettle
  import opened RecoverySchedule
  import opened RecoveryProgress
  import opened RecoveryPartition
  import opened RecoveryRouting
  import opened Wrappers

  /** Reads on from message `pos` until 200 messages are there or a fetch fails or times out, which
      happens after `more` further messages. */
  method FetchBatch(log: seq<Message>, pos: nat, more: nat) returns (batch: seq<Message>)
    requires pos < |log|
    ensures pos + |batch| <= |log| && batch == log[pos..pos + |batch|]
    ensures 0 < |batch| <= MAX_BATCH
    ensures |batch| == MAX_BATCH || pos + |batch| == |log| || |batch| == more + 1
  {
    batch := [log[pos]];
    var left := more;
    while |batch| < MAX_BATCH && left > 0 && pos + |batch| < |log|
      invariant 0 < |batch| <= MAX_BATCH && pos + |batch| <= |log|
      invariant batch == log[pos..pos + |batch|]
      invariant |batch| + left == more + 1
    {
      batch := batch + [log[pos + |batch|]];
      left := left - 1;
    }
  }

  class LaneRun {
    const route: Message -> nat
    const o: Oracle
    const batch: seq<Message>
    const lanes: array<seq<Message>>
    const workers: array<Slot>
    var next: nat
    var closed: bool
    var world: World

    constructor (route: Message -> nat, o: Oracle, batch: seq<Message>, world: World)
      ensures View() == Start(world)
      ensures this.route == route && this.o == o && this.batch == batch
      ensures fresh(lanes) && fresh(workers)
      ensures Valid()
    {
      this.route, this.o, this.batch := route, o, batch;
      this.lanes := new seq<Message>[LANES](_ => []);
      this.workers := new Slot[LANES](_ => Idle);
      this.next, this.closed, this.world := 0, false, world.(errors := multiset{});
      new;
      assert lanes[..] == seq(LANES, _ => []);
      assert workers[..] == seq(LANES, _ => Idle);
    }

    ghost predicate Valid() {
      lanes.Length == LANES && workers.Length == LANES
    }

    ghost function View(): Config
      reads this, lanes, workers
    {
      Config(next, closed, lanes[..], workers[..], world)
    }

    /** The dispatcher sends the next message to its lane. */
    method Dispatch()
      requires Valid() && Enabled(route, o, batch, View(), Action.Dispatch)
      modifies this, lanes
      ensures View() == Apply(route, o, batch, old(View()), Action.Dispatch)
    {
      var l := Lane(route, batch[next]);
      lanes[l] := lanes[l] + [batch[next]];
      next := next + 1;
    }

    method Close()
      requires Valid() && Enabled(route, o, batch, View(), Action.Close)
      modifies this
      ensures View() == Apply(route, o, batch, old(View()), Action.Close)
    {
      closed := true;
    }

    /** Worker `l` receives the head of its lane. */
    method Take(l: nat)
      requires Valid() && Enabled(route, o, batch, View(), Action.Take(l))
      modifies lanes, workers
      ensures View() == Apply(route, o, batch, old(View()), Action.Take(l))
    {
      workers[l] := Picked(lanes[l][0]);
      lanes[l] := lanes[l][1..];
    }

    /** One atomic action of a worker: claim, handle, release or dead-letter. */
    method Work(l: nat)
      requires Valid() && Enabled(route, o, batch, View(), Action.Work(l))
      modifies this, workers
      ensures View() == Apply(route, o, batch, old(View()), Action.Work(l))
    {
      match workers[l]
      case Picked(m) =>
        if o.claimError(m) {
          workers[l] := Dead(m);
        } else if EventId(m) in world.claims {
          world := world.(settled := world.settled + multiset{AlreadyClaimed(m)});
          workers[l] := Idle;
        } else {
          world := world.(claims := world.claims + {EventId(m)});
          workers[l] := Claimed(m);
        }
      case Claimed(m) =>
        var handled := o.handle(Lookup(world.store, o.target(m)), m);
        world := world.(store := Put(world.store, o.target(m), handled.gig));
        if handled.ok {
          world := world.(successes := world.successes + multiset{EventId(m)},
                          settled := world.settled + multiset{Succeeded(m)});
          workers[l] := Idle;
        } else {
          workers[l] := Failed(m);
        }
      case Failed(m) =>
        if !o.releaseError(m) {
          world := world.(claims := world.claims - {EventId(m)});
        }
        workers[l] := Dead(m);
      case Dead(m) =>
        if o.deadLetterError(m) {
          world := world.(errors := world.errors + multiset{m});
        } else {
          world := world.(settled := world.settled + multiset{DeadLettered(m)});
        }
        workers[l] := Idle;
    }

    /** Whoever can move moves: the dispatcher, or any worker. */
    method Move(ghost w: World) returns (ghost a: Action)
      requires Valid() && Accounted(route, batch, w, View()) && !Finished(View())
      modifies this, lanes, workers
      ensures Enabled(route, o, batch, old(View()), a)
      ensures View() == Apply(route, o, batch, old(View()), a)
    {
      ghost var enabled := NeverStuck(route, o, batch, w, View());
      if
        case next < |batch| && |lanes[Lane(route, batch[next])]| < Capacity(batch) =>
          a := Action.Dispatch;
          Dispatch();
        case next == |batch| && !closed =>
          a := Action.Close;
          Close();
        case exists l :: 0 <= l < LANES && workers[l].Idle? && lanes[l] != [] =>
          var l :| 0 <= l < LANES && workers[l].Idle? && lanes[l] != [];
          a := Action.Take(l);
          Take(l);
        case exists l :: 0 <= l < LANES && !workers[l].Idle? =>
          var l :| 0 <= l < LANES && !workers[l].Idle?;
          ResultsNeverFull(route, batch, w, View(), l);
          a := Action.Work(l);
          Work(l);
    }

    /** Dispatcher and workers move in any order until the lanes are closed and drained. Every order ends,
        and when related messages share a lane it ends as handling the batch message by message does. */
    method Drive()
      requires Valid() && View() == Start(world)
      modifies this, lanes, workers
      ensures Finished(View())
      ensures KeepsTogether(route, o, batch) ==> world == HandleAll(o, old(world).(errors := multiset{}), batch)
      ensures forall m :: Times(world, m) + world.errors[m] == Times(old(world), m) + multiset(batch)[m]
    {
      ghost var w := world;
      ghost var schedule: seq<Action> := [];
      AccountedAtStart(route, batch, w);
      while !(closed && forall l :: 0 <= l < LANES ==> lanes[l] == [] && workers[l].Idle?)
        invariant Driven(route, o, batch, w, schedule, View())
        decreases Measure(batch, View())
      {
        ghost var before := View();
        assert !Finished(before);
        ghost var a := Move(w);
        DrivenStep(route, o, batch, w, schedule, before, a);
        schedule := schedule + [a];
      }
      DrivenEnd(route, o, batch, w, schedule, View());
    }
  }

  /** `c` is where the batch started on `w` stands after `schedule`. */
  ghost predicate Driven(route: Message -> nat, o: Oracle, batch: seq<Message>, w: World, schedule: seq<Action>, c: Config) {
    && Accounted(route, batch, w, c)
    && Legal(route, o, batch, Start(w), schedule)
    && c == Run(route, o, batch, Start(w), schedule)
  }

  lemma DrivenStep(route: Message -> nat, o: Oracle, batch: seq<Message>, w: World, schedule: seq<Action>, c: Config, a: Action)
    requires Driven(route, o, batch, w, schedule, c) && Enabled(route, o, batch, c, a)
    ensures Driven(route, o, batch, w, schedule + [a], Apply(route, o, batch, c, a))
    ensures Measure(batch, Apply(route, o, batch, c, a)) < Measure(batch, c)
  {
    RunAppend(route, o, batch, Start(w), schedule, a);
    AccountedStep(route, o, batch, w, c, a);
    MeasureDrops(route, o, batch, c, a);
  }

  lemma DrivenEnd(route: Message -> nat, o: Oracle, batch: seq<Message>, w: World, schedule: seq<Action>, c: Config)
    requires Driven(route, o, batch, w, schedule, c) && Finished(c)
    ensures KeepsTogether(route, o, batch) ==> c.world == HandleAll(o, w.(errors := multiset{}), batch)
    ensures forall m :: Times(c.world, m) + c.world.errors[m] == Times(w, m) + multiset(batch)[m]
  {
    forall m
      ensures Times(c.world, m) + c.world.errors[m] == Times(w, m) + multiset(batch)[m]
    {
      SettledExactlyOnce(route, o, batch, w, schedule, m);
    }
    if KeepsTogether(route, o, batch) {
      ScheduleIndependence(route, o, batch, w, schedule);
    }
  }

  /** broker.go, runRecoveryBatch: handles a batch on the lanes and commits the offset after its last
      message, unless some message could be neither handled nor dead-lettered. */
  method RunRecoveryBatch(hash: string -> nat, o: Oracle, batch: seq<Message>, world: World)
      returns (after: World, commit: Option<nat>)
    requires batch != []
    ensures KeepsTogether(ByKey(hash), o, batch) ==> after == HandleAll(o, world.(errors := multiset{}), batch)
    ensures forall m :: Times(after, m) + after.errors[m] == Times(world, m) + multiset(batch)[m]
    ensures commit == if after.errors == multiset{} then Some(batch[|batch| - 1].offset + 1) else None
    ensures commit.Some? ==> forall m :: m in batch ==> Times(after, m) > Times(world, m)
  {
    var run := new LaneRun(ByKey(hash), o, batch, world);
    run.Drive();
    after := run.world;
    if after.errors == multiset{} {
      commit := Some(batch[|batch| - 1].offset + 1);
    } else {
      commit := None;
    }
  }
}
