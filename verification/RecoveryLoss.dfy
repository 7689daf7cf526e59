/** When an event is lost: a claim left behind without success or dead letter is committed past after
    redelivery; and three ways to leave one. */
module RecoveryLoss {
  import opened Wrappers
  import opened Domain
  import opened Commands
  import opened RecoverySettle
  import opened RecoverySchedule
  import opened RecoveryPartition
  import opened RecoveryNoLoss

  /** A history that keeps to what the no-loss result asks for. */
  ghost predicate CarefulFrom(route: Message -> nat, log: seq<Message>, p: Partition, events: seq<Event>) {
    WellFormed(log, p) && History(route, log, p, events) && CarefulHistory(route, log, p, events)
  }

  ghost predicate NoStop(events: seq<Event>) {
    forall i :: 0 <= i < |events| ==> !events[i].Stop?
  }

  lemma Cons(route: Message -> nat, log: seq<Message>, p: Partition, e: Event, rest: seq<Event>)
    requires WellFormed(log, p) && Possible(route, log, p, e)
    requires History(route, log, Next(route, log, p, e), rest)
    ensures History(route, log, p, [e] + rest)
    ensures After(route, log, p, [e] + rest) == After(route, log, Next(route, log, p, e), rest)
    ensures Careful(log, p, e) && CarefulHistory(route, log, Next(route, log, p, e), rest) ==> CarefulHistory(route, log, p, [e] + rest)
  {
    assert ([e] + rest)[1..] == rest;
  }

  lemma {:induction false} Join(route: Message -> nat, log: seq<Message>, p: Partition, a: seq<Event>, b: seq<Event>)
    requires WellFormed(log, p) && History(route, log, p, a)
    requires History(route, log, After(route, log, p, a), b)
    ensures History(route, log, p, a + b)
    ensures After(route, log, p, a + b) == After(route, log, After(route, log, p, a), b)
    ensures CarefulHistory(route, log, p, a) && CarefulHistory(route, log, After(route, log, p, a), b) ==>
              CarefulHistory(route, log, p, a + b)
    decreases |a|
  {
    if a == [] {
      assert a + b == b;
    } else {
      Join(route, log, Next(route, log, p, a[0]), a[1..], b);
      assert (a + b)[1..] == a[1..] + b;
    }
  }

  // ----- The delivery of one message -----

  /** A batch of one message, which its worker holds in slot `s`. */
  ghost predicate Holding(route: Message -> nat, log: seq<Message>, p: Partition, pos: nat, o: Oracle, w: World, s: Slot) {
    && pos < |log| && WellFormed(log, p)
    && p.phase == Running(pos, 1, o, Config(1, true, Start(w).queues, Start(w).slots[Lane(route, log[pos]) := s], w))
  }

  lemma BatchOfOne(log: seq<Message>, pos: nat)
    requires pos < |log|
    ensures log[pos..pos + 1] == [log[pos]]
  {
  }

  /** The dispatcher sends the message and closes the lanes, and the worker takes it. */
  lemma SentAndTaken(route: Message -> nat, log: seq<Message>, p: Partition, pos: nat, o: Oracle, w: World)
      returns (events: seq<Event>, q: Partition)
    requires pos < |log| && WellFormed(log, p) && p.phase == Running(pos, 1, o, Start(w))
    ensures CarefulFrom(route, log, p, events) && q == After(route, log, p, events) && NoStop(events)
    ensures Holding(route, log, q, pos, o, Start(w).world, Picked(log[pos])) && q.watermark == p.watermark && q.world == p.world
  {
    var m := log[pos];
    var l := Lane(route, m);
    BatchOfOne(log, pos);
    var p1 := Next(route, log, p, Act(Dispatch));
    var p2 := Next(route, log, p1, Act(Close));
    assert p2.phase.c.queues[l] == [m];
    q := Next(route, log, p2, Act(Take(l)));
    assert [m][1..] == [];
    assert q.phase.c.queues == Start(w).queues;
    Cons(route, log, p2, Act(Take(l)), []);
    Cons(route, log, p1, Act(Close), [Act(Take(l))] + []);
    Cons(route, log, p, Act(Dispatch), [Act(Close)] + ([Act(Take(l))] + []));
    events := [Act(Dispatch)] + ([Act(Close)] + ([Act(Take(l))] + []));
  }

  /** The next message is fetched alone and taken. */
  lemma Deliver(route: Message -> nat, log: seq<Message>, p: Partition, o: Oracle) returns (events: seq<Event>, q: Partition)
    requires WellFormed(log, p) && p.phase.Ready? && p.phase.pos < |log|
    ensures History(route, log, p, events) && q == After(route, log, p, events) && NoStop(events)
    ensures ReleaseOrLetter(o) ==> CarefulHistory(route, log, p, events)
    ensures Holding(route, log, q, p.phase.pos, o, Start(p.world).world, Picked(log[p.phase.pos]))
    ensures q.watermark == p.watermark && q.world == p.world
  {
    var p1 := Next(route, log, p, Fetch(1, o));
    var rest;
    rest, q := SentAndTaken(route, log, p1, p.phase.pos, o, p.world);
    Cons(route, log, p, Fetch(1, o), rest);
    events := [Fetch(1, o)] + rest;
  }

  /** One action of the worker that holds the message. */
  lemma WorkOnce(route: Message -> nat, log: seq<Message>, p: Partition, pos: nat, o: Oracle, w: World, s: Slot) returns (q: Partition)
    requires Holding(route, log, p, pos, o, w, s) && !s.Idle? && s.m == log[pos] && w.errors == multiset{}
    ensures Possible(route, log, p, Act(Work(Lane(route, log[pos])))) && q == Next(route, log, p, Act(Work(Lane(route, log[pos]))))
    ensures Holding(route, log, q, pos, o, Advance(o, w, s).0, Advance(o, w, s).1) && q.watermark == p.watermark && q.world == p.world
  {
    BatchOfOne(log, pos);
    q := Next(route, log, p, Act(Work(Lane(route, log[pos]))));
  }

  lemma HoldingDone(route: Message -> nat, log: seq<Message>, p: Partition, pos: nat, o: Oracle, w: World)
    requires Holding(route, log, p, pos, o, w, Idle)
    ensures Finished(p.phase.c)
  {
  }

  // ----- A claim left behind -----

  /** Every claim fails but that of `id`; dead letters work. */
  function Skipping(id: string, handle: (Option<Gig>, Message) -> Handled): Oracle {
    Oracle(m => "", handle, m => EventId(m) != id, m => false, m => false)
  }

  /** Claimed, and with neither success nor dead letter. */
  ghost predicate LeftBehind(w: World, id: string) {
    id in w.claims && !Resolved(w, id)
  }

  /** The next message is settled without the event left behind: its own deliveries find it claimed, the others are
      dead-lettered. */
  lemma PassOne(route: Message -> nat, log: seq<Message>, p: Partition, id: string) returns (events: seq<Event>)
    requires WellFormed(log, p) && p.phase.Ready? && p.phase.pos < |log| && LeftBehind(p.world, id)
    ensures CarefulFrom(route, log, p, events) && NoStop(events)
    ensures var q := After(route, log, p, events);
            && q.phase == Ready(p.phase.pos + 1) && q.watermark == log[p.phase.pos].offset + 1 && LeftBehind(q.world, id)
  {
    var pos, m := p.phase.pos, log[p.phase.pos];
    var l := Lane(route, m);
    var o := Skipping(id, (g, n) => Handled(g, false));
    var w := Start(p.world).world;
    var start, p5 := Deliver(route, log, p, o);
    var p6 := WorkOnce(route, log, p5, pos, o, w, Picked(m));
    var end;
    if EventId(m) == id {
      end := CommitPassed(route, log, p6, pos, o, Advance(o, w, Picked(m)).0);
    } else {
      var p7 := WorkOnce(route, log, p6, pos, o, w, Dead(m));
      var last := CommitPassed(route, log, p7, pos, o, Advance(o, w, Dead(m)).0);
      Cons(route, log, p6, Act(Work(l)), last);
      end := [Act(Work(l))] + last;
    }
    Cons(route, log, p5, Act(Work(l)), end);
    Join(route, log, p, start, [Act(Work(l))] + end);
    events := start + ([Act(Work(l))] + end);
    StaysBehind(p.world, m, id);
  }

  lemma StaysBehind(w: World, m: Message, id: string)
    requires LeftBehind(w, id)
    ensures LeftBehind(w.(settled := w.settled + multiset{AlreadyClaimed(m)}, errors := multiset{}), id)
    ensures EventId(m) != id ==> LeftBehind(w.(settled := w.settled + multiset{DeadLettered(m)}, errors := multiset{}), id)
  {
  }

  lemma CommitPassed(route: Message -> nat, log: seq<Message>, p: Partition, pos: nat, o: Oracle, w: World) returns (events: seq<Event>)
    requires Holding(route, log, p, pos, o, w, Idle) && w.errors == multiset{}
    ensures CarefulFrom(route, log, p, events) && NoStop(events)
    ensures After(route, log, p, events) == p.(watermark := log[pos].offset + 1, phase := Ready(pos + 1), world := w)
  {
    HoldingDone(route, log, p, pos, o, w);
    Cons(route, log, p, Commit, []);
    events := [Commit] + [];
  }

  lemma {:induction false} PassTo(route: Message -> nat, log: seq<Message>, p: Partition, id: string, end: nat) returns (events: seq<Event>)
    requires WellFormed(log, p) && p.phase.Ready? && p.phase.pos < end <= |log| && LeftBehind(p.world, id)
    ensures CarefulFrom(route, log, p, events) && NoStop(events)
    ensures var q := After(route, log, p, events);
            && !q.phase.Running? && q.watermark == log[end - 1].offset + 1 && LeftBehind(q.world, id)
    decreases end - p.phase.pos
  {
    events := PassOne(route, log, p, id);
    var q := After(route, log, p, events);
    if p.phase.pos + 1 < end {
      var rest := PassTo(route, log, q, id, end);
      Join(route, log, p, events, rest);
      events := events + rest;
    }
  }

  /** The message's event was committed without success or dead letter. */
  ghost predicate Lost(p: Partition, m: Message) {
    m.offset < p.watermark && !Resolved(Now(p), EventId(m))
  }

  ghost predicate StopsCarefully(p: Partition) {
    p.phase.Running? && Shaped(p.phase.c) ==> forall l :: 0 <= l < LANES ==> !Guards(p.phase.o, p.phase.c.slots[l])
  }

  /** Main result. For any log, route and state: an event of the log left claimed, with neither success nor dead
      letter, has a continuation that commits past it. Unless a worker guards a claim, it is a careful one. */
  lemma LeftBehindIsLost(route: Message -> nat, log: seq<Message>, p: Partition, m: Message) returns (events: seq<Event>)
    requires Ordered(log) && WellFormed(log, p) && m in log && LeftBehind(Now(p), EventId(m))
    ensures History(route, log, p, events) && Lost(After(route, log, p, events), m)
    ensures StopsCarefully(p) ==> CarefulHistory(route, log, p, events)
    ensures p.phase.Stopped? ==> NoStop(events)
  {
    if m.offset < p.watermark {
      events := [];
    } else if p.phase.Stopped? {
      events := ThenCommitted(route, log, p, m);
    } else {
      var rest := ThenCommitted(route, log, Next(route, log, p, Stop), m);
      Cons(route, log, p, Stop, rest);
      events := [Stop] + rest;
    }
  }

  /** The next generation starts at the watermark and passes the message. */
  lemma ThenCommitted(route: Message -> nat, log: seq<Message>, p: Partition, m: Message) returns (events: seq<Event>)
    requires Ordered(log) && WellFormed(log, p) && p.phase.Stopped? && m in log && p.watermark <= m.offset && LeftBehind(p.world, EventId(m))
    ensures CarefulFrom(route, log, p, events) && NoStop(events)
    ensures Lost(After(route, log, p, events), m)
  {
    var k :| 0 <= k < |log| && log[k] == m;
    var q := Next(route, log, p, Assign);
    SeekSplits(log, p.watermark);
    var rest := PassTo(route, log, q, EventId(m), k + 1);
    Cons(route, log, p, Assign, rest);
    events := [Assign] + rest;
  }

  /** No careful continuation loses an event of the log. */
  ghost predicate SafeFrom(route: Message -> nat, log: seq<Message>, p: Partition) {
    forall events, m :: CarefulFrom(route, log, p, events) && m in log ==> !LostAfter(route, log, p, events, m)
  }

  ghost predicate LostAfter(route: Message -> nat, log: seq<Message>, p: Partition, events: seq<Event>, m: Message)
    requires CarefulFrom(route, log, p, events)
  {
    Lost(After(route, log, p, events), m)
  }

  lemma LosslessIsSafe(route: Message -> nat, log: seq<Message>, p: Partition, events: seq<Event>, m: Message)
    requires Lossless(route, log, p) && CarefulFrom(route, log, p, events) && m in log
    ensures !LostAfter(route, log, p, events, m)
  {
    LosslessAfter(route, log, p, events);
    var q := After(route, log, p, events);
    if m.offset < q.watermark {
      LosslessBelow(route, log, q, m);
    }
  }

  /** Main result. Where no batch is under way, in any state a history of stops, crashes and failures can leave, no
      careful continuation loses an event if and only if every event below the watermark and every claimed event of the
      log has a success or a dead letter. */
  lemma SafeExactly(route: Message -> nat, log: seq<Message>, p: Partition)
    requires Sound(route, log, p) && !p.phase.Running?
    ensures SafeFrom(route, log, p) <==> BelowResolved(log, p.watermark, p.world) && ClaimsResolved(log, p.world)
  {
    if BelowResolved(log, p.watermark, p.world) && ClaimsResolved(log, p.world) {
      forall events, m | CarefulFrom(route, log, p, events) && m in log
        ensures !LostAfter(route, log, p, events, m)
      {
        LosslessIsSafe(route, log, p, events, m);
      }
    }
    if SafeFrom(route, log, p) {
      forall m | m in log[..Seek(log, p.watermark)]
        ensures Resolved(p.world, EventId(m))
      {
        SafeBelow(route, log, p, m);
      }
      forall m | m in log && EventId(m) in p.world.claims
        ensures Resolved(p.world, EventId(m))
      {
        if !Resolved(p.world, EventId(m)) {
          ClaimIsUnsafe(route, log, p, m);
        }
      }
    }
  }

  lemma SafeBelow(route: Message -> nat, log: seq<Message>, p: Partition, m: Message)
    requires Sound(route, log, p) && !p.phase.Running? && SafeFrom(route, log, p) && m in log[..Seek(log, p.watermark)]
    ensures Resolved(p.world, EventId(m))
  {
    SeekBounds(log, p.watermark);
    assert CarefulFrom(route, log, p, []);
    assert !LostAfter(route, log, p, [], m);
  }

  lemma ClaimIsUnsafe(route: Message -> nat, log: seq<Message>, p: Partition, m: Message)
    requires Sound(route, log, p) && !p.phase.Running? && m in log && LeftBehind(p.world, EventId(m))
    ensures !SafeFrom(route, log, p)
  {
    var events := LeftBehindIsLost(route, log, p, m);
    assert LostAfter(route, log, p, events, m);
  }

  // ----- Three ways to leave one behind -----

  /** The first generation delivers the first message, and its worker claims it. */
  lemma ClaimFirst(route: Message -> nat, log: seq<Message>, p: Partition, o: Oracle) returns (events: seq<Event>, q: Partition, w: World)
    requires Initial(p) && log != [] && !o.claimError(log[0])
    ensures History(route, log, p, events) && q == After(route, log, p, events) && NoStop(events)
    ensures Holding(route, log, q, 0, o, w, Claimed(log[0])) && LeftBehind(w, EventId(log[0])) && w.errors == multiset{}
  {
    var m := log[0];
    var p1 := Next(route, log, p, Assign);
    assert Seek(log, 0) == 0;
    var start, p5 := Deliver(route, log, p1, o);
    q := WorkOnce(route, log, p5, 0, o, Start(p.world).world, Picked(m));
    w := Advance(o, Start(p.world).world, Picked(m)).0;
    Cons(route, log, p5, Act(Work(Lane(route, m))), []);
    Join(route, log, p1, start, [Act(Work(Lane(route, m)))] + []);
    Cons(route, log, p, Assign, start + ([Act(Work(Lane(route, m)))] + []));
    events := [Assign] + (start + ([Act(Work(Lane(route, m)))] + []));
  }

  /** The handler fails and the release fails. */
  lemma FailToRelease(route: Message -> nat, log: seq<Message>, p: Partition, o: Oracle) returns (events: seq<Event>, q: Partition, w: World)
    requires Initial(p) && log != [] && !o.claimError(log[0]) && o.releaseError(log[0])
    requires forall g :: !o.handle(g, log[0]).ok
    ensures History(route, log, p, events) && q == After(route, log, p, events) && NoStop(events)
    ensures Holding(route, log, q, 0, o, w, Dead(log[0])) && LeftBehind(w, EventId(log[0])) && w.errors == multiset{}
  {
    var m := log[0];
    var l := Lane(route, m);
    var claim, p6, w6 := ClaimFirst(route, log, p, o);
    var p7 := WorkOnce(route, log, p6, 0, o, w6, Claimed(m));
    var w7 := Advance(o, w6, Claimed(m)).0;
    q := WorkOnce(route, log, p7, 0, o, w7, Failed(m));
    w := w7;
    Cons(route, log, p7, Act(Work(l)), []);
    Cons(route, log, p6, Act(Work(l)), [Act(Work(l))] + []);
    Join(route, log, p, claim, [Act(Work(l))] + ([Act(Work(l))] + []));
    events := claim + ([Act(Work(l))] + ([Act(Work(l))] + []));
  }

  lemma ThenLost(route: Message -> nat, log: seq<Message>, p: Partition, first: seq<Event>, m: Message) returns (events: seq<Event>)
    requires Ordered(log) && WellFormed(log, p) && History(route, log, p, first) && m in log
    requires LeftBehind(Now(After(route, log, p, first)), EventId(m))
    ensures History(route, log, p, events) && Lost(After(route, log, p, events), m)
    ensures NoStop(first) && After(route, log, p, first).phase.Stopped? ==> NoStop(events)
  {
    var rest := LeftBehindIsLost(route, log, After(route, log, p, first), m);
    Join(route, log, p, first, rest);
    events := first + rest;
  }

  /** An owner that stops between claim and handling loses the message, whatever the log: after redelivery it is
      committed, with no success and no dead letter. */
  lemma StopLoses(route: Message -> nat, log: seq<Message>, p: Partition, o: Oracle) returns (events: seq<Event>)
    requires Ordered(log) && Initial(p) && log != [] && !o.claimError(log[0])
    ensures History(route, log, p, events) && Lost(After(route, log, p, events), log[0])
  {
    var first, q, w := ClaimFirst(route, log, p, o);
    events := ThenLost(route, log, p, first, log[0]);
  }

  /** So does one that stops after a failed release, before the dead letter is written. */
  lemma StopBeforeLetterLoses(route: Message -> nat, log: seq<Message>, p: Partition, o: Oracle) returns (events: seq<Event>)
    requires Ordered(log) && Initial(p) && log != [] && !o.claimError(log[0]) && o.releaseError(log[0])
    requires forall g :: !o.handle(g, log[0]).ok
    ensures History(route, log, p, events) && Lost(After(route, log, p, events), log[0])
  {
    var first, q, w := FailToRelease(route, log, p, o);
    events := ThenLost(route, log, p, first, log[0]);
  }

  /** And so does a failed release whose dead letter fails as well, with no stop at all. */
  lemma FailedReleaseLoses(route: Message -> nat, log: seq<Message>, p: Partition, o: Oracle) returns (events: seq<Event>)
    requires Ordered(log) && Initial(p) && log != []
    requires !o.claimError(log[0]) && o.releaseError(log[0]) && o.deadLetterError(log[0])
    requires forall g :: !o.handle(g, log[0]).ok
    ensures History(route, log, p, events) && Lost(After(route, log, p, events), log[0])
    ensures NoStop(events)
  {
    var m := log[0];
    var l := Lane(route, m);
    var first, p8, w8 := FailToRelease(route, log, p, o);
    var p9 := WorkOnce(route, log, p8, 0, o, w8, Dead(m));
    var w9 := Advance(o, w8, Dead(m)).0;
    HoldingDone(route, log, p9, 0, o, w9);
    assert w9.errors == multiset{m};
    Cons(route, log, p9, Abandon, []);
    Cons(route, log, p8, Act(Work(l)), [Abandon] + []);
    var giveUp := [Act(Work(l))] + ([Abandon] + []);
    Join(route, log, p, first, giveUp);
    events := ThenLost(route, log, p, first + giveUp, m);
  }
}
