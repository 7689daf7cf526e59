/** The order in which one generation handles the messages of a lane, across its batches. */
module RecoveryOrder {
  import opened Commands
  import opened RecoverySettle
  import opened RecoverySchedule
  import opened RecoveryProgress
  import opened RecoveryPartition
  import opened RecoveryRouting

  /** What the workers took, followed by what is pending in the batch, is lane by lane the log since the
      generation began. */
  ghost predicate RunningInOrder(route: Message -> nat, part: seq<Message>, taken: seq<Message>, batch: seq<Message>, c: Config) {
    && Placed(route, batch, c)
    && (forall l :: 0 <= l < LANES ==> OfLane(route, taken, l) + Pending(route, batch, c, l) == OfLane(route, part, l))
  }

  ghost predicate TakenOf(route: Message -> nat, part: seq<Message>, taken: seq<Message>) {
    forall l :: 0 <= l < LANES ==> OfLane(route, taken, l) <= OfLane(route, part, l)
  }

  ghost predicate InOrder(route: Message -> nat, log: seq<Message>, p: Partition) {
    && WellFormed(log, p)
    && (match p.phase
        case Ready(pos) =>
          && p.origin <= pos
          && (forall l :: 0 <= l < LANES ==> OfLane(route, p.taken, l) == OfLane(route, log[p.origin..pos], l))
        case Running(first, count, _, c) =>
          && p.origin <= first
          && RunningInOrder(route, log[p.origin..first + count], p.taken, Batch(log, p), c)
        case Stopped => exists end :: p.origin <= end <= |log| && TakenOf(route, log[p.origin..end], p.taken))
  }

  lemma InOrderStop(route: Message -> nat, log: seq<Message>, p: Partition)
    requires InOrder(route, log, p)
    ensures InOrder(route, log, p.(phase := Stopped, world := Now(p)))
  {
    match p.phase
    case Stopped =>
    case Ready(pos) => assert TakenOf(route, log[p.origin..pos], p.taken);
    case Running(first, count, _, _) => assert TakenOf(route, log[p.origin..first + count], p.taken);
  }

  /** An action moves a lane's next message from pending to taken, or leaves both as they are. */
  lemma TakenPendingStep(route: Message -> nat, o: Oracle, batch: seq<Message>, c: Config, a: Action, taken: seq<Message>, l: nat)
    requires Placed(route, batch, c) && Enabled(route, o, batch, c, a) && l < LANES
    ensures Apply(route, o, batch, c, a).next <= |batch|
    ensures OfLane(route, taken + TakenBy(c, a), l)
            + Pending(route, batch, Apply(route, o, batch, c, a), l)
            == OfLane(route, taken, l) + Pending(route, batch, c, l)
  {
    PendingStep(route, o, batch, c, a, l);
    OfLaneAppend(route, taken, TakenBy(c, a), l);
    var x, y, z := OfLane(route, taken, l), OfLane(route, TakenBy(c, a), l), Pending(route, batch, Apply(route, o, batch, c, a), l);
    assert (x + y) + z == x + (y + z);
  }

  lemma RunningAct(route: Message -> nat, o: Oracle, part: seq<Message>, taken: seq<Message>, batch: seq<Message>, c: Config, a: Action)
    requires RunningInOrder(route, part, taken, batch, c) && Enabled(route, o, batch, c, a)
    ensures RunningInOrder(route, part, taken + TakenBy(c, a), batch, Apply(route, o, batch, c, a))
  {
    PlacedStep(route, o, batch, c, a);
    forall l | 0 <= l < LANES
      ensures OfLane(route, taken + TakenBy(c, a), l)
              + Pending(route, batch, Apply(route, o, batch, c, a), l) == OfLane(route, part, l)
    {
      TakenPendingStep(route, o, batch, c, a, taken, l);
    }
  }

  lemma InOrderAct(route: Message -> nat, log: seq<Message>, p: Partition, a: Action)
    requires InOrder(route, log, p) && Possible(route, log, p, Act(a))
    ensures InOrder(route, log, Next(route, log, p, Act(a)))
  {
    var part := log[p.origin..p.phase.first + p.phase.count];
    RunningAct(route, p.phase.o, part, p.taken, Batch(log, p), p.phase.c, a);
    ActKeeps(route, log, p, a);
  }

  lemma InOrderFetch(route: Message -> nat, log: seq<Message>, p: Partition, count: nat, o: Oracle)
    requires InOrder(route, log, p) && Possible(route, log, p, Fetch(count, o))
    ensures InOrder(route, log, Next(route, log, p, Fetch(count, o)))
  {
    var q := Next(route, log, p, Fetch(count, o));
    var batch := Batch(log, q);
    var pos := p.phase.pos;
    assert batch[0..] == batch;
    assert log[p.origin..pos] + batch == log[p.origin..pos + count];
    forall l | 0 <= l < LANES
      ensures OfLane(route, q.taken, l) + Pending(route, batch, q.phase.c, l) == OfLane(route, log[q.origin..pos + count], l)
    {
      OfLaneAppend(route, log[p.origin..pos], batch, l);
      assert Pending(route, batch, q.phase.c, l) == OfLane(route, batch, l);
    }
  }

  lemma InOrderCommit(route: Message -> nat, log: seq<Message>, p: Partition)
    requires InOrder(route, log, p) && Possible(route, log, p, Commit)
    ensures InOrder(route, log, Next(route, log, p, Commit))
  {
    var batch := Batch(log, p);
    assert batch[p.phase.c.next..] == [];
    forall l | 0 <= l < LANES
      ensures Pending(route, batch, p.phase.c, l) == []
    {
    }
  }

  lemma InOrderStep(route: Message -> nat, log: seq<Message>, p: Partition, e: Event)
    requires InOrder(route, log, p) && Possible(route, log, p, e)
    ensures InOrder(route, log, Next(route, log, p, e))
  {
    match e
    case Assign =>
      var pos := Seek(log, p.watermark);
      assert log[pos..pos] == [];
    case Fetch(count, o) => InOrderFetch(route, log, p, count, o);
    case Act(a) => InOrderAct(route, log, p, a);
    case Commit => InOrderCommit(route, log, p);
    case CommitFails => InOrderStop(route, log, p);
    case Abandon => InOrderStop(route, log, p);
    case Stop => InOrderStop(route, log, p);
  }

  lemma {:induction false} InOrderAfter(route: Message -> nat, log: seq<Message>, p: Partition, events: seq<Event>)
    requires InOrder(route, log, p) && History(route, log, p, events)
    ensures InOrder(route, log, After(route, log, p, events))
    decreases |events|
  {
    if events != [] {
      InOrderStep(route, log, p, events[0]);
      InOrderAfter(route, log, Next(route, log, p, events[0]), events[1..]);
    }
  }

  lemma {:induction false} OrderedLane(route: Message -> nat, ms: seq<Message>, l: nat)
    requires Ordered(ms)
    ensures Ordered(OfLane(route, ms, l))
  {
    if ms != [] {
      assert Ordered(ms[1..]);
      OrderedLane(route, ms[1..], l);
      OfLaneMembers(route, ms[1..], l);
      var rest := OfLane(route, ms[1..], l);
      forall j | 0 <= j < |rest|
        ensures ms[0].offset < rest[j].offset
      {
        assert rest[j] in ms[1..];
      }
    }
  }

  /** Where lane `l`'s part of a sequence is ordered, so are any two of its messages in the sequence. */
  lemma {:induction false} LaneOrderedPair(route: Message -> nat, ms: seq<Message>, i: nat, j: nat)
    requires i < j < |ms| && Lane(route, ms[i]) == Lane(route, ms[j])
    requires Ordered(OfLane(route, ms, Lane(route, ms[i])))
    ensures ms[i].offset < ms[j].offset
  {
    var l := Lane(route, ms[i]);
    var rest := OfLane(route, ms[1..], l);
    if i == 0 {
      OfLaneMembers(route, ms[1..], l);
      assert ms[1..][j - 1] == ms[j];
      var k :| 0 <= k < |rest| && rest[k] == ms[j];
      var part := OfLane(route, ms, l);
      assert part == [ms[0]] + rest;
      assert part[0] == ms[0] && part[k + 1] == ms[j];
    } else {
      assert Ordered(rest) by {
        var d := |OfLane(route, ms, l)| - |rest|;
        assert forall k :: 0 <= k < |rest| ==> rest[k] == OfLane(route, ms, l)[k + d];
      }
      LaneOrderedPair(route, ms[1..], i - 1, j - 1);
    }
  }

  lemma PrefixOrdered(a: seq<Message>, b: seq<Message>)
    requires a <= b && Ordered(b)
    ensures Ordered(a)
  {
    forall i, j | 0 <= i < j < |a|
      ensures a[i].offset < a[j].offset
    {
      assert a[i] == b[i] && a[j] == b[j];
    }
  }

  /** Main result. Over the batches of a generation, whatever the schedules, messages with one lane key are
      taken in strictly increasing offset order. */
  lemma SameKeyOrder(hash: string -> nat, log: seq<Message>, p: Partition, events: seq<Event>, i: nat, j: nat)
    requires Ordered(log) && Initial(p) && WellFormed(log, p) && History(ByKey(hash), log, p, events)
    requires var taken := After(ByKey(hash), log, p, events).taken;
             i < j < |taken| && LaneKey(taken[i]) == LaneKey(taken[j])
    ensures var taken := After(ByKey(hash), log, p, events).taken;
            taken[i].offset < taken[j].offset
  {
    var route := ByKey(hash);
    assert log[0..0] == [];
    assert InOrder(route, log, p) by {
      assert TakenOf(route, log[0..0], []);
    }
    InOrderAfter(route, log, p, events);
    var q := After(route, log, p, events);
    var l := Lane(route, q.taken[i]);
    var part := LanePart(route, log, q, l);
    assert Ordered(part);
    OrderedLane(route, part, l);
    PrefixOrdered(OfLane(route, q.taken, l), OfLane(route, part, l));
    LaneOrderedPair(route, q.taken, i, j);
  }

  /** The stretch of the log that was taken or is about to be. */
  lemma LanePart(route: Message -> nat, log: seq<Message>, p: Partition, l: nat) returns (part: seq<Message>)
    requires InOrder(route, log, p) && Ordered(log) && l < LANES
    ensures Ordered(part) && OfLane(route, p.taken, l) <= OfLane(route, part, l)
  {
    var from, end := LaneStretch(route, log, p, l);
    part := log[from..end];
    OrderedSlice(log, from, end);
  }

  lemma LaneStretch(route: Message -> nat, log: seq<Message>, p: Partition, l: nat) returns (from: nat, end: nat)
    requires InOrder(route, log, p) && l < LANES
    ensures from <= end <= |log| && OfLane(route, p.taken, l) <= OfLane(route, log[from..end], l)
  {
    from := p.origin;
    match p.phase
    case Stopped => end :| p.origin <= end <= |log| && TakenOf(route, log[p.origin..end], p.taken);
    case Ready(pos) => end := pos;
    case Running(first, count, _, c) => end := first + count;
  }

  lemma OrderedSlice(log: seq<Message>, from: nat, end: nat)
    requires Ordered(log) && from <= end <= |log|
    ensures Ordered(log[from..end])
  {
  }

  /** Two workers never hold messages with one lane key at the same time. */
  lemma SameKeyNeverOverlaps(hash: string -> nat, log: seq<Message>, p: Partition, events: seq<Event>, k: nat, l: nat)
    requires Ordered(log) && Initial(p) && WellFormed(log, p) && History(ByKey(hash), log, p, events)
    requires After(ByKey(hash), log, p, events).phase.Running? && k < l < LANES
    requires var slots := After(ByKey(hash), log, p, events).phase.c.slots;
             !slots[k].Idle? && !slots[l].Idle?
    ensures var slots := After(ByKey(hash), log, p, events).phase.c.slots;
            LaneKey(slots[k].m) != LaneKey(slots[l].m)
  {
    var route := ByKey(hash);
    assert log[0..0] == [];
    assert InOrder(route, log, p) by {
      assert TakenOf(route, log[0..0], []);
    }
    InOrderAfter(route, log, p, events);
    var c := After(route, log, p, events).phase.c;
    assert Lane(route, c.slots[k].m) == k && Lane(route, c.slots[l].m) == l;
  }
}
