/** How far the lanes of one batch let a later message overtake an earlier one. */
module RecoveryOvertaking {
  import opened Commands
  import opened RecoverySettle
  import opened RecoverySchedule
  import opened RecoveryProgress

  // ----- Putting schedules together -----

  lemma {:induction false} RunConcat(route: Message -> nat, o: Oracle, batch: seq<Message>, c: Config, a: seq<Action>, b: seq<Action>)
    requires Shaped(c) && Legal(route, o, batch, c, a)
    requires Legal(route, o, batch, Run(route, o, batch, c, a), b)
    ensures Legal(route, o, batch, c, a + b)
    ensures Run(route, o, batch, c, a + b) == Run(route, o, batch, Run(route, o, batch, c, a), b)
    ensures Taken(route, o, batch, c, a + b)
            == Taken(route, o, batch, c, a) + Taken(route, o, batch, Run(route, o, batch, c, a), b)
    decreases |a|
  {
    if a == [] {
      assert a + b == b;
      assert [] + Taken(route, o, batch, c, b) == Taken(route, o, batch, c, b);
    } else {
      var d := Apply(route, o, batch, c, a[0]);
      assert (a + b)[1..] == a[1..] + b;
      RunConcat(route, o, batch, d, a[1..], b);
      TakenAssociates(TakenBy(c, a[0]), Taken(route, o, batch, d, a[1..]), Taken(route, o, batch, Run(route, o, batch, c, a), b));
    }
  }

  lemma TakenAssociates(x: seq<Message>, y: seq<Message>, z: seq<Message>)
    ensures x + (y + z) == (x + y) + z
  {
  }

  lemma RunCons(route: Message -> nat, o: Oracle, batch: seq<Message>, c: Config, a: Action, rest: seq<Action>)
    requires Shaped(c) && Enabled(route, o, batch, c, a)
    requires Legal(route, o, batch, Apply(route, o, batch, c, a), rest)
    ensures Legal(route, o, batch, c, [a] + rest)
    ensures Run(route, o, batch, c, [a] + rest) == Run(route, o, batch, Apply(route, o, batch, c, a), rest)
    ensures Taken(route, o, batch, c, [a] + rest) == TakenBy(c, a) + Taken(route, o, batch, Apply(route, o, batch, c, a), rest)
  {
    assert ([a] + rest)[1..] == rest;
  }

  /** A worker can bring its message to an end with no one else moving. */
  lemma {:induction false} Drain(route: Message -> nat, o: Oracle, batch: seq<Message>, c: Config, l: nat) returns (schedule: seq<Action>)
    requires Shaped(c) && l < LANES
    requires |c.world.errors| < |batch|
    ensures Legal(route, o, batch, c, schedule)
    ensures Run(route, o, batch, c, schedule) == c.(slots := c.slots[l := Idle], world := Complete(o, c.world, c.slots[l]))
    ensures Taken(route, o, batch, c, schedule) == []
    ensures |Complete(o, c.world, c.slots[l]).errors| <= |c.world.errors| + 1
    decreases Rank(c.slots[l])
  {
    if c.slots[l].Idle? {
      schedule := [];
    } else {
      var d := Apply(route, o, batch, c, Work(l));
      if d.slots[l].Idle? {
        RunCons(route, o, batch, c, Work(l), []);
        schedule := [Work(l)] + [];
      } else {
        assert d.world.errors == c.world.errors;
        var rest := Drain(route, o, batch, d, l);
        schedule := [Work(l)] + rest;
        RunCons(route, o, batch, c, Work(l), rest);
        assert d.slots[l := Idle] == c.slots[l := Idle];
      }
    }
  }

  lemma TakeAndDrain(route: Message -> nat, o: Oracle, batch: seq<Message>, c: Config, l: nat) returns (schedule: seq<Action>)
    requires Shaped(c) && l < LANES
    requires |c.world.errors| < |batch|
    requires c.slots[l].Idle? && c.queues[l] != []
    ensures Legal(route, o, batch, c, schedule)
    ensures Run(route, o, batch, c, schedule)
            == c.(queues := c.queues[l := c.queues[l][1..]], world := HandleMessage(o, c.world, c.queues[l][0]))
    ensures Taken(route, o, batch, c, schedule) == [c.queues[l][0]]
    ensures |HandleMessage(o, c.world, c.queues[l][0]).errors| <= |c.world.errors| + 1
  {
    var d := Apply(route, o, batch, c, Take(l));
    var rest := Drain(route, o, batch, d, l);
    schedule := [Take(l)] + rest;
    RunCons(route, o, batch, c, Take(l), rest);
    assert d.slots[l := Idle] == c.slots;
  }

  // ----- When a message can be overtaken -----

  predicate Distinct(batch: seq<Message>) {
    forall a, b :: 0 <= a < b < |batch| ==> batch[a] != batch[b]
  }

  /** Some legal schedule has taken message j, but not yet message i. */
  ghost predicate CanOvertake(route: Message -> nat, o: Oracle, batch: seq<Message>, w: World, i: nat, j: nat)
    requires i < |batch| && j < |batch|
  {
    exists schedule :: Legal(route, o, batch, Start(w), schedule) && TakesFirst(route, o, batch, w, schedule, batch[j], batch[i])
  }

  predicate TakesFirst(route: Message -> nat, o: Oracle, batch: seq<Message>, w: World, schedule: seq<Action>, first: Message, later: Message)
    requires Legal(route, o, batch, Start(w), schedule)
  {
    first in Taken(route, o, batch, Start(w), schedule) && later !in Taken(route, o, batch, Start(w), schedule)
  }

  /** The messages of i's lane from i up to j, all of which must wait there for j to be dispatched. */
  function HeldBack(route: Message -> nat, batch: seq<Message>, i: nat, j: nat): seq<Message>
    requires i <= j <= |batch| && i < |batch|
  {
    OfLane(route, batch[i..j], Lane(route, batch[i]))
  }

  ghost predicate QueuesFit(batch: seq<Message>, c: Config)
    requires Shaped(c)
  {
    forall l :: 0 <= l < LANES ==> |c.queues[l]| <= Capacity(batch)
  }

  lemma {:induction false} QueuesFitOver(route: Message -> nat, o: Oracle, batch: seq<Message>, c: Config, schedule: seq<Action>)
    requires Shaped(c) && QueuesFit(batch, c) && Legal(route, o, batch, c, schedule)
    ensures QueuesFit(batch, Run(route, o, batch, c, schedule))
    decreases |schedule|
  {
    if schedule != [] {
      QueuesFitOver(route, o, batch, Apply(route, o, batch, c, schedule[0]), schedule[1..]);
    }
  }

  lemma {:induction false} PlacedOver(route: Message -> nat, o: Oracle, batch: seq<Message>, c: Config, schedule: seq<Action>)
    requires Placed(route, batch, c) && Legal(route, o, batch, c, schedule)
    ensures Placed(route, batch, Run(route, o, batch, c, schedule))
    decreases |schedule|
  {
    if schedule != [] {
      PlacedStep(route, o, batch, c, schedule[0]);
      PlacedOver(route, o, batch, Apply(route, o, batch, c, schedule[0]), schedule[1..]);
    }
  }

  lemma CutRight(a: seq<Message>, b: seq<Message>, r: seq<Message>)
    requires a + r == b + r
    ensures a == b
  {
    assert |a| == |b|;
    assert (a + r)[..|a|] == a;
    assert (b + r)[..|b|] == b;
  }

  /** What a lane's worker took, then what waits in the lane, is the lane's part of what was dispatched. */
  lemma Dispatched(route: Message -> nat, o: Oracle, batch: seq<Message>, w: World, schedule: seq<Action>, l: nat)
    requires Legal(route, o, batch, Start(w), schedule) && l < LANES
    ensures var c := Run(route, o, batch, Start(w), schedule);
            c.next <= |batch| && |c.queues[l]| <= Capacity(batch)
            && OfLane(route, Taken(route, o, batch, Start(w), schedule), l) + c.queues[l] == OfLane(route, batch[..c.next], l)
  {
    var c0 := Start(w);
    var c := Run(route, o, batch, c0, schedule);
    QueuesFitOver(route, o, batch, c0, schedule);
    PlacedOver(route, o, batch, c0, schedule);
    LaneOrder(route, o, batch, c0, schedule, l);
    var t, q, rest := OfLane(route, Taken(route, o, batch, c0, schedule), l), c.queues[l], OfLane(route, batch[c.next..], l);
    assert batch[0..] == batch == batch[..c.next] + batch[c.next..];
    assert Pending(route, batch, c0, l) == OfLane(route, batch, l);
    OfLaneAppend(route, batch[..c.next], batch[c.next..], l);
    assert (t + q) + rest == t + (q + rest);
    CutRight(t + q, OfLane(route, batch[..c.next], l), rest);
  }

  /** A lane's part of a batch, split at one of its messages. */
  lemma SplitAt(route: Message -> nat, batch: seq<Message>, i: nat, n: nat)
    requires i < n <= |batch|
    ensures var l := Lane(route, batch[i]);
            OfLane(route, batch[..n], l) == OfLane(route, batch[..i], l) + ([batch[i]] + OfLane(route, batch[i + 1..n], l))
    ensures HeldBack(route, batch, i, n) == [batch[i]] + OfLane(route, batch[i + 1..n], Lane(route, batch[i]))
  {
    var l := Lane(route, batch[i]);
    assert batch[..n] == batch[..i] + batch[i..n];
    OfLaneAppend(route, batch[..i], batch[i..n], l);
    assert batch[i..n][1..] == batch[i + 1..n];
  }

  lemma HeldBackGrows(route: Message -> nat, batch: seq<Message>, i: nat, j: nat, n: nat)
    requires i <= j <= n <= |batch| && i < |batch|
    ensures |HeldBack(route, batch, i, j)| <= |HeldBack(route, batch, i, n)|
  {
    assert batch[i..n] == batch[i..j] + batch[j..n];
    OfLaneAppend(route, batch[i..j], batch[j..n], Lane(route, batch[i]));
  }

  lemma StopsBefore(t: seq<Message>, q: seq<Message>, before: seq<Message>, x: Message, rest: seq<Message>)
    requires t + q == before + ([x] + rest) && x !in t
    ensures |t| <= |before| && 1 + |rest| <= |q|
    ensures forall m :: m in t ==> m in before
  {
    assert (t + q)[|before|] == x;
    assert |t| <= |before|;
    assert forall k :: 0 <= k < |t| ==> t[k] == (t + q)[k] == before[k];
  }

  /** While message i is not taken, its lane holds back everything of the lane behind it. */
  lemma NotTaken(route: Message -> nat, o: Oracle, batch: seq<Message>, w: World, schedule: seq<Action>, i: nat)
    requires Legal(route, o, batch, Start(w), schedule)
    requires i < Run(route, o, batch, Start(w), schedule).next <= |batch|
    requires batch[i] !in Taken(route, o, batch, Start(w), schedule)
    ensures var c := Run(route, o, batch, Start(w), schedule);
            var l := Lane(route, batch[i]);
            && |HeldBack(route, batch, i, c.next)| <= |c.queues[l]|
            && (forall m :: m in OfLane(route, Taken(route, o, batch, Start(w), schedule), l) ==> m in batch[..i])
  {
    var taken := Taken(route, o, batch, Start(w), schedule);
    var c := Run(route, o, batch, Start(w), schedule);
    var l := Lane(route, batch[i]);
    var t, before := OfLane(route, taken, l), OfLane(route, batch[..i], l);
    Dispatched(route, o, batch, w, schedule, l);
    SplitAt(route, batch, i, c.next);
    OfLaneMembers(route, taken, l);
    OfLaneMembers(route, batch[..i], l);
    StopsBefore(t, c.queues[l], before, batch[i], OfLane(route, batch[i + 1..c.next], l));
  }

  lemma OvertakenOnlyIf(route: Message -> nat, o: Oracle, batch: seq<Message>, w: World, i: nat, j: nat, schedule: seq<Action>)
    requires Distinct(batch) && i < j < |batch|
    requires Legal(route, o, batch, Start(w), schedule) && TakesFirst(route, o, batch, w, schedule, batch[j], batch[i])
    ensures Lane(route, batch[i]) != Lane(route, batch[j]) && |HeldBack(route, batch, i, j)| <= Capacity(batch)
  {
    var taken := Taken(route, o, batch, Start(w), schedule);
    var c := Run(route, o, batch, Start(w), schedule);
    var li, lj := Lane(route, batch[i]), Lane(route, batch[j]);
    Dispatched(route, o, batch, w, schedule, lj);
    OfLaneMembers(route, taken, lj);
    var t := OfLane(route, taken, lj);
    assert batch[j] in t;
    assert batch[j] in t + c.queues[lj];
    OfLaneMembers(route, batch[..c.next], lj);
    assert batch[j] in batch[..c.next];
    assert j < c.next;
    NotTaken(route, o, batch, w, schedule, i);
    Dispatched(route, o, batch, w, schedule, li);
    HeldBackGrows(route, batch, i, j, c.next);
  }

  // ----- The schedule that lets it be overtaken -----

  /** The first k messages are dispatched; those of i's lane from i on wait there, all others are done. */
  ghost predicate Poised(route: Message -> nat, batch: seq<Message>, i: nat, k: nat, c: Config)
    requires i < |batch| && k <= |batch|
  {
    && Shaped(c) && c.next == k && |c.world.errors| <= k
    && (forall l :: 0 <= l < LANES ==> c.slots[l].Idle? && c.queues[l] == WaitingIn(route, batch, i, k, l))
  }

  function WaitingIn(route: Message -> nat, batch: seq<Message>, i: nat, k: nat, l: nat): seq<Message>
    requires i < |batch| && k <= |batch|
  {
    if l == Lane(route, batch[i]) && i <= k then HeldBack(route, batch, i, k) else []
  }

  /** Taken so far: what came before i, and what goes to other lanes. */
  ghost predicate TookOthers(route: Message -> nat, batch: seq<Message>, i: nat, taken: seq<Message>)
    requires i < |batch|
  {
    forall m :: m in taken ==> m in batch[..i] || Lane(route, m) != Lane(route, batch[i])
  }

  lemma WaitingMore(route: Message -> nat, batch: seq<Message>, i: nat, k: nat, l: nat)
    requires i < |batch| && k < |batch|
    ensures WaitingIn(route, batch, i, k + 1, l)
            == if i <= k && l == Lane(route, batch[i]) == Lane(route, batch[k]) then WaitingIn(route, batch, i, k, l) + [batch[k]]
               else WaitingIn(route, batch, i, k, l)
  {
    if i <= k && l == Lane(route, batch[i]) {
      assert batch[i..k + 1] == batch[i..k] + [batch[k]];
      OfLaneAppend(route, batch[i..k], [batch[k]], l);
      assert [batch[k]][1..] == [];
      assert HeldBack(route, batch, i, k) + [] == HeldBack(route, batch, i, k);
    }
  }

  predicate Waits(route: Message -> nat, batch: seq<Message>, i: nat, k: nat)
    requires i < |batch| && k < |batch|
  {
    i <= k && Lane(route, batch[k]) == Lane(route, batch[i])
  }

  lemma Dispatches(route: Message -> nat, o: Oracle, batch: seq<Message>, i: nat, k: nat, c: Config) returns (d: Config)
    requires i < |batch| && k < |batch| && Poised(route, batch, i, k, c)
    requires i <= k ==> |HeldBack(route, batch, i, k + 1)| <= Capacity(batch)
    ensures Enabled(route, o, batch, c, Dispatch) && d == Apply(route, o, batch, c, Dispatch)
    ensures Waits(route, batch, i, k) ==> Poised(route, batch, i, k + 1, d)
    ensures !Waits(route, batch, i, k) ==> d.queues[Lane(route, batch[k])] == [batch[k]]
  {
    var lk := Lane(route, batch[k]);
    WaitingMore(route, batch, i, k, lk);
    d := Apply(route, o, batch, c, Dispatch);
    forall l | 0 <= l < LANES
      ensures Waits(route, batch, i, k) ==> d.queues[l] == WaitingIn(route, batch, i, k + 1, l)
    {
      WaitingMore(route, batch, i, k, l);
    }
  }

  lemma HandledAtOnce(route: Message -> nat, batch: seq<Message>, i: nat, k: nat, c: Config, v: World)
    requires i < |batch| && k < |batch| && Poised(route, batch, i, k, c) && !Waits(route, batch, i, k) && |v.errors| <= k + 1
    ensures var l := Lane(route, batch[k]);
            var queues := c.queues[l := c.queues[l] + [batch[k]]];
            Poised(route, batch, i, k + 1, c.(next := k + 1, queues := queues[l := queues[l][1..]], world := v))
  {
    var lk := Lane(route, batch[k]);
    var queues := c.queues[lk := c.queues[lk] + [batch[k]]];
    var d := c.(next := k + 1, queues := queues[lk := queues[lk][1..]], world := v);
    forall l | 0 <= l < LANES
      ensures d.queues[l] == WaitingIn(route, batch, i, k + 1, l)
    {
      WaitingMore(route, batch, i, k, l);
    }
  }

  /** Message k is dispatched, and handled unless it has to wait. */
  lemma PoisedMore(route: Message -> nat, o: Oracle, batch: seq<Message>, i: nat, k: nat, c: Config) returns (schedule: seq<Action>)
    requires i < |batch| && k < |batch| && Poised(route, batch, i, k, c)
    requires i <= k ==> |HeldBack(route, batch, i, k + 1)| <= Capacity(batch)
    ensures Legal(route, o, batch, c, schedule)
    ensures Poised(route, batch, i, k + 1, Run(route, o, batch, c, schedule))
    ensures Taken(route, o, batch, c, schedule) == if Waits(route, batch, i, k) then [] else [batch[k]]
  {
    var lk := Lane(route, batch[k]);
    var d := Dispatches(route, o, batch, i, k, c);
    if Waits(route, batch, i, k) {
      RunCons(route, o, batch, c, Dispatch, []);
      schedule := [Dispatch] + [];
    } else {
      var rest := TakeAndDrain(route, o, batch, d, lk);
      RunCons(route, o, batch, c, Dispatch, rest);
      schedule := [Dispatch] + rest;
      HandledAtOnce(route, batch, i, k, c, HandleMessage(o, d.world, batch[k]));
    }
  }

  lemma TookMore(route: Message -> nat, batch: seq<Message>, i: nat, k: nat, taken: seq<Message>)
    requires i < |batch| && k < |batch| && TookOthers(route, batch, i, taken)
    ensures TookOthers(route, batch, i, taken + if Waits(route, batch, i, k) then [] else [batch[k]])
  {
    assert k < i ==> batch[k] in batch[..i];
  }

  lemma PoisedAtStart(route: Message -> nat, batch: seq<Message>, w: World, i: nat)
    requires i < |batch|
    ensures Poised(route, batch, i, 0, Start(w))
  {
    assert i == 0 ==> batch[0..0] == [];
  }

  /** A schedule that leaves the first k messages done or waiting. */
  ghost predicate GetsTo(route: Message -> nat, o: Oracle, batch: seq<Message>, w: World, i: nat, k: nat, schedule: seq<Action>)
    requires i < |batch| && k <= |batch|
  {
    && Legal(route, o, batch, Start(w), schedule)
    && Poised(route, batch, i, k, Run(route, o, batch, Start(w), schedule))
    && TookOthers(route, batch, i, Taken(route, o, batch, Start(w), schedule))
    && (0 < k && !Waits(route, batch, i, k - 1) ==> batch[k - 1] in Taken(route, o, batch, Start(w), schedule))
  }

  lemma GoFurther(route: Message -> nat, o: Oracle, batch: seq<Message>, w: World, i: nat, k: nat, before: seq<Action>) returns (schedule: seq<Action>)
    requires i < |batch| && k < |batch| && GetsTo(route, o, batch, w, i, k, before)
    requires i <= k ==> |HeldBack(route, batch, i, k + 1)| <= Capacity(batch)
    ensures GetsTo(route, o, batch, w, i, k + 1, schedule)
  {
    var more := PoisedMore(route, o, batch, i, k, Run(route, o, batch, Start(w), before));
    RunConcat(route, o, batch, Start(w), before, more);
    TookMore(route, batch, i, k, Taken(route, o, batch, Start(w), before));
    schedule := before + more;
  }

  lemma {:induction false} GetPoised(route: Message -> nat, o: Oracle, batch: seq<Message>, w: World, i: nat, k: nat) returns (schedule: seq<Action>)
    requires i < |batch| && k <= |batch|
    requires i < k ==> |HeldBack(route, batch, i, k)| <= Capacity(batch)
    ensures GetsTo(route, o, batch, w, i, k, schedule)
    decreases k
  {
    if k == 0 {
      PoisedAtStart(route, batch, w, i);
      schedule := [];
    } else {
      if i < k - 1 {
        HeldBackGrows(route, batch, i, k - 1, k);
      }
      var before := GetPoised(route, o, batch, w, i, k - 1);
      schedule := GoFurther(route, o, batch, w, i, k - 1, before);
    }
  }

  lemma StillUntaken(route: Message -> nat, batch: seq<Message>, i: nat, taken: seq<Message>)
    requires Distinct(batch) && i < |batch| && TookOthers(route, batch, i, taken)
    ensures batch[i] !in taken
  {
  }

  lemma OvertakenIf(route: Message -> nat, o: Oracle, batch: seq<Message>, w: World, i: nat, j: nat)
    requires Distinct(batch) && i < j < |batch|
    requires Lane(route, batch[i]) != Lane(route, batch[j]) && |HeldBack(route, batch, i, j)| <= Capacity(batch)
    ensures CanOvertake(route, o, batch, w, i, j)
  {
    WaitingMore(route, batch, i, j, Lane(route, batch[i]));
    var schedule := GetPoised(route, o, batch, w, i, j + 1);
    StillUntaken(route, batch, i, Taken(route, o, batch, Start(w), schedule));
    assert TakesFirst(route, o, batch, w, schedule, batch[j], batch[i]);
  }

  /** Main result. A message can be handled before an earlier one of its batch if and only if the two go to
      different lanes and the earlier one's lane has room for everything it would hold back: a full lane
      blocks the dispatcher before it reaches the later message. */
  lemma OvertakenExactly(route: Message -> nat, o: Oracle, batch: seq<Message>, w: World, i: nat, j: nat)
    requires Distinct(batch) && i < j < |batch|
    ensures CanOvertake(route, o, batch, w, i, j)
            <==> Lane(route, batch[i]) != Lane(route, batch[j]) && |HeldBack(route, batch, i, j)| <= Capacity(batch)
  {
    if CanOvertake(route, o, batch, w, i, j) {
      var schedule :| Legal(route, o, batch, Start(w), schedule) && TakesFirst(route, o, batch, w, schedule, batch[j], batch[i]);
      OvertakenOnlyIf(route, o, batch, w, i, j, schedule);
    }
    if Lane(route, batch[i]) != Lane(route, batch[j]) && |HeldBack(route, batch, i, j)| <= Capacity(batch) {
      OvertakenIf(route, o, batch, w, i, j);
    }
  }
}
