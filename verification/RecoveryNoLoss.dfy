/** When nothing is lost: which failures and stops leave every committed event handled or dead-lettered. */
module RecoveryNoLoss {
  import opened Commands
  import opened RecoverySettle
  import opened RecoverySchedule
  import opened RecoveryProgress
  import opened RecoveryPartition

  // ----- Nothing is lost -----

  /** The event has a successful handling or a dead letter on record. */
  ghost predicate Resolved(w: World, id: string) {
    w.successes[id] >= 1 || exists m :: DeadLettered(m) in w.settled && EventId(m) == id
  }

  ghost predicate OnTheWay(w: World, slots: seq<Slot>, id: string) {
    || (exists l :: 0 <= l < |slots| && (Owns(slots[l]) || slots[l].Dead?) && EventId(slots[l].m) == id)
    || (exists m :: m in w.errors && EventId(m) == id)
  }

  /** The worker holds a claim that only it can give back, or settle with a dead letter: it has claimed and not
      finished, or its release has failed. */
  predicate Guards(o: Oracle, s: Slot) {
    Owns(s) || (s.Dead? && !o.claimError(s.m) && o.releaseError(s.m))
  }

  ghost predicate Guarded(o: Oracle, slots: seq<Slot>, id: string) {
    exists l :: 0 <= l < |slots| && Guards(o, slots[l]) && EventId(slots[l].m) == id
  }

  /** A claimed event of the log is resolved, or guarded by a worker. */
  ghost predicate ClaimsBacked(log: seq<Message>, o: Oracle, w: World, slots: seq<Slot>) {
    forall m :: m in log && EventId(m) in w.claims ==> Resolved(w, EventId(m)) || Guarded(o, slots, EventId(m))
  }

  /** A claimed event of the log is resolved. */
  ghost predicate ClaimsResolved(log: seq<Message>, w: World) {
    forall m :: m in log && EventId(m) in w.claims ==> Resolved(w, EventId(m))
  }

  /** An owner's claim did not fail. */
  ghost predicate OwnersClaimed(o: Oracle, slots: seq<Slot>) {
    forall l :: 0 <= l < |slots| && Owns(slots[l]) ==> !o.claimError(slots[l].m)
  }

  /** A release that fails is followed by a dead letter. */
  ghost predicate ReleaseOrLetter(o: Oracle) {
    forall m :: o.releaseError(m) ==> !o.deadLetterError(m)
  }

  /** The messages of the batch that are no longer owed are resolved, or will be before the batch ends. */
  ghost predicate HandledBacked(route: Message -> nat, batch: seq<Message>, c: Config)
    requires Placed(route, batch, c)
  {
    forall m :: m in batch && Owed(route, batch, c, m) == 0 ==>
      Resolved(c.world, EventId(m)) || OnTheWay(c.world, c.slots, EventId(m))
  }

  /** No message fails both its release and its dead letter, and the owner does not stop while a worker guards
      a claim. */
  ghost predicate Careful(log: seq<Message>, p: Partition, e: Event)
    requires WellFormed(log, p)
  {
    && (e.Fetch? ==> ReleaseOrLetter(e.o))
    && (e.Stop? && p.phase.Running? ==> forall l :: 0 <= l < LANES ==> !Guards(p.phase.o, p.phase.c.slots[l]))
  }

  ghost predicate CarefulHistory(route: Message -> nat, log: seq<Message>, p: Partition, events: seq<Event>)
    requires WellFormed(log, p) && History(route, log, p, events)
    decreases |events|
  {
    events != [] ==>
      Careful(log, p, events[0]) && CarefulHistory(route, log, Next(route, log, p, events[0]), events[1..])
  }

  ghost predicate Lossless(route: Message -> nat, log: seq<Message>, p: Partition) {
    && Sound(route, log, p)
    && BelowResolved(log, p.watermark, p.world)
    && if p.phase.Running? then LosslessBatch(route, log, Batch(log, p), p.world, p.phase.o, p.phase.c)
       else ClaimsResolved(log, p.world)
  }

  ghost predicate BelowResolved(log: seq<Message>, watermark: nat, w: World) {
    forall m :: m in log[..Seek(log, watermark)] ==> Resolved(w, EventId(m))
  }

  /** Within a batch: claims and handled messages are accounted for, and what was resolved before the batch
      still is. */
  ghost predicate LosslessBatch(route: Message -> nat, log: seq<Message>, batch: seq<Message>, w: World, o: Oracle, c: Config) {
    && Placed(route, batch, c)
    && (forall m :: m in batch ==> m in log)
    && ClaimsBacked(log, o, c.world, c.slots) && OwnersClaimed(o, c.slots) && ReleaseOrLetter(o)
    && (forall id :: Resolved(w, id) ==> Resolved(c.world, id))
    && HandledBacked(route, batch, c)
  }

  lemma ResolvedAdvance(o: Oracle, w: World, s: Slot, id: string)
    requires !s.Idle?
    ensures Resolved(w, id) ==> Resolved(Advance(o, w, s).0, id)
    ensures s.Dead? && !o.deadLetterError(s.m) ==> Resolved(Advance(o, w, s).0, EventId(s.m))
  {
    var v := Advance(o, w, s).0;
    if m :| DeadLettered(m) in w.settled && EventId(m) == id {
      assert DeadLettered(m) in v.settled;
    }
    if s.Dead? && !o.deadLetterError(s.m) {
      assert DeadLettered(s.m) in v.settled;
    }
  }

  lemma OwnersClaimedAdvance(o: Oracle, w: World, slots: seq<Slot>, l: nat)
    requires OwnersClaimed(o, slots) && l < |slots| && !slots[l].Idle?
    ensures OwnersClaimed(o, slots[l := Advance(o, w, slots[l]).1])
  {
    var slots' := slots[l := Advance(o, w, slots[l]).1];
    forall k | 0 <= k < |slots'| && Owns(slots'[k])
      ensures !o.claimError(slots'[k].m)
    {
      assert k != l ==> slots'[k] == slots[k];
    }
  }

  /** What becomes of the claim a worker guards: it stays guarded, is given back, or its event is resolved. */
  lemma GuardAdvance(o: Oracle, w: World, s: Slot)
    requires Guards(o, s) && (Owns(s) ==> !o.claimError(s.m)) && ReleaseOrLetter(o)
    ensures var (v, t) := Advance(o, w, s);
            || (Guards(o, t) && t.m == s.m)
            || EventId(s.m) !in v.claims
            || Resolved(v, EventId(s.m))
  {
    ResolvedAdvance(o, w, s, EventId(s.m));
  }

  lemma BackedAdvance(log: seq<Message>, o: Oracle, w: World, slots: seq<Slot>, l: nat, id: string)
    requires l < |slots| && !slots[l].Idle? && OwnersClaimed(o, slots) && ReleaseOrLetter(o)
    requires id in w.claims ==> Resolved(w, id) || Guarded(o, slots, id)
    ensures var (v, s) := Advance(o, w, slots[l]);
            id in v.claims ==> Resolved(v, id) || Guarded(o, slots[l := s], id)
  {
    var (v, s) := Advance(o, w, slots[l]);
    var slots' := slots[l := s];
    ResolvedAdvance(o, w, slots[l], id);
    if id in v.claims && id !in w.claims {
      assert Guards(o, slots'[l]);
    } else if id in v.claims && !Resolved(w, id) {
      var k :| 0 <= k < |slots| && Guards(o, slots[k]) && EventId(slots[k].m) == id;
      if k == l {
        GuardAdvance(o, w, slots[l]);
        assert Guards(o, s) ==> Guards(o, slots'[l]);
      } else {
        assert slots'[k] == slots[k];
      }
    }
  }

  lemma ClaimsBackedAdvance(log: seq<Message>, o: Oracle, w: World, slots: seq<Slot>, l: nat)
    requires ClaimsBacked(log, o, w, slots) && l < |slots| && !slots[l].Idle?
    requires OwnersClaimed(o, slots) && ReleaseOrLetter(o)
    ensures var (v, s) := Advance(o, w, slots[l]); ClaimsBacked(log, o, v, slots[l := s])
  {
    var (v, s) := Advance(o, w, slots[l]);
    forall m | m in log && EventId(m) in v.claims
      ensures Resolved(v, EventId(m)) || Guarded(o, slots[l := s], EventId(m))
    {
      BackedAdvance(log, o, w, slots, l, EventId(m));
    }
  }

  /** What is on the way stays so until it is resolved. */
  lemma OnTheWayAdvance(o: Oracle, w: World, slots: seq<Slot>, l: nat, id: string)
    requires l < |slots| && !slots[l].Idle?
    requires OnTheWay(w, slots, id)
    ensures var (v, s) := Advance(o, w, slots[l]); Resolved(v, id) || OnTheWay(v, slots[l := s], id)
  {
    var (v, s) := Advance(o, w, slots[l]);
    var slots' := slots[l := s];
    if k :| 0 <= k < |slots| && (Owns(slots[k]) || slots[k].Dead?) && EventId(slots[k].m) == id {
      if k != l {
        assert slots'[k] == slots[k];
      } else if slots[l].Dead? {
        ResolvedAdvance(o, w, slots[l], id);
        assert o.deadLetterError(slots[l].m) ==> slots[l].m in v.errors;
      } else if s.Idle? {
        assert v.successes[id] >= 1;
      } else {
        assert slots'[l] == s;
      }
    } else {
      var m :| m in w.errors && EventId(m) == id;
      assert m in v.errors;
    }
  }

  /** A worker's own message, once it lets go of it. */
  lemma LetGo(log: seq<Message>, o: Oracle, w: World, slots: seq<Slot>, l: nat)
    requires ClaimsBacked(log, o, w, slots) && l < |slots| && !slots[l].Idle? && slots[l].m in log
    requires Advance(o, w, slots[l]).1.Idle?
    ensures var (v, s) := Advance(o, w, slots[l]);
            Resolved(v, EventId(slots[l].m)) || OnTheWay(v, slots[l := s], EventId(slots[l].m))
  {
    var (v, s) := Advance(o, w, slots[l]);
    var slots' := slots[l := s];
    var id := EventId(slots[l].m);
    ResolvedAdvance(o, w, slots[l], id);
    if slots[l].Picked? {
      if !Resolved(w, id) {
        var k :| 0 <= k < |slots| && Guards(o, slots[k]) && EventId(slots[k].m) == id;
        assert slots'[k] == slots[k];
      }
    } else if slots[l].Dead? {
      assert o.deadLetterError(slots[l].m) ==> slots[l].m in v.errors;
    } else {
      assert v.successes[id] >= 1;
    }
  }

  lemma HandledWork(route: Message -> nat, o: Oracle, log: seq<Message>, batch: seq<Message>, w: World, c: Config, l: nat)
    requires Accounted(route, batch, w, c) && Enabled(route, o, batch, c, Work(l))
    requires ClaimsBacked(log, o, c.world, c.slots) && HandledBacked(route, batch, c) && forall m :: m in batch ==> m in log
    ensures Placed(route, batch, Apply(route, o, batch, c, Work(l)))
    ensures HandledBacked(route, batch, Apply(route, o, batch, c, Work(l)))
  {
    var d := Apply(route, o, batch, c, Work(l));
    PlacedStep(route, o, batch, c, Work(l));
    forall m | m in batch && Owed(route, batch, d, m) == 0
      ensures Resolved(d.world, EventId(m)) || OnTheWay(d.world, d.slots, EventId(m))
    {
      if Owed(route, batch, c, m) == 0 {
        if Resolved(c.world, EventId(m)) {
          ResolvedAdvance(o, c.world, c.slots[l], EventId(m));
        } else {
          OnTheWayAdvance(o, c.world, c.slots, l, EventId(m));
        }
      } else {
        assert Lane(route, m) == l && c.slots[l].m == m;
        LetGo(log, o, c.world, c.slots, l);
      }
    }
  }

  lemma OwedSame(route: Message -> nat, o: Oracle, batch: seq<Message>, w: World, c: Config, a: Action, m: Message)
    requires Accounted(route, batch, w, c) && Enabled(route, o, batch, c, a) && !a.Work?
    ensures Apply(route, o, batch, c, a).next <= |batch|
    ensures Owed(route, batch, Apply(route, o, batch, c, a), m) == Owed(route, batch, c, m)
  {
    OwedStep(route, o, batch, c, a, m);
  }

  /** What a dispatch, a close or a take leaves: the world and every busy worker. */
  lemma BusyStay(route: Message -> nat, o: Oracle, batch: seq<Message>, c: Config, a: Action)
    requires Placed(route, batch, c) && Enabled(route, o, batch, c, a) && !a.Work?
    ensures var d := Apply(route, o, batch, c, a);
            && d.world == c.world
            && (forall l :: 0 <= l < LANES && !c.slots[l].Idle? ==> d.slots[l] == c.slots[l])
            && (forall l :: 0 <= l < LANES && Owns(d.slots[l]) ==> d.slots[l] == c.slots[l])
  {
  }

  lemma BackedStays(log: seq<Message>, o: Oracle, w: World, slots: seq<Slot>, after: seq<Slot>)
    requires ClaimsBacked(log, o, w, slots) && |after| == |slots|
    requires forall l :: 0 <= l < |slots| && !slots[l].Idle? ==> after[l] == slots[l]
    ensures ClaimsBacked(log, o, w, after)
  {
    forall m | m in log && EventId(m) in w.claims
      ensures Resolved(w, EventId(m)) || Guarded(o, after, EventId(m))
    {
      if !Resolved(w, EventId(m)) {
        var l :| 0 <= l < |slots| && Guards(o, slots[l]) && EventId(slots[l].m) == EventId(m);
        assert after[l] == slots[l];
      }
    }
  }

  lemma OnTheWayStays(w: World, slots: seq<Slot>, after: seq<Slot>, id: string)
    requires OnTheWay(w, slots, id) && |after| == |slots|
    requires forall l :: 0 <= l < |slots| && !slots[l].Idle? ==> after[l] == slots[l]
    ensures OnTheWay(w, after, id)
  {
    if l :| 0 <= l < |slots| && (Owns(slots[l]) || slots[l].Dead?) && EventId(slots[l].m) == id {
      assert after[l] == slots[l];
    }
  }

  lemma HandledMove(route: Message -> nat, o: Oracle, batch: seq<Message>, w: World, c: Config, a: Action)
    requires Accounted(route, batch, w, c) && Enabled(route, o, batch, c, a) && !a.Work? && HandledBacked(route, batch, c)
    ensures Placed(route, batch, Apply(route, o, batch, c, a))
    ensures HandledBacked(route, batch, Apply(route, o, batch, c, a))
  {
    var d := Apply(route, o, batch, c, a);
    PlacedStep(route, o, batch, c, a);
    BusyStay(route, o, batch, c, a);
    forall m | m in batch && Owed(route, batch, d, m) == 0
      ensures Resolved(d.world, EventId(m)) || OnTheWay(d.world, d.slots, EventId(m))
    {
      OwedSame(route, o, batch, w, c, a, m);
      if !Resolved(d.world, EventId(m)) {
        OnTheWayStays(c.world, c.slots, d.slots, EventId(m));
      }
    }
  }

  lemma LosslessBatchStep(route: Message -> nat, o: Oracle, log: seq<Message>, batch: seq<Message>, w: World, c: Config, a: Action)
    requires Accounted(route, batch, w, c) && Enabled(route, o, batch, c, a) && LosslessBatch(route, log, batch, w, o, c)
    ensures LosslessBatch(route, log, batch, w, o, Apply(route, o, batch, c, a))
  {
    PlacedStep(route, o, batch, c, a);
    if a.Work? {
      ClaimsBackedAdvance(log, o, c.world, c.slots, a.lane);
      OwnersClaimedAdvance(o, c.world, c.slots, a.lane);
      HandledWork(route, o, log, batch, w, c, a.lane);
      StillResolved(w, o, c.world, c.slots[a.lane]);
    } else {
      BusyStay(route, o, batch, c, a);
      BackedStays(log, o, c.world, c.slots, Apply(route, o, batch, c, a).slots);
      HandledMove(route, o, batch, w, c, a);
    }
  }

  lemma LosslessAct(route: Message -> nat, log: seq<Message>, p: Partition, a: Action)
    requires Lossless(route, log, p) && Possible(route, log, p, Act(a))
    requires Sound(route, log, Next(route, log, p, Act(a)))
    ensures Lossless(route, log, Next(route, log, p, Act(a)))
  {
    LosslessBatchStep(route, p.phase.o, log, Batch(log, p), p.world, p.phase.c, a);
    ActKeeps(route, log, p, a);
  }

  lemma StillResolved(u: World, o: Oracle, w: World, s: Slot)
    requires !s.Idle?
    requires forall id :: Resolved(u, id) ==> Resolved(w, id)
    ensures forall id :: Resolved(u, id) ==> Resolved(Advance(o, w, s).0, id)
  {
    forall id | Resolved(u, id)
      ensures Resolved(Advance(o, w, s).0, id)
    {
      ResolvedAdvance(o, w, s, id);
    }
  }

  /** When a batch has finished without errors, all it handled is resolved. */
  lemma BatchResolved(route: Message -> nat, batch: seq<Message>, c: Config, m: Message)
    requires Placed(route, batch, c) && HandledBacked(route, batch, c)
    requires Finished(c) && c.world.errors == multiset{} && m in batch
    ensures Resolved(c.world, EventId(m))
  {
    assert batch[c.next..] == [];
    assert Owed(route, batch, c, m) == 0;
    assert !OnTheWay(c.world, c.slots, EventId(m));
  }

  /** Up to the end of a batch that finished without errors, everything is resolved. */
  lemma ResolvedToEnd(route: Message -> nat, log: seq<Message>, first: nat, end: nat, w: World, c: Config)
    requires first <= end <= |log| && forall m :: m in log[..first] ==> Resolved(w, EventId(m))
    requires forall id :: Resolved(w, id) ==> Resolved(c.world, id)
    requires Placed(route, log[first..end], c) && HandledBacked(route, log[first..end], c)
    requires Finished(c) && c.world.errors == multiset{}
    ensures forall m :: m in log[..end] ==> Resolved(c.world, EventId(m))
  {
    var batch := log[first..end];
    forall m | m in log[..end]
      ensures Resolved(c.world, EventId(m))
    {
      var k :| 0 <= k < end && log[k] == m;
      if k < first {
        assert log[..first][k] == m;
        assert Resolved(w, EventId(m));
      } else {
        assert batch[k - first] == m;
        BatchResolved(route, batch, c, m);
      }
    }
  }

  /** A commit moves the watermark to the end of the batch and nothing else. */
  lemma CommitMoves(route: Message -> nat, log: seq<Message>, p: Partition) returns (end: nat)
    requires Ordered(log) && WellFormed(log, p) && Possible(route, log, p, Commit)
    ensures end == p.phase.first + p.phase.count <= |log|
    ensures var q := Next(route, log, p, Commit);
            q.world == p.phase.c.world && !q.phase.Running? && Seek(log, q.watermark) == end
  {
    end := p.phase.first + p.phase.count;
    SeekWatermark(log, end);
  }

  lemma CommitClaims(route: Message -> nat, log: seq<Message>, p: Partition)
    requires Lossless(route, log, p) && Possible(route, log, p, Commit)
    ensures ClaimsResolved(log, p.phase.c.world)
  {
    NoGuards(log, p.phase.o, p.phase.c);
  }

  lemma LosslessCommit(route: Message -> nat, log: seq<Message>, p: Partition)
    requires Lossless(route, log, p) && Possible(route, log, p, Commit)
    requires Sound(route, log, Next(route, log, p, Commit))
    ensures Lossless(route, log, Next(route, log, p, Commit))
  {
    var end := CommitMoves(route, log, p);
    ResolvedToEnd(route, log, p.phase.first, end, p.world, p.phase.c);
    CommitClaims(route, log, p);
  }

  lemma StillBelow(log: seq<Message>, first: nat, w: World, v: World)
    requires first <= |log| && forall m :: m in log[..first] ==> Resolved(w, EventId(m))
    requires forall id :: Resolved(w, id) ==> Resolved(v, id)
    ensures forall m :: m in log[..first] ==> Resolved(v, EventId(m))
  {
  }

  /** Once no worker guards a claim, as when the batch has finished, the claims are resolved. */
  lemma NoGuards(log: seq<Message>, o: Oracle, c: Config)
    requires Shaped(c) && ClaimsBacked(log, o, c.world, c.slots) && forall l :: 0 <= l < LANES ==> !Guards(o, c.slots[l])
    ensures ClaimsResolved(log, c.world)
  {
  }

  lemma StopsResolved(route: Message -> nat, log: seq<Message>, p: Partition)
    requires Lossless(route, log, p) && p.phase.Running? && forall l :: 0 <= l < LANES ==> !Guards(p.phase.o, p.phase.c.slots[l])
    ensures ClaimsResolved(log, p.phase.c.world) && BelowResolved(log, p.watermark, p.phase.c.world)
  {
    NoGuards(log, p.phase.o, p.phase.c);
    StillBelow(log, p.phase.first, p.world, p.phase.c.world);
  }

  lemma LosslessStart(route: Message -> nat, log: seq<Message>, batch: seq<Message>, w: World, o: Oracle)
    requires ClaimsResolved(log, w) && ReleaseOrLetter(o) && forall m :: m in batch ==> m in log
    ensures LosslessBatch(route, log, batch, w, o, Start(w))
  {
    var c := Start(w);
    assert batch[0..] == batch;
    forall id | Resolved(w, id)
      ensures Resolved(c.world, id)
    {
      if m :| DeadLettered(m) in w.settled && EventId(m) == id {
        assert DeadLettered(m) in c.world.settled;
      }
    }
    forall m | m in batch
      ensures Owed(route, batch, c, m) > 0
    {
    }
  }

  lemma LosslessStep(route: Message -> nat, log: seq<Message>, p: Partition, e: Event)
    requires Lossless(route, log, p) && Possible(route, log, p, e) && Careful(log, p, e)
    ensures Lossless(route, log, Next(route, log, p, e))
  {
    var q := Next(route, log, p, e);
    SoundStep(route, log, p, e);
    match e
    case Assign =>
    case Fetch(count, o) => LosslessStart(route, log, Batch(log, q), p.world, o);
    case Act(a) => LosslessAct(route, log, p, a);
    case Commit => LosslessCommit(route, log, p);
    case CommitFails => StopsResolved(route, log, p);
    case Abandon => StopsResolved(route, log, p);
    case Stop =>
      if p.phase.Running? {
        StopsResolved(route, log, p);
      }
  }

  lemma {:induction false} LosslessAfter(route: Message -> nat, log: seq<Message>, p: Partition, events: seq<Event>)
    requires Lossless(route, log, p) && History(route, log, p, events) && CarefulHistory(route, log, p, events)
    ensures Lossless(route, log, After(route, log, p, events))
    decreases |events|
  {
    if events != [] {
      LosslessStep(route, log, p, events[0]);
      LosslessAfter(route, log, Next(route, log, p, events[0]), events[1..]);
    }
  }

  /** Main result. When no message fails both its release and its dead letter, and the owner never stops while a
      worker guards a claim, each event below the watermark has a successful handling or a dead letter. A
      release that fails alone, as under a cancelled context, loses nothing. */
  lemma NothingLost(route: Message -> nat, log: seq<Message>, p: Partition, events: seq<Event>, m: Message)
    requires Ordered(log) && Initial(p) && WellFormed(log, p) && History(route, log, p, events)
    requires CarefulHistory(route, log, p, events)
    requires m in log && m.offset < After(route, log, p, events).watermark
    ensures Resolved(Now(After(route, log, p, events)), EventId(m))
  {
    var q := After(route, log, p, events);
    SeekBounds(log, 0);
    LosslessAfter(route, log, p, events);
    LosslessBelow(route, log, q, m);
  }

  lemma LosslessBelow(route: Message -> nat, log: seq<Message>, p: Partition, m: Message)
    requires Lossless(route, log, p) && m in log && m.offset < p.watermark
    ensures Resolved(Now(p), EventId(m))
  {
    var k :| 0 <= k < |log| && log[k] == m;
    var i := Seek(log, p.watermark);
    SeekSplits(log, p.watermark);
    assert log[..i][k] == m;
    assert Resolved(p.world, EventId(m));
  }
}
