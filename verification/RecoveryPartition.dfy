/** broker.go, runExplicitConsumerGroup: the owner of one partition over generations, failed batches and
    redelivery. A message log is read in batches; the watermark is the committed offset. */
module RecoveryPartition {
  import opened Commands
  import opened RecoverySettle
  import opened RecoverySchedule
  import opened RecoveryProgress

  const MAX_BATCH := 200

  /** A partition's offsets increase, possibly with gaps. */
  ghost predicate Ordered(log: seq<Message>) {
    forall i, j :: 0 <= i < j < |log| ==> log[i].offset < log[j].offset
  }

  /** The offset committed after the first `i` messages. */
  function Watermark(log: seq<Message>, i: nat): nat
    requires i <= |log|
  {
    if i == 0 then 0 else log[i - 1].offset + 1
  }

  /** Where a reader set to `offset` starts: at the first message not before it. */
  function Seek(log: seq<Message>, offset: nat): (i: nat)
    ensures i <= |log|
  {
    if log == [] || log[0].offset >= offset then 0 else 1 + Seek(log[1..], offset)
  }

  lemma {:induction false} SeekBounds(log: seq<Message>, offset: nat)
    ensures forall j :: 0 <= j < Seek(log, offset) ==> log[j].offset < offset
    ensures Seek(log, offset) < |log| ==> log[Seek(log, offset)].offset >= offset
  {
    if log != [] && log[0].offset < offset {
      SeekBounds(log[1..], offset);
      forall j | 0 <= j < Seek(log, offset)
        ensures log[j].offset < offset
      {
        if j > 0 {
          assert log[1..][j - 1] == log[j];
        }
      }
    }
  }

  /** The messages below an offset are those the reader is past. */
  lemma SeekSplits(log: seq<Message>, offset: nat)
    requires Ordered(log)
    ensures forall k :: 0 <= k < |log| ==> (log[k].offset < offset <==> k < Seek(log, offset))
  {
    SeekBounds(log, offset);
    var s := Seek(log, offset);
    assert forall k :: s < k < |log| ==> log[s].offset < log[k].offset;
  }

  lemma SeekWatermark(log: seq<Message>, i: nat)
    requires Ordered(log) && i <= |log|
    ensures Seek(log, Watermark(log, i)) == i
  {
    SeekSplits(log, Watermark(log, i));
    assert forall k :: 0 <= k < i - 1 ==> log[k].offset < log[i - 1].offset;
    assert forall k :: i <= k < |log| && i > 0 ==> log[i - 1].offset < log[k].offset;
    assert forall k :: 0 <= k < |log| ==> (log[k].offset < Watermark(log, i) <==> k < i);
    var s := Seek(log, Watermark(log, i));
    assert s < |log| ==> !(s < i);
    assert i < |log| ==> !(i < s);
  }

  /** No generation runs here; the reader stands before message `pos`; or a batch is under way. */
  datatype Phase =
    | Stopped
    | Ready(pos: nat)
    | Running(first: nat, count: nat, o: Oracle, c: Config)

  /** `world` is the state when the batch under way was fetched; `taken` lists the messages the workers
      took in this generation, which started at message `origin`. */
  datatype Partition = Partition(watermark: nat, phase: Phase, world: World, origin: nat, taken: seq<Message>)

  /** A generation is assigned; a batch is fetched; a dispatcher or worker acts; the finished batch is
      committed, fails to commit or is given up for its errors; the owner stops at any moment. */
  datatype Event =
    | Assign
    | Fetch(count: nat, o: Oracle)
    | Act(a: Action)
    | Commit
    | CommitFails
    | Abandon
    | Stop

  function Now(p: Partition): World {
    if p.phase.Running? then p.phase.c.world else p.world
  }

  function Batch(log: seq<Message>, p: Partition): seq<Message>
    requires p.phase.Running? && p.phase.first + p.phase.count <= |log|
  {
    log[p.phase.first..p.phase.first + p.phase.count]
  }

  predicate WellFormed(log: seq<Message>, p: Partition) {
    && (p.phase.Ready? ==> p.phase.pos <= |log|)
    && (p.phase.Running? ==> p.phase.first + p.phase.count <= |log| && 0 < p.phase.count <= MAX_BATCH && Shaped(p.phase.c))
  }

  predicate Possible(route: Message -> nat, log: seq<Message>, p: Partition, e: Event)
    requires WellFormed(log, p)
  {
    match e
    case Assign => p.phase.Stopped?
    case Fetch(count, _) => p.phase.Ready? && 0 < count <= MAX_BATCH && p.phase.pos + count <= |log|
    case Act(a) => p.phase.Running? && Enabled(route, p.phase.o, Batch(log, p), p.phase.c, a)
    case Commit => p.phase.Running? && Finished(p.phase.c) && p.phase.c.world.errors == multiset{}
    case CommitFails => p.phase.Running? && Finished(p.phase.c) && p.phase.c.world.errors == multiset{}
    case Abandon => p.phase.Running? && Finished(p.phase.c) && p.phase.c.world.errors != multiset{}
    case Stop => true
  }

  function Next(route: Message -> nat, log: seq<Message>, p: Partition, e: Event): (q: Partition)
    requires WellFormed(log, p) && Possible(route, log, p, e)
    ensures WellFormed(log, q)
  {
    match e
    case Assign =>
      var pos := Seek(log, p.watermark);
      p.(phase := Ready(pos), origin := pos, taken := [])
    case Fetch(count, o) => p.(phase := Running(p.phase.pos, count, o, Start(p.world)))
    case Act(a) =>
      p.(phase := p.phase.(c := Apply(route, p.phase.o, Batch(log, p), p.phase.c, a)),
         taken := p.taken + TakenBy(p.phase.c, a))
    case Commit =>
      var end := p.phase.first + p.phase.count;
      p.(watermark := log[end - 1].offset + 1, phase := Ready(end), world := Now(p))
    case CommitFails => p.(phase := Stopped, world := Now(p))
    case Abandon => p.(phase := Stopped, world := Now(p))
    case Stop => p.(phase := Stopped, world := Now(p))
  }

  /** What an action leaves of the partition besides its batch. */
  lemma ActKeeps(route: Message -> nat, log: seq<Message>, p: Partition, a: Action)
    requires WellFormed(log, p) && Possible(route, log, p, Act(a))
    ensures var q := Next(route, log, p, Act(a));
            && q.watermark == p.watermark && q.world == p.world && q.origin == p.origin && q.taken == p.taken + TakenBy(p.phase.c, a)
            && q.phase.Running? && q.phase.first == p.phase.first && q.phase.count == p.phase.count && q.phase.o == p.phase.o
            && Batch(log, q) == Batch(log, p) && q.phase.c == Apply(route, p.phase.o, Batch(log, p), p.phase.c, a)
  {
  }

  predicate History(route: Message -> nat, log: seq<Message>, p: Partition, events: seq<Event>)
    requires WellFormed(log, p)
    decreases |events|
  {
    events == []
    || (Possible(route, log, p, events[0]) && History(route, log, Next(route, log, p, events[0]), events[1..]))
  }

  function After(route: Message -> nat, log: seq<Message>, p: Partition, events: seq<Event>): (q: Partition)
    requires WellFormed(log, p) && History(route, log, p, events)
    ensures WellFormed(log, q)
    decreases |events|
  {
    if events == [] then p else After(route, log, Next(route, log, p, events[0]), events[1..])
  }

  /** Nothing committed, nothing claimed, no generation. */
  predicate Initial(p: Partition) {
    && p.watermark == 0
    && p.phase.Stopped?
    && p.world.claims == {}
    && p.world.successes == multiset{}
    && p.world.settled == multiset{}
    && p.origin == 0
    && p.taken == []
  }

  // ----- Commit safety -----

  /** The watermark stands right after some message, where the reader or the batch under way starts; the
      batch is accounted for; and every message below the watermark has been settled. */
  ghost predicate Sound(route: Message -> nat, log: seq<Message>, p: Partition) {
    && WellFormed(log, p)
    && Settled(log, p.watermark, p.world)
    && (p.phase.Ready? ==> p.phase.pos == Seek(log, p.watermark))
    && (p.phase.Running? ==>
          p.phase.first == Seek(log, p.watermark) && Accounted(route, Batch(log, p), p.world, p.phase.c))
  }

  /** The watermark stands at a message, and every message before it has been settled. */
  ghost predicate Settled(log: seq<Message>, watermark: nat, w: World) {
    && Ordered(log)
    && watermark == Watermark(log, Seek(log, watermark))
    && (forall m :: m in log[..Seek(log, watermark)] ==> Times(w, m) >= 1)
  }

  /** Up to the end of a batch that finished without errors, every message has been settled. */
  lemma SettledToEnd(route: Message -> nat, log: seq<Message>, p: Partition, k: nat)
    requires Sound(route, log, p) && Possible(route, log, p, Commit) && k < p.phase.first + p.phase.count
    ensures Times(p.phase.c.world, log[k]) >= 1
  {
    var m, batch := log[k], Batch(log, p);
    if k < p.phase.first {
      assert log[..p.phase.first][k] == m;
      assert Times(p.world, m) >= 1;
      assert Times(p.phase.c.world, m) >= Times(p.world, m);
    } else {
      assert batch[k - p.phase.first] == m;
      assert Owed(route, batch, p.phase.c, m) + Times(p.phase.c.world, m) + p.phase.c.world.errors[m]
             == multiset(batch)[m] + Times(p.world, m);
    }
  }

  lemma SoundCommit(route: Message -> nat, log: seq<Message>, p: Partition)
    requires Sound(route, log, p) && Possible(route, log, p, Commit)
    ensures Sound(route, log, Next(route, log, p, Commit))
  {
    var q := Next(route, log, p, Commit);
    var end := p.phase.first + p.phase.count;
    assert q.watermark == Watermark(log, end);
    SeekWatermark(log, end);
    forall m | m in log[..end]
      ensures Times(q.world, m) >= 1
    {
      var k :| 0 <= k < end && log[k] == m;
      SettledToEnd(route, log, p, k);
    }
  }

  lemma SoundStop(route: Message -> nat, log: seq<Message>, p: Partition)
    requires Sound(route, log, p)
    ensures Sound(route, log, p.(phase := Stopped, world := Now(p)))
  {
    if p.phase.Running? {
      forall m | m in log[..Seek(log, p.watermark)]
        ensures Times(Now(p), m) >= 1
      {
        assert Times(p.phase.c.world, m) >= Times(p.world, m);
      }
    }
  }

  lemma SoundAct(route: Message -> nat, log: seq<Message>, p: Partition, a: Action)
    requires Sound(route, log, p) && Possible(route, log, p, Act(a))
    ensures Sound(route, log, Next(route, log, p, Act(a)))
  {
    var q := Next(route, log, p, Act(a));
    AccountedStep(route, p.phase.o, Batch(log, p), p.world, p.phase.c, a);
    assert q.world == p.world && q.watermark == p.watermark;
    assert Batch(log, q) == Batch(log, p);
  }

  lemma SoundFetch(route: Message -> nat, log: seq<Message>, p: Partition, count: nat, o: Oracle)
    requires Sound(route, log, p) && Possible(route, log, p, Fetch(count, o))
    ensures Sound(route, log, Next(route, log, p, Fetch(count, o)))
  {
    var q := Next(route, log, p, Fetch(count, o));
    AccountedAtStart(route, Batch(log, q), p.world);
    assert q.world == p.world && q.watermark == p.watermark;
  }

  lemma SoundStep(route: Message -> nat, log: seq<Message>, p: Partition, e: Event)
    requires Sound(route, log, p) && Possible(route, log, p, e)
    ensures Sound(route, log, Next(route, log, p, e))
  {
    match e
    case Assign =>
    case Fetch(count, o) => SoundFetch(route, log, p, count, o);
    case Act(a) => SoundAct(route, log, p, a);
    case Commit => SoundCommit(route, log, p);
    case CommitFails => SoundStop(route, log, p);
    case Abandon => SoundStop(route, log, p);
    case Stop => SoundStop(route, log, p);
  }

  lemma {:induction false} SoundAfter(route: Message -> nat, log: seq<Message>, p: Partition, events: seq<Event>)
    requires Sound(route, log, p) && History(route, log, p, events)
    ensures Sound(route, log, After(route, log, p, events))
    decreases |events|
  {
    if events != [] {
      SoundStep(route, log, p, events[0]);
      SoundAfter(route, log, Next(route, log, p, events[0]), events[1..]);
    }
  }

  /** Main result. In every state the owner can reach, over any generations, failures and crashes, each
      message below the watermark had its handler succeed, its dead letter written, or its event id
      found claimed when it was delivered. */
  lemma CommitSafety(route: Message -> nat, log: seq<Message>, p: Partition, events: seq<Event>, m: Message)
    requires Ordered(log) && Initial(p) && History(route, log, p, events)
    requires m in log && m.offset < After(route, log, p, events).watermark
    ensures var w := Now(After(route, log, p, events));
            Succeeded(m) in w.settled || DeadLettered(m) in w.settled || AlreadyClaimed(m) in w.settled
  {
    var q := After(route, log, p, events);
    SeekBounds(log, 0);
    SoundAfter(route, log, p, events);
    var k :| 0 <= k < |log| && log[k] == m;
    var i := Seek(log, q.watermark);
    SeekSplits(log, q.watermark);
    assert log[..i][k] == m;
    assert Times(q.world, m) >= 1;
    if q.phase.Running? {
      assert Times(q.phase.c.world, m) >= Times(q.world, m);
    }
  }

  /** The watermark never moves back, and moves only past a finished batch that reported no error. */
  lemma WatermarkGrows(route: Message -> nat, log: seq<Message>, p: Partition, e: Event)
    requires Sound(route, log, p) && Possible(route, log, p, e)
    ensures var q := Next(route, log, p, e);
            && q.watermark >= p.watermark
            && (q.watermark != p.watermark <==> e.Commit?)
            && (q.watermark != p.watermark ==> Finished(p.phase.c) && p.phase.c.world.errors == multiset{})
  {
    if e.Commit? {
      var i := p.phase.first;
      var end := i + p.phase.count;
      assert i > 0 ==> log[i - 1].offset < log[end - 1].offset;
    }
  }

  // ----- At most one success -----

  /** The worker has claimed its message's event id and neither succeeded nor released it. */
  predicate Owns(s: Slot) {
    s.Claimed? || s.Failed?
  }

  /** A success is unique and keeps its claim for good. */
  ghost predicate SuccessKeepsClaim(w: World) {
    forall e :: w.successes[e] <= 1 && (w.successes[e] >= 1 ==> e in w.claims)
  }

  /** An owner's event id is claimed and has no success yet. */
  ghost predicate OwnersHoldClaims(w: World, slots: seq<Slot>) {
    forall l :: 0 <= l < |slots| && Owns(slots[l]) ==>
      EventId(slots[l].m) in w.claims && w.successes[EventId(slots[l].m)] == 0
  }

  ghost predicate OwnersDiffer(slots: seq<Slot>) {
    forall k, l :: 0 <= k < l < |slots| && Owns(slots[k]) && Owns(slots[l]) ==> EventId(slots[k].m) != EventId(slots[l].m)
  }

  ghost predicate Exclusive(w: World, slots: seq<Slot>) {
    SuccessKeepsClaim(w) && OwnersHoldClaims(w, slots) && OwnersDiffer(slots)
  }

  /** No other worker owns the event id of the message in slot `l`. */
  lemma OthersOwnOthers(w: World, slots: seq<Slot>, l: nat)
    requires Exclusive(w, slots) && l < |slots|
    requires Owns(slots[l]) || (slots[l].Picked? && EventId(slots[l].m) !in w.claims)
    ensures forall k :: 0 <= k < |slots| && k != l && Owns(slots[k]) ==> EventId(slots[k].m) != EventId(slots[l].m)
  {
  }

  lemma ExclusiveAdvance(o: Oracle, w: World, slots: seq<Slot>, l: nat)
    requires Exclusive(w, slots) && l < |slots| && !slots[l].Idle?
    ensures var (v, s) := Advance(o, w, slots[l]); Exclusive(v, slots[l := s])
  {
    var (v, s) := Advance(o, w, slots[l]);
    var slots' := slots[l := s];
    var id := EventId(slots[l].m);
    assert s.Idle? || s.m == slots[l].m;
    if Owns(slots[l]) || Owns(s) {
      OthersOwnOthers(w, slots, l);
      assert OwnersDiffer(slots');
      assert SuccessKeepsClaim(v) by {
        assert w.successes[id] == 0;
      }
      forall k | 0 <= k < |slots'| && Owns(slots'[k])
        ensures EventId(slots'[k].m) in v.claims && v.successes[EventId(slots'[k].m)] == 0
      {
        if k != l {
          assert EventId(slots[k].m) != id;
          assert EventId(slots[k].m) in w.claims && w.successes[EventId(slots[k].m)] == 0;
        }
      }
    } else {
      assert v.claims == w.claims && v.successes == w.successes;
    }
  }

  ghost predicate OnceSoFar(log: seq<Message>, p: Partition) {
    && WellFormed(log, p)
    && Exclusive(Now(p), if p.phase.Running? then p.phase.c.slots else [])
  }

  lemma OnceStep(route: Message -> nat, log: seq<Message>, p: Partition, e: Event)
    requires OnceSoFar(log, p) && Possible(route, log, p, e)
    ensures OnceSoFar(log, Next(route, log, p, e))
  {
    if e.Act? && e.a.Work? {
      ExclusiveAdvance(p.phase.o, p.phase.c.world, p.phase.c.slots, e.a.lane);
    }
  }

  lemma {:induction false} OnceAfter(route: Message -> nat, log: seq<Message>, p: Partition, events: seq<Event>)
    requires OnceSoFar(log, p) && History(route, log, p, events)
    ensures OnceSoFar(log, After(route, log, p, events))
    decreases |events|
  {
    if events != [] {
      OnceStep(route, log, p, events[0]);
      OnceAfter(route, log, Next(route, log, p, events[0]), events[1..]);
    }
  }

  /** Main result. Over any history, crashes and failed releases included, the handler returns nil at
      most once for an event id. */
  lemma AtMostOneSuccess(route: Message -> nat, log: seq<Message>, p: Partition, events: seq<Event>, id: string)
    requires Initial(p) && WellFormed(log, p) && History(route, log, p, events)
    ensures Now(After(route, log, p, events)).successes[id] <= 1
  {
    OnceAfter(route, log, p, events);
  }
}
