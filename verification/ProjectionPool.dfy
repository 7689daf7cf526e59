/** broker.go, runProjectionBatchConsumer: up to 8 workers share one unbuffered work channel; each message
    sends at most one error to a channel as large as the batch. */
module ProjectionPool {
  import opened Wrappers
  import opened Commands

  const MAX_WORKERS := 8

  function Workers(batch: seq<Message>): nat {
    if |batch| < MAX_WORKERS then |batch| else MAX_WORKERS
  }

  /** `next` messages were handed over; a worker holds at most one message. */
  datatype Pool = Pool(next: nat, workers: seq<Option<Message>>, handled: multiset<Message>, errs: multiset<Message>)

  /** The dispatcher and an idle worker meet on the channel; a worker settles the message it holds. */
  datatype Move = HandOver(worker: nat) | Settle(worker: nat)

  function Open(batch: seq<Message>): Pool {
    Pool(0, seq(Workers(batch), _ => None), multiset{}, multiset{})
  }

  /** `fails` holds of the messages whose dead letter cannot be written. */
  predicate CanMove(fails: Message -> bool, batch: seq<Message>, p: Pool, a: Move) {
    match a
    case HandOver(k) => k < |p.workers| && p.workers[k].None? && p.next < |batch|
    case Settle(k) =>
      k < |p.workers| && p.workers[k].Some? && (fails(p.workers[k].value) ==> |p.errs| < |batch|)
  }

  function Moved(fails: Message -> bool, batch: seq<Message>, p: Pool, a: Move): Pool
    requires CanMove(fails, batch, p, a)
  {
    match a
    case HandOver(k) => p.(next := p.next + 1, workers := p.workers[k := Some(batch[p.next])])
    case Settle(k) =>
      var m := p.workers[k].value;
      p.(workers := p.workers[k := None],
         handled := p.handled + multiset{m},
         errs := if fails(m) then p.errs + multiset{m} else p.errs)
  }

  function One(x: Option<Message>, m: Message): nat {
    if x == Some(m) then 1 else 0
  }

  /** How many workers hold `m`. */
  function Held(workers: seq<Option<Message>>, m: Message): nat {
    if workers == [] then 0 else One(workers[0], m) + Held(workers[1..], m)
  }

  lemma {:induction false} HeldUpdate(workers: seq<Option<Message>>, k: nat, x: Option<Message>, m: Message)
    requires k < |workers|
    ensures Held(workers[k := x], m) == Held(workers, m) - One(workers[k], m) + One(x, m)
  {
    if k > 0 {
      assert workers[k := x][1..] == workers[1..][k - 1 := x];
      HeldUpdate(workers[1..], k - 1, x, m);
    } else {
      assert workers[0 := x][1..] == workers[1..];
    }
  }

  lemma {:induction false} HeldNone(workers: seq<Option<Message>>, m: Message)
    requires forall k :: 0 <= k < |workers| ==> workers[k].None?
    ensures Held(workers, m) == 0
  {
    if workers != [] {
      HeldNone(workers[1..], m);
    }
  }

  /** Each message handed over is held by one worker or was settled once; only settled messages report errors. */
  ghost predicate Consistent(batch: seq<Message>, p: Pool) {
    && p.next <= |batch|
    && |p.workers| == Workers(batch)
    && (forall m :: multiset(batch[..p.next])[m] == Held(p.workers, m) + p.handled[m])
    && p.errs <= p.handled
  }

  lemma ConsistentStep(fails: Message -> bool, batch: seq<Message>, p: Pool, a: Move)
    requires Consistent(batch, p) && CanMove(fails, batch, p, a)
    ensures Consistent(batch, Moved(fails, batch, p, a))
  {
    var q := Moved(fails, batch, p, a);
    if a.HandOver? {
      assert batch[..q.next] == batch[..p.next] + [batch[p.next]];
    }
    forall m
      ensures multiset(batch[..q.next])[m] == Held(q.workers, m) + q.handled[m]
    {
      HeldUpdate(p.workers, a.worker, q.workers[a.worker], m);
    }
  }

  predicate Play(fails: Message -> bool, batch: seq<Message>, p: Pool, moves: seq<Move>)
    decreases |moves|
  {
    moves == [] || (CanMove(fails, batch, p, moves[0]) && Play(fails, batch, Moved(fails, batch, p, moves[0]), moves[1..]))
  }

  function Played(fails: Message -> bool, batch: seq<Message>, p: Pool, moves: seq<Move>): Pool
    requires Play(fails, batch, p, moves)
    decreases |moves|
  {
    if moves == [] then p else Played(fails, batch, Moved(fails, batch, p, moves[0]), moves[1..])
  }

  function Busy(workers: seq<Option<Message>>): nat {
    if workers == [] then 0 else (if workers[0].Some? then 1 else 0) + Busy(workers[1..])
  }

  lemma {:induction false} BusyUpdate(workers: seq<Option<Message>>, k: nat, x: Option<Message>)
    requires k < |workers|
    ensures Busy(workers[k := x]) + (if workers[k].Some? then 1 else 0) == Busy(workers) + (if x.Some? then 1 else 0)
  {
    if k > 0 {
      assert workers[k := x][1..] == workers[1..][k - 1 := x];
      BusyUpdate(workers[1..], k - 1, x);
    } else {
      assert workers[0 := x][1..] == workers[1..];
    }
  }

  lemma {:induction false} PlayConsistent(fails: Message -> bool, batch: seq<Message>, p: Pool, moves: seq<Move>)
    requires Consistent(batch, p) && Play(fails, batch, p, moves)
    ensures Consistent(batch, Played(fails, batch, p, moves))
    ensures |moves| <= 2 * (|batch| - p.next) + Busy(p.workers)
    decreases |moves|
  {
    if moves != [] {
      var q := Moved(fails, batch, p, moves[0]);
      BusyUpdate(p.workers, moves[0].worker, q.workers[moves[0].worker]);
      ConsistentStep(fails, batch, p, moves[0]);
      PlayConsistent(fails, batch, q, moves[1..]);
    }
  }

  lemma {:induction false} NobodyBusy(workers: seq<Option<Message>>)
    requires forall k :: 0 <= k < |workers| ==> workers[k].None?
    ensures Busy(workers) == 0
  {
    if workers != [] {
      NobodyBusy(workers[1..]);
    }
  }

  lemma {:induction false} HeldSome(workers: seq<Option<Message>>, k: nat)
    requires k < |workers| && workers[k].Some?
    ensures Held(workers, workers[k].value) > 0
  {
    if k > 0 {
      HeldSome(workers[1..], k - 1);
    }
  }

  /** While a worker holds a message, not all of the batch is settled and the error channel has room. */
  lemma HeldHasRoom(batch: seq<Message>, p: Pool, k: nat)
    requires Consistent(batch, p) && k < |p.workers| && p.workers[k].Some?
    ensures |p.errs| <= |p.handled| < |batch|
  {
    var m := p.workers[k].value;
    HeldSome(p.workers, k);
    var all := multiset(batch[..p.next]);
    forall x
      ensures (p.handled + multiset{m})[x] <= all[x]
    {
    }
    assert all == (p.handled + multiset{m}) + (all - (p.handled + multiset{m}));
    assert p.handled == p.errs + (p.handled - p.errs);
  }

  /** Main result. No play of the pool is stuck, every play has at most 2n moves, and one that cannot go on
      has settled every message exactly once, with the error channel never full before. */
  lemma PoolAlwaysFinishes(fails: Message -> bool, batch: seq<Message>, moves: seq<Move>)
    requires batch != [] && Play(fails, batch, Open(batch), moves)
    ensures |moves| <= 2 * |batch|
    ensures var p := Played(fails, batch, Open(batch), moves);
            (forall a :: !CanMove(fails, batch, p, a)) <==> p.handled == multiset(batch)
  {
    var p0 := Open(batch);
    var p := Played(fails, batch, p0, moves);
    forall m
      ensures Held(p0.workers, m) == 0
    {
      HeldNone(p0.workers, m);
    }
    assert batch[..0] == [];
    NobodyBusy(p0.workers);
    PlayConsistent(fails, batch, p0, moves);
    PoolEnd(fails, batch, p);
  }

  lemma PoolEnd(fails: Message -> bool, batch: seq<Message>, p: Pool)
    requires batch != [] && Consistent(batch, p)
    ensures (forall a :: !CanMove(fails, batch, p, a)) <==> p.handled == multiset(batch)
  {
    if k: nat :| k < |p.workers| && p.workers[k].Some? {
      HeldHasRoom(batch, p, k);
      assert CanMove(fails, batch, p, Settle(k));
      assert |multiset(batch)| == |batch|;
    } else {
      forall m
        ensures p.handled[m] == multiset(batch[..p.next])[m]
      {
        HeldNone(p.workers, m);
      }
      assert p.handled == multiset(batch[..p.next]);
      if p.next < |batch| {
        assert CanMove(fails, batch, p, HandOver(0));
        assert |multiset(batch[..p.next])| == p.next && |multiset(batch)| == |batch|;
      } else {
        assert batch[..p.next] == batch;
      }
    }
  }
}
