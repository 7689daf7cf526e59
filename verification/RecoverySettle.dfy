/** broker.go, handleRecoveryMessage: how one recovery message is settled, step by step and as a whole. */
module RecoverySettle {
  import opened Commands
  import opened Domain
  import opened Wrappers

  /** What the handler makes of a message: the new state of the gig it touches, and whether it returned nil. */
  datatype Handled = Handled(gig: Option<Gig>, ok: bool)

  /** Everything about one delivery that the broker does not decide: the gig each message touches, the
      handler, and which claims, releases and dead-letter writes fail. */
  datatype Oracle = Oracle(
    target: Message -> string,
    handle: (Option<Gig>, Message) -> Handled,
    claimError: Message -> bool,
    releaseError: Message -> bool,
    deadLetterError: Message -> bool)

  /** How a message was settled: its handler returned nil, its event id was already claimed, or its
      dead letter was written. */
  datatype Settlement =
    | Succeeded(m: Message)
    | AlreadyClaimed(m: Message)
    | DeadLettered(m: Message)

  /** The shared state the lane workers change: gigs, durable claims, and a history of settlements.
      `successes` counts, by event id, the times the handler returned nil. `errors` is the results
      channel of the batch under way. */
  datatype World = World(
    store: map<string, Gig>,
    claims: set<string>,
    successes: multiset<string>,
    settled: multiset<Settlement>,
    errors: multiset<Message>)

  function Lookup(store: map<string, Gig>, k: string): Option<Gig> {
    if k in store then Some(store[k]) else None
  }

  function Put(store: map<string, Gig>, k: string, g: Option<Gig>): map<string, Gig> {
    match g
    case Some(v) => store[k := v]
    case None => store - {k}
  }

  /** Where a lane worker stands with the message it took: about to claim, about to call the handler,
      about to release the claim of a failed message, about to dead-letter it. */
  datatype Slot =
    | Idle
    | Picked(m: Message)
    | Claimed(m: Message)
    | Failed(m: Message)
    | Dead(m: Message)

  /** One atomic action of a worker on the shared state. */
  function Advance(o: Oracle, w: World, s: Slot): (World, Slot)
    requires !s.Idle?
  {
    match s
    case Picked(m) =>
      if o.claimError(m) then (w, Dead(m))
      else if EventId(m) in w.claims then (w.(settled := w.settled + multiset{AlreadyClaimed(m)}), Idle)
      else (w.(claims := w.claims + {EventId(m)}), Claimed(m))
    case Claimed(m) =>
      var r := o.handle(Lookup(w.store, o.target(m)), m);
      var v := w.(store := Put(w.store, o.target(m), r.gig));
      if r.ok then
        (v.(successes := w.successes + multiset{EventId(m)}, settled := w.settled + multiset{Succeeded(m)}), Idle)
      else (v, Failed(m))
    case Failed(m) =>
      (if o.releaseError(m) then w else w.(claims := w.claims - {EventId(m)}), Dead(m))
    case Dead(m) =>
      if o.deadLetterError(m) then (w.(errors := w.errors + multiset{m}), Idle)
      else (w.(settled := w.settled + multiset{DeadLettered(m)}), Idle)
  }

  function Rank(s: Slot): nat {
    match s
    case Idle => 0
    case Dead(_) => 1
    case Failed(_) => 2
    case Claimed(_) => 3
    case Picked(_) => 4
  }

  /** The worker's remaining actions, with no other worker in between. */
  function Complete(o: Oracle, w: World, s: Slot): World
    decreases Rank(s)
  {
    if s.Idle? then w
    else
      var (v, t) := Advance(o, w, s);
      Complete(o, v, t)
  }

  function HandleMessage(o: Oracle, w: World, m: Message): World {
    Complete(o, w, Picked(m))
  }

  /** The sequential meaning of a batch: its messages one by one, in order. */
  function HandleAll(o: Oracle, w: World, ms: seq<Message>): World
    decreases |ms|
  {
    if ms == [] then w else HandleAll(o, HandleMessage(o, w, ms[0]), ms[1..])
  }

  /** How a message can end, as the code's comments promise it: a failed claim and a failed handler are
      both dead-lettered, a failed handler gives its claim back, and a message is settled exactly once. */
  lemma MessageOutcome(o: Oracle, w: World, m: Message)
    ensures var v := HandleMessage(o, w, m);
            var r := o.handle(Lookup(w.store, o.target(m)), m);
            var attempted := !o.claimError(m) && EventId(m) !in w.claims;
            var failed := o.claimError(m) || (attempted && !r.ok);
            && v.store == (if attempted then Put(w.store, o.target(m), r.gig) else w.store)
            && v.claims == (if attempted && (r.ok || o.releaseError(m)) then w.claims + {EventId(m)} else w.claims)
            && v.successes == w.successes + (if attempted && r.ok then multiset{EventId(m)} else multiset{})
            && v.settled == w.settled
                            + (if attempted && r.ok then multiset{Succeeded(m)}
                               else if failed then (if o.deadLetterError(m) then multiset{} else multiset{DeadLettered(m)})
                               else multiset{AlreadyClaimed(m)})
            && v.errors == w.errors + (if failed && o.deadLetterError(m) then multiset{m} else multiset{})
  {
    var (w1, s1) := Advance(o, w, Picked(m));
    assert HandleMessage(o, w, m) == Complete(o, w1, s1);
    if s1.Claimed? {
      var (w2, s2) := Advance(o, w1, s1);
      assert Complete(o, w1, s1) == Complete(o, w2, s2);
      if s2.Failed? {
        var (w3, s3) := Advance(o, w2, s2);
        assert w1.claims - {EventId(m)} == w.claims;
        assert Complete(o, w2, s2) == Complete(o, w3, s3);
        assert Complete(o, w3, s3) == Advance(o, w3, s3).0;
      } else {
        assert Complete(o, w2, s2) == w2;
      }
    } else if s1.Dead? {
      assert Complete(o, w1, s1) == Advance(o, w1, s1).0;
    } else {
      assert Complete(o, w1, s1) == w1;
    }
  }
}
