/** Which messages are one event to the claims: by their command ids, and by the fingerprints of what carries none. */
module RecoveryClaims {
  import opened Wrappers
  import Domain
  import opened Commands
  import opened RecoverySettle
  import opened RecoverySchedule
  import opened RecoveryRouting

  predicate HasCommandId(m: Message) {
    m.envelope.Some? && m.envelope.value.commandId != ""
  }

  /** Nothing has claimed the message: neither its command id nor, where it has none, its fingerprint. */
  predicate Unclaimed(w: World, m: Message) {
    (if HasCommandId(m) then m.envelope.value.commandId else m.fingerprint) !in w.claims
  }

  /** What the handler makes of the message in this world. */
  function Outcome(o: Oracle, w: World, m: Message): Handled {
    o.handle(Lookup(w.store, o.target(m)), m)
  }

  /** The message was claimed and kept its claim: it succeeded, or its release failed. */
  predicate KeepsClaim(o: Oracle, w: World, m: Message) {
    !o.claimError(m) && (Outcome(o, w, m).ok || o.releaseError(m))
  }

  /** Of two commands the second is skipped as claimed already if and only if its claim works, both have one command
      id, and the first keeps its claim. */
  lemma CommandIdsDecide(o: Oracle, w: World, a: Message, b: Message)
    requires a != b && HasCommandId(a) && HasCommandId(b) && Unclaimed(w, a) && Unclaimed(w, b) && AlreadyClaimed(b) !in w.settled
    ensures AlreadyClaimed(b) in HandleMessage(o, HandleMessage(o, w, a), b).settled
            <==> !o.claimError(b) && a.envelope.value.commandId == b.envelope.value.commandId && KeepsClaim(o, w, a)
  {
    MessageOutcome(o, w, a);
    MessageOutcome(o, HandleMessage(o, w, a), b);
  }

  /** Of two messages without a command id, or without an envelope, the fingerprints decide. */
  lemma FingerprintsDecide(o: Oracle, w: World, a: Message, b: Message)
    requires a != b && !HasCommandId(a) && !HasCommandId(b) && Unclaimed(w, a) && Unclaimed(w, b) && AlreadyClaimed(b) !in w.settled
    ensures AlreadyClaimed(b) in HandleMessage(o, HandleMessage(o, w, a), b).settled
            <==> !o.claimError(b) && a.fingerprint == b.fingerprint && KeepsClaim(o, w, a)
  {
    MessageOutcome(o, w, a);
    MessageOutcome(o, HandleMessage(o, w, a), b);
  }

  /** A command and a message without a command id are one event only if the id is the fingerprint. */
  lemma CommandThenFingerprint(o: Oracle, w: World, a: Message, b: Message)
    requires HasCommandId(a) && !HasCommandId(b) && Unclaimed(w, a) && Unclaimed(w, b) && AlreadyClaimed(b) !in w.settled
    ensures AlreadyClaimed(b) in HandleMessage(o, HandleMessage(o, w, a), b).settled
            <==> !o.claimError(b) && a.envelope.value.commandId == b.fingerprint && KeepsClaim(o, w, a)
  {
    MessageOutcome(o, w, a);
    MessageOutcome(o, HandleMessage(o, w, a), b);
  }

  lemma FingerprintThenCommand(o: Oracle, w: World, a: Message, b: Message)
    requires !HasCommandId(a) && HasCommandId(b) && Unclaimed(w, a) && Unclaimed(w, b) && AlreadyClaimed(b) !in w.settled
    ensures AlreadyClaimed(b) in HandleMessage(o, HandleMessage(o, w, a), b).settled
            <==> !o.claimError(b) && a.fingerprint == b.envelope.value.commandId && KeepsClaim(o, w, a)
  {
    MessageOutcome(o, w, a);
    MessageOutcome(o, HandleMessage(o, w, a), b);
  }

  /** Two messages the claims hold for one event. */
  predicate OneEvent(a: Message, b: Message) {
    (if HasCommandId(a) then a.envelope.value.commandId else a.fingerprint)
    == (if HasCommandId(b) then b.envelope.value.commandId else b.fingerprint)
  }

  /** Different events, unclaimed before. */
  ghost predicate AllNew(w: World, ms: seq<Message>) {
    && (forall m :: m in ms ==> Unclaimed(w, m))
    && (forall i, j :: 0 <= i < j < |ms| ==> !OneEvent(ms[i], ms[j]))
  }

  /** The handler is called for every message, in order, on what the ones before have left. */
  function StoreAfterAll(o: Oracle, store: map<string, Domain.Gig>, ms: seq<Message>): map<string, Domain.Gig>
    decreases |ms|
  {
    if ms == [] then store
    else StoreAfterAll(o, Put(store, o.target(ms[0]), o.handle(Lookup(store, o.target(ms[0])), ms[0]).gig), ms[1..])
  }

  lemma NewMore(o: Oracle, w: World, ms: seq<Message>)
    requires ms != [] && AllNew(w, ms)
    ensures AllNew(HandleMessage(o, w, ms[0]), ms[1..])
  {
    MessageOutcome(o, w, ms[0]);
    forall m | m in ms[1..]
      ensures Unclaimed(HandleMessage(o, w, ms[0]), m)
    {
      var j :| 0 <= j < |ms[1..]| && ms[1..][j] == m;
      assert !OneEvent(ms[0], ms[j + 1]) && ms[j + 1] == m;
      assert Unclaimed(w, m);
    }
    assert forall i :: 0 <= i < |ms[1..]| ==> ms[1..][i] == ms[i + 1];
  }

  /** Main result. In a batch of commands with different ids (and other messages with fingerprints of their own), none of
      them claimed before and no claim failing, no message is skipped and the handler is called for each. */
  lemma {:induction false} NewEventsAreHandled(o: Oracle, w: World, ms: seq<Message>)
    requires AllNew(w, ms) && forall m :: m in ms ==> !o.claimError(m)
    ensures HandleAll(o, w, ms).store == StoreAfterAll(o, w.store, ms)
    ensures forall m :: AlreadyClaimed(m) in HandleAll(o, w, ms).settled ==> AlreadyClaimed(m) in w.settled
    decreases |ms|
  {
    if ms != [] {
      MessageOutcome(o, w, ms[0]);
      NewMore(o, w, ms);
      NewEventsAreHandled(o, HandleMessage(o, w, ms[0]), ms[1..]);
    }
  }

  /** So under every schedule of the lanes, where messages on one gig share a lane key. */
  lemma NewEventsAreHandledInLanes(hash: string -> nat, o: Oracle, batch: seq<Message>, w: World, schedule: seq<Action>)
    requires AllNew(w, batch) && forall m :: m in batch ==> !o.claimError(m)
    requires forall m, n :: m in batch && n in batch && (o.target(m) == o.target(n) || OneEvent(m, n)) ==> LaneKey(m) == LaneKey(n)
    requires Legal(ByKey(hash), o, batch, Start(w), schedule)
    requires Finished(Run(ByKey(hash), o, batch, Start(w), schedule))
    ensures Run(ByKey(hash), o, batch, Start(w), schedule).world.store == StoreAfterAll(o, w.store, batch)
  {
    KeyedBatchIsSequential(hash, o, batch, w, schedule);
    NewEventsAreHandled(o, w.(errors := multiset{}), batch);
  }
}
