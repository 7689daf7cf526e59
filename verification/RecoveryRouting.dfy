/** What the choice of lane keys means for a recovery batch: related messages with one key are handled as
    if in offset order. */
module RecoveryRouting {
  import opened Commands
  import opened RecoverySettle
  import opened RecoverySchedule

  /** broker.go: a message goes to the lane its key hashes to. `hash` is any function of the key. */
  function ByKey(hash: string -> nat): Message -> nat {
    m => hash(LaneKey(m))
  }

  /** For every hash function: when messages that touch one gig share a lane key, and so do messages with
      one event id, every interleaving of the lanes equals handling the batch in offset order. */
  lemma KeyedBatchIsSequential(hash: string -> nat, o: Oracle, batch: seq<Message>, w: World, schedule: seq<Action>)
    requires forall m, n :: m in batch && n in batch && (o.target(m) == o.target(n) || EventId(m) == EventId(n)) ==>
               LaneKey(m) == LaneKey(n)
    requires Legal(ByKey(hash), o, batch, Start(w), schedule)
    requires Finished(Run(ByKey(hash), o, batch, Start(w), schedule))
    ensures Run(ByKey(hash), o, batch, Start(w), schedule).world == HandleAll(o, w.(errors := multiset{}), batch)
  {
    forall m, n | m in batch && n in batch && (o.target(m) == o.target(n) || EventId(m) == EventId(n))
      ensures Lane(ByKey(hash), m) == Lane(ByKey(hash), n)
    {
      assert LaneKey(m) == LaneKey(n);
    }
    ScheduleIndependence(ByKey(hash), o, batch, w, schedule);
  }
}
