/** The owner index over runs: it lists an owner's previews by descending update time. */
module OwnerIndexOrder {
  import opened Text
  import opened Wrappers
  import opened Ordering
  import opened Float64
  import opened Preview
  import opened PreviewCache
  import opened PreviewOrder
  import opened OwnerPreview

  /** The entry's payload is there, and while it is the owner's, the entry has its update time. */
  predicate TimedEntry(c: Cache, user: string, a: string)
    requires user in c.owners && a in c.owners[user]
  {
    && a in c.payloads
    && (TrimSpace(c.payloads[a].freelancerId) == user ==> c.owners[user][a] == ToFloat(Millis(c.payloads[a].updatedAt)))
  }

  ghost predicate OwnKeys(c: Cache) {
    forall a :: a in c.payloads ==> c.payloads[a].id == a && Trimmed(a) && a != ""
  }

  ghost predicate Timed(c: Cache) {
    && OwnKeys(c)
    && forall user, a :: user in c.owners && a in c.owners[user] ==> TimedEntry(c, user, a)
  }

  lemma WriteKeepsTimed(c: Cache, user: string, p: GigPreview)
    requires Timed(c) && Trimmed(p.id) && TrimSpace(user) == TrimSpace(p.freelancerId)
    ensures Timed(PreviewCache.UpsertOwnerPreview(c, user, p).0)
  {
    TrimSpaceTrims(p.id);
  }

  lemma UpsertKeepsTimed(c: Cache, src: Sources, g: SourceGig)
    requires Timed(c) && Trimmed(g.id)
    ensures Timed(UpsertPreviewGig(c, src, g).0)
  {
    TrimSpaceTrims(g.freelancerId);
    WriteKeepsTimed(c, TrimSpace(g.freelancerId), FreshPreview(c, src, g));
  }

  lemma RatingKeepsTimed(c: Cache, src: Sources, load: string -> Option<SourceGig>, gigId: string)
    requires Timed(c) && (load(TrimSpace(gigId)).Some? ==> Trimmed(load(TrimSpace(gigId)).value.id))
    ensures Timed(RefreshPreviewRating(c, src, load, gigId).0)
  {
    var id := TrimSpace(gigId);
    TrimSpaceTrims(gigId);
    if id in c.payloads && src.rating(id).Some? {
      var p, r := c.payloads[id], src.rating(id).value;
      WriteKeepsTimed(c, p.freelancerId, p.(ratingAvg := r.average, totalReviews := r.reviews));
    } else if load(id).Some? {
      UpsertKeepsTimed(c, src, load(id).value);
    }
  }

  lemma OrdersKeepTimed(c: Cache, src: Sources, load: string -> Option<SourceGig>, gigId: string)
    requires Timed(c) && (load(TrimSpace(gigId)).Some? ==> Trimmed(load(TrimSpace(gigId)).value.id))
    ensures Timed(RefreshPreviewOrderCount(c, src, load, gigId).0)
  {
    var id := TrimSpace(gigId);
    TrimSpaceTrims(gigId);
    if id in c.payloads {
      var p := c.payloads[id];
      WriteKeepsTimed(c, p.freelancerId, p.(orderCount := Increment(p.orderCount)));
    } else if load(id).Some? {
      UpsertKeepsTimed(c, src, load(id).value);
    }
  }

  lemma {:induction false} CollectKeepsTimed(c: Cache, src: Sources, gigs: seq<SourceGig>)
    requires Timed(c) && forall i :: 0 <= i < |gigs| ==> Trimmed(gigs[i].id)
    ensures Timed(Collect(c, src, gigs).0)
    decreases |gigs|
  {
    if gigs != [] {
      if PreviewCache.GetPreviewById(c, gigs[0].id).Ok? {
        CollectKeepsTimed(c, src, gigs[1..]);
      } else {
        UpsertKeepsTimed(c, src, gigs[0]);
        CollectKeepsTimed(UpsertPreviewGig(c, src, gigs[0]).0, src, gigs[1..]);
      }
    }
  }

  lemma OwnKeysAreSelf(c: Cache)
    requires OwnKeys(c)
    ensures SelfKeyed(c)
  {
    forall a | a in c.payloads
      ensures TrimSpace(c.payloads[a].id) == a
    {
      TrimSpaceTrims(a);
    }
  }

  lemma FirstWindowKeepsOwners(d: Cache, items: seq<GigPreview>)
    ensures WriteFirstWindow(d, items).owners == d.owners
  {
  }

  lemma SameTimed(c: Cache, d: Cache)
    requires Timed(c) && d.payloads == c.payloads && d.owners == c.owners
    ensures Timed(d)
  {
    forall user, a | user in d.owners && a in d.owners[user]
      ensures TimedEntry(d, user, a)
    {
      assert TimedEntry(c, user, a);
    }
  }

  lemma CollectedUnchanged(d: Cache, gigs: seq<SourceGig>, found: seq<GigPreview>)
    requires SelfKeyed(d) && Cached(d.payloads, gigs, found)
    ensures WriteFirstWindow(d, StableSort(ByPopularity(), found)).payloads == d.payloads
  {
    SortMultiset(ByPopularity(), found);
    SortedAreCached(d, gigs, found, StableSort(ByPopularity(), found));
  }

  lemma ListKeepsTimed(c: Cache, src: Sources, gigs: seq<SourceGig>)
    requires Timed(c) && forall i :: 0 <= i < |gigs| ==> Trimmed(gigs[i].id)
    ensures Timed(ListPublic(c, src, gigs).0)
  {
    var (d, r) := Collect(c, src, gigs);
    CollectKeepsTimed(c, src, gigs);
    OwnKeysAreSelf(c);
    Collected(c, src, gigs);
    if r.Ok? {
      CollectedUnchanged(d, gigs, r.value);
      FirstWindowKeepsOwners(d, StableSort(ByPopularity(), r.value));
      SameTimed(d, WriteFirstWindow(d, StableSort(ByPopularity(), r.value)));
    }
  }

  /** The ids that come in are trimmed. */
  ghost predicate TrimmedOp(op: Op) {
    match op
    case Upsert(_, g) => Trimmed(g.id)
    case RefreshRating(_, load, id) => load(TrimSpace(id)).Some? ==> Trimmed(load(TrimSpace(id)).value.id)
    case RefreshOrders(_, load, id) => load(TrimSpace(id)).Some? ==> Trimmed(load(TrimSpace(id)).value.id)
    case PublicList(_, gigs) => forall i :: 0 <= i < |gigs| ==> Trimmed(gigs[i].id)
  }

  lemma OpKeepsTimed(c: Cache, op: Op)
    requires Timed(c) && TrimmedOp(op)
    ensures Timed(Do(c, op).0)
  {
    match op
    case Upsert(src, g) => UpsertKeepsTimed(c, src, g);
    case RefreshRating(src, load, id) => RatingKeepsTimed(c, src, load, id);
    case RefreshOrders(src, load, id) => OrdersKeepTimed(c, src, load, id);
    case PublicList(src, gigs) => ListKeepsTimed(c, src, gigs);
  }

  /** In every state of every run. */
  lemma {:induction false} TimedOverRuns(ops: seq<Op>, caches: seq<Cache>, oks: seq<bool>, n: nat)
    requires IsRun(ops, caches, oks) && n <= |ops| && Timed(caches[0])
    requires forall i :: 0 <= i < |ops| ==> TrimmedOp(ops[i])
    ensures Timed(caches[n])
  {
    if n > 0 {
      TimedOverRuns(ops, caches, oks, n - 1);
      assert StepsAt(ops, caches, oks, n - 1);
      OpKeepsTimed(caches[n - 1], ops[n - 1]);
    }
  }

  lemma {:induction false} TrimmedKeys(ids: seq<string>)
    requires forall i :: 0 <= i < |ids| ==> Trimmed(ids[i]) && ids[i] != ""
    ensures PayloadKeys(ids) == ids
  {
    if ids != [] {
      TrimSpaceTrims(ids[0]);
      TrimmedKeys(ids[1..]);
    }
  }

  /** The owner's gigs in the index are the owner's still. */
  ghost predicate StillOwned(c: Cache, owner: string) {
    forall a :: a in OwnerIndex(c, owner) && a in c.payloads ==> TrimSpace(c.payloads[a].freelancerId) == owner
  }

  lemma IndexRead(c: Cache, owner: string)
    requires Timed(c)
    ensures var ids := RevRange(OwnerIndex(c, owner));
            && PayloadKeys(ids) == ids && |Payloads(c.payloads, ids)| == |ids|
            && forall i :: 0 <= i < |ids| ==>
                 ids[i] in OwnerIndex(c, owner) && ids[i] in c.payloads && Payloads(c.payloads, ids)[i] == c.payloads[ids[i]]
  {
    var ids := RevRange(OwnerIndex(c, owner));
    RevRangeSorted(OwnerIndex(c, owner));
    forall i | 0 <= i < |ids|
      ensures ids[i] in OwnerIndex(c, owner) && ids[i] in c.payloads && Trimmed(ids[i]) && ids[i] != ""
    {
      assert ids[i] in ids;
      assert TimedEntry(c, owner, ids[i]);
    }
    TrimmedKeys(ids);
    PayloadsShape(c.payloads, ids);
  }

  /** Ids in the order of their scores have payloads by descending update time. */
  lemma ScoresAreTimes(c: Cache, owner: string, ids: seq<string>)
    requires Timed(c) && StillOwned(c, owner) && Sorted(ByScore(OwnerIndex(c, owner)), ids)
    requires forall i :: 0 <= i < |ids| ==> ids[i] in OwnerIndex(c, owner) && ids[i] in c.payloads
    ensures forall i, j :: 0 <= i < j < |ids| ==>
              ToFloat(Millis(c.payloads[ids[i]].updatedAt)) >= ToFloat(Millis(c.payloads[ids[j]].updatedAt))
  {
    var z := OwnerIndex(c, owner);
    forall i, j | 0 <= i < j < |ids|
      ensures ToFloat(Millis(c.payloads[ids[i]].updatedAt)) >= ToFloat(Millis(c.payloads[ids[j]].updatedAt))
    {
      assert !ByScore(z)(ids[j], ids[i]);
      assert TimedEntry(c, owner, ids[i]) && TimedEntry(c, owner, ids[j]);
    }
  }

  lemma IdsListed(ids: seq<string>, listed: seq<GigPreview>)
    requires |ids| == |listed| && forall i :: 0 <= i < |ids| ==> listed[i].id == ids[i]
    ensures forall a :: a in Ids(listed) <==> a in ids
  {
    forall a
      ensures a in Ids(listed) <==> a in ids
    {
      if i :| 0 <= i < |ids| && ids[i] == a {
        assert listed[i].id == a;
      }
    }
  }

  /** What the owner's list reads. */
  lemma ListRead(c: Cache, owner: string) returns (ids: seq<string>)
    requires Timed(c) && owner == TrimSpace(owner) != ""
    ensures Sorted(ByScore(OwnerIndex(c, owner)), ids) && |ids| == |OwnerIndex(c, owner)|
    ensures forall a :: a in ids <==> a in OwnerIndex(c, owner)
    ensures forall i, j :: 0 <= i < j < |ids| ==> ids[i] != ids[j]
    ensures forall i :: 0 <= i < |ids| ==> ids[i] in OwnerIndex(c, owner) && ids[i] in c.payloads
    ensures |Payloads(c.payloads, ids)| == |ids| && forall i :: 0 <= i < |ids| ==> Payloads(c.payloads, ids)[i] == c.payloads[ids[i]]
    ensures ListOwnerPreviews(c, owner) == if Payloads(c.payloads, ids) == [] then Err(CacheError.GigNotFound) else Ok(Payloads(c.payloads, ids))
  {
    ids := RevRange(OwnerIndex(c, owner));
    RevRangeSorted(OwnerIndex(c, owner));
    IndexRead(c, owner);
  }

  /** Main result. In a cache that runs with trimmed ids lead to, the owner's list holds every preview of the index once, by
      descending update time to the millisecond, as far as floats tell the times apart; up to 2^53 milliseconds they do. */
  lemma ListsByTime(c: Cache, owner: string)
    requires Timed(c) && owner == TrimSpace(owner) != "" && StillOwned(c, owner)
    ensures ListOwnerPreviews(c, owner).Ok? <==> |OwnerIndex(c, owner)| > 0
    ensures ListOwnerPreviews(c, owner).Ok? ==>
              var listed := ListOwnerPreviews(c, owner).value;
              && DistinctIds(listed) && (forall a :: a in Ids(listed) <==> a in OwnerIndex(c, owner))
              && forall i, j :: 0 <= i < j < |listed| ==>
                   ToFloat(Millis(listed[i].updatedAt)) >= ToFloat(Millis(listed[j].updatedAt))
  {
    var ids := ListRead(c, owner);
    ScoresAreTimes(c, owner, ids);
    IdsListed(ids, Payloads(c.payloads, ids));
  }
}
