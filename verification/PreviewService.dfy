/** owner_preview.go, preview.go and my_gigs.go in their own form: the application service over the preview
    repository. What the write model and the other services answer are parameters. */
module PreviewService {
  import opened Text
  import opened Wrappers
  import opened Ordering
  import opened Preview
  import PreviewCache
  import opened PreviewRepository
  import opened OwnerPreview
  import opened Listing
  import opened Pages
  import opened MyGigs
  import opened MyGigsAnswers
  import opened PublicPages

  lemma OpPromise(c: PreviewCache.Cache, op: Op)
    ensures SelfKeyed(c) ==> SelfKeyed(Do(c, op).0) && OpDone(c, op, Do(c, op).0, Do(c, op).1)
  {
    if SelfKeyed(c) {
      OpKeeps(c, op);
    }
  }

  lemma RatingPromise(c: PreviewCache.Cache, src: Sources, load: string -> Option<SourceGig>, gigId: string)
    ensures var (d, r) := OwnerPreview.RefreshPreviewRating(c, src, load, gigId);
            SelfKeyed(c) ==> RatingRefreshed(c, src, load, gigId, d, r.Ok?)
  {
    if SelfKeyed(c) {
      RatingRefreshes(c, src, load, gigId);
    }
  }

  lemma OrdersPromise(c: PreviewCache.Cache, src: Sources, load: string -> Option<SourceGig>, gigId: string)
    ensures var (d, r) := OwnerPreview.RefreshPreviewOrderCount(c, src, load, gigId);
            SelfKeyed(c) ==> OrdersRefreshed(c, src, load, gigId, d, r.Ok?)
  {
    if SelfKeyed(c) {
      OrdersRefresh(c, src, load, gigId);
    }
  }

  lemma ListingPromise(c: PreviewCache.Cache, src: Sources, pageSize: int, username: string, page: int, limit: int,
                       published: string -> Option<seq<SourceGig>>)
    ensures SelfKeyed(c) ==>
              var (d, r) := PublicListing(c, src, pageSize, username, page, limit, published);
              SelfKeyed(d) && Extends(c.payloads, d.payloads)
              && PublicAnswer(c, src, pageSize, username, page, limit, published, d, r)
  {
    var gigs := published(TrimSpace(username));
    if SelfKeyed(c) {
      ListingAnswers(c, src, pageSize, username, page, limit, published);
      if gigs.Some? {
        ListPublicExtends(c, src, gigs.value);
      }
    }
  }

  lemma MyGigsPromise(c: PreviewCache.Cache, src: Sources, store: Store, pageSize: int, q: Query)
    ensures var (d, r) := MyGigs.GetMyGigs(c, src, store, pageSize, q);
            && (SelfKeyed(c) ==> SelfKeyed(d) && CountsKept(c, d))
            && (PreviewCache.ListOwnerPreviews(c, TrimSpace(q.userId)).Ok? ==> d == c)
            && Answered(c, src, store, pageSize, q, r)
            && (Validate(q, pageSize).Ok? && MissesCleanly(c, src, store, TrimSpace(q.userId)) ==>
                  r.Ok? && ServedFromIndex(d, pageSize, q, r))
  {
    QueryAnswered(c, src, store, pageSize, q);
    if SelfKeyed(c) {
      MyGigsKeep(c, src, store, pageSize, q);
    }
    if Validate(q, pageSize).Ok? && MissesCleanly(c, src, store, TrimSpace(q.userId)) {
      MissIsServed(c, src, store, pageSize, q);
    }
  }

  class Service {
    const readRepo: Repository
    const previewPageSize: int

    constructor (repository: Repository, pageSize: int)
      ensures readRepo == repository && previewPageSize == pageSize
    {
      readRepo, previewPageSize := repository, pageSize;
    }

    /** Every cached preview stands under its own id. */
    ghost predicate Valid()
      reads readRepo
    {
      SelfKeyed(readRepo.View())
    }

    method UpsertPreviewGig(src: Sources, g: SourceGig) returns (r: Result<(), PreviewError>)
      modifies readRepo`payloads, readRepo`owners
      ensures (readRepo.View(), r) == OwnerPreview.UpsertPreviewGig(old(readRepo.View()), src, g)
      ensures old(Valid()) ==> Valid()
      ensures old(Valid()) ==> OpDone(old(readRepo.View()), Upsert(src, g), readRepo.View(), r.Ok?)
      ensures Upserted(old(readRepo.View()), src, g, readRepo.View(), r.Ok?)
    {
      UpsertShows(readRepo.View(), src, g);
      OpPromise(readRepo.View(), Upsert(src, g));
      var popularity := src.popularity(g.id);
      if popularity.Broken? {
        return Err(SourceFailed);
      }
      var rating: Option<Rating> := None;
      var orderTotal := 0;
      var cached := readRepo.GetPreviewById(g.id);
      if cached.Ok? {
        rating := Some(Rating(cached.value.ratingAvg, cached.value.totalReviews));
        orderTotal := cached.value.orderCount;
      } else if g.status == "published" && !src.recovery {
        rating := src.rating(g.id);
        var count := src.orders(g.id);
        if count.Some? {
          orderTotal := count.value;
        }
      }
      var minPrice := ScanMinimumPrice(g.prices);
      var score := if popularity.Found? then popularity.score else 0;
      var average := if rating.Some? then rating.value.average else 0.0;
      var reviews := if rating.Some? then rating.value.reviews else 0;
      var preview := GigPreview(g.id, g.freelancerId, g.status, minPrice, score, g.publishedAt, g.updatedAt,
                                g.createdAt, average, reviews, orderTotal);
      var stored := readRepo.UpsertOwnerPreview(TrimSpace(g.freelancerId), preview);
      r := if stored.Ok? then Ok(()) else Err(CacheFailed(stored.error));
    }

    method RefreshPreviewRating(src: Sources, load: string -> Option<SourceGig>, gigId: string) returns (r: Result<(), PreviewError>)
      modifies readRepo`payloads, readRepo`owners
      ensures (readRepo.View(), r) == OwnerPreview.RefreshPreviewRating(old(readRepo.View()), src, load, gigId)
      ensures old(Valid()) ==> Valid()
      ensures old(Valid()) ==> OpDone(old(readRepo.View()), RefreshRating(src, load, gigId), readRepo.View(), r.Ok?)
      ensures old(Valid()) ==> RatingRefreshed(old(readRepo.View()), src, load, gigId, readRepo.View(), r.Ok?)
    {
      RatingPromise(readRepo.View(), src, load, gigId);
      OpPromise(readRepo.View(), RefreshRating(src, load, gigId));
      var id := TrimSpace(gigId);
      if id == "" {
        return Err(PreviewError.InvalidGigID);
      }
      var preview := readRepo.GetPreviewById(id);
      if preview.Err? {
        var gig := load(id);
        if gig.None? {
          return Err(PreviewError.GigNotFound);
        }
        r := UpsertPreviewGig(src, gig.value);
        return;
      }
      var summary := src.rating(id);
      if summary.None? {
        return Err(SourceFailed);
      }
      var p := preview.value.(ratingAvg := summary.value.average, totalReviews := summary.value.reviews);
      var stored := readRepo.UpsertOwnerPreview(p.freelancerId, p);
      r := if stored.Ok? then Ok(()) else Err(CacheFailed(stored.error));
    }

    method RefreshPreviewOrderCount(src: Sources, load: string -> Option<SourceGig>, gigId: string) returns (r: Result<(), PreviewError>)
      modifies readRepo`payloads, readRepo`owners
      ensures (readRepo.View(), r) == OwnerPreview.RefreshPreviewOrderCount(old(readRepo.View()), src, load, gigId)
      ensures old(Valid()) ==> Valid()
      ensures old(Valid()) ==> OpDone(old(readRepo.View()), RefreshOrders(src, load, gigId), readRepo.View(), r.Ok?)
      ensures old(Valid()) ==> OrdersRefreshed(old(readRepo.View()), src, load, gigId, readRepo.View(), r.Ok?)
    {
      OrdersPromise(readRepo.View(), src, load, gigId);
      OpPromise(readRepo.View(), RefreshOrders(src, load, gigId));
      var id := TrimSpace(gigId);
      if id == "" {
        return Err(PreviewError.InvalidGigID);
      }
      var preview := readRepo.GetPreviewById(id);
      if preview.Err? {
        var gig := load(id);
        if gig.None? {
          return Err(PreviewError.GigNotFound);
        }
        r := UpsertPreviewGig(src, gig.value);
        return;
      }
      var p := preview.value;
      p := p.(orderCount := Increment(p.orderCount));
      var stored := readRepo.UpsertOwnerPreview(p.freelancerId, p);
      r := if stored.Ok? then Ok(()) else Err(CacheFailed(stored.error));
    }

    // ----- The public listing -----

    method CollectPreviews(src: Sources, gigs: seq<SourceGig>) returns (r: Result<seq<GigPreview>, PreviewError>)
      modifies readRepo`payloads, readRepo`owners
      ensures (readRepo.View(), r) == Collect(old(readRepo.View()), src, gigs)
    {
      var items: seq<GigPreview> := [];
      assert gigs[0..] == gigs;
      BehindNothing(Collect(readRepo.View(), src, gigs));
      for i := 0 to |gigs|
        invariant Collect(old(readRepo.View()), src, gigs) == Behind(items, Collect(readRepo.View(), src, gigs[i..]))
      {
        var rest, gig := gigs[i..], gigs[i];
        assert rest[1..] == gigs[i + 1..];
        ghost var was, front := readRepo.View(), items;
        var cached := readRepo.GetPreviewById(gig.id);
        if cached.Ok? {
          items := items + [cached.value];
        } else {
          var upserted := UpsertPreviewGig(src, gig);
          if upserted.Err? {
            return Err(upserted.error);
          }
          cached := readRepo.GetPreviewById(gig.id);
          if cached.Ok? {
            items := items + [cached.value];
          } else {
            items := items + [Uncached(src, gig)];
          }
        }
        BehindBefore(front, items[|front|], Collect(readRepo.View(), src, gigs[i + 1..]));
      }
      assert gigs[|gigs|..] == [];
      assert items + [] == items;
      r := Ok(items);
    }

    /** Sorts in place, and writes the first window of the seller of the first preview. */
    method RankAndStore(previews: seq<GigPreview>) returns (items: seq<GigPreview>)
      modifies readRepo`payloads, readRepo`windows
      ensures items == StableSort(ByPopularity(), previews)
      ensures readRepo.View() == WriteFirstWindow(old(readRepo.View()), items)
    {
      var a := new GigPreview[|previews|](i requires 0 <= i < |previews| => previews[i]);
      assert a[..] == previews;
      SortInPlace(a, ByPopularity());
      items := a[..];
      if items != [] {
        var seller := TrimSpace(items[0].freelancerId);
        if seller != "" {
          var written := readRepo.UpsertPreviewWindow(seller, 0, items);
        }
      }
    }

    method GetPreviewGigsByFreelancerUsername(src: Sources, username: string, page: int, limit: int,
                                              published: string -> Option<seq<SourceGig>>)
        returns (r: Result<Page<GigPreview>, PreviewError>)
      modifies readRepo`payloads, readRepo`owners, readRepo`windows
      ensures (readRepo.View(), r)
              == PublicListing(old(readRepo.View()), src, previewPageSize, username, page, limit, published)
      ensures old(Valid()) ==> Valid()
      ensures old(Valid()) ==> Extends(old(readRepo.View()).payloads, readRepo.View().payloads)
      ensures old(Valid()) ==>
                PublicAnswer(old(readRepo.View()), src, previewPageSize, username, page, limit, published, readRepo.View(), r)
    {
      ListingPromise(readRepo.View(), src, previewPageSize, username, page, limit, published);
      var user := TrimSpace(username);
      if user == "" {
        return Err(PreviewError.InvalidUsername);
      }
      var l := LimitOf(if limit <= 0 then previewPageSize else limit);
      var gigs := published(user);
      if gigs.None? {
        return Err(SourceFailed);
      }
      if gigs.value == [] {
        return Ok(Page([], AtLeastOne(page), l, 0, false));
      }
      var collected := CollectPreviews(src, gigs.value);
      if collected.Err? {
        return Err(collected.error);
      }
      var items := RankAndStore(collected.value);
      r := Ok(PaginatePreview(items, page, l));
    }

    // ----- The owner's listing -----

    method GetMyGigs(src: Sources, store: Store, q: Query) returns (r: Result<Page<Item>, MyGigsError>)
      modifies readRepo`payloads, readRepo`owners
      ensures (readRepo.View(), r) == MyGigs.GetMyGigs(old(readRepo.View()), src, store, previewPageSize, q)
      ensures old(Valid()) ==> Valid() && CountsKept(old(readRepo.View()), readRepo.View())
      ensures PreviewCache.ListOwnerPreviews(old(readRepo.View()), TrimSpace(q.userId)).Ok? ==> readRepo.View() == old(readRepo.View())
      ensures Validate(q, previewPageSize).Ok? && MissesCleanly(old(readRepo.View()), src, store, TrimSpace(q.userId)) ==>
                r.Ok? && ServedFromIndex(readRepo.View(), previewPageSize, q, r)
      ensures Answered(old(readRepo.View()), src, store, previewPageSize, q, r)
    {
      MyGigsPromise(readRepo.View(), src, store, previewPageSize, q);
      var ownerId := TrimSpace(q.userId);
      if ownerId == "" {
        return Err(InvalidFreelancerID);
      }
      var status := NormalizeStatus(q.status);
      if status.None? {
        return Err(InvalidGigListStatus);
      }
      var key := NormalizeSort(q.sort);
      if key.None? {
        return Err(InvalidGigListSort);
      }
      var ascending := NormalizeOrder(q.order);
      if ascending.None? {
        return Err(InvalidGigListOrder);
      }
      var page := AtLeastOne(q.page);
      var limit := q.limit;
      if limit <= 0 {
        limit := previewPageSize;
      }
      if limit <= 0 {
        return Err(InvalidGigListLimit);
      }
      var plan := Plan(ownerId, status.value, key.value, ascending.value, page, limit);
      var cached := readRepo.ListOwnerPreviewGigs(ownerId);
      if cached.Err? {
        if cached.error != PreviewCache.GigNotFound {
          return Err(IndexFailed(cached.error));
        }
        r := BuildMyGigsFromSource(src, store, plan);
        return;
      }
      var answer := ListItems(cached.value, plan);
      r := Ok(answer);
    }

    /** Filters, sorts in place and cuts out the page. */
    method ListItems(previews: seq<GigPreview>, plan: Plan) returns (page: Page<Item>)
      ensures page == Answer(previews, plan)
    {
      var kept := FilterOwnerGigs(Items(previews), plan.status);
      var a := new Item[|kept|](i requires 0 <= i < |kept| => kept[i]);
      assert a[..] == kept;
      SortOwnerGigs(a, plan.key, plan.ascending);
      page := PaginateOwner(a[..], plan.page, plan.limit);
    }

    method OwnedGigs(gigs: seq<SourceGig>, load: string -> Option<SourceGig>, owner: string) returns (r: Option<seq<SourceGig>>)
      ensures r == Owned(gigs, load, owner)
    {
      var owned: seq<SourceGig> := [];
      assert gigs[0..] == gigs;
      OwnedBehindNothing(Owned(gigs, load, owner));
      for i := 0 to |gigs|
        invariant Owned(gigs, load, owner) == OwnedBehind(owned, Owned(gigs[i..], load, owner))
      {
        assert gigs[i..][1..] == gigs[i + 1..];
        ghost var front := owned;
        if TrimSpace(gigs[i].freelancerId) == owner {
          var full := load(gigs[i].id);
          if full.None? {
            return None;
          }
          owned := owned + [full.value];
          OwnedBehindBefore(front, full.value, Owned(gigs[i + 1..], load, owner));
        }
      }
      assert gigs[|gigs|..] == [];
      assert owned + [] == owned;
      r := Some(owned);
    }

    method BuildMyGigsFromSource(src: Sources, store: Store, plan: Plan) returns (r: Result<Page<Item>, MyGigsError>)
      modifies readRepo`payloads, readRepo`owners
      ensures (readRepo.View(), r) == BuildFromSource(old(readRepo.View()), src, store, plan)
    {
      if store.all.None? {
        return Err(StoreFailed);
      }
      var loaded := OwnedGigs(store.all.value, store.load, plan.owner);
      if loaded.None? {
        return Err(StoreFailed);
      }
      var owned := loaded.value;
      if owned == [] {
        return Ok(Page([], plan.page, plan.limit, 0, false));
      }
      var previewed := RebuildPreviews(src, owned);
      if previewed.Err? {
        return Err(IndexFailed(previewed.error));
      }
      var answer := ListItems(previewed.value, plan);
      r := Ok(answer);
    }

    method RebuildPreviews(src: Sources, gigs: seq<SourceGig>) returns (r: Result<seq<GigPreview>, PreviewCache.CacheError>)
      modifies readRepo`payloads, readRepo`owners
      ensures (readRepo.View(), r) == Rebuild(old(readRepo.View()), src, gigs)
    {
      var previewed: seq<GigPreview> := [];
      assert gigs[0..] == gigs;
      BehindNothing(Rebuild(readRepo.View(), src, gigs));
      for i := 0 to |gigs|
        invariant Rebuild(old(readRepo.View()), src, gigs) == Behind(previewed, Rebuild(readRepo.View(), src, gigs[i..]))
      {
        assert gigs[i..][1..] == gigs[i + 1..];
        ghost var was, front := readRepo.View(), previewed;
        var upserted := UpsertPreviewGig(src, gigs[i]);
        var preview := readRepo.GetPreviewById(gigs[i].id);
        if preview.Err? {
          assert Rebuild(was, src, gigs[i..]) == (readRepo.View(), Err(preview.error));
          return Err(preview.error);
        }
        previewed := previewed + [preview.value];
        BehindBefore(front, preview.value, Rebuild(readRepo.View(), src, gigs[i + 1..]));
      }
      assert gigs[|gigs|..] == [];
      assert previewed + [] == previewed;
      r := Ok(previewed);
    }
  }

  /** Puts what a loop has collected in front of what the rest of it yields. */
  function Behind<E>(front: seq<GigPreview>, rest: (PreviewCache.Cache, Result<seq<GigPreview>, E>))
      : (PreviewCache.Cache, Result<seq<GigPreview>, E>) {
    (rest.0, if rest.1.Ok? then Ok(front + rest.1.value) else rest.1)
  }

  lemma BehindBefore<E>(front: seq<GigPreview>, p: GigPreview, rest: (PreviewCache.Cache, Result<seq<GigPreview>, E>))
    ensures Behind(front, Behind([p], rest)) == Behind(front + [p], rest)
    ensures rest.1.Ok? ==> front + ([p] + rest.1.value) == front + [p] + rest.1.value
  {
    if rest.1.Ok? {
      assert front + ([p] + rest.1.value) == front + [p] + rest.1.value;
    }
  }

  lemma BehindNothing<E>(rest: (PreviewCache.Cache, Result<seq<GigPreview>, E>))
    ensures Behind([], rest) == rest
  {
    assert rest.1.Ok? ==> [] + rest.1.value == rest.1.value;
  }

  function OwnedBehind(front: seq<SourceGig>, rest: Option<seq<SourceGig>>): Option<seq<SourceGig>> {
    if rest.None? then None else Some(front + rest.value)
  }

  lemma OwnedBehindBefore(front: seq<SourceGig>, g: SourceGig, rest: Option<seq<SourceGig>>)
    ensures OwnedBehind(front, OwnedBehind([g], rest)) == OwnedBehind(front + [g], rest)
  {
    assert rest.Some? ==> front + ([g] + rest.value) == front + [g] + rest.value;
  }

  lemma OwnedBehindNothing(rest: Option<seq<SourceGig>>)
    ensures OwnedBehind([], rest) == rest
  {
    assert rest.Some? ==> [] + rest.value == rest.value;
  }
}
