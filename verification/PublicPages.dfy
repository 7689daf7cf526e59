/** What the public listing of a seller answers: when it succeeds, and which page of which list it then is. */
module PublicPages {
  import opened Text
  import opened Wrappers
  import opened Ordering
  import opened Preview
  import opened PreviewCache
  import opened OwnerPreview
  import opened Pages

  /** The limit asked for, else the configured page size, else ten. */
  function LimitUsed(limit: int, pageSize: int): int {
    if limit > 0 then limit else if pageSize > 0 then pageSize else 10
  }

  // ----- When it succeeds -----

  /** The preview of gig i is cached, can be written, or was needed for an earlier gig already. */
  ghost predicate Available(payloads: map<string, GigPreview>, src: Sources, gigs: seq<SourceGig>, i: nat)
    requires i < |gigs|
  {
    var id := TrimSpace(gigs[i].id);
    && id != ""
    && (|| id in payloads
        || (!src.popularity(gigs[i].id).Broken? && TrimSpace(gigs[i].freelancerId) != "")
        || exists j :: 0 <= j < i && TrimSpace(gigs[j].id) == id)
  }

  ghost predicate AllAvailable(payloads: map<string, GigPreview>, src: Sources, gigs: seq<SourceGig>) {
    forall i :: 0 <= i < |gigs| ==> Available(payloads, src, gigs, i)
  }

  lemma CollectsFirst(c: Cache, src: Sources, g: SourceGig)
    ensures Available(c.payloads, src, [g], 0) <==>
              PreviewCache.GetPreviewById(c, g.id).Ok? || UpsertPreviewGig(c, src, g).1.Ok?
    ensures PreviewCache.GetPreviewById(c, g.id).Err? && UpsertPreviewGig(c, src, g).1.Ok? ==>
              UpsertPreviewGig(c, src, g).0.payloads.Keys == c.payloads.Keys + {TrimSpace(g.id)}
    ensures PreviewCache.GetPreviewById(c, g.id).Ok? ==> TrimSpace(g.id) in c.payloads
  {
    TrimSpaceTrims(g.freelancerId);
  }

  lemma AvailableCons(payloads: map<string, GigPreview>, more: map<string, GigPreview>, src: Sources, gigs: seq<SourceGig>)
    requires gigs != [] && Available(payloads, src, [gigs[0]], 0)
    requires more.Keys == payloads.Keys + {TrimSpace(gigs[0].id)}
    ensures AllAvailable(payloads, src, gigs) <==> AllAvailable(more, src, gigs[1..])
  {
    assert Available(payloads, src, gigs, 0);
    forall i: nat | 0 < i < |gigs|
      ensures Available(payloads, src, gigs, i) <==> Available(more, src, gigs[1..], i - 1)
    {
      var id := TrimSpace(gigs[i].id);
      assert gigs[1..][i - 1] == gigs[i];
      if j :| 0 <= j < i && TrimSpace(gigs[j].id) == id && j > 0 {
        assert TrimSpace(gigs[1..][j - 1].id) == id;
      }
      if j :| 0 <= j < i - 1 && TrimSpace(gigs[1..][j].id) == id {
        assert TrimSpace(gigs[j + 1].id) == id;
      }
    }
    assert forall i: nat :: i < |gigs[1..]| ==> (Available(more, src, gigs[1..], i) <==> Available(payloads, src, gigs, i + 1));
  }

  lemma {:induction false} CollectsExactly(c: Cache, src: Sources, gigs: seq<SourceGig>)
    ensures Collect(c, src, gigs).1.Ok? <==> AllAvailable(c.payloads, src, gigs)
    decreases |gigs|
  {
    if gigs != [] {
      var g := gigs[0];
      CollectsFirst(c, src, g);
      assert Available(c.payloads, src, gigs, 0) <==> Available(c.payloads, src, [g], 0);
      var d := if PreviewCache.GetPreviewById(c, g.id).Ok? then c else UpsertPreviewGig(c, src, g).0;
      CollectsExactly(d, src, gigs[1..]);
      if Available(c.payloads, src, [g], 0) {
        AvailableCons(c.payloads, d.payloads, src, gigs);
      }
    }
  }

  // ----- Which list it pages -----

  /** By descending score, ties by descending id. */
  predicate Ranked(all: seq<GigPreview>) {
    forall i, j :: 0 <= i < j < |all| ==>
      all[i].popularityScore > all[j].popularityScore
      || (all[i].popularityScore == all[j].popularityScore && !Less(all[i].id, all[j].id))
  }

  /** The previews of the gigs, each gig's once. */
  ghost predicate PreviewsOf(all: seq<GigPreview>, payloads: map<string, GigPreview>, gigs: seq<SourceGig>) {
    && (forall i :: 0 <= i < |gigs| ==> TrimSpace(gigs[i].id) in payloads)
    && multiset(all) == multiset(seq(|gigs|, i requires 0 <= i < |gigs| && TrimSpace(gigs[i].id) in payloads => payloads[TrimSpace(gigs[i].id)]))
  }

  lemma SortedIsRanked(found: seq<GigPreview>)
    ensures Ranked(StableSort(ByPopularity(), found))
  {
    var all := StableSort(ByPopularity(), found);
    PopularityOrder();
    SortSorted(ByPopularity(), found);
    forall i, j | 0 <= i < j < |all|
      ensures !PopularBefore(all[j], all[i])
    {
      assert !ByPopularity()(all[j], all[i]);
    }
  }

  lemma FoundArePreviews(payloads: map<string, GigPreview>, gigs: seq<SourceGig>, found: seq<GigPreview>)
    requires Cached(payloads, gigs, found)
    ensures PreviewsOf(StableSort(ByPopularity(), found), payloads, gigs)
  {
    SortMultiset(ByPopularity(), found);
    assert found == seq(|gigs|, i requires 0 <= i < |gigs| && TrimSpace(gigs[i].id) in payloads => payloads[TrimSpace(gigs[i].id)]);
  }

  lemma ListedPreviews(c: Cache, src: Sources, gigs: seq<SourceGig>)
    requires SelfKeyed(c)
    ensures ListPublic(c, src, gigs).1.Ok? <==> AllAvailable(c.payloads, src, gigs)
    ensures ListPublic(c, src, gigs).1.Ok? ==>
              Ranked(ListPublic(c, src, gigs).1.value)
              && PreviewsOf(ListPublic(c, src, gigs).1.value, ListPublic(c, src, gigs).0.payloads, gigs)
  {
    CollectsExactly(c, src, gigs);
    Collected(c, src, gigs);
    var (d, r) := Collect(c, src, gigs);
    if r.Ok? {
      SortedIsRanked(r.value);
      FoundArePreviews(d.payloads, gigs, r.value);
      SortMultiset(ByPopularity(), r.value);
      SortedAreCached(d, gigs, r.value, StableSort(ByPopularity(), r.value));
    }
  }

  // ----- The answer -----

  /** What a seller's public listing answers: refused without a seller name, failing where the gigs or one of their previews
      cannot be had, and else page max(1, page) of the previews of the seller's gigs by rank, at the limit used. */
  ghost predicate PublicAnswer(c: Cache, src: Sources, pageSize: int, username: string, page: int, limit: int,
                               published: string -> Option<seq<SourceGig>>, d: Cache, r: Result<Page<GigPreview>, PreviewError>) {
    var gigs := published(TrimSpace(username));
    && (r == Err(PreviewError.InvalidUsername) <==> TrimSpace(username) == "")
    && (r.Ok? <==> TrimSpace(username) != "" && gigs.Some? && AllAvailable(c.payloads, src, gigs.value))
    && (r.Ok? ==> exists all :: Ranked(all) && PreviewsOf(all, d.payloads, gigs.value)
                                && PageOf(r.value, all, if page > 0 then page else 1, LimitUsed(limit, pageSize)))
  }

  lemma CollectFails(c: Cache, src: Sources, gigs: seq<SourceGig>)
    ensures Collect(c, src, gigs).1 != Err(PreviewError.InvalidUsername)
    decreases |gigs|
  {
  }

  /** Main result. Every public listing answers so, whatever is asked for. */
  lemma ListingAnswers(c: Cache, src: Sources, pageSize: int, username: string, page: int, limit: int,
                       published: string -> Option<seq<SourceGig>>)
    requires SelfKeyed(c)
    ensures var (d, r) := PublicListing(c, src, pageSize, username, page, limit, published);
            PublicAnswer(c, src, pageSize, username, page, limit, published, d, r)
  {
    var gigs := published(TrimSpace(username));
    if TrimSpace(username) != "" && gigs.Some? {
      CollectFails(c, src, gigs.value);
      ListedPreviews(c, src, gigs.value);
      var (d, listed) := ListPublic(c, src, gigs.value);
      if listed.Ok? {
        PaginatorsAgree(listed.value, page, LimitUsed(limit, pageSize));
        PaginateCuts(listed.value, page, LimitUsed(limit, pageSize));
      }
    }
  }

  /** Main result. The pages 1..totalPages of one seller, concatenated, are the whole list: each gig's preview once, by
      rank. */
  lemma PublicPagesPartition(c: Cache, src: Sources, pageSize: int, username: string, limit: int,
                             published: string -> Option<seq<SourceGig>>)
    requires SelfKeyed(c) && PublicListing(c, src, pageSize, username, 1, limit, published).1.Ok?
    ensures var (d, first) := PublicListing(c, src, pageSize, username, 1, limit, published);
            && first.value.totalPages >= 0
            && var all := Joined(PublicPageList(c, src, pageSize, username, limit, published, first.value.totalPages));
               Ranked(all) && PreviewsOf(all, d.payloads, published(TrimSpace(username)).value)
  {
    var gigs := published(TrimSpace(username)).value;
    var all := ListPublic(c, src, gigs).1.value;
    ListedPreviews(c, src, gigs);
    PaginatorsAgree(all, 1, LimitUsed(limit, pageSize));
    PagesPartition(all, LimitUsed(limit, pageSize));
    var total := PaginateOwner(all, 1, LimitUsed(limit, pageSize)).totalPages;
    PublicPagesAreFirst(c, src, pageSize, username, limit, published,
                        PublicPageList(c, src, pageSize, username, limit, published, total), all);
  }

  /** What the seller's page `n` lists. */
  function PublicPageItems(c: Cache, src: Sources, pageSize: int, username: string, limit: int,
                           published: string -> Option<seq<SourceGig>>, n: int): seq<GigPreview> {
    var r := PublicListing(c, src, pageSize, username, n, limit, published).1;
    if r.Ok? then r.value.items else []
  }

  /** The seller's pages 1..n. */
  function PublicPageList(c: Cache, src: Sources, pageSize: int, username: string, limit: int,
                          published: string -> Option<seq<SourceGig>>, n: nat): (pages: seq<seq<GigPreview>>)
    ensures |pages| == n && forall k :: 0 <= k < n ==> pages[k] == PublicPageItems(c, src, pageSize, username, limit, published, k + 1)
  {
    seq(n, k requires 0 <= k < n => PublicPageItems(c, src, pageSize, username, limit, published, k + 1))
  }

  lemma PublicPageIsCut(c: Cache, src: Sources, pageSize: int, username: string, limit: int,
                        published: string -> Option<seq<SourceGig>>, n: int)
    requires PublicListing(c, src, pageSize, username, 1, limit, published).1.Ok?
    ensures PublicPageItems(c, src, pageSize, username, limit, published, n)
            == PaginateOwner(ListPublic(c, src, published(TrimSpace(username)).value).1.value, n, LimitUsed(limit, pageSize)).items
  {
    PaginatorsAgree(ListPublic(c, src, published(TrimSpace(username)).value).1.value, n, LimitUsed(limit, pageSize));
  }

  lemma PublicPagesAreFirst(c: Cache, src: Sources, pageSize: int, username: string, limit: int,
                            published: string -> Option<seq<SourceGig>>, pages: seq<seq<GigPreview>>, all: seq<GigPreview>)
    requires forall k :: 0 <= k < |pages| ==> pages[k] == PublicPageItems(c, src, pageSize, username, limit, published, k + 1)
    requires PublicListing(c, src, pageSize, username, 1, limit, published).1.Ok?
    requires all == ListPublic(c, src, published(TrimSpace(username)).value).1.value
    ensures Joined(pages) == FirstPages(all, LimitUsed(limit, pageSize), |pages|)
  {
    forall k | 0 <= k < |pages|
      ensures pages[k] == PaginateOwner(all, k + 1, LimitUsed(limit, pageSize)).items
    {
      PublicPageIsCut(c, src, pageSize, username, limit, published, k + 1);
    }
    JoinedAreFirst(pages, all, LimitUsed(limit, pageSize));
  }
}
