/** owner_preview.go and preview.go, toPreview: the preview projection and what its refreshes conserve. */
module OwnerPreview {
  import opened Text
  import opened Wrappers
  import opened Preview
  import opened PreviewCache
  import opened PreviewOrder
  import opened Ordering
  import opened Pages

  /** A gig as loaded from the write model, as far as its preview shows it. */
  datatype SourceGig = SourceGig(
    id: string,
    freelancerId: string,
    status: string,
    prices: seq<int>,
    publishedAt: Option<int>,
    updatedAt: int,
    createdAt: int)

  datatype PopularityRead = Found(score: int, orders: int) | Missing | Broken

  datatype Rating = Rating(average: real, reviews: int)

  /** What the other services answer: None stands for an error. */
  datatype Sources = Sources(
    popularity: string -> PopularityRead,
    rating: string -> Option<Rating>,
    orders: string -> Option<int>,
    recovery: bool)

  datatype PreviewError = InvalidUsername | InvalidGigID | GigNotFound | SourceFailed | CacheFailed(error: CacheError)

  /** The smallest price, or 0 of none. */
  function MinimumPrice(prices: seq<int>): (m: int)
    ensures prices != [] ==> m in prices && forall p :: p in prices ==> m <= p
    ensures prices == [] ==> m == 0
  {
    if prices == [] then 0
    else if |prices| == 1 then prices[0]
    else
      assert forall p :: p in prices ==> p == prices[0] || p in prices[1..];
      var rest := MinimumPrice(prices[1..]);
      if prices[0] < rest then prices[0] else rest
  }

  /** The loop of toPreview. */
  method ScanMinimumPrice(prices: seq<int>) returns (m: int)
    ensures prices != [] ==> m in prices && forall p :: p in prices ==> m <= p
    ensures prices == [] ==> m == 0
    ensures m == MinimumPrice(prices)
  {
    m := 0;
    for i := 0 to |prices|
      invariant i == 0 ==> m == 0
      invariant i > 0 ==> m in prices[..i] && forall p :: p in prices[..i] ==> m <= p
    {
      if i == 0 || prices[i] < m {
        m := prices[i];
      }
      assert prices[..i + 1] == prices[..i] + [prices[i]];
    }
    assert prices[..|prices|] == prices;
    assert prices != [] ==> MinimumPrice(prices) in prices && m in prices;
  }

  function ToPreview(g: SourceGig, popularity: PopularityRead, rating: Option<Rating>, orderCount: int): GigPreview {
    GigPreview(g.id, g.freelancerId, g.status, MinimumPrice(g.prices),
               if popularity.Found? then popularity.score else 0,
               g.publishedAt, g.updatedAt, g.createdAt,
               if rating.Some? then rating.value.average else 0.0,
               if rating.Some? then rating.value.reviews else 0,
               orderCount)
  }

  /** The rating and order count a new preview takes over: from the cached preview if there is one, else
      from the other services for a published gig outside recovery. */
  function Carried(c: Cache, src: Sources, g: SourceGig): (Option<Rating>, int) {
    match PreviewCache.GetPreviewById(c, g.id)
    case Ok(p) => (Some(Rating(p.ratingAvg, p.totalReviews)), p.orderCount)
    case Err(_) =>
      if g.status == "published" && !src.recovery then
        (src.rating(g.id), if src.orders(g.id).Some? then src.orders(g.id).value else 0)
      else (None, 0)
  }

  function FreshPreview(c: Cache, src: Sources, g: SourceGig): GigPreview {
    ToPreview(g, src.popularity(g.id), Carried(c, src, g).0, Carried(c, src, g).1)
  }

  function Stored(r: (Cache, Result<(), CacheError>)): (Cache, Result<(), PreviewError>) {
    (r.0, if r.1.Ok? then Ok(()) else Err(CacheFailed(r.1.error)))
  }

  function UpsertPreviewGig(c: Cache, src: Sources, g: SourceGig): (Cache, Result<(), PreviewError>) {
    if src.popularity(g.id).Broken? then (c, Err(SourceFailed))
    else Stored(PreviewCache.UpsertOwnerPreview(c, TrimSpace(g.freelancerId), FreshPreview(c, src, g)))
  }

  /** The counts of a stored preview: those of the one it replaces, if there was one; else, for a published gig outside
      recovery, what the other services answer, with zeros for what they do not; else zeros. */
  predicate ShowsCounts(c: Cache, src: Sources, g: SourceGig, p: GigPreview) {
    var id := TrimSpace(g.id);
    if id in c.payloads then
      p.ratingAvg == c.payloads[id].ratingAvg && p.totalReviews == c.payloads[id].totalReviews && p.orderCount == c.payloads[id].orderCount
    else if g.status == "published" && !src.recovery then
      && (if src.rating(g.id).Some? then p.ratingAvg == src.rating(g.id).value.average && p.totalReviews == src.rating(g.id).value.reviews
          else p.ratingAvg == 0.0 && p.totalReviews == 0)
      && p.orderCount == (if src.orders(g.id).Some? then src.orders(g.id).value else 0)
    else p.ratingAvg == 0.0 && p.totalReviews == 0 && p.orderCount == 0
  }

  /** The gig's own fields, its least price, and its current score. */
  predicate ShowsGig(src: Sources, g: SourceGig, p: GigPreview) {
    && p.id == g.id && p.freelancerId == g.freelancerId && p.status == g.status
    && p.publishedAt == g.publishedAt && p.updatedAt == g.updatedAt && p.createdAt == g.createdAt
    && (if g.prices == [] then p.minimumPriceCents == 0
        else p.minimumPriceCents in g.prices && forall price :: price in g.prices ==> p.minimumPriceCents <= price)
    && p.popularityScore == (if src.popularity(g.id).Found? then src.popularity(g.id).score else 0)
  }

  /** What an upsert comes to: it fails exactly where the score cannot be read or owner or id is blank, and else the
      preview read back shows the gig. */
  predicate Upserted(c: Cache, src: Sources, g: SourceGig, d: Cache, ok: bool) {
    && (ok <==> !src.popularity(g.id).Broken? && TrimSpace(g.freelancerId) != "" && TrimSpace(g.id) != "")
    && (!ok ==> d == c)
    && (ok ==> TrimSpace(g.id) in d.payloads
               && ShowsGig(src, g, d.payloads[TrimSpace(g.id)]) && ShowsCounts(c, src, g, d.payloads[TrimSpace(g.id)]))
  }

  /** Every upsert stores that. */
  lemma UpsertShows(c: Cache, src: Sources, g: SourceGig)
    ensures Upserted(c, src, g, UpsertPreviewGig(c, src, g).0, UpsertPreviewGig(c, src, g).1.Ok?)
  {
    TrimSpaceTrims(g.freelancerId);
  }

  const INT64_MIN := -0x8000_0000_0000_0000
  const INT64_MAX := 0x7FFF_FFFF_FFFF_FFFF

  /** `++` on a 64-bit integer. */
  function Increment(n: int): int {
    if n == INT64_MAX then INT64_MIN else n + 1
  }

  function RefreshPreviewRating(c: Cache, src: Sources, load: string -> Option<SourceGig>, gigId: string): (Cache, Result<(), PreviewError>) {
    var id := TrimSpace(gigId);
    if id == "" then (c, Err(PreviewError.InvalidGigID))
    else
      match PreviewCache.GetPreviewById(c, id)
      case Err(_) => if load(id).None? then (c, Err(PreviewError.GigNotFound)) else UpsertPreviewGig(c, src, load(id).value)
      case Ok(p) =>
        if src.rating(id).None? then (c, Err(SourceFailed))
        else
          var r := src.rating(id).value;
          Stored(PreviewCache.UpsertOwnerPreview(c, p.freelancerId, p.(ratingAvg := r.average, totalReviews := r.reviews)))
  }

  function RefreshPreviewOrderCount(c: Cache, src: Sources, load: string -> Option<SourceGig>, gigId: string): (Cache, Result<(), PreviewError>) {
    var id := TrimSpace(gigId);
    if id == "" then (c, Err(PreviewError.InvalidGigID))
    else
      match PreviewCache.GetPreviewById(c, id)
      case Err(_) => if load(id).None? then (c, Err(PreviewError.GigNotFound)) else UpsertPreviewGig(c, src, load(id).value)
      case Ok(p) =>
        Stored(PreviewCache.UpsertOwnerPreview(c, p.freelancerId, p.(orderCount := Increment(p.orderCount))))
  }

  /** What a refresh of a cached preview with these changes comes to: it is stored for its owner, who must have a name. */
  predicate Replaced(c: Cache, id: string, p: GigPreview, d: Cache, ok: bool)
    requires id in c.payloads
  {
    && (ok <==> TrimSpace(c.payloads[id].freelancerId) != "")
    && d.payloads == if ok then c.payloads[id := p] else c.payloads
  }

  /** What a refresh of the rating comes to. A cached preview takes over the rating, if it can be read, and nothing else; for
      one that is not cached the gig is loaded and its preview made anew. */
  ghost predicate RatingRefreshed(c: Cache, src: Sources, load: string -> Option<SourceGig>, gigId: string, d: Cache, ok: bool) {
    var id := TrimSpace(gigId);
    if id == "" then !ok && d == c
    else if id !in c.payloads then if load(id).None? then !ok && d == c else Upserted(c, src, load(id).value, d, ok)
    else if src.rating(id).None? then !ok && d == c
    else
      Replaced(c, id, c.payloads[id].(ratingAvg := src.rating(id).value.average, totalReviews := src.rating(id).value.reviews), d, ok)
  }

  /** The same for the order count, which goes up by one. */
  ghost predicate OrdersRefreshed(c: Cache, src: Sources, load: string -> Option<SourceGig>, gigId: string, d: Cache, ok: bool) {
    var id := TrimSpace(gigId);
    if id == "" then !ok && d == c
    else if id !in c.payloads then if load(id).None? then !ok && d == c else Upserted(c, src, load(id).value, d, ok)
    else
      var count := c.payloads[id].orderCount;
      Replaced(c, id, c.payloads[id].(orderCount := if count == 0x7FFF_FFFF_FFFF_FFFF then -0x8000_0000_0000_0000 else count + 1), d, ok)
  }

  lemma RatingRefreshes(c: Cache, src: Sources, load: string -> Option<SourceGig>, gigId: string)
    requires SelfKeyed(c)
    ensures var (d, r) := RefreshPreviewRating(c, src, load, gigId); RatingRefreshed(c, src, load, gigId, d, r.Ok?)
  {
    var id := TrimSpace(gigId);
    TrimSpaceTrims(gigId);
    if load(id).Some? {
      UpsertShows(c, src, load(id).value);
    }
  }

  lemma OrdersRefresh(c: Cache, src: Sources, load: string -> Option<SourceGig>, gigId: string)
    requires SelfKeyed(c)
    ensures var (d, r) := RefreshPreviewOrderCount(c, src, load, gigId); OrdersRefreshed(c, src, load, gigId, d, r.Ok?)
  {
    var id := TrimSpace(gigId);
    TrimSpaceTrims(gigId);
    if load(id).Some? {
      UpsertShows(c, src, load(id).value);
    }
  }

  // ----- The public listing -----

  function Before(p: GigPreview, r: (Cache, Result<seq<GigPreview>, PreviewError>)): (Cache, Result<seq<GigPreview>, PreviewError>) {
    (r.0, if r.1.Ok? then Ok([p] + r.1.value) else r.1)
  }

  /** Used when a preview is not found right after it was written. */
  function Uncached(src: Sources, g: SourceGig): GigPreview {
    var popularity := src.popularity(g.id);
    ToPreview(g, popularity, None, if popularity.Found? then popularity.orders else 0)
  }

  /** The previews of the seller's gigs, writing those that are not cached. */
  function Collect(c: Cache, src: Sources, gigs: seq<SourceGig>): (Cache, Result<seq<GigPreview>, PreviewError>)
    decreases |gigs|
  {
    if gigs == [] then (c, Ok([]))
    else
      match PreviewCache.GetPreviewById(c, gigs[0].id)
      case Ok(p) => Before(p, Collect(c, src, gigs[1..]))
      case Err(_) =>
        var (d, r) := UpsertPreviewGig(c, src, gigs[0]);
        if r.Err? then (d, Err(r.error))
        else
          match PreviewCache.GetPreviewById(d, gigs[0].id)
          case Ok(p) => Before(p, Collect(d, src, gigs[1..]))
          case Err(_) => Before(Uncached(src, gigs[0]), Collect(d, src, gigs[1..]))
  }

  /** The first window of the seller of the first item, if that seller is known. */
  function WriteFirstWindow(c: Cache, items: seq<GigPreview>): Cache {
    if items != [] && TrimSpace(items[0].freelancerId) != "" then
      PreviewCache.UpsertPreviewWindow(c, TrimSpace(items[0].freelancerId), 0, items).0
    else c
  }

  function ListPublic(c: Cache, src: Sources, gigs: seq<SourceGig>): (Cache, Result<seq<GigPreview>, PreviewError>) {
    var (d, r) := Collect(c, src, gigs);
    if r.Err? then (d, r)
    else
      var items := StableSort(ByPopularity(), r.value);
      (WriteFirstWindow(d, items), Ok(items))
  }

  /** GetPreviewGigsByFreelancerUsername. `published` is what the write model lists for the seller. */
  function PublicListing(c: Cache, src: Sources, pageSize: int, username: string, page: int, limit: int,
                         published: string -> Option<seq<SourceGig>>): (Cache, Result<Page<GigPreview>, PreviewError>)
  {
    var user := TrimSpace(username);
    var l := LimitOf(if limit <= 0 then pageSize else limit);
    if user == "" then (c, Err(PreviewError.InvalidUsername))
    else if published(user).None? then (c, Err(SourceFailed))
    else
      var (d, r) := ListPublic(c, src, published(user).value);
      (d, if r.Ok? then Ok(PaginatePreview(r.value, page, l)) else Err(r.error))
  }

  // ----- Conservation over runs -----

  /** The operations on previews, each with what the write model and the other services answer at its time. */
  datatype Op =
    | Upsert(src: Sources, g: SourceGig)
    | RefreshRating(src: Sources, load: string -> Option<SourceGig>, id: string)
    | RefreshOrders(src: Sources, load: string -> Option<SourceGig>, id: string)
    | PublicList(src: Sources, gigs: seq<SourceGig>)

  /** Every payload stands under its own trimmed id. */
  ghost predicate SelfKeyed(c: Cache) {
    forall a :: a in c.payloads ==> TrimSpace(c.payloads[a].id) == a
  }

  function Do(c: Cache, op: Op): (Cache, bool) {
    match op
    case Upsert(src, g) => (UpsertPreviewGig(c, src, g).0, UpsertPreviewGig(c, src, g).1.Ok?)
    case RefreshRating(src, load, id) =>
      (RefreshPreviewRating(c, src, load, id).0, RefreshPreviewRating(c, src, load, id).1.Ok?)
    case RefreshOrders(src, load, id) =>
      (RefreshPreviewOrderCount(c, src, load, id).0, RefreshPreviewOrderCount(c, src, load, id).1.Ok?)
    case PublicList(src, gigs) => (ListPublic(c, src, gigs).0, ListPublic(c, src, gigs).1.Ok?)
  }

  /** A run: the caches it goes through, and which of its operations succeed. */
  ghost predicate IsRun(ops: seq<Op>, caches: seq<Cache>, oks: seq<bool>) {
    && |oks| == |ops| && |caches| == |ops| + 1
    && forall i :: 0 <= i < |ops| ==> StepsAt(ops, caches, oks, i)
  }

  predicate StepsAt(ops: seq<Op>, caches: seq<Cache>, oks: seq<bool>, i: nat)
    requires i < |ops| && i < |oks| && i + 1 < |caches|
  {
    Do(caches[i], ops[i]) == (caches[i + 1], oks[i])
  }

  predicate RefreshesOrders(op: Op, gig: string, ok: bool) {
    op.RefreshOrders? && TrimSpace(op.id) == gig && ok
  }

  /** The order refreshes of the gig that succeed among the first n operations. */
  function OrderRefreshes(ops: seq<Op>, oks: seq<bool>, n: nat, gig: string): nat
    requires |ops| == |oks| && n <= |ops|
  {
    if n == 0 then 0
    else OrderRefreshes(ops, oks, n - 1, gig) + if RefreshesOrders(ops[n - 1], gig, oks[n - 1]) then 1 else 0
  }

  function RatingAfter(op: Op, gig: string, ok: bool, before: Rating): Rating {
    if op.RefreshRating? && TrimSpace(op.id) == gig && ok && op.src.rating(gig).Some? then op.src.rating(gig).value
    else before
  }

  /** The last rating the first n operations successfully refreshed for the gig, or `start`. */
  function LastRating(ops: seq<Op>, oks: seq<bool>, n: nat, gig: string, start: Rating): Rating
    requires |ops| == |oks| && n <= |ops|
  {
    if n == 0 then start
    else RatingAfter(ops[n - 1], gig, oks[n - 1], LastRating(ops, oks, n - 1, gig, start))
  }

  lemma {:induction false} WriteBackKeeps(payloads: map<string, GigPreview>, gigs: seq<GigPreview>)
    requires forall g :: g in gigs ==> TrimSpace(g.id) in payloads && payloads[TrimSpace(g.id)] == g
    ensures WithPayloads(payloads, gigs) == payloads
  {
    if gigs != [] {
      assert gigs[0] in gigs;
      assert payloads[TrimSpace(gigs[0].id) := gigs[0]] == payloads;
      WriteBackKeeps(payloads, gigs[1..]);
    }
  }

  /** What one successful owner write does to the payloads. */
  lemma OwnerWrite(c: Cache, user: string, p: GigPreview)
    requires SelfKeyed(c)
    ensures var r := PreviewCache.UpsertOwnerPreview(c, user, p);
            && SelfKeyed(r.0)
            && r.0.payloads == if r.1.Ok? then c.payloads[TrimSpace(p.id) := p] else c.payloads
  {
  }

  lemma UpsertCarries(c: Cache, src: Sources, g: SourceGig, gig: string)
    requires SelfKeyed(c) && gig in c.payloads && gig != ""
    ensures var d := UpsertPreviewGig(c, src, g).0;
            && SelfKeyed(d) && gig in d.payloads
            && d.payloads[gig].orderCount == c.payloads[gig].orderCount
            && d.payloads[gig].ratingAvg == c.payloads[gig].ratingAvg
            && d.payloads[gig].totalReviews == c.payloads[gig].totalReviews
  {
    OwnerWrite(c, TrimSpace(g.freelancerId), FreshPreview(c, src, g));
  }

  /** What the gig's payload keeps through everything but a refresh of its own. */
  predicate SameCounts(p: GigPreview, q: GigPreview) {
    q.orderCount == p.orderCount && q.ratingAvg == p.ratingAvg && q.totalReviews == p.totalReviews
  }

  /** A collected preview is the payload that stands under its id in the end. */
  lemma {:induction false} CollectCarries(c: Cache, src: Sources, gigs: seq<SourceGig>, gig: string)
    requires SelfKeyed(c) && gig in c.payloads && gig != ""
    ensures var (d, r) := Collect(c, src, gigs);
            && SelfKeyed(d) && gig in d.payloads && SameCounts(c.payloads[gig], d.payloads[gig])
    decreases |gigs|
  {
    if gigs != [] {
      var g := gigs[0];
      if PreviewCache.GetPreviewById(c, g.id).Ok? {
        CollectCarries(c, src, gigs[1..], gig);
      } else {
        var d := UpsertPreviewGig(c, src, g).0;
        UpsertCarries(c, src, g, gig);
        CollectCarries(d, src, gigs[1..], gig);
      }
    }
  }

  /** The previews found are the payloads of the gigs, in their order. */
  ghost predicate Cached(payloads: map<string, GigPreview>, gigs: seq<SourceGig>, found: seq<GigPreview>) {
    && |found| == |gigs|
    && forall i :: 0 <= i < |gigs| ==> TrimSpace(gigs[i].id) in payloads && found[i] == payloads[TrimSpace(gigs[i].id)]
  }

  ghost predicate Extends(payloads: map<string, GigPreview>, more: map<string, GigPreview>) {
    forall a :: a in payloads ==> a in more && more[a] == payloads[a]
  }

  lemma CachedCons(payloads: map<string, GigPreview>, gigs: seq<SourceGig>, p: GigPreview, rest: seq<GigPreview>)
    requires gigs != [] && Cached(payloads, gigs[1..], rest)
    requires TrimSpace(gigs[0].id) in payloads && payloads[TrimSpace(gigs[0].id)] == p
    ensures Cached(payloads, gigs, [p] + rest)
  {
    assert forall i :: 0 < i < |gigs| ==> gigs[i] == gigs[1..][i - 1];
  }

  /** One gig is cached, or is written: then its payload is there, and no other has changed. */
  lemma CollectedOne(c: Cache, src: Sources, g: SourceGig)
    requires SelfKeyed(c)
    ensures var d := if PreviewCache.GetPreviewById(c, g.id).Ok? then c else UpsertPreviewGig(c, src, g).0;
            SelfKeyed(d) && Extends(c.payloads, d.payloads)
  {
    OwnerWrite(c, TrimSpace(g.freelancerId), FreshPreview(c, src, g));
  }

  /** Collecting only adds payloads, and what it collects are the payloads, in the order of the gigs. */
  lemma {:induction false} Collected(c: Cache, src: Sources, gigs: seq<SourceGig>)
    requires SelfKeyed(c)
    ensures SelfKeyed(Collect(c, src, gigs).0)
    ensures Extends(c.payloads, Collect(c, src, gigs).0.payloads)
    ensures Collect(c, src, gigs).1.Ok? ==> Cached(Collect(c, src, gigs).0.payloads, gigs, Collect(c, src, gigs).1.value)
    decreases |gigs|
  {
    if gigs != [] {
      var g := gigs[0];
      var d := if PreviewCache.GetPreviewById(c, g.id).Ok? then c else UpsertPreviewGig(c, src, g).0;
      CollectedOne(c, src, g);
      Collected(d, src, gigs[1..]);
      var rest := Collect(d, src, gigs[1..]);
      if Collect(c, src, gigs).1.Ok? {
        CachedCons(rest.0.payloads, gigs, d.payloads[TrimSpace(g.id)], rest.1.value);
      }
    }
  }

  lemma ListPublicCarries(c: Cache, src: Sources, gigs: seq<SourceGig>, gig: string)
    requires SelfKeyed(c) && gig in c.payloads && gig != ""
    ensures var d := ListPublic(c, src, gigs).0;
            && SelfKeyed(d) && gig in d.payloads && SameCounts(c.payloads[gig], d.payloads[gig])
  {
    var (d, r) := Collect(c, src, gigs);
    CollectCarries(c, src, gigs, gig);
    Collected(c, src, gigs);
    if r.Ok? {
      SortMultiset(ByPopularity(), r.value);
      SortedAreCached(d, gigs, r.value, StableSort(ByPopularity(), r.value));
    }
  }

  lemma SortedAreCached(d: Cache, gigs: seq<SourceGig>, found: seq<GigPreview>, items: seq<GigPreview>)
    requires SelfKeyed(d) && Cached(d.payloads, gigs, found) && multiset(items) == multiset(found)
    ensures WriteFirstWindow(d, items).payloads == d.payloads
  {
    forall p | p in items
      ensures TrimSpace(p.id) in d.payloads && d.payloads[TrimSpace(p.id)] == p
    {
      assert p in multiset(items);
      assert p in found;
      var i :| 0 <= i < |gigs| && found[i] == p;
      assert d.payloads[TrimSpace(gigs[i].id)] == p;
    }
    WriteBackKeeps(d.payloads, items);
  }

  function RatingOf(p: GigPreview): Rating {
    Rating(p.ratingAvg, p.totalReviews)
  }

  /** What an operation does to the gig's payload. */
  predicate Stepped(p: GigPreview, q: GigPreview, op: Op, gig: string, ok: bool) {
    && q.orderCount == (if RefreshesOrders(op, gig, ok) then Increment(p.orderCount) else p.orderCount)
    && RatingOf(q) == RatingAfter(op, gig, ok, RatingOf(p))
  }

  lemma RatingStep(c: Cache, op: Op, gig: string)
    requires op.RefreshRating?
    requires SelfKeyed(c) && gig in c.payloads && gig != "" && Trimmed(gig)
    ensures var (d, ok) := Do(c, op);
            SelfKeyed(d) && gig in d.payloads && Stepped(c.payloads[gig], d.payloads[gig], op, gig, ok)
  {
    var key := TrimSpace(op.id);
    TrimSpaceTrims(op.id);
    if key != "" {
      if key in c.payloads {
        var p := c.payloads[key];
        if op.src.rating(key).Some? {
          var r := op.src.rating(key).value;
          OwnerWrite(c, p.freelancerId, p.(ratingAvg := r.average, totalReviews := r.reviews));
        }
      } else if op.load(key).Some? {
        UpsertCarries(c, op.src, op.load(key).value, gig);
      }
    }
  }

  lemma OrdersStep(c: Cache, op: Op, gig: string)
    requires op.RefreshOrders?
    requires SelfKeyed(c) && gig in c.payloads && gig != "" && Trimmed(gig)
    ensures var (d, ok) := Do(c, op);
            SelfKeyed(d) && gig in d.payloads && Stepped(c.payloads[gig], d.payloads[gig], op, gig, ok)
  {
    var key := TrimSpace(op.id);
    TrimSpaceTrims(op.id);
    if key != "" {
      if key in c.payloads {
        var p := c.payloads[key];
        OwnerWrite(c, p.freelancerId, p.(orderCount := Increment(p.orderCount)));
      } else if op.load(key).Some? {
        UpsertCarries(c, op.src, op.load(key).value, gig);
      }
    }
  }

  lemma StepConserves(c: Cache, op: Op, gig: string)
    requires SelfKeyed(c) && gig in c.payloads && gig != "" && Trimmed(gig)
    ensures var (d, ok) := Do(c, op);
            SelfKeyed(d) && gig in d.payloads && Stepped(c.payloads[gig], d.payloads[gig], op, gig, ok)
  {
    if op.Upsert? {
      UpsertCarries(c, op.src, op.g, gig);
    } else if op.RefreshRating? {
      RatingStep(c, op, gig);
    } else if op.RefreshOrders? {
      OrdersStep(c, op, gig);
    } else {
      ListPublicCarries(c, op.src, op.gigs, gig);
    }
  }

  /** What an operation does to every payload that was there: only a successful refresh of its own moves a gig's
      order count or rating. */
  ghost predicate OpDone(c: Cache, op: Op, d: Cache, ok: bool) {
    forall a :: a in c.payloads && a != "" ==> a in d.payloads && Stepped(c.payloads[a], d.payloads[a], op, a, ok)
  }

  lemma UpsertKeyed(c: Cache, src: Sources, g: SourceGig)
    requires SelfKeyed(c)
    ensures SelfKeyed(UpsertPreviewGig(c, src, g).0)
  {
    OwnerWrite(c, TrimSpace(g.freelancerId), FreshPreview(c, src, g));
  }

  lemma ListPublicExtends(c: Cache, src: Sources, gigs: seq<SourceGig>)
    requires SelfKeyed(c)
    ensures SelfKeyed(ListPublic(c, src, gigs).0) && Extends(c.payloads, ListPublic(c, src, gigs).0.payloads)
  {
    var (d, r) := Collect(c, src, gigs);
    Collected(c, src, gigs);
    if r.Ok? {
      SortMultiset(ByPopularity(), r.value);
      SortedAreCached(d, gigs, r.value, StableSort(ByPopularity(), r.value));
    }
  }

  lemma StoredKeyed(c: Cache, user: string, p: GigPreview)
    requires SelfKeyed(c)
    ensures SelfKeyed(Stored(PreviewCache.UpsertOwnerPreview(c, user, p)).0)
  {
    OwnerWrite(c, user, p);
  }

  lemma RatingKeyed(c: Cache, src: Sources, load: string -> Option<SourceGig>, id: string)
    requires SelfKeyed(c)
    ensures SelfKeyed(RefreshPreviewRating(c, src, load, id).0)
  {
    var key := TrimSpace(id);
    var found := PreviewCache.GetPreviewById(c, key);
    if found.Ok? && src.rating(key).Some? {
      var p, r := found.value, src.rating(key).value;
      StoredKeyed(c, p.freelancerId, p.(ratingAvg := r.average, totalReviews := r.reviews));
    } else if found.Err? && load(key).Some? {
      UpsertKeyed(c, src, load(key).value);
    }
  }

  lemma OrdersKeyed(c: Cache, src: Sources, load: string -> Option<SourceGig>, id: string)
    requires SelfKeyed(c)
    ensures SelfKeyed(RefreshPreviewOrderCount(c, src, load, id).0)
  {
    var key := TrimSpace(id);
    var found := PreviewCache.GetPreviewById(c, key);
    if found.Ok? {
      var p := found.value;
      StoredKeyed(c, p.freelancerId, p.(orderCount := Increment(p.orderCount)));
    } else if load(key).Some? {
      UpsertKeyed(c, src, load(key).value);
    }
  }

  /** Every operation does so, and keeps each payload under its own id. */
  lemma OpKeeps(c: Cache, op: Op)
    requires SelfKeyed(c)
    ensures SelfKeyed(Do(c, op).0) && OpDone(c, op, Do(c, op).0, Do(c, op).1)
  {
    forall a | a in c.payloads && a != ""
      ensures a in Do(c, op).0.payloads && Stepped(c.payloads[a], Do(c, op).0.payloads[a], op, a, Do(c, op).1)
    {
      TrimSpaceTrims(c.payloads[a].id);
      StepConserves(c, op, a);
    }
    match op
    case Upsert(src, g) => UpsertKeyed(c, src, g);
    case RefreshRating(src, load, id) => RatingKeyed(c, src, load, id);
    case RefreshOrders(src, load, id) => OrdersKeyed(c, src, load, id);
    case PublicList(src, gigs) => ListPublicExtends(c, src, gigs);
  }

  function Turns(k: int): int {
    k * 0x1_0000_0000_0000_0000
  }

  /** `r` is `n` as a 64-bit integer. */
  ghost predicate WrapsTo(n: int, r: int) {
    INT64_MIN <= r <= INT64_MAX && exists k :: n == r + Turns(k)
  }

  lemma WrapsOnce(n: int, r: int)
    requires WrapsTo(n, r)
    ensures WrapsTo(n + 1, Increment(r))
  {
    var k :| n == r + Turns(k);
    assert n + 1 == Increment(r) + Turns(if r == INT64_MAX then k + 1 else k);
  }

  lemma WrapsSelf(n: int)
    requires INT64_MIN <= n <= INT64_MAX
    ensures WrapsTo(n, n)
  {
    assert n == n + Turns(0);
  }

  lemma RunStep(ops: seq<Op>, caches: seq<Cache>, oks: seq<bool>, n: nat, gig: string)
    requires IsRun(ops, caches, oks) && n < |ops|
    requires SelfKeyed(caches[n]) && gig in caches[n].payloads && gig != "" && Trimmed(gig)
    ensures SelfKeyed(caches[n + 1]) && gig in caches[n + 1].payloads
    ensures Stepped(caches[n].payloads[gig], caches[n + 1].payloads[gig], ops[n], gig, oks[n])
  {
    assert StepsAt(ops, caches, oks, n);
    StepConserves(caches[n], ops[n], gig);
  }

  /** Where the gig's payload stands after n operations of a run that it began as `start`. */
  ghost predicate Conserved(start: GigPreview, ops: seq<Op>, oks: seq<bool>, n: nat, gig: string, p: GigPreview)
    requires |ops| == |oks| && n <= |ops|
  {
    && WrapsTo(start.orderCount + OrderRefreshes(ops, oks, n, gig), p.orderCount)
    && RatingOf(p) == LastRating(ops, oks, n, gig, RatingOf(start))
  }

  lemma ConservedMore(start: GigPreview, ops: seq<Op>, oks: seq<bool>, n: nat, gig: string, p: GigPreview, q: GigPreview)
    requires |ops| == |oks| && n < |ops| && Conserved(start, ops, oks, n, gig, p) && Stepped(p, q, ops[n], gig, oks[n])
    ensures Conserved(start, ops, oks, n + 1, gig, q)
  {
    WrapsOnce(start.orderCount + OrderRefreshes(ops, oks, n, gig), p.orderCount);
  }

  /** Main result. Over any run of upserts, refreshes and public listings of any gigs, while the write model changes as
      it will, in every state a cached gig's order count is its start value plus its order refreshes so far, as a
      64-bit integer, and its rating is the one last refreshed, or its start value. */
  lemma {:induction false} RunConserves(ops: seq<Op>, caches: seq<Cache>, oks: seq<bool>, n: nat, gig: string)
    requires IsRun(ops, caches, oks) && n <= |ops|
    requires SelfKeyed(caches[0]) && gig in caches[0].payloads && gig != "" && Trimmed(gig)
    requires INT64_MIN <= caches[0].payloads[gig].orderCount <= INT64_MAX
    ensures SelfKeyed(caches[n]) && gig in caches[n].payloads
    ensures Conserved(caches[0].payloads[gig], ops, oks, n, gig, caches[n].payloads[gig])
    decreases n
  {
    if n == 0 {
      WrapsSelf(caches[0].payloads[gig].orderCount);
    } else {
      RunConserves(ops, caches, oks, n - 1, gig);
      RunStep(ops, caches, oks, n - 1, gig);
      ConservedMore(caches[0].payloads[gig], ops, oks, n - 1, gig, caches[n - 1].payloads[gig], caches[n].payloads[gig]);
    }
  }

  // ----- The listing and the window it leaves -----

  lemma SelfKeyedClean(c: Cache)
    requires SelfKeyed(c)
    ensures CleanKeys(c)
  {
    forall a | a in c.payloads
      ensures Trimmed(a)
    {
      TrimSpaceTrims(c.payloads[a].id);
    }
  }

  lemma FoundDistinct(d: Cache, gigs: seq<SourceGig>, found: seq<GigPreview>)
    requires SelfKeyed(d) && Cached(d.payloads, gigs, found)
    requires forall i, j :: 0 <= i < j < |gigs| ==> TrimSpace(gigs[i].id) != TrimSpace(gigs[j].id)
    ensures DistinctIds(found)
  {
    forall i, j | 0 <= i < j < |found|
      ensures found[i].id != found[j].id
    {
      assert TrimSpace(found[i].id) == TrimSpace(gigs[i].id);
      assert TrimSpace(found[j].id) == TrimSpace(gigs[j].id);
    }
  }

  lemma SortTwice(found: seq<GigPreview>, items: seq<GigPreview>)
    requires DistinctIds(found) && items == StableSort(ByPopularity(), found)
    ensures StableSort(ByPopularity(), items) == items
    ensures DistinctIds(items) && |items| == |found|
  {
    PopularityOrder();
    SortMultiset(ByPopularity(), found);
    DistinctSeparates(found);
    SortOfPermutation(ByPopularity(), found, items);
    assert |multiset(items)| == |multiset(found)|;
    DistinctPermuted(found, items);
  }

  lemma TwicePresent(items: seq<GigPreview>, i: nat, j: nat)
    requires i < j < |items|
    ensures items[i] == items[j] ==> multiset(items)[items[i]] >= 2
  {
    assert items == items[..j] + [items[j]] + items[j + 1..];
    assert items[i] == items[..j][i];
  }

  lemma DistinctPermuted(found: seq<GigPreview>, items: seq<GigPreview>)
    requires DistinctIds(found) && multiset(items) == multiset(found)
    ensures DistinctIds(items)
  {
    forall i, j | 0 <= i < j < |items|
      ensures items[i].id != items[j].id
    {
      var x, y := items[i], items[j];
      assert x in multiset(found) && y in multiset(found);
      OnceEach(found, x);
      TwicePresent(items, i, j);
      var k :| 0 <= k < |found| && found[k] == x;
      var l :| 0 <= l < |found| && found[l] == y;
      assert k < l || l < k;
    }
  }

  /** Main result. After a public listing the seller's first window, read back from the cache, is exactly the list
      that was paged, in its order, if and only if its ids are trimmed and no two of its scores are rounded into
      the wrong order. */
  lemma WindowHoldsTheListing(c: Cache, src: Sources, gigs: seq<SourceGig>, items: seq<GigPreview>, user: string)
    requires SelfKeyed(c) && gigs != [] && ListPublic(c, src, gigs).1 == Ok(items)
    requires forall i, j :: 0 <= i < j < |gigs| ==> TrimSpace(gigs[i].id) != TrimSpace(gigs[j].id)
    requires items != [] ==> user == TrimSpace(items[0].freelancerId) != ""
    ensures ListPreviewWindow(ListPublic(c, src, gigs).0, user, 0).Ok?
    ensures ListPreviewWindow(ListPublic(c, src, gigs).0, user, 0).value.gigs == items
            <==> TrimmedIds(items) && NoRoundingInversion(items)
  {
    var (d, r) := Collect(c, src, gigs);
    Collected(c, src, gigs);
    SelfKeyedClean(d);
    FoundDistinct(d, gigs, r.value);
    SortTwice(r.value, items);
    TrimSpaceTrims(items[0].freelancerId);
    CacheRefinesSort(d, user, 0, items);
  }
}
