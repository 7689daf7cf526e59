/** What the owner's listing answers, in terms of the query's own texts: which queries are refused, and what the pages of
    one query hold. */
module MyGigsAnswers {
  import opened Text
  import opened Wrappers
  import opened Ordering
  import opened Preview
  import opened PreviewCache
  import opened OwnerPreview
  import opened Listing
  import opened Pages
  import opened MyGigs

  // ----- Refusals -----

  predicate StatusText(status: string) {
    var s := TrimSpace(status);
    s == "" || s == "draft" || s == "published" || s == "paused" || s == "archived"
  }

  predicate SortText(sort: string) {
    var s := TrimSpace(sort);
    || s == "" || s == "created_at" || s == "updated_at" || s == "published_at"
    || s == "rating_avg" || s == "total_reviews" || s == "order_count"
  }

  predicate OrderText(order: string) {
    TrimSpace(order) == "" || TrimSpace(order) == "desc" || TrimSpace(order) == "asc"
  }

  function LimitAsked(q: Query, pageSize: int): int {
    if q.limit > 0 then q.limit else pageSize
  }

  predicate Acceptable(q: Query, pageSize: int) {
    TrimSpace(q.userId) != "" && StatusText(q.status) && SortText(q.sort) && OrderText(q.order) && LimitAsked(q, pageSize) > 0
  }

  lemma StatusAccepted(status: string)
    ensures NormalizeStatus(status) == if StatusText(status) then Some(TrimSpace(status)) else None
  {
  }

  lemma SortAccepted(sort: string)
    ensures NormalizeSort(sort).Some? <==> SortText(sort)
    ensures SortText(sort) ==>
              TrimSpace(sort) == SortName(NormalizeSort(sort).value) || (TrimSpace(sort) == "" && NormalizeSort(sort).value == UpdatedAt)
  {
    if NormalizeSort(sort).Some? {
      SortsByName(sort, NormalizeSort(sort).value);
    }
  }

  /** An order is understood if and only if its trimmed text is empty, "desc" or "asc", and is ascending only as "asc". */
  lemma OrderAccepted(order: string)
    ensures NormalizeOrder(order) == if OrderText(order) then Some(TrimSpace(order) == "asc") else None
  {
    assert |"desc"| != |"asc"|;
  }

  /** The first of the query's parts that is not understood decides the refusal. */
  ghost predicate RefusedAs<T>(q: Query, pageSize: int, r: Result<T, MyGigsError>) {
    && (r == Err(InvalidFreelancerID) <==> TrimSpace(q.userId) == "")
    && (r == Err(InvalidGigListStatus) <==> TrimSpace(q.userId) != "" && !StatusText(q.status))
    && (r == Err(InvalidGigListSort) <==> TrimSpace(q.userId) != "" && StatusText(q.status) && !SortText(q.sort))
    && (r == Err(InvalidGigListOrder) <==>
          TrimSpace(q.userId) != "" && StatusText(q.status) && SortText(q.sort) && !OrderText(q.order))
    && (r == Err(InvalidGigListLimit) <==>
          TrimSpace(q.userId) != "" && StatusText(q.status) && SortText(q.sort) && OrderText(q.order) && LimitAsked(q, pageSize) <= 0)
  }

  lemma ValidatesExactly(q: Query, pageSize: int)
    ensures Validate(q, pageSize).Ok? <==> Acceptable(q, pageSize)
    ensures Acceptable(q, pageSize) ==>
              NormalizeSort(q.sort).Some?
              && Validate(q, pageSize).value
                 == Plan(TrimSpace(q.userId), TrimSpace(q.status), NormalizeSort(q.sort).value, TrimSpace(q.order) == "asc",
                         if q.page > 0 then q.page else 1, LimitAsked(q, pageSize))
  {
    StatusAccepted(q.status);
    SortAccepted(q.sort);
    OrderAccepted(q.order);
  }

  lemma ValidationRefuses(q: Query, pageSize: int)
    ensures RefusedAs(q, pageSize, Validate(q, pageSize))
    ensures !Acceptable(q, pageSize) <==> Validate(q, pageSize).Err?
  {
    StatusAccepted(q.status);
    SortAccepted(q.sort);
    OrderAccepted(q.order);
  }

  lemma ServingFails(c: Cache, listed: Result<seq<GigPreview>, CacheError>, src: Sources, store: Store, plan: Plan)
    ensures var r := Serve(c, listed, src, store, plan).1; r.Ok? || r.error.StoreFailed? || r.error.IndexFailed?
  {
  }

  /** Refusals are exact, and a refused query changes nothing. */
  lemma RefusedExactly(c: Cache, src: Sources, store: Store, pageSize: int, q: Query)
    ensures RefusedAs(q, pageSize, GetMyGigs(c, src, store, pageSize, q).1)
    ensures !Acceptable(q, pageSize) ==> GetMyGigs(c, src, store, pageSize, q).0 == c
  {
    ValidationRefuses(q, pageSize);
    if Validate(q, pageSize).Ok? {
      var plan := Validate(q, pageSize).value;
      ServingFails(c, ListOwnerPreviews(c, plan.owner), src, store, plan);
    }
  }

  // ----- What is listed -----

  /** The previews a listing has to choose from: those of the owner index, or, where it has none, those rebuilt from the
      write model. */
  ghost function Source(c: Cache, src: Sources, store: Store, owner: string): Option<seq<GigPreview>> {
    match ListOwnerPreviews(c, owner)
    case Ok(previews) => Some(previews)
    case Err(e) =>
      if e != CacheError.GigNotFound || store.all.None? || Owned(store.all.value, store.load, owner).None? then None
      else
        match Rebuild(c, src, Owned(store.all.value, store.load, owner).value).1
        case Ok(previews) => Some(previews)
        case Err(_) => None
  }

  predicate OwnedGig(g: SourceGig, owner: string) {
    TrimSpace(g.freelancerId) == owner
  }

  /** The owner's gigs are found exactly if each of the listed ones that name the owner loads, and are then what those
      load as. */
  lemma {:induction false} OwnedAre(gigs: seq<SourceGig>, load: string -> Option<SourceGig>, owner: string)
    ensures Owned(gigs, load, owner).Some? <==> forall i :: 0 <= i < |gigs| && OwnedGig(gigs[i], owner) ==> load(gigs[i].id).Some?
    ensures Owned(gigs, load, owner).Some? ==>
              forall g :: g in Owned(gigs, load, owner).value <==>
                          exists i :: 0 <= i < |gigs| && OwnedGig(gigs[i], owner) && load(gigs[i].id) == Some(g)
  {
    if gigs != [] {
      OwnedAre(gigs[1..], load, owner);
      assert forall i :: 0 < i < |gigs| ==> gigs[i] == gigs[1..][i - 1];
      assert forall i :: 0 <= i < |gigs[1..]| ==> gigs[1..][i] == gigs[i + 1];
    }
  }

  /** The field a sort names is smaller; a gig that was never published counts as published before all others. */
  predicate LessBy(sort: string, a: GigPreview, b: GigPreview) {
    if sort == "created_at" then a.createdAt < b.createdAt
    else if sort == "published_at" then
      b.publishedAt.Some? && (a.publishedAt.None? || a.publishedAt.value < b.publishedAt.value)
    else if sort == "rating_avg" then a.ratingAvg < b.ratingAvg
    else if sort == "total_reviews" then a.totalReviews < b.totalReviews
    else if sort == "order_count" then a.orderCount < b.orderCount
    else a.updatedAt < b.updatedAt
  }

  /** `a` may stand before `b`: by the field, and among equals by descending id. */
  predicate Precedes(a: GigPreview, b: GigPreview, sort: string, ascending: bool) {
    if LessBy(sort, a, b) then ascending
    else if LessBy(sort, b, a) then !ascending
    else !Less(TrimSpace(a.id), TrimSpace(b.id))
  }

  predicate HasStatus(p: GigPreview, status: string) {
    status == "" || EqualFold(TrimSpace(p.status), status)
  }

  /** Exactly the previews of the status asked for, as often as they come, in the order asked for. */
  ghost predicate Arranged(all: seq<Item>, previews: seq<GigPreview>, q: Query) {
    && (forall i :: 0 <= i < |all| ==> all[i].Some?)
    && (forall p :: multiset(all)[Some(p)] == if HasStatus(p, TrimSpace(q.status)) then multiset(previews)[p] else 0)
    && (forall i, j :: 0 <= i < j < |all| ==>
          Precedes(all[i].value, all[j].value, TrimSpace(q.sort), TrimSpace(q.order) == "asc"))
  }

  lemma SortNames()
    ensures SortName(UpdatedAt) != SortName(CreatedAt) && SortName(UpdatedAt) != SortName(PublishedAt)
    ensures SortName(UpdatedAt) != SortName(RatingAvg) && SortName(UpdatedAt) != SortName(TotalReviews)
    ensures SortName(UpdatedAt) != SortName(OrderCount)
    ensures SortName(PublishedAt) != SortName(CreatedAt) && SortName(RatingAvg) != SortName(CreatedAt)
    ensures SortName(RatingAvg) != SortName(PublishedAt)
  {
    assert SortName(UpdatedAt)[0] == 'u' && SortName(CreatedAt)[0] == 'c' && SortName(RatingAvg)[0] == 'r';
    assert |SortName(UpdatedAt)| == 10 && |SortName(PublishedAt)| == 12 && |SortName(TotalReviews)| == 13 && |SortName(OrderCount)| == 11;
  }

  lemma KeyOfName(sort: string, key: SortKey, a: GigPreview, b: GigPreview)
    requires sort == SortName(key) || (sort == "" && key == UpdatedAt)
    ensures LessBy(sort, a, b) <==> RankLess(RankOf(Some(a), key, true), RankOf(Some(b), key, true))
    ensures RankOf(Some(a), key, true) == RankOf(Some(a), key, false)
  {
    SortNames();
  }

  lemma InOrderPrecedes(x: Item, y: Item, sort: string, key: SortKey, ascending: bool)
    requires sort == SortName(key) || (sort == "" && key == UpdatedAt)
    requires x.Some? && y.Some? && InOrder(x, y, key, ascending)
    ensures Precedes(x.value, y.value, sort, ascending)
  {
    KeyOfName(sort, key, x.value, y.value);
    KeyOfName(sort, key, y.value, x.value);
  }

  /** What the listing holds before it is cut into pages. */
  ghost function Whole(previews: seq<GigPreview>, q: Query): seq<Item>
    requires NormalizeSort(q.sort).Some?
  {
    Listed(Items(previews), TrimSpace(q.status), NormalizeSort(q.sort).value, TrimSpace(q.order) == "asc")
  }

  lemma WholeHolds(previews: seq<GigPreview>, q: Query, x: Item)
    requires NormalizeSort(q.sort).Some?
    ensures x.Some? ==>
              multiset(Whole(previews, q))[x] == if HasStatus(x.value, TrimSpace(q.status)) then multiset(previews)[x.value] else 0
    ensures x.None? ==> x !in Whole(previews, q)
  {
    ListedShape(Items(previews), TrimSpace(q.status), NormalizeSort(q.sort).value, TrimSpace(q.order) == "asc");
    ItemsCount(previews, x);
  }

  lemma WholeIsArranged(previews: seq<GigPreview>, q: Query)
    requires SortText(q.sort) && NormalizeSort(q.sort).Some?
    ensures Arranged(Whole(previews, q), previews, q)
  {
    var all, key := Whole(previews, q), NormalizeSort(q.sort).value;
    SortAccepted(q.sort);
    WholeHolds(previews, q, None);
    forall p
      ensures multiset(all)[Some(p)] == if HasStatus(p, TrimSpace(q.status)) then multiset(previews)[p] else 0
    {
      WholeHolds(previews, q, Some(p));
    }
    ListedShape(Items(previews), TrimSpace(q.status), key, TrimSpace(q.order) == "asc");
    forall i, j | 0 <= i < j < |all|
      ensures Precedes(all[i].value, all[j].value, TrimSpace(q.sort), TrimSpace(q.order) == "asc")
    {
      InOrderPrecedes(all[i], all[j], TrimSpace(q.sort), key, TrimSpace(q.order) == "asc");
    }
  }

  lemma ServesWhole(c: Cache, src: Sources, store: Store, plan: Plan)
    ensures var r := Serve(c, ListOwnerPreviews(c, plan.owner), src, store, plan).1;
            && (r.Ok? <==> Source(c, src, store, plan.owner).Some?)
            && (r.Ok? ==> r.value == Answer(Source(c, src, store, plan.owner).value, plan)
                          || (Source(c, src, store, plan.owner).value == [] && r.value == Page([], plan.page, plan.limit, 0, false)))
  {
  }

  lemma EmptyAnswer(plan: Plan)
    requires plan.page > 0 && plan.limit > 0
    ensures Answer([], plan) == Page([], plan.page, plan.limit, 0, false)
  {
    ItemsCount([], None);
    assert Items([]) == [];
    NotNegative(plan.page - 1, plan.limit);
  }

  /** An accepted query succeeds exactly when there is something to list from, with a page of the whole. */
  lemma AnswerIsPage(c: Cache, src: Sources, store: Store, pageSize: int, q: Query)
    requires Acceptable(q, pageSize)
    ensures NormalizeSort(q.sort).Some?
    ensures var r, source := GetMyGigs(c, src, store, pageSize, q).1, Source(c, src, store, TrimSpace(q.userId));
            && (r.Ok? <==> source.Some?)
            && (r.Ok? ==> r.value == PaginateOwner(Whole(source.value, q), if q.page > 0 then q.page else 1, LimitAsked(q, pageSize)))
  {
    ValidatesExactly(q, pageSize);
    var plan := Validate(q, pageSize).value;
    ServesWhole(c, src, store, plan);
    EmptyAnswer(plan);
  }

  // ----- The pages of one query -----

  /** What the query lists when it asks for page `n`. */
  ghost function PageItems(c: Cache, src: Sources, store: Store, pageSize: int, q: Query, n: int): seq<Item> {
    var r := GetMyGigs(c, src, store, pageSize, Query(q.userId, q.status, q.sort, q.order, n, q.limit)).1;
    if r.Ok? then r.value.items else []
  }

  /** The query's pages 1..n. */
  ghost function PageList(c: Cache, src: Sources, store: Store, pageSize: int, q: Query, n: nat): (pages: seq<seq<Item>>)
    ensures |pages| == n && forall k :: 0 <= k < n ==> pages[k] == PageItems(c, src, store, pageSize, q, k + 1)
  {
    seq(n, k requires 0 <= k < n => PageItems(c, src, store, pageSize, q, k + 1))
  }

  lemma PageIsCut(c: Cache, src: Sources, store: Store, pageSize: int, q: Query, n: int)
    requires Acceptable(q, pageSize) && NormalizeSort(q.sort).Some? && Source(c, src, store, TrimSpace(q.userId)).Some? && n > 0
    ensures PageItems(c, src, store, pageSize, q, n)
            == PaginateOwner(Whole(Source(c, src, store, TrimSpace(q.userId)).value, q), n, LimitAsked(q, pageSize)).items
  {
    AnswerIsPage(c, src, store, pageSize, q.(page := n));
  }

  lemma PagesAreFirst(c: Cache, src: Sources, store: Store, pageSize: int, q: Query, pages: seq<seq<Item>>, all: seq<Item>, limit: int)
    requires forall k :: 0 <= k < |pages| ==> pages[k] == PageItems(c, src, store, pageSize, q, k + 1)
    requires Acceptable(q, pageSize) && NormalizeSort(q.sort).Some? && Source(c, src, store, TrimSpace(q.userId)).Some?
    requires all == Whole(Source(c, src, store, TrimSpace(q.userId)).value, q) && limit == LimitAsked(q, pageSize)
    ensures Joined(pages) == FirstPages(all, limit, |pages|)
  {
    forall k | 0 <= k < |pages|
      ensures pages[k] == PaginateOwner(all, k + 1, limit).items
    {
      PageIsCut(c, src, store, pageSize, q, k + 1);
    }
    JoinedAreFirst(pages, all, limit);
  }

  /** What the answer to a query is, by its own texts: refused as they say, or else a page of the previews of the status
      asked for, in the order asked for, with the number and the limit asked for. */
  ghost predicate Answered(c: Cache, src: Sources, store: Store, pageSize: int, q: Query, r: Result<Page<Item>, MyGigsError>) {
    && RefusedAs(q, pageSize, r)
    && (r.Ok? <==> Acceptable(q, pageSize) && Source(c, src, store, TrimSpace(q.userId)).Some?)
    && (r.Ok? ==> exists all: seq<Item> ::
          && Arranged(all, Source(c, src, store, TrimSpace(q.userId)).value, q)
          && PageOf(r.value, all, if q.page > 0 then q.page else 1, LimitAsked(q, pageSize)))
  }

  lemma QueryAnswered(c: Cache, src: Sources, store: Store, pageSize: int, q: Query)
    ensures Answered(c, src, store, pageSize, q, GetMyGigs(c, src, store, pageSize, q).1)
  {
    RefusedExactly(c, src, store, pageSize, q);
    ValidationRefuses(q, pageSize);
    if Acceptable(q, pageSize) {
      AnswerIsPage(c, src, store, pageSize, q);
      if Source(c, src, store, TrimSpace(q.userId)).Some? {
        var all := Whole(Source(c, src, store, TrimSpace(q.userId)).value, q);
        WholeIsArranged(Source(c, src, store, TrimSpace(q.userId)).value, q);
        PaginateCuts(all, q.page, LimitAsked(q, pageSize));
        PaginateCuts(all, if q.page > 0 then q.page else 1, LimitAsked(q, pageSize));
      }
    }
  }

  /** Main result. On the index path and on the rebuild path alike, the pages 1..totalPages of one query, concatenated, are
      exactly the previews of the status asked for, in the order of the sort asked for, ascending if and only if the
      trimmed order is "asc"; and every page, whatever its number, is cut from that list at the limit asked for. */
  lemma PagesOfQuery(c: Cache, src: Sources, store: Store, pageSize: int, q: Query)
    requires Acceptable(q, pageSize) && Source(c, src, store, TrimSpace(q.userId)).Some?
    ensures GetMyGigs(c, src, store, pageSize, q).1.Ok? && GetMyGigs(c, src, store, pageSize, q).1.value.totalPages >= 0
    ensures var all := Joined(PageList(c, src, store, pageSize, q, GetMyGigs(c, src, store, pageSize, q).1.value.totalPages));
            && Arranged(all, Source(c, src, store, TrimSpace(q.userId)).value, q)
            && forall n: int ::
                 GetMyGigs(c, src, store, pageSize, q.(page := n)).1.Ok?
                 && PageOf(GetMyGigs(c, src, store, pageSize, q.(page := n)).1.value, all, if n > 0 then n else 1, LimitAsked(q, pageSize))
  {
    AnswerIsPage(c, src, store, pageSize, q);
    var previews, limit := Source(c, src, store, TrimSpace(q.userId)).value, LimitAsked(q, pageSize);
    var all := Whole(previews, q);
    WholeIsArranged(previews, q);
    PagesPartition(all, limit);
    PagesAreFirst(c, src, store, pageSize, q, PageList(c, src, store, pageSize, q, PaginateOwner(all, 1, limit).totalPages), all, limit);
    forall n: int
      ensures GetMyGigs(c, src, store, pageSize, q.(page := n)).1.Ok?
      ensures PageOf(GetMyGigs(c, src, store, pageSize, q.(page := n)).1.value, all, if n > 0 then n else 1, limit)
    {
      AnswerIsPage(c, src, store, pageSize, q.(page := n));
      PaginateCuts(all, if n > 0 then n else 1, limit);
    }
  }
}
