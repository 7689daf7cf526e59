/** my_gigs.go: an owner's gig list, served from the owner index or rebuilt from the write model. */
module MyGigs {
  import opened Text
  import opened Wrappers
  import opened Preview
  import opened PreviewCache
  import opened OwnerPreview
  import opened Listing
  import opened Pages

  datatype Query = Query(userId: string, status: string, sort: string, order: string, page: int, limit: int)

  /** A query that passed validation. */
  datatype Plan = Plan(owner: string, status: string, key: SortKey, ascending: bool, page: int, limit: int)

  datatype MyGigsError =
    | InvalidFreelancerID
    | InvalidGigListStatus
    | InvalidGigListSort
    | InvalidGigListOrder
    | InvalidGigListLimit
    | StoreFailed
    | IndexFailed(error: CacheError)

  /** What the write model answers: all gigs, and a gig by id; None stands for an error. */
  datatype Store = Store(all: Option<seq<SourceGig>>, load: string -> Option<SourceGig>)

  function Validate(q: Query, pageSize: int): (r: Result<Plan, MyGigsError>)
    ensures r.Ok? ==> r.value.owner == TrimSpace(q.userId) != "" && r.value.page >= 1 && r.value.limit >= 1
  {
    var owner := TrimSpace(q.userId);
    var limit := if q.limit <= 0 then pageSize else q.limit;
    if owner == "" then Err(InvalidFreelancerID)
    else if NormalizeStatus(q.status).None? then Err(InvalidGigListStatus)
    else if NormalizeSort(q.sort).None? then Err(InvalidGigListSort)
    else if NormalizeOrder(q.order).None? then Err(InvalidGigListOrder)
    else if limit <= 0 then Err(InvalidGigListLimit)
    else
      Ok(Plan(owner, NormalizeStatus(q.status).value, NormalizeSort(q.sort).value, NormalizeOrder(q.order).value,
              AtLeastOne(q.page), limit))
  }

  /** The owner's gigs among the listed ones, each loaded again by its id. */
  function Owned(gigs: seq<SourceGig>, load: string -> Option<SourceGig>, owner: string): Option<seq<SourceGig>> {
    if gigs == [] then Some([])
    else if TrimSpace(gigs[0].freelancerId) != owner then Owned(gigs[1..], load, owner)
    else if load(gigs[0].id).None? then None
    else
      var rest := Owned(gigs[1..], load, owner);
      if rest.None? then None else Some([load(gigs[0].id).value] + rest.value)
  }

  /** Refreshes the preview of every gig and reads it back. A failed refresh is only logged. */
  function Rebuild(c: Cache, src: Sources, gigs: seq<SourceGig>): (Cache, Result<seq<GigPreview>, CacheError>)
    decreases |gigs|
  {
    if gigs == [] then (c, Ok([]))
    else
      var d := UpsertPreviewGig(c, src, gigs[0]).0;
      match PreviewCache.GetPreviewById(d, gigs[0].id)
      case Err(e) => (d, Err(e))
      case Ok(p) =>
        var rest := Rebuild(d, src, gigs[1..]);
        (rest.0, if rest.1.Ok? then Ok([p] + rest.1.value) else rest.1)
  }

  function Items(previews: seq<GigPreview>): (s: seq<Item>)
    ensures |s| == |previews|
    ensures forall i :: 0 <= i < |s| ==> s[i] == Some(previews[i])
  {
    seq(|previews|, i requires 0 <= i < |previews| => Some(previews[i]))
  }

  function Answer(previews: seq<GigPreview>, plan: Plan): Page<Item> {
    PaginateOwner(Listed(Items(previews), plan.status, plan.key, plan.ascending), plan.page, plan.limit)
  }

  function BuildFromSource(c: Cache, src: Sources, store: Store, plan: Plan): (Cache, Result<Page<Item>, MyGigsError>) {
    if store.all.None? || Owned(store.all.value, store.load, plan.owner).None? then (c, Err(StoreFailed))
    else
      var owned := Owned(store.all.value, store.load, plan.owner).value;
      if owned == [] then (c, Ok(Page([], plan.page, plan.limit, 0, false)))
      else
        var (d, r) := Rebuild(c, src, owned);
        (d, if r.Ok? then Ok(Answer(r.value, plan)) else Err(IndexFailed(r.error)))
  }

  /** Goes on with what the owner index lists. */
  function Serve(c: Cache, listed: Result<seq<GigPreview>, CacheError>, src: Sources, store: Store, plan: Plan)
      : (Cache, Result<Page<Item>, MyGigsError>) {
    match listed
    case Ok(previews) => (c, Ok(Answer(previews, plan)))
    case Err(e) => if e == CacheError.GigNotFound then BuildFromSource(c, src, store, plan) else (c, Err(IndexFailed(e)))
  }

  ghost function GetMyGigs(c: Cache, src: Sources, store: Store, pageSize: int, q: Query): (Cache, Result<Page<Item>, MyGigsError>) {
    match Validate(q, pageSize)
    case Err(e) => (c, Err(e))
    case Ok(plan) => Serve(c, ListOwnerPreviews(c, plan.owner), src, store, plan)
  }

  // ----- A miss, then a hit -----

  /** The gigs of one owner, as the write model keeps them: with distinct ids that are trimmed text. */
  ghost predicate OwnersGigs(gigs: seq<SourceGig>, owner: string) {
    && (forall i :: 0 <= i < |gigs| ==> TrimSpace(gigs[i].freelancerId) == owner)
    && (forall i :: 0 <= i < |gigs| ==> gigs[i].id != "" && Trimmed(gigs[i].id))
    && (forall i, j :: 0 <= i < j < |gigs| ==> gigs[i].id != gigs[j].id)
  }

  ghost predicate PopularityReadable(src: Sources, gigs: seq<SourceGig>) {
    forall i :: 0 <= i < |gigs| ==> !src.popularity(gigs[i].id).Broken?
  }

  function GigIds(gigs: seq<SourceGig>): set<string> {
    set i | 0 <= i < |gigs| :: gigs[i].id
  }

  lemma GigIdsCons(gigs: seq<SourceGig>)
    requires gigs != []
    ensures GigIds(gigs) == {gigs[0].id} + GigIds(gigs[1..])
  {
    forall a | a in GigIds(gigs)
      ensures a == gigs[0].id || a in GigIds(gigs[1..])
    {
      var i :| 0 <= i < |gigs| && gigs[i].id == a;
      assert i > 0 ==> gigs[1..][i - 1].id == a;
    }
    forall a | a in GigIds(gigs[1..])
      ensures a in GigIds(gigs)
    {
      var i :| 0 <= i < |gigs[1..]| && gigs[1..][i].id == a;
      assert gigs[i + 1].id == a;
    }
  }

  lemma UpsertWrites(c: Cache, src: Sources, g: SourceGig, owner: string)
    requires owner != "" && TrimSpace(g.freelancerId) == owner && g.id != "" && Trimmed(g.id)
    requires !src.popularity(g.id).Broken?
    ensures var d := UpsertPreviewGig(c, src, g).0;
            && d.payloads == c.payloads[g.id := FreshPreview(c, src, g)]
            && OwnerIndex(d, owner).Keys == OwnerIndex(c, owner).Keys + {g.id}
  {
    TrimSpaceTrims(g.freelancerId);
    TrimSpaceTrims(g.id);
  }

  /** The previews found are the gigs' payloads, and no other payload changed. */
  ghost predicate Refreshed(before: map<string, GigPreview>, after: map<string, GigPreview>, gigs: seq<SourceGig>, found: seq<GigPreview>) {
    && |found| == |gigs|
    && after.Keys == before.Keys + GigIds(gigs)
    && (forall a :: a in before && a !in GigIds(gigs) ==> after[a] == before[a])
    && (forall i :: 0 <= i < |gigs| ==> gigs[i].id in after && found[i].id == gigs[i].id && after[gigs[i].id] == found[i])
  }

  lemma RefreshedCons(before: map<string, GigPreview>, after: map<string, GigPreview>, gigs: seq<SourceGig>, p: GigPreview, rest: seq<GigPreview>)
    requires gigs != [] && p.id == gigs[0].id && gigs[0].id !in GigIds(gigs[1..])
    requires Refreshed(before[p.id := p], after, gigs[1..], rest)
    ensures Refreshed(before, after, gigs, [p] + rest)
  {
    GigIdsCons(gigs);
    forall i | 0 < i < |gigs|
      ensures gigs[i] == gigs[1..][i - 1]
    {
    }
  }

  lemma TailOfOwners(src: Sources, gigs: seq<SourceGig>, owner: string)
    requires gigs != [] && OwnersGigs(gigs, owner) && PopularityReadable(src, gigs)
    ensures OwnersGigs(gigs[1..], owner) && PopularityReadable(src, gigs[1..])
    ensures gigs[0].id !in GigIds(gigs[1..]) && TrimSpace(gigs[0].id) == gigs[0].id != ""
    ensures TrimSpace(gigs[0].freelancerId) == owner && Trimmed(gigs[0].id) && !src.popularity(gigs[0].id).Broken?
  {
    TrimSpaceTrims(gigs[0].id);
  }

  lemma RebuildStep(c: Cache, src: Sources, gigs: seq<SourceGig>, d: Cache, p: GigPreview)
    requires gigs != [] && d == UpsertPreviewGig(c, src, gigs[0]).0
    requires TrimSpace(gigs[0].id) == gigs[0].id != "" && d.payloads == c.payloads[gigs[0].id := p]
    ensures Rebuild(c, src, gigs).0 == Rebuild(d, src, gigs[1..]).0
    ensures Rebuild(d, src, gigs[1..]).1.Ok? ==> Rebuild(c, src, gigs).1 == Ok([p] + Rebuild(d, src, gigs[1..]).1.value)
  {
  }

  /** What a rebuild of the gigs makes of the cache. */
  ghost predicate Rebuilt(c: Cache, gigs: seq<SourceGig>, owner: string, d: Cache, r: Result<seq<GigPreview>, CacheError>) {
    && r.Ok?
    && OwnerIndex(d, owner).Keys == OwnerIndex(c, owner).Keys + GigIds(gigs)
    && Refreshed(c.payloads, d.payloads, gigs, r.value)
  }

  lemma RebuiltCons(c: Cache, gigs: seq<SourceGig>, owner: string, p: GigPreview, d: Cache, e: Cache, r: Result<seq<GigPreview>, CacheError>)
    requires gigs != [] && p.id == gigs[0].id && gigs[0].id !in GigIds(gigs[1..])
    requires d.payloads == c.payloads[p.id := p] && OwnerIndex(d, owner).Keys == OwnerIndex(c, owner).Keys + {p.id}
    requires Rebuilt(d, gigs[1..], owner, e, r)
    ensures Rebuilt(c, gigs, owner, e, Ok([p] + r.value))
  {
    GigIdsCons(gigs);
    RefreshedCons(c.payloads, e.payloads, gigs, p, r.value);
  }

  /** Every write succeeds, and what is read back in the loop is what stands in the cache in the end. */
  lemma {:induction false} RebuildWrites(c: Cache, src: Sources, gigs: seq<SourceGig>, owner: string)
    requires owner != "" && OwnersGigs(gigs, owner) && PopularityReadable(src, gigs)
    ensures Rebuilt(c, gigs, owner, Rebuild(c, src, gigs).0, Rebuild(c, src, gigs).1)
    decreases |gigs|
  {
    if gigs != [] {
      var d, p := UpsertPreviewGig(c, src, gigs[0]).0, FreshPreview(c, src, gigs[0]);
      TailOfOwners(src, gigs, owner);
      UpsertWrites(c, src, gigs[0], owner);
      RebuildStep(c, src, gigs, d, p);
      RebuildWrites(d, src, gigs[1..], owner);
      RebuiltCons(c, gigs, owner, p, d, Rebuild(d, src, gigs[1..]).0, Rebuild(d, src, gigs[1..]).1);
    }
  }

  lemma {:induction false} PayloadKeysOfTrimmed(ids: seq<string>)
    requires forall i :: 0 <= i < |ids| ==> Trimmed(ids[i])
    ensures forall a :: a in PayloadKeys(ids) <==> a in ids && a != ""
    ensures (forall i, j :: 0 <= i < j < |ids| ==> ids[i] != ids[j]) ==>
              forall i, j :: 0 <= i < j < |PayloadKeys(ids)| ==> PayloadKeys(ids)[i] != PayloadKeys(ids)[j]
  {
    if ids != [] {
      TrimSpaceTrims(ids[0]);
      PayloadKeysOfTrimmed(ids[1..]);
      if (forall i, j :: 0 <= i < j < |ids| ==> ids[i] != ids[j]) {
        assert ids[0] !in ids[1..];
      }
    }
  }

  lemma {:induction false} PayloadsFound(payloads: map<string, GigPreview>, keys: seq<string>)
    ensures forall p :: p in Payloads(payloads, keys) <==> exists a :: a in keys && a in payloads && payloads[a] == p
  {
    if keys != [] {
      PayloadsFound(payloads, keys[1..]);
      assert forall a :: a in keys <==> a == keys[0] || a in keys[1..];
    }
  }

  lemma {:induction false} PayloadsDistinct(payloads: map<string, GigPreview>, keys: seq<string>)
    requires forall i, j :: 0 <= i < j < |keys| ==> keys[i] != keys[j]
    requires forall a :: a in keys && a in payloads ==> payloads[a].id == a
    ensures DistinctIds(Payloads(payloads, keys))
  {
    if keys != [] {
      PayloadsDistinct(payloads, keys[1..]);
      PayloadsFound(payloads, keys[1..]);
      assert keys[0] !in keys[1..];
      var rest := Payloads(payloads, keys[1..]);
      if keys[0] in payloads {
        forall i | 0 <= i < |rest|
          ensures rest[i].id != keys[0]
        {
          assert rest[i] in rest;
        }
      }
    }
  }

  /** The keys a listing of the owner asks for. */
  ghost function OwnerKeys(c: Cache, owner: string): seq<string> {
    PayloadKeys(RevRange(OwnerIndex(c, owner)))
  }

  lemma OwnerKeysOf(c: Cache, owner: string)
    requires forall a :: a in OwnerIndex(c, owner) ==> Trimmed(a)
    ensures forall a :: a in OwnerKeys(c, owner) <==> a in OwnerIndex(c, owner) && a != ""
    ensures forall i, j :: 0 <= i < j < |OwnerKeys(c, owner)| ==> OwnerKeys(c, owner)[i] != OwnerKeys(c, owner)[j]
  {
    var ids := RevRange(OwnerIndex(c, owner));
    RevRangeSorted(OwnerIndex(c, owner));
    forall i | 0 <= i < |ids|
      ensures Trimmed(ids[i])
    {
      assert ids[i] in ids;
    }
    PayloadKeysOfTrimmed(ids);
  }

  lemma NoneFound(payloads: map<string, GigPreview>, keys: seq<string>)
    requires Payloads(payloads, keys) == []
    ensures forall a :: a in keys ==> a !in payloads
  {
    PayloadsFound(payloads, keys);
    forall a | a in keys
      ensures a in payloads ==> payloads[a] in Payloads(payloads, keys)
    {
    }
  }

  /** Where the index had no preview before, it holds exactly the rebuilt ones afterwards. */
  lemma IndexHoldsRebuilt(before: Cache, after: Cache, gigs: seq<SourceGig>, found: seq<GigPreview>, owner: string)
    requires OwnersGigs(gigs, owner) && Refreshed(before.payloads, after.payloads, gigs, found)
    requires forall a :: a in OwnerIndex(before, owner) ==> Trimmed(a)
    requires Payloads(before.payloads, OwnerKeys(before, owner)) == []
    requires OwnerIndex(after, owner).Keys == OwnerIndex(before, owner).Keys + GigIds(gigs)
    ensures multiset(Payloads(after.payloads, OwnerKeys(after, owner))) == multiset(found)
  {
    var keys := OwnerKeys(after, owner);
    OwnerKeysOf(before, owner);
    OwnerKeysOf(after, owner);
    NoneFound(before.payloads, OwnerKeys(before, owner));
    PayloadsFound(after.payloads, keys);
    forall a | a in keys && a in after.payloads
      ensures a in GigIds(gigs) && after.payloads[a].id == a && after.payloads[a] in found
    {
      assert a in before.payloads ==> a !in OwnerKeys(before, owner);
      var i :| 0 <= i < |gigs| && gigs[i].id == a;
      assert found[i] == after.payloads[a];
    }
    PayloadsDistinct(after.payloads, keys);
    forall i | 0 <= i < |found|
      ensures found[i] in Payloads(after.payloads, keys)
    {
      assert gigs[i].id in GigIds(gigs) && gigs[i].id in keys;
    }
    SameMembers(Payloads(after.payloads, keys), found);
  }

  /** One answer for any arrangement of previews with distinct trimmed ids. */
  lemma AnswerIgnoresOrder(a: seq<GigPreview>, b: seq<GigPreview>, plan: Plan)
    requires multiset(a) == multiset(b)
    requires forall p, q :: p in a && q in a && p != q ==> TrimSpace(p.id) != TrimSpace(q.id)
    ensures Answer(a, plan) == Answer(b, plan)
  {
    ItemsMultiset(a, b);
    ListingIgnoresInputOrder(Items(a), Items(b), plan.status, plan.key, plan.ascending);
  }

  lemma {:induction false} ItemsCount(a: seq<GigPreview>, x: Item)
    ensures multiset(Items(a))[x] == if x.Some? then multiset(a)[x.value] else 0
  {
    if a != [] {
      var n := |a| - 1;
      ItemsCount(a[..n], x);
      assert Items(a) == Items(a[..n]) + [Some(a[n])];
      assert a == a[..n] + [a[n]];
    } else {
      assert Items(a) == [];
    }
  }

  lemma ItemsMultiset(a: seq<GigPreview>, b: seq<GigPreview>)
    requires multiset(a) == multiset(b)
    ensures multiset(Items(a)) == multiset(Items(b))
  {
    forall x
      ensures multiset(Items(a))[x] == multiset(Items(b))[x]
    {
      ItemsCount(a, x);
      ItemsCount(b, x);
    }
  }

  lemma OwnIdsDiffer(gigs: seq<SourceGig>, owner: string, found: seq<GigPreview>)
    requires OwnersGigs(gigs, owner) && |found| == |gigs| && forall i :: 0 <= i < |gigs| ==> found[i].id == gigs[i].id
    ensures forall p, q :: p in found && q in found && p != q ==> TrimSpace(p.id) != TrimSpace(q.id)
  {
    forall p, q | p in found && q in found && p != q
      ensures TrimSpace(p.id) != TrimSpace(q.id)
    {
      var i :| 0 <= i < |found| && found[i] == p;
      var j :| 0 <= j < |found| && found[j] == q;
      TrimSpaceTrims(gigs[i].id);
      TrimSpaceTrims(gigs[j].id);
      assert i < j || j < i;
    }
  }

  /** A rebuild after a miss leaves an index that lists what was rebuilt. */
  lemma RebuiltIsListed(c: Cache, src: Sources, gigs: seq<SourceGig>, owner: string)
    requires owner != "" && TrimSpace(owner) == owner && gigs != []
    requires ListOwnerPreviews(c, owner) == Err(CacheError.GigNotFound)
    requires forall a :: a in OwnerIndex(c, owner) ==> Trimmed(a)
    requires OwnersGigs(gigs, owner) && PopularityReadable(src, gigs)
    ensures Rebuild(c, src, gigs).1.Ok? && ListOwnerPreviews(Rebuild(c, src, gigs).0, owner).Ok?
    ensures multiset(ListOwnerPreviews(Rebuild(c, src, gigs).0, owner).value) == multiset(Rebuild(c, src, gigs).1.value)
    ensures forall p, q :: p in Rebuild(c, src, gigs).1.value && q in Rebuild(c, src, gigs).1.value && p != q ==>
              TrimSpace(p.id) != TrimSpace(q.id)
  {
    RebuildWrites(c, src, gigs, owner);
    var d, found := Rebuild(c, src, gigs).0, Rebuild(c, src, gigs).1.value;
    IndexHoldsRebuilt(c, d, gigs, found, owner);
    assert |multiset(Payloads(d.payloads, OwnerKeys(d, owner)))| == |multiset(found)|;
    OwnIdsDiffer(gigs, owner, found);
  }

  lemma MissAnswers(c: Cache, listed: Result<seq<GigPreview>, CacheError>, src: Sources, store: Store, plan: Plan, gigs: seq<SourceGig>)
    requires listed == Err(CacheError.GigNotFound)
    requires store.all.Some? && Owned(store.all.value, store.load, plan.owner) == Some(gigs) && gigs != []
    requires Rebuild(c, src, gigs).1.Ok?
    ensures Serve(c, listed, src, store, plan)
            == (Rebuild(c, src, gigs).0, Ok(Answer(Rebuild(c, src, gigs).1.value, plan)))
  {
  }

  /** A cache that holds nothing yet misses for every owner, and its index is in order. */
  lemma EmptyCacheMisses(owner: string)
    requires TrimSpace(owner) != ""
    ensures var c := Cache(map[], map[], map[]);
            && ListOwnerPreviews(c, owner) == Err(CacheError.GigNotFound)
            && forall a :: a in OwnerIndex(c, owner) ==> Trimmed(a)
  {
    RevRangeSorted(map[]);
  }

  /** A rebuild moves no order count and no rating. */
  lemma {:induction false} RebuildKeepsCounts(c: Cache, src: Sources, gigs: seq<SourceGig>)
    requires SelfKeyed(c)
    ensures SelfKeyed(Rebuild(c, src, gigs).0) && CountsKept(c, Rebuild(c, src, gigs).0)
    decreases |gigs|
  {
    if gigs != [] {
      var d := UpsertPreviewGig(c, src, gigs[0]).0;
      UpsertKeyed(c, src, gigs[0]);
      forall a | a in c.payloads && a != ""
        ensures a in d.payloads && SameCounts(c.payloads[a], d.payloads[a])
      {
        UpsertCarries(c, src, gigs[0], a);
      }
      if PreviewCache.GetPreviewById(d, gigs[0].id).Ok? {
        RebuildKeepsCounts(d, src, gigs[1..]);
      }
    }
  }

  ghost predicate CountsKept(c: Cache, d: Cache) {
    forall a :: a in c.payloads && a != "" ==> a in d.payloads && SameCounts(c.payloads[a], d.payloads[a])
  }

  /** The owner's listing moves none either, and a hit changes nothing at all. */
  lemma MyGigsKeep(c: Cache, src: Sources, store: Store, pageSize: int, q: Query)
    requires SelfKeyed(c)
    ensures var d := GetMyGigs(c, src, store, pageSize, q).0;
            && SelfKeyed(d) && CountsKept(c, d)
            && (ListOwnerPreviews(c, TrimSpace(q.userId)).Ok? ==> d == c)
  {
    var owner := TrimSpace(q.userId);
    if store.all.Some? && Owned(store.all.value, store.load, owner).Some? {
      RebuildKeepsCounts(c, src, Owned(store.all.value, store.load, owner).value);
    }
  }

  /** The owner's index is empty, and the write model answers with the owner's gigs. */
  ghost predicate MissesCleanly(c: Cache, src: Sources, store: Store, owner: string) {
    && ListOwnerPreviews(c, owner) == Err(CacheError.GigNotFound)
    && (forall a :: a in OwnerIndex(c, owner) ==> Trimmed(a))
    && store.all.Some? && Owned(store.all.value, store.load, owner).Some?
    && var gigs := Owned(store.all.value, store.load, owner).value;
       gigs != [] && OwnersGigs(gigs, owner) && PopularityReadable(src, gigs)
  }

  /** Asked again, whatever the write model says by then, the query changes nothing and has the same answer. */
  ghost predicate ServedFromIndex(c: Cache, pageSize: int, q: Query, r: Result<Page<Item>, MyGigsError>) {
    forall src, store :: GetMyGigs(c, src, store, pageSize, q) == (c, r)
  }

  lemma MissIsServed(c: Cache, src: Sources, store: Store, pageSize: int, q: Query)
    requires Validate(q, pageSize).Ok? && MissesCleanly(c, src, store, TrimSpace(q.userId))
    ensures var (d, r) := GetMyGigs(c, src, store, pageSize, q); r.Ok? && ServedFromIndex(d, pageSize, q, r)
  {
    var gigs := Owned(store.all.value, store.load, TrimSpace(q.userId)).value;
    var (d, r) := GetMyGigs(c, src, store, pageSize, q);
    forall src', store'
      ensures GetMyGigs(d, src', store', pageSize, q) == (d, r)
    {
      MissThenHit(c, src, store, pageSize, q, gigs, src', store', q);
    }
    MissThenHit(c, src, store, pageSize, q, gigs, src, store, q);
  }

  /** Main result. When a query misses the owner index and rebuilds it with every cache write succeeding,
      the owner's queries afterwards are served from the index, change nothing, and give every page,
      total and `hasMore` exactly as the rebuild gives them, whatever the filter, the order and the page. */
  lemma MissThenHit(c: Cache, src: Sources, store: Store, pageSize: int, q: Query, gigs: seq<SourceGig>,
                    src': Sources, store': Store, q': Query)
    requires Validate(q, pageSize).Ok? && Validate(q', pageSize).Ok? && TrimSpace(q'.userId) == TrimSpace(q.userId)
    requires ListOwnerPreviews(c, TrimSpace(q.userId)) == Err(CacheError.GigNotFound)
    requires forall a :: a in OwnerIndex(c, TrimSpace(q.userId)) ==> Trimmed(a)
    requires store.all.Some? && Owned(store.all.value, store.load, TrimSpace(q.userId)) == Some(gigs)
    requires gigs != [] && OwnersGigs(gigs, TrimSpace(q.userId)) && PopularityReadable(src, gigs)
    ensures GetMyGigs(c, src, store, pageSize, q).1.Ok?
    ensures var d := GetMyGigs(c, src, store, pageSize, q).0;
            && ListOwnerPreviews(d, TrimSpace(q.userId)).Ok?
            && GetMyGigs(d, src', store', pageSize, q') == (d, GetMyGigs(c, src, store, pageSize, q').1)
  {
    var owner := TrimSpace(q.userId);
    TrimSpaceTrims(q.userId);
    RebuiltIsListed(c, src, gigs, owner);
    var d, found := Rebuild(c, src, gigs).0, Rebuild(c, src, gigs).1.value;
    var plan, plan' := Validate(q, pageSize).value, Validate(q', pageSize).value;
    MissAnswers(c, ListOwnerPreviews(c, owner), src, store, plan, gigs);
    MissAnswers(c, ListOwnerPreviews(c, owner), src, store, plan', gigs);
    AnswerIgnoresOrder(found, ListOwnerPreviews(d, owner).value, plan');
  }
}
