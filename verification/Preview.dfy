/** The gig preview read model and the orders it is listed in. */
module Preview {
  import opened Text
  import opened Wrappers
  import opened Ordering

  /** A preview, without the fields that are only copied for display. Times are in nanoseconds. */
  datatype GigPreview = GigPreview(
    id: string,
    freelancerId: string,
    status: string,
    minimumPriceCents: int,
    popularityScore: int,
    publishedAt: Option<int>,
    updatedAt: int,
    createdAt: int,
    ratingAvg: real,
    totalReviews: int,
    orderCount: int)

  /** preview.go: descending score, ties by descending id. */
  predicate PopularBefore(a: GigPreview, b: GigPreview) {
    if a.popularityScore == b.popularityScore then Less(b.id, a.id) else a.popularityScore > b.popularityScore
  }

  function ByPopularity(): (GigPreview, GigPreview) -> bool {
    (a, b) => PopularBefore(a, b)
  }

  lemma PopularityOrder()
    ensures StrictWeak(ByPopularity())
  {
    RankedOrder(ByPopularity(), (p: GigPreview) => (0, p.popularityScore as real), (p: GigPreview) => p.id, false);
  }

  /** No two previews of the list have one id. */
  ghost predicate DistinctIds(s: seq<GigPreview>) {
    forall i, j :: 0 <= i < j < |s| ==> s[i].id != s[j].id
  }

  lemma DistinctSeparates(s: seq<GigPreview>)
    requires DistinctIds(s)
    ensures Separates(ByPopularity(), s)
  {
    forall x, y | x in s && y in s && x != y
      ensures x.id != y.id
    {
      var i :| 0 <= i < |s| && s[i] == x;
      var j :| 0 <= j < |s| && s[j] == y;
      assert i < j || j < i;
    }
    RankedSeparates(ByPopularity(), (p: GigPreview) => (0, p.popularityScore as real), (p: GigPreview) => p.id, false, s);
  }

  function Ids(s: seq<GigPreview>): set<string> {
    set i | 0 <= i < |s| :: s[i].id
  }

  /** Two lists with distinct ids and the same members are permutations of each other. */
  lemma {:induction false} SameMembers(a: seq<GigPreview>, b: seq<GigPreview>)
    requires DistinctIds(a) && DistinctIds(b)
    requires forall x :: x in a <==> x in b
    ensures multiset(a) == multiset(b)
  {
    forall x
      ensures multiset(a)[x] == multiset(b)[x]
    {
      OnceEach(a, x);
      OnceEach(b, x);
    }
  }

  lemma {:induction false} OnceEach(s: seq<GigPreview>, x: GigPreview)
    requires DistinctIds(s)
    ensures multiset(s)[x] == if x in s then 1 else 0
  {
    if s != [] {
      var n := |s| - 1;
      OnceEach(s[..n], x);
      assert s == s[..n] + [s[n]];
    }
  }
}
