/** my_gigs.go, paginateOwnerGigs, and preview.go, paginatePreviewItems. */
module Pages {

  datatype Page<T> = Page(items: seq<T>, page: int, limit: int, totalPages: int, hasMore: bool)

  const DEFAULT_LIMIT := 10

  function AtLeastOne(page: int): int {
    if page <= 0 then 1 else page
  }

  function LimitOf(limit: int): int {
    if limit <= 0 then DEFAULT_LIMIT else limit
  }

  function PaginateOwner<T>(items: seq<T>, page: int, limit: int): Page<T> {
    var p, l := AtLeastOne(page), LimitOf(limit);
    var start := (p - 1) * l;
    if start >= |items| then
      Page([], p, l, if |items| > 0 then (|items| + l - 1) / l else 0, false)
    else
      assert start >= 0;
      var end := if start + l > |items| then |items| else start + l;
      Page(items[start..end], p, l, if |items| > 0 then (|items| + l - 1) / l else 0, end < |items|)
  }

  function PaginatePreview<T>(items: seq<T>, page: int, limit: int): Page<T> {
    var p, l := AtLeastOne(page), LimitOf(limit);
    var totalPages := if |items| > 0 then (|items| + l - 1) / l else 0;
    var start := (p - 1) * l;
    if start >= |items| then Page([], p, l, totalPages, false)
    else
      assert start >= 0;
      var end := if start + l > |items| then |items| else start + l;
      Page(items[start..end], p, l, totalPages, end < |items|)
  }

  /** Both functions give the same page for every list, page number and limit. */
  lemma PaginatorsAgree<T>(items: seq<T>, page: int, limit: int)
    ensures PaginateOwner(items, page, limit) == PaginatePreview(items, page, limit)
  {
  }

  function TotalPages(n: nat, l: int): (t: nat)
    requires l > 0
  {
    (n + l - 1) / l
  }

  /** The number of pages is the least that covers the list. */
  lemma TotalPagesCovers(n: nat, l: int)
    requires l > 0
    ensures TotalPages(n, l) * l >= n
    ensures n > 0 ==> (TotalPages(n, l) - 1) * l < n
  {
    var t := TotalPages(n, l);
    var r := (n + l - 1) % l;
    assert n + l - 1 == t * l + r;
    assert (t - 1) * l == t * l - l;
  }

  lemma TimesMonotone(a: int, b: int, l: int)
    requires a <= b && l > 0
    ensures a * l <= b * l
  {
  }

  /** The pages 1..n, one after the other. */
  function FirstPages<T>(items: seq<T>, limit: int, n: nat): seq<T> {
    if n == 0 then [] else FirstPages(items, limit, n - 1) + PaginateOwner(items, n, limit).items
  }

  function Prefix<T>(items: seq<T>, k: int): seq<T>
    requires k >= 0
  {
    if k <= |items| then items[..k] else items
  }

  /** The `l` items from `start` on, as far as there are any. */
  function Slice<T>(items: seq<T>, start: int, l: int): seq<T>
    requires start >= 0 && l > 0
  {
    if start >= |items| then [] else if start + l > |items| then items[start..] else items[start..start + l]
  }

  lemma PrefixExtends<T>(items: seq<T>, start: int, l: int)
    requires start >= 0 && l > 0
    ensures Prefix(items, start) + Slice(items, start, l) == Prefix(items, start + l)
  {
  }

  lemma PageIsSlice<T>(items: seq<T>, limit: int, n: nat, start: int)
    requires n > 0 && start == (n - 1) * LimitOf(limit) && start >= 0
    ensures PaginateOwner(items, n, limit).items == Slice(items, start, LimitOf(limit))
  {
  }

  lemma NotNegative(n: nat, l: int)
    requires l > 0
    ensures n * l >= 0
  {
  }

  lemma {:induction false} FirstPagesPrefix<T>(items: seq<T>, limit: int, n: nat, covered: int)
    requires covered == n * LimitOf(limit)
    ensures covered >= 0 && FirstPages(items, limit, n) == Prefix(items, covered)
    decreases n
  {
    var l := LimitOf(limit);
    NotNegative(n, l);
    if n > 0 {
      var start := (n - 1) * l;
      assert covered == start + l;
      FirstPagesPrefix(items, limit, n - 1, start);
      PageIsSlice(items, limit, n, start);
      PrefixExtends(items, start, l);
    }
  }

  /** One page: full before the last, empty after it, and with more to come exactly before it. */
  lemma PageShape<T>(items: seq<T>, limit: int, p: int)
    requires p >= 1
    ensures var l := LimitOf(limit);
            var t := TotalPages(|items|, l);
            var page := PaginateOwner(items, p, limit);
            && page.totalPages == t
            && (p < t ==> |page.items| == l)
            && (p == t ==> 0 < |page.items| <= l)
            && (p > t ==> page.items == [])
            && (page.hasMore <==> p < t)
  {
    var l := LimitOf(limit);
    var t := TotalPages(|items|, l);
    TotalPagesCovers(|items|, l);
    assert (p - 1) * l + l == p * l;
    if p < t {
      TimesMonotone(p, t - 1, l);
    } else if p > t {
      TimesMonotone(t, p - 1, l);
    }
  }

  /** Main result. For every list and limit the pages 1..totalPages, concatenated, are the list; every page
      but the last is full; pages behind the last are empty; and `hasMore` holds exactly before the last. */
  lemma PagesPartition<T>(items: seq<T>, limit: int)
    ensures var l := LimitOf(limit);
            var t := PaginateOwner(items, 1, limit).totalPages;
            && t >= 0
            && FirstPages(items, limit, t) == items
            && (forall p :: 1 <= p < t ==> |PaginateOwner(items, p, limit).items| == l)
            && (forall p :: p > t && p >= 1 ==> PaginateOwner(items, p, limit).items == [])
            && (forall p :: p >= 1 ==> (PaginateOwner(items, p, limit).hasMore <==> p < t))
            && (forall p :: p >= 1 ==> PaginateOwner(items, p, limit).totalPages == t)
  {
    var l := LimitOf(limit);
    var t := TotalPages(|items|, l);
    forall p | p >= 1
      ensures PaginateOwner(items, p, limit).totalPages == t
      ensures p < t ==> |PaginateOwner(items, p, limit).items| == l
      ensures p > t ==> PaginateOwner(items, p, limit).items == []
      ensures PaginateOwner(items, p, limit).hasMore <==> p < t
    {
      PageShape(items, limit, p);
    }
    TotalPagesCovers(|items|, l);
    FirstPagesPrefix(items, limit, t, t * l);
    assert t * l == |items| ==> items[..t * l] == items;
  }

  /** One page after the other. */
  function Joined<T>(pages: seq<seq<T>>): seq<T> {
    if pages == [] then [] else Joined(pages[..|pages| - 1]) + pages[|pages| - 1]
  }

  lemma {:induction false} JoinedAreFirst<T>(pages: seq<seq<T>>, items: seq<T>, limit: int)
    requires forall k :: 0 <= k < |pages| ==> pages[k] == PaginateOwner(items, k + 1, limit).items
    ensures Joined(pages) == FirstPages(items, limit, |pages|)
  {
    if pages != [] {
      JoinedAreFirst(pages[..|pages| - 1], items, limit);
    }
  }

  /** Page `number` of a list: up to `limit` items from position (number - 1) * limit on. More follow exactly if the list
      goes on behind them, and the number of pages is the least that covers the list. */
  predicate PageOf<T(==)>(page: Page<T>, all: seq<T>, number: int, limit: int) {
    var start := (number - 1) * limit;
    && limit > 0 && number > 0 && start >= 0
    && page.page == number && page.limit == limit
    && |page.items| == (if |all| <= start then 0 else if |all| <= start + limit then |all| - start else limit)
    && (forall k :: 0 <= k < |page.items| ==> page.items[k] == all[start + k])
    && (page.hasMore <==> start + limit < |all|)
    && page.totalPages * limit >= |all|
    && (if |all| == 0 then page.totalPages == 0 else (page.totalPages - 1) * limit < |all|)
  }

  /** Both functions cut that page: page numbers below one ask for the first. */
  lemma PaginateCuts<T>(items: seq<T>, page: int, limit: int)
    requires limit > 0
    ensures PageOf(PaginateOwner(items, page, limit), items, if page > 0 then page else 1, limit)
  {
    var p := if page > 0 then page else 1;
    TotalPagesCovers(|items|, limit);
    NotNegative(p - 1, limit);
  }

  const INT32_MIN := -0x8000_0000
  const INT32_MAX := 0x7FFF_FFFF

  predicate FitsInt64(n: int) {
    -0x8000_0000_0000_0000 <= n <= 0x7FFF_FFFF_FFFF_FFFF
  }

  /** With page and limit from int32 and a list of at most 2^62 items, no product or sum of the page
      computation leaves the range of a 64-bit integer. */
  lemma PagesNeverOverflow(n: nat, page: int, limit: int)
    requires INT32_MIN <= page <= INT32_MAX && INT32_MIN <= limit <= INT32_MAX
    requires n <= 0x4000_0000_0000_0000
    ensures var p, l := AtLeastOne(page), LimitOf(limit);
            && FitsInt64((p - 1) * l)
            && FitsInt64((p - 1) * l + l)
            && FitsInt64(n + l - 1)
  {
    var p, l := AtLeastOne(page), LimitOf(limit);
    TimesMonotone(p - 1, INT32_MAX, l);
    assert INT32_MAX * l <= INT32_MAX * INT32_MAX;
  }
}
