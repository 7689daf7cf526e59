/** my_gigs.go and preview.go: filtering, ordering and paging of gig previews. */
module Listing {
  import opened Text
  import opened Wrappers
  import opened Ordering
  import opened Preview

  /** A preview pointer, which may be nil. */
  type Item = Option<GigPreview>

  datatype SortKey = CreatedAt | UpdatedAt | PublishedAt | RatingAvg | TotalReviews | OrderCount

  // ----- Query normalization -----

  function NormalizeStatus(raw: string): Option<string> {
    var s := TrimSpace(raw);
    if s in ["", "draft", "published", "paused", "archived"] then Some(s) else None
  }

  function NormalizeSort(raw: string): Option<SortKey> {
    var s := TrimSpace(raw);
    if s == "" || s == "updated_at" then Some(UpdatedAt)
    else if s == "created_at" then Some(CreatedAt)
    else if s == "published_at" then Some(PublishedAt)
    else if s == "rating_avg" then Some(RatingAvg)
    else if s == "total_reviews" then Some(TotalReviews)
    else if s == "order_count" then Some(OrderCount)
    else None
  }

  /** Some(true) is ascending. */
  function NormalizeOrder(raw: string): Option<bool> {
    var s := TrimSpace(raw);
    if s == "" || s == "desc" then Some(false) else if s == "asc" then Some(true) else None
  }

  /** The name a query asks for an order by. */
  function SortName(key: SortKey): string {
    match key
    case CreatedAt => "created_at"
    case UpdatedAt => "updated_at"
    case PublishedAt => "published_at"
    case RatingAvg => "rating_avg"
    case TotalReviews => "total_reviews"
    case OrderCount => "order_count"
  }

  /** A query's sort is understood if and only if it is blank, meaning the update time, or a sort key's
      name with any white space around it, meaning that key. */
  lemma SortsByName(raw: string, key: SortKey)
    ensures NormalizeSort(raw) == Some(key) <==> TrimSpace(raw) == SortName(key) || (TrimSpace(raw) == "" && key == UpdatedAt)
  {
    assert |SortName(CreatedAt)| == |SortName(UpdatedAt)| == 10;
    assert SortName(CreatedAt)[0] != SortName(UpdatedAt)[0] && SortName(RatingAvg)[0] != SortName(CreatedAt)[0];
    assert SortName(RatingAvg)[0] != SortName(UpdatedAt)[0];
    assert |SortName(PublishedAt)| == 12 && |SortName(TotalReviews)| == 13 && |SortName(OrderCount)| == 11;
  }

  // ----- Filter -----

  /** Simple folding as far as it concerns ASCII letters: case, the long s and the Kelvin sign. */
  function Fold(c: char): char {
    if 'A' <= c <= 'Z' then (c as int + 32) as char
    else if c as int == 0x17F then 's'
    else if c as int == 0x212A then 'k'
    else c
  }

  /** `strings.EqualFold` against ASCII text. */
  predicate EqualFold(s: string, t: string) {
    |s| == |t| && forall i :: 0 <= i < |s| ==> Fold(s[i]) == Fold(t[i])
  }

  /** On ASCII text it is equality apart from the case of letters. */
  lemma FoldsCase(s: string, t: string)
    requires forall i :: 0 <= i < |s| ==> s[i] as int < 0x80
    requires forall i :: 0 <= i < |t| ==> t[i] as int < 0x80
    ensures EqualFold(s, t) <==> ToLower(s) == ToLower(t)
  {
    if |s| == |t| {
      forall i | 0 <= i < |s|
        ensures Fold(s[i]) == LowerChar(s[i]) && Fold(t[i]) == LowerChar(t[i])
      {
      }
    }
  }

  predicate Keeps(status: string, item: Item) {
    status == "" || (item.Some? && EqualFold(TrimSpace(item.value.status), status))
  }

  function Filter(items: seq<Item>, status: string): seq<Item> {
    if items == [] then []
    else (if Keeps(status, items[0]) then [items[0]] else []) + Filter(items[1..], status)
  }

  method FilterOwnerGigs(items: seq<Item>, status: string) returns (kept: seq<Item>)
    ensures kept == Filter(items, status)
  {
    if status == "" {
      FilterNothing(items);
      return items;
    }
    kept := [];
    for i := 0 to |items|
      invariant kept + Filter(items[i..], status) == Filter(items, status)
    {
      assert items[i..][1..] == items[i + 1..];
      if items[i].Some? && EqualFold(TrimSpace(items[i].value.status), status) {
        kept := kept + [items[i]];
      }
    }
    assert items[|items|..] == [];
  }

  lemma {:induction false} FilterNothing(items: seq<Item>)
    ensures Filter(items, "") == items
  {
    if items != [] {
      FilterNothing(items[1..]);
    }
  }

  lemma {:induction false} FilterCount(items: seq<Item>, status: string, x: Item)
    ensures multiset(Filter(items, status))[x] == if Keeps(status, x) then multiset(items)[x] else 0
  {
    if items != [] {
      FilterCount(items[1..], status, x);
      assert items == [items[0]] + items[1..];
    }
  }

  // ----- Order -----

  function Sign(less: bool, greater: bool): int {
    if less then -1 else if greater then 1 else 0
  }

  function CompareOptional(l: Option<int>, r: Option<int>): int {
    if l.None? && r.None? then 0
    else if l.None? then -1
    else if r.None? then 1
    else Sign(l.value < r.value, r.value < l.value)
  }

  /** compareOwnerGig. */
  function Compare(l: GigPreview, r: GigPreview, key: SortKey): int {
    match key
    case CreatedAt => Sign(l.createdAt < r.createdAt, r.createdAt < l.createdAt)
    case UpdatedAt => Sign(l.updatedAt < r.updatedAt, r.updatedAt < l.updatedAt)
    case PublishedAt => CompareOptional(l.publishedAt, r.publishedAt)
    case RatingAvg => Sign(l.ratingAvg < r.ratingAvg, l.ratingAvg > r.ratingAvg)
    case TotalReviews => Sign(l.totalReviews < r.totalReviews, l.totalReviews > r.totalReviews)
    case OrderCount => Sign(l.orderCount < r.orderCount, l.orderCount > r.orderCount)
  }

  /** The less function of sortOwnerGigs. */
  predicate GigBefore(l: Item, r: Item, key: SortKey, ascending: bool) {
    if l.None? || r.None? then r.Some?
    else
      var cmp := Compare(l.value, r.value, key);
      if cmp == 0 then Less(TrimSpace(r.value.id), TrimSpace(l.value.id))
      else if ascending then cmp < 0
      else cmp > 0
  }

  function ByKey(key: SortKey, ascending: bool): (Item, Item) -> bool {
    (l, r) => GigBefore(l, r, key, ascending)
  }

  /** Nil stands first in either direction; an unpublished gig ranks below every published one. */
  function RankOf(x: Item, key: SortKey, ascending: bool): Rank {
    if x.None? then (if ascending then -1 else 2, 0.0)
    else
      var p := x.value;
      match key
      case CreatedAt => (0, p.createdAt as real)
      case UpdatedAt => (0, p.updatedAt as real)
      case PublishedAt => if p.publishedAt.None? then (0, 0.0) else (1, p.publishedAt.value as real)
      case RatingAvg => (0, p.ratingAvg)
      case TotalReviews => (0, p.totalReviews as real)
      case OrderCount => (0, p.orderCount as real)
  }

  function IdOf(x: Item): string {
    if x.None? then "" else TrimSpace(x.value.id)
  }

  lemma CompareIsRank(l: Item, r: Item, key: SortKey, ascending: bool)
    requires l.Some? && r.Some?
    ensures var a, b := RankOf(l, key, ascending), RankOf(r, key, ascending);
            && (Compare(l.value, r.value, key) == 0 <==> a == b)
            && (Compare(l.value, r.value, key) < 0 <==> RankLess(a, b))
            && (Compare(l.value, r.value, key) > 0 <==> RankLess(b, a))
  {
  }

  lemma ByKeyRanked(key: SortKey, ascending: bool)
    ensures OrderedBy(ByKey(key, ascending), (x: Item) => RankOf(x, key, ascending), (x: Item) => IdOf(x), ascending)
  {
    var rank := (x: Item) => RankOf(x, key, ascending);
    var id := (x: Item) => IdOf(x);
    forall x, y
      ensures ByKey(key, ascending)(x, y) <==>
              if rank(x) == rank(y) then Less(id(y), id(x))
              else if ascending then RankLess(rank(x), rank(y))
              else RankLess(rank(y), rank(x))
    {
      if x.Some? && y.Some? {
        CompareIsRank(x, y, key, ascending);
      } else {
        assert RankOf(x, key, ascending).0 in {-1, 0, 1, 2};
      }
    }
  }

  /** The comparator is a strict weak order for every key and direction, nil pointers included. */
  lemma ComparatorIsStrictWeak(key: SortKey, ascending: bool)
    ensures StrictWeak(ByKey(key, ascending))
  {
    ByKeyRanked(key, ascending);
    RankedOrder(ByKey(key, ascending), (x: Item) => RankOf(x, key, ascending), (x: Item) => IdOf(x), ascending);
  }

  /** Different previews of the list have different trimmed ids. */
  ghost predicate DistinctTrimmedIds(items: seq<Item>) {
    forall x, y :: x in items && y in items && x.Some? && y.Some? && x != y ==> IdOf(x) != IdOf(y)
  }

  lemma ByKeySeparates(items: seq<Item>, key: SortKey, ascending: bool)
    requires DistinctTrimmedIds(items)
    ensures Separates(ByKey(key, ascending), items)
  {
    forall x, y | x in items && y in items && x != y
      ensures GigBefore(x, y, key, ascending) || GigBefore(y, x, key, ascending)
    {
      if x.Some? && y.Some? {
        LessTotal(IdOf(x), IdOf(y));
        CompareIsRank(x, y, key, ascending);
        CompareIsRank(y, x, key, ascending);
      }
    }
  }

  function Listed(items: seq<Item>, status: string, key: SortKey, ascending: bool): seq<Item> {
    StableSort(ByKey(key, ascending), Filter(items, status))
  }

  /** Rank by rank in the direction asked for, and by descending id among equal ranks. */
  predicate InOrder(x: Item, y: Item, key: SortKey, ascending: bool) {
    var a, b := RankOf(x, key, ascending), RankOf(y, key, ascending);
    if a == b then !Less(IdOf(x), IdOf(y)) else if ascending then RankLess(a, b) else RankLess(b, a)
  }

  /** The listing holds exactly the items that pass the filter, as often as they came, in the order of the
      field asked for. */
  lemma ListedShape(items: seq<Item>, status: string, key: SortKey, ascending: bool)
    ensures forall x :: multiset(Listed(items, status, key, ascending))[x] == if Keeps(status, x) then multiset(items)[x] else 0
    ensures forall i, j :: 0 <= i < j < |Listed(items, status, key, ascending)| ==>
              InOrder(Listed(items, status, key, ascending)[i], Listed(items, status, key, ascending)[j], key, ascending)
  {
    var kept, listed := Filter(items, status), Listed(items, status, key, ascending);
    SortMultiset(ByKey(key, ascending), kept);
    forall x
      ensures multiset(listed)[x] == if Keeps(status, x) then multiset(items)[x] else 0
    {
      FilterCount(items, status, x);
    }
    ComparatorIsStrictWeak(key, ascending);
    SortSorted(ByKey(key, ascending), kept);
    ByKeyRanked(key, ascending);
    forall i, j | 0 <= i < j < |listed|
      ensures InOrder(listed[i], listed[j], key, ascending)
    {
      assert !ByKey(key, ascending)(listed[j], listed[i]);
      RankTotal(listed[i], listed[j], key, ascending);
    }
  }

  lemma RankTotal(x: Item, y: Item, key: SortKey, ascending: bool)
    ensures var a, b := RankOf(x, key, ascending), RankOf(y, key, ascending);
            a == b || RankLess(a, b) || RankLess(b, a)
  {
  }

  /** Main result. The listing does not depend on the order its items come in: any two arrangements of the
      same items, with distinct trimmed ids, are listed in one identical sequence. */
  lemma ListingIgnoresInputOrder(items: seq<Item>, others: seq<Item>, status: string, key: SortKey, ascending: bool)
    requires multiset(items) == multiset(others) && DistinctTrimmedIds(items)
    ensures Listed(items, status, key, ascending) == Listed(others, status, key, ascending)
  {
    var a, b := Filter(items, status), Filter(others, status);
    forall x
      ensures multiset(a)[x] == multiset(b)[x]
      ensures x in a ==> x in items
    {
      FilterCount(items, status, x);
      FilterCount(others, status, x);
      assert x in a <==> multiset(a)[x] > 0;
      assert x in items <==> multiset(items)[x] > 0;
    }
    assert multiset(a) == multiset(b);
    ComparatorIsStrictWeak(key, ascending);
    ByKeySeparates(a, key, ascending);
    SortOfPermutation(ByKey(key, ascending), a, b);
  }

  /** sortOwnerGigs, in place. */
  method SortOwnerGigs(a: array<Item>, key: SortKey, ascending: bool)
    modifies a
    ensures a[..] == StableSort(ByKey(key, ascending), old(a[..]))
    ensures multiset(a[..]) == multiset(old(a[..]))
    ensures Sorted(ByKey(key, ascending), a[..])
  {
    SortInPlace(a, ByKey(key, ascending));
    ComparatorIsStrictWeak(key, ascending);
    SortSorted(ByKey(key, ascending), old(a[..]));
    SortMultiset(ByKey(key, ascending), old(a[..]));
  }
}
