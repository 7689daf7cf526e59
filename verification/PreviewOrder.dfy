/** The order of a cached window refines the order of the in-memory sort. */
module PreviewOrder {
  import opened Text
  import opened Wrappers
  import opened Ordering
  import opened Float64
  import opened Preview
  import opened PreviewCache

  /** Keys of payloads are trimmed ids, as every write makes them. */
  ghost predicate CleanKeys(c: Cache) {
    forall a :: a in c.payloads ==> Trimmed(a)
  }

  lemma {:induction false} PayloadsShape(payloads: map<string, GigPreview>, ids: seq<string>)
    ensures |Payloads(payloads, ids)| <= |ids|
    ensures |Payloads(payloads, ids)| == |ids| <==> forall i :: 0 <= i < |ids| ==> ids[i] in payloads
    ensures |Payloads(payloads, ids)| == |ids| ==>
              forall i :: 0 <= i < |ids| ==> Payloads(payloads, ids)[i] == payloads[ids[i]]
  {
    if ids != [] {
      PayloadsShape(payloads, ids[1..]);
      if ids[0] in payloads {
        forall i | 0 < i < |ids|
          ensures ids[i] == ids[1..][i - 1]
        {
        }
      }
    }
  }

  /** `a` has the greater score, and the same float. */
  predicate Collide(a: GigPreview, b: GigPreview) {
    a.popularityScore > b.popularityScore && ToFloat(a.popularityScore) == ToFloat(b.popularityScore)
  }

  /** No two different scores become one float in the wrong order: among ids that share a float, greater
      scores have greater ids. */
  ghost predicate NoRoundingInversion(gigs: seq<GigPreview>) {
    forall a, b :: a in gigs && b in gigs && Collide(a, b) ==> Less(b.id, a.id)
  }

  /** What is read back from a window just written. */
  ghost function WrittenThenRead(c: Cache, user: string, window: int, gigs: seq<GigPreview>): Result<Window, CacheError> {
    ListPreviewWindow(UpsertPreviewWindow(c, user, window, gigs).0, user, window)
  }

  lemma WrittenMembers(gigs: seq<GigPreview>)
    requires gigs != [] && DistinctIds(gigs)
    ensures WithMembers(map[], gigs).Keys == Ids(gigs) && WithMembers(map[], gigs) != map[]
    ensures forall g :: g in gigs ==> g.id in WithMembers(map[], gigs) && WithMembers(map[], gigs)[g.id] == ToFloat(g.popularityScore)
  {
    MembersOf(map[], gigs);
    IdsCons(gigs);
    assert gigs[0].id in WithMembers(map[], gigs);
  }

  lemma WrittenIsRead(c: Cache, user: string, window: int, gigs: seq<GigPreview>)
    requires TrimSpace(user) != "" && gigs != [] && WithMembers(map[], gigs) != map[]
    ensures WrittenThenRead(c, user, window, gigs).Ok?
    ensures WrittenThenRead(c, user, window, gigs).value.gigs
            == Payloads(WithPayloads(c.payloads, gigs), RevRange(WithMembers(map[], gigs)))
  {
  }

  lemma WrittenPayloads(c: Cache, gigs: seq<GigPreview>)
    requires DistinctIds(gigs)
    ensures CleanKeys(c) ==> forall a :: a in WithPayloads(c.payloads, gigs) ==> Trimmed(a)
    ensures TrimmedIds(gigs) ==>
              forall g :: g in gigs ==> g.id in WithPayloads(c.payloads, gigs) && WithPayloads(c.payloads, gigs)[g.id] == g
  {
    PayloadsWritten(c.payloads, gigs);
  }

  /** The window as written: its ids, their floats and, for trimmed ids, their payloads. */
  lemma Written(c: Cache, user: string, window: int, gigs: seq<GigPreview>) returns (d: Cache, z: ZSet, ids: seq<string>)
    requires TrimSpace(user) != "" && gigs != [] && DistinctIds(gigs)
    ensures d == UpsertPreviewWindow(c, user, window, gigs).0
    ensures ids == RevRange(z) && z.Keys == Ids(gigs)
    ensures forall g :: g in gigs ==> g.id in z && z[g.id] == ToFloat(g.popularityScore)
    ensures WrittenThenRead(c, user, window, gigs).Ok?
    ensures WrittenThenRead(c, user, window, gigs).value.gigs == Payloads(d.payloads, ids)
    ensures CleanKeys(c) ==> CleanKeys(d)
    ensures TrimmedIds(gigs) ==> forall g :: g in gigs ==> g.id in d.payloads && d.payloads[g.id] == g
  {
    d := UpsertPreviewWindow(c, user, window, gigs).0;
    z := WithMembers(map[], gigs);
    ids := RevRange(z);
    WrittenMembers(gigs);
    WrittenIsRead(c, user, window, gigs);
    WrittenPayloads(c, gigs);
  }

  /** Trimmed distinct ids are read back complete. */
  lemma ReadBackComplete(gigs: seq<GigPreview>, d: Cache, z: ZSet) returns (back: seq<GigPreview>)
    requires DistinctIds(gigs) && gigs != [] && z.Keys == Ids(gigs)
    requires forall g :: g in gigs ==> g.id in z
    requires forall g :: g in gigs ==> g.id in d.payloads && d.payloads[g.id] == g
    ensures back == Payloads(d.payloads, RevRange(z))
    ensures |back| == |RevRange(z)| && forall i :: 0 <= i < |back| ==> back[i].id == RevRange(z)[i]
    ensures DistinctIds(back) && multiset(back) == multiset(gigs)
  {
    RevRangeSorted(z);
    PayloadsShape(d.payloads, RevRange(z));
    back := Payloads(d.payloads, RevRange(z));
    forall i | 0 <= i < |RevRange(z)|
      ensures RevRange(z)[i] in d.payloads && d.payloads[RevRange(z)[i]] in gigs && d.payloads[RevRange(z)[i]].id == RevRange(z)[i]
    {
      assert RevRange(z)[i] in z;
      var k :| 0 <= k < |gigs| && gigs[k].id == RevRange(z)[i];
      assert gigs[k] in gigs;
    }
    SameGigs(gigs, d, RevRange(z), back);
  }

  lemma SameGigs(gigs: seq<GigPreview>, d: Cache, ids: seq<string>, back: seq<GigPreview>)
    requires DistinctIds(gigs)
    requires forall g :: g in gigs ==> g.id in d.payloads && d.payloads[g.id] == g && g.id in ids
    requires |back| == |ids| && forall i :: 0 <= i < |ids| ==> ids[i] in d.payloads && back[i] == d.payloads[ids[i]]
    requires forall i :: 0 <= i < |ids| ==> back[i] in gigs && back[i].id == ids[i]
    requires forall i, j :: 0 <= i < j < |ids| ==> ids[i] != ids[j]
    ensures DistinctIds(back) && multiset(back) == multiset(gigs)
  {
    forall g | g in gigs
      ensures g in back
    {
      var i :| 0 <= i < |ids| && ids[i] == g.id;
      assert back[i] == g;
    }
    SameMembers(back, gigs);
  }

  /** Main result. For previews with distinct ids, a window written and read back holds exactly these
      previews in the order of the in-memory sort, if and only if all ids are trimmed and no two
      different scores are rounded into the wrong order. */
  lemma CacheRefinesSort(c: Cache, user: string, window: int, gigs: seq<GigPreview>)
    requires CleanKeys(c) && TrimSpace(user) != "" && gigs != [] && DistinctIds(gigs)
    ensures WrittenThenRead(c, user, window, gigs).Ok?
    ensures WrittenThenRead(c, user, window, gigs).value.gigs == StableSort(ByPopularity(), gigs)
            <==> TrimmedIds(gigs) && NoRoundingInversion(gigs)
  {
    var d, z, ids := Written(c, user, window, gigs);
    var sorted := StableSort(ByPopularity(), gigs);
    PopularityOrder();
    SortSorted(ByPopularity(), gigs);
    SortMultiset(ByPopularity(), gigs);
    RevRangeSorted(z);
    if TrimmedIds(gigs) {
      var back := ReadBackComplete(gigs, d, z);
      SortedByFloat(gigs, z, back);
      if NoRoundingInversion(gigs) {
        FloatOrderIsScoreOrder(gigs, back);
        SeparatesPermutation(gigs, back);
        SortedUnique(ByPopularity(), back, sorted);
      } else {
        var a, b :| a in gigs && b in gigs && Collide(a, b) && !Less(b.id, a.id);
        InversionShows(gigs, back, a, b);
      }
    } else {
      var g :| g in gigs && !Trimmed(g.id);
      PayloadsShape(d.payloads, ids);
      IdsCons(gigs);
      assert g.id in ids;
      assert |ids| == |gigs| by {
        IdsSize(gigs);
      }
      assert |sorted| == |gigs| by {
        assert |multiset(sorted)| == |multiset(gigs)|;
      }
    }
  }

  lemma {:induction false} IdsSize(gigs: seq<GigPreview>)
    requires DistinctIds(gigs)
    ensures |Ids(gigs)| == |gigs|
  {
    if gigs != [] {
      IdsSize(gigs[1..]);
      IdsCons(gigs);
      assert gigs[0].id !in Ids(gigs[1..]);
    }
  }

  /** Descending floats, ties by descending id. */
  ghost predicate FloatSorted(s: seq<GigPreview>) {
    forall i, j :: 0 <= i < j < |s| ==>
      || ToFloat(s[i].popularityScore) > ToFloat(s[j].popularityScore)
      || (ToFloat(s[i].popularityScore) == ToFloat(s[j].popularityScore) && Less(s[j].id, s[i].id))
  }

  lemma SortedByFloat(gigs: seq<GigPreview>, z: ZSet, back: seq<GigPreview>)
    requires forall g :: g in gigs ==> g.id in z && z[g.id] == ToFloat(g.popularityScore)
    requires multiset(back) == multiset(gigs)
    requires |back| == |RevRange(z)| && forall i :: 0 <= i < |back| ==> back[i].id == RevRange(z)[i]
    ensures FloatSorted(back)
  {
    RevRangeSorted(z);
    var ids := RevRange(z);
    forall i, j | 0 <= i < j < |back|
      ensures || ToFloat(back[i].popularityScore) > ToFloat(back[j].popularityScore)
              || (ToFloat(back[i].popularityScore) == ToFloat(back[j].popularityScore) && Less(back[j].id, back[i].id))
    {
      assert back[i] in multiset(gigs) && back[j] in multiset(gigs);
      assert !ByScore(z)(ids[j], ids[i]) && ids[i] != ids[j];
      LessTotal(ids[i], ids[j]);
    }
  }

  lemma FloatOrderIsScoreOrder(gigs: seq<GigPreview>, back: seq<GigPreview>)
    requires multiset(back) == multiset(gigs) && NoRoundingInversion(gigs) && FloatSorted(back)
    ensures Sorted(ByPopularity(), back)
  {
    forall i, j | 0 <= i < j < |back|
      ensures !PopularBefore(back[j], back[i])
    {
      assert back[i] in multiset(gigs) && back[j] in multiset(gigs);
      LessTotal(back[i].id, back[j].id);
      if back[j].popularityScore >= back[i].popularityScore {
        ToFloatMonotone(back[i].popularityScore, back[j].popularityScore);
      }
    }
  }

  lemma SeparatesPermutation(gigs: seq<GigPreview>, back: seq<GigPreview>)
    requires DistinctIds(gigs) && multiset(back) == multiset(gigs)
    ensures Separates(ByPopularity(), back)
  {
    DistinctSeparates(gigs);
    forall x, y | x in back && y in back && x != y
      ensures ByPopularity()(x, y) || ByPopularity()(y, x)
    {
      assert x in multiset(gigs) && y in multiset(gigs);
    }
  }

  /** An inverted pair stands in float order in the cache and in score order in the sort. */
  lemma InversionShows(gigs: seq<GigPreview>, back: seq<GigPreview>, a: GigPreview, b: GigPreview)
    requires DistinctIds(gigs) && a in gigs && b in gigs && multiset(back) == multiset(gigs) && FloatSorted(back)
    requires Collide(a, b) && !Less(b.id, a.id)
    ensures !Sorted(ByPopularity(), back)
  {
    assert a in multiset(back) && b in multiset(back);
    var i :| 0 <= i < |back| && back[i] == a;
    var j :| 0 <= j < |back| && back[j] == b;
    assert i > j;
    assert PopularBefore(a, b);
  }

  /** A condition on the scores alone: up to 2^53 in magnitude nothing is rounded. */
  lemma SmallScoresNeverInvert(gigs: seq<GigPreview>)
    requires forall g :: g in gigs ==> -TWO_53 <= g.popularityScore <= TWO_53
    ensures NoRoundingInversion(gigs)
  {
    forall g | g in gigs
      ensures ToFloat(g.popularityScore) == g.popularityScore
    {
      ToFloatExact(g.popularityScore);
    }
  }

  /** The first scores that share a float: given to ids in the other order, they come back swapped. */
  lemma LargeScoresInvert(a: GigPreview, b: GigPreview)
    requires a.popularityScore == TWO_53 + 1 && b.popularityScore == TWO_53 && Less(a.id, b.id)
    ensures !NoRoundingInversion([a, b])
  {
    FirstCollision();
    LessTotal(a.id, b.id);
    assert a in [a, b] && b in [a, b];
  }
}
