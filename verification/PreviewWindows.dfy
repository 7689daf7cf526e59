/** redis/repository.go, AppendPreviewGig: the tail-window policy and the packing it keeps. */
module PreviewWindows {
  import opened Text
  import opened Preview
  import opened PreviewCache
  import opened PreviewOrder

  /** A scan's result after sorting: every window number of the user, in order, possibly repeated. */
  ghost predicate Scanned(c: Cache, user: string, indexes: seq<int>) {
    && (forall i :: i in indexes <==> (user, i) in c.windows)
    && (forall i, j :: 0 <= i < j < |indexes| ==> indexes[i] <= indexes[j])
  }

  /** The loop over the scanned windows, with `rest` to go. */
  ghost function Walk(c: Cache, user: string, gig: GigPreview, size: int, tail: int, rest: seq<int>): Cache {
    if rest == [] then WriteWindow(c, user, NormalWindow(tail + 1), [gig])
    else
      match ReadWindow(c, user, NormalWindow(rest[0]))
      case Err(_) => Walk(c, user, gig, size, tail, rest[1..])
      case Ok(window) =>
        if gig.id in Ids(window.gigs) then c
        else if rest[0] == tail && |window.gigs| < size then
          WriteWindow(c, user, NormalWindow(tail), window.gigs + [gig])
        else Walk(c, user, gig, size, tail, rest[1..])
  }

  function PositiveSize(size: int): int {
    if size <= 0 then 1 else size
  }

  /** What AppendPreviewGig does under the lease. */
  ghost function Append(c: Cache, user: string, gig: GigPreview, size: int, indexes: seq<int>): Cache {
    if indexes == [] then WriteWindow(c, user, 0, [gig])
    else Walk(c, user, gig, PositiveSize(size), indexes[|indexes| - 1], indexes)
  }

  // ----- Packing -----

  ghost function Members(c: Cache, user: string, i: int): set<string> {
    if (user, i) in c.windows then c.windows[(user, i)].Keys else {}
  }

  /** The id stands in one of the first `k` windows. */
  ghost predicate Present(c: Cache, user: string, k: nat, a: string) {
    exists i :: 0 <= i < k && a in Members(c, user, i)
  }

  ghost predicate Numbered(c: Cache, user: string, k: nat) {
    forall i :: (user, i) in c.windows <==> 0 <= i < k
  }

  ghost predicate Filled(c: Cache, user: string, size: int, k: nat) {
    && (forall i :: 0 <= i < k ==> 0 < |Members(c, user, i)| <= size)
    && (forall i :: 0 <= i < k - 1 ==> |Members(c, user, i)| == size)
  }

  ghost predicate Apart(c: Cache, user: string, k: nat) {
    forall i, j, a :: 0 <= i < j < k && a in Members(c, user, i) ==> a !in Members(c, user, j)
  }

  ghost predicate HasPayload(payloads: map<string, GigPreview>, a: string) {
    Trimmed(a) && a in payloads && payloads[a].id == a
  }

  ghost predicate Backed(c: Cache, user: string, k: nat) {
    forall i, a :: 0 <= i < k && a in Members(c, user, i) ==> HasPayload(c.payloads, a)
  }

  /** Windows 0..k without gaps, each but the last full, no id in two windows, and every id's payload there. */
  ghost predicate Packed(c: Cache, user: string, size: int, k: nat) {
    && Numbered(c, user, k)
    && Filled(c, user, size, k)
    && Apart(c, user, k)
    && Backed(c, user, k)
  }

  /** Ids that all have payloads are read complete. */
  lemma ReadBacked(payloads: map<string, GigPreview>, ids: seq<string>, keys: set<string>)
    requires forall a :: a in keys ==> HasPayload(payloads, a)
    requires forall a :: a in ids <==> a in keys
    requires forall i, j :: 0 <= i < j < |ids| ==> ids[i] != ids[j]
    ensures Ids(Payloads(payloads, ids)) == keys && |Payloads(payloads, ids)| == |ids|
    ensures DistinctIds(Payloads(payloads, ids)) && TrimmedIds(Payloads(payloads, ids))
  {
    PayloadsShape(payloads, ids);
    var gigs := Payloads(payloads, ids);
    forall n | 0 <= n < |ids|
      ensures HasPayload(payloads, ids[n])
    {
      assert ids[n] in keys;
    }
    forall a | a in keys
      ensures a in Ids(gigs)
    {
      var n :| 0 <= n < |ids| && ids[n] == a;
      assert gigs[n].id == a;
    }
  }

  /** A packed window is read complete. */
  lemma ReadPacked(c: Cache, user: string, size: int, k: nat, i: nat) returns (gigs: seq<GigPreview>)
    requires Packed(c, user, size, k) && i < k
    ensures ReadWindow(c, user, i).Ok? && ReadWindow(c, user, i).value.gigs == gigs
    ensures Ids(gigs) == Members(c, user, i) && |gigs| == |Members(c, user, i)|
    ensures DistinctIds(gigs) && TrimmedIds(gigs)
  {
    var z := c.windows[(user, i)];
    assert z.Keys == Members(c, user, i);
    RevRangeSorted(z);
    ReadBacked(c.payloads, RevRange(z), z.Keys);
    gigs := Payloads(c.payloads, RevRange(z));
    assert |z.Keys| > 0;
    assert z != map[];
  }

  /** Reading on: in packed windows a window says that there is more exactly if it is not the last. */
  lemma MoreExactly(c: Cache, user: string, size: int, k: nat, i: nat)
    requires Packed(c, user, size, k) && i < k
    ensures ReadWindow(c, user, i).Ok? && (ReadWindow(c, user, i).value.hasMore <==> i + 1 < k)
  {
    var gigs := ReadPacked(c, user, size, k, i);
    if i + 1 < k {
      assert c.windows[(user, i + 1)].Keys == Members(c, user, i + 1);
      assert |Members(c, user, i + 1)| > 0;
    }
  }

  /** The previews of the windows 0..n, one window after the other. */
  ghost function WindowsTo(c: Cache, user: string, n: nat): seq<GigPreview> {
    if n == 0 then []
    else WindowsTo(c, user, n - 1) + match ReadWindow(c, user, n - 1) case Ok(window) => window.gigs case Err(_) => []
  }

  lemma JoinedIds(a: seq<GigPreview>, b: seq<GigPreview>)
    requires DistinctIds(a) && DistinctIds(b) && Ids(a) !! Ids(b)
    ensures DistinctIds(a + b) && Ids(a + b) == Ids(a) + Ids(b)
  {
    var s := a + b;
    forall i, j | 0 <= i < j < |s|
      ensures s[i].id != s[j].id
    {
      if i < |a| <= j {
        assert a[i].id in Ids(a) && b[j - |a|].id in Ids(b);
      }
    }
    forall x
      ensures x in Ids(s) <==> x in Ids(a) || x in Ids(b)
    {
      if i :| 0 <= i < |a| && a[i].id == x {
        assert s[i].id == x;
      }
      if i :| 0 <= i < |b| && b[i].id == x {
        assert s[i + |a|].id == x;
      }
    }
  }

  lemma PresentNext(c: Cache, user: string, n: nat, a: string)
    ensures Present(c, user, n + 1, a) <==> Present(c, user, n, a) || a in Members(c, user, n)
  {
  }

  lemma NextIsApart(c: Cache, user: string, k: nat, n: nat, a: string)
    requires Apart(c, user, k) && n < k && Present(c, user, n, a)
    ensures a !in Members(c, user, n)
  {
  }

  lemma OneWindowOn(c: Cache, user: string, k: nat, n: nat, front: seq<GigPreview>, gigs: seq<GigPreview>)
    requires Apart(c, user, k) && n < k && HoldsEachOnce(c, user, n, front)
    requires DistinctIds(gigs) && Ids(gigs) == Members(c, user, n)
    ensures HoldsEachOnce(c, user, n + 1, front + gigs)
  {
    var earlier, more := Ids(front), Ids(gigs);
    forall a
      ensures a in earlier ==> a !in more
      ensures a in earlier + more <==> Present(c, user, n + 1, a)
    {
      PresentNext(c, user, n, a);
      if a in earlier {
        NextIsApart(c, user, k, n, a);
      }
    }
    JoinedIds(front, gigs);
  }

  lemma NextWindow(c: Cache, user: string, size: int, k: nat, n: nat) returns (gigs: seq<GigPreview>)
    requires Packed(c, user, size, k) && n < k
    ensures WindowsTo(c, user, n + 1) == WindowsTo(c, user, n) + gigs
    ensures DistinctIds(gigs) && Ids(gigs) == Members(c, user, n)
  {
    gigs := ReadPacked(c, user, size, k, n);
  }

  /** The previews hold the ids of the first `n` windows, each once. */
  ghost predicate HoldsEachOnce(c: Cache, user: string, n: nat, gigs: seq<GigPreview>) {
    DistinctIds(gigs) && forall a :: a in Ids(gigs) <==> Present(c, user, n, a)
  }

  lemma HoldsNext(c: Cache, user: string, size: int, k: nat, n: nat)
    requires Packed(c, user, size, k) && n < k && HoldsEachOnce(c, user, n, WindowsTo(c, user, n))
    ensures HoldsEachOnce(c, user, n + 1, WindowsTo(c, user, n + 1))
  {
    var gigs := NextWindow(c, user, size, k, n);
    OneWindowOn(c, user, k, n, WindowsTo(c, user, n), gigs);
  }

  lemma HoldsNone(c: Cache, user: string)
    ensures HoldsEachOnce(c, user, 0, WindowsTo(c, user, 0))
  {
  }

  /** Read from the first window on, packed windows give every id they hold exactly once. */
  lemma {:induction false} WindowsGiveEachOnce(c: Cache, user: string, size: int, k: nat, n: nat)
    requires Packed(c, user, size, k) && n <= k
    ensures HoldsEachOnce(c, user, n, WindowsTo(c, user, n))
  {
    if n == 0 {
      HoldsNone(c, user);
    } else {
      WindowsGiveEachOnce(c, user, size, k, n - 1);
      HoldsNext(c, user, size, k, n - 1);
    }
  }

  /** `d` is `c` with one more id in window `w`. */
  ghost predicate Grown(c: Cache, d: Cache, user: string, w: int, id: string) {
    && (forall i :: (user, i) in d.windows <==> (user, i) in c.windows || i == w)
    && (forall i :: i != w ==> Members(d, user, i) == Members(c, user, i))
    && Members(d, user, w) == Members(c, user, w) + {id}
  }

  /** Besides, every id with a payload still has one, and so has `id`. */
  ghost predicate Extended(c: Cache, d: Cache, user: string, w: int, id: string) {
    && Grown(c, d, user, w, id)
    && HasPayload(d.payloads, id)
    && (forall a :: HasPayload(c.payloads, a) ==> HasPayload(d.payloads, a))
  }

  /** Writing a window of `gigs` extends the cache when it adds one id to the window. */
  lemma WriteExtends(c: Cache, user: string, w: int, gigs: seq<GigPreview>, id: string)
    requires gigs != [] && DistinctIds(gigs) && TrimmedIds(gigs)
    requires Ids(gigs) == Members(c, user, w) + {id}
    ensures Extended(c, WriteWindow(c, user, w, gigs), user, w, id)
  {
    MembersOf(map[], gigs);
    WritePayloads(c.payloads, gigs);
    assert id in Ids(gigs);
  }

  lemma WritePayloads(payloads: map<string, GigPreview>, gigs: seq<GigPreview>)
    requires DistinctIds(gigs) && TrimmedIds(gigs)
    ensures forall a :: a in Ids(gigs) || HasPayload(payloads, a) ==> HasPayload(WithPayloads(payloads, gigs), a)
  {
    PayloadsWritten(payloads, gigs);
    forall a | a in Ids(gigs) || HasPayload(payloads, a)
      ensures HasPayload(WithPayloads(payloads, gigs), a)
    {
      if a in Ids(gigs) {
        var n :| 0 <= n < |gigs| && gigs[n].id == a;
        assert gigs[n] in gigs;
      }
    }
  }

  lemma ExtendedApart(c: Cache, d: Cache, user: string, k: nat, id: string, n: nat)
    requires Numbered(c, user, k) && Apart(c, user, k) && k <= n <= k + 1 && n > 0
    requires !Present(c, user, k, id) && Extended(c, d, user, n - 1, id)
    ensures Apart(d, user, n)
  {
    forall i, j, a | 0 <= i < j < n && a in Members(d, user, i)
      ensures a !in Members(d, user, j)
    {
      assert Members(d, user, i) == Members(c, user, i);
      assert a in Members(c, user, i);
      assert j != n - 1 ==> Members(d, user, j) == Members(c, user, j);
    }
  }

  lemma FullBefore(c: Cache, d: Cache, user: string, size: int, k: nat, id: string, n: nat, i: nat)
    requires Filled(c, user, size, k) && k <= n <= k + 1 && i < n - 1
    requires n == k + 1 && k > 0 ==> |Members(c, user, k - 1)| >= size
    requires Grown(c, d, user, n - 1, id)
    ensures |Members(d, user, i)| == size
  {
    assert Members(d, user, i) == Members(c, user, i);
    assert 0 < |Members(c, user, i)| <= size;
  }

  lemma LastFilled(c: Cache, d: Cache, user: string, size: int, k: nat, id: string, n: nat)
    requires Numbered(c, user, k) && k <= n <= k + 1 && n > 0
    requires n == k ==> |Members(c, user, k - 1)| < size
    requires size >= 1 && Grown(c, d, user, n - 1, id)
    ensures 0 < |Members(d, user, n - 1)| <= size
  {
    assert n == k + 1 ==> Members(c, user, n - 1) == {};
    assert id in Members(d, user, n - 1);
  }

  lemma GrownFilled(c: Cache, d: Cache, user: string, size: int, k: nat, id: string, n: nat)
    requires Numbered(c, user, k) && Filled(c, user, size, k) && k <= n <= k + 1 && n > 0
    requires n == k + 1 && k > 0 ==> |Members(c, user, k - 1)| >= size
    requires n == k ==> |Members(c, user, k - 1)| < size
    requires size >= 1 && Grown(c, d, user, n - 1, id)
    ensures Filled(d, user, size, n)
  {
    forall i | 0 <= i < n - 1
      ensures |Members(d, user, i)| == size
    {
      FullBefore(c, d, user, size, k, id, n, i);
    }
    LastFilled(c, d, user, size, k, id, n);
  }

  lemma ExtendedBacked(c: Cache, d: Cache, user: string, k: nat, id: string, n: nat)
    requires Numbered(c, user, k) && Backed(c, user, k) && k <= n <= k + 1 && n > 0
    requires Extended(c, d, user, n - 1, id)
    ensures Backed(d, user, n)
    ensures forall a :: Present(d, user, n, a) <==> Present(c, user, k, a) || a == id
  {
    forall i, a | 0 <= i < n && a in Members(d, user, i)
      ensures HasPayload(d.payloads, a) && (Present(c, user, k, a) || a == id)
    {
      if a != id {
        assert a in Members(c, user, i);
        assert (user, i) in c.windows;
        assert HasPayload(c.payloads, a);
      }
    }
    forall a | Present(c, user, k, a) || a == id
      ensures Present(d, user, n, a)
    {
      if a == id {
        assert a in Members(d, user, n - 1);
      } else {
        var i :| 0 <= i < k && a in Members(c, user, i);
        assert a in Members(d, user, i);
      }
    }
  }

  /** The last of `n` windows is new, or has grown, by `id`. */
  lemma ExtendedPacked(c: Cache, d: Cache, user: string, size: int, k: nat, id: string, n: nat)
    requires Packed(c, user, size, k) && size >= 1 && 0 < n && !Present(c, user, k, id)
    requires if n == k then |Members(c, user, k - 1)| < size
             else n == k + 1 && (k > 0 ==> |Members(c, user, k - 1)| >= size)
    requires Extended(c, d, user, n - 1, id)
    ensures Packed(d, user, size, n)
    ensures forall a :: Present(d, user, n, a) <==> Present(c, user, k, a) || a == id
  {
    ExtendedApart(c, d, user, k, id, n);
    GrownFilled(c, d, user, size, k, id, n);
    ExtendedBacked(c, d, user, k, id, n);
  }

  lemma IdsSnoc(gigs: seq<GigPreview>, gig: GigPreview)
    ensures Ids(gigs + [gig]) == Ids(gigs) + {gig.id}
    ensures DistinctIds(gigs) && gig.id !in Ids(gigs) ==> DistinctIds(gigs + [gig])
    ensures TrimmedIds(gigs) && Trimmed(gig.id) ==> TrimmedIds(gigs + [gig])
  {
    var more := gigs + [gig];
    assert more[|gigs|] == gig;
    forall a | a in Ids(gigs)
      ensures a in Ids(more)
    {
      var i :| 0 <= i < |gigs| && gigs[i].id == a;
      assert more[i].id == a;
    }
    assert forall i :: 0 <= i < |gigs| ==> gigs[i].id in Ids(gigs);
  }

  /** The tail-window policy, stated on the windows: a present id changes nothing, a tail with room takes
      the gig, otherwise a new window does. */
  ghost predicate FollowsPolicy(c: Cache, user: string, gig: GigPreview, size: int, k: nat, d: Cache) {
    if Present(c, user, k, gig.id) then d == c
    else if k > 0 && |Members(c, user, k - 1)| < size then
      exists gigs :: ReadsAs(c, user, k - 1, gigs) && d == WriteWindow(c, user, k - 1, gigs + [gig])
    else d == WriteWindow(c, user, k, [gig])
  }

  ghost predicate ReadsAs(c: Cache, user: string, i: int, gigs: seq<GigPreview>) {
    ReadWindow(c, user, i).Ok? && ReadWindow(c, user, i).value.gigs == gigs
  }

  /** What the loop still has to visit: the windows of `rest` up to the tail, the others being without the
      gig and, if the tail is among them, the tail being full. */
  ghost predicate ToVisit(c: Cache, user: string, id: string, size: int, k: nat, rest: seq<int>) {
    && (forall i :: i in rest ==> 0 <= i < k)
    && (forall i :: 0 <= i < k && i !in rest ==> id !in Members(c, user, i))
    && (k - 1 !in rest ==> |Members(c, user, k - 1)| >= size)
    && (rest != [] ==> rest[|rest| - 1] == k - 1)
    && (forall i, j :: 0 <= i < j < |rest| ==> rest[i] <= rest[j])
  }

  lemma VisitNext(c: Cache, user: string, id: string, size: int, k: nat, rest: seq<int>)
    requires ToVisit(c, user, id, size, k, rest) && rest != []
    requires id !in Members(c, user, rest[0])
    requires rest[0] == k - 1 ==> |Members(c, user, k - 1)| >= size
    ensures ToVisit(c, user, id, size, k, rest[1..])
  {
    assert rest == [rest[0]] + rest[1..];
    assert forall i :: i in rest[1..] ==> i in rest;
    forall i | 0 <= i < k && i !in rest[1..]
      ensures id !in Members(c, user, i)
    {
    }
  }

  /** At the tail nothing but the tail is left. */
  lemma AtTail(c: Cache, user: string, id: string, size: int, k: nat, rest: seq<int>)
    requires ToVisit(c, user, id, size, k, rest) && rest != [] && rest[0] == k - 1
    requires id !in Members(c, user, k - 1)
    ensures !Present(c, user, k, id)
  {
    forall i | 0 <= i < k
      ensures id !in Members(c, user, i)
    {
      if i in rest {
        var n :| 0 <= n < |rest| && rest[n] == i;
        assert rest[0] <= rest[n];
      }
    }
  }

  lemma {:induction false} WalkFollowsPolicy(c: Cache, user: string, gig: GigPreview, size: int, k: nat, rest: seq<int>)
    requires Packed(c, user, size, k) && k > 0 && ToVisit(c, user, gig.id, size, k, rest)
    ensures FollowsPolicy(c, user, gig, size, k, Walk(c, user, gig, size, k - 1, rest))
  {
    if rest != [] {
      var w := rest[0];
      assert w in rest;
      var gigs := ReadPacked(c, user, size, k, w);
      if gig.id in Ids(gigs) {
        assert Present(c, user, k, gig.id);
      } else if w == k - 1 && |gigs| < size {
        AtTail(c, user, gig.id, size, k, rest);
        assert ReadsAs(c, user, k - 1, gigs);
      } else {
        VisitNext(c, user, gig.id, size, k, rest);
        WalkFollowsPolicy(c, user, gig, size, k, rest[1..]);
      }
    }
  }

  lemma ScannedToVisit(c: Cache, user: string, id: string, size: int, k: nat, indexes: seq<int>)
    requires Numbered(c, user, k) && Scanned(c, user, indexes)
    ensures k == 0 ==> indexes == []
    ensures k > 0 ==> indexes != [] && indexes[|indexes| - 1] == k - 1 && ToVisit(c, user, id, size, k, indexes)
  {
    if indexes != [] {
      assert (user, indexes[0]) in c.windows && (user, indexes[|indexes| - 1]) in c.windows;
    }
    if k > 0 {
      assert (user, k - 1) in c.windows;
      var n :| 0 <= n < |indexes| && indexes[n] == k - 1;
      assert n < |indexes| - 1 ==> indexes[n] <= indexes[|indexes| - 1];
    }
  }

  lemma AppendFollowsPolicy(c: Cache, user: string, gig: GigPreview, size: int, k: nat, indexes: seq<int>)
    requires Packed(c, user, PositiveSize(size), k) && Scanned(c, user, indexes)
    ensures FollowsPolicy(c, user, gig, PositiveSize(size), k, Append(c, user, gig, size, indexes))
  {
    ScannedToVisit(c, user, gig.id, PositiveSize(size), k, indexes);
    if k > 0 {
      WalkFollowsPolicy(c, user, gig, PositiveSize(size), k, indexes);
    }
  }

  lemma TailRead(c: Cache, user: string, size: int, k: nat, gigs: seq<GigPreview>)
    requires Packed(c, user, size, k) && k > 0 && ReadsAs(c, user, k - 1, gigs)
    ensures Ids(gigs) == Members(c, user, k - 1) && DistinctIds(gigs) && TrimmedIds(gigs)
  {
    var read := ReadPacked(c, user, size, k, k - 1);
  }

  lemma GrowTail(c: Cache, user: string, gig: GigPreview, k: nat, gigs: seq<GigPreview>)
    requires k > 0 && Trimmed(gig.id) && gig.id !in Members(c, user, k - 1)
    requires Ids(gigs) == Members(c, user, k - 1) && DistinctIds(gigs) && TrimmedIds(gigs)
    ensures Extended(c, WriteWindow(c, user, k - 1, gigs + [gig]), user, k - 1, gig.id)
  {
    IdsSnoc(gigs, gig);
    WriteExtends(c, user, k - 1, gigs + [gig], gig.id);
  }

  lemma NewTail(c: Cache, user: string, gig: GigPreview, k: nat)
    requires Numbered(c, user, k) && Trimmed(gig.id)
    ensures Extended(c, WriteWindow(c, user, k, [gig]), user, k, gig.id)
  {
    IdsSnoc([], gig);
    assert [] + [gig] == [gig] && Ids([]) == {};
    WriteExtends(c, user, k, [gig], gig.id);
  }

  lemma PolicyKeepsPacked(c: Cache, user: string, gig: GigPreview, size: int, k: nat, d: Cache) returns (n: nat)
    requires Packed(c, user, size, k) && size >= 1 && Trimmed(gig.id) && FollowsPolicy(c, user, gig, size, k, d)
    ensures Packed(d, user, size, n)
    ensures forall a :: Present(d, user, n, a) <==> Present(c, user, k, a) || a == gig.id
  {
    if Present(c, user, k, gig.id) {
      n := k;
    } else if k > 0 && |Members(c, user, k - 1)| < size {
      n := k;
      var gigs :| ReadsAs(c, user, k - 1, gigs) && d == WriteWindow(c, user, k - 1, gigs + [gig]);
      TailRead(c, user, size, k, gigs);
      GrowTail(c, user, gig, k, gigs);
      ExtendedPacked(c, d, user, size, k, gig.id, n);
    } else {
      n := k + 1;
      NewTail(c, user, gig, k);
      ExtendedPacked(c, d, user, size, k, gig.id, n);
    }
  }

  /** One append keeps the packing: it adds the id, or changes nothing at all when the id is present. */
  lemma AppendKeepsPacked(c: Cache, user: string, gig: GigPreview, size: int, k: nat, indexes: seq<int>) returns (n: nat)
    requires Packed(c, user, PositiveSize(size), k) && Scanned(c, user, indexes) && Trimmed(gig.id)
    ensures var d := Append(c, user, gig, size, indexes);
            && Packed(d, user, PositiveSize(size), n)
            && (forall a :: Present(d, user, n, a) <==> Present(c, user, k, a) || a == gig.id)
            && (Present(c, user, k, gig.id) ==> d == c)
  {
    AppendFollowsPolicy(c, user, gig, size, k, indexes);
    n := PolicyKeepsPacked(c, user, gig, PositiveSize(size), k, Append(c, user, gig, size, indexes));
  }

  /** `d` results from appending the gigs one after another, each after some scan of its own. */
  ghost predicate Appended(c: Cache, user: string, size: int, gigs: seq<GigPreview>, d: Cache)
    decreases |gigs|
  {
    if gigs == [] then d == c
    else exists indexes: seq<int> ::
      Scanned(c, user, indexes) && Appended(Append(c, user, gigs[0], size, indexes), user, size, gigs[1..], d)
  }

  lemma {:induction false} AppendedFrom(c: Cache, user: string, size: int, gigs: seq<GigPreview>, d: Cache, k: nat) returns (n: nat)
    requires Packed(c, user, PositiveSize(size), k) && TrimmedIds(gigs)
    requires Appended(c, user, size, gigs, d)
    ensures Packed(d, user, PositiveSize(size), n)
    ensures forall a :: Present(d, user, n, a) <==> Present(c, user, k, a) || a in Ids(gigs)
    decreases |gigs|
  {
    if gigs == [] {
      n := k;
    } else {
      var indexes :| Scanned(c, user, indexes) && Appended(Append(c, user, gigs[0], size, indexes), user, size, gigs[1..], d);
      assert gigs[0] in gigs;
      var m := AppendKeepsPacked(c, user, gigs[0], size, k, indexes);
      n := AppendedFrom(Append(c, user, gigs[0], size, indexes), user, size, gigs[1..], d, m);
      IdsCons(gigs);
    }
  }

  /** Main result. Appends for a seller without windows, in any number and with any repetitions, leave
      windows 0..n without gaps, all but the last full, no id twice, holding exactly the appended ids. */
  lemma PackingOverRuns(c: Cache, user: string, size: int, gigs: seq<GigPreview>, d: Cache) returns (n: nat)
    requires forall i :: (user, i) !in c.windows
    requires TrimmedIds(gigs) && Appended(c, user, size, gigs, d)
    ensures Packed(d, user, PositiveSize(size), n)
    ensures forall a :: Present(d, user, n, a) <==> a in Ids(gigs)
  {
    n := AppendedFrom(c, user, size, gigs, d, 0);
  }

  ghost predicate HoldsExactly(d: Cache, user: string, n: nat, gigs: seq<GigPreview>) {
    forall a :: Present(d, user, n, a) <==> a in Ids(gigs)
  }

  /** Main result. The windows end up packed, with every appended id and its payload in them, if and only if the
      appended ids are trimmed. Nothing trims the id of a projection event on its way to the append. */
  lemma PackedExactly(c: Cache, user: string, size: int, gigs: seq<GigPreview>, d: Cache)
    requires forall i :: (user, i) !in c.windows
    requires Appended(c, user, size, gigs, d)
    ensures (exists n: nat :: Packed(d, user, PositiveSize(size), n) && HoldsExactly(d, user, n, gigs)) <==> TrimmedIds(gigs)
  {
    if TrimmedIds(gigs) {
      var n := PackingOverRuns(c, user, size, gigs, d);
      assert HoldsExactly(d, user, n, gigs);
    }
    if n: nat :| Packed(d, user, PositiveSize(size), n) && HoldsExactly(d, user, n, gigs) {
      forall g | g in gigs
        ensures Trimmed(g.id)
      {
        var i :| 0 <= i < |gigs| && gigs[i] == g;
        assert gigs[i].id in Ids(gigs);
        assert Present(d, user, n, g.id);
        var w :| 0 <= w < n && g.id in Members(d, user, w);
        assert HasPayload(d.payloads, g.id);
      }
    }
  }

  lemma OneGig(c: Cache, user: string, gig: GigPreview)
    ensures var d := WriteWindow(c, user, 0, [gig]);
            && d.payloads == c.payloads[TrimSpace(gig.id) := gig]
            && (user, 0) in d.windows && d.windows[(user, 0)].Keys == {gig.id}
  {
    MembersOf(map[], [gig]);
    IdsCons([gig]);
    assert [gig][1..] == [];
    assert WithPayloads(c.payloads[TrimSpace(gig.id) := gig], []) == c.payloads[TrimSpace(gig.id) := gig];
  }

  /** An id that is not trimmed is stored under its trimmed key and never read back: the window it is
      appended to reads as empty, so the next append to it drops the id. */
  lemma UntrimmedIdIsDropped(c: Cache, user: string, a: GigPreview, b: GigPreview, size: int)
    requires CleanKeys(c) && (forall i :: (user, i) !in c.windows)
    requires !Trimmed(a.id) && a.id != b.id && size >= 1
    ensures var c1 := Append(c, user, a, size, []);
            var c2 := Append(c1, user, b, size, [0]);
            a.id in Members(c1, user, 0) && a.id !in Members(c2, user, 0)
  {
    var c1 := Append(c, user, a, size, []);
    OneGig(c, user, a);
    TrimSpaceTrims(a.id);
    var z := c1.windows[(user, 0)];
    RevRangeSorted(z);
    assert a.id !in c1.payloads;
    PayloadsShape(c1.payloads, RevRange(z));
    assert ReadsAs(c1, user, 0, []);
    assert Ids([]) == {} && [] + [b] == [b];
    assert Append(c1, user, b, size, [0]) == WriteWindow(c1, user, 0, [b]);
    OneGig(c1, user, b);
  }
}
