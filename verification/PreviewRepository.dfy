/** redis/repository.go in its own form: a repository whose methods change the Redis keys. */
module PreviewRepository {
  import opened Text
  import opened Wrappers
  import opened Ordering
  import opened Float64
  import opened Preview
  import opened PreviewCache
  import opened PreviewWindows

  /** ZREVRANGE 0 -1. */
  method ZRevRange(z: ZSet) returns (ids: seq<string>)
    ensures ids == RevRange(z)
  {
    var members: seq<string> := [];
    var left := z.Keys;
    while left != {}
      invariant multiset(members) + multiset(left) == multiset(z.Keys)
      decreases |left|
    {
      var x :| x in left;
      members := members + [x];
      left := left - {x};
    }
    var a := new string[|members|](i requires 0 <= i < |members| => members[i]);
    assert a[..] == members;
    SortInPlace(a, ByScore(z));
    ids := a[..];
    ScoreOrder(z);
    SortOfPermutation(ByScore(z), members, Elements(z.Keys));
  }

  lemma RevRangeEmpty(z: ZSet)
    ensures RevRange(z) == [] <==> z == map[]
  {
    RevRangeSorted(z);
    assert z == map[] <==> |z| == 0;
  }

  function Ascending(): (int, int) -> bool {
    (x, y) => x < y
  }

  /** `sort.Ints`. */
  method SortInts(s: seq<int>) returns (t: seq<int>)
    ensures multiset(t) == multiset(s)
    ensures forall i, j :: 0 <= i < j < |t| ==> t[i] <= t[j]
  {
    var a := new int[|s|](i requires 0 <= i < |s| => s[i]);
    assert a[..] == s;
    SortInPlace(a, Ascending());
    t := a[..];
    SortMultiset(Ascending(), s);
    SortSorted(Ascending(), s);
  }

  lemma KeysAhead(keys: seq<string>, ids: seq<string>, i: nat)
    requires i < |ids|
    ensures keys + PayloadKeys(ids[i..])
            == (if TrimSpace(ids[i]) == "" then keys else keys + [TrimSpace(ids[i])]) + PayloadKeys(ids[i + 1..])
  {
    var id := TrimSpace(ids[i]);
    assert ids[i..][1..] == ids[i + 1..];
    assert [] + PayloadKeys(ids[i + 1..]) == PayloadKeys(ids[i + 1..]);
    assert keys + ([id] + PayloadKeys(ids[i + 1..])) == keys + [id] + PayloadKeys(ids[i + 1..]);
  }

  /** The payload keys of the ids that are not blank. */
  method KeysOf(ids: seq<string>) returns (keys: seq<string>)
    ensures keys == PayloadKeys(ids)
  {
    keys := [];
    assert ids[0..] == ids && [] + PayloadKeys(ids) == PayloadKeys(ids);
    for i := 0 to |ids|
      invariant keys + PayloadKeys(ids[i..]) == PayloadKeys(ids)
    {
      KeysAhead(keys, ids, i);
      var id := TrimSpace(ids[i]);
      if id != "" {
        keys := keys + [id];
      }
    }
    assert ids[|ids|..] == [] && keys + [] == keys;
  }

  /** Packed windows stay packed, and hold one more id. */
  ghost predicate AddedTo(c: Cache, d: Cache, user: string, size: int, k: nat, id: string) {
    exists n: nat :: Packed(d, user, size, n) && forall a :: Present(d, user, n, a) <==> Present(c, user, k, a) || a == id
  }

  lemma AppendAdds(c: Cache, d: Cache, user: string, gig: GigPreview, size: int, indexes: seq<int>)
    requires Scanned(c, user, indexes) && d == Append(c, user, gig, size, indexes)
    ensures Trimmed(gig.id) ==> forall k: nat :: Packed(c, user, PositiveSize(size), k) ==>
              AddedTo(c, d, user, PositiveSize(size), k, gig.id)
  {
    if Trimmed(gig.id) {
      forall k: nat | Packed(c, user, PositiveSize(size), k)
        ensures AddedTo(c, d, user, PositiveSize(size), k, gig.id)
      {
        var n := AppendKeepsPacked(c, user, gig, size, k, indexes);
      }
    }
  }

  class Repository {
    var payloads: map<string, GigPreview>
    var windows: map<(string, int), ZSet>
    var owners: map<string, ZSet>
    var leases: map<string, string>

    constructor ()
      ensures View() == Cache(map[], map[], map[]) && leases == map[]
    {
      payloads, windows, owners, leases := map[], map[], map[], map[];
    }

    ghost function View(): Cache
      reads this
    {
      Cache(payloads, windows, owners)
    }

    method UpsertPreviewWindow(userId: string, window: int, gigs: seq<GigPreview>) returns (r: Result<(), CacheError>)
      modifies this`payloads, this`windows
      ensures (View(), r) == PreviewCache.UpsertPreviewWindow(old(View()), userId, window, gigs)
    {
      var user := TrimSpace(userId);
      if user == "" {
        return Err(InvalidUsername);
      }
      var key := (user, NormalWindow(window));
      windows := windows - {key};
      ghost var start, written := windows, map[];
      for i := 0 to |gigs|
        invariant WithPayloads(payloads, gigs[i..]) == WithPayloads(old(payloads), gigs)
        invariant windows == if i == 0 then start else start[key := written]
        invariant WithMembers(written, gigs[i..]) == WithMembers(map[], gigs)
        invariant i == 0 ==> written == map[]
      {
        var gig := gigs[i];
        payloads := payloads[TrimSpace(gig.id) := gig];
        var z := if key in windows then windows[key] else map[];
        windows := windows[key := z[gig.id := ToFloat(gig.popularityScore)]];
        written := z[gig.id := ToFloat(gig.popularityScore)];
        assert gigs[i..][1..] == gigs[i + 1..];
      }
      assert gigs[|gigs|..] == [];
      assert gigs != [] ==> windows == old(windows)[key := WithMembers(map[], gigs)];
      r := Ok(());
    }

    method ListPreviewWindow(userId: string, window: int) returns (r: Result<Window, CacheError>)
      ensures r == PreviewCache.ListPreviewWindow(View(), userId, window)
    {
      var user := TrimSpace(userId);
      if user == "" {
        return Err(InvalidUsername);
      }
      var w := NormalWindow(window);
      var ids := [];
      if (user, w) in windows {
        ids := ZRevRange(windows[(user, w)]);
        RevRangeEmpty(windows[(user, w)]);
      }
      if ids == [] {
        return Err(GigNotFound);
      }
      var gigs := MultiGet(ids);
      var hasMore := (user, w + 1) in windows && windows[(user, w + 1)] != map[];
      r := Ok(Window(gigs, hasMore));
    }

    /** MGET: the payloads that exist, in the order of the keys. */
    method MultiGet(keys: seq<string>) returns (gigs: seq<GigPreview>)
      ensures gigs == Payloads(payloads, keys)
    {
      gigs := [];
      for i := 0 to |keys|
        invariant gigs + Payloads(payloads, keys[i..]) == Payloads(payloads, keys)
      {
        assert keys[i..][1..] == keys[i + 1..];
        if keys[i] in payloads {
          gigs := gigs + [payloads[keys[i]]];
        }
      }
      assert keys[|keys|..] == [];
    }

    method UpsertOwnerPreview(userId: string, gig: GigPreview) returns (r: Result<(), CacheError>)
      modifies this`payloads, this`owners
      ensures (View(), r) == PreviewCache.UpsertOwnerPreview(old(View()), userId, gig)
      ensures r.Ok? ==> PreviewCache.GetPreviewById(View(), gig.id) == Ok(gig)
    {
      var user := TrimSpace(userId);
      if user == "" {
        return Err(InvalidUsername);
      }
      if TrimSpace(gig.id) == "" {
        return Err(NilGig);
      }
      var z := if user in owners then owners[user] else map[];
      payloads := payloads[TrimSpace(gig.id) := gig];
      owners := owners[user := z[gig.id := ToFloat(Millis(gig.updatedAt))]];
      r := Ok(());
    }

    method ListOwnerPreviewGigs(userId: string) returns (r: Result<seq<GigPreview>, CacheError>)
      ensures r == ListOwnerPreviews(View(), userId)
    {
      var user := TrimSpace(userId);
      if user == "" {
        return Err(InvalidUsername);
      }
      var ids := ZRevRange(if user in owners then owners[user] else map[]);
      var keys := KeysOf(ids);
      var gigs := MultiGet(keys);
      if gigs == [] {
        return Err(GigNotFound);
      }
      r := Ok(gigs);
    }

    method GetPreviewById(gigId: string) returns (r: Result<GigPreview, CacheError>)
      ensures r == PreviewCache.GetPreviewById(View(), gigId)
    {
      var id := TrimSpace(gigId);
      if id == "" {
        return Err(InvalidGigID);
      }
      if id !in payloads {
        return Err(GigNotFound);
      }
      r := Ok(payloads[id]);
    }

    /** Compare-and-delete on the lease. */
    method ReleasePreviewLease(user: string, token: string) returns (released: bool)
      modifies this`leases
      ensures released <==> user in old(leases) && old(leases)[user] == token
      ensures leases == if released then old(leases) - {user} else old(leases)
    {
      released := user in leases && leases[user] == token;
      if released {
        leases := leases - {user};
      }
    }

    /** Appends under the seller's lease. `scan` is what SCAN returns: the seller's window numbers in any
        order, possibly repeated. A busy lease or an invalid argument changes nothing. */
    method AppendPreviewGig(userId: string, gig: GigPreview, windowSize: int, token: string, scan: seq<int>)
        returns (r: Result<(), CacheError>, ghost indexes: seq<int>)
      requires forall i :: i in scan <==> (TrimSpace(userId), i) in windows
      modifies this
      ensures r == (if TrimSpace(userId) == "" then Err(InvalidUsername)
                    else if TrimSpace(gig.id) == "" then Err(NilGig)
                    else if TrimSpace(userId) in old(leases) then Err(PreviewLeaseBusy)
                    else Ok(()))
      ensures leases == old(leases)
      ensures r.Err? ==> View() == old(View())
      ensures r.Ok? ==> Scanned(old(View()), TrimSpace(userId), indexes)
                        && View() == Append(old(View()), TrimSpace(userId), gig, windowSize, indexes)
      ensures r.Ok? && Trimmed(gig.id) ==> forall k: nat :: Packed(old(View()), TrimSpace(userId), PositiveSize(windowSize), k) ==>
                AddedTo(old(View()), View(), TrimSpace(userId), PositiveSize(windowSize), k, gig.id)
    {
      indexes := [];
      var user := TrimSpace(userId);
      TrimSpaceTrims(userId);
      if user == "" {
        return Err(InvalidUsername), indexes;
      }
      if TrimSpace(gig.id) == "" {
        return Err(NilGig), indexes;
      }
      if user in leases {
        return Err(PreviewLeaseBusy), indexes;
      }
      leases := leases[user := token];
      var sorted := SortInts(scan);
      indexes := sorted;
      forall i
        ensures i in sorted <==> (user, i) in windows
      {
        assert i in sorted <==> i in multiset(sorted);
      }
      AppendInSection(user, gig, if windowSize <= 0 then 1 else windowSize, sorted);
      var released := ReleasePreviewLease(user, token);
      assert leases == old(leases);
      AppendAdds(old(View()), View(), user, gig, windowSize, indexes);
      r := Ok(());
    }

    /** The walk over the scanned windows, inside the lease. */
    method AppendInSection(user: string, gig: GigPreview, windowSize: int, indexes: seq<int>)
      requires user != "" && TrimSpace(user) == user && windowSize >= 1
      modifies this`payloads, this`windows
      ensures View() == Append(old(View()), user, gig, windowSize, indexes)
    {
      if indexes == [] {
        var written := UpsertPreviewWindow(user, 0, [gig]);
        return;
      }
      var tail := indexes[|indexes| - 1];
      for n := 0 to |indexes|
        invariant View() == old(View())
        invariant Append(View(), user, gig, windowSize, indexes) == Walk(View(), user, gig, windowSize, tail, indexes[n..])
      {
        assert indexes[n..][1..] == indexes[n + 1..];
        var current := ListPreviewWindow(user, indexes[n]);
        if current.Ok? {
          var gigs := current.value.gigs;
          if exists i :: 0 <= i < |gigs| && gigs[i].id == gig.id {
            assert gig.id in Ids(gigs);
            return;
          }
          assert gig.id !in Ids(gigs);
          if indexes[n] == tail && |gigs| < windowSize {
            var written := UpsertPreviewWindow(user, tail, gigs + [gig]);
            return;
          }
        }
      }
      assert indexes[|indexes|..] == [];
      var written := UpsertPreviewWindow(user, tail + 1, [gig]);
    }
  }
}
