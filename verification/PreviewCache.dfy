/** redis/repository.go: preview payloads, a seller's numbered preview windows as sorted sets, and the
    owner index, as functions on the cache contents. */
module PreviewCache {
  import opened Text
  import opened Wrappers
  import opened Ordering
  import opened Float64
  import opened Preview

  /** A Redis sorted set: members and their scores. */
  type ZSet = map<string, int>

  /** Payloads by the id in their key, windows by user and number, owner indexes by user. A window or
      index without members does not exist. */
  datatype Cache = Cache(
    payloads: map<string, GigPreview>,
    windows: map<(string, int), ZSet>,
    owners: map<string, ZSet>)

  datatype CacheError = InvalidUsername | NilGig | InvalidGigID | GigNotFound | PreviewLeaseBusy

  datatype Window = Window(gigs: seq<GigPreview>, hasMore: bool)

  // ----- Sorted sets -----

  function ByScore(z: ZSet): (string, string) -> bool {
    (a, b) =>
      var x, y := if a in z then z[a] else 0, if b in z then z[b] else 0;
      if x == y then Less(b, a) else x > y
  }

  lemma ScoreOrder(z: ZSet)
    ensures StrictWeak(ByScore(z))
    ensures forall s :: Separates(ByScore(z), s)
  {
    var rank := (a: string) => (0, (if a in z then z[a] else 0) as real);
    var id := (a: string) => a;
    RankedOrder(ByScore(z), rank, id, false);
    forall s
      ensures Separates(ByScore(z), s)
    {
      RankedSeparates(ByScore(z), rank, id, false, s);
    }
  }

  /** The elements of a set, each once. */
  ghost function Elements(s: set<string>): (q: seq<string>)
    ensures multiset(q) == multiset(s)
  {
    if s == {} then []
    else
      var x :| x in s;
      [x] + Elements(s - {x})
  }

  /** ZREVRANGE 0 -1: descending score, ties in descending member order. */
  ghost function RevRange(z: ZSet): seq<string> {
    StableSort(ByScore(z), Elements(z.Keys))
  }

  lemma OncePerMember(r: seq<string>, keys: set<string>)
    requires multiset(r) == multiset(keys)
    ensures forall i, j :: 0 <= i < j < |r| ==> r[i] != r[j]
    ensures forall a :: a in r <==> a in keys
  {
    forall i, j | 0 <= i < j < |r|
      ensures r[i] != r[j]
    {
      assert r == r[..j] + [r[j]] + r[j + 1..];
      assert multiset(r)[r[j]] <= 1;
      assert multiset(r[..j])[r[j]] == 0;
      assert r[..j][i] in multiset(r[..j]);
    }
    forall a
      ensures a in r <==> a in keys
    {
      assert a in r <==> a in multiset(r);
    }
  }

  lemma RevRangeSorted(z: ZSet)
    ensures Sorted(ByScore(z), RevRange(z))
    ensures multiset(RevRange(z)) == multiset(z.Keys)
    ensures |RevRange(z)| == |z|
    ensures forall i, j :: 0 <= i < j < |RevRange(z)| ==> RevRange(z)[i] != RevRange(z)[j]
    ensures forall a :: a in RevRange(z) <==> a in z
  {
    var r := RevRange(z);
    ScoreOrder(z);
    SortSorted(ByScore(z), Elements(z.Keys));
    SortMultiset(ByScore(z), Elements(z.Keys));
    assert |multiset(r)| == |multiset(z.Keys)|;
    OncePerMember(r, z.Keys);
  }

  // ----- Windows -----

  function WithPayloads(payloads: map<string, GigPreview>, gigs: seq<GigPreview>): map<string, GigPreview>
    decreases |gigs|
  {
    if gigs == [] then payloads else WithPayloads(payloads[TrimSpace(gigs[0].id) := gigs[0]], gigs[1..])
  }

  function WithMembers(z: ZSet, gigs: seq<GigPreview>): ZSet
    decreases |gigs|
  {
    if gigs == [] then z else WithMembers(z[gigs[0].id := ToFloat(gigs[0].popularityScore)], gigs[1..])
  }

  /** The pipeline of UpsertPreviewWindow: delete the window, then set and add gig by gig. */
  function WriteWindow(c: Cache, user: string, window: int, gigs: seq<GigPreview>): Cache {
    var key := (user, window);
    c.(payloads := WithPayloads(c.payloads, gigs),
       windows := if gigs == [] then c.windows - {key} else c.windows[key := WithMembers(map[], gigs)])
  }

  function NormalWindow(window: int): int {
    if window < 0 then 0 else window
  }

  function UpsertPreviewWindow(c: Cache, user: string, window: int, gigs: seq<GigPreview>): (Cache, Result<(), CacheError>) {
    if TrimSpace(user) == "" then (c, Err(InvalidUsername))
    else (WriteWindow(c, TrimSpace(user), NormalWindow(window), gigs), Ok(()))
  }

  /** The payloads found under the ids as they stand, in order; an id without a payload is left out. */
  function Payloads(payloads: map<string, GigPreview>, ids: seq<string>): seq<GigPreview> {
    if ids == [] then []
    else (if ids[0] in payloads then [payloads[ids[0]]] else []) + Payloads(payloads, ids[1..])
  }

  ghost function ReadWindow(c: Cache, user: string, window: int): Result<Window, CacheError> {
    if (user, window) !in c.windows || c.windows[(user, window)] == map[] then Err(GigNotFound)
    else Ok(Window(Payloads(c.payloads, RevRange(c.windows[(user, window)])),
                   (user, window + 1) in c.windows && c.windows[(user, window + 1)] != map[]))
  }

  ghost function ListPreviewWindow(c: Cache, user: string, window: int): Result<Window, CacheError> {
    if TrimSpace(user) == "" then Err(InvalidUsername)
    else ReadWindow(c, TrimSpace(user), NormalWindow(window))
  }

  lemma {:induction false} MembersOf(z: ZSet, gigs: seq<GigPreview>)
    ensures WithMembers(z, gigs).Keys == z.Keys + Ids(gigs)
    ensures DistinctIds(gigs) ==> forall g :: g in gigs ==> WithMembers(z, gigs)[g.id] == ToFloat(g.popularityScore)
    ensures forall a :: a in z && a !in Ids(gigs) ==> WithMembers(z, gigs)[a] == z[a]
    decreases |gigs|
  {
    if gigs != [] {
      var y := z[gigs[0].id := ToFloat(gigs[0].popularityScore)];
      MembersOf(y, gigs[1..]);
      IdsCons(gigs);
      if DistinctIds(gigs) {
        assert gigs[0].id !in Ids(gigs[1..]);
      }
    }
  }

  lemma IdsCons(gigs: seq<GigPreview>)
    requires gigs != []
    ensures Ids(gigs) == {gigs[0].id} + Ids(gigs[1..])
    ensures forall g :: g in gigs ==> g.id in Ids(gigs)
  {
    forall a | a in Ids(gigs)
      ensures a == gigs[0].id || a in Ids(gigs[1..])
    {
      var i :| 0 <= i < |gigs| && gigs[i].id == a;
      if i > 0 {
        assert gigs[1..][i - 1].id == a;
      }
    }
    forall a | a in Ids(gigs[1..])
      ensures a in Ids(gigs)
    {
      var i :| 0 <= i < |gigs[1..]| && gigs[1..][i].id == a;
      assert gigs[i + 1].id == a;
    }
  }

  /** The ids that are already trimmed, which are those the service generates. */
  ghost predicate TrimmedIds(gigs: seq<GigPreview>) {
    forall g :: g in gigs ==> Trimmed(g.id)
  }

  lemma {:induction false} PayloadsWritten(payloads: map<string, GigPreview>, gigs: seq<GigPreview>)
    ensures forall a :: a in WithPayloads(payloads, gigs) ==>
              (a in payloads && WithPayloads(payloads, gigs)[a] == payloads[a]) || Trimmed(a)
    ensures forall a :: a in payloads ==> a in WithPayloads(payloads, gigs)
    ensures DistinctIds(gigs) && TrimmedIds(gigs) ==>
              forall g :: g in gigs ==> g.id in WithPayloads(payloads, gigs) && WithPayloads(payloads, gigs)[g.id] == g
    ensures TrimmedIds(gigs) ==>
              forall a :: a in payloads && a !in Ids(gigs) ==> WithPayloads(payloads, gigs)[a] == payloads[a]
    decreases |gigs|
  {
    if gigs != [] {
      var key := TrimSpace(gigs[0].id);
      TrimSpaceTrims(gigs[0].id);
      PayloadsWritten(payloads[key := gigs[0]], gigs[1..]);
      IdsCons(gigs);
      if TrimmedIds(gigs) {
        assert gigs[0] in gigs && key == gigs[0].id;
        assert forall g :: g in gigs[1..] ==> g in gigs;
        if DistinctIds(gigs) {
          assert gigs[0].id !in Ids(gigs[1..]);
        }
      }
    }
  }

  // ----- Owner index and single previews -----

  /** `UnixMilli` of a time in nanoseconds. */
  function Millis(t: int): int {
    t / 1_000_000
  }

  function OwnerIndex(c: Cache, user: string): ZSet {
    if user in c.owners then c.owners[user] else map[]
  }

  function WriteOwner(c: Cache, user: string, gig: GigPreview): Cache {
    c.(payloads := c.payloads[TrimSpace(gig.id) := gig],
       owners := c.owners[user := OwnerIndex(c, user)[gig.id := ToFloat(Millis(gig.updatedAt))]])
  }

  function UpsertOwnerPreview(c: Cache, user: string, gig: GigPreview): (Cache, Result<(), CacheError>) {
    if TrimSpace(user) == "" then (c, Err(InvalidUsername))
    else if TrimSpace(gig.id) == "" then (c, Err(NilGig))
    else (WriteOwner(c, TrimSpace(user), gig), Ok(()))
  }

  /** The payload keys of ids: trimmed, blank ids left out. */
  function PayloadKeys(ids: seq<string>): seq<string> {
    if ids == [] then []
    else (if TrimSpace(ids[0]) == "" then [] else [TrimSpace(ids[0])]) + PayloadKeys(ids[1..])
  }

  ghost function ListOwnerPreviews(c: Cache, user: string): Result<seq<GigPreview>, CacheError> {
    if TrimSpace(user) == "" then Err(InvalidUsername)
    else
      var gigs := Payloads(c.payloads, PayloadKeys(RevRange(OwnerIndex(c, TrimSpace(user)))));
      if gigs == [] then Err(GigNotFound) else Ok(gigs)
  }

  function GetPreviewById(c: Cache, id: string): Result<GigPreview, CacheError> {
    if TrimSpace(id) == "" then Err(InvalidGigID)
    else if TrimSpace(id) !in c.payloads then Err(GigNotFound)
    else Ok(c.payloads[TrimSpace(id)])
  }
}
