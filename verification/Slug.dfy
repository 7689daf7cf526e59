/** slug.go, Generate, and grpc/server.go, parseGigIDFromSlug. */
module Slug {
  import opened Text
  import opened Wrappers

  /** `base` is the normalized title. */
  function Generate(base: string, gigId: string): string {
    if base == "" || gigId == "" then "" else base + "-" + gigId
  }

  const ID_LENGTH := 36
  const DASH := 0x2D

  predicate IsHexByte(b: nat) {
    0x30 <= b <= 0x39 || 0x61 <= b <= 0x66 || 0x41 <= b <= 0x46
  }

  /** The 36-byte text form of a UUID, section 4 of RFC 9562: dashes at 8, 13, 18 and 23, hex digits of
      either case elsewhere. Of the forms `uuid.Parse` knows, only this one has 36 bytes. */
  predicate IsUuidText(s: seq<nat>) {
    && |s| == ID_LENGTH
    && forall i :: 0 <= i < |s| ==> if i in {8, 13, 18, 23} then s[i] == DASH else IsHexByte(s[i])
  }

  /** Version 7, section 5.7 of RFC 9562: the version digit leads the third group. */
  predicate IsUuid7Text(s: seq<nat>) {
    IsUuidText(s) && s[14] == 0x37
  }

  /** ASCII text of bytes below 0x80. */
  function FromAscii(s: seq<nat>): (r: string)
    requires forall i :: 0 <= i < |s| ==> s[i] < 0x80
    ensures |r| == |s| && forall i :: 0 <= i < |r| ==> r[i] as int == s[i]
  {
    seq(|s|, i requires 0 <= i < |s| => s[i] as char)
  }

  /** Works on the bytes of the trimmed slug. */
  function ParseGigId(slug: string): Option<string> {
    var b := Utf8(TrimSpace(slug));
    if |b| <= ID_LENGTH + 1 then None
    else if b[|b| - (ID_LENGTH + 1)] != DASH then None
    else if !IsUuid7Text(b[|b| - ID_LENGTH..]) then None
    else Some(FromAscii(b[|b| - ID_LENGTH..]))
  }

  predicate IsUuid7(id: string) {
    IsUuid7Text(Utf8(id))
  }

  lemma {:induction false} Utf8Concat(a: string, b: string)
    ensures Utf8(a + b) == Utf8(a) + Utf8(b)
  {
    if a == [] {
      assert a + b == b;
    } else {
      assert (a + b)[1..] == a[1..] + b;
      Utf8Concat(a[1..], b);
    }
  }

  lemma Utf8One(c: char)
    ensures Utf8([c]) == Utf8Char(c)
  {
    assert [c][1..] == [];
    assert Utf8Char(c) + [] == Utf8Char(c);
  }

  lemma Utf8Last(s: string)
    requires s != []
    ensures Utf8(s) == Utf8(s[..|s| - 1]) + Utf8Char(s[|s| - 1])
  {
    var n := |s| - 1;
    assert s == s[..n] + [s[n]];
    Utf8Concat(s[..n], [s[n]]);
    Utf8One(s[n]);
  }

  lemma AsciiLast(s: string)
    requires Utf8(s) != [] && Utf8(s)[|Utf8(s)| - 1] < 0x80
    ensures s != [] && s[|s| - 1] as int == Utf8(s)[|Utf8(s)| - 1]
    ensures Utf8(s[..|s| - 1]) == Utf8(s)[..|Utf8(s)| - 1]
  {
    Utf8Last(s);
    var last := Utf8Char(s[|s| - 1]);
    assert Utf8(s)[|Utf8(s)| - 1] == last[|last| - 1];
  }

  /** The last k code points of the text are its last k bytes. */
  ghost predicate SameTail(s: string, b: seq<nat>, k: nat) {
    k <= |s| && k <= |b| && forall j :: |s| - k <= j < |s| ==> s[j] as int == b[j + (|b| - |s|)]
  }

  lemma SameTailGrows(s: string, b: seq<nat>, k: nat)
    requires s != [] && b != [] && s[|s| - 1] as int == b[|b| - 1] && SameTail(s[..|s| - 1], b[..|b| - 1], k)
    ensures SameTail(s, b, k + 1)
  {
    forall j | |s| - (k + 1) <= j < |s|
      ensures s[j] as int == b[j + (|b| - |s|)]
    {
      if j < |s| - 1 {
        assert s[..|s| - 1][j] as int == b[..|b| - 1][j + (|b| - |s|)];
      }
    }
  }

  /** Where the bytes of a text end in ASCII, so does the text: no later byte of a longer code point is
      below 0x80. */
  lemma {:induction false} AsciiTail(s: string, b: seq<nat>, k: nat)
    requires b == Utf8(s) && k <= |b| && forall i :: |b| - k <= i < |b| ==> b[i] < 0x80
    ensures SameTail(s, b, k)
    decreases k
  {
    if k > 0 {
      AsciiLast(s);
      AsciiTail(s[..|s| - 1], b[..|b| - 1], k - 1);
      SameTailGrows(s, b, k - 1);
    }
  }

  lemma {:induction false} AsciiBytes(s: string)
    requires forall i :: 0 <= i < |s| ==> s[i] as int < 0x80
    ensures |Utf8(s)| == |s| && forall i :: 0 <= i < |s| ==> Utf8(s)[i] == s[i] as int
  {
    if s != [] {
      AsciiBytes(s[1..]);
    }
  }

  /** Text whose bytes are all ASCII has one code point for each byte. */
  lemma AsciiText(s: string)
    requires forall i :: 0 <= i < |Utf8(s)| ==> Utf8(s)[i] < 0x80
    ensures |s| == |Utf8(s)| && FromAscii(Utf8(s)) == s
  {
    forall j | 0 <= j < |s|
      ensures s[j] as int < 0x80
    {
      AsciiAt(s, j);
    }
    AsciiBytes(s);
  }

  /** Every code point of a text contributes its bytes. */
  lemma {:induction false} AsciiAt(s: string, j: nat)
    requires j < |s| && forall i :: 0 <= i < |Utf8(s)| ==> Utf8(s)[i] < 0x80
    ensures s[j] as int < 0x80
  {
    var head, rest := Utf8Char(s[0]), Utf8(s[1..]);
    assert Utf8(s) == head + rest;
    assert head[0] == Utf8(s)[0];
    if j > 0 {
      forall i | 0 <= i < |rest|
        ensures rest[i] < 0x80
      {
        assert rest[i] == Utf8(s)[|head| + i];
      }
      AsciiAt(s[1..], j - 1);
    }
  }

  lemma Uuid7IsAscii(id: string)
    requires IsUuid7(id)
    ensures |id| == ID_LENGTH && FromAscii(Utf8(id)) == id && !IsSpace(id[ID_LENGTH - 1])
  {
    AsciiText(id);
    assert IsHexByte(Utf8(id)[ID_LENGTH - 1]);
  }

  /** Main result. A slug is accepted, with `id`, if and only if `id` is a version 7 UUID text and the slug,
      once trimmed, is a non-empty prefix, a dash and `id`. */
  lemma AcceptedSlugs(slug: string, id: string)
    ensures ParseGigId(slug) == Some(id)
            <==> && IsUuid7(id)
                 && |TrimSpace(slug)| > ID_LENGTH + 1
                 && TrimSpace(slug) == TrimSpace(slug)[..|TrimSpace(slug)| - (ID_LENGTH + 1)] + "-" + id
  {
    var s := TrimSpace(slug);
    if ParseGigId(slug) == Some(id) {
      Accepted(s, id);
    }
    if IsUuid7(id) && |s| > ID_LENGTH + 1 && s == s[..|s| - (ID_LENGTH + 1)] + "-" + id {
      Parses(s[..|s| - (ID_LENGTH + 1)], id);
    }
  }

  lemma TailIsAscii(b: seq<nat>)
    requires |b| > ID_LENGTH + 1 && b[|b| - (ID_LENGTH + 1)] == DASH && IsUuid7Text(b[|b| - ID_LENGTH..])
    ensures forall i :: |b| - (ID_LENGTH + 1) <= i < |b| ==> b[i] < 0x80
  {
    var tail := b[|b| - ID_LENGTH..];
    forall i | |b| - ID_LENGTH <= i < |b|
      ensures b[i] < 0x80
    {
      assert b[i] == tail[i - (|b| - ID_LENGTH)];
    }
  }

  lemma AcceptedTail(s: string, b: seq<nat>, id: string)
    requires |b| > ID_LENGTH + 1 && SameTail(s, b, ID_LENGTH + 1) && b[|b| - (ID_LENGTH + 1)] == DASH
    requires forall i :: |b| - ID_LENGTH <= i < |b| ==> b[i] < 0x80
    requires id == FromAscii(b[|b| - ID_LENGTH..])
    ensures s == s[..|s| - (ID_LENGTH + 1)] + "-" + id
  {
    var end := s[|s| - ID_LENGTH..];
    forall i | 0 <= i < ID_LENGTH
      ensures end[i] == id[i]
    {
      var j := |s| - ID_LENGTH + i;
      assert s[j] as int == b[j + (|b| - |s|)];
    }
    assert end == id;
    var j := |s| - (ID_LENGTH + 1);
    assert s[j] as int == b[j + (|b| - |s|)];
  }

  /** More bytes than its ASCII tail has code points: there is a prefix. */
  lemma LongerThanTail(s: string, k: nat)
    requires SameTail(s, Utf8(s), k) && |Utf8(s)| > k
    requires forall i :: |Utf8(s)| - k <= i < |Utf8(s)| ==> Utf8(s)[i] < 0x80
    ensures |s| > k
  {
    if |s| == k {
      assert forall j :: 0 <= j < |s| ==> s[j] as int < 0x80;
      AsciiBytes(s);
    }
  }

  lemma Accepted(s: string, id: string)
    requires var b := Utf8(s);
             && |b| > ID_LENGTH + 1 && b[|b| - (ID_LENGTH + 1)] == DASH
             && IsUuid7Text(b[|b| - ID_LENGTH..]) && id == FromAscii(b[|b| - ID_LENGTH..])
    ensures IsUuid7(id) && |s| > ID_LENGTH + 1 && s == s[..|s| - (ID_LENGTH + 1)] + "-" + id
  {
    var b := Utf8(s);
    TailIsAscii(b);
    AsciiTail(s, b, ID_LENGTH + 1);
    LongerThanTail(s, ID_LENGTH + 1);
    AcceptedTail(s, b, id);
    AsciiBytes(id);
    assert Utf8(id) == b[|b| - ID_LENGTH..];
  }

  lemma Parses(prefix: string, id: string)
    requires IsUuid7(id) && prefix != ""
    ensures var b := Utf8(prefix + "-" + id);
            && |b| > ID_LENGTH + 1 && b[|b| - (ID_LENGTH + 1)] == DASH
            && b[|b| - ID_LENGTH..] == Utf8(id) && FromAscii(Utf8(id)) == id
  {
    Uuid7IsAscii(id);
    Utf8Concat(prefix + "-", id);
    Utf8Concat(prefix, "-");
    assert Utf8("-") == [DASH];
    assert |Utf8(prefix)| > 0;
  }

  /** Main result. The id of a generated slug is recovered from it, whatever the base, if and only if the
      base is not all white space; in particular for every non-empty base without leading white space. */
  lemma SlugRoundTrip(base: string, id: string)
    requires base != "" && IsUuid7(id)
    ensures ParseGigId(Generate(base, id)) == Some(id) <==> TrimLeft(base) != ""
    ensures !IsSpace(base[0]) ==> ParseGigId(Generate(base, id)) == Some(id)
  {
    Uuid7IsAscii(id);
    var slug := Generate(base, id);
    TrimOfSlug(base, id);
    assert slug == base + "-" + id;
    AcceptedSlugs(slug, id);
    var s := TrimSpace(slug);
    assert s == TrimLeft(base) + "-" + id;
    assert |s| == |TrimLeft(base)| + ID_LENGTH + 1;
    assert s[..|s| - (ID_LENGTH + 1)] == TrimLeft(base);
  }

  lemma TrimOfSlug(base: string, id: string)
    requires id != "" && !IsSpace(id[|id| - 1])
    ensures TrimSpace(base + "-" + id) == TrimLeft(base) + "-" + id
  {
    TrimLeftConcat(base, "-" + id);
    assert base + ("-" + id) == base + "-" + id;
    assert TrimLeft(base) + ("-" + id) == TrimLeft(base) + "-" + id;
  }

  lemma {:induction false} TrimLeftConcat(a: string, b: string)
    requires b != "" && !IsSpace(b[0])
    ensures TrimLeft(a + b) == TrimLeft(a) + b
  {
    if a == [] {
      assert a + b == b;
    } else if IsSpace(a[0]) {
      assert (a + b)[1..] == a[1..] + b;
      TrimLeftConcat(a[1..], b);
    }
  }
}
