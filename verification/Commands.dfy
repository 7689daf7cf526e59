/** Recovery commands: the migration envelope a Kafka message carries, and its decoded payload. */
module Commands {
  import opened Text
  import opened Wrappers

  datatype PackageInput = PackageInput(id: string, tier: string, description: string, deliveryDays: int, priceCents: int)

  datatype QuestionInput = QuestionInput(id: string, content: string)

  /** A file to upload, with its bytes. */
  datatype FileInput = FileInput(filename: string, contentType: string, data: seq<nat>)

  /** The same in a payload, where the data is base64 text; None is text that does not decode. */
  datatype EncodedFile = EncodedFile(filename: string, contentType: string, data: Option<seq<nat>>)

  /** The decoded JSON payload; a field the JSON lacks has its zero value. */
  datatype Payload = Payload(
    gigId: string,
    freelancerId: string,
    freelancerIdCamel: string,
    title: string,
    shortInfo: string,
    description: string,
    categoryId: int,
    currency: string,
    packages: seq<PackageInput>,
    questions: seq<QuestionInput>,
    files: seq<EncodedFile>,
    username: string)

  /** The payload bytes: none, no JSON object of the shape the command needs, or one. */
  datatype Body = Empty | NoJson | Json(value: Payload)

  /** A migration envelope. The token fields are the claims of the captured access token. */
  datatype Envelope = Envelope(
    commandId: string,
    operation: string,
    commandPath: string,
    aggregateType: string,
    aggregateId: string,
    recoveryPrincipalId: string,
    recoveryUsername: string,
    tokenSubject: string,
    tokenUsername: string,
    payload: Body)

  /** A fetched Kafka message. `envelope` is None when the value does not decode;
      `fingerprint` is the event id derived from the raw value. */
  datatype Message = Message(offset: nat, key: string, fingerprint: string, envelope: Option<Envelope>)

  const GIGS_MARKER := "/gigs/"
  const DRAFTS_SUFFIX := "/gigs/drafts"

  /** The path segment after the marker at `i`. */
  function SegmentAt(path: string, i: nat): string
    requires i + |GIGS_MARKER| <= |path|
  {
    UpToSlash(path[i + |GIGS_MARKER|..])
  }

  /** A draft creation goes by its own command id. */
  predicate KeyedByCommand(e: Envelope) {
    HasSuffix(TrimSpace(e.commandPath), DRAFTS_SUFFIX) && TrimSpace(e.commandId) != ""
  }

  /** broker.go, recoveryLaneKey: what a message is hashed by. */
  function LaneKey(m: Message): string {
    match m.envelope
    case None => m.key
    case Some(e) =>
      var path := TrimSpace(e.commandPath);
      if KeyedByCommand(e) then e.commandId
      else
        IndexFromFirst(path, GIGS_MARKER, 0);
        var marker := Index(path, GIGS_MARKER);
        if marker >= 0 && SegmentAt(path, marker) != "" && SegmentAt(path, marker) != "drafts" then
          SegmentAt(path, marker)
        else if TrimSpace(e.aggregateId) != "" then e.aggregateId
        else m.key
  }

  /** recovery_subscriber.go, recoveryGigID: the gig a command without payload id addresses. */
  function RecoveryGigId(e: Envelope, fallback: string): string {
    var path := TrimSpace(e.commandPath);
    IndexFromFirst(ToLower(path), GIGS_MARKER, 0);
    var marker := Index(ToLower(path), GIGS_MARKER);
    if marker >= 0 && SegmentAt(path, marker) != "" && SegmentAt(path, marker) != "drafts" then
      SegmentAt(path, marker)
    else TrimSpace(fallback)
  }

  /** recovery_subscriber.go, recoveryFreelancerID. */
  function RecoveryFreelancerId(candidate: string, e: Envelope): string {
    FirstNonBlank(candidate, e.recoveryPrincipalId, e.tokenSubject)
  }

  /** broker.go, the id that is claimed: the command id, else the fingerprint of the value. */
  function EventId(m: Message): string {
    if m.envelope.Some? && m.envelope.value.commandId != "" then m.envelope.value.commandId else m.fingerprint
  }

  /** The segment of a path that names a gig: no slash, and neither empty nor the drafts collection. */
  predicate GigSegment(id: string) {
    id != "" && id != "drafts" && '/' !in id
  }

  /** A path that names gig `id` after its first marker. */
  ghost predicate Names(path: string, id: string) {
    exists prefix, rest :: NamesAt(path, prefix, id, rest)
  }

  ghost predicate NamesAt(path: string, prefix: string, id: string, rest: string) {
    && path == prefix + (GIGS_MARKER + (id + rest))
    && (rest == "" || rest[0] == '/')
    && (forall j :: 0 <= j < |prefix| ==> !OccursAt(path, GIGS_MARKER, j))
  }

  lemma SegmentOfNamed(path: string, prefix: string, id: string, rest: string)
    requires GigSegment(id) && NamesAt(path, prefix, id, rest)
    ensures |prefix| + |GIGS_MARKER| <= |path|
    ensures OccursAt(path, GIGS_MARKER, |prefix|)
    ensures Index(path, GIGS_MARKER) == |prefix|
    ensures SegmentAt(path, |prefix|) == id
  {
    var tail := GIGS_MARKER + (id + rest);
    assert path[|prefix|..] == tail;
    assert tail[..|GIGS_MARKER|] == GIGS_MARKER;
    assert path[|prefix|..|prefix| + |GIGS_MARKER|] == tail[..|GIGS_MARKER|];
    IndexIs(path, GIGS_MARKER, |prefix|);
    assert path[|prefix| + |GIGS_MARKER|..] == tail[|GIGS_MARKER|..] == id + rest;
    UpToSlashOfSegment(id, rest);
  }

  /** Commands on one gig share a lane key: every command whose path names gig `id`, and which is not
      keyed as a draft creation, is keyed by `id`, whatever its Kafka key, aggregate id or command id. */
  lemma SameGigSameKey(m: Message, id: string)
    requires m.envelope.Some?
    requires GigSegment(id) && Names(TrimSpace(m.envelope.value.commandPath), id)
    requires !KeyedByCommand(m.envelope.value)
    ensures LaneKey(m) == id
  {
    var path := TrimSpace(m.envelope.value.commandPath);
    var prefix, rest :| NamesAt(path, prefix, id, rest);
    SegmentOfNamed(path, prefix, id, rest);
  }

  lemma CutTwice(s: string, i: nat, n: nat)
    requires i <= n <= |s|
    ensures s == s[..i] + (s[i..n] + s[n..])
  {
  }

  /** A segment behind the first marker that counts as a gig is one the path names. */
  lemma SegmentIsNamed(path: string)
    requires Index(path, GIGS_MARKER) >= 0 && Index(path, GIGS_MARKER) + |GIGS_MARKER| <= |path|
    ensures var seg := SegmentAt(path, Index(path, GIGS_MARKER));
            seg != "" && seg != "drafts" ==> GigSegment(seg) && Names(path, seg)
  {
    IndexFromFirst(path, GIGS_MARKER, 0);
    var i := Index(path, GIGS_MARKER);
    var n := i + |GIGS_MARKER|;
    CutTwice(path, i, n);
    UpToSlashCuts(path[n..]);
    var seg := UpToSlash(path[n..]);
    var rest := path[n..][|seg|..];
    assert NamesAt(path, path[..i], seg, rest);
  }

  /** Commands whose path names no gig are kept together by their aggregate; what has none, and what does
      not decode, by its Kafka key. */
  lemma UnnamedKey(m: Message)
    requires m.envelope.Some? ==>
               && !KeyedByCommand(m.envelope.value)
               && forall id :: GigSegment(id) ==> !Names(TrimSpace(m.envelope.value.commandPath), id)
    ensures LaneKey(m) == if m.envelope.Some? && TrimSpace(m.envelope.value.aggregateId) != ""
                          then m.envelope.value.aggregateId else m.key
  {
    if m.envelope.Some? {
      var path := TrimSpace(m.envelope.value.commandPath);
      IndexFromFirst(path, GIGS_MARKER, 0);
      if Index(path, GIGS_MARKER) >= 0 {
        SegmentIsNamed(path);
      }
    }
  }

  /** The owner of a recovery command is trimmed, and missing only where every source of it is blank. */
  lemma OwnerIsNamed(candidate: string, e: Envelope)
    ensures Trimmed(RecoveryFreelancerId(candidate, e))
    ensures RecoveryFreelancerId(candidate, e) == ""
            <==> TrimSpace(candidate) == "" && TrimSpace(e.recoveryPrincipalId) == "" && TrimSpace(e.tokenSubject) == ""
    ensures TrimSpace(candidate) != "" ==> RecoveryFreelancerId(candidate, e) == TrimSpace(candidate)
  {
    TrimSpaceTrims(candidate);
    TrimSpaceTrims(e.recoveryPrincipalId);
    TrimSpaceTrims(e.tokenSubject);
  }
}
