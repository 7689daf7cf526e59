/** When the key that chooses a command's lane is the gig the handler changes. */
module RecoveryKeys {
  import opened Text
  import opened Wrappers
  import opened Commands
  import opened GigCommands
  import opened RecoveryHandler

  lemma {:induction false} TrimLeftKeepsSuffix(s: string, suffix: string)
    requires HasSuffix(s, suffix) && suffix != "" && !IsSpace(suffix[0])
    ensures HasSuffix(TrimLeft(s), suffix)
  {
    if |s| > |suffix| && IsSpace(s[0]) {
      assert s[1..][|s[1..]| - |suffix|..] == s[|s| - |suffix|..];
      TrimLeftKeepsSuffix(s[1..], suffix);
    } else if |s| == |suffix| {
      assert s[0..] == s == suffix;
    }
  }

  /** A suffix without white space at its ends survives trimming. */
  lemma TrimKeepsSuffix(s: string, suffix: string)
    requires HasSuffix(s, suffix) && suffix != "" && !IsSpace(suffix[0]) && !IsSpace(suffix[|suffix| - 1])
    ensures HasSuffix(TrimSpace(s), suffix)
  {
    TrimLeftKeepsSuffix(s, suffix);
    var t := TrimLeft(s);
    assert t[|t| - 1] == suffix[|suffix| - 1];
  }

  lemma LastOfSuffix(s: string, suffix: string)
    requires HasSuffix(s, suffix) && 3 <= |suffix|
    ensures s[|s| - 3..] == suffix[|suffix| - 3..]
  {
    assert s[|s| - 3..] == s[|s| - |suffix|..][|suffix| - 3..];
  }

  function PathSuffix(kind: Kind): string {
    match kind
    case DraftKind => DRAFTS_SUFFIX
    case BasicInfoKind => BASIC_INFO_SUFFIX
    case PackagesKind => PACKAGES_SUFFIX
    case RequirementsKind => REQUIREMENTS_SUFFIX
    case MediaKind => MEDIA_SUFFIX
    case PublishKind => PUBLISH_SUFFIX
  }

  lemma PathSuffixShape(kind: Kind)
    ensures var suffix := PathSuffix(kind);
            && 3 <= |suffix| && !IsSpace(suffix[0]) && !IsSpace(suffix[|suffix| - 1])
            && (!kind.DraftKind? ==> suffix[|suffix| - 3..] != DRAFTS_SUFFIX[|DRAFTS_SUFFIX| - 3..])
  {
    assert DRAFTS_SUFFIX[|DRAFTS_SUFFIX| - 3..] == "fts";
    assert PathSuffix(kind)[|PathSuffix(kind)| - 3..] == match kind
      case DraftKind => "fts"
      case BasicInfoKind => "nfo"
      case PackagesKind => "ges"
      case RequirementsKind => "nts"
      case MediaKind => "dia"
      case PublishKind => "ish";
  }

  lemma KindSuffix(operation: string, path: string)
    requires KindOf(operation, path).Some?
    ensures HasSuffix(path, PathSuffix(KindOf(operation, path).value))
  {
  }

  lemma DecodedKind(kind: Kind, e: Envelope)
    requires DecodeAs(kind, e).Ok?
    ensures var cmd := DecodeAs(kind, e).value;
            && (cmd.CreateDraft? <==> kind.DraftKind?)
            && cmd.gigId == if cmd.CreateDraft? then TrimSpace(PayloadOf(e).gigId) else GigIdOf(e, PayloadOf(e))
  {
  }

  /** What decoding tells of a command. */
  lemma DecodedShape(e: Envelope, cmd: Command)
    requires Decode(e) == Ok(cmd)
    ensures HasSuffix(TrimSpace(e.commandPath), DRAFTS_SUFFIX) <==> cmd.CreateDraft?
    ensures TrimSpace(e.aggregateId) != ""
    ensures cmd.gigId == if cmd.CreateDraft? then TrimSpace(PayloadOf(e).gigId) else GigIdOf(e, PayloadOf(e))
  {
    var kind := KindOf(e.operation, e.commandPath).value;
    KindSuffix(e.operation, e.commandPath);
    DecodedKind(kind, e);
    DraftPath(e.commandPath, kind);
  }

  /** The path shows whether a draft is created, also to the trimmed test of the lane key. */
  lemma DraftPath(path: string, kind: Kind)
    requires HasSuffix(path, PathSuffix(kind))
    ensures HasSuffix(TrimSpace(path), DRAFTS_SUFFIX) <==> kind.DraftKind?
  {
    PathSuffixShape(kind);
    TrimKeepsSuffix(path, PathSuffix(kind));
    LastOfSuffix(TrimSpace(path), PathSuffix(kind));
    if HasSuffix(TrimSpace(path), DRAFTS_SUFFIX) {
      LastOfSuffix(TrimSpace(path), DRAFTS_SUFFIX);
    }
  }

  /** The handler finds the marker in any letter case, the lane key only in lower case. */
  predicate OccursBefore(path: string, n: int) {
    exists j :: 0 <= j < n && OccursAt(ToLower(path), GIGS_MARKER, j)
  }

  lemma MarkerInLower(path: string, i: nat)
    requires OccursAt(path, GIGS_MARKER, i)
    ensures OccursAt(ToLower(path), GIGS_MARKER, i)
  {
    var n := i + |GIGS_MARKER|;
    var here := path[i..n];
    var lower := ToLower(path)[i..n];
    forall k | 0 <= k < |GIGS_MARKER|
      ensures lower[k] == GIGS_MARKER[k]
    {
      assert lower[k] == LowerChar(here[k]);
      assert here[k] == GIGS_MARKER[k];
    }
    assert lower == GIGS_MARKER;
  }

  /** Without a marker in other letters before it, the handler reads the segment the path names. */
  lemma NamedIsRecovered(e: Envelope, id: string)
    requires GigSegment(id) && Names(TrimSpace(e.commandPath), id)
    requires !OccursBefore(TrimSpace(e.commandPath), Index(TrimSpace(e.commandPath), GIGS_MARKER))
    ensures RecoveryGigId(e, e.aggregateId) == id
  {
    var path := TrimSpace(e.commandPath);
    var prefix, rest :| NamesAt(path, prefix, id, rest);
    SegmentOfNamed(path, prefix, id, rest);
    MarkerInLower(path, |prefix|);
    IndexIs(ToLower(path), GIGS_MARKER, |prefix|);
  }

  /** The payload's id, where there is one, decides what the handler changes, else the path. */
  predicate NamesHandled(e: Envelope, id: string) {
    var path := TrimSpace(e.commandPath);
    if PayloadOf(e).gigId != "" then TrimSpace(PayloadOf(e).gigId) == id
    else if OccursBefore(path, Index(path, GIGS_MARKER)) then TrimSpace(RecoveryGigId(e, e.aggregateId)) == id
    else Trimmed(id)
  }

  lemma NamedHandled(e: Envelope, id: string)
    requires GigSegment(id) && Names(TrimSpace(e.commandPath), id)
    ensures TrimSpace(GigIdOf(e, PayloadOf(e))) == id <==> NamesHandled(e, id)
  {
    var path := TrimSpace(e.commandPath);
    TrimSpaceTrims(id);
    if !OccursBefore(path, Index(path, GIGS_MARKER)) {
      NamedIsRecovered(e, id);
    }
  }

  /** Main result. A command other than a draft creation, whose path names gig `id`, runs in that gig's lane.
      It changes that gig if and only if the payload's id, where it has one, is the same; without one, where no
      marker in other letters stands first and the id is trimmed. */
  lemma NamedKeyIsGig(m: Message, e: Envelope, cmd: Command, env: Env, id: string)
    requires m.envelope == Some(e) && Decode(e) == Ok(cmd) && !cmd.CreateDraft?
    requires GigSegment(id) && Names(TrimSpace(e.commandPath), id)
    ensures LaneKey(m) == id
    ensures LaneKey(m) == TargetOf(cmd, env) <==> NamesHandled(e, id)
  {
    DecodedShape(e, cmd);
    SameGigSameKey(m, id);
    NamedHandled(e, id);
  }

  /** The same where the path names no gig. */
  predicate AggregateHandled(e: Envelope) {
    var path := TrimSpace(e.commandPath);
    if PayloadOf(e).gigId != "" then TrimSpace(PayloadOf(e).gigId) == e.aggregateId
    else if OccursBefore(path, |path|) then TrimSpace(RecoveryGigId(e, e.aggregateId)) == e.aggregateId
    else Trimmed(e.aggregateId)
  }

  lemma UnnamedHandled(e: Envelope)
    ensures TrimSpace(GigIdOf(e, PayloadOf(e))) == e.aggregateId <==> AggregateHandled(e)
  {
    TrimSpaceTrims(e.aggregateId);
    IndexFromFirst(ToLower(TrimSpace(e.commandPath)), GIGS_MARKER, 0);
  }

  /** Where the path names no gig, the aggregate chooses the lane. */
  lemma AggregateKeyIsGig(m: Message, e: Envelope, cmd: Command, env: Env)
    requires m.envelope == Some(e) && Decode(e) == Ok(cmd) && !cmd.CreateDraft?
    requires forall id :: GigSegment(id) ==> !Names(TrimSpace(e.commandPath), id)
    ensures LaneKey(m) == e.aggregateId
    ensures LaneKey(m) == TargetOf(cmd, env) <==> AggregateHandled(e)
  {
    DecodedShape(e, cmd);
    UnnamedKey(m);
    UnnamedHandled(e);
  }

  /** A draft creation runs in the lane of its command id, so in its gig's lane only if the two ids are equal. */
  lemma DraftKeyIsGig(m: Message, e: Envelope, cmd: Command, env: Env)
    requires m.envelope == Some(e) && Decode(e) == Ok(cmd) && cmd.CreateDraft? && TrimSpace(e.commandId) != ""
    ensures LaneKey(m) == e.commandId
    ensures LaneKey(m) == TargetOf(cmd, env)
            <==> e.commandId == if TrimSpace(PayloadOf(e).gigId) != "" then TrimSpace(PayloadOf(e).gigId) else env.generated(0)
  {
    DecodedShape(e, cmd);
  }

  /** A payload id other than the path's: two lanes handle commands on one gig. */
  lemma TwoLanesOneGig(m: Message, n: Message, cmd: Command, other: Command, env: Env, id: string, third: string)
    requires m.envelope.Some? && Decode(m.envelope.value) == Ok(cmd) && !cmd.CreateDraft?
    requires n.envelope.Some? && Decode(n.envelope.value) == Ok(other) && !other.CreateDraft?
    requires GigSegment(id) && Names(TrimSpace(m.envelope.value.commandPath), id)
    requires GigSegment(third) && Names(TrimSpace(n.envelope.value.commandPath), third) && id != third
    requires PayloadOf(m.envelope.value).gigId != "" && PayloadOf(m.envelope.value).gigId == PayloadOf(n.envelope.value).gigId
    ensures TargetOf(cmd, env) == TargetOf(other, env) && LaneKey(m) != LaneKey(n)
  {
    NamedKeyIsGig(m, m.envelope.value, cmd, env, id);
    NamedKeyIsGig(n, n.envelope.value, other, env, third);
    DecodedShape(m.envelope.value, cmd);
    DecodedShape(n.envelope.value, other);
  }
}
