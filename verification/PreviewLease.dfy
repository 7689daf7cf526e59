/** redis/repository.go, AppendPreviewGig by concurrent callers: every Redis command is one step, and a
    lease with an expiry guards the section between them. */
module PreviewLease {
  import opened Text
  import opened Wrappers
  import opened Float64
  import opened Preview
  import opened PreviewCache
  import opened PreviewWindows

  // ----- The pipeline, command by command -----

  datatype Command = DelWindow(window: int) | SetPayload(gig: GigPreview) | AddMember(window: int, gig: GigPreview)

  function Execute(c: Cache, user: string, cmd: Command): Cache {
    match cmd
    case DelWindow(w) => c.(windows := c.windows - {(user, w)})
    case SetPayload(g) => c.(payloads := c.payloads[TrimSpace(g.id) := g])
    case AddMember(w, g) =>
      var z := if (user, w) in c.windows then c.windows[(user, w)] else map[];
      c.(windows := c.windows[(user, w) := z[g.id := ToFloat(g.popularityScore)]])
  }

  function ExecuteAll(c: Cache, user: string, cmds: seq<Command>): Cache
    decreases |cmds|
  {
    if cmds == [] then c else ExecuteAll(Execute(c, user, cmds[0]), user, cmds[1..])
  }

  function GigCommands(w: int, gigs: seq<GigPreview>): seq<Command> {
    if gigs == [] then [] else [SetPayload(gigs[0]), AddMember(w, gigs[0])] + GigCommands(w, gigs[1..])
  }

  function WindowCommands(w: int, gigs: seq<GigPreview>): seq<Command> {
    [DelWindow(w)] + GigCommands(w, gigs)
  }

  lemma {:induction false} GigCommandsWrite(c: Cache, user: string, w: int, gigs: seq<GigPreview>)
    ensures var z := if (user, w) in c.windows then c.windows[(user, w)] else map[];
            ExecuteAll(c, user, GigCommands(w, gigs))
            == c.(payloads := WithPayloads(c.payloads, gigs),
                  windows := if gigs == [] then c.windows else c.windows[(user, w) := WithMembers(z, gigs)])
    decreases |gigs|
  {
    if gigs != [] {
      var cmds := GigCommands(w, gigs);
      var c1 := Execute(c, user, cmds[0]);
      var c2 := Execute(c1, user, cmds[1]);
      assert cmds[1..][1..] == GigCommands(w, gigs[1..]);
      assert ExecuteAll(c, user, cmds) == ExecuteAll(c1, user, cmds[1..]);
      assert ExecuteAll(c1, user, cmds[1..]) == ExecuteAll(c2, user, cmds[1..][1..]);
      GigCommandsWrite(c2, user, w, gigs[1..]);
    }
  }

  /** The commands of the pipeline, one after another, write the window. */
  lemma CommandsWriteWindow(c: Cache, user: string, w: int, gigs: seq<GigPreview>)
    ensures ExecuteAll(c, user, WindowCommands(w, gigs)) == WriteWindow(c, user, w, gigs)
  {
    var d := Execute(c, user, DelWindow(w));
    assert WindowCommands(w, gigs)[1..] == GigCommands(w, gigs);
    GigCommandsWrite(d, user, w, gigs);
    assert gigs != [] ==>
        d.windows[(user, w) := WithMembers(map[], gigs)] == c.windows[(user, w) := WithMembers(map[], gigs)];
  }

  // ----- Callers and the lease -----

  /** Where a call stands: not begun, holding the lease, visiting windows, sending its commands, about to
      release the lease, or ended. */
  datatype Phase =
    | Outside
    | Locked
    | Walking(tail: int, rest: seq<int>)
    | Writing(cmds: seq<Command>)
    | Unlocking(ok: bool)
    | Ended(ok: bool)

  datatype Call = Call(gig: GigPreview, size: int, token: string, phase: Phase)

  /** `order` lists the calls in the order in which they decided what to write, or that the gig is present. */
  datatype System = System(cache: Cache, lease: Option<string>, calls: seq<Call>, order: seq<nat>)

  datatype Move =
    | Acquire(p: nat)
    | Scan(p: nat, indexes: seq<int>)
    | Visit(p: nat)
    | Send(p: nat)
    | FailRead(p: nat)
    | Release(p: nat)
    | Expire

  predicate InSection(f: Phase) {
    f.Locked? || f.Walking? || f.Writing? || f.Unlocking?
  }

  ghost predicate CanMove(user: string, s: System, a: Move) {
    match a
    case Acquire(p) => p < |s.calls| && s.calls[p].phase.Outside?
    case Scan(p, indexes) => p < |s.calls| && s.calls[p].phase.Locked? && Scanned(s.cache, user, indexes)
    case Visit(p) => p < |s.calls| && s.calls[p].phase.Walking?
    case Send(p) => p < |s.calls| && s.calls[p].phase.Writing?
    case FailRead(p) => p < |s.calls| && (s.calls[p].phase.Locked? || s.calls[p].phase.Walking?)
    case Release(p) => p < |s.calls| && s.calls[p].phase.Unlocking?
    case Expire => true
  }

  function Enter(s: System, p: nat, f: Phase): System
    requires p < |s.calls|
  {
    s.(calls := s.calls[p := s.calls[p].(phase := f)])
  }

  /** The call has decided; from here on it counts in the order. */
  function Decide(s: System, p: nat, f: Phase): System
    requires p < |s.calls|
  {
    Enter(s, p, f).(order := s.order + [p])
  }

  ghost function VisitNext(user: string, s: System, p: nat): System
    requires p < |s.calls| && s.calls[p].phase.Walking?
  {
    var call := s.calls[p];
    var tail, rest := call.phase.tail, call.phase.rest;
    if rest == [] then Decide(s, p, Writing(WindowCommands(NormalWindow(tail + 1), [call.gig])))
    else
      match ReadWindow(s.cache, user, NormalWindow(rest[0]))
      case Err(_) => Enter(s, p, Walking(tail, rest[1..]))
      case Ok(window) =>
        if call.gig.id in Ids(window.gigs) then Decide(s, p, Unlocking(true))
        else if rest[0] == tail && |window.gigs| < PositiveSize(call.size) then
          Decide(s, p, Writing(WindowCommands(NormalWindow(tail), window.gigs + [call.gig])))
        else Enter(s, p, Walking(tail, rest[1..]))
  }

  ghost function Next(user: string, s: System, a: Move): System
    requires CanMove(user, s, a)
  {
    match a
    case Acquire(p) =>
      if s.lease.None? then Enter(s, p, Locked).(lease := Some(s.calls[p].token)) else Enter(s, p, Ended(false))
    case Scan(p, indexes) =>
      if indexes == [] then Decide(s, p, Writing(WindowCommands(0, [s.calls[p].gig])))
      else Enter(s, p, Walking(indexes[|indexes| - 1], indexes))
    case Visit(p) => VisitNext(user, s, p)
    case Send(p) =>
      var cmds := s.calls[p].phase.cmds;
      if cmds == [] then Enter(s, p, Unlocking(true))
      else Enter(s, p, Writing(cmds[1..])).(cache := Execute(s.cache, user, cmds[0]))
    case FailRead(p) => Enter(s, p, Unlocking(false))
    case Release(p) =>
      Enter(s, p, Ended(s.calls[p].phase.ok)).(lease := if s.lease == Some(s.calls[p].token) then None else s.lease)
    case Expire => s.(lease := None)
  }

  ghost predicate Runs(user: string, s: System, moves: seq<Move>)
    decreases |moves|
  {
    moves == [] || (CanMove(user, s, moves[0]) && Runs(user, Next(user, s, moves[0]), moves[1..]))
  }

  ghost function After(user: string, s: System, moves: seq<Move>): System
    requires Runs(user, s, moves)
    decreases |moves|
  {
    if moves == [] then s else After(user, Next(user, s, moves[0]), moves[1..])
  }

  /** Compare-and-delete: whatever happens, a lease that holds a token ends only by its expiry or by the
      release of a call with that token. */
  lemma LeaseEndsByOwner(user: string, s: System, a: Move)
    requires CanMove(user, s, a) && s.lease.Some? && Next(user, s, a).lease != s.lease
    ensures a.Expire? || (a.Release? && s.calls[a.p].token == s.lease.value)
    ensures Next(user, s, a).lease.None?
  {
  }

  // ----- With one call at a time inside the section, calls are serial -----

  /** `c` is what the calls listed in `order` make of `c0` when each runs alone, in that order. */
  ghost predicate Serial(user: string, calls: seq<Call>, c0: Cache, order: seq<nat>, c: Cache)
    decreases |order|
  {
    if order == [] then c == c0
    else
      var p := order[|order| - 1];
      && p < |calls|
      && exists m, indexes ::
        Serial(user, calls, c0, order[..|order| - 1], m) && AppendsTo(user, calls[p], m, indexes, c)
  }

  ghost predicate AppendsTo(user: string, call: Call, m: Cache, indexes: seq<int>, c: Cache) {
    Scanned(m, user, indexes) && c == Append(m, user, call.gig, call.size, indexes)
  }

  /** The phase of a call changes no serial run. */
  lemma {:induction false} SerialSame(user: string, calls: seq<Call>, calls': seq<Call>, c0: Cache, order: seq<nat>, c: Cache)
    requires Serial(user, calls, c0, order, c) && |calls| == |calls'|
    requires forall p :: 0 <= p < |calls| ==> calls'[p].gig == calls[p].gig && calls'[p].size == calls[p].size
    ensures Serial(user, calls', c0, order, c)
    decreases |order|
  {
    if order != [] {
      var p := order[|order| - 1];
      var m, indexes :| Serial(user, calls, c0, order[..|order| - 1], m) && AppendsTo(user, calls[p], m, indexes, c);
      SerialSame(user, calls, calls', c0, order[..|order| - 1], m);
      assert AppendsTo(user, calls'[p], m, indexes, c);
    }
  }

  lemma SerialSnoc(user: string, calls: seq<Call>, c0: Cache, order: seq<nat>, m: Cache, p: nat, indexes: seq<int>, c: Cache)
    requires p < |calls| && Serial(user, calls, c0, order, m) && AppendsTo(user, calls[p], m, indexes, c)
    ensures Serial(user, calls, c0, order + [p], c)
  {
    assert (order + [p])[..|order + [p]| - 1] == order;
  }

  /** At most one call is inside the section. */
  ghost predicate Exclusive(s: System) {
    forall p, q :: 0 <= p < q < |s.calls| ==> !(InSection(s.calls[p].phase) && InSection(s.calls[q].phase))
  }

  ghost predicate Decided(f: Phase) {
    f.Writing? || f == Unlocking(true) || f == Ended(true)
  }

  /** The order lists each call that decided, once. */
  ghost predicate Listed(s: System) {
    && (forall p: nat :: p in s.order <==> p < |s.calls| && Decided(s.calls[p].phase))
    && (forall i, j :: 0 <= i < j < |s.order| ==> s.order[i] != s.order[j])
  }

  /** What is left of a walk gives what the whole append gives. */
  ghost predicate OnCourse(user: string, c: Cache, call: Call) {
    call.phase.Walking? ==> exists indexes: seq<int> ::
      && Scanned(c, user, indexes)
      && Append(c, user, call.gig, call.size, indexes)
         == Walk(c, user, call.gig, PositiveSize(call.size), call.phase.tail, call.phase.rest)
  }

  /** `c` is the cache once the commands under way have been sent. */
  ghost predicate Settles(user: string, s: System, c: Cache) {
    && (forall p :: 0 <= p < |s.calls| && s.calls[p].phase.Writing? ==> c == ExecuteAll(s.cache, user, s.calls[p].phase.cmds))
    && ((forall p :: 0 <= p < |s.calls| ==> !s.calls[p].phase.Writing?) ==> c == s.cache)
  }

  ghost predicate AllOnCourse(user: string, s: System) {
    forall p :: 0 <= p < |s.calls| ==> OnCourse(user, s.cache, s.calls[p])
  }

  ghost predicate SettlesSerially(user: string, c0: Cache, s: System, c: Cache) {
    Settles(user, s, c) && Serial(user, s.calls, c0, s.order, c)
  }

  ghost predicate Serializable(user: string, c0: Cache, s: System) {
    && Exclusive(s)
    && Listed(s)
    && AllOnCourse(user, s)
    && exists c :: SettlesSerially(user, c0, s, c)
  }

  lemma ListedDecide(s: System, p: nat, f: Phase)
    requires Listed(s) && p < |s.calls| && !Decided(s.calls[p].phase) && Decided(f)
    ensures Listed(Decide(s, p, f))
  {
    var t := Decide(s, p, f);
    assert p !in s.order;
    forall q: nat
      ensures q in t.order <==> q < |t.calls| && Decided(t.calls[q].phase)
    {
    }
  }

  /** A call that decides appends to what the calls before it made. */
  lemma DecideSerially(user: string, c0: Cache, s: System, p: nat, f: Phase, indexes: seq<int>, c: Cache)
    requires p < |s.calls| && Serial(user, s.calls, c0, s.order, s.cache) && AppendsTo(user, s.calls[p], s.cache, indexes, c)
    ensures Serial(user, Decide(s, p, f).calls, c0, Decide(s, p, f).order, c)
  {
    SerialSnoc(user, s.calls, c0, s.order, s.cache, p, indexes, c);
    SerialSame(user, s.calls, Decide(s, p, f).calls, c0, s.order + [p], c);
  }

  /** Inside the section no other call is writing, so the cache is settled. */
  lemma SettledInside(user: string, c0: Cache, s: System, p: nat)
    requires Serializable(user, c0, s) && p < |s.calls| && (s.calls[p].phase.Locked? || s.calls[p].phase.Walking?)
    ensures Serial(user, s.calls, c0, s.order, s.cache)
    ensures forall q :: 0 <= q < |s.calls| ==> !s.calls[q].phase.Writing?
  {
    var c :| SettlesSerially(user, c0, s, c);
    forall q | 0 <= q < |s.calls|
      ensures !s.calls[q].phase.Writing?
    {
      assert q < p || q == p || p < q;
    }
  }

  /** Deciding lets no one in and ends the walk. */
  lemma DecideShape(user: string, s: System, p: nat, f: Phase)
    requires Exclusive(s) && AllOnCourse(user, s) && p < |s.calls| && InSection(s.calls[p].phase) && !f.Walking?
    ensures Exclusive(Decide(s, p, f)) && AllOnCourse(user, Decide(s, p, f))
  {
    var t := Decide(s, p, f);
    forall q | 0 <= q < |t.calls|
      ensures OnCourse(user, t.cache, t.calls[q])
    {
      assert OnCourse(user, s.cache, s.calls[q]);
    }
  }

  /** The holder decides to write: once its commands are sent, the cache is as its append makes it. */
  lemma DecideToWrite(user: string, c0: Cache, s: System, p: nat, indexes: seq<int>, w: int, gigs: seq<GigPreview>)
    requires Serializable(user, c0, s) && p < |s.calls| && (s.calls[p].phase.Locked? || s.calls[p].phase.Walking?)
    requires AppendsTo(user, s.calls[p], s.cache, indexes, WriteWindow(s.cache, user, w, gigs))
    ensures Serializable(user, c0, Decide(s, p, Writing(WindowCommands(w, gigs))))
  {
    var f, c := Writing(WindowCommands(w, gigs)), WriteWindow(s.cache, user, w, gigs);
    var t := Decide(s, p, f);
    DecideShape(user, s, p, f);
    ListedDecide(s, p, f);
    SettledInside(user, c0, s, p);
    DecideSerially(user, c0, s, p, f, indexes, c);
    CommandsWriteWindow(s.cache, user, w, gigs);
    assert t.calls[p].phase.Writing?;
    assert Settles(user, t, c);
    assert SettlesSerially(user, c0, t, c);
  }

  /** The holder finds its gig present: its append changes nothing. */
  lemma DecidePresent(user: string, c0: Cache, s: System, p: nat, indexes: seq<int>)
    requires Serializable(user, c0, s) && p < |s.calls| && s.calls[p].phase.Walking?
    requires AppendsTo(user, s.calls[p], s.cache, indexes, s.cache)
    ensures Serializable(user, c0, Decide(s, p, Unlocking(true)))
  {
    var t := Decide(s, p, Unlocking(true));
    DecideShape(user, s, p, Unlocking(true));
    ListedDecide(s, p, Unlocking(true));
    SettledInside(user, c0, s, p);
    DecideSerially(user, c0, s, p, Unlocking(true), indexes, s.cache);
    assert Settles(user, t, s.cache);
    assert SettlesSerially(user, c0, t, s.cache);
  }

  /** A call changes its phase without deciding, and no commands are under way before or after. */
  lemma EnterQuietly(user: string, c0: Cache, s: System, p: nat, f: Phase, lease: Option<string>)
    requires Serializable(user, c0, s) && p < |s.calls|
    requires Decided(f) == Decided(s.calls[p].phase) && !f.Writing? && !s.calls[p].phase.Writing?
    requires OnCourse(user, s.cache, s.calls[p].(phase := f))
    requires Exclusive(Enter(s, p, f).(lease := lease))
    ensures Serializable(user, c0, Enter(s, p, f).(lease := lease))
  {
    var t := Enter(s, p, f).(lease := lease);
    var c :| SettlesSerially(user, c0, s, c);
    SerialSame(user, s.calls, t.calls, c0, t.order, c);
    ListedEnter(s, p, f, lease);
    SettlesEnter(user, s, p, f, lease, c);
    assert SettlesSerially(user, c0, t, c);
  }

  lemma ListedEnter(s: System, p: nat, f: Phase, lease: Option<string>)
    requires Listed(s) && p < |s.calls| && Decided(f) == Decided(s.calls[p].phase)
    ensures Listed(Enter(s, p, f).(lease := lease))
  {
    var t := Enter(s, p, f).(lease := lease);
    forall q: nat
      ensures q in t.order <==> q < |t.calls| && Decided(t.calls[q].phase)
    {
    }
  }

  lemma SettlesEnter(user: string, s: System, p: nat, f: Phase, lease: Option<string>, c: Cache)
    requires Settles(user, s, c) && p < |s.calls| && !f.Writing? && !s.calls[p].phase.Writing?
    ensures Settles(user, Enter(s, p, f).(lease := lease), c)
  {
    var t := Enter(s, p, f).(lease := lease);
    forall q | 0 <= q < |t.calls| && t.calls[q].phase.Writing?
      ensures c == ExecuteAll(t.cache, user, t.calls[q].phase.cmds)
    {
      assert s.calls[q].phase.Writing?;
    }
    if forall q :: 0 <= q < |t.calls| ==> !t.calls[q].phase.Writing? {
      forall q | 0 <= q < |s.calls|
        ensures !s.calls[q].phase.Writing?
      {
        assert !t.calls[q].phase.Writing?;
      }
    }
  }

  lemma ListedSend(user: string, s: System, p: nat)
    requires Listed(s) && CanMove(user, s, Send(p))
    ensures Listed(Next(user, s, Send(p)))
  {
    var t := Next(user, s, Send(p));
    forall q: nat
      ensures q in t.order <==> q < |t.calls| && Decided(t.calls[q].phase)
    {
    }
  }

  lemma SendKeeps(user: string, c0: Cache, s: System, p: nat)
    requires Serializable(user, c0, s) && CanMove(user, s, Send(p))
    ensures Serializable(user, c0, Next(user, s, Send(p)))
  {
    var t := Next(user, s, Send(p));
    var cmds := s.calls[p].phase.cmds;
    var c :| SettlesSerially(user, c0, s, c);
    SerialSame(user, s.calls, t.calls, c0, t.order, c);
    assert c == ExecuteAll(s.cache, user, cmds);
    ListedSend(user, s, p);
    forall q | 0 <= q < |t.calls| && q != p
      ensures !InSection(t.calls[q].phase)
    {
    }
    assert SettlesSerially(user, c0, t, c) by {
      if cmds != [] {
        assert t.calls[p].phase.Writing?;
      }
    }
  }

  /** A window without the gig, and not a tail with room: the walk goes on. */
  lemma WalksOn(user: string, c0: Cache, s: System, p: nat, indexes: seq<int>)
    requires Serializable(user, c0, s) && CanMove(user, s, Visit(p)) && s.calls[p].phase.rest != []
    requires var call := s.calls[p];
             && Scanned(s.cache, user, indexes)
             && Append(s.cache, user, call.gig, call.size, indexes)
                == Walk(s.cache, user, call.gig, PositiveSize(call.size), call.phase.tail, call.phase.rest[1..])
    ensures Serializable(user, c0, Enter(s, p, Walking(s.calls[p].phase.tail, s.calls[p].phase.rest[1..])))
  {
    var f := Walking(s.calls[p].phase.tail, s.calls[p].phase.rest[1..]);
    assert OnCourse(user, s.cache, s.calls[p].(phase := f));
    EnterQuietly(user, c0, s, p, f, s.lease);
  }

  lemma VisitKeeps(user: string, c0: Cache, s: System, p: nat)
    requires Serializable(user, c0, s) && CanMove(user, s, Visit(p))
    ensures Serializable(user, c0, Next(user, s, Visit(p)))
  {
    var call := s.calls[p];
    var tail, rest := call.phase.tail, call.phase.rest;
    assert OnCourse(user, s.cache, call);
    var indexes :|
      && Scanned(s.cache, user, indexes)
      && Append(s.cache, user, call.gig, call.size, indexes)
         == Walk(s.cache, user, call.gig, PositiveSize(call.size), tail, rest);
    if rest == [] {
      DecideToWrite(user, c0, s, p, indexes, NormalWindow(tail + 1), [call.gig]);
    } else {
      match ReadWindow(s.cache, user, NormalWindow(rest[0]))
      case Err(_) => WalksOn(user, c0, s, p, indexes);
      case Ok(window) =>
        if call.gig.id in Ids(window.gigs) {
          DecidePresent(user, c0, s, p, indexes);
        } else if rest[0] == tail && |window.gigs| < PositiveSize(call.size) {
          DecideToWrite(user, c0, s, p, indexes, NormalWindow(tail), window.gigs + [call.gig]);
        } else {
          WalksOn(user, c0, s, p, indexes);
        }
    }
  }

  /** A call that finds no lease finds no other call inside its section: no lease has expired under one. */
  ghost predicate QuietAcquire(s: System, a: Move) {
    a.Acquire? && s.lease.None? ==> forall p :: 0 <= p < |s.calls| ==> !InSection(s.calls[p].phase)
  }

  lemma AcquireKeeps(user: string, c0: Cache, s: System, p: nat)
    requires Serializable(user, c0, s) && CanMove(user, s, Acquire(p)) && QuietAcquire(s, Acquire(p))
    ensures Serializable(user, c0, Next(user, s, Acquire(p)))
  {
    if s.lease.None? {
      EnterQuietly(user, c0, s, p, Locked, Some(s.calls[p].token));
    } else {
      assert Exclusive(Enter(s, p, Ended(false)));
      EnterQuietly(user, c0, s, p, Ended(false), s.lease);
    }
  }

  lemma ScanKeeps(user: string, c0: Cache, s: System, p: nat, indexes: seq<int>)
    requires Serializable(user, c0, s) && CanMove(user, s, Scan(p, indexes))
    ensures Serializable(user, c0, Next(user, s, Scan(p, indexes)))
  {
    if indexes == [] {
      DecideToWrite(user, c0, s, p, indexes, 0, [s.calls[p].gig]);
    } else {
      var f := Walking(indexes[|indexes| - 1], indexes);
      assert Exclusive(Enter(s, p, f));
      EnterQuietly(user, c0, s, p, f, s.lease);
    }
  }

  lemma LeaveKeeps(user: string, c0: Cache, s: System, a: Move)
    requires Serializable(user, c0, s) && CanMove(user, s, a) && (a.FailRead? || a.Release?)
    ensures Serializable(user, c0, Next(user, s, a))
  {
    if a.FailRead? {
      assert Exclusive(Enter(s, a.p, Unlocking(false)));
      EnterQuietly(user, c0, s, a.p, Unlocking(false), s.lease);
    } else {
      assert Exclusive(Enter(s, a.p, Ended(s.calls[a.p].phase.ok)));
      EnterQuietly(user, c0, s, a.p, Ended(s.calls[a.p].phase.ok), if s.lease == Some(s.calls[a.p].token) then None else s.lease);
    }
  }

  lemma SerializableStep(user: string, c0: Cache, s: System, a: Move)
    requires Serializable(user, c0, s) && CanMove(user, s, a) && QuietAcquire(s, a)
    ensures Serializable(user, c0, Next(user, s, a))
  {
    match a
    case Acquire(p) => AcquireKeeps(user, c0, s, p);
    case Scan(p, indexes) => ScanKeeps(user, c0, s, p, indexes);
    case Visit(p) => VisitKeeps(user, c0, s, p);
    case Send(p) => SendKeeps(user, c0, s, p);
    case FailRead(p) => LeaveKeeps(user, c0, s, a);
    case Release(p) => LeaveKeeps(user, c0, s, a);
    case Expire =>
      var c :| SettlesSerially(user, c0, s, c);
      assert SettlesSerially(user, c0, s.(lease := None), c);
  }

  ghost predicate QuietRun(user: string, s: System, moves: seq<Move>)
    requires Runs(user, s, moves)
    decreases |moves|
  {
    moves != [] ==> QuietAcquire(s, moves[0]) && QuietRun(user, Next(user, s, moves[0]), moves[1..])
  }

  lemma {:induction false} SerializableAfter(user: string, c0: Cache, s: System, moves: seq<Move>)
    requires Serializable(user, c0, s) && Runs(user, s, moves) && QuietRun(user, s, moves)
    ensures Serializable(user, c0, After(user, s, moves))
    decreases |moves|
  {
    if moves != [] {
      SerializableStep(user, c0, s, moves[0]);
      SerializableAfter(user, c0, Next(user, s, moves[0]), moves[1..]);
    }
  }

  /** No call has begun. */
  ghost predicate Fresh(s: System) {
    s.order == [] && forall p :: 0 <= p < |s.calls| ==> s.calls[p].phase.Outside?
  }

  /** At most one call is inside in every state of the run. */
  ghost predicate AlwaysExclusive(user: string, s: System, moves: seq<Move>)
    requires Runs(user, s, moves)
    decreases |moves|
  {
    Exclusive(s) && (moves != [] ==> AlwaysExclusive(user, Next(user, s, moves[0]), moves[1..]))
  }

  /** Only a successful acquisition lets a call in. */
  lemma ExclusiveStep(user: string, s: System, a: Move)
    requires Exclusive(s) && CanMove(user, s, a)
    ensures Exclusive(Next(user, s, a)) <==> QuietAcquire(s, a)
  {
    var t := Next(user, s, a);
    if a.Acquire? && s.lease.None? {
      assert InSection(t.calls[a.p].phase);
      forall q | 0 <= q < |s.calls| && InSection(s.calls[q].phase)
        ensures !Exclusive(t)
      {
        assert InSection(t.calls[q].phase) && q != a.p;
      }
    } else {
      forall q | 0 <= q < |t.calls| && InSection(t.calls[q].phase)
        ensures InSection(s.calls[q].phase)
      {
      }
    }
  }

  /** Main result. At most one call is inside its section in every state of a run if and only if no call of the run
      takes the lease while another, whose lease has expired, is still inside. */
  lemma {:induction false} ExclusiveExactly(user: string, s: System, moves: seq<Move>)
    requires Exclusive(s) && Runs(user, s, moves)
    ensures AlwaysExclusive(user, s, moves) <==> QuietRun(user, s, moves)
    decreases |moves|
  {
    if moves != [] {
      ExclusiveStep(user, s, moves[0]);
      if QuietAcquire(s, moves[0]) {
        ExclusiveExactly(user, Next(user, s, moves[0]), moves[1..]);
      }
    }
  }

  /** Main result. However concurrent calls interleave, leases that expire inside a section included: when no call
      takes the lease while another is inside, at most one is inside at a time, and once all have ended the
      cache is what the successful calls make of it one after another, each of them once. */
  lemma CallsAreSerial(user: string, s: System, moves: seq<Move>)
    requires Fresh(s) && Runs(user, s, moves) && QuietRun(user, s, moves)
    ensures var t := After(user, s, moves);
            && Exclusive(t)
            && Listed(t)
            && ((forall p :: 0 <= p < |t.calls| ==> t.calls[p].phase.Ended?) ==>
                  Serial(user, t.calls, s.cache, t.order, t.cache)
                  && (forall p: nat :: p in t.order <==> p < |t.calls| && t.calls[p].phase.ok))
  {
    assert SettlesSerially(user, s.cache, s, s.cache);
    SerializableAfter(user, s.cache, s, moves);
    var t := After(user, s, moves);
    var c :| SettlesSerially(user, s.cache, t, c);
  }

  /** None of the serial appends is lost, and the packing holds. */
  lemma {:induction false} SerialLosesNothing(user: string, calls: seq<Call>, c0: Cache, order: seq<nat>, c: Cache, size: int, k: nat)
      returns (n: nat)
    requires Packed(c0, user, PositiveSize(size), k) && Serial(user, calls, c0, order, c)
    requires forall p :: 0 <= p < |calls| ==> calls[p].size == size && Trimmed(calls[p].gig.id)
    ensures Packed(c, user, PositiveSize(size), n)
    ensures forall p: nat :: p in order ==> p < |calls|
    ensures forall a :: Present(c, user, n, a) <==>
              Present(c0, user, k, a) || exists p: nat :: p < |calls| && p in order && calls[p].gig.id == a
    decreases |order|
  {
    if order == [] {
      n := k;
    } else {
      var p := order[|order| - 1];
      var front := order[..|order| - 1];
      assert order == front + [p];
      var m, indexes :| Serial(user, calls, c0, front, m) && AppendsTo(user, calls[p], m, indexes, c);
      var i := SerialLosesNothing(user, calls, c0, front, m, size, k);
      n := AppendKeepsPacked(m, user, calls[p].gig, size, i, indexes);
    }
  }

  // ----- With a second call inside the section, an append can be lost -----

  lemma Cons(user: string, s: System, a: Move, rest: seq<Move>)
    requires CanMove(user, s, a) && Runs(user, Next(user, s, a), rest)
    ensures Runs(user, s, [a] + rest)
    ensures After(user, s, [a] + rest) == After(user, Next(user, s, a), rest)
  {
    assert ([a] + rest)[1..] == rest;
  }

  /** A call that has decided sends its commands and releases. */
  lemma {:induction false} Finish(user: string, s: System, p: nat) returns (moves: seq<Move>)
    requires p < |s.calls| && s.calls[p].phase.Writing?
    ensures Runs(user, s, moves)
    ensures var t := After(user, s, moves);
            && t.cache == ExecuteAll(s.cache, user, s.calls[p].phase.cmds)
            && t.calls == s.calls[p := s.calls[p].(phase := Ended(true))]
            && t.lease == (if s.lease == Some(s.calls[p].token) then None else s.lease)
    decreases |s.calls[p].phase.cmds|
  {
    var t := Next(user, s, Send(p));
    if s.calls[p].phase.cmds == [] {
      var u := Next(user, t, Release(p));
      Cons(user, t, Release(p), []);
      Cons(user, s, Send(p), [Release(p)] + []);
      moves := [Send(p)] + ([Release(p)] + []);
    } else {
      var rest := Finish(user, t, p);
      Cons(user, s, Send(p), rest);
      moves := [Send(p)] + rest;
    }
  }

  lemma {:induction false} Join(user: string, s: System, a: seq<Move>, b: seq<Move>)
    requires Runs(user, s, a) && Runs(user, After(user, s, a), b)
    ensures Runs(user, s, a + b) && After(user, s, a + b) == After(user, After(user, s, a), b)
    decreases |a|
  {
    if a == [] {
      assert a + b == b;
    } else {
      assert (a + b)[1..] == a[1..] + b;
      Join(user, Next(user, s, a[0]), a[1..], b);
    }
  }

  /** Two first appends for a seller: the first call's lease expires after its scan, the second call runs
      whole, then the first one writes. Both succeed, and the second gig is gone. */
  lemma ExpiryLosesAppend(user: string, c0: Cache, a: Call, b: Call) returns (moves: seq<Move>)
    requires a.phase.Outside? && b.phase.Outside? && a.gig.id != b.gig.id
    requires forall i :: (user, i) !in c0.windows
    ensures Runs(user, System(c0, None, [a, b], []), moves)
    ensures var t := After(user, System(c0, None, [a, b], []), moves);
            && t.calls == [a.(phase := Ended(true)), b.(phase := Ended(true))]
            && Members(t.cache, user, 0) == {a.gig.id}
  {
    var s0 := System(c0, None, [a, b], []);
    var s1 := Next(user, s0, Acquire(0));
    var s2 := Next(user, s1, Scan(0, []));
    var s3 := Next(user, s2, Expire);
    var s4 := Next(user, s3, Acquire(1));
    var s5 := Next(user, s4, Scan(1, []));
    var m5 := Finish(user, s5, 1);
    var s6 := After(user, s5, m5);
    var m6 := Finish(user, s6, 0);
    Join(user, s5, m5, m6);
    Cons(user, s4, Scan(1, []), m5 + m6);
    Cons(user, s3, Acquire(1), [Scan(1, [])] + (m5 + m6));
    Cons(user, s2, Expire, [Acquire(1)] + ([Scan(1, [])] + (m5 + m6)));
    Cons(user, s1, Scan(0, []), [Expire] + ([Acquire(1)] + ([Scan(1, [])] + (m5 + m6))));
    Cons(user, s0, Acquire(0), [Scan(0, [])] + ([Expire] + ([Acquire(1)] + ([Scan(1, [])] + (m5 + m6)))));
    moves := [Acquire(0)] + ([Scan(0, [])] + ([Expire] + ([Acquire(1)] + ([Scan(1, [])] + (m5 + m6)))));
    CommandsWriteWindow(s6.cache, user, 0, [a.gig]);
    OneGig(s6.cache, user, a.gig);
  }
}
