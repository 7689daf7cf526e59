/** postgres/repository.go and query.go: the write model's tables and its statements and transactions. */
module WriteModel {
  import opened Wrappers
  import opened ChildTable
  import opened Domain

  datatype DB = DB(gigs: map<string, GigRow>, packages: seq<PackageRow>, questions: seq<QuestionRow>, media: seq<MediaRow>)

  /** The statements of a call that fail for a cause outside the tables, by their number in the call. */
  type Faults = nat -> bool

  datatype BasicInfo = BasicInfo(
    title: string, shortInfo: string, slug: string, description: string, categoryId: int, currency: string)

  /** Unique index on (gig_id, tier). */
  function PackageSlot(p: PackageRow): Slot {
    Tier(p.value.tier)
  }

  /** Unique index on (gig_id, sort_order), of questions and of media. */
  function PositionSlot(q: Child<string>): Slot {
    Position(q.sortOrder)
  }

  function GigAt(db: DB, id: string): Gig
    requires id in db.gigs
  {
    Gig(db.gigs[id], Read(db.packages, id), Read(db.questions, id), Read(db.media, id))
  }

  function GetById(db: DB, id: string, failed: bool): Result<Gig, Error> {
    if failed then Err(StorageFailure)
    else if id !in db.gigs then Err(GigNotFound)
    else Ok(GigAt(db, id))
  }

  function EmptyDraft(id: string, freelancerId: string): GigRow {
    GigRow(id, freelancerId, "", "", "", "", "", 0, "", Draft, false, false, false, false, "", None)
  }

  /** INSERT … ON CONFLICT (gig_id) DO UPDATE. */
  function Redrafted(row: GigRow, freelancerId: string): GigRow {
    row.(freelancerId := freelancerId, status := if row.status == Published then Published else Draft)
  }

  function PutDraft(db: DB, id: string, freelancerId: string): DB {
    db.(gigs := db.gigs[id := if id in db.gigs then Redrafted(db.gigs[id], freelancerId) else EmptyDraft(id, freelancerId)])
  }

  function CreateDraft(db: DB, gigId: string, generated: string, freelancerId: string, faults: Faults): (DB, Result<Gig, Error>) {
    var id := if gigId == "" then generated else gigId;
    if faults(0) then (db, Err(StorageFailure))
    else (PutDraft(db, id, freelancerId), GetById(PutDraft(db, id, freelancerId), id, faults(1)))
  }

  function WithBasicInfo(row: GigRow, info: BasicInfo): GigRow {
    row.(title := info.title, shortInfo := info.shortInfo, slug := info.slug, description := info.description,
         categoryId := info.categoryId, currency := info.currency, basicInfoCompleted := true)
  }

  /** UPDATE gigs … WHERE gig_id = id RETURNING …: `row` is the updated row. */
  function UpdateRow(db: DB, id: string, row: GigRow, faults: Faults): (DB, Result<Gig, Error>) {
    var d := db.(gigs := db.gigs[id := row]);
    (d, GetById(d, id, faults(1)))
  }

  function UpdateBasicInfo(db: DB, id: string, info: BasicInfo, faults: Faults): (DB, Result<Gig, Error>) {
    if faults(0) then (db, Err(StorageFailure))
    else if id !in db.gigs then (db, Err(GigNotFound))
    else UpdateRow(db, id, WithBasicInfo(db.gigs[id], info), faults)
  }

  function UpdateSellerUsername(db: DB, id: string, username: string, faults: Faults): (DB, Result<Gig, Error>) {
    if faults(0) then (db, Err(StorageFailure))
    else if id !in db.gigs then (db, Err(GigNotFound))
    else UpdateRow(db, id, db.gigs[id].(sellerUsername := username), faults)
  }

  function Publish(db: DB, id: string, now: int, faults: Faults): (DB, Result<Gig, Error>) {
    if faults(0) || id !in db.gigs then (db, Err(StorageFailure))
    else UpdateRow(db, id, db.gigs[id].(status := Published, publishedAt := Some(now)), faults)
  }

  function MarkPackages(gigs: map<string, GigRow>, id: string): map<string, GigRow> {
    if id in gigs then gigs[id := gigs[id].(packagesCompleted := true)] else gigs
  }

  function MarkQuestions(gigs: map<string, GigRow>, id: string): map<string, GigRow> {
    if id in gigs then gigs[id := gigs[id].(requirementsCompleted := true)] else gigs
  }

  function MarkMedia(gigs: map<string, GigRow>, id: string, picture: string): map<string, GigRow> {
    if id in gigs then gigs[id := gigs[id].(pictureFileId := picture, mediaCompleted := true)] else gigs
  }

  /** Statement 0 deletes, 1..n insert, n + 1 sets the flag, n + 2 commits and n + 3 loads the gig again.
      A failure up to the commit rolls back. */
  function ReplacePackages(db: DB, id: string, items: seq<Input<PackageData>>, generated: nat -> string, faults: Faults): (DB, Result<Gig, Error>) {
    match Transact(PackageSlot, db.packages, id, NewRows(id, items, generated), id in db.gigs, faults)
    case None => (db, Err(StorageFailure))
    case Some(table) =>
      var d := db.(gigs := MarkPackages(db.gigs, id), packages := table);
      (d, GetById(d, id, faults(|items| + 3)))
  }

  function ReplaceQuestions(db: DB, id: string, items: seq<Input<string>>, generated: nat -> string, faults: Faults): (DB, Result<Gig, Error>) {
    match Transact(PositionSlot, db.questions, id, NewRows(id, items, generated), id in db.gigs, faults)
    case None => (db, Err(StorageFailure))
    case Some(table) =>
      var d := db.(gigs := MarkQuestions(db.gigs, id), questions := table);
      (d, GetById(d, id, faults(|items| + 3)))
  }

  function ReplaceMedia(db: DB, id: string, picture: string, items: seq<Input<string>>, generated: nat -> string, faults: Faults): (DB, Result<Gig, Error>) {
    match Transact(PositionSlot, db.media, id, NewRows(id, items, generated), id in db.gigs, faults)
    case None => (db, Err(StorageFailure))
    case Some(table) =>
      var d := db.(gigs := MarkMedia(db.gigs, id, picture), media := table);
      (d, GetById(d, id, faults(|items| + 3)))
  }

  // ----- Replacement is all or nothing -----

  /** The ids of the new rows are distinct, and none belongs to another gig. */
  ghost predicate FreeIds<T>(stay: seq<Child<T>>, rows: seq<Child<T>>) {
    && (forall i, j :: 0 <= i < j < |rows| ==> rows[i].id != rows[j].id)
    && (forall i, j :: 0 <= i < |stay| && 0 <= j < |rows| ==> stay[i].id != rows[j].id)
  }

  ghost predicate DistinctTiers(items: seq<Input<PackageData>>) {
    forall i, j :: 0 <= i < j < |items| ==> items[i].value.tier != items[j].value.tier
  }

  /** Rows of another gig clash by id only. */
  lemma StayClashes<T>(slot: Child<T> -> Slot, table: seq<Child<T>>, id: string, rows: seq<Child<T>>)
    requires forall j :: 0 <= j < |rows| ==> rows[j].gigId == id
    ensures forall i, j :: 0 <= i < |Others(table, id)| && 0 <= j < |rows| ==>
              (Clash(slot, Others(table, id)[i], rows[j]) <==> Others(table, id)[i].id == rows[j].id)
  {
    OthersAreOthers(table, id);
  }

  lemma PackagesCompatible(table: seq<PackageRow>, id: string, items: seq<Input<PackageData>>, generated: nat -> string)
    ensures Compatible(PackageSlot, Others(table, id), NewRows(id, items, generated))
            <==> FreeIds(Others(table, id), NewRows(id, items, generated)) && DistinctTiers(items)
  {
    var rows := NewRows(id, items, generated);
    StayClashes(PackageSlot, table, id, rows);
    forall i, j | 0 <= i < j < |rows|
      ensures Clash(PackageSlot, rows[i], rows[j])
              <==> rows[i].id == rows[j].id || items[i].value.tier == items[j].value.tier
    {
    }
  }

  lemma PositionsCompatible(table: seq<Child<string>>, id: string, items: seq<Input<string>>, generated: nat -> string)
    ensures Compatible(PositionSlot, Others(table, id), NewRows(id, items, generated))
            <==> FreeIds(Others(table, id), NewRows(id, items, generated))
  {
    var rows := NewRows(id, items, generated);
    StayClashes(PositionSlot, table, id, rows);
    forall i, j | 0 <= i < j < |rows|
      ensures Clash(PositionSlot, rows[i], rows[j]) <==> rows[i].id == rows[j].id
    {
    }
  }

  /** When a replacement commits. */
  ghost predicate PackagesCommit(db: DB, id: string, items: seq<Input<PackageData>>, generated: nat -> string, faults: Faults) {
    && NoFault(faults, 0, |items| + 3)
    && (items == [] || id in db.gigs)
    && FreeIds(Others(db.packages, id), NewRows(id, items, generated))
    && DistinctTiers(items)
  }

  /** The same for rows whose positions alone are unique: questions, and media. */
  ghost predicate RowsCommit(table: seq<Child<string>>, db: DB, id: string, items: seq<Input<string>>, generated: nat -> string, faults: Faults) {
    && NoFault(faults, 0, |items| + 3)
    && (items == [] || id in db.gigs)
    && FreeIds(Others(table, id), NewRows(id, items, generated))
  }

  /** Main result. Replacing packages either leaves every table and flag as it was, or commits: then the
      ordered read gives the packages in the order given, numbered 1..n, supplied ids kept; the flag is set;
      and nothing of any other gig has changed. It commits if and only if no statement fails from outside,
      the gig exists, the tiers differ, and the ids differ from each other and from other gigs' ids. */
  lemma PackagesAllOrNothing(db: DB, id: string, items: seq<Input<PackageData>>, generated: nat -> string, faults: Faults, other: string)
    ensures var (d, r) := ReplacePackages(db, id, items, generated, faults);
            if !PackagesCommit(db, id, items, generated, faults) then d == db && r == Err(StorageFailure)
            else
              && Read(d.packages, id) == NewRows(id, items, generated)
              && d == db.(gigs := MarkPackages(db.gigs, id), packages := Others(db.packages, id) + NewRows(id, items, generated))
              && (other != id ==> Read(d.packages, other) == Read(db.packages, other))
              && r == GetById(d, id, faults(|items| + 3))
  {
    ReplaceReadsBack(db.packages, id, items, generated, other);
    TransactionOutcome(PackageSlot, db.packages, id, NewRows(id, items, generated), id in db.gigs, faults);
    PackagesCompatible(db.packages, id, items, generated);
  }

  /** Main result, for questions. Their positions never clash, so only ids can. */
  lemma QuestionsAllOrNothing(db: DB, id: string, items: seq<Input<string>>, generated: nat -> string, faults: Faults, other: string)
    ensures var (d, r) := ReplaceQuestions(db, id, items, generated, faults);
            if !RowsCommit(db.questions, db, id, items, generated, faults) then d == db && r == Err(StorageFailure)
            else
              && Read(d.questions, id) == NewRows(id, items, generated)
              && d == db.(gigs := MarkQuestions(db.gigs, id), questions := Others(db.questions, id) + NewRows(id, items, generated))
              && (other != id ==> Read(d.questions, other) == Read(db.questions, other))
              && r == GetById(d, id, faults(|items| + 3))
  {
    ReplaceReadsBack(db.questions, id, items, generated, other);
    TransactionOutcome(PositionSlot, db.questions, id, NewRows(id, items, generated), id in db.gigs, faults);
    PositionsCompatible(db.questions, id, items, generated);
  }

  /** Main result, for media: the cover file changes with the rows. */
  lemma MediaAllOrNothing(db: DB, id: string, picture: string, items: seq<Input<string>>, generated: nat -> string, faults: Faults, other: string)
    ensures var (d, r) := ReplaceMedia(db, id, picture, items, generated, faults);
            if !RowsCommit(db.media, db, id, items, generated, faults) then d == db && r == Err(StorageFailure)
            else
              && Read(d.media, id) == NewRows(id, items, generated)
              && d == db.(gigs := MarkMedia(db.gigs, id, picture), media := Others(db.media, id) + NewRows(id, items, generated))
              && (other != id ==> Read(d.media, other) == Read(db.media, other))
              && r == GetById(d, id, faults(|items| + 3))
  {
    ReplaceReadsBack(db.media, id, items, generated, other);
    TransactionOutcome(PositionSlot, db.media, id, NewRows(id, items, generated), id in db.gigs, faults);
    PositionsCompatible(db.media, id, items, generated);
  }
}
