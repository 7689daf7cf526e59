/** postgres/repository.go and service.go in their own form: a repository whose methods change the tables,
    and the service whose methods check, write and report. */
module GigService {
  import opened Text
  import opened Wrappers
  import opened ChildTable
  import opened Domain
  import opened Commands
  import opened Slug
  import opened WriteModel
  import opened GigCommands
  import opened WriteInvariant
  import opened GigPromises
  import opened GigAcceptance

  /** The insert loop of a transaction, on the transaction's view of the table. */
  method InsertRows<T>(slot: Child<T> -> Slot, table: seq<Child<T>>, gigId: string, items: seq<Input<T>>, generated: nat -> string,
                       gigExists: bool, faults: Faults) returns (r: Option<seq<Child<T>>>)
    ensures r == InsertAll(slot, table, NewRows(gigId, items, generated), gigExists, faults, 1)
  {
    ghost var rows := NewRows(gigId, items, generated);
    var work := table;
    assert rows[0..] == rows;
    for i := 0 to |items|
      invariant InsertAll(slot, table, rows, gigExists, faults, 1) == InsertAll(slot, work, rows[i..], gigExists, faults, 1 + i)
    {
      assert rows[i..][1..] == rows[i + 1..];
      var id := generated(i);
      if items[i].id != "" {
        id := items[i].id;
      }
      var row := Child(id, gigId, items[i].value, i + 1);
      if faults(1 + i) || !gigExists || !Admits(slot, work, row) {
        return None;
      }
      work := work + [row];
    }
    assert rows[|items|..] == [];
    r := Some(work);
  }

  class Repository {
    var gigs: map<string, GigRow>
    var packages: seq<PackageRow>
    var questions: seq<QuestionRow>
    var media: seq<MediaRow>

    constructor ()
      ensures View() == DB(map[], [], [], [])
    {
      gigs, packages, questions, media := map[], [], [], [];
    }

    function View(): DB
      reads this
    {
      DB(gigs, packages, questions, media)
    }

    method CreateDraft(gigId: string, generated: string, freelancerId: string, faults: Faults) returns (r: Result<Gig, Error>)
      modifies this`gigs
      ensures (View(), r) == WriteModel.CreateDraft(old(View()), gigId, generated, freelancerId, faults)
    {
      var id := gigId;
      if id == "" {
        id := generated;
      }
      if faults(0) {
        return Err(StorageFailure);
      }
      if id in gigs {
        var row := gigs[id];
        var status := if row.status == Published then row.status else Draft;
        gigs := gigs[id := row.(freelancerId := freelancerId, status := status)];
      } else {
        gigs := gigs[id := EmptyDraft(id, freelancerId)];
      }
      r := GetById(id, faults(1));
    }

    method UpdateBasicInfo(id: string, info: BasicInfo, faults: Faults) returns (r: Result<Gig, Error>)
      modifies this`gigs
      ensures (View(), r) == WriteModel.UpdateBasicInfo(old(View()), id, info, faults)
    {
      if faults(0) {
        return Err(StorageFailure);
      }
      if id !in gigs {
        return Err(GigNotFound);
      }
      gigs := gigs[id := WithBasicInfo(gigs[id], info)];
      r := GetById(id, faults(1));
    }

    method UpdateSellerUsername(id: string, username: string, faults: Faults) returns (r: Result<Gig, Error>)
      modifies this`gigs
      ensures (View(), r) == WriteModel.UpdateSellerUsername(old(View()), id, username, faults)
    {
      if faults(0) {
        return Err(StorageFailure);
      }
      if id !in gigs {
        return Err(GigNotFound);
      }
      gigs := gigs[id := gigs[id].(sellerUsername := username)];
      r := GetById(id, faults(1));
    }

    method Publish(id: string, now: int, faults: Faults) returns (r: Result<Gig, Error>)
      modifies this`gigs
      ensures (View(), r) == WriteModel.Publish(old(View()), id, now, faults)
    {
      if faults(0) || id !in gigs {
        return Err(StorageFailure);
      }
      gigs := gigs[id := gigs[id].(status := Published, publishedAt := Some(now))];
      r := GetById(id, faults(1));
    }

    /** The fields change at the commit only; every return before it rolls back. */
    method ReplacePackages(id: string, items: seq<Input<PackageData>>, generated: nat -> string, faults: Faults) returns (r: Result<Gig, Error>)
      modifies this`gigs, this`packages
      ensures (View(), r) == WriteModel.ReplacePackages(old(View()), id, items, generated, faults)
    {
      if faults(0) {
        return Err(StorageFailure);
      }
      var inserted := InsertRows(PackageSlot, Others(packages, id), id, items, generated, id in gigs, faults);
      if inserted.None? {
        return Err(StorageFailure);
      }
      if faults(|items| + 1) {
        return Err(StorageFailure);
      }
      var flagged := gigs;
      if id in gigs {
        flagged := gigs[id := gigs[id].(packagesCompleted := true)];
      }
      if faults(|items| + 2) {
        return Err(StorageFailure);
      }
      gigs, packages := flagged, inserted.value;
      r := GetById(id, faults(|items| + 3));
    }

    method ReplaceQuestions(id: string, items: seq<Input<string>>, generated: nat -> string, faults: Faults) returns (r: Result<Gig, Error>)
      modifies this`gigs, this`questions
      ensures (View(), r) == WriteModel.ReplaceQuestions(old(View()), id, items, generated, faults)
    {
      if faults(0) {
        return Err(StorageFailure);
      }
      var inserted := InsertRows(PositionSlot, Others(questions, id), id, items, generated, id in gigs, faults);
      if inserted.None? {
        return Err(StorageFailure);
      }
      if faults(|items| + 1) {
        return Err(StorageFailure);
      }
      var flagged := gigs;
      if id in gigs {
        flagged := gigs[id := gigs[id].(requirementsCompleted := true)];
      }
      if faults(|items| + 2) {
        return Err(StorageFailure);
      }
      gigs, questions := flagged, inserted.value;
      r := GetById(id, faults(|items| + 3));
    }

    method ReplaceMedia(id: string, picture: string, items: seq<Input<string>>, generated: nat -> string, faults: Faults)
      returns (r: Result<Gig, Error>)
      modifies this`gigs, this`media
      ensures (View(), r) == WriteModel.ReplaceMedia(old(View()), id, picture, items, generated, faults)
    {
      if faults(0) {
        return Err(StorageFailure);
      }
      var inserted := InsertRows(PositionSlot, Others(media, id), id, items, generated, id in gigs, faults);
      if inserted.None? {
        return Err(StorageFailure);
      }
      if faults(|items| + 1) {
        return Err(StorageFailure);
      }
      var flagged := gigs;
      if id in gigs {
        flagged := gigs[id := gigs[id].(pictureFileId := picture, mediaCompleted := true)];
      }
      if faults(|items| + 2) {
        return Err(StorageFailure);
      }
      gigs, media := flagged, inserted.value;
      r := GetById(id, faults(|items| + 3));
    }

    method GetById(id: string, failed: bool) returns (r: Result<Gig, Error>)
      ensures r == WriteModel.GetById(View(), id, failed)
    {
      if failed {
        return Err(StorageFailure);
      }
      if id !in gigs {
        return Err(GigNotFound);
      }
      r := Ok(Gig(gigs[id], Read(packages, id), Read(questions, id), Read(media, id)));
    }
  }

  /** Events go out after the write. */
  function Reported(written: Result<Gig, Error>, events: bool): Result<Gig, Error> {
    if written.Ok? && !events then Err(EventPublishFailure) else written
  }

  lemma KeepsPromise(db: DB, cmd: Command, env: Env)
    ensures GoodTables(db) ==> GoodTables(Execute(db, cmd, env).0)
    ensures GoodTables(db) ==> Promised(db, cmd, env, Execute(db, cmd, env).0, Execute(db, cmd, env).1)
    ensures GoodTables(db) ==> Decided(db, cmd, env, Execute(db, cmd, env).0, Execute(db, cmd, env).1)
  {
    if GoodTables(db) {
      SucceedsExactly(db, cmd, env);
      ExecuteKeepsPromise(db, cmd, env);
    }
  }

  class Service {
    const repo: Repository

    constructor (repository: Repository)
      ensures repo == repository
    {
      repo := repository;
    }

    /** The tables satisfy the write model's invariant. */
    ghost predicate Valid()
      reads repo
    {
      GoodTables(repo.View())
    }

    method GetOwnedGig(gigId: string, freelancerId: string) returns (r: Result<Gig, Error>)
      ensures r == OwnedGig(repo.View(), gigId, freelancerId)
    {
      var id, owner := TrimSpace(gigId), TrimSpace(freelancerId);
      if id == "" {
        return Err(InvalidGigID);
      }
      if owner == "" {
        return Err(InvalidFreelancerID);
      }
      var gig := repo.GetById(id, false);
      if gig.Ok? && gig.value.row.freelancerId != owner {
        return Err(InvalidFreelancerID);
      }
      r := gig;
    }

    method CreateDraft(gigId: string, freelancerId: string, env: Env) returns (r: Result<Gig, Error>)
      modifies repo`gigs
      ensures (repo.View(), r) == Execute(old(repo.View()), Command.CreateDraft(gigId, freelancerId), env)
      ensures old(Valid()) ==> Valid()
      ensures old(Valid()) ==> Promised(old(repo.View()), Command.CreateDraft(gigId, freelancerId), env, repo.View(), r)
      ensures old(Valid()) ==> Decided(old(repo.View()), Command.CreateDraft(gigId, freelancerId), env, repo.View(), r)
    {
      KeepsPromise(repo.View(), Command.CreateDraft(gigId, freelancerId), env);
      var owner := TrimSpace(freelancerId);
      if owner == "" {
        return Err(InvalidFreelancerID);
      }
      var written := repo.CreateDraft(gigId, env.generated(0), owner, env.faults);
      r := Reported(written, env.events);
    }

    method UpdateBasicInfo(gigId: string, freelancerId: string, title: string, shortInfo: string, description: string,
                           categoryId: int, currency: string, env: Env) returns (r: Result<Gig, Error>)
      modifies repo`gigs
      ensures (repo.View(), r)
              == Execute(old(repo.View()),
                         Command.UpdateBasicInfo(gigId, freelancerId, title, shortInfo, description, categoryId, currency), env)
      ensures old(Valid()) ==> Valid()
      ensures old(Valid()) ==>
                Promised(old(repo.View()),
                    Command.UpdateBasicInfo(gigId, freelancerId, title, shortInfo, description, categoryId, currency),
                    env, repo.View(), r)
      ensures old(Valid()) ==>
                Decided(old(repo.View()),
                    Command.UpdateBasicInfo(gigId, freelancerId, title, shortInfo, description, categoryId, currency),
                    env, repo.View(), r)
    {
      KeepsPromise(repo.View(), Command.UpdateBasicInfo(gigId, freelancerId, title, shortInfo, description, categoryId, currency), env);
      var gig := GetOwnedGig(gigId, freelancerId);
      if gig.Err? {
        return gig;
      }
      var id := gig.value.row.id;
      var t := TrimSpace(title);
      if t == "" {
        return Err(InvalidTitle);
      }
      var short := TrimSpace(shortInfo);
      if short == "" {
        return Err(InvalidShortInfo);
      }
      if |Utf8(short)| > SHORT_INFO_BYTES {
        return Err(InvalidShortInfo);
      }
      if description == "" {
        return Err(InvalidDescription);
      }
      if categoryId <= 0 {
        return Err(InvalidCategoryID);
      }
      if TrimSpace(currency) == "" {
        return Err(InvalidCurrency);
      }
      var slug := Generate(env.slugify(t), id);
      if slug == "" {
        return Err(InvalidTitle);
      }
      var info := BasicInfo(t, short, slug, TrimSpace(description), categoryId, TrimSpace(currency));
      var written := repo.UpdateBasicInfo(id, info, env.faults);
      r := Reported(written, env.events);
    }

    /** The loop that normalizes the packages of a request. */
    method NormalizeAll(packages: seq<PackageInput>, recovery: bool) returns (r: Result<seq<Input<PackageData>>, Error>)
      ensures r == NormalizePackages(packages, recovery)
    {
      var normalized: seq<Input<PackageData>> := [];
      assert packages[0..] == packages;
      AheadNothing(NormalizePackages(packages, recovery));
      for i := 0 to |packages|
        invariant Ahead(normalized, NormalizePackages(packages[i..], recovery)) == NormalizePackages(packages, recovery)
      {
        assert packages[i..][1..] == packages[i + 1..];
        ghost var front := normalized;
        var id := TrimSpace(packages[i].id);
        if id == "" && recovery {
          return Err(InvalidPackageID);
        }
        var tier := TrimSpace(packages[i].tier);
        if tier == "" {
          return Err(InvalidPackageTier);
        }
        var p := Input(id, PackageData(tier, TrimSpace(packages[i].description), packages[i].deliveryDays, packages[i].priceCents));
        normalized := normalized + [p];
        AheadOne(front, p, NormalizePackages(packages[i + 1..], recovery));
      }
      assert packages[|packages|..] == [];
      assert normalized + [] == normalized;
      r := Ok(normalized);
    }

    /** validatePackages: the loop stops at the first package out of order or without a value. */
    method ValidateAll(packages: seq<PackageData>) returns (invalid: Option<Error>)
      ensures invalid == ValidatePackages(packages)
    {
      if |packages| < 1 || |packages| > 3 {
        return Some(InvalidPackageCount);
      }
      for i := 0 to |packages|
        invariant ValidateFrom(packages, i) == ValidateFrom(packages, 0)
      {
        var p := packages[i];
        if TrimSpace(p.tier) != TierAt(i) {
          return Some(InvalidPackageTier);
        }
        if TrimSpace(p.description) == "" {
          return Some(InvalidPackageDescription);
        }
        if p.deliveryDays <= 0 {
          return Some(InvalidPackageDeliveryDays);
        }
        if p.priceCents <= 0 {
          return Some(InvalidPackagePriceCents);
        }
      }
      invalid := None;
    }

    /** The checks of a package replacement: what it goes on to write, or why it is refused. */
    method CheckPackageRequest(gigId: string, freelancerId: string, packages: seq<PackageInput>, env: Env) returns (r: Result<Write, Error>)
      ensures r == Check(repo.View(), Command.ReplacePackages(gigId, freelancerId, packages), env)
    {
      var gig := GetOwnedGig(gigId, freelancerId);
      if gig.Err? {
        return Err(gig.error);
      }
      var normalized := NormalizeAll(packages, env.recovery);
      if normalized.Err? {
        return Err(normalized.error);
      }
      var invalid := ValidateAll(InputData(normalized.value));
      if invalid.Some? {
        return Err(invalid.value);
      }
      r := Ok(WritePackages(gig.value.row.id, normalized.value));
    }

    method ReplacePackages(gigId: string, freelancerId: string, packages: seq<PackageInput>, env: Env) returns (r: Result<Gig, Error>)
      modifies repo`gigs, repo`packages
      ensures (repo.View(), r) == Execute(old(repo.View()), Command.ReplacePackages(gigId, freelancerId, packages), env)
      ensures old(Valid()) ==> Valid()
      ensures old(Valid()) ==> Promised(old(repo.View()), Command.ReplacePackages(gigId, freelancerId, packages), env, repo.View(), r)
      ensures old(Valid()) ==> Decided(old(repo.View()), Command.ReplacePackages(gigId, freelancerId, packages), env, repo.View(), r)
    {
      KeepsPromise(repo.View(), Command.ReplacePackages(gigId, freelancerId, packages), env);
      var checked := CheckPackageRequest(gigId, freelancerId, packages, env);
      if checked.Err? {
        return Err(checked.error);
      }
      var written := repo.ReplacePackages(checked.value.id, checked.value.packages, env.generated, env.faults);
      r := Reported(written, env.events);
    }

    method CollectQuestions(questions: seq<QuestionInput>, recovery: bool) returns (r: Result<seq<Input<string>>, Error>)
      ensures r == CheckQuestions(questions, recovery)
      ensures r.Ok? <==> QuestionTexts(questions, recovery)
    {
      QuestionsPass(questions, recovery);
      var items: seq<Input<string>> := [];
      assert questions[0..] == questions;
      AheadNothing(CheckQuestions(questions, recovery));
      for i := 0 to |questions|
        invariant Ahead(items, CheckQuestions(questions[i..], recovery)) == CheckQuestions(questions, recovery)
      {
        assert questions[i..][1..] == questions[i + 1..];
        ghost var front := items;
        if TrimSpace(questions[i].id) == "" && recovery {
          return Err(InvalidQuestionID);
        }
        if TrimSpace(questions[i].content) == "" {
          return Err(InvalidQuestionContent);
        }
        var q := Input(questions[i].id, questions[i].content);
        items := items + [q];
        AheadOne(front, q, CheckQuestions(questions[i + 1..], recovery));
      }
      assert questions[|questions|..] == [];
      assert items + [] == items;
      r := Ok(items);
    }

    method CheckQuestionRequest(gigId: string, freelancerId: string, questions: seq<QuestionInput>, env: Env) returns (r: Result<Write, Error>)
      ensures r == Check(repo.View(), Command.ReplaceQuestions(gigId, freelancerId, questions), env)
    {
      var gig := GetOwnedGig(gigId, freelancerId);
      if gig.Err? {
        return Err(gig.error);
      }
      var items := CollectQuestions(questions, env.recovery);
      if items.Err? {
        return Err(items.error);
      }
      r := Ok(WriteQuestions(gig.value.row.id, items.value));
    }

    method ReplaceQuestions(gigId: string, freelancerId: string, questions: seq<QuestionInput>, env: Env) returns (r: Result<Gig, Error>)
      modifies repo`gigs, repo`questions
      ensures (repo.View(), r) == Execute(old(repo.View()), Command.ReplaceQuestions(gigId, freelancerId, questions), env)
      ensures old(Valid()) ==> Valid()
      ensures old(Valid()) ==> Promised(old(repo.View()), Command.ReplaceQuestions(gigId, freelancerId, questions), env, repo.View(), r)
      ensures old(Valid()) ==> Decided(old(repo.View()), Command.ReplaceQuestions(gigId, freelancerId, questions), env, repo.View(), r)
    {
      KeepsPromise(repo.View(), Command.ReplaceQuestions(gigId, freelancerId, questions), env);
      var checked := CheckQuestionRequest(gigId, freelancerId, questions, env);
      if checked.Err? {
        return Err(checked.error);
      }
      var written := repo.ReplaceQuestions(checked.value.id, checked.value.questions, env.generated, env.faults);
      r := Reported(written, env.events);
    }

    /** validateMediaUploads: the loop stops at the first file without name, type or data. */
    method FilesAreValid(files: seq<FileInput>) returns (valid: bool)
      ensures valid <==> ValidMedia(files)
    {
      if |files| == 0 {
        return false;
      }
      for i := 0 to |files|
        invariant forall j :: 0 <= j < i ==>
                    TrimSpace(files[j].filename) != "" && TrimSpace(files[j].contentType) != "" && files[j].data != []
      {
        if TrimSpace(files[i].filename) == "" {
          return false;
        }
        if TrimSpace(files[i].contentType) == "" {
          return false;
        }
        if |files[i].data| == 0 {
          return false;
        }
      }
      valid := true;
    }

    /** The files are uploaded once they are found valid; the first is the cover. */
    method CheckMediaRequest(gigId: string, freelancerId: string, files: seq<FileInput>, env: Env) returns (r: Result<Write, Error>)
      ensures r == Check(repo.View(), Command.ReplaceMedia(gigId, freelancerId, files), env)
    {
      var gig := GetOwnedGig(gigId, freelancerId);
      if gig.Err? {
        return Err(gig.error);
      }
      var valid := FilesAreValid(files);
      if !valid {
        return Err(InvalidMediaUpload);
      }
      var row := gig.value.row;
      var uploaded := env.upload(row.freelancerId, "gigs/" + TrimSpace(row.id) + "/media", files);
      if uploaded.None? {
        return Err(UploadFailure);
      }
      var fileIds := uploaded.value;
      if |fileIds| == 0 || |fileIds| != |files| {
        return Err(InvalidMediaUpload);
      }
      r := Ok(WriteMedia(row.id, fileIds[0], MediaInputs(fileIds[1..])));
    }

    method ReplaceMedia(gigId: string, freelancerId: string, files: seq<FileInput>, env: Env) returns (r: Result<Gig, Error>)
      modifies repo`gigs, repo`media
      ensures (repo.View(), r) == Execute(old(repo.View()), Command.ReplaceMedia(gigId, freelancerId, files), env)
      ensures old(Valid()) ==> Valid()
      ensures old(Valid()) ==> Promised(old(repo.View()), Command.ReplaceMedia(gigId, freelancerId, files), env, repo.View(), r)
      ensures old(Valid()) ==> Decided(old(repo.View()), Command.ReplaceMedia(gigId, freelancerId, files), env, repo.View(), r)
    {
      KeepsPromise(repo.View(), Command.ReplaceMedia(gigId, freelancerId, files), env);
      var checked := CheckMediaRequest(gigId, freelancerId, files, env);
      if checked.Err? {
        return Err(checked.error);
      }
      var written := repo.ReplaceMedia(checked.value.id, checked.value.picture, checked.value.files, env.generated, env.faults);
      r := Reported(written, env.events);
    }

    /** validatePublishReady. */
    method ValidateReady(gig: Gig) returns (invalid: Option<Error>)
      ensures invalid == ValidatePublishReady(gig)
    {
      if gig.row.status != Draft {
        return Some(GigAlreadyPublished);
      }
      if !gig.row.basicInfoCompleted {
        return Some(GigDraftIncomplete);
      }
      if !gig.row.packagesCompleted {
        return Some(GigDraftIncomplete);
      }
      if |gig.packages| == 0 {
        return Some(GigDraftIncomplete);
      }
      invalid := ValidateAll(RowData(gig.packages));
    }

    /** The checks of a publication: the owned gig, or why it cannot be published. */
    method CheckPublish(gigId: string, freelancerId: string, username: string, env: Env) returns (r: Result<Gig, Error>)
      ensures var checked := Check(repo.View(), Command.Publish(gigId, freelancerId, username), env);
              if r.Ok? then checked == Ok(WritePublish(r.value.row.id, TrimSpace(username))) else checked == Err(r.error)
    {
      var gig := GetOwnedGig(gigId, freelancerId);
      if gig.Err? {
        return gig;
      }
      var invalid := ValidateReady(gig.value);
      if invalid.Some? {
        return Err(invalid.value);
      }
      if !env.recovery {
        if env.connect.ConnectDown? {
          return Err(ConnectUnavailable);
        }
        if !env.connect.completed {
          return Err(ConnectOnboardingIncomplete);
        }
      }
      r := gig;
    }

    method Publish(gigId: string, freelancerId: string, username: string, env: Env) returns (r: Result<Gig, Error>)
      modifies repo`gigs
      ensures (repo.View(), r) == Execute(old(repo.View()), Command.Publish(gigId, freelancerId, username), env)
      ensures old(Valid()) ==> Valid()
      ensures old(Valid()) ==> Promised(old(repo.View()), Command.Publish(gigId, freelancerId, username), env, repo.View(), r)
      ensures old(Valid()) ==> Decided(old(repo.View()), Command.Publish(gigId, freelancerId, username), env, repo.View(), r)
    {
      KeepsPromise(repo.View(), Command.Publish(gigId, freelancerId, username), env);
      var checked := CheckPublish(gigId, freelancerId, username, env);
      if checked.Err? {
        return checked;
      }
      var id := checked.value.row.id;
      var written := repo.Publish(id, env.now, env.faults);
      if written.Err? {
        return written;
      }
      var name := TrimSpace(username);
      if name != "" && TrimSpace(written.value.row.sellerUsername) == "" {
        written := repo.UpdateSellerUsername(id, name, From(env.faults, 2));
      }
      r := Reported(written, env.events);
    }
  }

  /** Puts what a loop has collected in front of what the rest of it yields. */
  function Ahead<T>(front: seq<T>, rest: Result<seq<T>, Error>): Result<seq<T>, Error> {
    if rest.Ok? then Ok(front + rest.value) else rest
  }

  lemma AheadOne<T>(front: seq<T>, x: T, rest: Result<seq<T>, Error>)
    ensures Ahead(front, Ahead([x], rest)) == Ahead(front + [x], rest)
  {
    assert rest.Ok? ==> front + ([x] + rest.value) == front + [x] + rest.value;
  }

  lemma AheadNothing<T>(rest: Result<seq<T>, Error>)
    ensures Ahead([], rest) == rest
  {
    assert rest.Ok? ==> [] + rest.value == rest.value;
  }
}
