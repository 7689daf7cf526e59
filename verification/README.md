# gig-service: a Dafny model of its recovery, preview and write-model logic

The gig service keeps a seller's gigs in Postgres, previews of them in Redis, and replays commands that a
monolith recorded while the service was down from a Kafka topic. This project models that logic and proves
what it keeps over every schedule, every run and every input.

Where the source changes state step by step, the model is a class or an array method (`LaneRun`,
`PreviewRepository.Repository`, `PreviewService.Service`, `GigService.Repository`, `GigService.Service`,
`RecoverySubscriber.Subscriber`, `Ordering.SortInPlace`). Each method is proved against a function of the old
state. What a caller may rely on is stated as properties of that function, and the services promise it again on
their methods: the write model's invariant, when a command succeeds and what the returned gig shows, what a refresh
does to a cached preview, which page of which list a query gets, and when a recovery envelope is handled, what it
leaves, and that handled twice it is handled once.

- **Recovery batches** (`Commands`, `RecoverySettle`, `RecoveryClaims`, `RecoverySchedule`, `RecoveryProgress`, `RecoveryRouting`,
  `RecoveryOvertaking`, `RecoveryOrder`, `RecoveryBatch`, `ProjectionPool`). One dispatcher, 16 bounded FIFO
  lanes and 16 workers are a state machine whose steps are dispatch, close, take, and the worker's claim,
  handle, release and dead-letter. The hash and the handler are arbitrary functions.
- **Batches on the gig tables** (`RecoveryKeys`, `GigLocality`, `RecoveryOracle`, `RecoveryDrafts`,
  `RecoveryTables`): the same state machine with the real handler, lane keys and gig ids.
- **The partition's owner** (`RecoveryPartition`, `RecoveryNoLoss`, `RecoveryLoss`): generations, batches,
  commits, failed commits, abandoned batches and crashes on a log with offsets, over durable claims.
- **The preview cache** (`Preview`, `Float64`, `PreviewCache`, `PreviewOrder`, `PreviewWindows`,
  `PreviewLease`, `PreviewRepository`, `OwnerIndexOrder`): payload keys, numbered windows and the owner index as sorted sets
  with float64 scores; appends under a token lease, where every Redis command is a step of its own.
- **Listings** (`Ordering`, `Listing`, `Pages`, `OwnerPreview`, `PublicPages`, `MyGigs`, `MyGigsAnswers`,
  `PreviewService`): filter, stable sort, paging, the preview projection and its refreshes, the public list, and the
  owner's list from index or source. What a query is answered is stated by the query's own texts.
- **The write model** (`Domain`, `ChildTable`, `WriteModel`, `GigCommands`, `GigPromises`, `GigAcceptance`,
  `GigRefusals`, `GigService`, `WriteInvariant`, `PublicationTime`): tables with their keys and constraints,
  transactions whose statements may fail, and the commands, each a check and a later write between which other
  commands may run; when each succeeds, and why it is refused.
- **Recovered commands** (`RecoveryHandler`, `RecoverySubscriber`, `RecoveryPayloads`, `RecoveryAcceptance`,
  `RecoveryReplay`): which envelopes are handled, what their payloads leave in the tables, and what a second handling
  does. **Slugs** (`Slug`) are on UTF-8 bytes.

`dafny verify dfyconfig.toml` checks the whole project.

## What the proofs found

- A draft creation is keyed by its command id, the commands on the draft by its gig id, and a payload id is
  handled in the lane of the path's id: `RecoveryKeys` says exactly when lane key and handled gig agree. A message
  can be handled before an earlier one if and only if the two lanes differ and the earlier one's lane has room for
  what it holds back (`RecoveryOvertaking.OvertakenExactly`). For a creation and the basic info behind it, one order
  has two successes and the other a dead letter (`RecoveryDrafts.DraftCanBeOvertaken`).
- An event is lost when a claim is left behind with neither success nor dead letter: after redelivery it counts as
  claimed, and is committed past (`RecoveryLoss.LeftBehindIsLost`). Three ways leave one: a stop between a claim and
  its end, a stop between a failed release and the dead letter, and a failed release whose dead letter fails as
  well. Without these three, nothing is lost (`RecoveryNoLoss.NothingLost`); a failed release followed by its dead
  letter loses nothing. `RecoveryLoss.SafeExactly` gives the exact condition on the state between two batches.
- Once set, a publication time changes only in the write of a second publication that was checked before the first
  one wrote (`PublicationTime.TimeMovesExactly`, with a run in `RacingPublishMovesTime`). While no two publications of a
  gig are under way at once it never changes (`TimeKeptWithoutRace`). Status and completion flags never revert.
- A description passes the check and is stored empty if and only if it is nothing but white space
  (`PublicationTime.BlankDescriptionsPass`).
- Preview scores beyond 2^53 can come back from the cache in another order than the in-memory sort has
  (`PreviewOrder.CacheRefinesSort` and `OwnerPreview.WindowHoldsTheListing` give the exact condition).
- A preview id with white space at an end is stored under one key and read under another, so an append after it
  drops it (`PreviewWindows.UntrimmedIdIsDropped`; `PackedExactly` is the exact condition). Such an id can come
  in: the subscribers test the id of an event for blankness but pass it on untrimmed.
- When a preview lease expires inside its section and another call takes it, a successful append can be lost
  (`PreviewLease.ExpiryLosesAppend`). An expiry that no call uses is harmless (`ExclusiveExactly`).
- Replaying a sequence is exact from every state the write commands reach. From a paused or archived gig, which they
  do not produce, it is inexact if and only if a publication stands before the first draft creation and none behind
  it (`RecoveryReplay.ReplayExactlyUnlessLapsed`).

## Model

| member | source | states |
|---|---|---|
| Commands.SameGigSameKey | internal/presentation/event_broker/kafka/broker.go:474-496 | commands whose path names a gig, and which are not keyed as draft creations, have that gig id as lane key, whatever their Kafka key, aggregate id or command id |
| Commands.UnnamedKey | internal/presentation/event_broker/kafka/broker.go:474-496 | commands whose path names no gig, by no marker or by one before an empty or `drafts` segment, are keyed by their aggregate, all else by the Kafka key |
| RecoveryKeys.NamedKeyIsGig | internal/presentation/event_broker/kafka/recovery_subscriber.go:167-170 | a command on a path that names a gig runs in that gig's lane, and changes that gig if and only if the payload's id, where there is one, is the same; without one, where no marker in other letters comes first and the id is trimmed |
| RecoveryKeys.AggregateKeyIsGig | internal/presentation/event_broker/kafka/recovery_subscriber.go:394-407 | the same where the aggregate chooses the lane |
| RecoveryKeys.DraftKeyIsGig | internal/presentation/event_broker/kafka/broker.go:479-482 | a draft creation runs in the lane of its command id, its gig's lane only if the two ids are equal |
| RecoveryKeys.TwoLanesOneGig | internal/presentation/event_broker/kafka/recovery_subscriber.go:167-170 | two paths and one payload id: two lane keys handle commands on one gig |
| Commands.OwnerIsNamed | internal/presentation/event_broker/kafka/recovery_subscriber.go:357-369 | the owner is trimmed, taken from the payload first, and missing only where payload, principal and token are all blank |
| RecoverySettle.MessageOutcome | internal/presentation/event_broker/kafka/broker.go:498-564 | every way one message can end: succeeded, skipped as claimed, dead-lettered or reported; a failed handler gives its claim back, a failed claim is dead-lettered; which messages are one event is the next rows' subject |
| RecoveryClaims.CommandIdsDecide | internal/presentation/event_broker/kafka/broker.go:513-524 | of two new commands the second is skipped as claimed already if and only if its claim works, both have one command id, and the first kept its claim |
| RecoveryClaims.FingerprintsDecide | internal/presentation/event_broker/kafka/broker.go:513-524 | of two messages without envelope or command id, the same by their fingerprints |
| RecoveryClaims.CommandThenFingerprint | internal/presentation/event_broker/kafka/broker.go:513-524 | of a command and a message without command id, only if the id is the fingerprint |
| RecoveryClaims.NewEventsAreHandled | internal/presentation/event_broker/kafka/broker.go:513-540 | messages that are different events, unclaimed before and with working claims, are each handled, in offset order |
| RecoveryClaims.NewEventsAreHandledInLanes | internal/presentation/event_broker/kafka/broker.go:443-470 | so under every schedule of the lanes: the gigs end as handling each message makes them |
| RecoverySchedule.ScheduleIndependence | internal/presentation/event_broker/kafka/broker.go:443-470 | for every interleaving, when messages on one gig or with one event id share a lane, gigs, claims, settlements and errors are exactly those of handling the batch in offset order |
| RecoveryRouting.KeyedBatchIsSequential | internal/presentation/event_broker/kafka/broker.go:459-463 | the same for lanes chosen by any hash of the lane key |
| RecoveryOvertaking.OvertakenExactly | internal/presentation/event_broker/kafka/broker.go:446-463 | for every batch and every two of its messages, some legal schedule takes the later one first if and only if their lanes differ and the earlier one's lane has room for all messages of the lane between them |
| RecoveryDrafts.DraftCanBeOvertaken | internal/presentation/event_broker/kafka/broker.go:479-482 | with the real handler: a legal schedule that handles the basic info of a gig before the creation sent ahead of it, dead-letters it and leaves an empty draft, where offset order has two successes |
| RecoveryOracle.TablesMatch | internal/presentation/event_broker/kafka/recovery_subscriber.go:59-348 | the handler on the whole tables and on one gig alone have one verdict, and leave every gig alike |
| RecoveryTables.TablesAreSequential | internal/presentation/event_broker/kafka/broker.go:443-470 | schedule independence on the gig tables themselves: every schedule leaves each gig's row, packages, questions and media as handling the batch in offset order does, with the same verdict for each message |
| RecoveryProgress.SettledExactlyOnce | internal/presentation/event_broker/kafka/broker.go:443-470 | under every schedule a finished batch settled or reported each of its messages exactly once and no other message |
| RecoveryProgress.ResultsNeverFull | internal/presentation/event_broker/kafka/broker.go:444-455 | while a worker holds a message the results channel has room for its error |
| RecoveryProgress.NeverStuck | internal/presentation/event_broker/kafka/broker.go:446-467 | in every reachable state that is not finished some step is enabled: no deadlock on lanes of capacity n/16+1 |
| RecoveryProgress.MeasureDrops | internal/presentation/event_broker/kafka/broker.go:443-467 | every step decreases a measure |
| RecoveryProgress.AlwaysFinishes | internal/presentation/event_broker/kafka/broker.go:443-467 | a schedule has at most 6n+1 steps, and it cannot be continued if and only if the batch has finished |
| RecoveryProgress.LaneOrder | internal/presentation/event_broker/kafka/broker.go:446-463 | what a lane's worker took, then what it has pending, is that lane's part of the batch in order |
| RecoveryOrder.SameKeyOrder | internal/presentation/event_broker/kafka/broker.go:326-335 | over the batches of a generation messages with one lane key are taken in strictly increasing offset order |
| RecoveryOrder.SameKeyNeverOverlaps | internal/presentation/event_broker/kafka/broker.go:446-463 | two workers never hold messages with one lane key at the same time |
| RecoveryPartition.CommitSafety | internal/presentation/event_broker/kafka/broker.go:457-472 | over any generations, failures and crashes, each offset below the watermark had a success, a dead letter or an earlier claim |
| RecoveryPartition.WatermarkGrows | internal/presentation/event_broker/kafka/broker.go:468-472 | the watermark never moves back and moves only past a finished batch without errors |
| RecoveryPartition.AtMostOneSuccess | internal/presentation/event_broker/kafka/broker.go:507-540 | over any history with redelivery the handler returns success at most once per event id |
| RecoveryNoLoss.NothingLost | internal/presentation/event_broker/kafka/broker.go:507-563 | if no message fails both its release and its dead letter, and no stop falls while a worker holds a claim that is neither finished nor given back, each event below the watermark has a success or a dead letter |
| RecoveryLoss.LeftBehindIsLost | internal/presentation/event_broker/kafka/broker.go:518-524 | for any log and state, an event left claimed with neither success nor dead letter has a continuation that commits past it, a careful one unless a worker holds such a claim |
| RecoveryLoss.SafeExactly | internal/presentation/event_broker/kafka/broker.go:507-563 | between batches, no careful continuation loses an event if and only if every event below the watermark and every claimed event of the log has a success or a dead letter |
| RecoveryLoss.StopLoses | internal/presentation/event_broker/kafka/broker.go:518-524 | for any log, a history with a stop after the claim that commits an event with neither success nor dead letter |
| RecoveryLoss.StopBeforeLetterLoses | internal/presentation/event_broker/kafka/broker.go:537-563 | the same with a stop after a failed release, before the dead letter |
| RecoveryLoss.FailedReleaseLoses | internal/presentation/event_broker/kafka/broker.go:537-563 | the same with a failed release and a failed dead-letter write, and no stop at all |
| RecoveryBatch.FetchBatch | internal/presentation/event_broker/kafka/broker.go:427-441 | the batch is the next stretch of the log: at least one message, at most 200, ended by the limit, the log or a failed fetch |
| RecoveryBatch.LaneRun.constructor | internal/presentation/event_broker/kafka/broker.go:443-458 | empty lanes, idle workers, empty results |
| RecoveryBatch.LaneRun.Dispatch | internal/presentation/event_broker/kafka/broker.go:459-463 | the next message goes to the end of its lane and nothing else changes |
| RecoveryBatch.LaneRun.Close | internal/presentation/event_broker/kafka/broker.go:464-466 | the lanes are closed |
| RecoveryBatch.LaneRun.Take | internal/presentation/event_broker/kafka/broker.go:449-455 | a worker takes the head of its own lane |
| RecoveryBatch.LaneRun.Work | internal/presentation/event_broker/kafka/broker.go:506-563 | one atomic action of a worker on claims, gig, dead letters or results |
| RecoveryBatch.LaneRun.Move | internal/presentation/event_broker/kafka/broker.go:446-467 | in an unfinished state some enabled step is taken |
| RecoveryBatch.LaneRun.Drive | internal/presentation/event_broker/kafka/broker.go:443-467 | any order of moves ends, with every message settled once and, with related messages in one lane, with the sequential result |
| RecoveryBatch.RunRecoveryBatch | internal/presentation/event_broker/kafka/broker.go:426-472 | the offset after the last message is committed if and only if no message was left both unhandled and undead-lettered; then every message of the batch is settled |
| ProjectionPool.PoolAlwaysFinishes | internal/presentation/event_broker/kafka/broker.go:224-284 | at most 8 workers on an unbuffered channel: at most 2n moves, no stuck play, and a play that cannot go on handled each message exactly once |
| Float64.NearestFloat | internal/infra/read/redis/repository.go:182 | the float of a score, negative ones included, is the nearest multiple of the spacing of floats there, an even one on a tie |
| Float64.ToFloatMonotone | internal/infra/read/redis/repository.go:182 | converting scores to float64 keeps order |
| Float64.ToFloatExact | internal/infra/read/redis/repository.go:182 | scores of magnitude at most 2^53 convert exactly |
| Float64.FirstCollision | internal/infra/read/redis/repository.go:182 | 2^53 and 2^53+1 convert to one float |
| PreviewOrder.CacheRefinesSort | internal/infra/read/redis/repository.go:158-195 | for distinct ids, a window written and read back is the in-memory sort of the previews if and only if the ids are trimmed and no two scores are rounded into the wrong order |
| PreviewOrder.SmallScoresNeverInvert | internal/application/preview.go:70-75 | scores up to 2^53 in magnitude meet that condition |
| PreviewOrder.LargeScoresInvert | internal/infra/read/redis/repository.go:182 | two scores and ids that do not |
| PreviewWindows.AppendKeepsPacked | internal/infra/read/redis/repository.go:276-307 | an append keeps windows 0..k without gaps, all but the last full, no id twice; it adds the id, or changes nothing when the id is present |
| PreviewWindows.PackingOverRuns | internal/infra/read/redis/repository.go:276-307 | any run of appends of trimmed ids from no windows leaves packed windows holding exactly the appended ids |
| PreviewWindows.PackedExactly | internal/infra/read/redis/repository.go:276-307 | a run of appends ends packed with exactly the appended ids, each with its payload, if and only if the ids are trimmed |
| PreviewWindows.UntrimmedIdIsDropped | internal/infra/read/redis/repository.go:282-303 | an id with white space at an end is dropped by the next append |
| PreviewWindows.MoreExactly | internal/infra/read/redis/repository.go:333-340 | of packed windows 0..k each says that there is more if and only if it is not the last |
| PreviewWindows.WindowsGiveEachOnce | internal/infra/read/redis/repository.go:310-377 | packed windows read one after the other give every id they hold exactly once |
| PreviewLease.LeaseEndsByOwner | internal/infra/read/redis/repository.go:498-509 | a lease ends only by expiry or by the release of a call with its token |
| PreviewLease.ExclusiveExactly | internal/infra/read/redis/repository.go:243-253 | at most one call is inside its section in every state of a run if and only if no call takes the lease while another, whose lease has expired, is inside |
| PreviewLease.CallsAreSerial | internal/infra/read/redis/repository.go:243-307 | for every interleaving of concurrent appends, expiries included, in which no call takes the lease while another is inside, at most one call is inside, and the cache ends as the successful calls make it one after another, each once |
| PreviewLease.SerialLosesNothing | internal/infra/read/redis/repository.go:276-307 | such a serial run keeps the packing and holds every id appended |
| PreviewLease.ExpiryLosesAppend | internal/infra/read/redis/repository.go:243-253 | with an expiry inside the section and a second call that takes the lease, a schedule in which two calls succeed and one gig is gone |
| PreviewRepository.ZRevRange | internal/infra/read/redis/repository.go:389-394 | all members by descending score, ties by descending member |
| PreviewRepository.SortInts | internal/infra/read/redis/repository.go:482 | the window numbers in ascending order, none lost |
| PreviewRepository.Repository.UpsertPreviewWindow | internal/infra/read/redis/repository.go:158-195 | the whole new cache: window replaced, payloads set, nothing else; blank user refused |
| PreviewRepository.Repository.ListPreviewWindow | internal/infra/read/redis/repository.go:310-377 | the payloads of the window in its order, and whether a next window exists; not found when empty |
| PreviewRepository.Repository.MultiGet | internal/infra/read/redis/repository.go:412-435 | the payloads that exist, in key order |
| PreviewRepository.Repository.UpsertOwnerPreview | internal/infra/read/redis/repository.go:197-225 | the payload and the index entry are set and the preview reads back by its id; nil or blank ids refused |
| PreviewRepository.Repository.ListOwnerPreviewGigs | internal/infra/read/redis/repository.go:379-441 | the index's payloads, newest update first; not found when there is none |
| OwnerIndexOrder.TimedOverRuns | internal/infra/read/redis/repository.go:197-225 | in every state of every run with trimmed ids, an index entry of a gig its owner still has carries that preview's update time |
| OwnerIndexOrder.ListsByTime | internal/infra/read/redis/repository.go:379-441 | then the owner's list holds every preview of the index once, by descending update time in milliseconds as floats |
| PreviewRepository.Repository.ReleasePreviewLease | internal/infra/read/redis/repository.go:498-509 | deletes the lease if and only if it holds the token |
| PreviewRepository.Repository.AppendPreviewGig | internal/infra/read/redis/repository.go:227-308 | the append's effect for any scan order; packed windows stay packed with the id added; busy and invalid calls change nothing; the lease is given back |
| PreviewRepository.Repository.AppendInSection | internal/infra/read/redis/repository.go:276-307 | the walk over the scanned windows |
| Ordering.SortedUnique | internal/application/my_gigs.go:134-151 | where distinct elements are comparable there is one sorted arrangement |
| Ordering.SortOfPermutation | internal/application/my_gigs.go:134-151 | then the stable sort does not depend on the input order |
| Ordering.SortInPlace | internal/application/my_gigs.go:136-150 | the array ends as the stable sort of what it held |
| Listing.SortsByName | internal/application/my_gigs.go:267-278 | a sort is understood if and only if it is blank (update time) or a sort key's name |
| Listing.FoldsCase | internal/application/my_gigs.go:118-132 | on ASCII text the status comparison is equality apart from the case of letters |
| Listing.FilterOwnerGigs | internal/application/my_gigs.go:118-132 | the items that pass the status filter, in order |
| Listing.ComparatorIsStrictWeak | internal/application/my_gigs.go:134-216 | the less function is a strict weak order for every key and direction, nil items included |
| Listing.ListedShape | internal/application/my_gigs.go:118-151 | a listing holds exactly the passing items, ordered by the field asked for in the direction asked for, ties by descending trimmed id |
| Listing.ListingIgnoresInputOrder | internal/application/my_gigs.go:118-216 | any permutation of items with distinct trimmed ids gives one identical listing |
| Listing.SortOwnerGigs | internal/application/my_gigs.go:134-151 | sorts in place: a permutation, in order |
| Pages.PaginatorsAgree | internal/application/preview.go:107-139 | both paginate functions give the same page for every list, page and limit |
| Pages.TotalPagesCovers | internal/application/my_gigs.go:225-240 | the page count is the least that covers the list |
| Pages.PageShape | internal/application/my_gigs.go:218-249 | a page before the last is full, one after it empty, and more follows exactly before the last |
| Pages.PagesPartition | internal/application/my_gigs.go:218-249 | pages 1..total concatenated are the list, for every list and limit |
| Pages.PaginateCuts | internal/application/my_gigs.go:218-249 | the page holds the items from position (page - 1) * limit on, up to limit of them, says whether more follow, and counts the least number of pages that covers the list |
| Pages.PagesNeverOverflow | internal/presentation/grpc/server.go:306-313 | with page and limit from int32 no product or sum leaves 64 bits |
| OwnerPreview.ScanMinimumPrice | internal/application/preview.go:142-151 | the least package price, 0 without packages |
| OwnerPreview.UpsertShows | internal/application/owner_preview.go:13-64 | an upsert fails exactly where the score cannot be read or owner or id is blank; else the preview read back has the gig's texts and times, its least price, the score, and counts taken over from the cached preview, else from the services for a published gig outside recovery, else zero |
| OwnerPreview.RatingRefreshes | internal/application/owner_preview.go:68-89 | when a rating refresh succeeds, and what it leaves: the rating and nothing else, or a preview made anew where none was cached |
| OwnerPreview.OrdersRefresh | internal/application/owner_preview.go:93-117 | the same for the order count, which goes up by one as an int64 |
| OwnerPreview.RunConserves | internal/application/owner_preview.go:31-116 | in every state of any run of upserts, refreshes and public listings, while the write model changes, a cached gig's order count is its start plus its order refreshes (as int64), and its rating the last one refreshed |
| OwnerPreview.Collected | internal/application/preview.go:46-69 | a public listing only adds payloads, and lists the gigs' payloads in order |
| PublicPages.ListingAnswers | internal/application/preview.go:12-87 | a public listing is refused exactly without a seller name, succeeds exactly if the gigs load and each preview is cached or can be written, and is then page max(1, page), at the limit asked for, else the page size, else 10, of the seller's gigs' previews, each gig's once, by descending score and id |
| PublicPages.PublicPagesPartition | internal/application/preview.go:107-139 | a seller's pages 1..totalPages, concatenated, are that whole list |
| OwnerPreview.WindowHoldsTheListing | internal/application/preview.go:70-86 | after a public listing the seller's window 0 read back is exactly the list that was paged if and only if its ids are trimmed and no two scores are rounded into the wrong order |
| MyGigs.RebuildWrites | internal/application/my_gigs.go:95-111 | with readable popularity every write of a rebuild succeeds and what is read back stays in the cache |
| MyGigs.IndexHoldsRebuilt | internal/infra/read/redis/repository.go:197-225 | after a rebuild on a miss the owner index lists exactly the rebuilt previews |
| MyGigs.MissThenHit | internal/application/my_gigs.go:56-116 | after a miss that rebuilds, the owner's queries are served from the index, change nothing, and give page, totals and `HasMore` as the rebuild does, for every filter, order and page |
| MyGigsAnswers.RefusedExactly | internal/application/my_gigs.go:27-54 | each refusal of a query exactly for its cause, the first in the order user, status, sort, order, limit; a refused query changes nothing |
| MyGigsAnswers.OrderAccepted | internal/application/my_gigs.go:280-287 | an order is understood if and only if its trimmed text is empty, desc or asc, and is ascending only as asc |
| MyGigsAnswers.OwnedAre | internal/application/my_gigs.go:74-84 | the owner's gigs are found if and only if each listed one that names the owner loads, and are what those load as |
| MyGigsAnswers.PagesOfQuery | internal/application/my_gigs.go:56-116 | from the index and from the source alike, the pages 1..totalPages of a query, concatenated, are exactly the previews of the status asked for, ordered by the field its sort names, ascending if and only if its order is asc, ties by descending id; every page is cut from that list at the limit asked for, else the page size |
| MyGigsAnswers.QueryAnswered | internal/application/my_gigs.go:27-67 | every query, whatever it asks, is refused for its cause, or answered with such a page exactly if there is something to list from |
| PreviewService.Service.UpsertPreviewGig | internal/application/owner_preview.go:14-64 | when it succeeds and what the stored preview shows: rating and order count carried from the cached preview, else backfilled for a published gig outside recovery; no cached count or rating moves |
| PreviewService.Service.RefreshPreviewRating | internal/application/owner_preview.go:68-89 | when it succeeds; a success replaces that gig's rating; no order count and no other gig's rating moves; an uncached gig is rebuilt |
| PreviewService.Service.RefreshPreviewOrderCount | internal/application/owner_preview.go:93-117 | when it succeeds; a success counts one more order of that gig; no rating and no other gig's count moves; an uncached gig is rebuilt |
| PreviewService.Service.CollectPreviews | internal/application/preview.go:46-69 | the loop over the seller's gigs, up to the first failed write |
| PreviewService.Service.RankAndStore | internal/application/preview.go:70-84 | the sort in place and the write of the first seller's window 0 |
| PreviewService.Service.GetPreviewGigsByFreelancerUsername | internal/application/preview.go:12-87 | validation, collection, sort in place, write of window 0; the page asked for of the seller's previews by rank; no cached payload changes |
| PreviewService.Service.GetMyGigs | internal/application/my_gigs.go:27-67 | validation in its order, then index or rebuild; refusals for their cause, and the page asked for of the previews of the status asked for in the order asked for; a hit changes nothing, no count or rating moves, and a rebuilt answer is given again whatever the write model says later |
| PreviewService.Service.ListItems | internal/application/my_gigs.go:64-66 | filter, sort in place and page |
| PreviewService.Service.OwnedGigs | internal/application/my_gigs.go:74-84 | the owner's gigs, each loaded by id, or the first failed load |
| PreviewService.Service.BuildMyGigsFromSource | internal/application/my_gigs.go:69-116 | the rebuild path with the cache it leaves |
| PreviewService.Service.RebuildPreviews | internal/application/my_gigs.go:95-111 | a failed upsert is ignored, a failed read ends the loop |
| ChildTable.InsertsSucceed | internal/infra/write/postgres/repository.go:236-265 | the insert loop succeeds if and only if no statement fails from outside, the gig exists and no row clashes |
| ChildTable.ReplaceReadsBack | internal/infra/write/postgres/repository.go:206-297 | a replacement reads back in the given order, positions 1..n, supplied ids kept, other gigs' rows unchanged |
| WriteModel.PackagesAllOrNothing | internal/infra/write/postgres/repository.go:196-303 | packages: either nothing changed, or the exact new tables and flag; commits if and only if statements work, the gig exists, tiers differ and ids are free |
| WriteModel.QuestionsAllOrNothing | internal/infra/write/postgres/repository.go:305-396 | questions: the same, where only ids can clash |
| WriteModel.MediaAllOrNothing | internal/infra/write/postgres/repository.go:398-494 | media: the same, and the cover file changes with the rows |
| GigService.InsertRows | internal/infra/write/postgres/repository.go:236-265 | the insert loop, stopped by the first failing statement |
| GigService.Repository.CreateDraft | internal/infra/write/postgres/repository.go:39-96 | new draft row, or owner replaced and publication kept |
| GigService.Repository.UpdateBasicInfo | internal/infra/write/postgres/repository.go:98-144 | the row with the new basic info and its flag; missing gig or failed statement change nothing |
| GigService.Repository.ReplacePackages | internal/infra/write/postgres/repository.go:196-303 | the transaction: fields change at the commit or not at all |
| GigService.Repository.ReplaceQuestions | internal/infra/write/postgres/repository.go:305-396 | the transaction for questions |
| GigService.Repository.ReplaceMedia | internal/infra/write/postgres/repository.go:398-494 | the transaction for media and cover |
| GigService.Service.CreateDraft | internal/application/service.go:104-124 | the command's whole effect and result; when it succeeds, whatever fails; keeps the invariant and every other gig, and returns the gig as it now stands |
| GigService.Service.UpdateBasicInfo | internal/application/service.go:126-172 | validation in the source's order, then the write; when it succeeds; the gig returned shows the info asked for, trimmed; only the owner changes it; a refusal changes nothing; an unpublished event fails the call after the write |
| GigService.Service.NormalizeAll | internal/application/service.go:179-200 | the loop that trims packages, or the first refusal |
| GigService.Service.ValidateAll | internal/application/service.go:700-722 | the loop that checks tiers, texts, days and prices, or the first error |
| GigService.Service.ReplacePackages | internal/application/service.go:174-216 | normalization, validation, transaction; when it succeeds; the gig returned shows the packages asked for in order; the same promises |
| GigService.Service.CollectQuestions | internal/application/service.go:223-230 | the loop over the questions, or the first refusal; accepted if and only if no content is blank and, in recovery, no id |
| GigService.Service.ReplaceQuestions | internal/application/service.go:218-241 | validation, transaction; succeeds if and only if the gig is owned, the texts are accepted, the row ids are free and nothing fails; the same promises for questions |
| GigService.Service.ReplaceMedia | internal/application/service.go:243-274 | validation, upload, transaction; when it succeeds; the first file is the cover and the others follow in order; the same promises |
| GigService.Service.FilesAreValid | internal/application/service.go:752-769 | the loop that looks for a file without name, type or data |
| GigService.Service.Publish | internal/application/service.go:466-530 | checks, publishing update, seller name where the gig has none; when it succeeds; the same promises |
| GigPromises.ExecuteKeepsPromise | internal/application/service.go:104-530 | every command, whatever fails: the invariant is kept, nothing reverts, other gigs are untouched, only the owner changes a gig, a refusal changes nothing, and the gig returned is the one named and shows what was asked for |
| GigAcceptance.SucceedsExactly | internal/application/service.go:104-530 | every command, whatever fails, succeeds if and only if its request is acceptable, its events can be published and none of its statements fails; an unacceptable one changes nothing; it has taken effect exactly if all statements up to the commit work; where only the events fail, the write stays |
| GigAcceptance.QuestionsSucceedExactly | internal/application/service.go:218-241 | requirements are accepted if and only if the gig is owned, no content is blank, in recovery no id is blank, and the row ids, supplied or generated, are free; refused they change nothing |
| GigAcceptance.PackagesSucceedExactly | internal/application/service.go:174-216 | packages, if and only if the gig is owned, they are one to three of the tiers in order, described and positive, in recovery with ids, and the row ids are free |
| GigAcceptance.MediaSucceedsExactly | internal/application/service.go:243-274 | media, if and only if the gig is owned, each file has name, type and data, the upload yields an id for each, and the row ids are free |
| GigAcceptance.BasicInfoSucceedsExactly | internal/application/service.go:126-172 | basic info, if and only if the gig is owned, title, short info, description, category and currency are within their limits and the title makes a slug |
| GigAcceptance.DraftSucceedsExactly | internal/application/service.go:104-124 | a draft, if and only if an owner is named; a new one is empty, an existing gig keeps all but its owner and a paused or archived status |
| GigRefusals.RefusalsAreExact | internal/application/service.go:126-274 | for every command, each error it can be refused with comes exactly for its cause: ownership first, then the first text, package, question, file or state that is not in order |
| GigCommands.ValidPackagesAreSellable | internal/application/service.go:700-722 | packages are accepted if and only if they are one to three, with tiers basic, standard, premium in order and positive price and days |
| GigCommands.NormalizedShape | internal/application/service.go:179-200 | normalization succeeds if and only if tiers (and, in recovery, ids) are not blank, and keeps each package trimmed |
| GigCommands.PublishSucceedsExactly | internal/application/service.go:466-502 | publishing succeeds if and only if the gig is an owned, completed draft with sellable packages and the seller is onboarded (or it is a recovery); then only its row changes, otherwise nothing |
| GigCommands.OtherGigsUntouched | internal/application/service.go:104-274 | a command touches no gig but the one it names, whether it succeeds or fails |
| GigLocality.HandleLocal | internal/application/service.go:104-274 | what a command does to its gig, and how it ends, depends on that gig's row and reads alone, as long as its row ids are not another gig's |
| GigLocality.ExecuteSound | internal/infra/write/postgres/repository.go:196-494 | commands keep every child row with its gig, and its id with that gig |
| WriteInvariant.RunKeeps | internal/application/service.go:466-502 | in every state of every run with commands interleaved between check and write: published implies completed and timed, basic info is within its limits with a slug ending in the id, completed packages are tiered, priced and numbered 1..n, questions are not blank, media are numbered, and flags and publication never revert |
| WriteInvariant.ExecuteKeeps | internal/application/service.go:104-241 | commands that run alone keep the same |
| WriteInvariant.DraftWrite | internal/infra/write/postgres/query.go:4-19 | draft re-creation keeps flags and publication |
| WriteInvariant.PackagesWrite | internal/infra/write/postgres/repository.go:196-303 | rows and flag change together, so the invariant holds at every commit |
| WriteInvariant.StoredSlugResolves | internal/presentation/grpc/server.go:351-368 | in every reachable state the slug stored for a completed gig with a version 7 id parses back to that id if and only if what stands before the id is more than white space |
| PublicationTime.TimeMovesExactly | internal/infra/write/postgres/query.go:47-56 | in any reachable state a step changes a gig's publication time if and only if it is a publication's write on it, the statement works and the time differs |
| PublicationTime.TimeKeptWithoutRace | internal/infra/write/postgres/query.go:47-56 | over every run with no two publications of the gig under way at once, the time never changes once set |
| PublicationTime.RacingPublishMovesTime | internal/infra/write/postgres/query.go:47-56 | a run from no command under way in which two publications pass their checks and the second overwrites the time |
| PublicationTime.BlankDescriptionsPass | internal/application/service.go:142-144 | a checked basic info has an empty description if and only if the description asked for is white space |
| PublicationTime.DescribedOverRuns | internal/application/service.go:142-144 | over every run in which no description asked for is blank, no completed gig has an empty one |
| RecoverySubscriber.Subscriber.Handle | internal/presentation/event_broker/kafka/recovery_subscriber.go:59-348 | decoding, dispatch, command and completion, with the state left and the result; exactly when it succeeds, and then what the payload asks for stands in the tables; keeps the invariant; once it returned success, handling the envelope again succeeds and changes nothing |
| RecoveryPayloads.EnvelopeLands | internal/presentation/event_broker/kafka/recovery_subscriber.go:109-305 | after an envelope handled with success, by its literal operation and path suffix: the addressed gig is the named owner's, with the payload's basic info trimmed; its packages; its questions; its files' uploads in order, the first as cover; the draft's id and owner; or the publication with the seller name asked for |
| RecoveryAcceptance.DecodesExactly | internal/presentation/event_broker/kafka/recovery_subscriber.go:92-308 | an envelope decodes if and only if it is for gigs with an aggregate id and asks, by operation and path suffix, for one of the six commands with a payload that fits |
| RecoveryAcceptance.HandledExactly | internal/presentation/event_broker/kafka/recovery_subscriber.go:92-330 | it is handled with success if and only if moreover the command is acceptable, or is the publication of an owned gig that is no draft, and no statement, event, record or completion it needs fails |
| RecoverySubscriber.Subscriber.HandleDraft | internal/presentation/event_broker/kafka/recovery_subscriber.go:110-153 | owner from payload or principal, requested id kept, result recorded; on success the draft stands under that id and owner |
| RecoverySubscriber.Subscriber.HandleBasicInfo | internal/presentation/event_broker/kafka/recovery_subscriber.go:155-177 | gig and owner resolved, then the command; on success title, short info, description, category and currency are the payload's, trimmed |
| RecoverySubscriber.Subscriber.HandlePackages | internal/presentation/event_broker/kafka/recovery_subscriber.go:178-219 | a package without id is refused before anything changes; on success the rows are the payload's packages in order |
| RecoverySubscriber.Subscriber.HandleQuestions | internal/presentation/event_broker/kafka/recovery_subscriber.go:221-238 | gig and owner resolved, then the command; on success the rows are the payload's questions in order |
| RecoverySubscriber.Subscriber.HandleMedia | internal/presentation/event_broker/kafka/recovery_subscriber.go:240-270 | a file that is no base64 is refused before any change; on success the rows are the uploads of the payload's files in order |
| RecoverySubscriber.Subscriber.HandlePublish | internal/presentation/event_broker/kafka/recovery_subscriber.go:266-301 | a gig already published is read instead; on success a draft is published under the name asked for, and any other gig stays |
| RecoveryReplay.ReplayExactlyUnlessLapsed | internal/presentation/event_broker/kafka/recovery_subscriber.go:109-305 | if all commands of a sequence on one gig and owner succeeded from any state, the whole sequence succeeds again and leaves the write model equal, publication time included, if and only if the gig started absent, draft or published, or no publication stands before the first draft creation without another behind it |
| RecoveryReplay.ReplayChangesNothing | internal/presentation/event_broker/kafka/recovery_subscriber.go:109-305 | in every state the write commands reach, the replay is exact |
| RecoveryReplay.TwiceIsOnce | internal/presentation/event_broker/kafka/recovery_subscriber.go:109-305 | a command that succeeded once, handled again, succeeds and changes nothing, whatever the gig's status |
| RecoveryReplay.ReplayOfEnvelopes | internal/presentation/event_broker/kafka/recovery_subscriber.go:59-348 | the same exact condition for envelopes as the handler receives them |
| RecoveryReplay.PausedIsNotReplayable | internal/infra/write/postgres/query.go:11-15 | the other side of that condition is inhabited: from a paused gig a successful sequence whose replay is not exact |
| Slug.AcceptedSlugs | internal/presentation/grpc/server.go:351-368 | a slug is accepted with an id if and only if the id is a version 7 UUID text (sections 4 and 5.7 of RFC 9562) and the trimmed slug is a non-empty prefix, a dash and the id |
| Slug.SlugRoundTrip | internal/application/slug.go:13-22 | the id of a generated slug is recovered if and only if the base is not all white space |

## Left out

- Kafka, Redis, Postgres, gRPC and ClickHouse clients, logging, metrics, tracing and wiring: only their effects are modelled.
- The single-message loop of RunPullConsumer, the unreachable loop at broker.go:340-417, the NATS adapters and the event and gRPC mappers.
- Replay of media commands and of drafts without a gig id: both allocate fresh ids, so a second handling differs by design.
- The file service: the file ids an upload yields, or its failure, are a function of owner, prefix and files; the deletion of uploaded files after a failed write happens there.
- RecoveryReplay.ReplayChangesNothing: leaves row timestamps other than the publication time out, because `NOW()` differs by design.
- RecoveryTables.TablesAreSequential: asks that no batch sends one gig the row ids of another, because then the order of two gigs' commands decides which one the primary key refuses.
- RecoveryPartition.AtMostOneSuccess: one partition with one owner at a time; duplicates of an event id on two partitions are not modelled.
- The broker without a database (no claims), and claims that fail after they took effect.
- Event ids are used unscoped: the per-topic scoping of the idempotency library is an injective renaming.
- Redis expiry of payloads and of windows above 0, failed Redis commands, and a pipeline cut off half-way; the lease does expire in `PreviewLease`.
- Preview ids with characters special to SCAN patterns, and user ids that make window keys collide.
- Nil previews in lists written to or read from the cache; `Listing` does cover nil items.
- A failing cache read counts as a miss in UpsertPreviewGig and would reset the order count to its backfill; the model's cache reads do not fail.
- The first insertion through the service's AppendPreviewGig (service.go:634-677), which writes zero counts.
- Listing.ComparatorIsStrictWeak: ratings are real numbers, because a rating that is no number cannot pass the JSON payload.
- `strings.ToLower` and `strings.EqualFold` outside ASCII, except the two letters that fold into it.
- UUID columns: ids are taken to be canonical UUID text, and text that is no UUID is not rejected.
- JSON encoding, the title normalizer and UUID generation: identity, an arbitrary function and supplied values.
- Failing reads before a command's write; failing statements, commits and reloads are modelled.
- Concurrent transactions on one gig are single steps: the unique indexes make the slower one fail or wait.
