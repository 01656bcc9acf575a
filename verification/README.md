# GitHub release notifications: a verified model

Users subscribe to a GitHub repository. An API service keeps the subscriptions
in PostgreSQL, a scanner looks up the latest release of every repository with a
confirmed subscription, and for each new tag it runs a two-step saga: write the
tag into the row, publish an event, and write the old tag back if the publish
failed. GitHub's answers are cached in Redis for ten minutes. This project
models those parts in Dafny, as classes and loops where the program changes
state, and proves what they promise together.

Run `dafny verify dfyconfig.toml` here to check it.

## How it is built

| file | what it holds |
|---|---|
| Common, Bags, Text | results and call outcomes; bag sums; trimming, lower-casing, splitting |
| Names | `normalizeRepo`, `normalizeEmail`, tokens |
| Domain, Table | the row and event types; the table as a value with the schema's constraints |
| Postgres, InternalApi, Service | the store, the internal gRPC pair, and the subscription service, as classes |
| GitHub | cache and client: the reference functions and the classes proved against them |
| CacheProtocol | lookups by many clients interleaved over one cache, with faults |
| ScanPass, Retry | one pass, and a row over many turns - passes whole, failed or crashed, and API statements - as functions |
| Scanner | publisher, saga orchestrator and scanner, as classes |
| ReleaseProtocol | the saga as a step relation: scanner steps, API statements, faults and crashes interleave |
| PassRefinement | the sequential pass, whole or cut off by a crash, and Subscribe are runs of that step relation |
| EndToEnd | passes on a schedule over the shared cache, each what the scanner's RunOnce promises: when a release reaches its subscribers |
| Announcements | that step relation and the cache protocol side by side: what a subscriber is told over any run |
| ScannerRuns | passes of the code and Subscribe, with their lookups, are runs of the two |
| Spacing, Repeats | when a subscriber is told no tag twice; runs that repeat a tag otherwise |
| Migrations | the migration runner |

Every remote write has one of three outcomes: done, refused, or applied with the
reply lost; the last two look alike to the caller. `Publish` returns nil exactly
when the broker client accepted the event. Clocks, GitHub's replies, random
bytes, mail and every failure are inputs, so each statement holds for all of them.
History variables of the step relations (`origin`, `damaged`, `served`, ...)
are recorded for the statements only; no step reads them to decide anything.

## Results worth knowing

- Both or neither. docs/adr/0006-orchestrated-saga-for-release-notification.md:11
  says the tag update and the event "both succeed or both fail", and line 25 names
  one exception, a crash between update and publish. The code has three:
  an update that was applied but whose reply was lost (the saga returns without
  compensating, saga.go:30-32), a failed compensation (the revert runs on the
  caller's context, so a shutdown is enough), and a crash in the window - which
  also covers the stretch after a failed publish and before the revert. Outside these
  the claim holds, step by step, as an if-and-only-if (`BreaksExactly`,
  `BothOrNeither`), and for every subscriber and tag there is a run that breaks it
  in each of these ways (`BothOrNeitherFails`). While it stays the
  latest, the lost tag is never announced (`UncleanFailureIsSilent`).
- A row out of step with what its subscriber was told gets back in step by the next
  event for it, or by a write that happens to put back the tag told last, and by
  nothing else (`RightsExactly`); the second does occur (`RightedInSilence`).
- If no cache read fails and lookups of one question do not overlap, the samples
  behind its answers never go back in time, however writes and requests to GitHub
  fail, entries are evicted and lookups are given up (`MonotoneSampling`). Neither
  condition can be dropped (`FaultsExposeOlderAnswer`, `OverlapGoesBack`).
- The scanner shares its cache with the lookups of `Subscribe`, so it can announce an
  old tag after a newer one, and then the newer one again. Over runs in which anything
  fails, passes take any time, the scanner crashes and the API does what it likes,
  no subscription to a repository whose tags do not come back on GitHub is told a
  tag twice as long as the scanner's answers for that repository do not go back in
  time (`ToldOnce`), and so if any of these holds:
  - between the answer to one of its lookups of the repository and the start of the
    next there are at least cacheTTL + lag - 1 ms, lag being the longest time from
    GitHub's reply to its entry in the cache (`ToldOnceWhenSpaced`). For every shorter
    gap, lag zero included, there is a run that repeats a tag, without any failure if
    lag is not zero (`CloserLookupsRepeat`). That gap is the interval only for passes
    that take no time; a slow pass, another order of the groups or a restart can make
    it shorter;
  - no cache read fails and lookups of one question do not overlap
    (`ToldOnceWhenPlain`);
  - no cache write fails and every reply is written as soon as it comes
    (`ToldOnceWhenStoredAtOnce`).
- In the last two cases a subscriber is not told its seed either. In the first that
  takes the same gap between the seed's lookup and the scanner's, however far apart
  the passes are: for every shorter one there is a run in which a new subscriber is
  told a tag older than its seed and then the seed (`CloserSeedRepeats`).
- `Subscribe` undoes its insert unless mail and delete both fail. A lost reply to
  the insert is a second way to leave a row. Either way
  the row is pending, and neither scanned nor notified, until its confirm token is
  presented (`PendingUntilPresented`). After a lost reply the tokens were handed to
  nobody; after a failed mail they were handed to the mailer, whose failure report
  does not mean that the mail was not delivered (`SubscribeRollsBack`).

## Model

| member | source | states |
|---|---|---|
| Text.TrimSpaceCuts | internal/modules/subscription/application/service.go:137-137 | trimming cuts spaces off both ends and nothing else, and leaves no outer space |
| Text.SplitInTwo | internal/modules/subscription/application/service.go:138-141 | a string splits into exactly the pieces a and b iff it is a, separator, b and neither piece holds the separator |
| Text.SpacesListed | internal/modules/subscription/application/service.go:99-99 | the characters that trimming cuts are these twenty-five |
| Text.ToLowerLetters | internal/modules/subscription/application/service.go:124-124 | lower-casing puts the small letter for each ASCII capital, keeps every other character and leaves no capital |
| Names.NormalizeRepoAccepts | internal/modules/subscription/application/service.go:136-147 | the accepted inputs are exactly those that, up to case and outer space, are an owner and a name around one slash; those two are returned, any other input is InvalidRepoFormat |
| Names.NormalizeRepoDecides | internal/modules/subscription/application/service.go:136-147 | character by character: accepted iff the input without its outer space has one slash with something on both sides and no blank; the two sides are returned with ASCII letters lowered and nothing else changed |
| Names.NormalizeRepoRoundTrip | internal/modules/subscription/application/service.go:136-147 | normalising a normalised owner/name gives it back |
| Names.RepoKeyInjective | internal/modules/subscription/domain/subscription.go:18-20 | the grouping key determines owner and name when owners hold no slash |
| Names.RepoKeyCollision | internal/modules/subscription/domain/subscription.go:18-20 | without that shape two repositories can share a key |
| Names.NormalizeEmailRoundTrip | internal/modules/subscription/application/service.go:123-134 | a normalised address is a fixed point of normalisation |
| Names.NormalizeEmailDecides | internal/modules/subscription/application/service.go:123-134 | the address without its outer space and with ASCII letters lowered if it is not empty and parses, and InvalidEmail otherwise |
| Names.NormalizingIgnoresCase | internal/modules/subscription/application/service.go:123-147 | inputs that differ in the case of ASCII letters only normalise alike |
| Names.HexEncodeIsHex | internal/modules/subscription/application/service.go:149-156 | an encoded token matches the token pattern iff it comes from 32 bytes |
| Names.HexRoundTrip | internal/modules/subscription/application/service.go:149-156 | decoding an encoded token gives its bytes back |
| Names.HexEncodeAt | internal/modules/subscription/application/service.go:149-156 | each byte becomes two hex digits, the high half first |
| Names.TokenPattern | internal/modules/subscription/application/service.go:17-17 | a token is 64 characters of 0-9 and a-f |
| Names.TokenIsTrimmed | internal/modules/subscription/application/service.go:17-17 | a well-formed token has no outer space |
| SubscriptionTable.InsertKeeps | internal/modules/subscription/infrastructure/postgres.go:24-47 | an insert keeps every constraint, changes no stored row, hands out a larger id than ever before, and answers AlreadySubscribed iff a unique constraint is violated |
| SubscriptionTable.InsertDecides | internal/modules/subscription/infrastructure/postgres.go:24-47 | AlreadySubscribed iff a stored row has the same address and repository or one of the tokens; otherwise exactly the given row is stored, pending; an id is used up either way |
| SubscriptionTable.OneRowPerSubscription | internal/platform/migrations/sql/0001_init.sql:13-13 | no address is subscribed to a repository twice |
| SubscriptionTable.SetTagKeeps | internal/modules/subscription/infrastructure/postgres.go:112-120 | a tag update keeps every constraint and changes the tag of that id's row only |
| SubscriptionTable.ConfirmKeeps | internal/modules/subscription/infrastructure/postgres.go:54-68 | confirming keeps constraints, identities and tags, and confirmed never goes back |
| SubscriptionTable.DeletesKeep | internal/modules/subscription/infrastructure/postgres.go:49-80 | both deletes remove exactly the matching rows and keep every constraint |
| SubscriptionTable.TokenNamesOneRow | internal/platform/migrations/sql/0001_init.sql:7-8 | two rows never share a confirm or unsubscribe token |
| SubscriptionTable.StaleUpdateIsNoOp | internal/modules/subscription/infrastructure/postgres.go:112-120 | a tag update for a deleted row changes nothing, even after a re-subscription |
| Postgres.PostgresSubscriptionStore.CreateSubscription | internal/modules/subscription/infrastructure/postgres.go:24-47 | under the given outcome, AlreadySubscribed iff a stored row has the same address and repository or one of the tokens, and otherwise one new row, returned as stored |
| Postgres.PostgresSubscriptionStore.DeleteSubscription | internal/modules/subscription/infrastructure/postgres.go:49-52 | removes the row of that id if the call is applied |
| Postgres.PostgresSubscriptionStore.ConfirmByToken | internal/modules/subscription/infrastructure/postgres.go:54-68 | confirms the row with the token and returns it as stored, or TokenNotFound iff no row has it |
| Postgres.PostgresSubscriptionStore.DeleteByUnsubscribeToken | internal/modules/subscription/infrastructure/postgres.go:70-80 | removes the row with the token, or TokenNotFound iff no row has it |
| Postgres.PostgresSubscriptionStore.ListConfirmedForScan | internal/modules/subscription/infrastructure/postgres.go:97-133 | fails, or returns every confirmed row exactly once and no other |
| Postgres.PostgresSubscriptionStore.UpdateLastSeenTag | internal/modules/subscription/infrastructure/postgres.go:112-120 | writes the tag into the row of that id, silently nothing if there is none |
| InternalApi.Server.ListConfirmedForScan | internal/transport/grpc/internalapi/server.go:20-34 | an error iff the read failed, and otherwise the stored snapshot converted element by element |
| InternalApi.GRPCStore.ListConfirmedForScan | internal/modules/scanner/infrastructure/grpc_store.go:34-46 | an error iff the call or the read behind it failed; otherwise what arrives after both conversions is a snapshot of the stored rows themselves |
| InternalApi.GRPCStore.UpdateLastSeenTag | internal/modules/scanner/infrastructure/grpc_store.go:48-54 | the remote update acts on the stored table under the outcome of the call |
| SubscriptionService.PreparedIsWellFormed | internal/modules/subscription/application/service.go:46-83 | whatever is inserted has normalised parts that the input named, a normalised address, two well-formed tokens, is pending, and is seeded with the tag looked up for that repository |
| SubscriptionService.PrepareDecides | internal/modules/subscription/application/service.go:46-83 | which error Subscribe gives before its insert, in the order of its steps, and that otherwise the row it inserts is made of the normalised input, the two tokens and the looked-up tag |
| SubscriptionService.StoredRepoRoundTrip | internal/modules/subscription/application/service.go:136-147 | normalising a stored row's key gives its owner and name |
| SubscriptionService.SubscribeRollsBack | internal/modules/subscription/application/service.go:76-95 | success iff the insert is acknowledged and not a duplicate and the mail works: exactly one pending seeded row; failure leaves the rows as before iff neither mail and delete both failed nor the insert's reply was lost; the mailer is handed the new row iff the insert was acknowledged |
| SubscriptionService.PaddedTokenReachesNothing | internal/modules/subscription/application/service.go:98-112 | a token with outer space, although it passes the trimmed check, confirms and removes nothing |
| SubscriptionService.GenerateToken | internal/modules/subscription/application/service.go:149-156 | the token is the encoding of the random bytes and well formed, or the random source failed |
| SubscriptionService.Service.Subscribe | internal/modules/subscription/application/service.go:46-96 | table, cache, mails and reply are those of validation, the two lookups, token generation, insert, mail and undo, with the first error returned; a success stores the row and hands it to the mailer |
| SubscriptionService.Service.Confirm | internal/modules/subscription/application/service.go:98-104 | succeeds iff the token as given is stored and the call is acknowledged; InvalidToken iff the trimmed token breaks the pattern, and then nothing changes; TokenNotFound iff it is acknowledged and nobody's |
| SubscriptionService.Service.Unsubscribe | internal/modules/subscription/application/service.go:106-112 | the same for the unsubscribe token |
| GitHub.KeysDistinct | internal/modules/github/cache.go:83-89 | every question about a normalised repository has its own cache key, and the two key families never meet |
| GitHub.StoredRepeatsAnswer | internal/modules/github/client.go:69-142 | exactly a decodable 200, or a 404 for existence, is stored, and a hit on it repeats the answer the reply gave |
| GitHub.ExistsAnswers | internal/modules/github/client.go:42-85 | a hit answers what was stored; else 200 is there, 429 or 403 with no requests left is RateLimited, 404 is RepoNotFound, all else a failure; 200 and 404 are stored for ten minutes |
| GitHub.LatestAnswers | internal/modules/github/client.go:87-143 | a hit answers what was stored; else a decodable 200 gives the first tag or none and is stored for ten minutes, 429 or 403 with no requests left is RateLimited, 404 is RepoNotFound, all else a failure |
| GitHub.LookupIsLocal | internal/modules/github/client.go:87-143 | a lookup reads and writes its own cache key only |
| GitHub.RedisCache.GetLatestReleaseTag | internal/modules/github/cache.go:57-72 | a miss iff there is no unexpired entry, an error for a failed read or undecodable value, else the stored pair |
| GitHub.RedisCache.SetLatestReleaseTag | internal/modules/github/cache.go:74-81 | the entry is replaced and expires ten minutes after the write |
| GitHub.RedisCache.GetRepoExists | internal/modules/github/cache.go:36-46 | a miss iff there is no unexpired entry, an error for a failed read, else whether the value is 1 |
| GitHub.RedisCache.SetRepoExists | internal/modules/github/cache.go:48-55 | the entry is replaced and expires ten minutes after the write |
| GitHub.Client.RepoExists | internal/modules/github/client.go:42-85 | answer and cache are those of the reference lookup, with and without a cache |
| GitHub.Client.LatestReleaseTag | internal/modules/github/client.go:87-143 | answer and cache are those of the reference lookup, with and without a cache |
| CacheProtocol.BoundedStaleness | internal/modules/github/client.go:42-143 | in every interleaving, whatever fails, each answer is one GitHub gave to that question, during the lookup or less than cacheTTL after being recorded |
| CacheProtocol.AgreesWithUncached | internal/modules/github/client.go:87-143 | if GitHub was steady from the sample behind an answer up to the answer, it is the uncached client's, except that a hit may hide a transient error behind the steady answer |
| CacheProtocol.MonotoneSampling | internal/modules/github/client.go:42-143 | over every run in which no cache read fails and lookups of one question do not overlap, the samples behind its answers never go back, whatever else fails |
| CacheProtocol.CalmRunsGoForward | internal/modules/github/client.go:182-194 | the same for every run without overlap in which no finishing lookup leaves a readable entry it did not replace |
| CacheProtocol.UncalmFinishGoesBack | internal/modules/github/client.go:182-194 | a lookup that does leave an older readable entry is followed by an older answer to the very next lookup |
| CacheProtocol.StoredAtOnceGoesForward | internal/modules/github/client.go:182-194 | if no write fails and every reply is written as soon as it comes, the samples behind stored replies' answers never go back, though lookups overlap and reads fail |
| CacheProtocol.FaultsExposeOlderAnswer | internal/modules/github/client.go:42-57 | a failed read followed by a failed write does expose an older answer, without overlap |
| CacheProtocol.OverlapGoesBack | internal/modules/github/client.go:87-143 | overlapping lookups can step back with no fault at all |
| CacheProtocol.LookupIsRun | internal/modules/github/client.go:42-143 | the lookup the client is proved to perform is, for any times and faults, a run of the step relation with the same cache and one more answer served, the client's |
| CacheProtocol.LookupIsSound | internal/modules/github/client.go:42-143 | so the client's answer is one GitHub gave, during the lookup or recorded less than cacheTTL before, whatever happened to the shared cache |
| CacheProtocol.LookedKeepsAnswers | internal/modules/github/client.go:87-143 | a lookup that takes no time changes no answer of the moment |
| ScanPass.BothOrNeither | internal/modules/scanner/application/saga.go:29-53 | a saga on a fresh row writes and announces the tag together iff it is sent or fails cleanly; a clean failure restores the table |
| ScanPass.RowTouchedOnce | internal/modules/scanner/application/scanner.go:114-133 | a pass gives each listed row the tag its own saga ends with |
| ScanPass.RowUntouched | internal/modules/scanner/application/scanner.go:114-133 | a pass leaves every other row alone |
| ScanPass.EventsOfOneSaga | internal/modules/scanner/application/scanner.go:114-133 | the events of an id are those of its one saga |
| ScanPass.EventsAreSent | internal/modules/scanner/application/scanner.go:114-129 | a pass accepts at most one event per due subscription, and one for each iff every saga is sent |
| ScanPass.PassKeeps | internal/modules/scanner/application/scanner.go:77-138 | a pass keeps the table's constraints and the shape of its rows |
| ScanPass.OrderIndependent | internal/modules/scanner/application/scanner.go:89-134 | any two orders end in the same table, the same multiset of events and the same counters |
| ScanPass.GroupedPermutes | internal/modules/scanner/application/scanner.go:84-89 | the groups, in any order, hold each snapshot row once |
| ScanPass.GroupingRefinesPlainLoop | internal/modules/scanner/application/scanner.go:84-134 | the grouped pass ends as a plain loop that processes each subscription by itself |
| Retry.RetryToExactlyOneEvent | internal/modules/scanner/application/saga.go:42-50 | any number of passes that fail cleanly, get no tag, list nothing or crash elsewhere, then a sent saga, then anything: exactly one event for the tag |
| Retry.FirstTurnDecides | internal/modules/scanner/application/saga.go:29-53 | the first pass that does not spare the row decides for good whether it is told the tag once or never |
| Retry.FailuresLeaveRow | internal/modules/scanner/application/scanner.go:77-134 | passes that spare the row, any number, leave it at its old tag and announce nothing |
| Retry.SeenTagIsQuiet | internal/modules/scanner/application/scanner.go:115-117 | once the row holds the tag no later pass, failed or crashed, moves or announces it |
| Retry.UncleanFailureIsSilent | internal/modules/scanner/application/saga.go:29-53 | after a lost reply to the update, a failed revert or a crash in the window the tag is never announced |
| Scanner.Publisher.Publish | internal/platform/nats/publisher.go:18-29 | the event is accepted iff nil is returned |
| Scanner.ReleaseSagaOrchestrator.ProcessRelease | internal/modules/scanner/application/saga.go:29-53 | table, accepted events and result are those of the reference saga |
| Scanner.Scanner.GroupByRepo | internal/modules/scanner/application/scanner.go:84-87 | there is one group per repository, and it holds the repository's rows in snapshot order |
| Scanner.Scanner.LookupGroup | internal/modules/scanner/application/scanner.go:90-108 | the group's one lookup answers as from the cache the pass found, leaves the cache as that lookup does, and spares the entries of other repositories |
| Scanner.Scanner.ProcessGroup | internal/modules/scanner/application/scanner.go:114-133 | table, events and counters advance by the group's sagas |
| Scanner.Scanner.RunOnce | internal/modules/scanner/application/scanner.go:77-138 | in whatever order the map yields groups: the plain loop's table and counters, its events up to order, one lookup per repository and the cache after these lookups, sent + failed = due; a failed listing changes nothing |
| Scanner.Scanner.Run | internal/modules/scanner/application/scanner.go:53-75 | one pass at the start and one per tick, each from where the one before it ended; a failing pass stops nothing |
| ReleaseProtocol.Preserved | internal/modules/scanner/application/saga.go:29-53 | every step of scanner, API, fault or crash keeps the invariant |
| ReleaseProtocol.LedgerHolds | internal/modules/scanner/application/saga.go:29-53 | over every run, a stored row holds the tag of its last accepted event, or its seed, unless its saga is in the window or it is damaged; its identity never changes |
| ReleaseProtocol.BreaksExactly | docs/adr/0006-orchestrated-saga-for-release-notification.md:11-25 | a sound row is broken by a step iff the step is an applied update with lost reply, a failed compensation, or a crash in the window |
| ReleaseProtocol.BothOrNeitherFails | docs/adr/0006-orchestrated-saga-for-release-notification.md:11-25 | for every subscriber and tag there is a run that breaks the claim in each way: a crash before the publish, a crash after a failed publish, a failed revert, an applied update with its reply lost |
| ReleaseProtocol.RightsExactly | internal/modules/scanner/application/saga.go:29-53 | a row that differs from what its subscriber was told agrees with it after a step iff the step is an event accepted for it or a write that puts back the tag told last |
| ReleaseProtocol.StopsBeingBroken | internal/modules/scanner/application/saga.go:29-53 | a broken row stops being broken iff its next saga takes it into the window, or that saga's update loses its reply and wrote the tag told last |
| ReleaseProtocol.MarkEndsExactly | internal/modules/scanner/application/saga.go:29-53 | a row is counted damaged until the next event accepted for it, and agrees with the ledger then |
| ReleaseProtocol.RightedInSilence | internal/modules/scanner/application/saga.go:29-53 | a run in which a broken row comes to agree again with no event at all |
| ReleaseProtocol.NoBackToBackDuplicates | internal/modules/scanner/application/scanner.go:114-119 | over every run, the seed and the announced tags of a row never hurt have no two equal neighbours |
| ReleaseProtocol.RepeatOnlyWhenDamaged | internal/modules/scanner/application/scanner.go:114-119 | an announcement that repeats the last one goes to a damaged row |
| ReleaseProtocol.OnlyConfirmedAreNotified | internal/modules/subscription/infrastructure/postgres.go:97-110 | over every run, each event carries address, repository and unsubscribe token of a row whose confirm token was presented before the snapshot of its pass |
| ReleaseProtocol.PendingUntilPresented | internal/modules/subscription/infrastructure/postgres.go:54-68 | over every run, a row whose confirm token was not presented is pending, in no snapshot, and was announced nothing |
| ReleaseProtocol.GoneForGood | internal/platform/migrations/sql/0001_init.sql:2-2 | the id of a deleted row never comes back |
| ReleaseProtocol.StaleWritesAreHarmless | internal/modules/subscription/infrastructure/postgres.go:112-120 | only the scanner's write for an id moves that row's tag |
| ReleaseProtocol.StaleSagaStillPublishes | internal/modules/scanner/application/saga.go:29-53 | a saga for a row that is gone changes no row and still publishes |
| PassRefinement.OneAnswerPerGroup | internal/modules/scanner/application/scanner.go:93-96 | all members of a group have the owner and name of the first, so its answer is theirs |
| PassRefinement.PassIsRun | internal/modules/scanner/application/scanner.go:77-138 | an undisturbed pass, in any order and with any outcomes, is a run of the step relation with the same table and events |
| PassRefinement.CutIsRun | internal/modules/scanner/application/saga.go:29-53 | a pass that crashes anywhere, between two sagas or in the window of one, is a run of the step relation that ends in a crash, with the table and events of the cut turn |
| PassRefinement.SubscribeIsRun | internal/modules/subscription/application/service.go:76-95 | insert, mail and undo, with any outcomes, are a run of the step relation with the same table |
| PassRefinement.ConfirmIsRun | internal/modules/subscription/infrastructure/postgres.go:54-68 | the statement of Confirm, with any outcome, is a run of the step relation with the same table |
| PassRefinement.UnsubscribeIsRun | internal/modules/subscription/infrastructure/postgres.go:70-80 | and so is that of Unsubscribe |
| EndToEnd.StatementsAreApiMoves | internal/modules/subscription/infrastructure/postgres.go:24-80 | what the end-to-end runs let the API do covers its statements |
| EndToEnd.AnswersHold | internal/modules/scanner/application/scanner.go:89-96 | the lookups of a pass, whatever fails of them, leave the answers to other questions alone |
| EndToEnd.PassIsRunOnce | internal/modules/scanner/application/scanner.go:77-138 | what RunOnce promises of a pass at that moment, with any faults, is the pass of these runs: same table, events and cache, each group answered in turn as at the start |
| EndToEnd.PassReads | internal/modules/github/cache.go:12-12 | a tag that has been the latest longer than an entry can live, transient errors aside, is what a pass reads when GitHub answers, whatever cache operations fail |
| EndToEnd.PassDelivers | internal/modules/scanner/application/scanner.go:110-133 | after the pass every confirmed row of the repository whose saga goes through holds the tag, with an event accepted now iff it did not hold it before |
| EndToEnd.PassInWindow | internal/modules/scanner/application/scanner.go:53-75 | a run that outlasts a window of one interval contains a pass in it |
| EndToEnd.DeliveredInTime | internal/modules/scanner/application/scanner.go:53-75 | a tag that becomes and, transient errors aside, stays the latest meets a pass between cacheTTL + lag and cacheTTL + lag + interval after its release, which delivers it to every row whose saga goes through unless the listing or GitHub fails at that moment |
| ScannerRuns.PassIsRun | internal/modules/scanner/application/scanner.go:77-138 | a pass with its lookups at any times and any outcomes of its calls is a run of scanner, API and cache interleaved, with the table, events and cache that RunOnce promises |
| ScannerRuns.SubscribeIsRun | internal/modules/subscription/application/service.go:46-96 | so is a Subscribe that gets to its insert, its seed being the answer its own lookup was served |
| Announcements.ToldOnce | internal/modules/scanner/application/scanner.go:114-119 | over every run with any failures, crashes and slow passes: if the scanner's answers for a repository never go back in time and its tags do not come back, no subscription to it is told a tag twice, nor its seed if they do not go back behind that |
| Spacing.SpacedIsOnward | internal/modules/scanner/application/scanner.go:89-96 | answers to lookups at least cacheTTL + lag - 1 apart never go back in time, whatever fails |
| Spacing.ToldOnceWhenSpaced | internal/modules/scanner/application/scanner.go:53-119 | with lookups of a repository that far apart no subscription to it is told a tag twice, nor its seed if that was looked up as long before |
| Spacing.ToldOnceWhenPlain | internal/modules/scanner/application/scanner.go:89-119 | at any spacing the same, seed included, if no cache read fails and lookups of one question do not overlap |
| Spacing.ToldOnceWhenStoredAtOnce | internal/modules/scanner/application/scanner.go:89-119 | and if no cache write fails and replies are written as soon as they come |
| Repeats.CloserLookupsRepeat | internal/modules/github/client.go:87-143 | for every shorter gap between the scanner's lookups there is a run that keeps it and tells a tag, the one before it, and the tag again, although GitHub replaced it once and for all; without any failure unless lag is zero |
| Repeats.CloserSeedRepeats | internal/modules/github/client.go:87-143 | for every shorter gap between seed and first lookup, at any spacing of the scanner's own, there is a run that tells a tag older than the seed and then the seed |
| Migrations.SortSorts | internal/platform/migrations/migrations.go:30-30 | the entries come in byte-wise order, each as often as given |
| Migrations.LeqIsLexicographic | internal/platform/migrations/migrations.go:30-30 | the order is lexicographic: a prefix first, then the first difference decides |
| Migrations.EntryDecides | internal/platform/migrations/migrations.go:32-64 | a file is recorded together with its effects iff it was not and no call before the commit fails and the commit is not refused |
| Migrations.RunSucceeds | internal/platform/migrations/migrations.go:16-67 | from any state a run succeeds iff none of the calls it has to make fails; for a recorded file that is the query alone |
| Migrations.InterruptedRunsKeepStep | internal/platform/migrations/migrations.go:32-64 | over any runs interrupted anywhere, schema_migrations names exactly the scripts in effect, an initial piece of the sorted entries, each once |
| Migrations.ExactlyOnce | internal/platform/migrations/migrations.go:16-67 | interrupted runs and then a successful one have applied the sorted entries once each and in order; a further run changes nothing and succeeds unless a query fails |
| Migrations.Database.Run | internal/platform/migrations/migrations.go:16-67 | the state is that of the reference run; nil is returned iff none of the calls it has to make fails |

## Left out

- HTTP and public gRPC handlers, authentication, metrics middleware, the HTML page and process start-up: thin plumbing.
- `ListByEmail` and `ListConfirmedByEmail`: the same reading of the table as the scan list, with another filter.
- Mail text, SMTP and the notification consumer: the model stops at the event the broker client accepted.
- Timestamps (`created_at`, `updated_at`, `confirmed_at`): nothing modelled reads them.
- Postgres.PostgresSubscriptionStore.ListConfirmedForScan: does not state the order by clause, because text order is the database's collation; a snapshot comes in any order, and every statement holds for all of them.
- Names.NormalizeRepoAccepts: lower-casing changes ASCII letters only, so an input with other capitals is not treated as `strings.ToLower` treats it; trimming is complete.
- Names.NormalizeRepoRoundTrip: for ASCII lower-casing, as above.
- Names.NormalizeEmailRoundTrip: for ASCII lower-casing, as above, and for any address syntax.
- Address syntax (section 3.4 of RFC 5322): an arbitrary predicate on strings.
- A request applied after its caller has given it up and moved on: outcomes are settled when the call returns.
- More than one scanner: outside the stated deployment, and compensation is not safe there.
- A scanner or client with nil metrics: counters are always kept.
- Scanner.Scanner.Run: has no API statements between its passes and no clock; ReleaseProtocol lets the API in everywhere, and EndToEnd has the schedule.
- Passes that take time, in EndToEnd only: the timing bound is for passes that take no time, though any of their calls can fail; Announcements, ScannerRuns and Spacing have passes of any length.
- The JSON, Redis and SQL engines: maps and atomic statements that can fail.
