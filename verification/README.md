# Verification of the analytics rollup, the auth protocols, the live client and two editor models

A Dafny 4.11 project that models four stateful parts of the repository and proves what each keeps
over every run. `dafny verify dfyconfig.toml` checks all of it.

| part | files | in the repository |
|---|---|---|
| analytics rollup as a cache over an event log | `Metrics`, `Breakdowns`, `Totals`, `ComputeDays`, `Ranges`, `TopPages`, `Readings`, `Writes`, `Rollup`, `RollupRuns`, `AnalyticsStore`, `Schedule` | `packages/analytics/src` on a store where a handler is one transaction |
| the same, each statement committing alone | `RollupRace`, `RollupRerun`, `RollupOvertaken`, `RaceWitnesses` | `packages/analytics/src` on D1 |
| emailed one-time tokens | `LinkProtocol`, `LinkDelivery`, `LinkStore` | `packages/auth/src/index.ts` |
| accounts: addresses, passwords, the verified flag | `Accounts` | `packages/auth/src/index.ts`, `oidc.ts`, `users-table.ts` |
| sessions: credential epoch, lifetimes, claims | `Sessions` | `packages/auth/src/index.ts`, `session-ttl.ts`, `users-table.ts` |
| the live client | `LiveClient`, `LiveClientObject`, `LiveClientTraces` | `packages/client/src/index.ts` |
| the paged list and the slug field | `PagedList`, `Slug` | `packages/cms-editor/src/list-state.tsx`, `fields.tsx` |

`Common.dfy` holds optional values, chunking and ascending lists of days; `Metrics.dfy` also holds the
one shape of query (`Select`) every read uses.

## How the models are built

**Analytics.** `Rollup` is the specification: the three tables, one step per handler, `accepted` for every
event ever inserted (which the tables need not keep: pruning deletes raw rows), and the invariant.
`RollupRuns` proves each step keeps it and what follows over every run. `AnalyticsStore.Store` is the code as
it runs, with its loops, chunks and upserts, each method tied to a step of `Rollup` and each read to
`accepted`. A day is a day number, in the order of the `YYYY-MM-DD` names; a token is a number nobody has seen.
`Metrics` says what events amount to, each breakdown a multiset of buckets. What the code holds, stores, reads back
and merges is a `Breakdowns.Breakdown`: cells that are numbers or texts, where a missing key named like a member of
`Object.prototype` reads as that member (`INHERITED`; its text is the one V8 gives). Hypotheses: the clock does not go back, and no caller rolls past
today (`packages/analytics/src/index.ts:173-175` refuses it). Every operation also runs on a store an older version
left days skipped in (`Rollup.Sound`); `Inv` adds that no day is skipped, which the backfill establishes.

`Readings` and `Writes` say once more, from the positions of a log and the rows of a table alone, what each read must
show and each write must do. No handler and no step is defined by them, so that a wrong definition shared by code and
specification fails against them; `Accounts`, `LinkStore` and `LiveClientObject` state their handlers' results field
by field for the same reason, with the constants written out.

**Statement level.** In `RollupRace` any number of rollups, ingests and prunes interleave between statements, and a
rollup may be cut off anywhere; a prune takes only days past the grace period. `RollupRace.Orderly` and `Alone`
are what its results need: a rollup takes up a finished day, or today once today has a row, and one whose raw rows are there; an ingest inserts while its check for
pruned days still holds; a prune's delete finds its day still clean with nothing in flight on it; no two rollups are
on one day at once; and, for page rows only, no rollup is cut off inside a day. For each of these there is the exact
condition under which the single statement does no harm (`MarkOfTodayGuardsIff`, `ReadTokenHoldsIff`,
`InsertHoldsIff`, `DeleteHoldsIff`, `DeleteReadsIff`, `WriteAgreesIff`, `CutOffIff`), and in `RaceWitnesses` a run that
breaks the result without it.

**Tokens and accounts.** In `LinkProtocol` requests, drainers, retries, failures, redemptions and clean-ups
interleave freely; a digest is an injective image of a secret that no pending hash equals. `LinkStore.TokenTable`
is the table under the handlers and the send task run through, each method a sequence of those statements. In
`Accounts` handlers run one at a time but may stop after any statement (`commits` says how many go through), and `proofs` records
which address someone holding its inbox, or the provider, has proven for which row. It is written only by
redemptions and by the provider's assertion and read by no handler. Sessions are judged by `Sessions`, so a
handler cut off between a password and its epoch leaves exactly the sessions its contract says.

**Client.** `LiveClient` is a function from a state and an event to the next state, over arbitrary event traces;
`LiveClientObject.Client` is the closure itself: each method is proved to take that step, and `Live` that its whole
life is a trace. The server's subscriptions for a socket are those sent over it. `dials` and `carried` only count.
Timers have due times: every back-off the client can draw is allowed, a timer fires when due or later, and two fire
in the order they fall due.

**Editor.** The reducer and the hook's request discipline; and the slug pipeline of replacements, proved equal
to a single pass. Decomposition, dropping of marks and lower-casing are one map from characters to strings that
leaves `a-z`, `0-9` and `-` alone.

## What the code's own words promise and the proofs qualify

- `packages/analytics/src/rollup.ts:9-14` says racing rollups need no lease. True while nothing arrives for the
  day (`RollupRerun.RerunsAreOneRoll`). With a late event between two rollups' reads the later write leaves stale
  counts on a clean day (`RaceWitnesses.TwoRollupsLeaveStaleCounts`); `RollupRace.WriteAgreesIff` says exactly when,
  and `RollupOvertaken.StaleWriteWasOvertaken` that another rollup must have read and written after a mark in between.
- `packages/analytics/src/queries.ts:3-8` says the numbers are correct whether or not the rollup has run, and
  `83-85` that a stored breakdown never concatenates. Pageviews, sessions, bounces and engagement are correct always.
  A breakdown is, exactly when no bucket in the range is named like a member of `Object.prototype`
  (`RollupRuns.RunReadsExactly`, `AnalyticsStore.Store.MetricsForRange`): a view from `http://constructor/` shows as
  text until its day is rolled up and not at all afterwards (`Breakdowns.SourceNamedConstructor`,
  `Breakdowns.RollingShowsIff`, `Totals.TextShownIff`).
- `packages/analytics/src/index.ts:170` calls rolling today safe. It is within a transaction
  (`RollupRuns.RunReadsExactly` includes it), and with statements committing alone when today already has a row
  (`RollupRace.CleanMeansExact` includes it). The first roll of today can miss an event for good
  (`RaceWitnesses.RollingTodayMissesAnEvent`), because the mark only updates: `RollupRace.MarkOfTodayGuardsIff`.
- `packages/auth/src/index.ts:614-617` says the link already in the inbox stays the live one and that of two
  drainers one wins. True when a request's task runs once at a time (`LinkDelivery.SentMeansDelivered`); two
  overlapping drainers can mark a row sent whose secret was never sent (`LinkDelivery.DrainerRaceKillsTheLink`).
  `LinkProtocol.LinkDiesIff` lists everything that can end a link.
- `packages/auth/src/users-table.ts:86` says a passwordless row was only ever made by an email-proven door.
  Deleting an account empties a row too: `Accounts.Sound` states both.
- `packages/client/src/index.ts:45-49` and `222-224` say a refused client stays down until `setToken`. Subscribing
  also brings it up, and so does a reconnect already waiting or a replaced socket's late close event:
  `LiveClient.RefusalLeavesDownIff`, `LiveClient.StaysDown`, `LiveClientTraces.RefusedClientComesBackAnonymous`.
- `packages/client/src/index.ts:42-44` promises at most `maxReconnectAttempts` attempts. That holds exactly up to a
  maximum of three (`LiveClientTraces.BoundHoldsIff`). From four on, as by default, the back-off can outlast the
  stable period: a reconnect scheduled at the fourth attempt or later, still waiting when a socket brought up by a
  subscribe proves stable and resets the count, makes one socket more (`LiveClientTraces.OneDialTooMany`).

## Model

| member | source | states |
|---|---|---|
| Chunks.Chunked | packages/analytics/src/db.ts:29-33 | chunks concatenate back to the list, none is empty or over the size, all but the last are full |
| Breakdowns.DayConsistentIff | packages/analytics/src/queries.ts:106-166 | a day's bounces <= sessions <= pageviews; a breakdown's cells are counts summing to its pageviews, computed or read back, exactly when no bucket of the column is named like an inherited member |
| Breakdowns.RollingShowsIff | packages/analytics/src/queries.ts:78-91 | rolling a day up leaves what is shown of it as it was exactly when no bucket is named like an inherited member other than `__proto__` |
| Breakdowns.SourceNamedConstructor | packages/analytics/src/events.ts:120-134 | one view from a host `constructor` shows as text before its day is rolled up and as nothing after; from `__proto__` as nothing at once |
| Breakdowns.TallyStep | packages/analytics/src/queries.ts:78-81 | adding one more group's count to a breakdown gives the breakdown of the larger counts, provided a bucket of an inherited name is reached once |
| Breakdowns.FirstCount | packages/analytics/src/queries.ts:78-81 | the twelve names under which the first count into an empty breakdown becomes text, or is lost |
| Breakdowns.DecimalReads | packages/analytics/src/queries.ts:78-81 | a count as text has digits only, no leading zero, and reads as the count |
| Totals.RangeConsistentIff | packages/analytics/src/queries.ts:193-230 | over any days, whichever are rolled up, the plain numbers are right and in order; a breakdown is the right counts, and sums to the pageviews, exactly when no bucket of its column in the range is named like an inherited member |
| Totals.RangesAddIff | packages/analytics/src/queries.ts:193-230 | totals over two lists of days add up to the total over both exactly when the second holds no text; else the inherited member is counted in twice |
| Totals.RangeIsExactIff | packages/analytics/src/queries.ts:193-230 | the shown total equals the sum of the days, and for distinct days one pass over the whole log with sessions counted as (day, session) pairs, exactly when no bucket in the range is named like an inherited member |
| Totals.TextShownIff | packages/analytics/src/queries.ts:193-212 | a total shows text under an inherited name exactly when some day not rolled up has a pageview in that bucket, `__proto__` apart |
| Queries.GroupStep | packages/analytics/src/queries.ts:119-135 | processing one more GROUP BY group adds exactly its row count to the one bucket it falls in |
| ComputeDays.BreakdownPass | packages/analytics/src/queries.ts:117-136 | after a breakdown's pass each day's column is the record of its events' buckets, a number each but text under an inherited name, and pageviews are totalled on the device pass only |
| ComputeDays.SessionPass | packages/analytics/src/queries.ts:138-150 | each day gets its number of distinct sessions, and of sessions with one view |
| ComputeDays.EngagementPass | packages/analytics/src/queries.ts:152-164 | each day gets the count and the sums of its engagement rows |
| ComputeDays.Compute | packages/analytics/src/queries.ts:99-166 | the grouped passes in chunks of 90 give every requested day the record of what its events amount to |
| Ranges.DaysInRange | packages/analytics/src/queries.ts:66-76 | `from`, `from + 1`, ... up to `to` inclusive, at most `max` of them, none if the range is backwards: a day is listed exactly if it is in the range and less than `max` after `from` |
| Ranges.MergeInto | packages/analytics/src/queries.ts:78-81 | adding a breakdown cell by cell: numbers add, text runs on, a new bucket of an inherited name starts from the member's text, and `__proto__` is dropped |
| Ranges.MergedCountsIff | packages/analytics/src/queries.ts:78-81 | of two breakdowns of counts that is the multiset sum exactly when no new bucket is named like an inherited member |
| Ranges.ReportRates | packages/analytics/src/queries.ts:214-229 | rates are absent exactly when there is nothing to divide by; the bounce rate is between 0 and 1; a breakdown sums to the pageviews exactly when no bucket of its column in the range is named like an inherited member |
| Ranges.ReportIsExactIff | packages/analytics/src/queries.ts:193-230 | all but the breakdowns of a report is always right, and all of it exactly when no bucket in the range is named like an inherited member |
| Readings.ReportTellsAll | packages/analytics/src/queries.ts:193-230 | over any log and any set of rolled days, the report told from positions of the log |
| Readings.DayTells | packages/analytics/src/queries.ts:106-166 | what is computed, stored or read back for a day, told from positions of the log |
| Readings.RoundedIs | packages/analytics/src/queries.ts:222-223 | rounding gives the nearest whole number, halves up |
| Readings.TopTells | packages/analytics/src/queries.ts:271-271 | a cut ranking told from positions of the log |
| AnalyticsStore.Store.RolledDays | packages/analytics/src/queries.ts:86-91 | exactly the requested days that are rolled and not flagged, with their stored counts less the cells that are not numbers |
| AnalyticsStore.Store.MetricsForRange | packages/analytics/src/queries.ts:193-230 | whatever is rolled, flagged or pruned: pageviews, sessions, bounces and engaged views are the numbers of such positions in the accepted log; the bounce rate times the sessions is the bounces; each average is the nearest whole number to its sum over the engaged views; a cell counts its bucket's views, text apart; the series gives each day its views. The whole report is right exactly when no bucket in the range is named like an inherited member |
| AnalyticsStore.Store.TopPages | packages/analytics/src/queries.ts:233-272 | each listed path has exactly its accepted pageviews from `from` to `to` (400 days at most), each path once, non-increasing, no omitted path beats a listed one, of the length `slice(0, limit)` gives |
| TopPages.AddGroups | packages/analytics/src/queries.ts:257-269 | the (path, page id) groups of raw rows add up to the pageviews per path |
| TopPages.Ranked | packages/analytics/src/queries.ts:271-271 | every path once with its total, non-increasing |
| TopPages.CutOfRanked | packages/analytics/src/queries.ts:271-271 | cutting a ranking omits nothing that exceeds what it keeps |
| AnalyticsStore.Store.DropPrunedDays | packages/analytics/src/ingest.ts:100-116 | drops exactly the rows of past days that are clean and have no raw rows left |
| AnalyticsStore.Store.MarkLateDays | packages/analytics/src/ingest.ts:127-145 | every past day of the batch is flagged with an unseen token, by upsert; today only if it has a row; nothing else changes |
| AnalyticsStore.Store.IngestEvents | packages/analytics/src/ingest.ts:33-90 | from any sound store: appended are, in order, exactly the submissions with an id of 1 to 64 characters, a known kind and origin, a timestamp, a date and a path, but for past days that are clean with no rows left; each past day touched ends flagged under a fresh token, today if it has a row; nothing else changes; the count of rows returned |
| AnalyticsStore.Store.PendingDays | packages/analytics/src/rollup.ts:34-55 | ascending, at most `maxDays`: of the days up to `through` with rows that are flagged or newer than every clean day, the oldest |
| AnalyticsStore.Store.UpsertDaily | packages/analytics/src/rollup.ts:112-127 | afterwards the day is clean exactly if it had no row, its token is the one seen, or it was clean; a flag set in between stands with its token; no other day changes |
| AnalyticsStore.Store.RollupDays | packages/analytics/src/rollup.ts:96-156 | after the loop each of the days has a clean row that tells its raw events, with the token it had, and a page row with its views for each path seen; nothing else changes; one page row counted for each day and path |
| AnalyticsStore.Store.RollupPending | packages/analytics/src/rollup.ts:89-159 | from any sound store, exactly the oldest pending days are rolled so; the invariant is kept |
| AnalyticsStore.Store.FlagUnrolledDays | packages/analytics/src/rollup.ts:65-76 | exactly the days with rows, no aggregate and a newer clean day get a blank flagged row under a fresh token, and are counted; none is skipped afterwards, and the full invariant holds |
| AnalyticsStore.Store.FlagUnseen | packages/analytics/src/rollup.ts:65-76 | from any store whatever, exactly the raw days without a row and older than the newest clean day get a flagged stub with an unseen token |
| AnalyticsStore.Store.PruneRawEvents | packages/analytics/src/rollup.ts:167-191 | the rows of a day go exactly if it is clean and more than `keepDays` days old, or more than four if that is less; every other row stays, no aggregate changes; the days returned are those that had rows |
| RollupRuns.IngestKeeps | packages/analytics/src/ingest.ts:49-145 | an ingest keeps it that a clean day's row is made of all its accepted events and unclean days keep all raw rows, and skips no day if none was skipped |
| RollupRuns.RollKeeps | packages/analytics/src/rollup.ts:89-159 | so does a rollup |
| RollupRuns.BackfillRepairs | packages/analytics/src/rollup.ts:57-76 | a backfill turns any sound store into one that skips no day, leaving raw rows and clean days as they were |
| RollupRuns.PruneKeeps | packages/analytics/src/rollup.ts:167-191 | a prune keeps the same |
| RollupRuns.RunHolds | packages/analytics/src/rollup.ts:89-191 | over every run from the empty or any sound store: in every state a clean day's row is made of all its accepted events, and no day is skipped if none was at the start or once a backfill has run |
| RollupRuns.RunReadsExactly | packages/analytics/src/queries.ts:193-230 | in every state of every run, what the reader adds up for any days has the plain numbers of all accepted events, and is their total altogether exactly when no bucket of theirs is named like an inherited member |
| RollupRuns.StepShowsIff | packages/analytics/src/queries.ts:3-8 | a step that accepts nothing for a day leaves what is shown of it as it was exactly when the day stays clean or unclean, or no bucket is named like an inherited member other than `__proto__` |
| RollupRuns.RunReadsPagesExactly | packages/analytics/src/queries.ts:233-269 | in every state of every run, the per-path reader gives each path its accepted pageviews |
| RollupRuns.UncleanDaysKeepEverything | packages/analytics/src/rollup.ts:181-187 | a flagged or unrolled day keeps every accepted raw event |
| RollupRuns.PrunedDayIsFinal | packages/analytics/src/ingest.ts:93-116 | no step changes a pruned day's aggregate, its accepted events or its page counts, whatever stragglers arrive |
| RollupRuns.PrunedDayStaysFinal | packages/analytics/src/ingest.ts:93-116 | so over the rest of any run |
| RollupRuns.BackfillEstablishes | packages/analytics/src/rollup.ts:57-76 | from any store whatever, the backfill leaves no raw day without a row older than a clean day |
| RollupRuns.BackfillIsNoOp | packages/analytics/src/rollup.ts:57-76 | on a store that skips no day it changes nothing |
| RollupRuns.PendingIsUnclean | packages/analytics/src/rollup.ts:34-55 | uncapped, the pending days are exactly the raw days up to `through` that are not clean |
| RollupRuns.PassClearsOldest | packages/analytics/src/rollup.ts:89-94 | a pass shrinks the pending set by exactly min(pending, maxDays), oldest first |
| Schedule.NextIsUnique | packages/analytics/src/schedule.ts:28-32 | the next instant is the one and only 00:10 UTC within a day after now |
| Schedule.SuccessorIsLater | packages/analytics/src/schedule.ts:110-124 | a run never queues its own instant again, early or not, nor one already past |
| Schedule.DuplicatesCollapse | packages/analytics/src/schedule.ts:110-124 | every run of one instant started before the next queues that same next instant |
| Schedule.ChainNeverForks | packages/analytics/src/schedule.ts:34-48 | however runs are seeded, fire early, late or twice, at most the next two instants are queued ahead of the clock |
| Schedule.RunNeverForks | packages/analytics/src/schedule.ts:109-124 | the step a scheduled run takes, early only for an instant in the queue, leaves the chain unforked |
| Schedule.Runner.ScheduleRollup | packages/analytics/src/schedule.ts:41-50 | one task for the first ten past midnight after the given instant, due then by the given clock and never negatively; a repeat is a no-op |
| Schedule.Runner.EnsureRollupScheduled | packages/analytics/src/schedule.ts:69-81 | the same counted from the clock: the chain's seed step |
| Schedule.Runner.Passes | packages/analytics/src/schedule.ts:128-136 | three passes at most; more is left exactly when three full batches were pending, and then exactly that much less |
| Schedule.Runner.RunScheduledRollup | packages/analytics/src/schedule.ts:109-143 | from any sound store, skipped days included: catches up exactly when fewer than 42 days before today had rows and no clean aggregate, and then every one of them is clean; every clean row tells its accepted events; queues nothing if there was none, else the next run, counted from its own instant if early, and a catch-up from 42 on; rows go only if asked, and only of clean days past `keepDays` |
| Schedule.Runner.Live | packages/analytics/src/schedule.ts:34-143 | from its creation, over any sequence of ingests, runs and waits, the instants the runner queues are a chain, so at most the next two are ever ahead of the clock |
| RollupRace.GuardKeeps | packages/analytics/src/rollup.ts:96-104 | with any number of rollups: while the token read is still the day's, all that was read is still so or a mark is to come; and raw rows are gone only from clean days at rest |
| RollupRace.WriteAgreesIff | packages/analytics/src/rollup.ts:112-127 | a write breaks a day's agreement exactly when the token has moved, the day is clean anyway, the numbers are stale and no mark is owed |
| RollupRace.AgreesKeeps | packages/analytics/src/rollup.ts:96-127 | with one rollup a day every statement keeps: clean counts are those of everything accepted or a mark is owed |
| RollupRace.CleanMeansExact | packages/analytics/src/ingest.ts:127-145 | over every orderly interleaving of rollups, ingests and prunes, and wherever a rollup stops, a clean day holds what it should unless an ingest has inserted and not marked; without such a one the reader shows that on every day, pruned or not, and the exact counts exactly when no bucket of the day is named like an inherited member |
| RollupRace.PagesKeep | packages/analytics/src/rollup.ts:129-155 | every statement keeps the page rows of clean days right, while no rollup stops inside a day |
| RollupRace.CleanPagesAreExact | packages/analytics/src/rollup.ts:129-155 | a clean day's page rows are exactly its accepted pageviews by path, and the page reader is exact on every day no rollup is paging and no mark is owed on, pruned or not |
| RollupRace.MarkSettles | packages/analytics/src/ingest.ts:127-145 | a mark settles exactly what its ingest owed on those days, and flags each that is past, or today with a row, under a token no row had |
| RollupRace.MarkOfTodayGuardsIff | packages/analytics/src/ingest.ts:132-134 | the mark of today leaves a rollup of today guarded exactly when today has a row, its token had moved, another ingest has yet to mark today, or the rollup read nothing before the batch arrived |
| RollupRace.ReadTokenHoldsIff | packages/analytics/src/rollup.ts:96-102 | a rollup may take up a day exactly when its raw rows are all there |
| RollupRace.InsertHoldsIff | packages/analytics/src/ingest.ts:93-116 | an ingest may insert on a day exactly when its raw rows are all there |
| RollupRace.DeleteHoldsIff | packages/analytics/src/rollup.ts:181-187 | a prune's delete keeps its day held exactly when it is still clean with nothing in flight, or nothing was ever accepted for it |
| RollupRace.DeleteReadsIff | packages/analytics/src/rollup.ts:181-187 | the delete is invisible to the range reader exactly when the day is still clean or its rows count for nothing, and to the page reader exactly when it reads page rows or the day has no pageview |
| RollupRace.CutOffIff | packages/analytics/src/rollup.ts:144-154 | stopping among a clean day's page rows leaves them right exactly when every row meant is there with its count |
| RollupRace.CutBeforePathsIff | packages/analytics/src/rollup.ts:112-134 | stopping before the paths are read, exactly when the rows already there are the day's; with none there, when it has no pageview |
| RollupRace.CutOffReadsIff | packages/analytics/src/queries.ts:250-269 | the page reader is exact on such a day exactly when it has every row, or none at all |
| RollupOvertaken.StaleWriteWasOvertaken | packages/analytics/src/rollup.ts:9-14 | with any number of rollups, a write that leaves stale counts clean was overtaken: after its token read came a mark, then another rollup's token read, then that one's write |
| RollupRerun.RerunsAreOneRoll | packages/analytics/src/rollup.ts:9-14 | any number of rollups of a day, interleaved anyhow with nothing arriving for it, leave the rows of one atomic roll |
| RaceWitnesses.TwoRollupsLeaveStaleCounts | packages/analytics/src/rollup.ts:117-117 | a run missing the condition of `WriteAgreesIff`: two rollups and a late event end in stale counts on a clean day with no mark owed |
| RaceWitnesses.RollingTodayMissesAnEvent | packages/analytics/src/ingest.ts:132-134 | a run missing the condition of `MarkOfTodayGuardsIff`: the first roll of today ends in stale counts on a clean day |
| RaceWitnesses.PruneAcrossAnIngestLosesTheDay | packages/analytics/src/rollup.ts:184-187 | a run missing the condition of `DeleteReadsIff`: an ingest between a prune's read and delete leaves a flagged day read as empty |
| RaceWitnesses.PruneOverARollupLosesPages | packages/analytics/src/rollup.ts:129-155 | a run missing its page half, with no ingest: a delete between a day's row and its path read leaves a clean day with no views by path |
| RaceWitnesses.StragglerReplacesAPrunedDay | packages/analytics/src/ingest.ts:93-116 | a run missing the condition of `InsertHoldsIff`: a check made before a prune lets an event in after it, and the day reads as that event alone |
| RaceWitnesses.RollingAPrunedDayZeroesIt | packages/analytics/src/rollup.ts:41-48 | a run missing the condition of `ReadTokenHoldsIff`: a day taken from an older pending list is overwritten with zeros |
| RaceWitnesses.CutOffLosesPages | packages/analytics/src/rollup.ts:112-155 | a run missing the condition of `CutOffIff`: a clean day whose path reads as unviewed, never pending again |
| LinkProtocol.StepKeeps | packages/auth/src/index.ts:627-644 | every statement keeps: each row's hash is its own pending one or a digest minted for it, and its redemptions are counted by `consumedAt` |
| LinkProtocol.RowFate | packages/auth/src/index.ts:627-650 | column by column, what any step makes of a row that was there, and which rows are new: the hash and expiry only by a mint that holds the very hash there, the spending only by its live secret and purpose |
| LinkProtocol.LosersStop | packages/auth/src/index.ts:627-645 | a run whose row is gone, sent or claimed by another ends there, minting and sending nothing |
| LinkProtocol.AtMostOneRedemption | packages/auth/src/index.ts:1285-1300 | over all interleavings of drainers, retries, failures and redemptions, a redemption hits at most one row and at most one ever succeeds per request |
| LinkProtocol.SupersededNeverRedeems | packages/auth/src/index.ts:759-772 | once a newer request for the key is made, no secret ever minted for the older one redeems again |
| LinkProtocol.OneRedeemableSecret | packages/auth/src/index.ts:1240-1254 | when requests are atomic, or their inserts find no row of their key, a key has at most one redeemable secret, and it answers the newest request |
| LinkProtocol.InsertKeepsNewestIff | packages/auth/src/index.ts:759-772 | a request's insert on its own keeps only the newest exactly when no row of its key has come since its delete |
| LinkProtocol.SentFreezes | packages/auth/src/index.ts:627-644 | once marked sent a row's hash never changes for the rest of the run |
| LinkProtocol.LinkDiesIff | packages/auth/src/index.ts:612-619 | a live link stops working in a step exactly by expiry, its own redemption, a newer request or clean-up, or a drainer that read the row before it was marked sent |
| LinkDelivery.SentMeansDelivered | packages/auth/src/index.ts:1259-1279 | when a request's task runs once at a time, with any failures and retries, a row marked sent answers to the last link emailed for it |
| LinkDelivery.DrainerRaceKillsTheLink | packages/auth/src/index.ts:627-644 | two overlapping drainers can end with the row marked sent, one link emailed, and the row answering to another |
| LinkDelivery.SplitRequestsLeaveTwoLinks | packages/auth/src/index.ts:759-772 | a run missing that condition: two deletes before two inserts leave two redeemable secrets for one key |
| LinkStore.TokenTable.MakeRequest | packages/auth/src/index.ts:759-772 | the new request is the key's only one, pending until now plus the lifetime, and redeemable by no secret; the rows of other keys stay as they are |
| LinkStore.TokenTable.MintForRequest | packages/auth/src/index.ts:627-640 | an unused secret for the request's own row exactly when it is there and unsent, with its new expiry; nothing else of it, and no other row, changes |
| LinkStore.TokenTable.SendEmailToken | packages/auth/src/index.ts:1259-1279 | a moot request is dropped, a delivered one left alone, a failed send leaves the row minted over and unsent; a delivery marks it sent for the secret just emailed, which alone redeems it from then on |
| LinkStore.TokenTable.RedeemEmailToken | packages/auth/src/index.ts:1285-1300 | spends the one row with that secret's digest and purpose, unspent and not past its time, exactly when there is one; the secret then redeems no more |
| Accounts.SetEmailKeepsProofsIff | packages/auth/src/index.ts:1090-1103 | writing a new address keeps "verified means proven" exactly when the flag is clear then or the address was proven |
| Accounts.VerifyBetweenChangeEmailsStatements | packages/auth/src/index.ts:1463-1479 | a verification link redeemed between `changeEmail`'s two statements leaves an unproven address verified |
| Accounts.AdoptedOnlyIfProven | packages/auth/src/users-table.ts:87-90 | a row with a password is adoptable only if its own address was proven for it |
| Accounts.AdoptableAfterIff | packages/auth/src/users-table.ts:77-90 | an unconfirmed row with a password is not adoptable, and becomes so exactly by confirming the address it is named after |
| Accounts.Released | packages/auth/src/oidc.ts:783-790 | dropping unverified claims to an address touches no verified row, and leaves it held exactly if another row verified it |
| Accounts.Store.Signup | packages/auth/src/index.ts:452-484 | succeeds exactly with a name, a password of eight characters, and both name and address free; the row, field by field: its password, the address unverified, active, created now |
| Accounts.Store.RequestLink | packages/auth/src/index.ts:759-772 | the token rows and the queue after any number of its statements: the key's only row is the new request's, and only then is its task queued |
| Accounts.Store.InviteUser | packages/auth/src/index.ts:786-822 | makes a blank row only if there is none, then requests its link; refused exactly for a row with a password that has not confirmed the address |
| Accounts.Store.LoginWithMagicLink | packages/auth/src/index.ts:838-904 | the table after any number of its statements: a passwordless row, or one with its own address confirmed, is entered; the address is recorded, verified, unless the row has another or someone else has this one |
| Accounts.RetiringRefuses | packages/auth/src/index.ts:293-313 | stamping a row refuses, besides what it refused, exactly the sessions of earlier seconds |
| Accounts.Store.RetireEarlierSessions | packages/auth/src/index.ts:309-313 | the row, then the Worker's entry, after any number of its statements |
| Accounts.Store.RefreshSession | packages/auth/src/index.ts:347-367 | succeeds exactly for an active row whose change the session is not older than, nor a second or more older than the row; never without an issue time if either is known |
| Accounts.Store.ResetPassword | packages/auth/src/index.ts:1363-1388 | tables and entries after any number of its statements: exactly when the active row still holds the address its password is the new one and it is verified, then its other resets go, then it is stamped; no other field or row changes; cut off before the stamp every session works as before, after it exactly those of this second and later |
| Accounts.Store.VerifyEmail | packages/auth/src/index.ts:1463-1481 | sets the flag exactly when the row still holds the link's address, changes nothing else of the table, then drops other verification requests, after any number of its statements |
| Accounts.Store.ChangeEmail | packages/auth/src/index.ts:1080-1103 | the table after any number of its statements: never a verified flag over the new address, refused without the password or on a taken address |
| Accounts.Store.ChangePassword | packages/auth/src/index.ts:1141-1168 | only by a session the row has not retired, a filled slot only with its password: the password is the new one, then the row is stamped; no other field or row changes; cut off between, every session works as before, once stamped exactly those of this second and later |
| Accounts.Store.SetUserActive | packages/auth/src/index.ts:1026-1036 | the flag, then the denylist entry written or lifted, after any number of its statements |
| Accounts.Store.DeleteUser | packages/auth/src/index.ts:1052-1068 | after any number of its statements: no session refreshes once the first is through; then the entry, the empty tombstone, the retirement, after which a reactivation revives no session of an earlier second |
| Accounts.Store.OidcUpsert | packages/auth/src/oidc.ts:771-823 | a first sign-in always gets its row, blank but for the asserted address, verified, unless another row verified that; only rows that claim it unverified lose it; an existing row is left alone and refused exactly if it has a password and not its own address confirmed |
| Sessions.SlackIsWholeSeconds | packages/auth/src/index.ts:293-301 | the second of slack refuses a token exactly when it was minted in an earlier whole second than its row |
| Sessions.SlackBounds | packages/auth/src/index.ts:293-301 | never refused when minted after its row, always when a second or more before |
| Sessions.EarlierSessionsStayDead | packages/auth/src/index.ts:309-313 | after a credential change recorded at second t every later successful refresh or password change presents `iat` >= t, for the rest of the run |
| Sessions.SessionRetiredIff | packages/auth/src/index.ts:293-313 | between two states of a run a session is retired exactly by a change recorded in a later second than its own; a handler cut off before the record retires nothing |
| Sessions.NoneFromBeforeTheRow | packages/auth/src/index.ts:293-301 | no session issued in an earlier second than the row was created in, or without an issue time, ever refreshes it |
| Sessions.FreshSessionWorks | packages/auth/src/index.ts:347-367 | a token minted now is accepted while the account is active, in every state of every run |
| Sessions.EntryOutlives | packages/server/src/runtime/kv.ts:74-77 | an entry sized for a lifetime stands as long as any session of at most that lifetime minted before it is unexpired |
| Sessions.EntryStandsIff | packages/server/src/runtime/kv.ts:74-77 | an entry stands for the lifetime asked for, a minute at least, and no longer |
| Sessions.Isolate.DeclareSessionTtl | packages/auth/src/session-ttl.ts:24-36 | refuses exactly what is not positive, gives the whole seconds, and only ever raises the longest lifetime, to that |
| Sessions.Isolate.Mint | packages/auth/src/session-ttl.ts:40-42 | a session lives its factory's lifetime if there is one, else the whole seconds of the environment's if positive, else 3600 |
| Sessions.Isolate.Revoke | packages/auth/src/session-ttl.ts:46-48 | the entry lasts the longest declared or default lifetime, so it outlives every session minted so far: none from an earlier second is honoured again, and none from this second on is refused |
| Sessions.SessionIsFromItsOwnTable | packages/auth/src/users-table.ts:55-76 | a session is honoured exactly by the table and store it was minted from; one without claims by `auth_users` on `do`, whose sessions need none |
| LiveClient.TraceHolds | packages/client/src/index.ts:179-278 | in every state of every trace: one live socket, server and local subscriptions in step, attempts and dials within bounds |
| LiveClient.ClientStaysInStep | packages/client/src/index.ts:179-239 | an open socket is the current one and its server-side subscriptions are the local map |
| LiveClient.TimerDialsAreBounded | packages/client/src/index.ts:241-257 | between resets the timer creates at most the maximum when that is three or less, else one more only if a reconnect was waiting at the reset |
| LiveClient.NothingAfterClose | packages/client/src/index.ts:322-335 | no event sequence creates a socket after `close()` |
| LiveClient.NeverSilentlyDown | packages/client/src/index.ts:241-257 | with subscribers and no socket, a reconnect is waiting, the attempts are spent, or the token was refused |
| LiveClient.StaysDown | packages/client/src/index.ts:222-229 | once down with nothing waiting or still to close, no socket is created until the app subscribes or sets a token |
| LiveClient.NotDownComesBack | packages/client/src/index.ts:215-257 | otherwise a socketless client has a continuation without the app that creates one |
| LiveClient.RefusalLeavesDownIff | packages/client/src/index.ts:215-231 | a refused token leaves it down exactly when no reconnect was waiting and no replaced socket's close was to come (or the attempts are spent) |
| LiveClient.BookmarkNeverRegresses | packages/client/src/index.ts:147-152 | every bookmark seen stays covered for the rest of the trace |
| LiveClient.BookmarkWasGiven | packages/client/src/index.ts:147-152 | and the one kept was given by some response |
| LiveClient.TokenChangesIff | packages/client/src/index.ts:130-134 | the token is what the app sets, none if the very token held is refused, in an answer or by closing the current socket, and else as it was |
| LiveClient.RefusedStaysWithout | packages/client/src/index.ts:130-134 | once it is refused the client has no token until the app sets one |
| LiveClient.WaitsAre | packages/client/src/index.ts:249-251 | the back-off drawn, by attempts spent: 250 to 500 ms, doubling, at most 10 seconds |
| LiveClientTraces.RefusedClientComesBackAnonymous | packages/client/src/index.ts:215-231 | a trace in which a refused client reconnects by itself, without a token |
| LiveClientTraces.OneDialTooMany | packages/client/src/index.ts:194-197 | for every maximum of four or more, a trace that respects the timers' due times and ends with more sockets made by the timer than the maximum |
| LiveClientTraces.BoundHoldsIff | packages/client/src/index.ts:241-257 | over all event orders and all back-offs, the timer keeps to the maximum exactly when that is at most three, or no socket can be made at all |
| LiveClientTraces.OverrunIff | packages/client/src/index.ts:194-197 | after a stable reset the timer can exceed the maximum before any other reset exactly when a reconnect was waiting, which is then one of the fourth attempt or later |
| LiveClientObject.Client.EnsureSocket | packages/client/src/index.ts:179-189 | one socket at most is added, only where there was none, and is then the current one; with subscribers an open client has a socket |
| LiveClientObject.Client.ScheduleReconnect | packages/client/src/index.ts:241-257 | an attempt is counted exactly when a timer starts, never past the maximum; with subscribers a timer is waiting then or the attempts are spent |
| LiveClientObject.Client.ResetSocket | packages/client/src/index.ts:259-278 | no earlier socket can still open or carry traffic, nothing of the old back-off is left, and with subscribers a new socket is current |
| LiveClientObject.Client.Subscribe | packages/client/src/index.ts:297-317 | a new subscription under an unused id; an open socket's server knows it at once, a connecting one is told when it opens, and a closing one is left as it was: only the socket after its close event is told |
| LiveClientObject.Client.Unsubscribe | packages/client/src/index.ts:313-316 | exactly that id is gone, locally and from an open socket's server |
| LiveClientObject.Client.SetToken | packages/client/src/index.ts:318-321 | every earlier socket is closed and the subscriptions move to one new socket opened with the new token |
| LiveClientObject.Client.OnOpen | packages/client/src/index.ts:190-202 | the socket that opens is the current one, its server then has exactly the local subscriptions, and the count is reset in three seconds at the earliest |
| LiveClientObject.Client.OnError | packages/client/src/index.ts:232-238 | a failing socket is only closed; its close event does the rest |
| LiveClientObject.Client.OnReconnectTimer | packages/client/src/index.ts:253-256 | brings a client with subscribers back and leaves one with a socket alone; no attempt is counted |
| LiveClientObject.Client.OnClose | packages/client/src/index.ts:215-257 | losing a replaced socket changes neither socket nor token; a refusal of the current one starts no reconnect and drops the token it was opened with; any other close starts one after the wait drawn unless one waits or the attempts are spent |
| LiveClientObject.Client.OnStableTimer | packages/client/src/index.ts:194-197 | it is always the current socket's timer and resets the count; a reconnect still waiting then is one of the fourth attempt or later |
| LiveClientObject.Client.OnResponse | packages/client/src/index.ts:136-162 | the newest bookmark is kept; a refusal drops the token it refused, and one set since stays; nothing else changes |
| LiveClientObject.Client.Close | packages/client/src/index.ts:322-335 | no subscription, no running timer and no socket that could still open or carry traffic is left |
| LiveClientObject.Client.Live | packages/client/src/index.ts:100-337 | from its creation, whatever calls and events come, the client's variables trace a run of the model, so every trace result holds of it |
| PagedList.StaleActionsAreInvisible | packages/cms-editor/src/list-state.tsx:60-96 | erasing every action that answers an older query leaves the final state unchanged |
| PagedList.OnlyFreshActionsCount | packages/cms-editor/src/list-state.tsx:60-96 | traces that differ only in such actions end alike |
| PagedList.LoadedKeepsPrefixIff | packages/cms-editor/src/list-state.tsx:74-85 | an answer keeps the rows a prefix of the list exactly when it is a first page or starts where the rows end |
| PagedList.ReadyListIsRight | packages/cms-editor/src/list-state.tsx:118-165 | with one request out per query, a ready list is exactly its first `offset` rows, and complete when `hasMore` is false |
| PagedList.StepShows | packages/cms-editor/src/list-state.tsx:60-165 | rows, phase, offset, spinner and "more" after each step: an answer stops the spinner and says there is more exactly if the list reaches a full page past where it was asked; a failure leaves a ready list and drops one that never was |
| PagedList.PatchShows | packages/cms-editor/src/list-state.tsx:94-95 | a local edit touches the rows alone |
| PagedList.TwoLoadMoresRepeatAPage | packages/cms-editor/src/list-state.tsx:137-163 | two requests for the same next page append it twice |
| Slug.InputIsNorm | packages/cms-editor/src/fields.tsx:632-641 | the pipeline of replacements equals one pass over the folded text, capped at 80 |
| Slug.InputIsNormal | packages/cms-editor/src/fields.tsx:632-641 | its result has only a-z, 0-9 and hyphens, no two hyphens together, no leading one, at most 80 characters |
| Slug.SlugIsWords | packages/cms-editor/src/fields.tsx:618-641 | the slug of a text is its words, as folded, with one hyphen for each gap after a word, of that the first 80 characters; `slugify` drops the hyphen it may end in |
| Slug.Spelling | packages/cms-editor/src/fields.tsx:632-641 | every text is such words and gaps, after a gap that may be empty |
| Slug.InputAppend | packages/cms-editor/src/fields.tsx:624-641 | normalizing what is there and then what is added equals normalizing it all at once, past the cap too |
| Slug.TypedIsPasted | packages/cms-editor/src/fields.tsx:624-641 | typed key by key or pasted in pieces, the field ends the same |
| Slug.InputFixedIff | packages/cms-editor/src/fields.tsx:632-641 | it leaves alone exactly the normal forms within the cap |
| Slug.SlugFixedIff | packages/cms-editor/src/fields.tsx:618-622 | `slugify` leaves alone exactly those that do not end in a hyphen |
| Slug.SlugifyIsIdempotent | packages/cms-editor/src/fields.tsx:618-622 | slugifying a slug, or a field's typed value, gives the slug of the whole text |

## Left out

- AnalyticsStore.Store.TopPages: does not model which page id a path is shown with, nor the order among equal counts; group order decides both.
- AnalyticsStore.Store.PruneRawEvents: does not model a fractional `keepDays`; the cutoff is in whole days.
- AnalyticsStore.Store.IngestEvents: does not model event columns no count reads (referrer, city, user, clicks), nor the warning for dropped rows.
- Ranges.DaysInRange: does not model day strings that name no calendar day.
- RollupRace.CleanMeansExact: does not cover the disorderly statements whose exact conditions and failing runs are given beside it.
- Schedule.Runner.RunScheduledRollup: does not model failures part-way or the marker being lost; the chain's liveness is not a claim of the code.
- Breakdowns.AsCounts: members added to `Object.prototype` by other code, and engines that print native functions differently; the conditions then range over those names.
- Ingest's per-isolate memo of a queued rollup (`packages/analytics/src/schedule.ts:60-81`).
- `collect.ts`, `server.ts`, `tracker.ts`: request parsing settled branch by branch.
- Emailed tokens: payloads of older versions that carry the raw token, and the resend cooldown, which only makes requests rarer.
- Accounts.Store: roles, profiles, foreign password hashes and login lookups by email; passwords are compared, not hashed. `verifyEmail` interleaved with `changeEmail` is outside the one-at-a-time hypothesis, as the lemma above shows.
- Sessions.EarlierSessionsStayDead: does not cover a refresh whose read and signature straddle a recorded change; handlers run one at a time here. Key-value propagation delay is not modelled.
- HMAC, PBKDF2, SHA-256, the OIDC HTTP flow, cookies and redirects.
- The client's callbacks (who is told of a connection error), `upload`, `fileUrl`, and a socket implementation whose `close` throws.
- PagedList.ReadyListIsRight: does not cover local edits (`patch`) or server lists that change during a query, after which the rows are no prefix of one list; the offset ref is taken to be current, as after a render.
- The Unicode tables behind the slug's decomposition and lower-casing.
- `listSummary`, the React and Preact screens, the Astro integration, `block-drag.ts`, `chart.tsx`: easy members only.
- The server runtime (row policies, read engine, outbox drainer, migrations): a keyed enqueue is a map of keys.
