# Verified model of the project tracker's hard core

A Dafny 4.11 model of the parts of the tracker where being wrong is silent: the versioned write path that every change goes
through, the delivery of its events, the small concurrent and algorithmic cores, the numbers of the dashboard, the station
index, the station-master generator and the reading of spreadsheet dates. `dafny verify dfyconfig.toml` checks everything.

## What is modelled

**The write path** (`Store`, `Booking`, `Checklists`, `Projects`, `RegisterImport`, `HollowUpdates`, `ReportLinks`, `AutoLinks`,
`Commands`). `Store.Database` holds the tables one transaction sees and offers the operations of the transaction handle. Each service method is written
statement by statement against it and proved equal to a function from tables to tables; `Commands.Handle` adds what all
services share: claim the idempotency key, make the transition, store the response, commit, or roll everything back. What is
promised about *runs* is then proved about those functions:

- `Transactions`, `Runs`: a run of calls with any failures and retries in it has exactly the effects of the calls that
  committed, and no two of those share a key.
- `Steps`, `Transitions`: whatever a call commits, it reached by elementary steps its request allows; so a property kept by
  every step is kept by every run.
- `Journal`, `Replay`: events are numbered without gaps, every change says what was there before, slots and projects are
  rebuilt from their events, every event has its audit rows.
- `Calendar`, `References`, `Registrations`, `Snapshots`: no double booking, links and keys that do not dangle, one project per
  registration, what a plain read is still worth when the write comes.

Transactions are serial here: a call sees the tables as the calls before it left them. What the source reads *without* a lock
(the import's candidates, the reports and projects of `autoLink`) is therefore not taken from the tables but given separately,
as old as it likes. `autoLink` is moreover modelled with foreign commits before each of its statements: any function of the
tables and of its locks that respects the locks. In a run of calls it is the same function with nobody else at work.

**Delivery** (`DomainEvents`, `Permissions`, `EventVisibility`, `Sse`): channels, who may subscribe, what a recipient is shown,
the consumer's gap detection and de-duplication, and the stream's framing at both ends.

**Concurrency and algorithms** (`FreshRead`, `Levenshtein`, `Search`). `FreshRead` is a machine of asynchronous steps: between
two steps of the event loop one read, one settled load, one reaction or one queued start happens, in any order.

**Read models** (`Portfolio`, `Drilldown`, `Standings`, `Dashboard`, `Agreement`). Each dashboard pass is its own loop, as in the
source; each is proved against one way of counting, and so against the others.

**Stations and dates** (`Tokens`, `StationGeo`, `StationOrder`, `StationMaster`, `Numerals`, `Calendrical`, `Dates`,
`DateSpellings`). Days follow section 21.4.1 of ECMA-262; centroids are over reals.

`Wrappers`, `Text` and `Sequences` hold what several modules share; the sort of arrays is the stable one in `Sequences`.

Taken as parameters: Unicode folding and upper-casing, the request and source-key hashes (as injective: the model compares what
is hashed), the station lookup of a booking, the review trigger table, the canonical form of project cells, the reading of a
text as a number, the collation of labels, the clock. Where a theorem needs something of a parameter it says so
(`LeavesSlugsAlone`, `VocabularySound`, `Collates`).

## What the proofs found

The code is followed where it and its documentation disagree. Each of these is a lemma with the exact condition under which the
promise holds, and where that helps a concrete input that breaks it.

- The event of a saved draft leads to the draft exactly when the save keeps the mode and drops no question with content: a
  change of mode is recorded nowhere, and neither is the removal of an answer (`Checklists.DraftReplays`,
  `Checklists.DraftIsToldTruly`, `Checklists.ModeChangeIsSilent`, `Checklists.DroppedAnswerSurvives`).
- A submitted checklist goes on naming its project after the project is deleted, and dangles exactly then
  (`References.LinkDanglesExactlyAfterDeletion`, `References.DeletionLeavesTheLink`).
- One import can report a project as `updated` twice: a cell that differs only until it is normalised is planned, reported, and
  written by nobody, and a second registration of the project is then still up to date (`HollowUpdates.UpdatedTwiceExactly`,
  `HollowUpdates.TwoReportsOneWrite`). At most one of the reports writes (`RegisterImport.OnlyOneUpdateWrites`).
- A search for one word shows an entry of exactly that name before everything that only mentions it, but before what has it in its
  name only for some pairs of kinds: not a region or a status before a page (`Search.OwnNameOutranksMention`,
  `Search.OwnNameWinsExactly`).
- Excel serials are read up to 2198-06-05, not to the year 2200 the comment names (`DateSpellings.SerialsReadExactly`).
- The round trip through UTC accepts exactly the days of the calendar, but none of the years 0 to 99
  (`Dates.RoundTripAccepts`).

Other results hold on the data the system keeps, and say what they need of it:

- Standings and needs for action agree on what is overdue exactly when `today` is a midnight, as the dashboard makes it
  (`Agreement.OverdueAgreesAtMidnight`), and on any figure exactly when every row that counts is its project's first of a
  listed Gewerk, as the unique key makes it (`Agreement.StandingsSumUp`, `Agreement.SecondRowIsMissed`).
- A combined drill lists the intersection of its parts when no project id is on two rows, as the primary key makes it
  (`Drilldown.CombinedDrillIsIntersection`, `Drilldown.RepeatedIdSplits`).
- A change of membership reaches who is owed it exactly when the workspace they see it through has a feed of its own that a
  client may name, as all canonical names do; a row stored before names were canonical may not (`EventVisibility.ReachableExactlyWhenRoutable`,
  `EventVisibility.LegacyRowIsUnreachable`).

## Model

| member | source | states |
|---|---|---|
| Transactions.CommitsWithItsKey | drizzle/schema.ts:433-448 | a call that commits found its key free and leaves it with the canonical request and its response; any other call leaves the whole store as it was |
| Transactions.AtMostOnce | server/domain/bookingService.ts:42-50 | once a call of a run has committed, every later call under its key changes nothing: the same request is told the stored response, another one is rejected |
| Transactions.FailureLeavesNoKey | drizzle/schema.ts:433-436 | a call that throws leaves not even its key: repeating it is a first attempt |
| Transactions.RunIsItsCommits | drizzle/schema.ts:433-448 | any run has the effects of its committed calls alone, and no two of those share a key |
| Transitions.ServicesKeepLedger | server/domain/ports.ts:186-187 | between claim and completion no service writes the ledger, which is what the four theorems above ask of a service |
| Commands.Handle | server/domain/bookingService.ts:42-52 | claim, transition, completion and commit, statement by statement with roll-back on any error, is the one-step execution all theorems are about |
| Transitions.EveryCallIsLawful | server/domain/ports.ts:123-188 | whatever a call commits is a chain of elementary steps, each legal where it is taken and each of a kind the request allows |
| Runs.RunKeeps | server/domain/ports.ts:123-124 | a property that every step of the committed calls keeps, and that does not look at the ledger, holds after any run in which it held before |
| Runs.RetriesChangeNothing | server/domain/checklistService.ts:60-63 | for the actual services: a retry of a committed call is answered from the ledger, refused by its pre-checks or rejected as key reuse, and the store stays the same |
| Runs.OneEffectPerKey | drizzle/schema.ts:433-436 | for the actual services: dropping every failure and every retry from a run leaves the same store |
| Store.Database.ClaimIdempotency | server/infra/mysqlProjectStore.ts:422-442 | new inserts the key without a response; a key that is there is replayed for the same request and a mismatch for another |
| Store.Database.UpdateSlotVersioned | server/infra/mysqlProjectStore.ts:278-281 | writes exactly when id and version match, adds one to the version, touches nothing else |
| Store.Database.UpdateChecklistVersioned | server/infra/mysqlProjectStore.ts:290-293 | the same for a checklist |
| Store.Database.UpdateProjectVersioned | server/infra/mysqlProjectStore.ts:303-324 | the same for a project with its reviews |
| Store.Database.SetReportProject | server/infra/mysqlProjectStore.ts:250-255 | the same for a report's link and where the link came from |
| Store.Database.RecordSourceKey | server/infra/mysqlProjectStore.ts:229-237 | INSERT IGNORE: a key that is there keeps its owner |
| Store.Database.ShareLockProjects | server/domain/ports.ts:145-146 | exactly the asked projects that exist |
| Store.Database.UnlinkReportsOf | server/infra/mysqlProjectStore.ts:269-273 | every report of the project, and no other, loses its link and moves one version |
| Store.Database.DeleteProject | server/infra/mysqlProjectStore.ts:332-340 | the project goes with every source key it owns |
| Store.Database.InsertNotification | server/infra/mysqlProjectStore.ts:345-358 | nothing happens when the recipient holds the notification already |
| Booking.SameHashSameBooking | server/domain/bookingService.ts:40-41 | requests the hash does not tell apart make the same transition |
| Booking.DiffFields | server/domain/bookingService.ts:128-137 | exactly the tracked fields whose value changes, each with the value before and after, null for missing |
| Booking.BookInTransaction | server/domain/bookingService.ts:60-85 | refused in the source's order (role, region, linked project, slot, version or state), else one version step with its audit rows and event; a refusal writes nothing |
| Booking.ReleaseInTransaction | server/domain/bookingService.ts:94-104 | refused in the source's order, else the slot is freed in one version step |
| Calendar.CommittedBookingTakes | server/domain/bookingService.ts:72-78 | a booking that commits, direct or inside a submission, found the slot free at the expected version and leaves it held one version on |
| Calendar.NoDoubleBooking | server/domain/bookingService.ts:72-78 | in any run, between two committed bookings of one slot there is a committed release of it |
| Calendar.OneWinnerPerVersion | server/domain/bookingService.ts:74-79 | in any run, of all bookings of a slot that expect one version at most one commits |
| Calendar.LostSlotUndoesSubmission | server/domain/checklistService.ts:124-131 | a submission whose slot is taken or moved on leaves the whole store as it was |
| Checklists.DiffDto | server/domain/checklistService.ts:220-229 | the columns and answer parts that changed among those present afterwards, and the mode of a new draft |
| Checklists.DraftReplays | server/domain/checklistService.ts:220-229 | from cells that are the draft, a save's changes lead to the saved draft, mode, header and answers, if and only if the save keeps the mode and leaves out no question with content |
| Checklists.NewDraftReplays | server/domain/checklistService.ts:220-229 | the first event of a draft alone leads to it |
| Checklists.DraftIsToldTruly | server/domain/checklistService.ts:80-88 | over any series of saves, the events of a draft tell it truly all along if and only if every save does so |
| Checklists.ModeChangeIsSilent | server/domain/checklistService.ts:227 | an edit of the mode alone makes a new version whose event holds no change, and a replay keeps the old mode |
| Checklists.DroppedAnswerSurvives | server/domain/checklistService.ts:223-226 | a concrete edit whose event keeps a dropped answer alive |
| Checklists.SaveInTransaction | server/domain/checklistService.ts:65-88 | who may save what and at which version, in the source's order; a draft is created at version 1 or moved one version with its event for the author alone |
| Checklists.SubmitInTransaction | server/domain/checklistService.ts:104-140 | project, slot, submitted checklist, event and notifications as one transition, with every refusal in the source's order |
| Checklists.NotifyDepartments | server/domain/checklistService.ts:154-172 | one notification and one event per recipient and department with work, none for the actor and none for who has it already |
| References.SubmittedHaveTheirProjects | server/domain/checklistService.ts:122-132 | in every run a checklist is submitted exactly when it has a project, and distinct checklists have distinct projects |
| References.SubmittedIsFinal | server/domain/checklistService.ts:76 | in every run a checklist that is no draft is never written again |
| References.LinkDanglesExactlyAfterDeletion | server/domain/projectService.ts:445-474 | in every run the project a checklist names is missing if and only if its event log ends with its deletion |
| References.DeletionLeavesTheLink | server/infra/mysqlProjectStore.ts:332-340 | deleting a submission's project leaves the checklist as it was, naming it |
| References.NothingDangles | drizzle/schema.ts:206-217 | in every run each identity key has one owner, which exists, an exclusion has none, and each linked report names a project that exists |
| References.KeyStaysWithOwner | server/domain/ports.ts:128-136 | in every run a registration stays with its project until a deletion of that project commits |
| Registrations.OneProjectPerRegistration | server/domain/ports.ts:130-136 | in any run, between two imports that each create a project for one registration on an `add` plan the first project was deleted |
| Journal.StepKeeps | drizzle/schema.ts:382-393 | every elementary step keeps the journal: gapless versions, changes that name the value before, content that follows from the events, audit rows in step with the events |
| Runs.EveryRunIsJournaled | drizzle/schema.ts:382-393 | from any starting rows without history, the journal holds at every point of every run |
| Replay.OneEventPerVersion | drizzle/schema.ts:390-393 | every version of a living aggregate after its first has exactly one event, and events appear in version order |
| Replay.NoOtherVersions | drizzle/schema.ts:390-393 | no event of a living aggregate is numbered outside its versions |
| Replay.EveryEventIsAudited | server/domain/bookingService.ts:119-125 | every event but a notification has at least one audit row, all of its id and version, one for each changed cell |
| Replay.SlotsAreRebuilt | server/domain/bookingService.ts:128-137 | folding a slot's changes over its first row gives every tracked field of the current row, and each `from` is the value before that step |
| Replay.ProjectsAreRebuilt | server/domain/projectService.ts:421-435 | a project created in the run is rebuilt from its events alone |
| Replay.GoneExactlyWhenDeleted | server/domain/projectService.ts:454-474 | a project that was there is missing exactly when its log ends with its deletion |
| Projects.CreateInTransaction | server/domain/projectService.ts:417-437 | one project at version 1 with its reviews, recorded in one event, or a refusal that writes nothing |
| Projects.EditInTransaction | server/domain/projectService.ts:216-252 | visibility, rights here and at the destination, version, then one step or, when nothing differs, none |
| Projects.UpdateInTransaction | server/domain/projectService.ts:353-405 | one version step for whatever differs, nothing at all when nothing does |
| Projects.DeleteInTransaction | server/domain/projectService.ts:450-476 | reports are unlinked and audited one by one, project and keys go, the deletion is the last version |
| RegisterImport.ApplyInTransaction | server/domain/registerImportService.ts:106-223 | the loop with its early continues is the fold of the row decisions, with one outcome pushed and counted per row; a row that throws ends it |
| RegisterImport.OneOutcomePerRow | server/domain/registerImportService.ts:121-128 | an import that goes through has one outcome per row, in order |
| RegisterImport.CountsSumToRows | server/domain/registerImportService.ts:122-126 | the counts add up to the outcomes |
| RegisterImport.NothingReplacedUnasked | server/domain/registerImportService.ts:187-211 | an import moves a project at most one version, and a value that was not empty changes only through the one row that moved the project, which holds the new value and says `overwrite` |
| RegisterImport.RowsTouch | server/domain/registerImportService.ts:187-212 | after any number of rows a project is as it was or was moved once, by one of those rows |
| RegisterImport.AddClaimsKey | server/domain/registerImportService.ts:161-175 | a row that creates on an `add` plan found its key free and leaves it owned by the new project |
| RegisterImport.OneProjectPerKey | server/domain/registerImportService.ts:161-167 | of two rows of one import with one identity at most one creates on an `add` plan |
| RegisterImport.KeyPersists | server/domain/ports.ts:128-136 | no row takes an identity key from its owner |
| RegisterImport.OnlyOneUpdateWrites | server/domain/registerImportService.ts:193-211 | when an import reports a project as updated twice, the earlier report wrote nothing |
| HollowUpdates.ReportedInImportExactly | server/domain/registerImportService.ts:128-212 | a row is reported as an update of a project if and only if it is one judged on the tables the import started on, and every earlier row that is one too is hollow: each of its cells, normalised, is stored already |
| HollowUpdates.UpdatedTwiceExactly | server/domain/registerImportService.ts:193-211 | so two rows report one project as updated exactly when both are updates judged at the start and all updates of it before the second are hollow |
| HollowUpdates.TwoReportsOneWrite | server/domain/projectService.ts:357-388 | an import of two different registrations that does: one matched by its fields with a blank behind a cell, one by its stored key with a new value; both report an update, only the second writes |
| Snapshots.SnapshotsStayTrue | server/domain/ports.ts:143-154 | over any stretch of any run a row of the same version has the same content, and no project id comes back |
| Snapshots.ImportOnSnapshotIsSafe | server/domain/registerImportService.ts:111-119 | the same for an import planned on any earlier state of the run |
| Snapshots.LinkingOnSnapshotIsSafe | server/domain/pruefberichtLinkService.ts:87-119 | an automatic linking planned on any earlier state of the run writes only reports nobody has linked or detached since, and changes nothing else but the audit log |
| Snapshots.RunsAreReliable | server/domain/ports.ts:141-146 | what other calls commit during an automatic linking, outside its locks, is what it relies on |
| Snapshots.EveryoneIsToldOnce | server/infra/mysqlProjectStore.ts:345-354 | in every run a person hears of one checklist for one department once |
| ReportLinks.SetLinkInTransaction | server/domain/pruefberichtLinkService.ts:54-72 | project before report, version guard, no write when the link is that already, else one audited version step |
| ReportLinks.LinkedExactlyWhenOnlyBest | shared/itk/project-link.ts:83-111 | a report is linked to a project if and only if that project alone fits it best: same number and station, of the stated phase before those of none, never of another |
| ReportLinks.EveryReportIsCounted | server/domain/pruefberichtLinkService.ts:91-100 | the candidates, the ambiguous and the unmatched are all the reports examined |
| AutoLinks.WriteIsRight | server/domain/pruefberichtLinkService.ts:111-117 | a guarded write that goes through hits an unlinked, never detached report, gives it the project its evidence names, and has its audit row |
| AutoLinks.LinkChunk | server/domain/pruefberichtLinkService.ts:107-119 | one chunk, whatever others commit before each of its statements, is the transition all theorems on linking are about: tables, locks and figures |
| AutoLinks.AutoLink | server/domain/pruefberichtLinkService.ts:87-122 | so is the whole call; a dry run only counts |
| AutoLinks.LinkingIsItsWrites | server/domain/pruefberichtLinkService.ts:104-119 | for any others that respect its locks: the tables in the end are made of their commits, the counted writes and exactly the audit rows of those, and nothing else; each write finds, at its moment, a report nobody linked or detached and a project that stays |
| AutoLinks.EveryLinkStands | server/domain/pruefberichtLinkService.ts:104-106 | whatever others do, at the commit every link made still stands and its project exists |
| AutoLinks.AloneOnlyLinks | server/domain/ports.ts:141-146 | with nobody else at work every report that is not written is as before, those linked or detached among them, and so is every other table |
| AutoLinks.EveryReportIsAccountedFor | server/domain/pruefberichtLinkService.ts:89-116 | examined = linked + ambiguous + unmatched, dry or real, in every environment |
| FreshRead.NoStaleAnswer | server/infra/freshRead.ts:1-34 | in every run of steps no read is answered by a load recorded before the moment it asked for |
| FreshRead.AtMostOneLoadAndOneQueued | server/infra/freshRead.ts:10-34 | in every run at most one load is in flight and at most one promise waits to start one |
| FreshRead.BurstSharesTwoLoads | server/infra/freshRead.ts:16-23 | reads with nothing in between are handed the running load or one shared promise and start nothing |
| FreshRead.StartedLoadsAreBounded | server/infra/freshRead.ts:25-33 | loads started never exceed loads ended by more than one |
| FreshRead.InternalStepsRunOut | server/infra/freshRead.ts:19-31 | every step the loader takes on its own brings a bound on such steps down |
| FreshRead.QuiescentAnswersAll | server/infra/freshRead.ts:16-33 | when no such step is left, every read has its answer |
| FreshRead.EveryReadIsAnswered | server/infra/freshRead.ts:10-34 | no read starves: after any stretch of steps, with any further reads, time and reactions in it, in which three times a load settled (well or badly) or the queued load started, every read made before it is answered |
| FreshRead.WaitingMeansATurnIsDue | server/infra/freshRead.ts:19-20 | while a read waits, a load is in flight or the queued one may start: the machine never waits for nothing |
| FreshRead.StopsWithEveryReadAnswered | server/infra/freshRead.ts:16-33 | when nothing new arrives the machine stops within its bound, in whatever order reactions run, and then every read is answered |
| FreshRead.FreshReader.Read | server/infra/freshRead.ts:16-23 | the method's assignments are the machine's read step, and the request is recorded with the promise handed out |
| FreshRead.FreshReader.FireQueued | server/infra/freshRead.ts:20-32 | forgetting the queued promise and starting a load, which may throw, is the machine's start step |
| FreshRead.FreshReader.ClearLoad | server/infra/freshRead.ts:30-31 | the reaction of a settled load is the machine's clear step |
| Levenshtein.EditDistance | shared/search.ts:133-162 | the two-row, early-exit loop returns the recursive distance when it is within `max` and something above `max` otherwise |
| Levenshtein.NoCheaperScript | shared/search.ts:126-133 | no list of edits between two strings is cheaper than the recursive distance |
| Levenshtein.CheapestScript | shared/search.ts:126-133 | some list of edits costs exactly that |
| Levenshtein.ZeroOnlyForEqual | shared/search.ts:134 | distance zero is equality |
| Levenshtein.LengthGapBounds | shared/search.ts:135 | the difference in length never exceeds the distance |
| Levenshtein.NextRowAbove | shared/search.ts:143-155 | a row wholly above `max` is followed by a row wholly above `max` |
| Levenshtein.LastCellAbove | shared/search.ts:156 | so the distance is above `max`: the early exit is sound |
| Search.SkippedWordsAreTooFar | shared/search.ts:216 | a word the length filter skips is beyond tolerance |
| Search.FuzzyPass | shared/search.ts:213-222 | the filtered loop finds the best fuzzy score over all words |
| Search.ScoreTerm | shared/search.ts:189-224 | three loops with early exits compute the declarative score |
| Search.ScoresExactlyHits | shared/search.ts:189-224 | the score is positive if and only if the term occurs in a field, starts a word, or is within tolerance of a word |
| Search.AllTerms | shared/search.ts:257-267 | an entry gets a total exactly when every term hits it, and then the sum |
| Search.WeightBonus | shared/search.ts:270 | the bonus of a weight is 6 * log2(weight + 1) rounded, at most 40, told by whole numbers |
| Search.BusierNeverScoresLess | shared/search.ts:48 | more records behind an entry never lower its score, and never add more than 40 |
| Search.Rank | shared/search.ts:255-274 | the hits are exactly the entries of a wanted kind that every term hits, once each, the higher score first, then by label, then as in the index |
| Search.Correct | shared/search.ts:287-303 | no correction exactly when no label is within tolerance of the word without being it; else the first of the nearest |
| Search.Query | shared/search.ts:239-306 | nothing for a query without words; else the best hits up to the limit, with all that is left out behind them, and a spelling only when no hit is strong and the first of the longest words has four letters: the nearest there is |
| Search.MoreWordsNarrow | shared/search.ts:235-236 | further words add no entry, and no more entries are found |
| Search.OwnNameOutranksMention | shared/search.ts:57-60 | for one word, an entry whose label it is outranks every entry that has it outside its label only, by at least 35 points, a station before a project by 120 |
| Search.OwnNameWinsExactly | shared/search.ts:172-186 | for one word, an entry whose label it is outranks all entries of another kind whose label it is not, whatever their weights, if and only if the other kind's bonus is less than 60 above its own |
| Sequences.SortOrders | shared/search.ts:274 | the stable sort: whatever order refines the comparator and agrees with the input on ties is the order of the output |
| Sse.SseParser.Feed | shared/sse.ts:6-29 | frames and remaining buffer are those of the old buffer with the chunk behind it |
| Sse.ReadFrame | shared/sse.ts:12-26 | the field loop over a raw block gives the block's frame |
| Sse.LeftmostSepIsStable | shared/sse.ts:11-13 | whatever arrives later, the separator found first stays the first, of the same length, also where CR LF pairs are cut |
| Sse.ParseInTwo | shared/sse.ts:6-29 | parsing what is there and then the tail with the rest is parsing all of it |
| Sse.ChunkingIsIrrelevant | shared/sse.ts:1-30 | however a stream is cut, frames and remaining buffer are those of the whole |
| Sse.TailHoldsNoFrame | shared/sse.ts:11 | the remaining buffer holds no complete frame |
| Sse.StreamRoundTrip | server/realtime/gateway.ts:199-222 | whatever frames, heartbeats and hints the gateway writes and however they are cut, the client reads exactly what was sent and keeps nothing back |
| DomainEvents.SlugifyIsIdempotent | shared/domain-events.ts:91-99 | a slug's slug is itself, given a folding that leaves slugs alone |
| DomainEvents.SlugifySlugs | shared/domain-events.ts:91-99 | a slug has letters, digits and single inner dashes only, whatever the folding does: no dot, no colon |
| DomainEvents.ScopesForEvent | shared/domain-events.ts:134-158 | the list holds exactly the channels of the event, each once |
| DomainEvents.AnyDeliveryStaysInStep | shared/domain-events.ts:179-191 | under lost, repeated and reordered delivery a consumer always holds the state of the log prefix its version names, and never goes back |
| DomainEvents.GapNamesWhatIsMissing | shared/domain-events.ts:188-190 | a gap is reported exactly when versions are missing and names the first and last of them; fetching those and applying the event leaves the log's state there |
| DomainEvents.FillingReaches | shared/domain-events.ts:188-190 | delivering the missing versions in order reaches exactly the state of the last of them |
| DomainEvents.SeenEvents.Seen | shared/domain-events.ts:194-207 | true if and only if the id is among the last `capacity` ids reported as new |
| DomainEvents.RememberedIdsAreDistinct | shared/domain-events.ts:195-206 | no id is remembered twice |
| Permissions.WorkspaceChannelMeansVisibility | server/domain/permissions.ts:137-150 | a workspace channel may be opened exactly by who may see the workspace |
| Permissions.CollectionChannelMeansVisibility | server/domain/permissions.ts:137-150 | so may a collection channel, except that a name with slug `all` leads to the unrestricted feed |
| EventVisibility.DeliveryKeepsIdentity | server/domain/eventVisibility.ts:23-88 | every delivered form keeps event id, aggregate, version and feed position, and adds no change |
| EventVisibility.DeliveryIsIdempotent | server/domain/eventVisibility.ts:23-88 | filtering a delivered form for the same recipient changes nothing |
| EventVisibility.DeliveryIsNonInterfering | server/domain/eventVisibility.ts:10-15 | events that differ only in what the recipient may not see (a move out, a move in, a foreign booking, or all of it) are delivered alike |
| Permissions.SlugChannelIsValid | shared/domain-events.ts:119-120 | the channel of a slug is one a client may name exactly when the slug has 1 to 64 characters |
| EventVisibility.OwedMembershipIsReachable | server/domain/eventVisibility.ts:48-88 | who is owed a change of membership may open a feed it travels on, for workspaces whose slug has 1 to 64 characters and is not `all` |
| EventVisibility.SubscribersAreServed | server/domain/permissions.ts:126-160 | who may open a workspace or membership channel of a stored event is delivered some form of it |
| EventVisibility.ReachableExactlyWhenRoutable | server/realtime/gateway.ts:149-166 | for every stored membership event: a restricted recipient may open a feed it travels on, by name and by right, if and only if the project is, or was before, in a workspace they may see that has a feed of its own |
| EventVisibility.LegacyRowIsUnreachable | server/domain/eventVisibility.ts:54 | the deletion of a row stored under a name with the reserved slug is owed to a holder of that name, who may open no feed of it |
| Portfolio.CountBedarf | shared/handlungsbedarf.ts:153-177 | the one pass gives for every bucket its rows and its distinct projects |
| Portfolio.CountTones | shared/handlungsbedarf.ts:281-307 | the same for every band, for one Gewerk or all; a band is listed only when it has rows |
| Drilldown.DrillProjectIds | shared/drilldown.ts:29-41 | the ids of the projects that pass every part, or no restriction |
| Drilldown.BedarfBadge | shared/drilldown.ts:1-8 | the badge's number of projects is the size of the list it opens |
| Drilldown.ToneSlice | shared/drilldown.ts:1-8 | a slice's number of projects is the size of the list it opens, with or without a Gewerk |
| Drilldown.CombinedDrillIsIntersection | shared/drilldown.ts:34-39 | a combined drill is contained in the intersection of its parts, and equal to it when ids are distinct |
| Drilldown.RepeatedIdSplits | shared/drilldown.ts:34-39 | with one id on two rows it can be smaller |
| Standings.GewerkStandings | shared/portfolio-metrics.ts:101-161 | every figure of every Gewerk counts the projects whose first row of it passes; the oldest age is the greatest; the risk weighs 3, 2, 1 |
| Dashboard.AgingOfOpenReviews | shared/portfolio-metrics.ts:185-208 | each cohort counts the open dated rows of its ages, dates ahead as today, and the rest is undated |
| Dashboard.ReviewerConcentration | shared/portfolio-metrics.ts:240-264 | every reviewer's open, done and required rows, and the open rows of nobody |
| Dashboard.DataQuality | shared/portfolio-metrics.ts:351-369 | unmapped, blank and unclassified statuses, open rows without reviewer or date, and all rows |
| Dashboard.DeriveProjectMetrics | shared/project-metrics.ts:107-168 | each row figure counts its rows, each project figure the projects of its bucket |
| Agreement.OverdueAgreesAtMidnight | shared/handlungsbedarf.ts:114-120 | whole-day age and instant comparison agree on every row if and only if `today` is a midnight |
| Agreement.StandingsSumUp | shared/portfolio-metrics.ts:118-140 | summed over the Gewerke a figure never exceeds the dataset's rows, and equals them if and only if every counted row is its project's first of a listed Gewerk |
| Agreement.SecondRowIsMissed | shared/portfolio-metrics.ts:119 | a second row of a Gewerk is one the standings miss |
| Agreement.OpenIsAgedOrUndated | shared/portfolio-metrics.ts:163-170 | cohorts and undated rows are all open rows: no age falls between two cohorts |
| Agreement.RowsPartition | shared/project-metrics.ts:66-72 | open, approved, not required, blocked and unresolved rows are all rows |
| Agreement.ProjectsPartition | shared/project-metrics.ts:77-83 | the five buckets are all projects |
| Agreement.UnresolvedIsExplained | shared/portfolio-metrics.ts:296-306 | the KPI's unresolved rows are the quality panel's blank, unmapped and unclassified ones |
| Agreement.RequiredTones | shared/handlungsbedarf.ts:384-395 | the charted rows are the required rows of the standings, the rest is not required |
| Agreement.ShowDashboard | shared/portfolio-metrics.ts:315-321 | all panels on one dataset at one midnight: every figure they share is the same number, the standings' sums exactly when no counted row is passed over |
| Tokens.SameKeySameWords | shared/stationGeo.ts:117-119 | two names have one token key if and only if they have the same set of words |
| Tokens.SplitJoin | shared/stationGeo.ts:117-119 | splitting joined words gives the words back |
| StationGeo.PickBestOf | shared/stationGeo.ts:129-134 | the running reduction picks a candidate no other beats by category, then number |
| StationGeo.WinnerIsUnique | shared/stationGeo.ts:121-134 | with distinct numbers the winner beats every other candidate |
| StationGeo.FuzzyMatch | shared/stationGeo.ts:223-241 | the loop with its running best gives exactly the entries of greatest score, in order |
| StationGeo.StationGeoIndex.Find | shared/stationGeo.ts:243-289 | the index answers as a linear scan over all entries would, tier by tier |
| StationOrder.BuildStationGeo | shared/stationGeo.ts:150-206 | the index holds the rows with coordinates and a name, by number, and each region's centre is the mean of its rows that are not retired |
| StationOrder.OrderOfRowsDoesNotMatter | shared/stationGeo.ts:186-206 | permuting rows with distinct numbers changes no answer |
| StationOrder.TokensTierIsNearest | shared/stationGeo.ts:261-266 | when some name has exactly the words asked for, the tokens tier is exactly what the fuzzy tier would return |
| StationOrder.IndexTokensTierIsNearest | shared/stationGeo.ts:254-266 | and so it is in every index built from rows, within a region and over all |
| StationOrder.OwnRegionWins | shared/stationGeo.ts:136-149 | a match in the project's own region at any tier beats every match elsewhere; without one the scan is over all regions |
| Text.CleanTextIsIdempotent | scripts/generate-stations-master.ts:126-131 | cleaning cleaned text changes nothing |
| StationMaster.CleanPlzIsIdempotent | scripts/generate-stations-master.ts:134-140 | cleaning a cleaned postcode changes nothing |
| StationMaster.CanonIsIdempotent | shared/bahnhofsmanagement.ts:115-140 | a canonical name is its own canonical form, a placeholder has none |
| StationMaster.LoadPreviousByNr | scripts/generate-stations-master.ts:196-205 | the previous rows under their numbers, the last one of a repeated number |
| StationMaster.ReadSource | scripts/generate-stations-master.ts:291-343 | the first row of every number, and whether a number repeats or a region is unknown |
| StationMaster.Build | scripts/generate-stations-master.ts:345-420 | a master if and only if every check passes: exactly the rows of the source region and the retired ones, strictly by number |
| StationMaster.NoNumberIsLost | scripts/generate-stations-master.ts:351-375 | every number of the previous master is in the output |
| StationMaster.RegenerationIsFixpoint | scripts/generate-stations-master.ts:277-420 | with the same source and ledger, what was generated is what its own output generates |
| StationMaster.GenerateTwice | scripts/generate-stations-master.ts:277-420 | run on its own output the generator gives the same rows in the same order; they are sorted, complete, and have both coordinates or none |
| Calendrical.DayFromYearIsFormula | shared/date.ts:45-49 | summing year lengths is the closed form of section 21.4.1.3 of ECMA-262 |
| Calendrical.CivilOfMakeDay | shared/date.ts:45-49 | a calendar day goes to its number and back |
| Calendrical.MakeDayOfCivil | shared/date.ts:45-49 | a day number goes to its calendar day and back |
| Calendrical.DaysInOrder | shared/workbook-cells.ts:31-35 | later day numbers are later calendar days |
| Dates.RoundTripAccepts | shared/workbook-cells.ts:37-41 | the round trip accepts if and only if the calendar has the day and the year is above 99 |
| Dates.EpochDay | shared/workbook-cells.ts:29 | the epoch of serials is 1899-12-30 |
| DateSpellings.EverySpellingAgrees | shared/workbook-cells.ts:43-59 | from 1900-03-01 to 2100-12-31 serial, eight-digit number, eight-digit text, d.m.yyyy, dd.mm.yyyy and ISO all give the same ISO day |
| DateSpellings.OnlyDaysComeOut | shared/workbook-cells.ts:43-59 | whatever a cell holds, what comes out is the ISO spelling of a day of the calendar after the year 99, or null |
| DateSpellings.ImpossibleDaysAreNull | shared/workbook-cells.ts:43-59 | digits that name no day of the calendar give null in every spelling |
| DateSpellings.SerialIsItsDay | shared/workbook-cells.ts:31-35 | a whole serial from 61 to 109000 is the day it counts to |
| DateSpellings.SerialsInOrder | shared/workbook-cells.ts:31-35 | of two whole serials that are read the later is the later day, and the later text |
| DateSpellings.SerialsReadExactly | shared/workbook-cells.ts:33 | a whole serial is read if and only if its day lies between 1900-03-01 and 2198-06-05 |

## Left out

- Booking.BookInTransaction: the station lookup is a parameter; the slot's `checklistId` is carried but, as in the source, in no event.
- Checklists.SaveInTransaction: header and answers arrive normalised; the normalisation itself (date columns, unknown questions) is a chain of single checks.
- Checklists.NotifyDepartments: the recipients come in as planned; grants, subscriptions and wording are not modelled.
- Projects.EditInTransaction: watcher notifications are not part of this model, and neither are the calls that edit or create one review.
- Projects.DeleteInTransaction: the forensic snapshot in the audit row and the watcher notifications are not part of this model.
- RegisterImport.ApplyInTransaction: the planner and the candidate query are arbitrary input; the closing audit row carries the number of rows, not the text of the counts; record schemas beyond distinct references are not checked.
- AutoLinks.AutoLink: samples are report ids without their labels; in a run of calls only the real linking is a request, since a dry run claims no key and writes nothing.
- Search.Query: the limit is not negative; the two foldings of texts are given, and so is the index, folded; the time taken is not modelled.
- Portfolio.CountTones: the bands are not sorted by size.
- Standings.GewerkStandings: the rounded completion percentage is not modelled.
- Dashboard.AgingOfOpenReviews: the median is not modelled.
- Dashboard.ReviewerConcentration: the sort of the reviewers and the rounded share of the busiest five are not modelled.
- Dashboard.DataQuality: the statistics of project numbers, stations and unparseable dates are independent single counts.
- Drilldown.CombinedDrillIsIntersection: equality is stated for distinct ids, which are a primary key in the database; for repeated ids only containment holds.
- StationMaster.Build: files, the bootstrap of the coordinate ledger and warnings are I/O; the ledger is given.
- DateSpellings.EverySpellingAgrees: cells that are Date objects are passed through by the source and not modelled.
- Timestamps, trace ids, actor names and labels of events and audit rows.
- Unlocked reads of a booking's linked project see the current tables; only the import and `autoLink` are modelled on stale reads.
- Deadlocks: the order in which locks are taken is not modelled.
- The relay, feed sequence numbers, read-model tables and the client's sync engine.
- Floating point: centroids are over reals.
