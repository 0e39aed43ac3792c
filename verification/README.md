# Token accounting from log bytes to hub rows

This project models the token-accounting pipeline of tokemon: a polling agent reads append-only provider logs, turns
cumulative counters into usage events, uploads them at least once, and a hub stores them so that every token counts
exactly once. It also models the single-flight cache in front of the hub's aggregates and a few self-contained
algorithms of the pipeline. `dafny verify dfyconfig.toml` checks everything.

## How the modules fit together

- **Parser.** `RecordReader` frames newline-delimited records. `CodexUsage` holds the counter arithmetic, `CodexLog`
  the parse state, one record, one whole parse, and the loop that computes it. `CodexResume` compares a parse cut into
  polls with one full parse, `CodexRepeats` shows where the two differ. `CodexAccounting` says what the totals of the
  events add up to, `CodexLeaps` and `CodexUsages` what all their columns do, `CodexContext` what an event is attributed
  to, `CodexForks` which parent counters a fork starts from, and `CodexCommitted` what a saved cursor stands for.
  `SourceCache` is the cache that skips unchanged logs.
- **Hub.** `HubTable` is the events table, its two constraints, and the simple specification of ingest: drop every
  conflicting row, then insert. `HubIngest` is the code, SQL statement by SQL statement. `HubReplay` characterizes a
  whole sequence of ingests by its last writers. `HubTotals` is the account total.
- **Agent.** `AgentState` is the committed state, `Batching` the splitter, `ClientIngest` the upload in several
  requests, `AgentRunner` one call of the `pass` closure, `AgentIdle` its fixed point. `AgentPass` is the whole system as a state machine in which
  appends, passes, partial uploads, lost replies and crashes interleave; `ExactlyOnce` proves its safety over all runs
  and `AccountTotal` carries that through to the number the hub shows.
- **Cache and leaves.** `SingleFlight`, `Protobuf`, `SqliteHandles`, `LineScan`, `Calendar`, `ShareTimeline` with
  `TimelineDates`.

## What the results assume

- Digests are injective: an event ID is modelled by the fields that are hashed, a fingerprint by the event, other
  digests by their text.
- JSON decoding, time parsing and text checks are functions of their input; they are parameters (`Env`).
- Logs only grow. The cache identity of a log may change from one parse to the next, its fork baseline does not. A file
  signature determines the content it was taken from.
- `ExactlyOnce` is about logs that report no repeat key twice (`NothingRepeated`; cumulative records have none), whose
  event IDs fix the event, and whose events differ in the hub's deduplication key (`Unambiguous`). `AccountTotal` asks
  in addition that all records are cumulative. For logs with repeats `IncrementalEqualsFull` gives the exact difference
  between the events of polls and of a full parse, and `PollingAccountIff` when it matters to the account.
- Integers are unbounded. `NormalizeFitsInt64` states when the one addition that builds a counter stays within 64 bits.

## Where the code and its comments disagree

- The comment at internal/adapters/codex/codex.go:563-567 says that repeats on the two sides of a poll boundary are
  absorbed by the hub, so account totals are unaffected. The repeat key leaves out cache writes and is taken before an
  inherited prefix is subtracted, the hub's key is not, and an event that is uploaded without a total has no key there.
  `RepeatAbsorbedIff` gives the exact condition for one repeat, `PollingAccountIff` the exact condition for the account
  of any log under any polls. `CacheWriteRepeatCountedTwice` and `PrefixRepeatCountedTwice` are the two families that are
  counted twice, and `TwentyOrForty` a log worth 20 tokens in one poll and 40 in two.
- The comment at internal/database/database.go:2568-2572 says that the guard validates the full canonical shape. It
  does not look between the seconds and the final Z. `FastPathAgreesIff` says when that matters.
- The splitter leaves the closing `]}` out of its count (internal/agent/client.go:154) while the hub measures the whole
  body against the same limit (internal/api/server.go:1467-1471). `FullBodyIsRefusedIff` gives the two lengths of a
  single event that the agent sends and the hub never accepts; `SmallEventsAreNotRefused` bounds the events for which
  no batch gets that far, and `SmallBoundIsExact` shows that the bound cannot be raised.
- A snapshot cache hit stands for the parse it replaces only if no parse that reports events returns the cursor it was
  asked with (`HitIsParseIff`). Adapters that return a constant cursor do not meet this: `ConstantCursorHidesEvents`.
- `Ingest` documents no outcome in which a batch is stored and an error is returned, but the total is read once more
  after the commit (internal/database/database.go:832-836). The caller then skips the invalidation
  (internal/api/server.go:1480-1487), so a stale value may be served until it expires; `NoStaleHit` speaks of
  invalidations that ran.

A failed or cancelled computation is cached by the read-through cache like a successful one
(internal/api/server.go:1791); `HitServesLastInstalled` says until when it is served.

## Model

| member | source | states |
|---|---|---|
| `CodexUsage.NormalizeFitsInt64` | internal/adapters/codex/codex.go:184-209 | For counters in the 64-bit range the normalized counters stay in range exactly when a missing total can be rebuilt from input and output without overflow |
| `CodexUsage.NormalizeKeepsUsage` | internal/adapters/codex/codex.go:184-209 | Counters that make sense are read as they are, cached input under either of its two names, and a missing total is input and output together |
| `CodexUsage.NormalizeBounds` | internal/adapters/codex/codex.go:184-209 | A negative counter counts as zero, a part larger than its whole as the whole, and any other counter as itself |
| `CodexUsage.DeltaFromZero` | internal/adapters/codex/codex.go:211-248 | The delta of a cumulative snapshot without a predecessor is what the same counters report as a single usage |
| `CodexUsage.DeltasTelescope` | internal/adapters/codex/codex.go:211-224 | Over a run in which no counter shrinks and no part outgrows its whole, the deltas sum, counter by counter, to the last snapshot less the one before the run, cached input apart from the rest of the input |
| `CodexUsage.DeltasTelescopeIff` | internal/adapters/codex/codex.go:211-224 | For any snapshots the deltas of input, output, cache writes and total never sum to less than the net growth, and to exactly it if and only if that counter never shrinks |
| `CodexUsage.PrefixCell.SubtractInheritedPrefix` | internal/adapters/codex/codex.go:250-266 | The value loses and the remaining prefix loses what both hold, so value plus prefix is conserved component by component |
| `CodexUsage.PrefixSubtractedOnce` | internal/adapters/codex/codex.go:250-266 | However raw usage is split into records, the adjusted values sum to the raw sum less the baseline, stopped at zero, and the remainder is the baseline less the raw sum |
| `RecordReader.Reader.ReadSlice` | internal/adapters/adapter.go:29-39 | A slice is the next bytes of the file, ends at a newline, at a full buffer or at the end of the file, and never passes the end of the record |
| `RecordReader.Reader.ReadRecordLimit` | internal/adapters/adapter.go:26-42 | Whatever the buffer size, the record is exactly the bytes up to its newline or the end of the file, and it is an error exactly when it is longer than the limit |
| `RecordReader.LineEndStable` | internal/adapters/adapter.go:26-42 | A complete record of a file is found unchanged in every extension of the file |
| `CodexLog.InheritedCumulativeUsage` | internal/adapters/codex/codex.go:377-419 | The scan of the parent log finds the last cumulative snapshot taken no later than the fork; an unreadable fork time finds nothing, and a scan that stops on an error or an oversized line is an error whatever it found |
| `CodexLog.ParseLines` | internal/adapters/codex/codex.go:585-615 | The record loop over the buffered reader consumes exactly the complete records, stops before an unterminated tail, and fails exactly when some record exceeds the limit |
| `CodexLog.ParseLogUncached` | internal/adapters/codex/codex.go:517-755 | A parse resumes only from a state of this version, identity and cache identity inside the file, and otherwise starts over; its events and cursor are those of the specification `Parse` |
| `CodexLog.StableSession` | internal/adapters/codex/codex.go:703 | An event always has a session: the log's own, and the digest of its path exactly when the log names none |
| `CodexResume.ParseInTwoSteps` | internal/adapters/codex/codex.go:585-615 | A parse that stopped at the end of a file, in the middle of a record or not, goes on where one over the longer file would be |
| `CodexResume.ParseInStep` | internal/adapters/codex/codex.go:529-579 | A resumed parse keeps offset, line, saved state and reported events in step with an uninterrupted one, repeats aside |
| `CodexResume.PollsAgree` | internal/adapters/codex/codex.go:529-579 | After any number of polls at any byte positions, failed ones included, cursor and events stand for the full parse of what the last successful poll saw |
| `CodexResume.IncrementalEqualsFull` | internal/adapters/codex/codex.go:529-567 | The cursor of a polled log is the cursor of one full parse, and the polled events without those whose repeat key occurred before are the events of the full parse |
| `CodexResume.RepeatFreeIncrementalIsExact` | internal/adapters/codex/codex.go:529-567 | For a log in which no repeat key occurs twice any polls, cut anywhere, give the same events, line numbers and cursor as one full parse |
| `CodexResume.CumulativeIncrementalIsExact` | internal/adapters/codex/codex.go:529-532 | In particular so for every log of cumulative records |
| `CodexResume.EmittingMovesCursor` | internal/adapters/codex/codex.go:736-755 | A parse that reports an event returns a cursor other than the one it was asked for |
| `CodexResume.EventIdsAreDistinct` | internal/adapters/codex/codex.go:714-717 | No two events of one log share an ID |
| `CodexResume.PolledLinesIncrease` | internal/adapters/codex/codex.go:714-717 | The events of any polls are on strictly increasing lines up to the line of the cursor, so no two of them share an ID |
| `CodexRepeats.RepeatAbsorbedIff` | internal/adapters/codex/codex.go:563-567 | Inside and outside an inherited prefix the hub gives two occurrences of a repeat key one index entry if and only if they are counted alike and their uploaded total is not dropped as contradictory |
| `CodexRepeats.KeysCompare` | internal/adapters/codex/codex.go:706-712 | Two single usages share a repeat key exactly when they agree in session, time, provider, model and every counter but cache writes |
| `CodexRepeats.AbsorbedOutsidePrefixIff` | internal/adapters/codex/codex.go:563-567 | Outside a prefix that is so if and only if the two records agree in cache writes and the total covers input, output and cache writes |
| `CodexRepeats.SecondOccurrenceCountsIff` | internal/adapters/codex/codex.go:706-713 | A second event of a repeat key changes the account if and only if its uploaded tokens differ from the first one's and its uploaded total is known and positive |
| `CodexRepeats.PollingAccountIff` | internal/adapters/codex/codex.go:563-567 | For every log and every polls the account is at least that of a full parse, and equal if and only if every repeat that straddles a poll boundary shares an index entry with an event of the full parse or brings no tokens |
| `CodexRepeats.StraddlingRepeatIsCounted` | internal/adapters/codex/codex.go:563-567 | For every log and every polls a straddling repeat that is not harmless adds at least its total to the account |
| `CodexRepeats.RepeatCountedTwice` | internal/adapters/codex/codex.go:685-713 | Wherever it is polled, a repeat that only its first occurrence could absorb adds its total unless the two are counted alike |
| `CodexRepeats.CacheWriteRepeatCountedTwice` | internal/adapters/codex/codex.go:706-713 | Outside a prefix every such repeat that differs in cache writes, under a total that covers its components, is counted twice |
| `CodexRepeats.PrefixRepeatCountedTwice` | internal/adapters/codex/codex.go:685-713 | Inside a prefix every such repeat of the same snapshot is counted twice when the prefix left is neither used up nor enough for both |
| `CodexRepeats.TwoLinesInPrefix` | internal/adapters/codex/codex.go:685-713 | For one record read twice in a prefix that is neither empty nor enough for both, one poll and two polls bring exactly these two different totals |
| `CodexRepeats.TwentyOrForty` | internal/adapters/codex/codex.go:563-567 | A concrete log brings 20 tokens to the account in one poll and 40 in two |
| `CodexAccounting.SnapshotCounted` | internal/adapters/codex/codex.go:654-684 | The total of one cumulative snapshot contributes its growth over the previous one, all of itself after a reset, and within a copied prefix only what exceeds the baseline; the other columns are those of `CodexLeaps.SnapshotLeaps` |
| `CodexAccounting.EventsAddUp` | internal/adapters/codex/codex.go:654-684 | From any state of the parser the totals of the events are the sums of the reset-delimited segments, less what was counted before and less the fork baseline once it is passed |
| `CodexAccounting.LogAddsUp` | internal/adapters/codex/codex.go:654-684 | The event totals of a whole log are the last totals of its segments, summed, less the parent's total at the fork |
| `CodexAccounting.LatestSnapshotAt` | internal/adapters/codex/codex.go:392-418 | The baseline is the normalized total of one record of the parent that is not after the fork, and no later record qualifies |
| `CodexAccounting.ParentPlusChild` | internal/adapters/codex/codex.go:377-442 | The parent's records up to the snapshot the baseline came from and the whole child log together report the child's final cumulative total |
| `CodexLeaps.SnapshotLeaps` | internal/adapters/codex/codex.go:654-684 | The event of a cumulative snapshot holds, column by column, the rise of its counters over the snapshot before it, over zero after a reset, or over the baseline at the fork; a copied snapshot reports zeros and changes nothing, and only a snapshot that brings nothing is silent |
| `CodexLeaps.ContradictoryIff` | internal/usage/event.go:186-216 | The event of a cumulative record contradicts itself, and so loses its total on the way to the hub, if and only if the rises of input, output and cache writes exceed the rise of the total |
| `CodexLeaps.ComponentsAddUp` | internal/adapters/codex/codex.go:654-684 | From any state of the parser each column of the events (all input, cached input, output, reasoning, cache writes, total, known total) sums to what the counters of the records rise by, restarting at every reset and counting from the baseline after a fork |
| `CodexLeaps.LogComponentsAddUp` | internal/adapters/codex/codex.go:654-684 | The same for the full parse of a whole log |
| `CodexLeaps.RunTelescopesIff` | internal/adapters/codex/codex.go:672-682 | In a run without a reset the events report each of input, output and cache writes as its last value less its first if and only if that counter never shrinks, and the total always |
| `CodexLeaps.PartsTelescope` | internal/adapters/codex/codex.go:211-224 | Cached input and reasoning telescope too as long as no part outgrows its whole |
| `CodexLeaps.ResetStartsOver` | internal/adapters/codex/codex.go:672-677 | After a smaller total the rises are those of a log that starts there |
| `CodexUsages.SingleUsagesAddUp` | internal/adapters/codex/codex.go:685-697 | The events of a log of single usages without repeats sum, in each of all input, output, cache writes and total, to what the log reports beyond the parent's counter at the fork, and to all of it without a fork |
| `CodexContext.EventAttribution` | internal/adapters/codex/codex.go:617-733 | Every event is the event of one token record, dated by it, numbered by its line, and attributed to the first session, the last provider and project and the record's own or else the last model before it; its ID hashes machine, original session, line and time |
| `CodexForks.SnapshotAtForkIff` | internal/adapters/codex/codex.go:392-418 | The baseline is the last snapshot of the parent dated no later than the fork; later and undated records leave it alone |
| `CodexForks.BaselineIff` | internal/adapters/codex/codex.go:421-442 | A log has a baseline exactly when its metadata names a parent, in the order of the four names, and a readable fork time, the parent is another known log that could be read to its end, and it has a snapshot by then |
| `CodexForks.ForkResolvedOnce` | internal/adapters/codex/codex.go:617-631 | The baseline in force is that of the source metadata or else of the first session record that resolves one, for good |
| `CodexForks.LateForkStartsOver` | internal/adapters/codex/codex.go:621-631 | A session record that resolves the fork late starts the count over: snapshots are copies until they pass the baseline and are counted from it then |
| `CodexForks.ReportsNothingIff` | internal/adapters/codex/codex.go:647-701 | A token record reports nothing exactly when its time is unreadable, it has no counters, its single usage is zero, or its cumulative counters are zero and nothing came before them |
| `CodexForks.StartsOverOrGoesOn` | internal/adapters/codex/codex.go:528-555 | A cursor is used exactly when its state has this version and cache identity, its position lies in the file and its identity is the log's; any other parse is one from the beginning, and a resumed one never reads what lies before it |
| `CodexCommitted.EventsGrow` | internal/adapters/codex/codex.go:585-615 | Appending to a log only appends to the events of its full parse |
| `CodexCommitted.CursorStandsForRecords` | internal/adapters/codex/codex.go:596-606 | The cursor a parse leaves under any cache identity is, now and after any append, the end of a full parse of the bytes before it, and covers exactly the events reported |
| `CodexCommitted.CollectsTheRest` | internal/adapters/codex/codex.go:529-579 | For a log without repeats a parse from a saved cursor reports exactly the events of the full parse that the cursor does not cover, or all of them when the cache identity changed, and its cursor covers them all |
| `CodexCommitted.ReparseIsIdle` | internal/adapters/codex/codex.go:529-615 | Parsing an unchanged log again from the cursor of the last parse reports nothing and leaves the cursor alone |
| `SourceCache.SnapshotCache.Lookup` | internal/adapters/cache.go:63-82 | A hit needs the same signature and identity; a success is served only for the cursor it returned, an error only for the cursor it was asked with |
| `SourceCache.SnapshotCache.Store` | internal/adapters/cache.go:86-97 | Cursor and error of a parse are remembered, cancelled parses never |
| `SourceCache.SnapshotCache.Prune` | internal/adapters/cache.go:101-113 | Exactly the entries of the given sources remain |
| `SourceCache.HitIsParseIff` | internal/adapters/cache.go:63-97 | For any parser whose cursors are stable every hit of every cache filled from it equals the parse it replaces if and only if no parse that reports events returns the cursor it was asked with |
| `SourceCache.StandingStillHidesEvents` | internal/adapters/cache.go:63-97 | After a parse that reported events without moving its cursor the next identical request is a hit without events, in any cache |
| `SourceCache.CodexHitIsTransparent` | internal/adapters/codex/codex.go:444-460 | For Codex logs every hit of every cache filled from the parser is what the uncached parse of the same request returns, errors included |
| `SourceCache.ParseLog` | internal/adapters/codex/codex.go:444-460 | The cached parse is answered and changes the cache as one poll of the trace does |
| `SourceCache.EveryPollIsAnswered` | internal/adapters/cache.go:63-113 | In any sequence of polls, file changes, cancellations and sweeps of a transparent parser a poll that is not cancelled is answered what the uncached parse returns |
| `SourceCache.UnchangedIsNotParsedAgain` | internal/adapters/cache.go:63-97 | After a poll, the next request for the unchanged source with the cursor it returned, or the same request after an error, is a hit without events, or the same error |
| `SourceCache.CodexPollIsAnswered` | internal/adapters/codex/codex.go:444-460 | For Codex logs every poll of any such sequence withholds only what the cursor of its request covers |
| `SourceCache.ConstantCursorHidesEvents` | internal/adapters/cache.go:78-81 | An adapter with one cursor per source hides nothing if and only if it never reports an event when asked with that cursor |
| `HubIngest.FindDetailedCodexDuplicate` | internal/database/database.go:921-941 | Finds a Codex row with the same deduplication columns, two missing sessions counting as equal, if and only if there is one |
| `HubIngest.RefreshUsageEvent` | internal/database/database.go:852-914 | When the insert was ignored the refresh always finds a row, never violates a constraint, and leaves the event's row in place of every row that shared its ID or its index entry |
| `HubIngest.IngestRow` | internal/database/database.go:742-827 | Suppress, supersede, insert, refresh and merge together equal "drop every conflicting row, then insert" on every table that satisfies both constraints; the row counts as accepted exactly when nothing held its place, and the error for an ignored event without a stored row cannot occur |
| `HubIngest.IngestEvent` | internal/database/database.go:732-828 | One turn of the loop either fails, leaving the transaction to roll back, or extends the ingested prefix by one event and counts it as accepted, duplicate or rejected |
| `HubIngest.RunTransaction` | internal/database/database.go:727-831 | The transaction fails exactly when the engine fails a statement of a valid event or the commit; otherwise it is the fold of the specification over the valid events |
| `HubIngest.Store.Ingest` | internal/database/database.go:720-840 | A batch is ingested whole or not at all; an error means not at all, unless only the read of the total after the commit failed; both constraints and the no-double-count invariant are kept and the counts are exact |
| `HubIngest.SupersededThenStored` | internal/database/database.go:756-773 | Deleting superseded aggregates first and inserting or replacing afterwards is the one-step specification, and an insert is ignored exactly when the event is not fresh |
| `HubTable.AcceptAllKeepsConstraints` | internal/database/database.go:609-621 | Any sequence of ingests keeps the primary key and the partial unique index |
| `HubTable.RefusedIff` | internal/database/database.go:742-755 | An event is refused exactly when it is a Codex event of a session without input, output and cache columns and the session has a row with one of them; any other event is stored |
| `HubTable.RemovedIff` | internal/database/database.go:742-827 | A stored row of another ID goes exactly when both are Codex rows of one session and machine and either agree in instant, provider, model, tool and six known token columns, or the new one has input and total and the old one neither input, output nor cache columns; every other row stays as it is |
| `HubTable.SessionsCountedOnce` | internal/database/database.go:742-773 | In every reachable table no Codex session of a machine holds both a row with input, output, cache read and cache write all unknown and a row with input and total known |
| `HubTable.DetailsRemoveAggregates` | internal/database/database.go:756-773 | After an event with session, input and total no row of its session without input, output and cache columns is left |
| `HubTable.NoTotalKeepsAggregates` | internal/database/database.go:756-773 | An event without a total never removes or changes an aggregate stored under another ID |
| `HubTable.RowReadsBack` | internal/database/database.go:2508-2553 | Every column of an ingested event is read back, so different events make different rows |
| `HubReplay.DetailsPersist` | internal/database/database.go:742-755 | A session has details after a sequence of ingests exactly when it had them before or one of the rows brought them; nothing takes them away |
| `HubReplay.AggregatesFrozen` | internal/database/database.go:742-755 | Once a session has a row with any component, no row of it without input, output and cache columns is added or changed |
| `HubReplay.LastWriter` | internal/database/database.go:732-828 | A row is in the final table if and only if it was there or was written by an unsuppressed event, and no later unsuppressed event displaced it by ID, deduplication key or supersession |
| `HubReplay.ReplayIsIdempotent` | internal/database/database.go:732-828 | If an event ID fixes machine, adapter and session, ingesting any sequence a second time changes nothing |
| `HubReplay.RetryAfterPartialUpload` | internal/agent/client.go:119-124 | Sending everything again after a prefix was ingested leaves the same table as sending it once |
| `HubTotals.LifetimeAdds` | internal/database/database.go:1089-1095 | Storing a new row adds exactly its known total to the account |
| `HubTotals.IndependentRows` | internal/database/database.go:1089-1095 | Rows that do not conflict are all stored, nothing else is, and the account total is the sum of theirs |
| `HubTotals.AcceptEntry` | internal/database/database.go:609-621 | A row under a new ID changes the account exactly by the total of an index entry that was not held before |
| `HubTotals.AccountOfEntries` | internal/database/database.go:1089-1095 | However many detailed rows share an index entry the account counts each entry once |
| `Events.SanitizeOutbound` | internal/usage/event.go:210-216 | A contradictory total becomes unknown and the accuracy with it; the ID and everything else are kept, and an event with a consistent total is uploaded as it is |
| `AgentState.StateStore.Snapshot` | internal/agent/state.go:136-166 | Exactly the committed cursors of this machine, each with its value and none of another machine, or an error when they cannot be read |
| `AgentState.StateStore.Pending` | internal/agent/state.go:198-262 | However the lookups are chunked, exactly the events without an equal committed fingerprint remain, in order; a failed read is an error unless there is nothing to look up |
| `AgentState.StateStore.Commit` | internal/agent/state.go:269-336 | Cursors of successful reports and all fingerprints are saved together or not at all, as `SavedCursors` and `SavedPrints` say; it fails exactly on an engine error, a blank machine or a blank event ID |
| `AgentState.CommitSavesReports` | internal/agent/state.go:282-312 | Against the current snapshot every successful report of a source reported once has its row afterwards, new or not, with its cursor and an empty identity filled in from the source or else from adapter and path |
| `AgentState.OtherRowsStay` | internal/agent/state.go:282-312 | A cursor row without a successful report is not touched |
| `AgentState.CommitSavesPrints` | internal/agent/state.go:314-331 | The fingerprint row of a committed event holds the last event of that ID |
| `AgentState.OtherPrintsStay` | internal/agent/state.go:314-331 | Fingerprint rows of other events and machines are not touched |
| `AgentState.PendingIff` | internal/agent/state.go:250-262 | An event is pending, as often as it was collected, unless its committed fingerprint is that of the same event |
| `AgentState.PendingInOrder` | internal/agent/state.go:250-262 | Pending events keep their order |
| `AgentState.CommittedAreNotPending` | internal/agent/state.go:198-262 | Committed events are not pending again, as long as an ID stands for one event |
| `AgentState.SkippingIsSaving` | internal/agent/state.go:291-293 | Leaving unchanged cursor rows alone saves what rewriting every row would, as long as the snapshot is current and no source is reported twice; what is saved is said by `CommitSavesReports` |
| `AgentState.PrintsComeFromCommits` | internal/agent/state.go:314-331 | A saved fingerprint was there before or belongs to an event of this commit |
| `Batching.SplitIngestBatches` | internal/agent/client.go:153-183 | The batches concatenate to the input, each within both limits and non-empty, none could take the next event; it fails exactly when one event alone exceeds the limit |
| `Batching.FitsIff` | internal/agent/client.go:153-174 | A batch is within the limits of the splitter exactly when it has at most 100 events and its JSON body, without the two closing characters, at most four mebibytes |
| `Batching.FewestBatches` | internal/agent/client.go:153-183 | No order-preserving split within the limits uses fewer batches |
| `Batching.FullBodyIsRefusedIff` | internal/agent/client.go:154-174 | A single event passes the splitter and is refused by the hub exactly at the two lengths the uncounted closing bytes make the difference for |
| `Batching.SmallEventsAreNotRefused` | internal/agent/client.go:83-88 | If no event exceeds 41941 bytes every batch within the limits is within the hub's limit too |
| `Batching.SmallBoundIsExact` | internal/agent/client.go:83-88 | One byte more would not do: a batch of such events fits the splitter and is refused by the hub |
| `ClientIngest.PostBatch` | internal/api/server.go:1463-1494 | The hub refuses a whole batch for its size, its count or one invalid event, and otherwise ingests all of it even if the reply is lost; an accepted batch has no rejected events |
| `ClientIngest.Prepare` | internal/agent/client.go:108-121 | Nothing is sent unless there are events, all pass the privacy check and each fits a request of its own |
| `ClientIngest.SendBatches` | internal/agent/client.go:122-142 | Wherever the upload stops the hub has ingested a prefix of the batches; it succeeds exactly when every batch is admitted and answered, with the counts summed |
| `ClientIngest.Ingest` | internal/agent/client.go:104-143 | Whatever the network does the hub has ingested the first events in order, none if the upload was not sendable, all on success; it succeeds when every event is valid and small and every request and reply arrives |
| `ClientIngest.RetriesCompleteTheUpload` | internal/agent/client.go:104-143 | After any number of attempts that failed part of the way, the one that succeeds leaves the hub as if it had been the first |
| `AgentRunner.CollectWithCursors` | internal/adapters/adapter.go:125-154 | Discoveries and their sources are taken one by one, each source parsed from its committed cursor; events and successful reports are those of the specification, every source has exactly one report and every failed discovery one without a path |
| `AgentRunner.Gather` | cmd/tokemon/main.go:613-696 | Snapshot, collection and filter produce what the specification says of the committed state and change nothing; only a failed read of the state stops them |
| `AgentRunner.Pass` | cmd/tokemon/main.go:609-727 | A pass that commits has ingested everything pending and saved the cursors and fingerprints of the specification, which `AgentIdle.CommittedCursor` reads off; a pass that stops anywhere has changed nothing but the hub, by a prefix of what was pending; a pass that meets no failure commits and reports the sources it could not parse |
| `AgentRunner.Deliver` | cmd/tokemon/main.go:693-715 | Committed state changes exactly when the commit succeeds, and only after the hub has ingested everything pending |
| `AgentRunner.FailuresSaveNothing` | internal/agent/state.go:282-285 | Failed reports leave their cursors as they were |
| `AgentRunner.StoppedIsSound` | cmd/tokemon/main.go:693-725 | A pass that stops after any number of ingested events leaves a system whose cursors cover only delivered events |
| `AgentRunner.CompletedIsSound` | cmd/tokemon/main.go:609-727 | So does a pass that commits |
| `AgentRunner.CompletedPassCatchesUp` | cmd/tokemon/main.go:609-727 | From any sound state, however many crashes led to it, one completed pass that can read every log makes the hub the upsert fold of a full parse of every log |
| `AgentIdle.CommittedCursor` | internal/adapters/adapter.go:136-151 | After a completed pass the committed cursor of a source is the one its parse returned, or the one before if it could not be parsed |
| `AgentIdle.SecondPassIsIdle` | cmd/tokemon/main.go:609-727 | After a completed pass, whatever logs it could read, a second one over the same logs under the same identities collects no event, and completing it changes nothing at all |
| `AgentIdle.SecondPassHasNoEffect` | cmd/tokemon/main.go:609-727 | So the pass that follows leaves logs, hub, cursors and fingerprints as they are, whether it commits or stops |
| `ExactlyOnce.EmittedIsValidIff` | internal/usage/event.go:93-183 | The hub accepts the uploaded form of any event of the parser if and only if its texts pass, its machine is named and its time is between the epoch and a day from now; its counters never stand in the way |
| `ExactlyOnce.AcceptDelivers` | internal/database/database.go:732-828 | Ingesting an event of the logs stores its row, disturbs no other and brings in nothing else |
| `ExactlyOnce.CollectReportsTheRest` | internal/adapters/adapter.go:136-151 | Under any cache identity a collection from a sound cursor, or from none, reports every event of the log that is not delivered yet and none that is not the log's |
| `ExactlyOnce.FilterKeepsInv` | internal/agent/state.go:250-262 | Dropping events with a committed fingerprint drops only delivered ones |
| `ExactlyOnce.UploadKeepsInv` | internal/agent/client.go:122-142 | An acknowledged batch keeps the invariant |
| `ExactlyOnce.LoseReplyKeepsInv` | internal/agent/client.go:122-127 | So does a batch that was ingested although the agent saw an error |
| `ExactlyOnce.CommitKeepsInv` | internal/agent/state.go:264-336 | A commit after everything pending was acknowledged saves only cursors and fingerprints of delivered events |
| `ExactlyOnce.StepKeepsInv` | cmd/tokemon/main.go:609-727 | Every step of the system, crash and append included, keeps the invariant |
| `ExactlyOnce.NoCursorCoversALostEvent` | cmd/tokemon/main.go:609-727 | After any run every committed cursor is the end of a full parse of a prefix of its log, and the hub holds every event of that prefix |
| `ExactlyOnce.NothingIsInvented` | cmd/tokemon/main.go:609-727 | After any run every row of the hub is the uploaded form of an event of some log |
| `ExactlyOnce.CommittedHubIsTheFold` | cmd/tokemon/main.go:609-727 | After any run that ends with a committed pass over all logs as they are, the hub equals the upsert fold of a full parse of every log, in any order |
| `AccountTotal.FoldTotal` | internal/database/database.go:1089-1095 | That fold holds, as its account total, what the counters of all logs account for, less the rises of the total that input, output and cache writes outgrow |
| `AccountTotal.KnownTotalsAddUp` | internal/usage/event.go:186-216 | The known totals of the uploaded events of a log sum to its segment sums less its fork baseline, less those contradictory rises |
| `AccountTotal.AccountTotalIsAccounted` | cmd/tokemon/main.go:609-727 | End to end: after any such run the account total is the sum over the logs of their segment sums less fork baselines, less the rises of a total that the rises of input, output and cache writes outgrow; both are read off the records, and nothing else is lost or counted twice |
| `SingleFlight.Cache.BeginLocked` | internal/api/server.go:1764-1783 | The first critical section serves an unexpired entry, joins a computation in flight, or starts one under the current generation |
| `SingleFlight.Cache.FinishLocked` | internal/api/server.go:1787-1793 | The second one gives back the ready channel and installs the answer only if no invalidation came between |
| `SingleFlight.Cache.InvalidateLocked` | internal/api/server.go:1815-1820 | Invalidation forgets the entry and starts a new generation, leaving a computation in flight alone |
| `SingleFlight.StepKeepsInv` | internal/api/server.go:1762-1820 | Every interleaved step of readers, computations and ingests, among them ingests that fail after their commit, keeps freshness, channel ownership and pending wake-ups |
| `SingleFlight.NoStaleHit` | internal/api/server.go:1480-1492 | In every interleaving, once an ingest's invalidation has run no later hit serves a value read before that ingest committed |
| `SingleFlight.OneComputation` | internal/api/server.go:1829-1864 | At most one computation is in flight |
| `SingleFlight.ClosedOnceByCreator` | internal/api/server.go:1787-1794 | The channel a computation reads back and closes is the one it made, and it is never closed twice |
| `SingleFlight.WaitersAreWoken` | internal/api/server.go:1770-1778 | A waiting reader can go on, or a thread that will close its channel can |
| `SingleFlight.HitServesLastInstalled` | internal/api/server.go:1764-1793 | In every run a reader is served a cached answer, failed or not, if and only if it was the last one installed, no invalidation ran since and it has not expired |
| `SingleFlight.ReadersReturnWhatTheyRead` | internal/api/server.go:1762-1797 | In every run a reader returns the answer it was handed when it last entered, or the one it has read itself since, with the versions and the outcome of its own reads, and then never one older than the store was when it entered |
| `Protobuf.ConsumeVarint` | internal/adapters/antigravity/antigravity.go:472-484 | Accepts exactly the encodings of at most ten bytes whose value fits 64 bits, and returns their base-128 value and length whatever follows |
| `Protobuf.VarintRoundTrip` | internal/adapters/antigravity/antigravity.go:472-484 | Every 64-bit value survives encoding and decoding, with any bytes after it |
| `Protobuf.ProtobufField` | internal/adapters/antigravity/antigravity.go:427-470 | The walk terminates on every input and returns the first field wanted, or nothing at the first malformed one |
| `Protobuf.FieldFound` | internal/adapters/antigravity/antigravity.go:427-470 | On every encoded message the walk returns the first field with the wanted number and type, or none if there is none |
| `Protobuf.ProtobufBytesField` | internal/adapters/antigravity/antigravity.go:394-406 | Descends the path one bytes field at a time; an empty path finds nothing |
| `Protobuf.NestedFieldFound` | internal/adapters/antigravity/antigravity.go:394-406 | Each step of the descent goes into the first field of its number of the enclosing encoded message |
| `Protobuf.ProtobufVarintField` | internal/adapters/antigravity/antigravity.go:408-425 | Descends through bytes fields and decodes the varint at the end of the path |
| `Protobuf.VarintFieldValue` | internal/adapters/antigravity/antigravity.go:408-425 | On an encoded message the value of the first varint field of that number comes back |
| `SqliteHandles.SQLiteHandles.Get` | internal/adapters/sqlite.go:98-144 | A handle is the cached one exactly when file identity is known, unchanged and alive, else freshly opened or none; the list of paths becomes the recency list with this path last and at most max of them; no connection leaks |
| `SqliteHandles.SQLiteHandles.Drop` | internal/adapters/sqlite.go:146-152 | Exactly this path leaves map and list, and its connection is closed |
| `SqliteHandles.SQLiteHandles.RemoveLocked` | internal/adapters/sqlite.go:155-160 | The handle's connection is closed, what closing reports is returned, and its own list element, no other, is removed |
| `SqliteHandles.SQLiteHandles.Close` | internal/adapters/sqlite.go:166-176 | Every connection is closed and both structures are empty; an error is reported exactly when some connection failed to close |
| `SqliteHandles.LeastRecentlyUsedFirst` | internal/adapters/sqlite.go:98-144 | Over every trace the live paths are at most max and ordered by last use |
| `SqliteHandles.EvictsLeastRecentlyUsed` | internal/adapters/sqlite.go:130-140 | The path a use evicts was used before every path that stays |
| `SqliteHandles.EvictsOnlyWhenFull` | internal/adapters/sqlite.go:130-140 | A use evicts only for a path that was not live, only from a full cache, and only one path |
| `LineScan.PreviousLineStart` | internal/adapters/claude/claude.go:229-269 | Whatever the chunk size, from just after a newline the scan returns the one start of the line that ends there; it terminates, and other offsets return themselves, zero or an error |
| `Calendar.IsCalendarDate` | internal/database/database.go:2590-2611 | Accepts exactly the valid dates of the Gregorian calendar (section 5.7 of RFC 3339) |
| `Calendar.GregorianDates` | internal/database/database.go:2590-2611 | A date is valid exactly when its month has such a day: the thirty-first in seven months, the thirtieth everywhere but in February, the twenty-ninth of February in leap years |
| `Calendar.LocalDayBucket` | internal/database/database.go:2566-2585 | The fast path is taken exactly on canonical UTC timestamps and returns the date prefix; everything else is parsed and formatted |
| `Calendar.DayNumberRoundTrip` | internal/database/database.go:2580-2584 | Every day number is the number of the valid date it converts to |
| `Calendar.CivilDateRoundTrip` | internal/database/database.go:2580-2584 | Every valid date is the date of its day number |
| `Calendar.YearsBefore` | internal/database/database.go:2580-2584 | Years have 365 days and a leap day every fourth year, but not every hundredth, but every four-hundredth |
| `Calendar.FastPathRefines` | internal/database/database.go:2573-2579 | On every canonical timestamp the parser accepts the prefix is the UTC day of the parsed instant |
| `Calendar.FastPathAgreesIff` | internal/database/database.go:2573-2584 | On canonical timestamps the fast path agrees with parse-then-format if and only if what stands between the seconds and the Z is nothing or a point or comma and digits |
| `Calendar.FastPathAcceptsMore` | internal/database/database.go:2568-2579 | Any canonical timestamp with one stray character is bucketed although the parser rejects it |
| `Calendar.OffsetShifts` | internal/database/database.go:2555-2557 | The same local time with a positive numeric offset is an earlier instant by that offset, with a negative one a later |
| `ShareTimeline.BuildSeries` | internal/database/database.go:2320-2343 | The first five groups are series of their own and the rest is summed into "Other" |
| `ShareTimeline.AddToPoint` | internal/database/database.go:2377-2391 | A row adds its tokens to its bucket and to its own series or "Other"; an unknown total only counts as an unknown event |
| `ShareTimeline.CollectPoints` | internal/database/database.go:2355-2392 | The map of points holds, for every bucket with rows and no other, what those rows add up to |
| `ShareTimeline.FillPoints` | internal/database/database.go:2243-2258 | One point per bucket of the range in strictly increasing order without gaps, zero where there are no rows |
| `ShareTimeline.WindowIsFilled` | internal/database/database.go:2220-2241 | The filled range contains the bucket of every instant of the window, for all three kinds of period |
| `ShareTimeline.AnalyticsShareTimeline` | internal/database/database.go:2319-2442 | Series and consecutive points for the whole window, each point what its rows make it; what a point is on the calendar is said by `TimelineDates` |
| `TimelineDates.SameBucketIff` | internal/database/database.go:2400-2410 | Two instants are drawn in one point exactly when they share year and month in UTC (all time), the UTC date (days), or date and hour (24 hours) |
| `TimelineDates.NextBucketIff` | internal/database/database.go:2220-2241 | The next point is the next calendar month, date or hour, December to January and the last hour of a day included, so a timeline without gaps skips none |
| `TimelineDates.InWindowIff` | internal/database/database.go:2034-2058 | The window is the last 24 hours, the last so many UTC dates including today, or everything up to the end of today |
| `TimelineDates.WindowSpan` | internal/database/database.go:2220-2241 | The last point is that of the present moment; a period of days has exactly that many points, 24 hours touch 25 |
| `TimelineDates.PointHolds` | internal/database/database.go:2377-2391 | The point of an instant holds the known tokens of exactly the rows of its month, date or hour and counts those without a total |
| `TimelineDates.ValuesHold` | internal/database/database.go:2384-2391 | Each of its values holds the known tokens of those of them whose group belongs to the series |
| `ShareTimeline.TimelineConserves` | internal/database/database.go:2319-2442 | Series totals sum to the window total, point totals sum to the window total, the values of each point sum to its tokens, and each series is the sum of its values over all points |

## Left out

- HTTP handlers, authentication, templates, URL building, CSV and the site: user interface and plumbing.
- SQLite, SHA-256, JSON and the file system: opaque; tables are maps, digests injective, decoded records datatypes. An engine error in a statement or a commit is a parameter.
- The text, identifier, metadata and privacy checks of event validation: one verdict per event (`textOk`, `approved`).
- The machines table, the model catalog, estimated costs and the totals before and after in the ingest result: easy, and no part of identity or deduplication.
- The stripping of project names when projects are not shared: a fixed change to every event before filtering, so nothing in the protocol depends on it.
- Discovery itself, the directory cache and the session index: what they find is a parameter, and the fork baseline of a log is fixed. That a changed cache identity leads to a full parse is modelled.
- Several adapters in one pass: every source of a pass is a Codex log; other adapters are seen only through `SourceCache`.
- Time zones other than UTC, fractional-second string order and the leniencies of the time parser beyond section 5.6 of RFC 3339: outside, or easy.
- `Calendar.LocalDayBucket`: a reporting location other than UTC always takes the slow path and is not modelled.
- Floating-point shares, costs and labels.
- `CodexUsage.NormalizeFitsInt64`: only the addition that rebuilds a total can overflow; the wrapped value itself is not modelled, because no guarantee survives it.
- `SingleFlight.NoStaleHit`: the generation is unbounded, so wrap-around of the 64-bit counter is not modelled.
- `LineScan.PreviousLineStart`: a file that shrinks while it is scanned is not modelled; the content is fixed for one call.
- `ExactlyOnce.CommittedHubIsTheFold`: stated for Codex logs without repeats and with distinct deduplication keys; SQLite snapshot sources, whose events change under a fixed ID, are not part of it.
- `AgentRunner.Pass`: the heartbeat, source health and console output have no effect on events or cursors and are not modelled; the cached parse is replaced by the uncached one, which `SourceCache.ParseLog` shows equal.
- Claude's resume as a whole: its last directory is not saved in the cursor and an unterminated final line is consumed, so a resumed parse does not equal a full one; only its line scan is modelled.
- Field mapping of the other adapters, backup, locking and configuration.
