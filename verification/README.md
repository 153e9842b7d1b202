# A verified model of the WorkAI pipeline

WorkAI turns the cells of a task spreadsheet into daily assessments: ingest copies ranges into `sheet_cells`, parse
turns a sheet into `raw_tasks`, normalize turns those into `tasks_normalized`, assess computes ghost time, scores,
operational cycles and duration norms, and audit writes reports into a ledger. The stages talk only through tables.
This Dafny project models that table protocol and the loop algorithms around it, and proves what they promise.

Run `dafny verify dfyconfig.toml`.

## How the model is laid out

Tables are fields of classes (maps by primary key or serial id), and the methods of those classes follow the
transactions statement by statement: constraints decide whether they commit, and a rollback restores everything but
serial counters. Each method is proved against a specification function or predicate, and the theorems are about those.
Concurrent behaviour is a state machine whose steps are committed transactions, with lemmas over all finite histories.

| files | part of the system |
|---|---|
| `RefreshTables`, `RefreshProtocol`, `RefreshRuns`, `NormalizePlan`, `RefreshDatabase` | parse and normalize rewriting `raw_tasks` and `tasks_normalized`: tables and transactions, what one transaction keeps, all interleavings, the order of work, the transactions as code and as steps |
| `RefreshHistories`, `ParsedHistories` | a history of a stale run; histories fed by the parser and the exact damage a stale run can do there |
| `AuditLedger`, `AuditInterleaving`, `AuditHistories` | one `run_audit` call with cache, retries and pool; concurrent calls and sweeps; a call as steps, histories of a swept row |
| `SheetParser`, `ParserTheorems` | matrix sheets and weekly boards |
| `Grids`, `SheetCells`, `A1Notation` | range refresh of `sheet_cells`, A1 references |
| `GreedyRuns`, `Aggregation`, `CycleKeys`, `CycleTheorems` | operational cycles and their keys |
| `BayesianNorms`, `AssessTables`, `AssessTheorems`, `AssessRun` | norms and the four assess steps |
| `Chunking`, `KnowledgeLookup` | methodology chunks, index and lookup cache |
| `Common`, `Text`, `Batching`, `Sorting`, `Totals`, `Upserts` | shared strings, batches, sorting, sums, upserts |

Dates are day numbers, decimals are reals, and Python strings are sequences of characters. Library behaviour that the
properties do not depend on comes in as function parameters: text recognizers, casefolding, text similarity, the
calendar, line splitting, the digest of cycle keys, standard deviation, scoring formulas, full-text search. Where a
theorem needs one of them to behave, it says so (for example a collision-free digest).

## What the proofs found

- A normalize run that is overtaken by a parse can never commit a row, because surrogate ids are never reused and the
  foreign key rejects it. It can still commit a delete and erase what a newer run has written (`WriteCommitsIff`,
  `CommittedWriteIsExactIff`). Since the parser stores only rows with date and employee, this takes a partition all of
  whose lines failed to normalize when the run began, within the error limit; lines that are skipped can do it only in
  a sheet with a blank title (`StaleWriteHarmsIff`). `FailedLineErases` shows a history from cells; a line fails, for
  example, on a duration with more digits than Python converts.
- `DB_CONTRACT.md` says that parse deletes a sheet; the code deletes a set of dates and the undated rows. Under the
  invariant the two are the same (`DeletesClearSheet`).
- `parse_a1_range` gives back a quoted title exactly when it is non-empty and has no exclamation mark: the text is split
  at the first one, quoted or not.
- The updates of an audit row have no status guard, so a row that the sweeper marked stale can still become completed or
  failed, exactly as long as its own call works on it (`SweptRowIsSettledIff`; histories in `AuditHistories`). No other
  change to a row that has left its processing state is possible (`RowChanges`).
- If the pool is closed during an audit and cannot be re-opened, the row stays in processing and the caller sees the
  re-initialisation error instead of the error of the last attempt; an update that fails on an open pool has the same
  effect with its own error (`RunAudit`).
- An assessed task lacks a norm only if its duration is negative or missing and its category has no prior, is not in the
  norm table, and was not observed in the window (`NormAndDeltaAddUp`).
- The anchor of a cycle key does not always identify a place: two spreadsheets can clash if and only if one id is the
  other followed by a colon and more (`AnchorsClashIff`). Under plain ids a title can harm a cycle key if and only if it
  contains a bar, an id, a colon and more (`TitleIsHarmfulIff`, `HiddenSheetClashes`); a bar alone does not.

## Model

| member | source | states |
|---|---|---|
| `RefreshRuns.NormalizedRowsAreFaithful` | WorkAI/normalize/runner.py:86-184 | In every state reachable by any interleaving of normalize runs, parse refreshes, user edits and crashes, each normalized row points at a live raw row and is its normalization in every column except the user-editable confirmed flag. |
| `RefreshRuns.ReachableInv` | WorkAI/normalize/runner.py:85-184 | The inductive invariant over all interleavings: ids drawn from never-reused counters, unique coordinates in both tables, faithful rows, snapshots that agree with live rows, locks owned only inside the guarded block. |
| `RefreshRuns.NextKeepsInv` | WorkAI/normalize/runner.py:140-184 | Every single step (snapshot, error limit, lock, write, unlock, crash, parse, user edit) keeps that invariant. |
| `RefreshRuns.WriteCommitsIff` | WorkAI/normalize/runner.py:157-184 | A guarded write commits exactly when no parse of its sheet committed since the snapshot, or the partition normalizes to no row: a stale snapshot never commits a row. |
| `RefreshRuns.CommittedWriteIsExactIff` | WorkAI/normalize/runner.py:157-184 | A committed write leaves its partition equal to the normalization of its raw rows if and only if the snapshot was current or nothing in the partition normalizes; the one bad case is a stale run with an empty partition, which commits a delete. |
| `ParsedHistories.StaleWriteHarmsIff` | WorkAI/normalize/runner.py:218-326 | The exact condition of the bad case, in every history whose parse refreshes store parser output: a faultless stale write commits and leaves its partition inexact if and only if a live line of it normalizes and every line of it in the snapshot failed to, which are then no more than the error limit; only under a blank sheet title lines may be skipped instead. |
| `ParsedHistories.FailedLineErases` | WorkAI/normalize/runner.py:157-184 | The bad case is reached from cells: for every sheet with a date header, an employee and a one-line task, first with a text that fails to normalize and then corrected, there is such a history, and the partition is exact before the last write and not after it. |
| `ParsedHistories.ParsedRowsAreNamed` | WorkAI/parse/parser.py:53-161 | Every row the parser emits, in either mode, has a date, and a non-blank employee unless the title of its sheet is blank. |
| `RefreshRuns.ErasedIsExactIff` | WorkAI/normalize/runner.py:171-179 | An erased partition is exact if and only if no raw row of it normalizes. |
| `RefreshRuns.EmptyWriteErases` | WorkAI/normalize/runner.py:171-179 | A committed write without rows leaves no row of the partition and no raw row changed. |
| `RefreshRuns.ExactIsStable` | WorkAI/normalize/runner.py:140-184 | Once exact, a partition stays exact under every step except a parse of its sheet, a user edit of one of its rows, and a write of it from a stale snapshot. |
| `RefreshRuns.SingleFlight` | DB_CONTRACT.md:81 | At most one run is inside the guarded block of a sheet and date, whatever the lock hash collides on. |
| `RefreshRuns.NoLockOutsideGuard` | WorkAI/normalize/runner.py:145-184 | Every held lock belongs to a run inside the guarded block of a partition with that lock key; no path out of the block keeps it. |
| `RefreshRuns.ParseIsNeverBlocked` | WorkAI/parse/runner.py:78-96 | In every reachable state a parse refresh commits exactly when its rows have distinct coordinates; the RESTRICT foreign key never stops it. |
| `RefreshProtocol.ParseRefresh` | WorkAI/parse/runner.py:78-157 | Under the invariant a parse refresh commits, leaves exactly the parsed rows (freshly numbered) for the sheet, no normalized row of the sheet, and every other sheet untouched. |
| `RefreshProtocol.DeletesClearSheet` | WorkAI/parse/runner.py:132-157 | The three deletes by date set and by missing date together clear the whole sheet in both tables, as the contract document says in other words. |
| `RefreshProtocol.NothingStopsParse` | migrations/versions/0007_tasks_normalized_contract_fields.py:111-118 | After the scoped deletes no remaining normalized row refers to a deleted raw row, so the RESTRICT key holds at commit. |
| `RefreshProtocol.ReparseOnlyRenumbers` | DB_CONTRACT.md:57 | Parsing the same cells again commits and changes nothing but surrogate ids. |
| `RefreshProtocol.FreshWriteCommits` | migrations/versions/0004_tasks_normalized.py:36-40 | A partition whose snapshot is current can always be written: neither the unique nor the foreign key rejects a row. |
| `RefreshProtocol.FreshWriteIsExact` | DB_CONTRACT.md:80 | Written from a current snapshot, the partition holds exactly the normalization of its raw rows: nothing else and nothing missing. |
| `RefreshProtocol.WrittenRowsAreFaithful` | WorkAI/normalize/runner.py:157-179 | Whatever write commits, even from an old snapshot, leaves all normalized rows faithful to live raw rows. |
| `RefreshDatabase.NormalizeSheetRows` | WorkAI/normalize/runner.py:206-326 | The loop emits what normalizes in fetch order, counts skips and failures so that the three add up, and stops exactly when the failures exceed the limit. |
| `RefreshDatabase.Database.RefreshSheet` | WorkAI/parse/runner.py:78-96 | The parse transaction: commits exactly when the constraints hold, then the tables are the specified refresh; otherwise only serial counters may have moved. |
| `RefreshDatabase.ParseIsAStep` | WorkAI/parse/runner.py:78-96 | Whatever the parse transaction does to the tables is one parse step of the interleaving model. |
| `RefreshDatabase.Database.RewritePartition` | WorkAI/normalize/runner.py:157-182 | The guarded transaction on the table fields: commits exactly when the constraints hold and nothing else goes wrong, with the specified outcome, else rolls back employees and rows. |
| `RefreshDatabase.Database.RefreshPartition` | WorkAI/normalize/runner.py:140-184 | Lock, rewrite, unlock: the outcome is decided by the lock table, the constraints and a possible fault inside the guarded block, and the lock table is restored in every case. |
| `RefreshDatabase.Database.RunNormalize` | WorkAI/normalize/runner.py:85-205 | A run without other writers reads its snapshot, plans the partitions by title and date, and works them off in that order. It stops at the first partition that exceeds the error limit or meets a fault under its lock. The partitions before it whose lock was free end exactly normalized; every other normalized row, every raw row, every employee id and the lock table are unchanged. The run is a segment of the interleaving model: begin, then lock, write and unlock for each partition. |
| `NormalizePlan.PlanPartitions` | WorkAI/normalize/runner.py:89-113 | The grouping dictionaries and the sorted loops visit each sheet and date of the snapshot once, by title and then date, leaving out the sheets that are too large, and hand over exactly the rows of the partition in fetch order. |
| `NormalizePlan.GroupBySheet` | WorkAI/normalize/runner.py:89-91 | The dictionary maps each title that occurs to its rows, in fetch order. |
| `NormalizePlan.GroupByDate` | WorkAI/normalize/runner.py:105-108 | Likewise for dates; rows without a date belong to none. |
| `NormalizePlan.FetchRawTasks` | WorkAI/normalize/queries.py:12-99 | The query returns every raw row of the spreadsheet once, those of a sheet by row, column and line. |
| `RefreshDatabase.PartitionSegment` | WorkAI/normalize/runner.py:140-184 | One pass through the guarded block extends such a segment by a refused lock, or by lock, write and unlock, with the same tables and locks. |
| `RefreshDatabase.SegmentContinuesHistory` | WorkAI/normalize/runner.py:85-205 | Appended to a history that ends where it starts, such a segment is a history again, so the theorems about histories hold after every run. |
| `RefreshDatabase.Database.GetOrCreateEmployee` | WorkAI/normalize/queries.py:150-169 | Known names keep their id, a new name gets the next serial, and a serial is used up either way. |
| `RefreshDatabase.Database.InsertRawRows` | WorkAI/parse/runner.py:91-92 | The batched inserts accept exactly the lists without coordinate clash and store them in order under consecutive ids. |
| `RefreshDatabase.Database.InsertNormRows` | WorkAI/normalize/runner.py:177-178 | Likewise for normalized rows, with the foreign key. |
| `RefreshTables.EmittedCoordsDiffer` | WorkAI/normalize/runner.py:221-293 | Distinct raw coordinates give distinct normalized coordinates. |
| `Batching.Chunked` | WorkAI/normalize/runner.py:406-417 | Batching neither loses nor reorders items; every batch but the last is full and the last is not empty; a non-positive size is an error. |
| `SheetParser.ParseCells` | WorkAI/parse/parser.py:16-96 | Matrix mode, then the weekly-board fallback, as loops over lists and dictionaries; rows and statistics equal the specification functions the theorems below are about. |
| `SheetParser.ReadMatrix` | WorkAI/parse/parser.py:35-78 | The matrix loop with its skip branches and counters. |
| `SheetParser.ReadWeeklyBoard` | WorkAI/parse/parser.py:99-176 | The loop over week blocks with block ends, year and Monday resolution, task columns and the closing sort. |
| `SheetParser.ReadBlock` | WorkAI/parse/parser.py:122-173 | One block: header ten rows below the label, detected or default task columns, tasks down to the row before the next label. |
| `SheetParser.DetectTaskColumns` | WorkAI/parse/parser.py:199-206 | Walking the cell dictionary in any order gives the sorted set of columns headed by the task word. |
| `SheetParser.BuildDateByCol` | WorkAI/parse/layout.py:11-32 | The loop fills the dictionary that maps a column to the date of its header cell, later cells winning. |
| `SheetParser.BuildEmployeeByRow` | WorkAI/parse/layout.py:35-55 | The loop fills the dictionary that maps a row to its employee, later cells winning. |
| `ParserTheorems.ParseIgnoresOrder` | WorkAI/parse/parser.py:16-96 | For one sheet with unique coordinates rows and statistics depend only on the set of cells, not on their order, in both modes. |
| `ParserTheorems.EveryBodyCellIsCounted` | WorkAI/parse/parser.py:38-58 | Unless the fallback takes over, parsed, missing-employee and missing-date counts add up to the non-blank cells below the header and right of the employee column. |
| `ParserTheorems.MatrixRowsExact` | WorkAI/parse/parser.py:38-76 | Matrix mode emits exactly the lines of non-blank body cells whose row has an employee cell and whose column has a dated header cell, with that employee and date (both directions). |
| `ParserTheorems.BoardRowsExact` | WorkAI/parse/parser.py:122-173 | A weekly board emits exactly the lines of task cells more than ten rows below a week label and above the next one, dated Monday plus the position of the task column (both directions). |
| `ParserTheorems.BoardIsInOrder` | WorkAI/parse/parser.py:145-176 | Across row blocks each cell is visited at most once, keys are distinct, rows come out in final order, and the closing sort is a no-op. |
| `ParserTheorems.ParsedRowsAscend` | WorkAI/parse/parser.py:38-176 | Whatever mode is used, the rows of one sheet are strictly ascending by row, column and line number. |
| `ParserTheorems.ParsedSheetCommits` | WorkAI/parse/runner.py:75-96 | Parser and refresh together: in every reachable state, refreshing a sheet with the rows parsed from its cells commits. |
| `SheetCells.FlattenValueRange` | WorkAI/ingest/runner.py:39-64 | The nested loops produce the non-blank values row by row with their places and A1 names. |
| `SheetCells.CellsMatchPayload` | WorkAI/ingest/runner.py:39-64 | At every place the flattened cells hold exactly what the payload says there. |
| `SheetCells.SheetStore.ReplaceRangeCells` | WorkAI/ingest/runner.py:118-151 | Delete the rectangle and insert in batches of 1000: commits exactly when no key clashes, otherwise the table is as before. |
| `SheetCells.SheetStore.RunIngest` | WorkAI/ingest/runner.py:67-103 | Ranges are requested in batches that together are all of them in order; every answered range commits on its own, a batch is requested only when everything before is committed, and the first failing request, unreadable range or key clash ends the run and keeps what is committed. |
| `SheetCells.CommitsIff` | WorkAI/ingest/runner.py:118-151 | A refresh violates the primary key exactly when its payload spills out of its rectangle onto an occupied place. |
| `SheetCells.RefreshedValue` | WorkAI/ingest/runner.py:118-151 | After a committed refresh, fitting or not, a place holds the text of the payload, or nothing if the rectangle covers it, or what it held before. |
| `SheetCells.SheetStore.InsertBatch` | WorkAI/ingest/runner.py:134-147 | A batch is accepted exactly when none of its keys is taken, and then stored in full. |
| `SheetCells.LastRefreshWins` | WorkAI/ingest/runner.py:118-151 | After any sequence of refreshes whose payloads fit, no key was violated and each place holds the non-blank value of the last refresh covering it, or nothing, or its old value if none covers it. |
| `SheetCells.RefreshTwice` | DB_CONTRACT.md:46 | Repeating a fitting refresh changes nothing. |
| `Grids.FlattenGrid` | WorkAI/ingest/runner.py:45-62 | The row loop visits the values in reading order. |
| `Grids.GridIsMajor` | WorkAI/ingest/runner.py:45-62 | Flattened places are strictly ascending by row and column, so no place occurs twice. |
| `A1Notation.ColToIndex` | WorkAI/ingest/a1.py:12-23 | The digit loop computes the bijective base-26 value; anything that is not alphabetic after strip and upper-casing is an error. |
| `A1Notation.IndexToCol` | WorkAI/ingest/a1.py:26-38 | The remainder loop computes the label; a non-positive index is an error. |
| `A1Notation.ColumnsRoundTrip` | WorkAI/ingest/a1.py:12-38 | The two are mutual inverses between positive integers and non-empty A-Z labels. |
| `A1Notation.CellReadsBack` | WorkAI/ingest/a1.py:41-57 | Parsing a printed cell gives back row and column, for all positive rows and columns. |
| `A1Notation.QuotedRangeRoundTrip` | WorkAI/ingest/a1.py:60-99 | A quoted title with doubled apostrophes joined to two printed cells parses back to title and bounds exactly when the title is non-empty and has no exclamation mark and the bounds are ordered; otherwise it is an error. |
| `A1Notation.ParsedRangeIsPositive` | WorkAI/ingest/a1.py:60-99 | Every range that parses has a non-empty title and positive, ordered bounds. |
| `Chunking.ChunkText` | WorkAI/knowledge_base/chunking.py:10-47 | The window loop returns the specified chunks and raises exactly on the invalid size combinations, but never on blank text. |
| `Chunking.ShortWordsSurvive` | WorkAI/knowledge_base/chunking.py:13-45 | Every word of the text shorter than the chunk size is a whole word of some chunk, whatever the overlap. |
| `Chunking.EndCutsOnlyLongWords` | WorkAI/knowledge_base/chunking.py:28-33 | A window end never falls inside a word shorter than the chunk size. |
| `Chunking.WindowsCover` | WorkAI/knowledge_base/chunking.py:24-45 | Window starts strictly increase, ends never decrease, each window is non-empty and at most the chunk size, neighbours leave no gap and share at most the overlap, and the last reaches the end. |
| `Chunking.WindowsRestoreText` | WorkAI/knowledge_base/chunking.py:24-45 | Dropping the overlaps from the windows and gluing them gives back the normalized text. |
| `Chunking.ChunksAreBounded` | WorkAI/knowledge_base/chunking.py:35-37 | Every chunk is non-empty, at most the chunk size, and without outer whitespace. |
| `Chunking.NormalizeJoinsWords` | WorkAI/knowledge_base/chunking.py:13 | The regular expression and the strip give the words of the text joined by single blanks, and no word is lost, added or moved. |
| `Chunking.NormalizeNormalizes` | WorkAI/knowledge_base/chunking.py:13 | After normalization blanks are the only whitespace, single, and neither leading nor trailing; with the row above this fixes the result. |
| `KnowledgeLookup.CacheIsInvisible` | WorkAI/knowledge_base/lookup.py:16-51 | Over any sequence of lookups and index runs a cached lookup answers what an uncached query on the current tables would, for the stripped query and the clamped limit. |
| `KnowledgeLookup.KnowledgeBase.LookupMethodology` | WorkAI/knowledge_base/lookup.py:25-45 | Blank queries give nothing; otherwise the answer is the current one and the cache is used least-recently-used with 100 entries. |
| `KnowledgeLookup.KnowledgeBase.LookupCached` | WorkAI/knowledge_base/lookup.py:16-22 | A hit or a miss both return the current answer, and the entry becomes the most recent. |
| `KnowledgeLookup.KnowledgeBase.IndexKnowledgeSources` | WorkAI/knowledge_base/indexer.py:23-89 | Documents that parse are upserted with their chunks, the cache is cleared after the commit, and a failing transaction leaves tables and cache alone; the reported counts are exact. |
| `KnowledgeLookup.ReplacedHasChunks` | WorkAI/knowledge_base/queries.py:132-147 | After a replacement a source has exactly the given chunks, numbered from 1. |
| `KnowledgeLookup.ReplacedKeepsOthers` | WorkAI/knowledge_base/queries.py:132-147 | A replacement leaves the chunks of every other source alone. |
| `KnowledgeLookup.ChunksAreExact` | WorkAI/knowledge_base/indexer.py:63-68 | An indexed source stores exactly the chunks of its document numbered from 1; a source absent from the files keeps its chunks. |
| `KnowledgeLookup.ArticlesAreExact` | WorkAI/knowledge_base/queries.py:85-98 | Likewise for the article rows. |
| `KnowledgeLookup.IndexedWordsAreStored` | WorkAI/knowledge_base/indexer.py:65-67 | Every word of the body of an indexed document that is shorter than 3000 characters stands whole in one of its stored chunks. |
| `AuditLedger.Ledger.RunAudit` | WorkAI/audit/crew.py:65-236 | A whole call on the ledger and pool fields. Without a connection nothing happens. A hit copies the report of a latest completed run into a new row. Otherwise at least one attempt is made and the call completes exactly when some attempt within the bound succeeds; else the bound is used up, the row is marked failed and the last error raised, unless the failing update cannot be made. Rows, ids, attempts and the final pool state are fixed in every case. |
| `AuditHistories.MissIsAPath` | WorkAI/audit/crew.py:65-236 | Every outcome that RunAudit can have without a hit is a path of the interleaving model on which only that call moves: start, miss, failed attempts, and then success, recorded failure or abandonment. |
| `AuditHistories.HitIsAPath` | WorkAI/audit/crew.py:87-115 | The same for an outcome with a hit. |
| `AuditLedger.Ledger.Retry` | WorkAI/audit/crew.py:129-212 | The loop stops at the first success or after the bound with the last error; all earlier attempts failed. |
| `AuditLedger.Ledger.TryOnce` | WorkAI/audit/crew.py:131-192 | One attempt: closed pool, prefetch error, crew error, pool closed by the crew, write error, or completion. |
| `AuditLedger.Ledger.PersistFailedRun` | WorkAI/audit/crew.py:239-251 | The row is marked failed when the pool is open or can be re-opened, even if an attempt closed it, and the update itself succeeds; otherwise the row stays and the error of the re-initialisation or of the update is raised. |
| `AuditLedger.Ledger.FindCompletedRun` | WorkAI/audit/queries.py:14-22 | Returns a latest completed run of the employee and date, or nothing exactly when there is none. |
| `AuditLedger.Ledger.SweepStaleAuditRuns` | WorkAI/ops/queries.py:10-17 | After a sweep no processing row is overdue, no row is gone, exactly the overdue rows have changed, and the count is by how many the processing rows have decreased. |
| `AuditLedger.SweepCounts` | WorkAI/ops/queries.py:10-17 | The rows a sweep takes out of processing are as many as the overdue ones. |
| `AuditLedger.PoolOpenIff` | WorkAI/db/pool.py:42-105 | The pool is open for an attempt exactly when no earlier attempt that got past its prefetch closed it; nothing between attempts re-opens it. |
| `AuditLedger.ClosedPoolFailsTheRest` | WorkAI/audit/crew.py:129-212 | Once an attempt has closed the pool, that attempt and every later one fail. |
| `AuditInterleaving.ReachableInv` | WorkAI/audit/crew.py:87-251 | The invariant of every reachable ledger under any interleaving of calls and sweeps: each working call owns one row that only it may finish, reports sit exactly on completed rows, cached rows have a source. |
| `AuditInterleaving.NextKeepsInv` | WorkAI/audit/crew.py:87-251 | Every single step of a call, a sweep, or the clock keeps that invariant. |
| `AuditInterleaving.RowChanges` | WorkAI/audit/queries.py:30-45 | A step changes an existing row only by its own call finishing it or by a sweep turning it stale; a final row does not change. |
| `AuditInterleaving.FinalRowsNeverChange` | WorkAI/audit/crew.py:87-251 | Over a whole history no row disappears, its identity and owner are fixed, and once completed, cached or failed it never changes again. |
| `AuditInterleaving.ReportsHaveSources` | WorkAI/audit/crew.py:88-115 | Completed and cached rows, and only they, have a report, and each cached row carries that of a completed run of the same employee and date. |
| `AuditInterleaving.CachedRowsAreNoSource` | WorkAI/audit/queries.py:14-22 | Dropping the cached rows changes no cache lookup. |
| `AuditInterleaving.OpeningHitsIff` | WorkAI/audit/crew.py:88-127 | A call opens with a hit exactly when it is not forced and a completed run exists. |
| `AuditInterleaving.SweptRowIsSettledIff` | WorkAI/audit/queries.py:30-45 | In a reachable ledger some step can still change a swept row if and only if the call that inserted it still works on it: the updates have no status guard. |
| `AuditHistories.SweptRowIsCompleted` | WorkAI/audit/queries.py:30-37 | A history for every employee, date, threshold and pair of times that makes the row overdue: the row of a call is swept and then completed by it. |
| `AuditHistories.SweptRowIsFailed` | WorkAI/audit/queries.py:40-45 | Its twin: the swept row is marked failed with the error of the attempt in place of that of the sweeper. |
| `AuditInterleaving.AttemptsAreBounded` | WorkAI/audit/crew.py:84-85 | No call exceeds its bound of attempts. |
| `Aggregation.AggregateOperationalCycles` | WorkAI/assess/aggregation.py:64-142 | The loop over the sorted tasks with its mutable builder returns one cycle for each run of the greedy cut. |
| `Aggregation.Add` | WorkAI/assess/aggregation.py:88-137 | One turn of the loop places the task in the open run, or closes it and starts a new one, exactly as the cut does. |
| `Aggregation.CycleBuilder.Absorb` | WorkAI/assess/aggregation.py:93-99 | Absorbing a task extends ids, minutes, count, waiting flag and score lists by it. |
| `Aggregation.CycleBuilder.CanMerge` | WorkAI/assess/aggregation.py:145-158 | For micro-tasks the builder accepts a task exactly when its first task does. |
| `Aggregation.CycleBuilder.Build` | WorkAI/assess/aggregation.py:161-184 | Building gives the cycle of the absorbed tasks, with averaged scores and the key of the first task. |
| `GreedyRuns.CutIsGreedy` | WorkAI/assess/aggregation.py:88-140 | The cut splits the list into consecutive runs in which the first member accepts all others, and every cut is forced. |
| `GreedyRuns.GreedyIsCut` | WorkAI/assess/aggregation.py:88-140 | There is only one such split. |
| `CycleTheorems.CyclesAreForcedRuns` | WorkAI/assess/aggregation.py:64-158 | The cycles are the runs of the sorted tasks: each task in exactly one run, non-micro tasks alone, members alike to the first, and no run could have taken the task that follows it. |
| `CycleTheorems.CyclesConserve` | WorkAI/assess/aggregation.py:94-114 | Task counts and minutes over all cycles equal those of the input, and some cycle waits exactly if some task waits. |
| `CycleTheorems.OrderDoesNotMatter` | WorkAI/assess/aggregation.py:70-81 | With distinct task ids the input order does not matter. |
| `CycleTheorems.GroupsAggregateApart` | WorkAI/assess/runner.py:171-176 | Aggregating each employee and day apart gives the same cycles as aggregating everything at once. |
| `CycleTheorems.KeysDiffer` | WorkAI/assess/aggregation.py:41-61 | With unique places, sheet names that do not clash and a collision-free digest no two cycles share a key. |
| `CycleKeys.PayloadsDiffer` | WorkAI/assess/aggregation.py:51-59 | Key payloads of tasks at different places differ unless their sheet names clash: they read alike behind the colon, or one of them ends in a bar and the other. |
| `CycleKeys.PayloadsEqualIff` | WorkAI/assess/aggregation.py:51-59 | The exact condition for two tasks with bar-free dates and categories: equal employee, date, category and numbers, and either equal sheet and text, or one sheet name ends in a bar and the other and the rest is what the other text has more. |
| `CycleKeys.TitleIsHarmfulIff` | WorkAI/assess/aggregation.py:51-59 | In a spreadsheet with a plain id a title can be mistaken for another sheet if and only if it contains a bar, a plain id, a colon and more. |
| `CycleKeys.PlainNamesDoNotClash` | WorkAI/assess/aggregation.py:202-203 | Plain ids and titles without such a part never clash. |
| `CycleKeys.HiddenSheetClashes` | WorkAI/assess/aggregation.py:51-59 | Every title with such a part does harm: a task of the hidden sheet, at a receivable place, shares the payload, as soon as its text casefolds to the other text, a bar and the beginning of the title. |
| `CycleKeys.AnchorsClashIff` | WorkAI/assess/aggregation.py:202-203 | Tasks of two spreadsheets at different places, with non-empty names and positive numbers, can share an anchor if and only if one id is the other followed by a colon and more. |
| `BayesianNorms.NormIsBetween` | WorkAI/assess/bayesian_norms.py:39-59 | With positive weight the norm lies between the clamped prior and the clamped sample mean. |
| `BayesianNorms.NormIsMonotone` | WorkAI/assess/bayesian_norms.py:39-59 | A larger prior or sample mean never lowers the norm. |
| `BayesianNorms.TwoUpdatesPool` | WorkAI/assess/bayesian_norms.py:53-59 | Two updates in turn, the weight grown by the first size, equal one update with the pooled sample. |
| `BayesianNorms.RoundingError` | WorkAI/assess/queries.py:217-231 | Rounding to cents and then to whole minutes moves a value by at most 0.505, and that much is reached. |
| `BayesianNorms.WrittenNormIsClose` | WorkAI/assess/bayesian_norms.py:83-97 | Every norm a run writes is, shown in whole minutes, within 0.505 of the exact Bayesian norm. |
| `BayesianNorms.ComputeNormRows` | WorkAI/assess/bayesian_norms.py:62-100 | The loop lists one row for each category with a prior or an observation, ascending, each computed from the last statistic of its category. |
| `BayesianNorms.WindowBounds` | WorkAI/assess/bayesian_norms.py:103-107 | The window ends on the anchor day and has as many days as asked for, at least one. |
| `AssessRun.AssessDatabase.RunAssess` | WorkAI/assess/runner.py:269-278 | The four steps in sequence turn the four tables into the specified ones. |
| `AssessRun.AssessDatabase.RunGhostTime` | WorkAI/assess/runner.py:55-90 | Upserts one row for each employee of the day from the aggregated metrics. |
| `AssessRun.AssessDatabase.RunScoring` | WorkAI/assess/runner.py:108-138 | Upserts a fresh assessment without norm for every task of the day. |
| `AssessRun.AssessDatabase.RunAggregation` | WorkAI/assess/runner.py:158-200 | Group by group deletion and upsert leaves what aggregating the whole day at once would, whatever order the database gives the titles. |
| `AssessRun.AssessDatabase.RebuildGroups` | WorkAI/assess/runner.py:175-198 | The loop over the groups leaves the table cleared for every employee of the day and then holding the cycles of every group; clearing one group never touches those already written. |
| `AssessRun.GroupRows` | WorkAI/assess/runner.py:172-173 | The dictionary loop splits the rows by employee without losing or reordering any. |
| `AssessRun.AssessDatabase.RunBayesianNorms` | WorkAI/assess/runner.py:237-249 | Overlays the norm table and recomputes norm and delta of the assessments of the day. |
| `AssessTheorems.NormAndDeltaAddUp` | WorkAI/assess/queries.py:184-231 | After a run every task of the day has an assessment; it has a norm exactly if its category was known before, has a prior, or was observed in the window (any duration of at least zero is), and norm plus delta is the duration. |
| `AssessTheorems.AssessTwice` | WorkAI/assess/runner.py:269-278 | Running a day again on unchanged tasks leaves all four tables equal. |
| `AssessTheorems.NormCategories` | WorkAI/assess/queries.py:184-196 | The norm rows cover exactly the categories with a prior or observed in the last seven days. |
| `AssessTheorems.NoCycleIsLost` | WorkAI/assess/queries.py:157-182 | Under the conditions of KeysDiffer every cycle is stored under its own key. |
| `AssessTheorems.OtherGhostTimeUntouched` | WorkAI/assess/queries.py:44-62 | Ghost time of other days is untouched. |
| `AssessTheorems.OtherCyclesUntouched` | WorkAI/assess/queries.py:151-155 | Cycles of other days are untouched. |
| `AssessTheorems.OtherAssessmentsUntouched` | WorkAI/assess/queries.py:217-231 | Assessments of other days are untouched. |
| `Upserts.UpsertAdds` | WorkAI/assess/queries.py:97-118 | A batch of upserts overwrites exactly its own keys. |
| `Upserts.UpsertTwice` | WorkAI/assess/queries.py:97-118 | Repeating a batch of upserts changes nothing. |

## Left out

- Statement-level interleaving inside one transaction: committed transactions are atomic, constraints are checked at
  commit, session locks are exclusive, serial ids are never reused. The snapshot of a normalize run, its guarded write
  and a parse refresh are three separate transactions.
- Legacy `tasks_normalized` rows without a raw task id: normalize always writes the id.
- Sheets, employees or tasks that vanish upstream: parse and aggregation refresh only what occurs in their input, and
  nothing is claimed about leftovers. The cascade from deleted tasks to their assessments is not modelled either.
- `PIPELINE_ERRORS` rows, logging, timings and the text of most error messages. A fault in logging or in closing the pool
  after a commit is not modelled.
- The enabled switches of the stages other than ingest, settings validation, the opening of the pool in ingest and
  assess, reading alias and category files.
- The outer loop of `run_parse` over sheets and its size limit: the model has the refresh of one sheet with any rows. The
  corresponding loop of `run_normalize`, with its limits, is modelled.
- The report content of an audit: prefetch payload, crew construction, validation and usage are one outcome per attempt.
- The loop of `run_assess_aggregation` groups by employee and date; since its input has one date, the model groups by
  employee. `run_assess_bayesian_norms` without a target date, which recomputes a whole window, is not modelled.
- Column widths and decimal precision of the database and of Python decimals: arithmetic is exact, rounding is modelled
  where the code rounds.
- The fallback query for a database without the chunk table, and threads racing on the lookup cache.
- The `except` branch of the matrix loop: splitting a string into lines does not fail.
- Two different lock keys with the same hash are allowed to block each other; the model then says that the later run
  skips its partition, as the code does.
- Google, CrewAI, Telegram and HTTP calls, the API routes except the confirmed flag, notifier rules, cost rollups, the
  parallel-run comparison, cutover checks and scripts: calls into other systems, or case splits without an invariant.
- RefreshDatabase.Database.RunNormalize: runs without other writers; RefreshRuns has the interleavings.
- AuditLedger.Ledger.RunAudit: a fault of the opening transaction itself, which leaves no row and raises, is not modelled.
- RefreshRuns.CommittedWriteIsExactIff: states when the partition is exact, not that it always is, because a stale run
  with an empty partition commits a delete.
- AssessTheorems.NormAndDeltaAddUp: the norm is there for every duration of at least zero; for a negative one, which
  normalize does not produce, it depends on the category being known.
- CycleTheorems.KeysDiffer: assumes a digest without collisions; the code truncates SHA-1 to 16 hexadecimal digits.
