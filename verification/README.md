# Verified models of Yanta

Yanta keeps notes as JSON files in a vault, keeps an SQLite full-text index over them, and uses git to
move them between devices. This project models the five parts of it where mistakes lose or hide notes,
and proves what they promise, for all inputs, all runs and all interleavings.

`dafny verify dfyconfig.toml` checks everything.

* **Sync protocol** (`Sync`, `SyncSafety`, `SyncRuns`, `SyncTheorems`, `SyncCover`, `SyncGuard`, `SyncFlag`,
  `SyncProgress`, `SyncManager`, `OpLock`). Automatic, forced and manual git operations of any number of
  devices against one remote, as a machine of atomic steps. Notifications, edits, the user's own git tool and
  all other operations may come between any two steps. What a git command can do is an outcome of its step: a
  commit may land although it reports failure, a push may be refused or land unseen, a rebase may succeed,
  conflict, be aborted, or be left unfinished by a timeout. Every commit has the content it was made with.
* **Markdown codec** (`Text`, `Inline`, `Nesting`, `Blocks`, `RoundTrip`, `AuthoredInline`, `Authored`, `Printed`,
  `BlockParser`). Reading and printing as functions, the round trips about them, what text written by hand is
  read as, and the loops of the source proved to compute them.
* **Index and vault** (`Documents`, `Index`, `Reindex`, `DocumentService`, `Lifecycle`, `Agreement`,
  `NoLostUpdate`, `Watcher`, `WatcherSettles`, `SharedVault`, `VaultLaws`). Files are a map from paths to
  contents, tables are maps keyed by path, and a hash stands for its content. The document service and the
  watcher are modelled apart and then together, acting on the same files and tables.
* **Search compilation** (`Search`, `SearchHoist`, `SearchCompiler`, `SearchGrammar`, `SearchSpelling`,
  `SearchValid`, `SearchMeaning`, `SearchReadable`, `SearchAsks`). The query tree, the compiler, FTS5's reading
  of the characters it emits (quoted strings, barewords, white space, prefix stars, column filters and the
  Boolean operators, after sections 3.1 to 3.7 of the SQLite FTS5 documentation), and what each item of a query
  asks for.
* **Chunked uploads** (`Upload`), with base64 lengths after section 4 of RFC 4648.

Where an object of the source changes its fields, the model is a class whose methods are proved against
a function of the old state; the results about runs are lemmas over those functions.

## What turned out differently

Some natural expectations do not hold of the code. Here is when they do:

* A fenced code block comes back from Markdown exactly when none of its lines opens like a fence or ends
  in a carriage return (`CodeRoundTripExact`, `CarriageReturnLost`).
* A compiled query is not always a valid FTS5 expression. Without a NUL in an unquoted text it is one exactly
  when, in every branch, the first item that searches for something is not negated and every text is quoted by
  the compiler and free of NUL, or is itself an expression behind a column name (`CompiledQueryValid`). So `-a`
  and `foo:bar` are rejected, and so is a quoted text with a NUL (`LoneNegationRejected`, `FooBarRejected`,
  `QuotedNulRejected`). An unquoted NUL ends the expression there (`NulEndsText`); `CompilationValid` gives the
  condition with those included.
* A valid query is not always read as it was meant: two words with a tab between them are looked for
  separately, the second in any column (`TabSplitsText`, `TabMisread`). The meaning is kept when every text is
  quoted or a single word (`CompiledQueryMeans`).
* The watcher stays silent about the app's own save exactly when no removal of that path was still
  under way and the saved document can be indexed (`SaveIsSilentIff`, `OvertakenRemoval`).
* A chmod event loses a waiting write exactly when the waiting timer can still be stopped
  (`ChmodDropsWriteIff`, `ChmodDropsWrite`).
* Restoring a document keeps the full-text invariant exactly when it can be indexed or its row was
  never taken away (`RestoreInOrderIff`, `RestoredUnsearchable`).
* An update makes its document disappear exactly when it passes every check, is written, is not archived
  and names a project the index does not know (`UpdateLosesDocumentIff`, `UpdateLosesDocument`).
* A merge begun by the user's own git tool can end up with a commit of the app in the middle of it
  exactly when an operation was between its check and its commit (`GuardNeedsQuiet`, `UnguardedCommit`).
* A consumed note is backed by a commit in every run, but by content too old for it exactly when a merge
  finished by hand between an operation's staging and its commit leaves such content
  (`ResolveDropsIff`, `DroppedNote`).
* A document with nothing under way has rows that agree with its file, whatever service, watcher, git and
  other programs do and in whatever order, except when another program puts back a version the watcher has
  noted after the service has moved on from it (`SharedRowsAgree`, `PutBackSettlesIff`). A note that is deleted
  for good and put back unchanged right away stays out of the index (`PutBackIsLost`).
* The flag for a failed push belongs to the automatic path; a manual push never changes it
  (`ManualPushLeavesFlag`).
* After a rename the old path of a document is settled exactly when the new path is a document path
  (`RenameSettlesIff`, `RenamedAwayStays`); after a copy the original is settled exactly when it does not
  parse (`CopySettlesIff`, `CopiedOriginalDropped`).
* The package comment of the codec says nested lists are flattened when read. The code nests them, and
  the model follows the code.

## Model

| member | source | states |
|---|---|---|
| SyncTheorems.NotesAccounted | internal/git/sync_manager.go:166-389 | over every run, whatever the user's git tool does, accepted notes are the consumed ones followed by the queued ones, in order, and each consumed note names a commit still in the local history that holds the content it was consumed for |
| SyncCover.NoChangeDropped | internal/git/sync_manager.go:166-389 | over every run without a harmful resolution (below), that content is the vault's at the moment of the note or later |
| SyncCover.ResolveDropsIff | internal/git/sync_manager.go:322-367 | after a merge finished by hand some continuation of the app consumes a note for older content if and only if the merge leaves an operation between staging and commit with a tree too old for one of its notes |
| SyncCover.DroppedNote | internal/git/sync_manager.go:322-367 | a run from a fresh start that does so |
| SyncCover.ActCovers | internal/system/service.go:503-687 | one action of one device keeps every operation's tree new enough for its notes, a harmful resolution apart |
| SyncTheorems.OnlyClearingConsumes | internal/git/sync_manager.go:530-547 | only the step after the commit takes notes off the queue, and it takes exactly the snapshot the cycle started from |
| SyncTheorems.ClearingNeedsCommit | internal/git/sync_manager.go:322-367 | that step is reached only by committing the staged content or finding the disk's content committed: the tip of the history then holds it |
| SyncTheorems.HistoriesOnlyGrow | internal/git/service.go:416-491 | across any interleaving of devices the remote grows only by a suffix and no device ever loses a change from its history |
| SyncTheorems.CommitsStay | internal/git/sync_manager.go:402-455 | over every run, every commit the app made stays in that device's history through push, rebase and aborted rebase |
| SyncTheorems.SyncedMeansEqual | internal/git/sync_manager.go:402-455 | "synced" from the automatic path means remote and local history are equal at that push |
| SyncTheorems.PublishedStays | internal/git/sync_manager.go:402-455 | over every run, the commit that holds a published note's content, and the history up to it, stay on the remote whatever other devices and their users do |
| SyncTheorems.OneOperationAtATime | internal/system/service.go:266-272 | over every run, at most one operation of a device is inside at any moment; each attempt makes at most two pushes and one rebase |
| SyncGuard.NoCommitWhileUnfinished | internal/git/sync_manager.go:269-365 | over every run in which no merge is begun by hand inside an operation's check-to-commit window, no app commit fires while a merge or rebase is unfinished, leftovers of timeouts and failed aborts included |
| SyncGuard.GuardNeedsQuiet | internal/system/service.go:546-616 | after a merge begun by hand some continuation of the app lands a commit with the merge unfinished if and only if an operation was between its check and its commit |
| SyncGuard.UnguardedCommit | internal/git/sync_manager.go:269-365 | a run from a fresh start that commits in the middle of a merge begun by hand |
| SyncTheorems.FlagMeansFailedPush | internal/git/sync_manager.go:559-604 | in every reachable state a set flag means the latest automatic attempt ended in a failed push |
| SyncTheorems.FlagClearedOnly | internal/git/sync_manager.go:192-220 | the flag is cleared only by an attempt that ended otherwise or at the end of a cycle that found nothing to publish |
| SyncTheorems.FlagOffNeedsCheck | internal/git/sync_manager.go:568-600 | that a cycle found nothing to publish is the answer of its own check: no repository, or not all of auto-push, a remote and unpushed commits |
| SyncTheorems.ManualPushLeavesFlag | internal/system/service.go:834-901 | a manual push leaves the flag as it was whatever comes of it, also when it publishes the whole history |
| SyncTheorems.CommitNeverLost | internal/git/sync_manager.go:354-367 | a commit made at any point of any run, reported or not, is in that device's history at every later point |
| SyncFlag.FailedPushRemembered | internal/git/sync_manager.go:322-389 | over every run, with no operation about to write it, the flag is set if and only if the last attempt of the automatic path that ended was a failed push and no cycle since found nothing to publish |
| SyncFlag.ActTells | internal/git/sync_manager.go:559-604 | every action of a device keeps that |
| SyncProgress.RetryReachesPush | internal/git/sync_manager.go:192-220 | an automatic operation that finds the flag set, nothing queued, a repository and something to publish makes a push attempt if and only if nothing is unfinished at its check, whatever happens in between |
| SyncProgress.StrandedCanPublish | internal/git/sync_manager.go:568-604 | with the flag set and nothing unfinished, from any state of the device and the remote, a cycle publishes the whole history and clears the flag |
| SyncProgress.QueueCanDrain | internal/git/sync_manager.go:250-389 | with notes queued and nothing unfinished, from any such state, a cycle empties the queue and publishes everything; the lock is free before and after |
| SyncProgress.CyclePublishes | internal/git/sync_manager.go:309-389 | such a cycle commits exactly what is on disk, consumes every note for exactly that content, and leaves the remote with the whole history |
| SyncProgress.CycleWithoutPush | internal/git/sync_manager.go:322-389 | a cycle that is not to push still commits and consumes; it reports a commit, or clears the flag if there was nothing new |
| SyncProgress.NothingToCommit | internal/git/sync_manager.go:354-361 | when git finds nothing to commit the notes are consumed, nothing is pushed and no change is reported |
| SyncProgress.ReportMeans | internal/git/sync_manager.go:250-389 | every status is reported in exactly the situations it stands for |
| SyncProgress.ForceIgnoresGate | internal/git/sync_manager.go:667-687 | a forced cycle starts whatever the gate says, with all queued notes |
| SyncProgress.SyncNowPublishes | internal/system/service.go:503-687 | sync now commits what is on disk, takes in the remote and publishes everything, and leaves the queue |
| SyncProgress.ManualGoesOn | internal/system/service.go:600-687 | it pushes if and only if the remote's changes are in or there are none; a pull never pushes |
| SyncProgress.PullTakesIn | internal/system/service.go:903-960 | a pull puts the unpublished changes on top of the remote's history, losing none |
| SyncProgress.PushPublishes | internal/system/service.go:834-901 | a push that goes through gives a remote that is not ahead the local history |
| SyncProgress.RebaseLeaves | internal/git/service.go:455-491 | a rebase that stops leaves history, tree and index alone, and stays unfinished exactly when it was not aborted |
| SyncProgress.PushReaches | internal/git/service.go:416-444 | a push reaches the remote if and only if it was sent, reported or not, and the remote was not ahead |
| SyncSafety.RebaseKeeps | internal/git/service.go:455-491 | rebasing local changes onto the remote keeps every change of both |
| SyncSafety.ActKeeps | internal/system/service.go:503-687 | one action of one device keeps the device invariant and only extends the remote |
| SyncSafety.NextKeeps | internal/git/sync_manager.go:250-389 | one action of any device keeps the invariant of all devices |
| SyncManagerModel.ToastsAreChanges | internal/git/sync_manager.go:461-517 | the toasts are the failure keys with repeats removed, one toast a change, success exactly where the key becomes empty |
| SyncManagerModel.SameFailureIff | internal/git/sync_manager.go:461-517 | two results count as the same failure exactly when status and, for hard errors, message are the same |
| SyncManagerModel.ToastKinds | internal/git/sync_manager.go:461-517 | success for healthy results, a warning for a failed push, a failure otherwise |
| SyncManagerModel.SuccessOnlyAfterFailure | internal/git/sync_manager.go:461-500 | starting healthy, no success comes first and no two successes are neighbours |
| SyncManagerModel.SyncManager.NotifyChange | internal/git/sync_manager.go:225-245 | appends the note unless closed or switched off; the queue becomes that of the step machine's `Notify` |
| SyncManagerModel.SyncManager.ClearPendingState | internal/git/sync_manager.go:530-547 | drops the consumed notes from the front and keeps what arrived meanwhile; the queue becomes that of the step machine's `ClearPending` |
| SyncManagerModel.SyncManager.Notify | internal/git/sync_manager.go:461-500 | keeps the toasts equal to those of the whole stream of results |
| SyncManagerModel.Repository.GitPush | internal/git/service.go:416-444 | the remote takes over the local history only when that extends its own |
| SyncManagerModel.Repository.RebaseAndPush | internal/git/sync_manager.go:431-455 | ends where the step machine ends; synced means equal histories |
| SyncManagerModel.Repository.PushWithRebaseRetry | internal/git/sync_manager.go:402-455 | the uninterrupted attempt is a run of the step machine; the remote only grows |
| OpLock.OperationLock.TryAcquire | internal/git/oplock.go:28-48 | succeeds exactly when the lock is free, and hands out a fresh ticket |
| OpLock.OperationLock.Release | internal/git/oplock.go:39-47 | an old ticket's late or repeated release changes nothing for a newer holder |
| OpLock.OperationLock.HeldIffUnreleased | internal/git/oplock.go:28-48 | the lock is held exactly when there is an unreleased ticket, and there is at most one |
| InlineCodec.InlineRoundTrip | internal/blocknote/blocknote.go:388-526 | parsing undoes printing on every canonical list, for every combination of the four styles, with links |
| InlineCodec.ParsePrint | internal/blocknote/blocknote.go:388-441 | the same in the middle of a text, after a pending plain run |
| InlineCodec.StyledRun | internal/blocknote/blocknote.go:511-526 | a styled run is read back as itself whatever follows it |
| InlineCodec.LinkItem | internal/blocknote/blocknote.go:458-469 | a printed link is read as one link with its parsed label |
| InlineCodec.DelimClosed | internal/blocknote/blocknote.go:445-455 | a marked text without the mark inside is matched whole |
| InlineCodec.ParseInline | internal/blocknote/blocknote.go:388-441 | the cursor loop computes the recursive parse |
| ListNesting.NestingIsForest | internal/blocknote/blocknote.go:67-127 | linking each item to its nearest shallower predecessor and flattening gives the recursive forest |
| ListNesting.PreorderIsLineOrder | internal/blocknote/blocknote.go:67-77 | the forest's preorder is the line order |
| ListNesting.StackIncreasing | internal/blocknote/blocknote.go:114-127 | indents grow strictly along the stack |
| ListNesting.NothingNearer | internal/blocknote/blocknote.go:114-127 | everything between an item and its parent is at least as deep |
| ListNesting.TreeBuilder.AddListItem | internal/blocknote/blocknote.go:114-127 | every item is linked to the nearest earlier item of its run with a smaller indent |
| ListNesting.TreeBuilder.PopTo | internal/blocknote/blocknote.go:117-119 | popping stops at the path to that parent |
| ListNesting.TreeBuilder.AddRoot | internal/blocknote/blocknote.go:108-112 | a block that is no list item stands at the top and ends the run |
| AuthoredMarkdown.WrittenIsRead | internal/blocknote/blocknote.go:88-214 | text written by hand, in any of the ways the reader accepts (marks, spacing, levels, several lines, ragged tables, open fences), is read as the blocks it stands for, nested by indentation |
| AuthoredMarkdown.PlainLinesAreOneParagraph | internal/blocknote/blocknote.go:98-106 | any lines of plain text are one paragraph with one run: the lines with exactly one space between neighbours |
| AuthoredMarkdown.MarkedTaken | internal/blocknote/blocknote.go:149-205 | headings of levels 1 to 6, bullets with either mark, check boxes with either tick and numbers of any length |
| AuthoredMarkdown.QuotesTaken | internal/blocknote/blocknote.go:177-189 | several quote lines make one quote, their texts with one space between |
| AuthoredMarkdown.FencedTaken | internal/blocknote/blocknote.go:134-145 | a fence takes its lines literally up to the next one or the end |
| AuthoredMarkdown.GridTaken | internal/blocknote/blocknote.go:164-175 | a table with or without outer pipes, with alignments, and with short rows filled up to the longest |
| AuthoredMarkdown.OneColumnIsNone | internal/blocknote/blocknote.go:310-318 | a single column of dashes makes no table |
| AuthoredMarkdown.LineEndingsAlike | internal/blocknote/blocknote.go:89 | Windows line endings make no difference |
| AuthoredInline.PiecesRead | internal/blocknote/blocknote.go:388-441 | inline text is read piece by piece: words and stray marks are plain, code is literal, enclosed text gets its style, links their label |
| AuthoredInline.MarkedWords | internal/blocknote/blocknote.go:425-435 | both marks for italics, and those for bold and strike, give one run with that style |
| AuthoredInline.StyleReaches | internal/blocknote/blocknote.go:473-487 | adding a style reaches every run, also inside links, and changes nothing else |
| PrintedMarkdown.NumbersCount | internal/blocknote/blocknote.go:223-250 | numbered siblings count up from 1 and start over after any other block |
| PrintedMarkdown.DecimalValue | internal/blocknote/blocknote.go:247-250 | numbers are printed in decimal without leading zeros |
| PrintedMarkdown.HeadingOfAnyLevel | internal/blocknote/blocknote.go:231-238 | a heading of any level comes back with the nearest of the levels 1 to 3 |
| PrintedMarkdown.EmptyParagraphSilent | internal/blocknote/blocknote.go:239-242 | a paragraph without text leaves no trace |
| BlockRoundTrip.RoundTrip | internal/blocknote/blocknote.go:88-276 | reading undoes writing on every canonical document |
| BlockRoundTrip.CodeRoundTripExact | internal/blocknote/blocknote.go:88-145 | a code block survives if and only if no line opens like a fence or ends in a carriage return |
| BlockRoundTrip.CarriageReturnLost | internal/blocknote/blocknote.go:89 | a code block that does not survive |
| BlockRoundTrip.ScanEntries | internal/blocknote/blocknote.go:129-214 | the lines of a canonical document are read as its blocks, in order, with their indents |
| BlockRoundTrip.ForestFlat | internal/blocknote/blocknote.go:67-127 | nesting by indentation undoes flattening with two spaces a level |
| BlockRoundTrip.NodesPrinted | internal/blocknote/blocknote.go:223-276 | the printed text is the blocks' lines, each block closed by its blank line |
| BlockRoundTrip.WriteIsLines | internal/blocknote/blocknote.go:217-221 | the document is those lines joined, without the last newlines |
| BlockRoundTrip.TableRead | internal/blocknote/blocknote.go:322-373 | printed rows of a rectangular table are split and padded back to its cells |
| BlockRoundTrip.SepRead | internal/blocknote/blocknote.go:310-318 | the printed delimiter row is recognised as one |
| BlockRoundTrip.TableTaken | internal/blocknote/blocknote.go:310-373 | header, delimiter and rows are read as one table |
| BlockRoundTrip.ItemRead | internal/blocknote/blocknote.go:191-205 | bullets, numbers and check boxes are told apart and read back; a link is never taken for a box |
| BlockRoundTrip.QuoteTaken | internal/blocknote/blocknote.go:177-189 | a printed quote is read back as one quote |
| BlockRoundTrip.CodeTaken | internal/blocknote/blocknote.go:134-145 | a printed code block is read back with its language and text |
| BlockParser.MarkdownToBlocks | internal/blocknote/blocknote.go:88-214 | the line loop with pending paragraph and stack computes the specified document |
| BlockParser.TakeAt | internal/blocknote/blocknote.go:129-214 | one turn of the loop, with the inner loops for code, tables and quotes |
| BlockParser.CollectCode | internal/blocknote/blocknote.go:134-145 | gathers exactly the lines before the first fence |
| BlockParser.CollectRows | internal/blocknote/blocknote.go:164-175 | gathers exactly the rows that follow, split into cells |
| BlockParser.CollectQuote | internal/blocknote/blocknote.go:177-189 | gathers exactly the adjoining quote lines |
| BlockParser.ReadFromIsScan | internal/blocknote/blocknote.go:129-214 | the loop's accumulator form is the recursive scan |
| BlockParser.RenderTable | internal/blocknote/blocknote.go:549-575 | the row loop prints the specified table |
| BlockParser.RenderBlocks | internal/blocknote/blocknote.go:223-276 | the printer with its running number computes the specified text |
| BlockParser.BlocksToMarkdown | internal/blocknote/blocknote.go:217-221 | the whole printer |
| Documents.NormalizeTwice | internal/document/file.go:93-101 | normalising is idempotent, so a written document hashes the same when read |
| Documents.NormalizeTags | internal/document/file.go:127-144 | the loop keeps the first of each trimmed, lower-cased, non-empty tag |
| Index.JournalPathRoundTrip | internal/indexer/indexer.go:672-685 | a day's path is a scanned journal path that names that day |
| Index.Indexer.IndexDocument | internal/indexer/indexer.go:260-431 | on success the path's row, its one full-text row, tags, links and assets are those of the document's fields; on failure nothing changes; archived documents are passed over |
| Index.IndexedRows | internal/indexer/indexer.go:284-431 | what the rows of an indexed document hold, from its own fields: project, title and kind, title and body in their columns, the tags trimmed and in lower case, links and known assets; no other path is touched |
| Index.Indexer.UpdateDocumentFts | internal/search/store.go:77-80 | the path has exactly the one new row, however many it had, and no other path's rows change |
| Index.Indexer.RemoveDocument | internal/indexer/indexer.go:437-456 | the path has no full-text row left; other paths, and the document row, are untouched |
| Index.Indexer.RemoveDocumentCompletely | internal/indexer/indexer.go:458-482 | every row of the path goes |
| Index.Indexer.ReindexJournalDate | internal/indexer/indexer.go:687-727 | a day's rows are the live entries of its file, none if it is gone, unchanged if it does not parse |
| Index.Indexer.ReindexDays | internal/indexer/indexer.go:661-667 | in whatever order the days come |
| Index.Indexer.ReindexChange | internal/indexer/indexer.go:600-659 | one entry of the change list |
| Index.Indexer.ReindexPaths | internal/indexer/indexer.go:596-670 | the loop applies the entries in order, collects corrupt paths, stops at a hard error, then reindexes the days |
| Reindex.ReindexAgrees | internal/indexer/indexer.go:596-670 | from agreement before a pull, a faithful list in any order ends in agreement after it, on every document path neither archived nor corrupt |
| Reindex.EntrySettles | internal/indexer/indexer.go:630-658 | an entry settles what it mentions and disturbs nothing settled |
| Reindex.ReindexFailsIff | internal/indexer/indexer.go:635-657 | it fails if and only if an entry names a readable, active document of an unknown project |
| Reindex.CorruptReported | internal/indexer/indexer.go:635-657 | the reported paths are exactly the changed documents that do not parse, in order |
| Reindex.JournalsAgree | internal/indexer/indexer.go:606-667 | journal rows agree with the files after the pull on every day whose file parses |
| Reindex.RenameSettlesIff | internal/indexer/indexer.go:600-657 | a renamed document's old path is settled if and only if the new path is a document path |
| Reindex.RenamedAwayStays | internal/indexer/indexer.go:600-605 | a renamed document whose rows stay behind |
| Reindex.CopiedOriginalDropped | internal/indexer/indexer.go:644-657 | a copied document that drops out of the index |
| Reindex.CopySettlesIff | internal/indexer/indexer.go:644-657 | a copied document's original, still on disk, is settled if and only if it does not parse |
| DocumentService.Service.Save | internal/document/service.go:117-252 | verdict and new vault of a save: checks, kind, conflict, write, index, removal after a failed index; what is saved reads back as the request, and no other file changes |
| DocumentService.WrittenHolds | internal/document/service.go:141-181 | a written document has the request's content; a new one starts now without aliases, an update keeps created time and aliases |
| VaultLaws.SaveVerdictIff | internal/document/service.go:124-223 | every verdict of a save, if and only if: conflict, refusal, index failure, saved |
| VaultLaws.MoveMeans | internal/document/service.go:750-828 | when a move is refused, and that else document and row are in the project |
| VaultLaws.ArchiveMeans | internal/document/service.go:487-523 | exactly the named active document is marked and leaves the full-text table |
| VaultLaws.ArchiveProjectMeans | internal/document/service.go:580-594 | exactly the documents of the project are marked |
| VaultLaws.RestoreMeans | internal/document/service.go:525-578 | the mark comes off exactly the named document |
| VaultLaws.HardDeleteMeans | internal/document/service.go:596-643 | file and rows of an active document go, unless the file is stuck; everything else stays |
| VaultLaws.BatchMeans | internal/document/service.go:645-708 | a blank, unknown or repeated path changes nothing; else exactly the named paths go |
| VaultLaws.DocumentPaths | internal/indexer/indexer.go:600-605 | which paths are documents |
| VaultLaws.OtherChangesIgnored | internal/indexer/indexer.go:600-657 | changes of unknown kind and paths outside the projects are passed over |
| VaultLaws.LiveRowsOne | internal/indexer/indexer.go:700-727 | the row of a journal entry, and when there is none |
| VaultLaws.LiveRowsAppend | internal/indexer/indexer.go:700-727 | a journal's rows are those of its entries, in order |
| VaultLaws.DayWithoutJournal | internal/indexer/indexer.go:687-700 | a missing journal has no rows, one that does not parse keeps the old ones |
| VaultLaws.ScheduleStopsLast | internal/indexer/watcher.go:176-191 | stopping stops the timer armed last and no other |
| DocumentService.Service.MoveToProject | internal/document/service.go:750-828 | only project and time change, and the index follows |
| DocumentService.Service.SoftDelete | internal/document/service.go:487-523 | the row is marked and its full-text rows go |
| DocumentService.Service.SoftDeleteByProject | internal/document/service.go:580-594 | all rows of the project are marked; full-text rows stay |
| DocumentService.Service.Restore | internal/document/service.go:525-578 | the mark goes and the document is indexed if it can be |
| DocumentService.Service.HardDelete | internal/document/service.go:596-643 | file and rows go, or nothing when the file cannot be removed |
| DocumentService.Service.HardDeleteBatch | internal/document/service.go:645-708 | all or nothing: an unknown, blank or repeated path changes nothing |
| DocumentService.Service.DeleteRowsOfAll | internal/document/service.go:650-683 | the transaction of the batch, rolled back on the second delete of a path |
| Lifecycle.RunInOrder | internal/document/service.go:487-708 | over every run: at most one full-text row a path, none without a document row, exactly one for every active document |
| Lifecycle.StepInOrder | internal/indexer/indexer.go:305-335 | every operation keeps that |
| Lifecycle.RestoreInOrderIff | internal/document/service.go:550-560 | restoring keeps it if and only if the document can be indexed or its row was still there |
| Lifecycle.RestoredUnsearchable | internal/document/service.go:550-560 | a restore that leaves an active document without a full-text row |
| Lifecycle.ChangesInOrder | internal/indexer/indexer.go:600-659 | any change list keeps it, faithful or not |
| Agreement.RunInStep | internal/document/service.go:117-828 | over every run of saves, moves, archives, restores, deletions and pulls whose index steps succeed, rows agree with files |
| Agreement.IndexingInStep | internal/indexer/indexer.go:260-431 | indexing one path settles it and leaves the others |
| Agreement.RestoreUndoesArchive | internal/document/service.go:487-578 | archiving and then restoring gives back exactly the rows of before, for every path |
| Agreement.UpdateLosesDocumentIff | internal/document/service.go:164-223 | an update makes its document disappear if and only if it has no objection, is written, is not archived and names an unknown project |
| Agreement.UpdateLosesDocument | internal/document/service.go:219-223 | an update after which the document's file is gone |
| Agreement.DoomedBreaksAgreement | internal/document/service.go:219-223 | such an update always leaves rows without a file |
| Agreement.UpdateOutcome | internal/document/service.go:117-223 | from request and vault alone: turned down it changes nothing, doomed it loses the document, otherwise it is saved |
| NoLostUpdate.CreateHoldsRequest | internal/document/service.go:132-160 | an accepted save with an empty path creates exactly one document, in its project's folder, with exactly the request's content, created and updated now, without aliases |
| NoLostUpdate.NewPathIsDocument | internal/document/service.go:135-139 | the path of a new document lies in its project's folder and is a document path |
| NoLostUpdate.UpdateReplacesNamedVersion | internal/document/service.go:164-205 | an accepted update finds the version it names, puts the request in its place, keeps the identity and touches no other file |
| NoLostUpdate.MoveKeepsContent | internal/document/service.go:770-801 | a move changes project and time of the one file and nothing else |
| NoLostUpdate.VersionReplacedOnce | internal/document/service.go:189-205 | with an advancing clock no two accepted updates of a document name the same version |
| NoLostUpdate.IdentityNeverChanges | internal/document/service.go:164-187 | over every run, kind, created time and aliases stay while the document exists |
| Watcher.FileWatcher.ScheduleIndexing | internal/indexer/watcher.go:176-191 | the event's timer is the last one armed for the path, the only one if the earlier could be stopped, and other paths keep theirs |
| Watcher.FileWatcher.NoteAppWrite | internal/indexer/watcher.go:278-291 | a timer body that then finds the noted content on disk does nothing; without a hash nothing is noted |
| Watcher.FileWatcher.ExecuteIndexing | internal/indexer/watcher.go:193-239 | the timer body: skip reconciled content, else index, record and report; forget and remove on removal |
| WatcherSettles.NothingIsMissed | internal/indexer/watcher.go:176-239 | in every reachable state, whatever is written and whether or not it can be indexed, a touched readable path has work under way or its reconciled version is on disk |
| WatcherSettles.NextTracked | internal/indexer/watcher.go:193-307 | every step keeps that, for every path |
| WatcherSettles.RowsCatchUp | internal/indexer/watcher.go:210-239 | with every document in a known project, the rows of a path agree with the disk whenever nothing is under way for it |
| WatcherSettles.WriteSettlesIff | internal/indexer/watcher.go:210-217 | a file written to an idle path ends with agreeing rows if and only if its project is known or the rows agreed already |
| WatcherSettles.UnknownProjectUnindexed | internal/indexer/watcher.go:210-217 | a file that is handled and has no rows |
| WatcherSettles.NextSound | internal/indexer/watcher.go:193-307 | every step keeps the rows in pace, documents of known projects given |
| WatcherSettles.SaveIsSilentIff | internal/document/service.go:202-223 | after a save no external-change event follows under any scheduling, if and only if no removal of that path was under way and the document can be indexed |
| WatcherSettles.OvertakenRemoval | internal/document/service.go:164-169 | a run from the start in which a removal is under way at a save of a file that is there |
| WatcherSettles.RunSilent | internal/indexer/watcher.go:303-307 | a reconciled path without removals under way is never reported |
| WatcherSettles.ReportComes | internal/indexer/watcher.go:226-239 | with a removal under way, or a write event for a file that is gone, the watcher's own steps lead to a report |
| WatcherSettles.ChmodDropsWriteIff | internal/indexer/watcher.go:176-191 | a chmod event loses a waiting write for good if and only if the waiting timer is stopped |
| WatcherSettles.ChmodDropsWrite | internal/indexer/watcher.go:176-191 | a write that is lost to a chmod |
| SharedVault.SharedRowsAgree | internal/document/service.go:117-828 | over every run in which service, pulls, watcher and other programs act on the same files and tables in any order, a document with nothing under way has the rows its file calls for, unless a noted version was put back unsafely |
| SharedVault.StepServes | internal/document/service.go:117-828 | every action of the service settles a document's rows or leaves rows and file alone, whatever state the watcher is in |
| SharedVault.EventKeeps | internal/indexer/watcher.go:176-307 | every event keeps the joint invariant, for every document |
| SharedVault.ServedSaveIsSilentIff | internal/document/service.go:202-223 | a save of the service that goes through is never reported as an external change under any scheduling, if and only if no removal of its path was under way |
| SharedVault.PutBackSettlesIff | internal/indexer/watcher.go:176-239 | a file written again while its removal waits ends with agreeing rows if and only if the write does not put back a noted version the rows no longer reflect |
| SharedVault.PutBackIsLost | internal/document/service.go:596-643 | every noted document deleted for good and put back unchanged before the watcher handles the removal ends without rows and with nothing under way |
| SharedVault.PutBackSafeAlone | internal/indexer/watcher.go:278-307 | that cannot happen when only saves and other programs change the path |
| SharedVault.NotedDocument | internal/indexer/watcher.go:210-239 | a run from the start after which a document is active, noted and idle |
| SearchMeaning.CompilationValid | internal/search/fts5.go:142-395 | for every query, the emitted string is a valid FTS5 expression if and only if, branch by branch, the first part is positive and each value read by itself is an expression, up to where an unquoted NUL ends the whole outside parentheses |
| SearchMeaning.CompilationPreservesMeaning | internal/search/fts5.go:142-395 | when every non-empty branch starts positive and every value is one string, the emitted string is valid and matches exactly the rows some branch matches |
| SearchMeaning.LoneNegationRejected | internal/search/fts5.go:342-368 | a query whose output FTS5 rejects |
| SearchValid.AssembleReads | internal/search/fts5.go:231-260 | the joined and parenthesised branches are read as the alternatives they stand for, or rejected, as the verdicts on the branches say |
| SearchValid.BranchEnters | internal/search/fts5.go:350-368 | one branch, wherever it stands, is read as its parts in turn, or breaks or ends the expression |
| SearchValid.ClauseEnters | internal/search/fts5.go:311-345 | so is one clause, in one column or in either |
| SearchSpelling.SpellingReads | internal/search/fts5.go:350-395 | the emitted characters are read token by token |
| SearchSpelling.ValueReads | internal/search/fts5.go:376-395 | an emitted value reads the same whatever follows it: quoted it is one string with exactly the text, or never closed if the text holds a NUL; unquoted it is the text's own characters |
| SearchHoist.HoistingFirstBranch | internal/search/fts5.go:150-223 | skipping ahead and starting from the hoisted scope gives the first branch's own parts |
| SearchHoist.HoistingKeepsBranch | internal/search/fts5.go:193-229 | every branch is converted as if alone from its starting scope |
| SearchHoist.HoistingKeepsQuery | internal/search/fts5.go:142-260 | so is the whole query |
| SearchHoist.ScopeIsLast | internal/search/fts5.go:263-321 | the scope after some items is the last valid one set |
| SearchAsks.CompiledQueryFinds | internal/search/fts5.go:142-395 | when every text is quoted without a NUL or a word, and no branch opens negated, the emitted string matches a row if and only if some branch that asks for something has all its items hold: `title:` and `body:` in their column, other texts in the column named last by `in:` or in either, negated terms not |
| SearchAsks.WildcardIff | internal/search/fts5.go:244-250 | everything is asked for if and only if no branch asks for anything |
| SearchReadable.CompiledQueryValid | internal/search/fts5.go:142-395 | the same said of the query's items, no unquoted text holding a NUL: valid if and only if in every branch the first searching item is not negated and every text is valid |
| SearchReadable.CompiledQueryMeans | internal/search/fts5.go:142-395 | when every text is quoted without a NUL or a word, and no branch opens negated, the expression matches exactly the rows some branch, read alone, matches |
| SearchReadable.TextVerdict | internal/search/fts5.go:376-395 | what becomes of one text in a column: read whole if and only if it is valid, and otherwise breaking the expression unless it is unquoted and holds a NUL |
| SearchReadable.UnknownFilterInvalid | internal/search/fts5.go:305-320 | a filter with an unknown key is valid if and only if something in it makes the compiler quote it, and it holds no NUL |
| SearchReadable.FooBarRejected | internal/search/fts5.go:305-320 | the query foo:bar is rejected |
| SearchReadable.QuotedNulRejected | internal/search/fts5.go:386-395 | a lone item whose text is quoted and holds a NUL is rejected in every scope |
| SearchReadable.TabSplitsText | internal/search/fts5.go:386-395 | any two words with a tab between them are read as the first in the column and the second anywhere |
| SearchReadable.TabMisread | internal/search/fts5.go:386-395 | a query and a row it finds without the row holding what was asked for |
| SearchReadable.NulEndsText | internal/search/fts5.go:386-395 | an unquoted text with a NUL is read up to it in one column and rejected in parentheses |
| SearchCompiler.Compile | internal/search/fts5.go:142-260 | the compiler's loops compute the specified tokens |
| SearchCompiler.ExtractCommon | internal/search/fts5.go:150-191 | the scan for opening filters stops where it should and keeps the last scope |
| SearchCompiler.ConvertItems | internal/search/fts5.go:263-368 | the item loop with its running scope and the joining of parts |
| SearchCompiler.SanitizeTerm | internal/search/fts5.go:400-441 | the character loop computes the specified term |
| SearchReadable.SanitizeDropsNoise | internal/search/fts5.go:400-441 | a sanitised term has none of the twelve characters to drop but a last star, nothing new, and is empty exactly when the term was all such characters |
| SearchReadable.SanitizeSettles | internal/search/fts5.go:400-441 | a sanitised term is unchanged by sanitising again and free of the characters to drop |
| ChunkedUpload.ReassemblyAnyOrder | internal/asset/chunked_upload.go:151-242 | over any run of offered chunks, refused and repeated ones included, bytes counted are bytes stored and within the declared size, and a full count gives the file |
| ChunkedUpload.UploadCompletes | internal/asset/chunked_upload.go:151-207 | a file no larger than declared, each piece of it offered in canonical form at some point, is complete whatever else was offered |
| ChunkedUpload.CanonicalTakenIff | internal/asset/chunked_upload.go:161-197 | a canonical chunk is taken if and only if its index is in range and free and its bytes fit |
| ChunkedUpload.FullCountMeansComplete | internal/asset/chunked_upload.go:203-227 | as many chunks as indices if and only if every index is present |
| ChunkedUpload.PreflightIsSafe | internal/asset/chunked_upload.go:177-197 | the length check never turns away an encoding the size check would accept |
| ChunkedUpload.AssembledSize | internal/asset/chunked_upload.go:229-237 | the result has as many bytes as were counted |
| ChunkedUpload.Session.AddChunk | internal/asset/chunked_upload.go:151-207 | takes a chunk exactly when it passes the gates, reports the count and whether every index is present, and else says which gate and changes nothing |
| ChunkedUpload.UploadManager.AddChunk | internal/asset/chunked_upload.go:151-159 | one step of such a run for the session named; other sessions are untouched |
| ChunkedUpload.Session.Assemble | internal/asset/chunked_upload.go:209-242 | all chunks in index order, or exactly the missing indices, in order |
| ChunkedUpload.UploadManager.CreateSession | internal/asset/chunked_upload.go:118-149 | a session starts empty exactly for valid sizes and counts, and else the error says what is wrong |
| ChunkedUpload.UploadManager.AssembleAndRemove | internal/asset/chunked_upload.go:209-242 | a session is assembled and removed if and only if it is complete; else it stays |

## Left out

- Git subprocesses, their output, timeouts and environment: each command is its effect on histories, index, working tree and unfinished-operation state, with every failure it can report.
- User actions such as `git rebase --skip` or a reset that throw commits away by hand: the model's user keeps every local change when finishing an operation.
- The SQL engine, JSON, SHA-256 and base64 decoding: tables are maps, documents are datatypes, hashes are contents, decoding is a parameter.
- Regular expressions are written out as recognisers; the query lexer and `ExtractFilters` are not modelled, queries start from the tree.
- `ToFTS5Journal`, the journal form of the compiler: the same joining without columns and hoisting.
- Image and file blocks, children under other blocks than list items, and block ids in the codec.
- The pointers between parser nodes: a node's parent is an index, set when the node is added.
- Case folding and white space beyond ASCII letters and the characters the source's functions name.
- The wording and durations of toasts, events other than external changes, logging and clocks; times are integers.
- Backups, fetching and the untracking of stray files before a sync, the commit interval, config files, and the check for a repository: gates whose answer is an outcome.
- Concurrency between document operations: saves and moves are serialised by the source; archive, restore and deletion are taken one at a time too.
- Database errors other than the missing project: the runs are those whose index steps succeed.
- Validation of document contents (lengths, timestamps, block shapes) and size limits: whether a write succeeds is a parameter.
- Unsupported kind strings in a save: the model's kinds are the two that exist and the empty one.
- Tag edits of documents: for the watcher they are writes of another program.
- The watcher's own error channel, directory watching and the filter for document files: events are those of document files.
- The reconciliation at startup: the note it queues is a notification like any other.
- Expiry of upload sessions and the MIME table.
- The user interface, export, plugins, tray, hotkeys, migration, window geometry, preferences and update checks: no part of these properties, or much easier ones.
- FTS5's limits on the depth of an expression, its dropping of words without tokens from an implicit AND, and the syntax whose characters the compiler drops or quotes: NEAR groups, phrases joined by plus signs, initial carets and lists of columns in braces.
- SearchReadable.CompiledQueryValid: leaves out queries with a NUL in an unquoted text, because FTS5 reads such an expression only up to there; `CompilationValid` says of those too when they are valid.
- SyncCover.NoChangeDropped: leaves out harmful resolutions, because `ResolveDropsIff` shows the property fails with them; `NotesAccounted` holds without the limit.
- SyncGuard.NoCommitWhileUnfinished: leaves out merges begun by hand in the window, because `GuardNeedsQuiet` shows the property fails with them.
- SharedVault.SharedRowsAgree: is about documents of known projects, restores of files that are there, deletions that go through, complete change lists and no chmod events, because the results above show what each costs; a put-back is unsafe exactly as `PutBackSettlesIff` says.
- NoLostUpdate.VersionReplacedOnce: assumes the clock advances between two writes, because two identical saves at one instant would write identical versions.
- WatcherSettles.NothingIsMissed: leaves chmod events out, because `ChmodDropsWriteIff` shows the property fails with them.
- WatcherSettles.RowsCatchUp: is about documents of known projects, because the watcher records what it could not index as reconciled (`WriteSettlesIff`).
- WatcherSettles.NextSound: the step of that, with the same limit.
- Agreement.RunInStep: takes the set of known assets as fixed over a run, because asset links are added later by the front end.
