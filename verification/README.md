# Verification of the canvas pages core

This project models, in Dafny, the part of the repository that keeps pages, their versioned
contents and AI suggestions consistent while many calls run at once, and several smaller cores around
it. It proves what those parts promise over whole runs.

## What is modelled

The page protocol is a step machine (`PageProtocol`) over the SQL tables, the versioned content
store and any number of calls in flight. One repository call or transaction, or one Drive call, is one
step; steps of different calls interleave freely. A call in flight holds the row it read and, between
its Drive write and its commit, a snapshot that no row points at yet. `PageInvariant` gives one
invariant over both stores and every pending call, `PageTheorems` what follows over runs, and
`PageProgress` that an uninterrupted call succeeds from every reachable state exactly when its own
checks pass; `PageCreates` does so for creates, with what a second Drive create for one id does, and
`PageMetadata` for metadata updates. `PageContracts`, `RemoteContracts` and `JobContracts` say of every
call what it answers and changes, column by column, from its command and the tables alone.

AI jobs are a second machine (`JobProtocol`), in which even the reads and the conditional updates of
one repository call are separate steps, over job, key, source and suggestion tables. The page tables
are its environment. The page machine in turn stores arbitrary proposed suggestions. `JointProtocol` joins
the two over one suggestion table and shows that every joint run is a run of each, and `JointTheorems`
follows a suggestion from its job's creation to its apply.

The same calls also exist in the source's own form: `Drive.MemoryDrivePageContentPort`,
`Store.SqlCanvasStore` and `Service.CanvasPagesService` are classes whose methods update fields and
call each other in the source's order. Each method's contract equates its new state and result with
a function, and the lemmas are about those functions; `PageProgress` shows that each such call is a
short run of the page machine.

The other cores are LIKE escaping (`Like`), paging (`Paging`), the search projection (`Search`,
`SearchIndex`), FNV-1a and the derived ids (`Fnv`, `StableIds`), the join counts (`JobCounts`),
`remote_apply_page` (`RemoteApply`), the client's note list (`NoteList`, `NoteForest`, `NoteLoad`), and
the route manifest printer and reader (`Regex`, `Routes`). `Fnv.HashOfLetterA` ties the constants of the
hash to a published value.

## Where the code does not give what one might expect

- The checks of a create look at page rows only, so two creates of one id that race, or a retry after a
  lost insert, reach Drive twice (`PageCreates.RacingCreates`, `PageCreates.LostCreateIsReachable`). A
  second Drive create always breaks the history's numbering (`PageCreates.DriveCreateKeepsExactly`), and
  `PageCreates.SecondCreateServesOtherContent` states exactly when the first row is then served the
  second content. The machine therefore allows one Drive create per page id.
- A read between another call's Drive write and its commit fails, because only the Drive head is
  readable: `PageTheorems.ReadsAreNotTorn` states exactly when it succeeds.
- A metadata update without an expected version may write back fields that another call has changed
  since the read: `PageTheorems.PatchIsExact` states exactly which, and
  `PageMetadata.OnlyNamedFieldsChangeExactly` exactly when none.
- A create finds a space without a name out only after Drive has stored the content:
  `PageContracts.CreateAnswers`.
- A second AI job on the same page version is refused, because a source's id leaves the job out:
  `JobCalls.CreateWithUnusedKey` states exactly when, `JobCalls.SecondJobRefused` what a caller sees.
- The offset of a page may overflow 64 bits: `Paging.OffsetFitsExactly` states from which page on.
- A field with a quote, or an empty one, breaks the reading of a printed manifest:
  `Routes.ScanInvertsExactly`.

## Model

| member | source | states |
|---|---|---|
| `Domain.TrimSplits` | crates/sdkwork-canvas-pages-service/src/service.rs:1511-1530 | trimming removes white space around the text and nothing else |
| `Drive.MemoryDrivePageContentPort.NextVersion` | crates/sdkwork-canvas-pages-service/src/infrastructure/drive/memory_page_content.rs:62-74 | the loop finds one more than the largest version number in the page's history, or 1 |
| `Drive.MemoryDrivePageContentPort.CreatePageContent` | crates/sdkwork-canvas-pages-service/src/infrastructure/drive/memory_page_content.rs:24-56 | the whole new state: version 1 of the page, with the ids formatted from the page id, becomes the head and is appended to the history |
| `Drive.MemoryDrivePageContentPort.UpdatePageContent` | crates/sdkwork-canvas-pages-service/src/infrastructure/drive/memory_page_content.rs:58-100 | the whole new state: the content under the next number becomes the head and is appended |
| `Drive.MemoryDrivePageContentPort.ReadPageContent` | crates/sdkwork-canvas-pages-service/src/infrastructure/drive/memory_page_content.rs:102-112 | the head snapshot, or not found |
| `Drive.MemoryDrivePageContentPort.RestorePageContentVersion` | crates/sdkwork-canvas-pages-service/src/infrastructure/drive/memory_page_content.rs:114-159 | a renumbered copy of the first entry with the named id becomes the head and is appended; without such an entry nothing changes |
| `Drive.StoreKeepsInv` | crates/sdkwork-canvas-pages-service/src/infrastructure/drive/memory_page_content.rs:58-100 | storing a valid snapshot under the next number keeps every history numbered 1, 2, 3 ... with one node and space, and the head its last entry |
| `Drive.FindVersionAt` | crates/sdkwork-canvas-pages-service/src/infrastructure/drive/memory_page_content.rs:118-130 | a version id is found exactly at the history position its number names |
| `Ids.VersionIdInjective` | crates/sdkwork-canvas-pages-service/src/infrastructure/drive/memory_page_content.rs:79 | the version id text determines page and number: no two pages or numbers share one |
| `Ids.NodeAndUriTell` | crates/sdkwork-canvas-pages-service/src/infrastructure/drive/memory_page_content.rs:30-34 | a node id determines its page; a Drive uri determines the space when the node is known and the node when the space is known |
| `Ids.ProjectionIdInjective` | crates/sdkwork-canvas-pages-repository-sqlx/src/canvas_store.rs:1611-1614 | the primary key text of a projection row determines page and version |
| `Like.LikeContainsPattern` | crates/sdkwork-canvas-pages-repository-sqlx/src/canvas_store.rs:1459-1473 | the loop builds the escaped pattern of the lowercased query between two percent signs |
| `Like.ContainsPatternIsSubstring` | crates/sdkwork-canvas-pages-repository-sqlx/src/canvas_store.rs:1459-1473 | for every query and text, LIKE with escape backslash accepts the text if and only if the query is a substring of it |
| `Paging.PageInfoFromExtraItem` | crates/sdkwork-canvas-pages-service/src/service.rs:2020-2032 | says whether there were more rows than the page size, and trims the list to the page size |
| `Paging.PageIsSlice` | crates/sdkwork-canvas-pages-service/src/service.rs:2020-2032 | a page holds exactly the rows from its offset on, and the extra row shows up exactly when rows remain |
| `Paging.FollowingHasMoreVisitsAll` | crates/sdkwork-canvas-pages-service/src/service.rs:2002-2032 | following has_more from page 1 ends and visits every row of the ordered result once, in order |
| `Paging.OffsetFitsExactly` | crates/sdkwork-canvas-pages-service/src/service.rs:2002-2019 | a page and size are accepted with the i64 offset (page - 1) * size in range if and only if size is 1 to 200 and page - 1 from 0 to (2^63 - 1) / size, the last of which the service does not check |
| `Search.SortSorts` | crates/sdkwork-canvas-pages-repository-sqlx/src/canvas_store.rs:222-238 | ORDER BY updated_at DESC, id DESC gives a permutation of the rows in that order |
| `SearchIndex.UpsertRestores` | crates/sdkwork-canvas-pages-repository-sqlx/src/canvas_store.rs:1609-1649 | the projection upsert for a row that has not moved back never fails and makes the index agree with the page rows again |
| `SearchIndex.SkippedUpsertKeepsIndex` | crates/sdkwork-canvas-pages-repository-sqlx/src/canvas_store.rs:1229-1357 | an apply that skips the upsert leaves no projection row that could join the page's new version |
| `SearchIndex.StepKeepsIndex` | crates/sdkwork-canvas-pages-repository-sqlx/src/canvas_store.rs:1609-1649 | every step of the protocol keeps the projection rows in agreement with the page rows |
| `SearchIndex.SearchListsSamePages` | crates/sdkwork-canvas-pages-repository-sqlx/src/canvas_store.rs:286-381 | with an index in agreement, search_pages returns the page ids of list_pages in the same order: the join adds, drops and repeats nothing |
| `SearchIndex.ListFindsExactly` | crates/sdkwork-canvas-pages-repository-sqlx/src/canvas_store.rs:208-249 | list_pages pages through exactly the live pages of the workspace that the actor sees and whose lowercased title or snippet contains the query, each once, by descending update time and descending id among equal times |
| `SearchIndex.SearchReturnsRows` | crates/sdkwork-canvas-pages-repository-sqlx/src/canvas_store.rs:286-381 | each row search_pages returns is the page row that list_pages returns at that place, with the same snippet text |
| `PageTheorems.SearchAgreesInEveryRun` | crates/sdkwork-canvas-pages-repository-sqlx/src/canvas_store.rs:208-249 | after any interleaved run search_pages and list_pages return the same ids in the same order, each at most once |
| `PageInvariant.StepKeepsInv` | crates/sdkwork-canvas-pages-service/src/service.rs:558-814 | every repository or Drive step of any client, from every state the invariant describes, keeps the invariant over tables, histories and all pending calls, and only lets the world grow |
| `PageInvariant.WrittenIsNext` | crates/sdkwork-canvas-pages-service/src/service.rs:1651-1790 | whatever races there were, Drive answers a write with the next unused number, and the answer passes all snapshot validations |
| `PageTheorems.ReachableIsSound` | crates/sdkwork-canvas-pages-service/src/service.rs:558-814 | the invariant holds in every state that any interleaving can reach |
| `PageTheorems.CommitWinsExactly` | crates/sdkwork-canvas-pages-repository-sqlx/src/canvas_store.rs:510-572 | a commit goes through if and only if it still finds the live page at the version its client read (and its suggestion still accepted); it then sets the pointer columns, stamp and version of that row and no other column or row, and answers with the snapshot's own fields; otherwise it changes nothing |
| `PageTheorems.MovesAreCommits` | crates/sdkwork-canvas-pages-repository-sqlx/src/canvas_store.rs:510-572 | only commits move a Drive pointer, from exactly the version that client read, to the version it wrote, strictly raising the number |
| `PageTheorems.AtMostOneWinner` | crates/sdkwork-canvas-pages-service/src/service.rs:1773-1790 | of all clients that read the same pointer of a page at most one ever moves it, in runs of any length; successive winners have strictly rising numbers |
| `PageTheorems.PointerNeverReturns` | crates/sdkwork-canvas-pages-service/src/service.rs:1773-1790 | a version id that a pointer has left is never current again |
| `PageTheorems.RowsOnlyMoveOn` | crates/sdkwork-canvas-pages-repository-sqlx/src/canvas_store.rs:383-572 | over any run a row keeps its tenant and workspace, its version counts its changes and its pointer only moves forward |
| `PageTheorems.HistoriesAreAppendOnly` | crates/sdkwork-canvas-pages-service/src/infrastructure/drive/memory_page_content.rs:58-159 | every page's Drive history at one moment of a run is a prefix of its history at any later moment |
| `PageTheorems.ReadsAreNotTorn` | crates/sdkwork-canvas-pages-service/src/service.rs:655-705 | at every moment a read row names an entry of its page's history, and get_page_content answers, field by field, with exactly that entry if it is still the head, and with an error otherwise |
| `PageTheorems.AppliedOnlyAtSource` | crates/sdkwork-canvas-pages-repository-sqlx/src/canvas_store.rs:1229-1357 | a suggestion becomes applied only by a commit that finds it accepted, together with a pointer move of its page, and only from the suggestion's source version |
| `PageTheorems.AtMostOneAppliedPerSource` | crates/sdkwork-canvas-pages-service/src/service.rs:1170-1281 | in no run are two suggestions of one page and source version both applied |
| `PageTheorems.VersionDeterminesRow` | crates/sdkwork-canvas-pages-repository-sqlx/src/canvas_store.rs:383-462 | two moments of a run with the same row version have the same row |
| `PageTheorems.PatchIsExact` | crates/sdkwork-canvas-pages-service/src/service.rs:275-375 | a metadata commit with an expected version goes through if and only if the live row is the row that was read, and then changes exactly the named fields; without one, exactly what it may overwrite; never the Drive pointer |
| `PageTheorems.DeletedStaysGone` | crates/sdkwork-canvas-pages-repository-sqlx/src/canvas_store.rs:464-508 | over any run a deleted page is found by nobody, has no projection row, and its id stays reserved |
| `PageTheorems.SuggestionsOnlyMoveOn` | crates/sdkwork-canvas-pages-repository-sqlx/src/canvas_store.rs:1186-1358 | over every run a suggestion only moves from proposed to accepted or rejected and from accepted to applied; no decision is reversed |
| `PageChecks.TableChecksHold` | crates/sdkwork-canvas-pages-repository-sqlx/src/sqlite_core.sql:79-91 | in every run every page row satisfies the CHECK constraints of its table: the service's own validation is enough |
| `PageProgress.AnyReachableBackendIsSound` | crates/sdkwork-canvas-pages-service/src/service.rs:558-814 | whatever calls are in flight, the tables and Drive alone satisfy the invariant, orphan versions included |
| `PageProgress.UpdateContentIsRun` | crates/sdkwork-canvas-pages-service/src/service.rs:558-653 | an uninterrupted update has the effect of a run of the step machine |
| `PageProgress.UpdateSucceeds` | crates/sdkwork-canvas-pages-service/src/service.rs:558-653 | from every reachable state, an uninterrupted update succeeds if and only if its own checks pass; then pointer, Drive head and last history entry agree, under an unused number, with the given content, and a read returns it |
| `PageProgress.UpdateSucceedsExactly` | crates/sdkwork-canvas-pages-service/src/service.rs:558-653 | an uninterrupted update succeeds if and only if the command is well-formed: named actor and page, live and visible, an object as content, the current version or none expected, metadata that fits; another expected version is a conflict that changes nothing |
| `PageProgress.RestoreSucceeds` | crates/sdkwork-canvas-pages-service/src/service.rs:735-814 | an uninterrupted restore succeeds if and only if its checks pass and the version is in the page's history; it stores that entry's content and metadata under an unused number, else nothing changes |
| `PageProgress.RestoreSucceedsExactly` | crates/sdkwork-canvas-pages-service/src/service.rs:735-814 | an uninterrupted restore succeeds if and only if actor, page and version are named, the page is live and visible, the current version or none is expected, and the version is in the history |
| `PageProgress.ApplySucceeds` | crates/sdkwork-canvas-pages-service/src/service.rs:1134-1292 | an uninterrupted apply whose checks pass stores the payload's content with the payload's content type and schema version, or the page's own where it gives none, and marks the suggestion applied |
| `PageProgress.ApplyAgain` | crates/sdkwork-canvas-pages-service/src/service.rs:1148-1151 | repeating that apply changes nothing and returns the same content |
| `PageProgress.DecideSettles` | crates/sdkwork-canvas-pages-service/src/service.rs:1433-1472 | a decision that succeeds is confirmed when asked again, and the opposite one is a conflict that changes nothing |
| `PageProgress.ApplySucceedsExactly` | crates/sdkwork-canvas-pages-service/src/service.rs:1134-1292 | an uninterrupted apply succeeds if and only if the named suggestion is visible and either accepted, with its page live, in its workspace, at its source version and the expected one, and a payload that fits, or already applied and its page readable |
| `PageProgress.DecidesExactly` | crates/sdkwork-canvas-pages-service/src/service.rs:1433-1472 | a decision succeeds if and only if the suggestion is visible and proposed or already decided that way, changes nothing otherwise, and keeps the invariant |
| `PageCreates.DriveCreateKeepsExactly` | crates/sdkwork-canvas-pages-service/src/infrastructure/drive/memory_page_content.rs:24-56 | a Drive create keeps every history well-formed if and only if the page has no history yet, given a named space: it never looks |
| `PageCreates.SecondCreateServesOtherContent` | crates/sdkwork-canvas-pages-service/src/infrastructure/drive/memory_page_content.rs:24-56 | after two Drive creates for one page id the first creator's row is read without an error if and only if the two agree on space, content type and schema version, and then with the second creator's content |
| `PageCreates.OldestVersionOneIsRestored` | crates/sdkwork-canvas-pages-service/src/infrastructure/drive/memory_page_content.rs:118-130 | version 1 then names two entries: a restore of it takes the oldest, while the head holds the newest content |
| `PageCreates.CreateSucceeds` | crates/sdkwork-canvas-pages-service/src/service.rs:90-195 | a create that passes its checks stores version 1 behind whatever history Drive has, adds exactly the row asked for, which points at it, and a read returns the given content; in a space without a name it fails after the Drive call; else nothing changes |
| `PageCreates.CreateSucceedsExactly` | crates/sdkwork-canvas-pages-service/src/service.rs:90-195 | an uninterrupted create succeeds if and only if the command is well-formed, the workspace exists with a named space, the id is unused by any page row, and the parent, if any, is a live page of the workspace |
| `PageCreates.CreateKeepsSoundExactly` | crates/sdkwork-canvas-pages-service/src/service.rs:117-195 | a create that passes its checks keeps the protocol's invariant if and only if Drive has no history for the page id and the space has a name |
| `PageCreates.LostCreateIsReachable` | crates/sdkwork-canvas-pages-service/src/service.rs:117-195 | a create whose insert is lost leaves a reachable sound state in which the same command passes all its checks again, although Drive has a history |
| `PageCreates.RacingCreates` | crates/sdkwork-canvas-pages-service/src/service.rs:117-195 | two racing creates of one id both pass their checks and Drive calls, the second insert is a conflict, and the first row is read if and only if space and metadata agree, with the second content |
| `PageMetadata.UpdateMetadataSucceedsExactly` | crates/sdkwork-canvas-pages-service/src/service.rs:275-375 | from every reachable state an uninterrupted metadata update succeeds if and only if the page is live and visible, the expected row version, if any, is the current one, the named fields fit, and a new parent is another live page of the workspace; it then writes exactly the row asked for |
| `PageMetadata.AnyReachableBackendIsChecked` | crates/sdkwork-canvas-pages-repository-sqlx/src/sqlite_core.sql:79-91 | whatever calls are in flight, tables and Drive satisfy the invariant and the columns that users set satisfy their CHECK constraints |
| `PageMetadata.UpdateMetadataKeepsChecked` | crates/sdkwork-canvas-pages-service/src/service.rs:275-375 | an uninterrupted metadata update keeps both |
| `PageMetadata.OnlyNamedFieldsChangeExactly` | crates/sdkwork-canvas-pages-service/src/service.rs:275-375 | a racing update without an expected version changes the named fields and no others if and only if the unnamed ones still are as it read them |
| `PageContracts.UpdateAnswers` | crates/sdkwork-canvas-pages-service/src/service.rs:558-653 | update_page_content from the command and tables alone: each error in the order of the checks, or one snapshot appended as the head, the page's row moved to it and otherwise as before, its search row refreshed, and an answer that a read then repeats |
| `PageContracts.RestoreAnswers` | crates/sdkwork-canvas-pages-service/src/service.rs:735-814 | restore_page_version likewise: each error, or a copy of the named entry under the next number |
| `PageContracts.ReadAnswers` | crates/sdkwork-canvas-pages-service/src/service.rs:655-705 | get_page_content: each error, or the fields of the last history entry, to which the row points |
| `PageContracts.ApplyAnswers` | crates/sdkwork-canvas-pages-service/src/service.rs:1134-1292 | apply_ai_suggestion: each error, or the payload stored and current and this suggestion applied and no other, the search row not refreshed; an applied one is only read |
| `PageContracts.DecideAnswers` | crates/sdkwork-canvas-pages-service/src/service.rs:1433-1472 | accept and reject: each error, or this suggestion's status and version and nothing else |
| `PageContracts.CreateAnswers` | crates/sdkwork-canvas-pages-service/src/service.rs:90-195 | create_page: each error in the order of the checks, or the stored snapshot, the whole new row and its search row; a blank space is found out only after Drive has stored the content |
| `PageContracts.MetadataAnswers` | crates/sdkwork-canvas-pages-service/src/service.rs:275-375 | update_page_metadata: each error in the order of the checks, or the named fields set and no others; naming none returns the row |
| `PageContracts.DeleteAnswers` | crates/sdkwork-canvas-pages-repository-sqlx/src/canvas_store.rs:464-508 | delete_page: not found, or the row marked deleted and exactly its search rows gone |
| `PageContracts.AnyDriveWriteAdvances` | crates/sdkwork-canvas-pages-service/src/service.rs:1651-1790 | whatever Drive holds and answers, a snapshot that the service goes on to commit lies ahead of the row that was read, on the same node, and fits the row's columns |
| `PageContracts.AnyDriveReadMatchesRow` | crates/sdkwork-canvas-pages-service/src/service.rs:655-705 | whatever Drive holds, a read that succeeds answers with the row's own references and metadata |
| `RemoteApply.ConflictsChangeNothing` | crates/sdkwork-canvas-pages-service/src/service.rs:401-424 | every conflict outcome leaves tables and Drive as they were |
| `RemoteApply.RemoteApplies` | crates/sdkwork-canvas-pages-service/src/service.rs:377-556 | an error moves no pointer; an applied call answers with the named page's pointer as it is afterwards and moves no other page's |
| `RemoteApply.NeverStale` | crates/sdkwork-canvas-pages-service/src/service.rs:414-424 | a single writer that always sends back the last cursor is never told stale-base-version, in runs of any length over any pages |
| `RemoteApply.DeletedOnlyIfArchived` | crates/sdkwork-canvas-pages-service/src/service.rs:516-537 | a page is deleted only by a permanent delete of it, and only if it is archived or a folder |
| `RemoteApply.RestoreUndoesDelete` | crates/sdkwork-canvas-pages-service/src/service.rs:490-515 | a restore after a delete gives the row back but for its version and update stamp |
| `RemoteApply.ArchiveSucceeds` | crates/sdkwork-canvas-pages-service/src/service.rs:490-515 | delete and restore of a visible page always go through |
| `RemoteApply.UpsertStoresText` | crates/sdkwork-canvas-pages-service/src/service.rs:426-471 | an upsert with a text that goes through makes that text the content of the page's current version |
| `RemoteApply.DeletedForGood` | crates/sdkwork-canvas-pages-repository-sqlx/src/canvas_store.rs:160-173 | however the calls go on, a deleted page is found by nobody, has no projection row, and no page is created under its id |
| `RemoteContracts.RefusalsExactly` | crates/sdkwork-canvas-pages-service/src/service.rs:401-424 | deleted-remotely, stale-base-version and page-not-in-trash are each answered if and only if they are due, with the request's task and the page's pointer, and change nothing |
| `RemoteContracts.RemoteAnswers` | crates/sdkwork-canvas-pages-service/src/service.rs:377-556 | remote_apply_page from the command and tables alone: every error and refusal, and the whole effect of upsert (metadata, then text), move, delete, restore and permanent-delete on every table and Drive, with the cursor and time answered |
| `JobInvariant.InsertKeeps` | crates/sdkwork-canvas-pages-repository-sqlx/src/canvas_store.rs:606-681 | the insert transaction keeps the job, key, source and suggestion tables consistent and only adds to them |
| `JobInvariant.UpdateKeeps` | crates/sdkwork-canvas-pages-repository-sqlx/src/canvas_store.rs:807-952 | a claim, cancel or fail statement keeps the tables consistent and moves the job along one edge of its status graph |
| `JobInvariant.CompleteKeeps` | crates/sdkwork-canvas-pages-repository-sqlx/src/canvas_store.rs:979-1071 | the completion transaction keeps the tables consistent, the recorded count equal to the stored rows |
| `JobRuns.BuiltIsPinned` | crates/sdkwork-canvas-pages-service/src/service.rs:1020-1074 | a suggestion built for a page-targeted job names the job's page and its source's node and version, whatever page the caller asked for |
| `JobRuns.NextJobKeeps` | crates/sdkwork-canvas-pages-service/src/service.rs:844-1079 | every step of any interleaving of job calls keeps the tables consistent and everything the pending calls rely on |
| `JobTheorems.HistoryIsAPath` | crates/sdkwork-canvas-pages-repository-sqlx/src/canvas_store.rs:807-952 | over every run a job's status history is one of six paths from queued, and its row version is the length of that path, at most three |
| `JobTheorems.EndedJobsStay` | crates/sdkwork-canvas-pages-repository-sqlx/src/canvas_store.rs:807-952 | a succeeded, failed or canceled job's row never changes again |
| `JobTheorems.AtMostOneClaim` | crates/sdkwork-canvas-pages-repository-sqlx/src/canvas_store.rs:879-952 | in every run at most one claim of a job succeeds |
| `JobTheorems.AtMostOneEnd` | crates/sdkwork-canvas-pages-repository-sqlx/src/canvas_store.rs:979-1122 | in every run at most one cancel, completion or failure of a job succeeds, counted together |
| `JobTheorems.SuggestionsOfSucceededJobs` | crates/sdkwork-canvas-pages-repository-sqlx/src/canvas_store.rs:979-1071 | in every run a job has suggestions if and only if it succeeded, exactly as many as its result records |
| `JobTheorems.CompletionIsAllOrNothing` | crates/sdkwork-canvas-pages-repository-sqlx/src/canvas_store.rs:992-1071 | a completion stores all its rows under new ids and ends the job, or changes nothing |
| `JobTheorems.OneJobPerKey` | crates/sdkwork-canvas-pages-service/src/service.rs:880-943 | however create calls interleave, all that succeed with one actor and key return the one stored job, and had the same payload |
| `JobTheorems.OneRowPerKey` | crates/sdkwork-canvas-pages-repository-sqlx/src/sqlite_core.sql:202-208 | in every run no two job rows share actor and idempotency key |
| `JobTheorems.ReusedKeyConflicts` | crates/sdkwork-canvas-pages-service/src/service.rs:889-900 | a different payload under a used key is answered with a conflict and stores nothing |
| `JobTheorems.SuggestionsArePinned` | crates/sdkwork-canvas-pages-service/src/service.rs:1403-1430 | every suggestion of a page-targeted job names the target page and the version pinned in the job's only source, a version the page had at some moment of the run |
| `JobTheorems.SourcesStay` | crates/sdkwork-canvas-pages-repository-sqlx/src/canvas_store.rs:647-681 | the sources of a job never change after its creation |
| `JointProtocol.EachSideRuns` | crates/sdkwork-canvas-pages-service/src/service.rs:1170-1281 | when pages and jobs share one suggestion table, every interleaving of both is a run of the page machine and a run of the job machine, so all results about either hold of it |
| `JointTheorems.AppliedAtPinnedVersion` | crates/sdkwork-canvas-pages-service/src/service.rs:1170-1281 | a suggestion of a page-targeted job is applied only on the version its job's source pinned: the page points at it at every moment from the job's creation to the apply, and the apply moves it away |
| `JobCounts.CountsDespiteFanOut` | crates/sdkwork-canvas-pages-repository-sqlx/src/canvas_store.rs:769-792 | over the two-way LEFT JOIN, COUNT(DISTINCT ...) reports exactly the number of a job's sources and of its suggestions, also when a side is empty |
| `JobCounts.ReportedCounts` | crates/sdkwork-canvas-pages-repository-sqlx/src/canvas_store.rs:764-805 | in every run find_ai_job reports one source for a page-targeted job and none for others, and as many suggestions as the result records |
| `JobCalls.CreateWithUnusedKey` | crates/sdkwork-canvas-pages-service/src/service.rs:902-943 | an uninterrupted create under an unused key succeeds if and only if workspace and target exist, the key is at most 255 characters, the derived id is free and the page version is not pinned by another job; it then adds exactly the queued job with its sources |
| `JobCalls.CreateWithUsedKey` | crates/sdkwork-canvas-pages-service/src/service.rs:889-900 | a create under a used key stores nothing and returns the stored job, or a conflict for a different payload |
| `JobCalls.RetryReturnsSameJob` | crates/sdkwork-canvas-pages-service/src/service.rs:880-943 | whatever other creates run in between, a retried create returns the same job and stores nothing |
| `JobCalls.CallsKeep` | crates/sdkwork-canvas-pages-service/src/service.rs:844-1079 | over any sequence of whole calls, each meeting its own page tables, the job tables stay consistent, a job keeps its columns of origin and its row only moves on, and no source is lost |
| `JobCalls.RetryFindsTheJob` | crates/sdkwork-canvas-pages-service/src/service.rs:880-900 | after any creates, claims, cancels, failures and completions, and whatever became of page and workspace, a retried create stores nothing and returns the job's row of that moment |
| `JobCalls.SecondJobRefused` | crates/sdkwork-canvas-pages-service/src/service.rs:902-943 | after a successful page-targeted create and any further calls, a create under another key that finds the page at the same version is a conflict and stores nothing |
| `JobCalls.CallsOnce` | crates/sdkwork-canvas-pages-repository-sqlx/src/canvas_store.rs:807-952 | a claim, cancel or fail that succeeds leaves the target status; repeated, a cancel or fail changes nothing and a claim is refused |
| `JobCalls.CallRefused` | crates/sdkwork-canvas-pages-repository-sqlx/src/canvas_store.rs:807-952 | exactly when a claim, cancel or fail is refused, and that it then changes nothing |
| `JobCalls.CompleteSucceeds` | crates/sdkwork-canvas-pages-service/src/service.rs:996-1079 | an uninterrupted completion either changes nothing or ends the running job with one stored suggestion per input, of that kind and payload, and that count |
| `JobContracts.CreateJobAnswers` | crates/sdkwork-canvas-pages-service/src/service.rs:844-944 | create_ai_job from the command and tables alone: each error in the order of the checks, the job of a used key, or the whole queued row and the whole source row |
| `JobContracts.SecondKeySucceeds` | crates/sdkwork-canvas-pages-service/src/service.rs:1880-1894 | one request under two keys that differ within three bytes creates two jobs |
| `JobContracts.NextVersionSucceeds` | crates/sdkwork-canvas-pages-service/src/service.rs:1896-1915 | once a page has moved on within its first nine versions, a second job for it under such a key goes through |
| `JobContracts.CallAnswers` | crates/sdkwork-canvas-pages-repository-sqlx/src/canvas_store.rs:807-952 | claim, cancel and fail: not found, done already, a conflict, or the new row, by the job's status |
| `JobContracts.FailRecordsError` | crates/sdkwork-canvas-pages-repository-sqlx/src/canvas_store.rs:1073-1122 | a failed job tells the error that it was reported with |
| `JobContracts.CompleteAnswers` | crates/sdkwork-canvas-pages-service/src/service.rs:996-1079 | complete_ai_job from the command and tables alone: each error, that of the first bad input included, a conflict when an id is taken, or one whole suggestion row per input and the succeeded job |
| `JobContracts.EqualInputsGetDistinctIds` | crates/sdkwork-canvas-pages-service/src/service.rs:1917-1937 | up to ten equal inputs of a completion get different suggestion ids |
| `Fnv.Fnv1a64` | crates/sdkwork-canvas-pages-service/src/service.rs:1993-2000 | the loop computes the FNV-1a hash, modulo 2 to the 64 |
| `Fnv.OneByteChangesHash` | crates/sdkwork-canvas-pages-service/src/service.rs:1993-2000 | two byte strings of one length that differ in exactly one position have different hashes |
| `Fnv.HexInjective` | crates/sdkwork-canvas-pages-service/src/service.rs:1893 | fixed-width hexadecimal printing is injective |
| `Fnv.OneByteChangesId` | crates/sdkwork-canvas-pages-service/src/service.rs:1880-1894 | such byte strings give different derived ids |
| `Fnv.ThreeBytesChangeHash` | crates/sdkwork-canvas-pages-service/src/service.rs:1993-2000 | two byte strings of one length that differ only within three consecutive places have different hashes |
| `StableIds.JobIdsDiffer` | crates/sdkwork-canvas-pages-service/src/service.rs:1880-1894 | two requests whose actors, keys and payload hashes differ in one of these five parts, within three bytes, get different job ids |
| `StableIds.SourceIdsDiffer` | crates/sdkwork-canvas-pages-service/src/service.rs:1896-1915 | the same for the seven parts of a source's id |
| `StableIds.NineVersionsGetDistinctSources` | crates/sdkwork-canvas-pages-service/src/service.rs:1896-1915 | any two of a page's versions up to 9 give different source ids, though version id and number both change |
| `StableIds.SuggestionIdsDiffer` | crates/sdkwork-canvas-pages-service/src/service.rs:1917-1937 | the same for the eight parts of a suggestion's id |
| `StableIds.EqualSuggestionsGetDistinctIds` | crates/sdkwork-canvas-pages-service/src/service.rs:1917-1937 | equal suggestions of a completion get different ids whenever the decimal texts of their indexes have one length and agree outside three digits |
| `StableIds.ThousandSuggestionsGetDistinctIds` | crates/sdkwork-canvas-pages-service/src/service.rs:1917-1937 | in particular any two indexes with one number of digits that share all but the last three |
| `Store.SqlCanvasStore.InsertPage` | crates/sdkwork-canvas-pages-repository-sqlx/src/canvas_store.rs:118-158 | the whole new state of the tables and the result |
| `Store.SqlCanvasStore.UpdatePageMetadata` | crates/sdkwork-canvas-pages-repository-sqlx/src/canvas_store.rs:383-462 | the whole new state and the result, including which error an update of no row gives |
| `Store.SqlCanvasStore.DeletePage` | crates/sdkwork-canvas-pages-repository-sqlx/src/canvas_store.rs:464-508 | the row is marked deleted and exactly its projection rows are gone |
| `Store.SqlCanvasStore.UpdatePageDriveSnapshot` | crates/sdkwork-canvas-pages-repository-sqlx/src/canvas_store.rs:510-572 | the compare-and-swap of the pointer and the projection upsert: the whole new state and the result |
| `Store.SqlCanvasStore.UpsertPageSearchProjection` | crates/sdkwork-canvas-pages-repository-sqlx/src/canvas_store.rs:1609-1649 | the loop updates the row of the same page and version or appends one |
| `Store.SqlCanvasStore.DecideAiSuggestion` | crates/sdkwork-canvas-pages-repository-sqlx/src/canvas_store.rs:1186-1219 | only a proposed suggestion changes, and the stored row is returned either way |
| `Store.SqlCanvasStore.ApplyAiSuggestion` | crates/sdkwork-canvas-pages-repository-sqlx/src/canvas_store.rs:1221-1358 | pointer and suggestion move together or, on any early return, not at all |
| `Store.SqlCanvasStore.InsertAiJob` | crates/sdkwork-canvas-pages-repository-sqlx/src/canvas_store.rs:606-681 | job and all sources are stored or, on any clash, none |
| `Store.SqlCanvasStore.CallAiJob` | crates/sdkwork-canvas-pages-repository-sqlx/src/canvas_store.rs:807-952 | claim, cancel and fail: the whole new state and the result |
| `Store.SqlCanvasStore.CompleteAiJob` | crates/sdkwork-canvas-pages-repository-sqlx/src/canvas_store.rs:979-1071 | all suggestions and the status change are stored, or nothing |
| `Service.CanvasPagesService.CreatePage` | crates/sdkwork-canvas-pages-service/src/service.rs:90-195 | check by check, one Drive create, one insert: the new tables, Drive state and result are those of PageCalls.CreatePage, about which PageCreates.CreateSucceeds speaks; an error after the Drive create surfaces as internal |
| `Service.CanvasPagesService.UpdatePageContent` | crates/sdkwork-canvas-pages-service/src/service.rs:558-653 | checks in the source's order, one Drive write, the validations, one compare-and-swap: the new tables, Drive state and result are those of PageCalls.UpdateContent, about which UpdateSucceeds speaks |
| `Service.CanvasPagesService.RestorePageVersion` | crates/sdkwork-canvas-pages-service/src/service.rs:735-814 | checks, one Drive restore, the validations, one compare-and-swap: the new tables, Drive state and result are those of PageCalls.RestoreVersion, about which RestoreSucceeds speaks |
| `Service.CanvasPagesService.GetPageContent` | crates/sdkwork-canvas-pages-service/src/service.rs:655-705 | reads row and head, and returns the content only if all four validations pass; changes nothing |
| `Service.CanvasPagesService.ApplyAiSuggestion` | crates/sdkwork-canvas-pages-service/src/service.rs:1134-1292 | an applied suggestion is answered with the page's content; an accepted one is checked against its source and the expected version, written to Drive and committed in one transaction: PageCalls.ApplySuggestion, about which ApplySucceeds speaks |
| `Service.CanvasPagesService.UpdatePageMetadata` | crates/sdkwork-canvas-pages-service/src/service.rs:275-375 | expected version, parent lookup and field checks in the source's order, then one conditional update; a command that names nothing returns the row: PageCalls.UpdateMetadata, about which UpdateMetadataSucceedsExactly speaks |
| `Service.CanvasPagesService.DecideAiSuggestion` | crates/sdkwork-canvas-pages-service/src/service.rs:1433-1472 | a proposed suggestion is decided once, a decided one confirmed or refused: PageCalls.Decide, about which DecideSettles speaks |
| `Service.CanvasPagesService.RemoteApplyPage` | crates/sdkwork-canvas-pages-service/src/service.rs:377-556 | dispatches to the calls above after the conflict checks: the new tables, Drive state and result are those of RemoteApply.RemoteApplyPage, about which NeverStale and RemoteApplies speak |
| `Service.CanvasPagesService.CreateAiJob` | crates/sdkwork-canvas-pages-service/src/service.rs:844-944 | lookup by key, workspace and target reads, insert, and the second lookup after a conflict: the new tables and result are those of JobCalls.CreateAiJob |
| `Service.CanvasPagesService.CompleteAiJob` | crates/sdkwork-canvas-pages-service/src/service.rs:996-1079 | the loop builds one suggestion per input before the transaction: the new tables and result are those of JobCalls.CompleteAiJob, about which CompleteSucceeds speaks |
| `NoteList.CreateAppends` | apps/sdkwork-canvas-pc/packages/sdkwork-canvas-pc-core/src/store.tsx:46-74 | a created note goes to the end of its parent's children, or to the front of its top-level list; every other list keeps its order |
| `NoteList.MoveUpSwaps` | apps/sdkwork-canvas-pc/packages/sdkwork-canvas-pc-shell/src/canvasListSidebar.tsx:129-161 | a move up exchanges the note with its neighbour in its own sibling list, keeps all other lists and the multiset of notes |
| `NoteList.MoveDownSwaps` | apps/sdkwork-canvas-pc/packages/sdkwork-canvas-pc-shell/src/canvasListSidebar.tsx:129-161 | a move down exchanges the note with its neighbour in its own sibling list, keeps all other lists and the multiset of notes |
| `NoteList.MoveFromOlderList` | apps/sdkwork-canvas-pc/packages/sdkwork-canvas-pc-shell/src/canvasListSidebar.tsx:129-161 | a move picked in a list of any age exchanges the places of the two picked notes in the list it meets, if both are still in one sibling list, leaves all other lists alone, and does nothing if one is gone |
| `NoteList.MoveAtEnd` | apps/sdkwork-canvas-pc/packages/sdkwork-canvas-pc-shell/src/canvasListSidebar.tsx:144-145 | at the end of its list a note does not move |
| `NoteList.MoveSingle` | apps/sdkwork-canvas-pc/packages/sdkwork-canvas-pc-shell/src/canvasListSidebar.tsx:136-145 | an individual top-level note does not move |
| `NoteList.MoveChildIsMove` | apps/sdkwork-canvas-pc/packages/sdkwork-canvas-pc-shell/src/canvasListSidebar.tsx:233-259 | moving a child note is the same move, and does nothing for a note without a parent |
| `NoteList.DeleteRemoves` | apps/sdkwork-canvas-pc/packages/sdkwork-canvas-pc-shell/src/canvasListSidebar.tsx:261-278 | deleting removes the note, for a collection also its direct children, and nothing else |
| `NoteList.WithoutCommutes` | apps/sdkwork-canvas-pc/packages/sdkwork-canvas-pc-core/src/store.tsx:88-97 | a deletion keeps the order of what remains in every list |
| `NoteList.UpdateSets` | apps/sdkwork-canvas-pc/packages/sdkwork-canvas-pc-core/src/store.tsx:76-86 | an edit stores the title, text and parent it is given, and the time; all other notes stay and every note keeps its place |
| `NoteList.SidebarLists` | apps/sdkwork-canvas-pc/packages/sdkwork-canvas-pc-shell/src/canvasListSidebar.tsx:129-161 | each sibling list holds exactly the children of a note, the top-level collections, or the other top-level notes |
| `NoteList.NotesProvider.LandNote` | apps/sdkwork-canvas-pc/packages/sdkwork-canvas-pc-core/src/store.tsx:46-74 | the whole new list after a created note has come back |
| `NoteList.NotesProvider.DeleteNoteWithChildren` | apps/sdkwork-canvas-pc/packages/sdkwork-canvas-pc-shell/src/canvasListSidebar.tsx:261-278 | the whole new list after the confirmed delete |
| `NoteList.NotesProvider.Exchange` | apps/sdkwork-canvas-pc/packages/sdkwork-canvas-pc-shell/src/canvasListSidebar.tsx:150-160 | the swap through a temporary in a copy of the list exchanges exactly two places |
| `NoteList.FindLastChild` | apps/sdkwork-canvas-pc/packages/sdkwork-canvas-pc-core/src/store.tsx:51-54 | the search from the end finds the last sibling, or none |
| `NoteForest.StepKeepsForest` | apps/sdkwork-canvas-pc/packages/sdkwork-canvas-pc-shell/src/NoteItemRow.tsx:112-117 | every transition keeps the list a forest: parents are collections, and a collection's parent is older than it |
| `NoteForest.WalksEndInEveryRun` | apps/sdkwork-canvas-pc/packages/sdkwork-canvas-pc-shell/src/NoteItemRow.tsx:96-110 | from a loaded forest, under any transitions, no note is above itself and each has fewer ancestors than there are notes |
| `NoteForest.TransitionsStore` | apps/sdkwork-canvas-pc/packages/sdkwork-canvas-pc-shell/src/NoteItemRow.tsx:112-117 | an edit stores title and text, a move into a collection makes the note its child, a detach its parent none, and nothing else of the note but its time changes |
| `NoteForest.LandedAsAsked` | apps/sdkwork-canvas-pc/packages/sdkwork-canvas-pc-core/src/store.tsx:46-74 | a landed note is listed with the title, text, kind and parent it was asked for |
| `NoteForest.AncestorsAreParents` | apps/sdkwork-canvas-pc/packages/sdkwork-canvas-pc-shell/src/NoteItemRow.tsx:96-110 | the ancestors are the listed parents, one after the other, as far as there are any |
| `NoteForest.PathFromRoot` | apps/sdkwork-canvas-pc/packages/sdkwork-canvas-pc-shell/src/NoteItemRow.tsx:96-110 | read from the root, a path is the root's title or the placeholder, a slash, and the path below it |
| `NoteForest.ChainIsAncestors` | apps/sdkwork-canvas-pc/packages/sdkwork-canvas-pc-shell/src/canvasListSidebar.tsx:164-192 | the ids opened above a note are those of its ancestors and of a parent that is not listed any more |
| `NoteLoad.LoadedListIsForestExactly` | apps/sdkwork-canvas-pc/packages/sdkwork-canvas-pc-shell/src/NoteItemRow.tsx:96-110 | a loaded list has an order of birth if and only if its ids are distinct, its listed parents are collections and no note is above itself |
| `NoteLoad.RunsStayAcyclic` | apps/sdkwork-canvas-pc/packages/sdkwork-canvas-pc-shell/src/NoteItemRow.tsx:96-117 | these three conditions hold again after whatever the client does |
| `NoteForest.PathTitle` | apps/sdkwork-canvas-pc/packages/sdkwork-canvas-pc-shell/src/NoteItemRow.tsx:96-110 | the walk joins the titles of all ancestors, root first, in at most as many rounds as there are notes |
| `NoteForest.ExpandAncestors` | apps/sdkwork-canvas-pc/packages/sdkwork-canvas-pc-shell/src/canvasListSidebar.tsx:164-192 | exactly the active collection and everything above the active note is opened, changes are reported if and only if something opened, in at most as many rounds as there are notes |
| `Regex.MatchIsComplete` | tools/gen_canvas_combined_http_route_manifest.py:16-24 | a text the pattern describes is matched whole, with the same groups, whatever follows: no backtracking is needed |
| `Regex.MatchIsSound` | tools/gen_canvas_combined_http_route_manifest.py:16-24 | every match is a text the pattern describes |
| `Routes.RouteEntryIsDeterministic` | tools/gen_canvas_combined_http_route_manifest.py:16-24 | ROUTE_ENTRY is such a pattern |
| `Routes.Render` | tools/gen_http_route_manifest_from_json.py:37-72 | the loop prints the preamble, six lines per route in order, and the trailer, or fails on an unknown method |
| `Routes.RenderFailsExactly` | tools/gen_http_route_manifest_from_json.py:37-55 | the printer fails if and only if some route has a method outside its table |
| `Routes.ScanInvertsRender` | tools/gen_http_route_manifest_from_json.py:37-72 | for routes with non-empty quote-free fields, scanning the printed manifest yields one match per route, in order, whose five groups are its auth and method in Rust's names, its path, tag and operation id, and nothing from preamble or trailer |
| `Routes.ScanInvertsExactly` | tools/gen_http_route_manifest_from_json.py:37-72 | that holds if and only if no field is empty or holds a quote |
| `Routes.ExtractHttpRoutes` | tools/gen_canvas_combined_http_route_manifest.py:27-43 | the loop lists one block per match, in order |
| `Routes.Combine` | tools/gen_canvas_combined_http_route_manifest.py:46-78 | the combined manifest of all crates' blocks, or failure when there are none |
| `Routes.CombinedRescans` | tools/gen_canvas_combined_http_route_manifest.py:46-78 | scanning the combined manifest finds exactly the routes extracted from the crates' manifests, in order, whatever those texts were |

## Left out

- HTTP handlers, permissions, bootstrap, workspaces, feedback, version listing, locators, page trees and change tokens, the network Drive client, JSX, editors and preferences: they add plumbing or easy members only.
- Workspace rows are not modelled: their lookups are parameters of the calls, and in the page machine the Drive space of a workspace is any non-blank text.
- JSON text, timestamps and error messages: contents are abstract values with an object flag, an error is its kind, and the clock is an arbitrary integer parameter.
- The serialized request of a job and its hash (lines 1858-1878 of service.rs) are a parameter of the command, as serde_json is not part of this model.
- `create_checkpoint`, change summaries, operator ids passed to Drive and the reload of rows after a write have no effect in the modelled stores.
- 64-bit wrap-around of version numbers and counters: they are unbounded here.
- The page machine leaves out two checks that only refuse calls, the parent page lookups of create and metadata updates: it has more runs than the service. The uninterrupted calls have them.
- Splitting one repository call of the page tables (its update and its projection upsert) between steps: freshness of the projection is not claimed there.
- A Drive call is one step although the memory port takes its two locks one after the other.
- Search and list are modelled within one workspace; the variant of search without one is left out. The lowercasing of the query and SQL's lower() are an arbitrary function that keeps the empty text.
- Rows of jobs, sources and suggestions are never deleted by any call, so their lifecycle column is left out.
- CHECK constraints of the other tables: the service's validation implies them, but for the length of an idempotency key, which is modelled.
- Unicode: trimming, \w and \s are over ASCII characters, and Domain.Trim stands for trim of sdkwork_utils_rust, which is not part of this model.
- `axum_path` and `camel_to_snake`: the printer takes the path already converted.
- Dialogs, expanded flags other than the opening effect, and the persistence of notes in the browser.
- The handlers of the note list see the list as last rendered: `NoteForest` checks there only which ids are collections, which is all that they check and that never changes; every stale list is covered by `Move`, `NoteList.ExchangeReorders` and `NoteList.MoveFromOlderList`.
- PageTheorems.SearchAgreesInEveryRun: holds for repository calls as single steps, because between an update and its projection upsert the index is behind.
- NoteList.MoveFromOlderList: when the two notes picked in an older list are by then in different sibling lists, only ExchangeReorders speaks: the exchange of their places has no simple effect on either list.
- StableIds.EqualSuggestionsGetDistinctIds: for indexes whose texts have one length and agree outside three digits, because for others a 64-bit hash promises nothing; the other id lemmas are limited to three bytes for the same reason.
- RemoteApply.NeverStale: for a single writer, because any other writer moves the pointer that the cursor names.
- RemoteApply.RemoteApplies: does not claim that an upsert with metadata and content is atomic, because the service makes two commits.
- JobTheorems.OneJobPerKey: speaks of the creates that succeed, because a create that loses the race for a source id is refused.
- Nothing was executed: every statement is about the model.
