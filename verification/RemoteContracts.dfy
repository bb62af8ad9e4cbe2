// What remote_apply_page answers, said from the command and the tables alone: every refusal exactly
// when it is due, and the whole effect of every operation.
module RemoteContracts {
  import opened Domain
  import opened Drive
  import opened PageTables
  import opened PageCommands
  import opened SearchIndex
  import opened PageTheorems
  import opened PageCalls
  import opened PageProgress
  import opened PageMetadata
  import opened PageContracts
  import opened RemoteApply

  predicate RemoteIsWellFormed(cmd: RemoteCommand) {
    && Names(cmd.actor, cmd.pageId) && !IsBlank(cmd.idempotencyKey) && !IsBlank(cmd.taskId) && !IsBlank(cmd.operation)
    && Trim(cmd.entityId) == Trim(cmd.pageId) && Trim(cmd.entityType) == "note"
  }

  // The base sent, if any, is not the page's pointer.
  predicate BaseIsStale(db: Db, cmd: RemoteCommand)
    requires Trim(cmd.pageId) in db.pages
  {
    cmd.base.Some? && !IsBlank(cmd.base.value) && Trim(cmd.base.value) != db.pages[Trim(cmd.pageId)].versionId
  }

  predicate InTrash(p: Page) {
    p.archiveStatus == "archived" || p.kind == Folder
  }

  predicate RefusedAs(result: Result<RemoteResult>, code: ConflictCode) {
    result.Ok? && result.value.Refused? && result.value.code == code
  }

  lemma StartsRemoteExactly(cmd: RemoteCommand)
    ensures if RemoteIsWellFormed(cmd)
            then StartRemote(cmd) == Ok(RemoteRequest(Actor(Trim(cmd.actor.tenant), Trim(cmd.actor.organization), Trim(cmd.actor.operator)),
                                                      Trim(cmd.pageId), Trim(cmd.taskId), Trim(cmd.operation)))
            else StartRemote(cmd) == Err(Validation)
  {
  }

  // An operation past the conflict checks is refused only as a permanent delete.
  lemma DispatchRefuses(b: Backend, r: RemoteRequest, m: Mutation, now: int)
    requires FindPage(b.db, r.actor, r.pageId).Ok?
    ensures var result := PermanentDelete(b, r, m, b.db.pages[r.pageId], now).1;
            && (result.Ok? && result.value.Refused? <==> m.PermanentDeleteIntent? && !InTrash(b.db.pages[r.pageId]))
            && (result.Ok? && result.value.Refused? ==>
                  result == Ok(Refused(r.taskId, Some(b.db.pages[r.pageId].versionId), PageNotInTrash)))
  {
  }

  // Each of the three refusals is given if and only if it is due, with the page's pointer, or for a
  // page out of sight the base that was sent, and nothing changes.
  lemma RefusalsExactly(b: Backend, cmd: RemoteCommand, now: int, later: int)
    ensures var (next, result) := RemoteApplyPage(b, cmd, now, later);
            var id, task := Trim(cmd.pageId), Trim(cmd.taskId);
            && (RefusedAs(result, DeletedRemotely) <==> RemoteIsWellFormed(cmd) && !Sees(b.db, cmd.actor, cmd.pageId))
            && (RefusedAs(result, StaleBaseVersion) <==>
                  RemoteIsWellFormed(cmd) && Sees(b.db, cmd.actor, cmd.pageId) && BaseIsStale(b.db, cmd))
            && (RefusedAs(result, PageNotInTrash) <==>
                  (&& RemoteIsWellFormed(cmd) && Sees(b.db, cmd.actor, cmd.pageId) && !BaseIsStale(b.db, cmd)
                   && Trim(cmd.operation) == "permanent-delete" && cmd.mutation.PermanentDeleteIntent? && !InTrash(b.db.pages[id])))
            && (RefusedAs(result, DeletedRemotely) ==> next == b && result == Ok(Refused(task, cmd.base, DeletedRemotely)))
            && (RefusedAs(result, StaleBaseVersion) ==>
                  next == b && result == Ok(Refused(task, Some(b.db.pages[id].versionId), StaleBaseVersion)))
            && (RefusedAs(result, PageNotInTrash) ==>
                  next == b && result == Ok(Refused(task, Some(b.db.pages[id].versionId), PageNotInTrash)))
  {
    StartsRemoteExactly(cmd);
    if RemoteIsWellFormed(cmd) && Sees(b.db, cmd.actor, cmd.pageId) {
      DispatchRefuses(b, StartRemote(cmd).value, cmd.mutation, now);
    }
  }

  /* The operations */

  // The command without its surrounding white space, as the operations meet it.
  function RequestOf(cmd: RemoteCommand): RemoteRequest {
    RemoteRequest(Actor(Trim(cmd.actor.tenant), Trim(cmd.actor.organization), Trim(cmd.actor.operator)),
                  Trim(cmd.pageId), Trim(cmd.taskId), Trim(cmd.operation))
  }

  predicate Normalized(b: Backend, r: RemoteRequest) {
    && NormalizeActor(r.actor) == Ok(r.actor) && NormalizeRequired(r.pageId) == Ok(r.pageId)
    && r.pageId in b.db.pages && SeesRow(b.db, r.actor, r.pageId)
  }

  // One metadata commit: the page's row becomes `q`, and nothing else changes but its search row.
  ghost predicate RowSet(b: Backend, next: Backend, id: string, q: Page) {
    && next.db.pages == b.db.pages[id := q] && next.db.suggestions == b.db.suggestions && next.drive == b.drive
    && Projected(next.db, id)
  }

  function Stamped(p: Page, r: RemoteRequest, now: int): Page {
    p.(version := p.version + 1, updatedBy := r.actor.operator, updatedAt := now)
  }

  predicate AppliedAs(result: Result<RemoteResult>, task: string, cursor: string, appliedAt: int) {
    result.Ok? && result.value.Applied? && result.value.taskId == task && result.value.cursor == cursor && result.value.appliedAt == appliedAt
  }

  // A new parent must be another live page of the page's workspace.
  function ParentError(db: Db, r: RemoteRequest, parentId: Option<string>): Option<Error>
    requires r.pageId in db.pages
  {
    if parentId.None? then None
    else if !SeesRow(db, r.actor, parentId.value) || db.pages[parentId.value].workspaceId != db.pages[r.pageId].workspaceId
    then Some(NotFound)
    else if parentId.value == r.pageId then Some(Validation)
    else None
  }

  ghost predicate Moved(b: Backend, r: RemoteRequest, m: Mutation, now: int, next: Backend, result: Result<RemoteResult>)
    requires r.pageId in b.db.pages
  {
    var p := b.db.pages[r.pageId];
    if !m.Move? then next == b && result == Err(Validation)
    else
      match ParentError(b.db, r, m.targetParentId)
      case Some(e) => next == b && result == Err(e)
      case None =>
        && RowSet(b, next, r.pageId, Stamped(p, r, now).(parentId := m.targetParentId))
        && AppliedAs(result, r.taskId, p.versionId, now)
  }

  ghost predicate StatusSet(b: Backend, r: RemoteRequest, status: string, now: int, next: Backend, result: Result<RemoteResult>)
    requires r.pageId in b.db.pages
  {
    var p := b.db.pages[r.pageId];
    && RowSet(b, next, r.pageId, Stamped(p, r, now).(archiveStatus := status))
    && AppliedAs(result, r.taskId, p.versionId, now)
  }

  // The page is marked deleted and found by no search; the answer's time is that of the row before.
  ghost predicate Deletes(b: Backend, r: RemoteRequest, m: Mutation, now: int, next: Backend, result: Result<RemoteResult>)
    requires r.pageId in b.db.pages
  {
    var p := b.db.pages[r.pageId];
    if !m.PermanentDeleteIntent? then next == b && result == Err(Validation)
    else if !InTrash(p) then next == b && result == Ok(Refused(r.taskId, Some(p.versionId), PageNotInTrash))
    else
      && next.db.pages == b.db.pages[r.pageId := Stamped(p, r, now).(deleted := true)]
      && next.drive == b.drive && next.db.suggestions == b.db.suggestions
      && (forall sp :: sp in next.db.projections <==> sp in b.db.projections && sp.pageId != r.pageId)
      && AppliedAs(result, r.taskId, p.versionId, p.updatedAt)
  }

  // The metadata of an upsert.
  predicate PatchEmpty(m: Mutation)
    requires m.UpsertPatch?
  {
    m.title == None && m.favorite == None && m.publishStatus == None && m.parentId == None
  }

  function PatchError(db: Db, r: RemoteRequest, m: Mutation): Option<Error>
    requires m.UpsertPatch? && r.pageId in db.pages
  {
    var parent := ParentError(db, r, m.parentId.GetOr(None));
    if parent.Some? then parent
    else if !TitleFits(m.title) || !OneOf(m.publishStatus, {"private", "published", "unlisted"}) then Some(Validation)
    else None
  }

  function PatchedRow(p: Page, r: RemoteRequest, m: Mutation, now: int): Page
    requires m.UpsertPatch?
  {
    if PatchEmpty(m) then p
    else
      Stamped(p, r, now).(title := if m.title.Some? then Trim(m.title.value) else p.title,
                          favorite := m.favorite.GetOr(p.favorite),
                          publishStatus := if m.publishStatus.Some? then Trim(m.publishStatus.value) else p.publishStatus,
                          parentId := if m.parentId.Some? then m.parentId.value else p.parentId)
  }

  // The metadata is written first and the text after it, as the page's next version with the page's
  // own content type and schema version.
  ghost predicate Upserted(b: Backend, r: RemoteRequest, m: Mutation, now: int, later: int, next: Backend, result: Result<RemoteResult>)
    requires r.pageId in b.db.pages
  {
    if !m.UpsertPatch? then next == b && result == Err(Validation)
    else if PatchError(b.db, r, m).Some? then next == b && result == Err(PatchError(b.db, r, m).value)
    else
      var p := PatchedRow(b.db.pages[r.pageId], r, m, now);
      match m.content
      case None =>
        && AppliedAs(result, r.taskId, p.versionId, p.updatedAt)
        && (if PatchEmpty(m) then next == b else RowSet(b, next, r.pageId, p))
      case Some(text) => exists s :: TextWritten(b, r, p, s, text, later, next, result)
  }

  ghost predicate TextWritten(b: Backend, r: RemoteRequest, p: Page, s: Snapshot, text: string, later: int,
                              next: Backend, result: Result<RemoteResult>) {
    TextStored(b, r.pageId, p, s, text, next.drive) && TextRow(b, r, p, s, later, next.db) && AppliedAs(result, r.taskId, s.versionId, later)
  }

  predicate TextStored(b: Backend, id: string, p: Page, s: Snapshot, text: string, drive: DriveState) {
    && s.versionNo == |History(b.drive, id)| + 1 && StoredWrite(p, s, Json(true, text), p.contentType, p.schemaVersion)
    && drive.versions == b.drive.versions[id := History(b.drive, id) + [s]] && drive.records == b.drive.records[id := s]
  }

  ghost predicate TextRow(b: Backend, r: RemoteRequest, p: Page, s: Snapshot, later: int, db: Db) {
    && r.pageId in db.pages && MovedTo(p, db.pages[r.pageId], s, r.actor.operator, later)
    && db.pages == b.db.pages[r.pageId := db.pages[r.pageId]] && db.suggestions == b.db.suggestions && Projected(db, r.pageId)
  }

  // Metadata commands that name the page as the request does.
  predicate OfRequest(r: RemoteRequest, cmd: MetadataCommand) {
    cmd.actor == r.actor && cmd.pageId == r.pageId && cmd.expectedVersion.None?
  }

  function SetError(db: Db, r: RemoteRequest, cmd: MetadataCommand): Option<Error>
    requires r.pageId in db.pages
  {
    var parent := ParentError(db, r, cmd.parentId.GetOr(None));
    if parent.Some? then parent else if !FieldsFit(cmd) then Some(Validation) else None
  }

  ghost predicate SetOutcome(b: Backend, r: RemoteRequest, cmd: MetadataCommand, now: int, next: Backend, page: Result<Page>)
    requires r.pageId in b.db.pages
  {
    match SetError(b.db, r, cmd)
    case Some(e) => next == b && page == Err(e)
    case None =>
      if NoFieldNamed(cmd) then next == b && page == Ok(b.db.pages[r.pageId])
      else page == Ok(AskedFor(b.db.pages[r.pageId], cmd, r.actor, now)) && RowSet(b, next, r.pageId, page.value)
  }

  lemma SameError(db: Db, r: RemoteRequest, cmd: MetadataCommand)
    requires OfRequest(r, cmd) && NormalizeActor(r.actor) == Ok(r.actor) && NormalizeRequired(r.pageId) == Ok(r.pageId)
    requires r.pageId in db.pages && SeesRow(db, r.actor, r.pageId)
    ensures MetadataError(db, cmd) == SetError(db, r, cmd)
  {
  }

  lemma SetsRow(b: Backend, r: RemoteRequest, cmd: MetadataCommand, now: int)
    requires CheckedBackend(b) && Normalized(b, r) && OfRequest(r, cmd)
    ensures SetOutcome(b, r, cmd, now, UpdateMetadata(b, cmd, now).0, UpdateMetadata(b, cmd, now).1)
  {
    MetadataAnswers(b, cmd, now);
    SameError(b.db, r, cmd);
  }

  // The answer of an operation that ends with a page.
  function ResultOf(r: RemoteRequest, page: Result<Page>): Result<RemoteResult> {
    if page.Ok? then Ok(RemoteResult.Applied(r.taskId, page.value.versionId, page.value.updatedAt)) else Err(page.error)
  }

  lemma MovedBy(b: Backend, r: RemoteRequest, target: Option<string>, now: int, next: Backend, page: Result<Page>)
    requires r.pageId in b.db.pages && SetOutcome(b, r, Metadata(r).(parentId := Some(target)), now, next, page)
    ensures Moved(b, r, Move(target), now, next, ResultOf(r, page))
  {
  }

  lemma MoveAnswers(b: Backend, r: RemoteRequest, m: Mutation, now: int, later: int)
    requires CheckedBackend(b) && Normalized(b, r) && r.operation == "move"
    ensures var (next, page) := Mutate(b, r, m, now, later);
            Moved(b, r, m, now, next, ResultOf(r, page))
  {
    if m.Move? {
      var (next, page) := Mutate(b, r, m, now, later);
      SetsRow(b, r, Metadata(r).(parentId := Some(m.targetParentId)), now);
      MovedBy(b, r, m.targetParentId, now, next, page);
    }
  }

  lemma StatusSetBy(b: Backend, r: RemoteRequest, status: string, now: int, next: Backend, page: Result<Page>)
    requires r.pageId in b.db.pages && (status == "archived" || status == "active")
    requires SetOutcome(b, r, Metadata(r).(archiveStatus := Some(status)), now, next, page)
    ensures StatusSet(b, r, status, now, next, ResultOf(r, page))
  {
    StatusIsTrimmed();
  }

  function StatusOf(operation: string): string {
    if operation == "delete" then "archived" else "active"
  }

  lemma StatusAnswers(b: Backend, r: RemoteRequest, m: Mutation, now: int, later: int)
    requires CheckedBackend(b) && Normalized(b, r) && (r.operation == "delete" || r.operation == "restore")
    ensures var (next, page) := Mutate(b, r, m, now, later);
            StatusSet(b, r, StatusOf(r.operation), now, next, ResultOf(r, page))
  {
    var (next, page) := Mutate(b, r, m, now, later);
    SetsRow(b, r, Metadata(r).(archiveStatus := Some(StatusOf(r.operation))), now);
    StatusSetBy(b, r, StatusOf(r.operation), now, next, page);
  }

  lemma PermanentDeleteAnswers(b: Backend, r: RemoteRequest, m: Mutation, now: int)
    requires IndexInv(b.db) && Normalized(b, r)
    ensures var (next, result) := PermanentDelete(b, r, m, b.db.pages[r.pageId], now);
            Deletes(b, r, m, now, next, result)
  {
    DeleteAnswers(b.db, r.actor, r.pageId, now);
  }

  lemma PatchedBy(b: Backend, r: RemoteRequest, m: Mutation, now: int, next: Backend, page: Result<Page>)
    requires r.pageId in b.db.pages && m.UpsertPatch? && SetOutcome(b, r, PatchOf(r, m), now, next, page)
    ensures if PatchError(b.db, r, m).Some? then next == b && page == Err(PatchError(b.db, r, m).value)
            else page.Ok? && (if PatchEmpty(m) then next == b else RowSet(b, next, r.pageId, PatchedRow(b.db.pages[r.pageId], r, m, now)))
  {
  }

  lemma UpsertPatchAnswers(b: Backend, r: RemoteRequest, m: Mutation, now: int)
    requires CheckedBackend(b) && Normalized(b, r) && m.UpsertPatch?
    ensures var (next, patched) := UpsertMetadata(b, r, m, now);
            if PatchError(b.db, r, m).Some? then next == b && patched == Err(PatchError(b.db, r, m).value)
            else patched.Ok? && (if PatchEmpty(m) then next == b else RowSet(b, next, r.pageId, PatchedRow(b.db.pages[r.pageId], r, m, now)))
  {
    var (next, page) := UpdateMetadata(b, PatchOf(r, m), now);
    SetsRow(b, r, PatchOf(r, m), now);
    PatchedBy(b, r, m, now, next, page);
  }

  // The state between the two commits of an upsert.
  predicate Between(b: Backend, mid: Backend, id: string, p: Page) {
    && mid.db.pages == b.db.pages[id := p] && mid.db.suggestions == b.db.suggestions && mid.drive == b.drive
  }

  lemma TextFits(b: Backend, r: RemoteRequest, text: string)
    requires SoundBackend(b) && Normalized(b, r)
    ensures UpdateError(b.db, TextUpdate(r, text, b.db.pages[r.pageId].versionId)) == None
  {
    CursorIsTrimmed(b, r.pageId);
  }

  lemma TextAsAsked(r: RemoteRequest, p: Page, s: Snapshot, text: string, versionId: string)
    requires StoredAsAsked(TextUpdate(r, text, versionId), p, s)
    ensures StoredWrite(p, s, Json(true, text), p.contentType, p.schemaVersion)
  {
  }

  lemma WrittenStored(b: Backend, mid: Backend, r: RemoteRequest, p: Page, s: Snapshot, text: string, later: int,
                      next: Backend, content: Result<PageContent>)
    requires mid.drive == b.drive && StoredWrite(p, s, Json(true, text), p.contentType, p.schemaVersion)
    requires ContentWritten(mid, next, r.actor, r.pageId, s, content, later)
    ensures TextStored(b, r.pageId, p, s, text, next.drive)
  {
  }

  lemma WrittenRow(b: Backend, mid: Backend, r: RemoteRequest, p: Page, s: Snapshot, later: int, next: Db)
    requires Between(b, mid, r.pageId, p) && NormalizeActor(r.actor) == Ok(r.actor)
    requires OnlyMoves(mid.db, next, r.pageId, s, Trim(r.actor.operator), later) && Projected(next, r.pageId)
    requires next.suggestions == mid.db.suggestions
    ensures TextRow(b, r, p, s, later, next)
  {
    assert b.db.pages[r.pageId := p][r.pageId := next.pages[r.pageId]] == b.db.pages[r.pageId := next.pages[r.pageId]];
  }

  ghost predicate TextOutcome(b: Backend, mid: Backend, r: RemoteRequest, p: Page, text: string, later: int) {
    var (next, updated) := UpsertContent(mid, r, Some(text), later);
    && updated.Ok? && FindPage(next.db, r.actor, r.pageId).Ok?
    && exists s :: TextWritten(b, r, p, s, text, later, next, ResultOf(r, FindPage(next.db, r.actor, r.pageId)))
  }

  // The text part, after the metadata part.
  lemma TextAnswers(b: Backend, mid: Backend, r: RemoteRequest, p: Page, text: string, later: int)
    requires SoundBackend(mid) && Normalized(mid, r) && Between(b, mid, r.pageId, p)
    ensures TextOutcome(b, mid, r, p, text, later)
  {
    var update := TextUpdate(r, text, p.versionId);
    var (next, content) := UpdateContent(mid, update, later);
    TextFits(mid, r, text);
    UpdateAnswers(mid, update, later);
    var s :| StoredAsAsked(update, p, s) && ContentWritten(mid, next, r.actor, r.pageId, s, content, later);
    var page := FindPage(next.db, r.actor, r.pageId);
    assert page == Ok(next.db.pages[r.pageId]);
    TextAsAsked(r, p, s, text, p.versionId);
    WrittenStored(b, mid, r, p, s, text, later, next, content);
    WrittenRow(b, mid, r, p, s, later, next.db);
    assert TextWritten(b, r, p, s, text, later, next, ResultOf(r, page));
  }

  lemma RowStaysSeen(b: Backend, mid: Backend, r: RemoteRequest, p: Page)
    requires Normalized(b, r) && Between(b, mid, r.pageId, p)
    requires p.tenant == b.db.pages[r.pageId].tenant && p.organization == b.db.pages[r.pageId].organization && !p.deleted
    ensures Normalized(mid, r) && FindPage(mid.db, r.actor, r.pageId) == Ok(p)
  {
  }

  lemma UpsertFails(b: Backend, r: RemoteRequest, m: Mutation, now: int, later: int)
    requires m.UpsertPatch? && r.pageId in b.db.pages && PatchError(b.db, r, m).Some?
    requires UpsertMetadata(b, r, m, now) == (b, Err(PatchError(b.db, r, m).value))
    ensures Upserted(b, r, m, now, later, Upsert(b, r, m, now, later).0, ResultOf(r, Upsert(b, r, m, now, later).1))
  {
  }

  lemma UpsertWithoutText(b: Backend, mid: Backend, r: RemoteRequest, m: Mutation, now: int, later: int)
    requires m.UpsertPatch? && m.content.None? && r.pageId in b.db.pages && PatchError(b.db, r, m).None?
    requires UpsertMetadata(b, r, m, now) == (mid, Ok(()))
    requires FindPage(mid.db, r.actor, r.pageId) == Ok(PatchedRow(b.db.pages[r.pageId], r, m, now))
    requires if PatchEmpty(m) then mid == b else RowSet(b, mid, r.pageId, PatchedRow(b.db.pages[r.pageId], r, m, now))
    ensures Upserted(b, r, m, now, later, Upsert(b, r, m, now, later).0, ResultOf(r, Upsert(b, r, m, now, later).1))
  {
  }

  lemma UpsertWithText(b: Backend, mid: Backend, r: RemoteRequest, m: Mutation, now: int, later: int, next: Backend)
    requires m.UpsertPatch? && m.content.Some? && r.pageId in b.db.pages && PatchError(b.db, r, m).None?
    requires UpsertMetadata(b, r, m, now) == (mid, Ok(())) && UpsertContent(mid, r, m.content, later) == (next, Ok(()))
    requires exists s :: TextWritten(b, r, PatchedRow(b.db.pages[r.pageId], r, m, now), s, m.content.value, later, next,
                                     ResultOf(r, FindPage(next.db, r.actor, r.pageId)))
    ensures Upserted(b, r, m, now, later, Upsert(b, r, m, now, later).0, ResultOf(r, Upsert(b, r, m, now, later).1))
  {
  }

  // What the text part needs, and gives, in the state after the metadata part.
  lemma MidAnswers(b: Backend, mid: Backend, r: RemoteRequest, m: Mutation, now: int, later: int, p: Page)
    requires SoundBackend(b) && Normalized(b, r) && m.UpsertPatch? && UpsertMetadata(b, r, m, now) == (mid, Ok(()))
    requires p == PatchedRow(b.db.pages[r.pageId], r, m, now) && Between(b, mid, r.pageId, p)
    ensures FindPage(mid.db, r.actor, r.pageId) == Ok(p)
    ensures m.content.Some? ==> TextOutcome(b, mid, r, p, m.content.value, later)
  {
    RowStaysSeen(b, mid, r, p);
    if m.content.Some? {
      UpsertMetadataKeeps(b, r, m, now);
      RunsKeepSound(b, mid);
      TextAnswers(b, mid, r, p, m.content.value, later);
    }
  }

  lemma PatchedUpsert(b: Backend, mid: Backend, r: RemoteRequest, m: Mutation, now: int, later: int, p: Page)
    requires m.UpsertPatch? && r.pageId in b.db.pages && PatchError(b.db, r, m).None? && UpsertMetadata(b, r, m, now) == (mid, Ok(()))
    requires p == PatchedRow(b.db.pages[r.pageId], r, m, now) && FindPage(mid.db, r.actor, r.pageId) == Ok(p)
    requires if PatchEmpty(m) then mid == b else RowSet(b, mid, r.pageId, p)
    requires m.content.Some? ==> TextOutcome(b, mid, r, p, m.content.value, later)
    ensures Upserted(b, r, m, now, later, Upsert(b, r, m, now, later).0, ResultOf(r, Upsert(b, r, m, now, later).1))
  {
    if m.content.None? {
      UpsertWithoutText(b, mid, r, m, now, later);
    } else {
      UpsertWithText(b, mid, r, m, now, later, UpsertContent(mid, r, m.content, later).0);
    }
  }

  lemma PatchedIsBetween(b: Backend, mid: Backend, r: RemoteRequest, m: Mutation, p: Page, now: int)
    requires m.UpsertPatch? && r.pageId in b.db.pages && p == PatchedRow(b.db.pages[r.pageId], r, m, now)
    requires if PatchEmpty(m) then mid == b else RowSet(b, mid, r.pageId, p)
    ensures Between(b, mid, r.pageId, p)
  {
    assert b.db.pages[r.pageId := b.db.pages[r.pageId]] == b.db.pages;
  }

  lemma UpsertAnswers(b: Backend, r: RemoteRequest, m: Mutation, now: int, later: int)
    requires CheckedBackend(b) && Normalized(b, r) && m.UpsertPatch?
    ensures Upserted(b, r, m, now, later, Upsert(b, r, m, now, later).0, ResultOf(r, Upsert(b, r, m, now, later).1))
  {
    UpsertPatchAnswers(b, r, m, now);
    if PatchError(b.db, r, m).Some? {
      UpsertFails(b, r, m, now, later);
    } else {
      var mid, p := UpsertMetadata(b, r, m, now).0, PatchedRow(b.db.pages[r.pageId], r, m, now);
      PatchedIsBetween(b, mid, r, m, p, now);
      MidAnswers(b, mid, r, m, now, later, p);
      PatchedUpsert(b, mid, r, m, now, later, p);
    }
  }

  /* The whole call */

  ghost predicate Dispatched(b: Backend, r: RemoteRequest, m: Mutation, now: int, later: int, next: Backend, result: Result<RemoteResult>)
    requires r.pageId in b.db.pages
  {
    if r.operation == "upsert" then Upserted(b, r, m, now, later, next, result)
    else if r.operation == "move" then Moved(b, r, m, now, next, result)
    else if r.operation == "delete" then StatusSet(b, r, "archived", now, next, result)
    else if r.operation == "restore" then StatusSet(b, r, "active", now, next, result)
    else if r.operation == "permanent-delete" then Deletes(b, r, m, now, next, result)
    else next == b && result == Err(Validation)
  }

  lemma MutateAnswers(b: Backend, r: RemoteRequest, m: Mutation, now: int, later: int)
    requires CheckedBackend(b) && Normalized(b, r) && r.operation != "permanent-delete"
    ensures var (next, page) := Mutate(b, r, m, now, later);
            Dispatched(b, r, m, now, later, next, ResultOf(r, page))
  {
    if r.operation == "upsert" {
      if m.UpsertPatch? {
        UpsertAnswers(b, r, m, now, later);
      }
    } else if r.operation == "move" {
      MoveAnswers(b, r, m, now, later);
    } else if r.operation == "delete" || r.operation == "restore" {
      StatusAnswers(b, r, m, now, later);
    }
  }

  // A call that passes the conflict checks is its operation.
  lemma Dispatches(b: Backend, cmd: RemoteCommand, r: RemoteRequest, now: int, later: int)
    requires StartRemote(cmd) == Ok(r) && r.pageId == Trim(cmd.pageId) && FindPage(b.db, r.actor, r.pageId).Ok? && !BaseIsStale(b.db, cmd)
    ensures RemoteApplyPage(b, cmd, now, later)
         == if r.operation == "permanent-delete" then PermanentDelete(b, r, cmd.mutation, b.db.pages[r.pageId], now)
            else (Mutate(b, r, cmd.mutation, now, later).0, ResultOf(r, Mutate(b, r, cmd.mutation, now, later).1))
  {
  }

  lemma OperationAnswers(b: Backend, cmd: RemoteCommand, r: RemoteRequest, now: int, later: int)
    requires CheckedBackend(b) && Normalized(b, r) && StartRemote(cmd) == Ok(r) && r.pageId == Trim(cmd.pageId)
    requires FindPage(b.db, r.actor, r.pageId).Ok? && !BaseIsStale(b.db, cmd)
    ensures Dispatched(b, r, cmd.mutation, now, later, RemoteApplyPage(b, cmd, now, later).0, RemoteApplyPage(b, cmd, now, later).1)
  {
    Dispatches(b, cmd, r, now, later);
    if r.operation == "permanent-delete" {
      PermanentDeleteAnswers(b, r, cmd.mutation, now);
    } else {
      MutateAnswers(b, r, cmd.mutation, now, later);
    }
  }

  lemma RequestIsNormalized(b: Backend, cmd: RemoteCommand)
    requires RemoteIsWellFormed(cmd) && Sees(b.db, cmd.actor, cmd.pageId)
    ensures Normalized(b, RequestOf(cmd)) && FindPage(b.db, RequestOf(cmd).actor, Trim(cmd.pageId)).Ok?
  {
    assert NormalizeRequired(cmd.actor.tenant) == Ok(Trim(cmd.actor.tenant));
    assert NormalizeRequired(cmd.actor.organization) == Ok(Trim(cmd.actor.organization));
    assert NormalizeRequired(cmd.actor.operator) == Ok(Trim(cmd.actor.operator));
    assert NormalizeRequired(cmd.pageId) == Ok(Trim(cmd.pageId));
  }

  // From every reachable state: a malformed call is an error, a page out of sight and a stale base
  // are refused, and any other call does exactly what its operation says.
  lemma RemoteAnswers(b: Backend, cmd: RemoteCommand, now: int, later: int)
    requires CheckedBackend(b)
    ensures var (next, result) := RemoteApplyPage(b, cmd, now, later);
            if !RemoteIsWellFormed(cmd) then next == b && result == Err(Validation)
            else if !Sees(b.db, cmd.actor, cmd.pageId) then next == b && result == Ok(Refused(Trim(cmd.taskId), cmd.base, DeletedRemotely))
            else if BaseIsStale(b.db, cmd)
            then next == b && result == Ok(Refused(Trim(cmd.taskId), Some(b.db.pages[Trim(cmd.pageId)].versionId), StaleBaseVersion))
            else Dispatched(b, RequestOf(cmd), cmd.mutation, now, later, next, result)
  {
    StartsRemoteExactly(cmd);
    RefusalsExactly(b, cmd, now, later);
    if RemoteIsWellFormed(cmd) && Sees(b.db, cmd.actor, cmd.pageId) && !BaseIsStale(b.db, cmd) {
      RequestIsNormalized(b, cmd);
      OperationAnswers(b, cmd, RequestOf(cmd), now, later);
    }
  }
}
