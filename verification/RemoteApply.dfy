// remote_apply_page, which replays an offline client's operations on one page, and what a client
// that is the only writer may rely on when it always sends back the last cursor it was given.
module RemoteApply {
  import opened Domain
  import opened Ids
  import opened Drive
  import opened PageTables
  import opened PageCommands
  import opened PageProtocol
  import opened PageInvariant
  import opened SearchIndex
  import opened PageTheorems
  import opened PageCalls
  import opened PageProgress
  import PageChecks

  datatype Mutation =
    | UpsertPatch(title: Option<string>, content: Option<string>, parentId: Option<Option<string>>,
                  favorite: Option<bool>, publishStatus: Option<string>)
    | Move(targetParentId: Option<string>)
    | TrashIntent
    | RestoreIntent
    | PermanentDeleteIntent

  datatype RemoteCommand = RemoteCommand(
    actor: Actor,
    pageId: string,
    idempotencyKey: string,
    taskId: string,
    entityType: string,
    entityId: string,
    operation: string,
    base: Option<string>,
    mutation: Mutation)

  datatype ConflictCode = DeletedRemotely | StaleBaseVersion | PageNotInTrash

  datatype RemoteResult =
    | Applied(taskId: string, cursor: string, appliedAt: int)
    | Refused(taskId: string, last: Option<string>, code: ConflictCode)

  datatype RemoteRequest = RemoteRequest(actor: Actor, pageId: string, taskId: string, operation: string)

  function StartRemote(cmd: RemoteCommand): Result<RemoteRequest> {
    var actor :- NormalizeActor(cmd.actor);
    var pageId :- NormalizeRequired(cmd.pageId);
    var _ :- NormalizeRequired(cmd.idempotencyKey);
    var taskId :- NormalizeRequired(cmd.taskId);
    var entityType :- NormalizeRequired(cmd.entityType);
    var entityId :- NormalizeRequired(cmd.entityId);
    var operation :- NormalizeRequired(cmd.operation);
    var _ :- Need(pageId == entityId, Error.Validation);
    var _ :- Need(entityType == "note", Error.Validation);
    Ok(RemoteRequest(actor, pageId, taskId, operation))
  }

  function Metadata(r: RemoteRequest): MetadataCommand {
    MetadataCommand(r.actor, r.pageId, None, None, None, None, None, None)
  }

  function PatchOf(r: RemoteRequest, m: Mutation): MetadataCommand
    requires m.UpsertPatch?
  {
    Metadata(r).(title := m.title, favorite := m.favorite, publishStatus := m.publishStatus, parentId := m.parentId)
  }

  // The metadata part of an upsert.
  function UpsertMetadata(b: Backend, r: RemoteRequest, m: Mutation, now: int): (Backend, Result<()>)
    requires m.UpsertPatch?
  {
    if NamesNothing(PatchOf(r, m)) then (b, Ok(()))
    else
      var (next, patched) := UpdateMetadata(b, PatchOf(r, m), now);
      (next, if patched.Ok? then Ok(()) else Err(patched.error))
  }

  function TextUpdate(r: RemoteRequest, text: string, versionId: string): UpdateCommand {
    UpdateCommand(r.actor, r.pageId, Json(true, text), None, None, Some(versionId))
  }

  // The content part of an upsert, which reads the page again.
  function UpsertContent(b: Backend, r: RemoteRequest, content: Option<string>, now: int): (Backend, Result<()>) {
    if content.None? then (b, Ok(()))
    else
      match FindPage(b.db, r.actor, r.pageId)
      case Err(e) => (b, Err(e))
      case Ok(page) =>
        var (next, updated) := UpdateContent(b, TextUpdate(r, content.value, page.versionId), now);
        (next, if updated.Ok? then Ok(()) else Err(updated.error))
  }

  // An upsert with both parts is two commits.
  function Upsert(b: Backend, r: RemoteRequest, m: Mutation, now: int, later: int): (Backend, Result<Page>)
    requires m.UpsertPatch?
  {
    var (b1, patched) := UpsertMetadata(b, r, m, now);
    if patched.Err? then (b1, Err(patched.error))
    else
      var (b2, updated) := UpsertContent(b1, r, m.content, later);
      (b2, if updated.Err? then Err(updated.error) else FindPage(b2.db, r.actor, r.pageId))
  }

  // The operations that end with a page; their mutations other than the upsert's and the move's
  // are not looked at.
  function Mutate(b: Backend, r: RemoteRequest, m: Mutation, now: int, later: int): (Backend, Result<Page>) {
    if r.operation == "upsert" then
      if m.UpsertPatch? then Upsert(b, r, m, now, later) else (b, Err(Error.Validation))
    else if r.operation == "move" then
      if m.Move? then UpdateMetadata(b, Metadata(r).(parentId := Some(m.targetParentId)), now) else (b, Err(Error.Validation))
    else if r.operation == "delete" then UpdateMetadata(b, Metadata(r).(archiveStatus := Some("archived")), now)
    else if r.operation == "restore" then UpdateMetadata(b, Metadata(r).(archiveStatus := Some("active")), now)
    else (b, Err(Error.Validation))
  }

  function PermanentDelete(b: Backend, r: RemoteRequest, m: Mutation, current: Page, now: int): (Backend, Result<RemoteResult>) {
    if !m.PermanentDeleteIntent? then (b, Err(Error.Validation))
    else if current.archiveStatus != "archived" && current.kind != Folder
    then (b, Ok(Refused(r.taskId, Some(current.versionId), PageNotInTrash)))
    else
      var (db, deleted) := DeletePage(b.db, r.actor, r.pageId, now);
      (b.(db := db), if deleted.Ok? then Ok(RemoteResult.Applied(r.taskId, current.versionId, current.updatedAt)) else Err(deleted.error))
  }

  function RemoteApplyPage(b: Backend, cmd: RemoteCommand, now: int, later: int): (Backend, Result<RemoteResult>) {
    match StartRemote(cmd)
    case Err(e) => (b, Err(e))
    case Ok(r) =>
      match FindPage(b.db, r.actor, r.pageId)
      case Err(_) => (b, Ok(Refused(r.taskId, cmd.base, DeletedRemotely)))
      case Ok(current) =>
        var base := NormalizeOptional(cmd.base);
        if base.Some? && base.value != current.versionId
        then (b, Ok(Refused(r.taskId, Some(current.versionId), StaleBaseVersion)))
        else if r.operation == "permanent-delete" then PermanentDelete(b, r, cmd.mutation, current, now)
        else
          var (next, page) := Mutate(b, r, cmd.mutation, now, later);
          (next, if page.Ok? then Ok(RemoteResult.Applied(r.taskId, page.value.versionId, page.value.updatedAt)) else Err(page.error))
  }

  /* Single calls */

  // Every conflict outcome changes nothing.
  lemma ConflictsChangeNothing(b: Backend, cmd: RemoteCommand, now: int, later: int)
    requires RemoteApplyPage(b, cmd, now, later).1.Ok? && RemoteApplyPage(b, cmd, now, later).1.value.Refused?
    ensures RemoteApplyPage(b, cmd, now, later).0 == b
  {
  }

  // What an operation other than a permanent delete does to the rows: no page is added, removed,
  // marked deleted or given to another tenant, and at most the named page's pointer moves.
  predicate SameOwner(p: Page, q: Page) {
    p.tenant == q.tenant && p.organization == q.organization && p.deleted == q.deleted
  }

  ghost predicate KeepsPages(db: Db, next: Db, id: string) {
    && (forall k :: k in next.pages ==> k in db.pages)
    && (forall k :: k in db.pages ==> k in next.pages && SameOwner(db.pages[k], next.pages[k]))
    && (forall k :: k in db.pages && k != id ==> next.pages[k].versionId == db.pages[k].versionId)
  }

  ghost predicate KeepsPointers(db: Db, next: Db) {
    && (forall k :: k in next.pages ==> k in db.pages)
    && (forall k :: k in db.pages ==>
          k in next.pages && SameOwner(db.pages[k], next.pages[k]) && next.pages[k].versionId == db.pages[k].versionId)
  }

  // The page a call returns, if any, is the named page's new row.
  ghost predicate Returns(next: Db, id: string, page: Result<Page>) {
    page.Ok? ==> id in next.pages && page.value == next.pages[id]
  }

  lemma PatchKeepsPointers(db: Db, actor: Actor, id: string, patch: MetadataPatch, expectedVersion: Option<int>, now: int)
    requires forall k :: k in db.pages ==> db.pages[k].id == k
    ensures var (next, r) := UpdatePageMetadata(db, actor, id, patch, expectedVersion, now);
            KeepsPointers(db, next) && Returns(next, id, r)
  {
    if id in db.pages {
      ProjectedPages(db, Patched(db.pages[id], patch, actor, now));
    }
  }

  lemma MetadataKeepsPointers(b: Backend, cmd: MetadataCommand, now: int)
    requires PagesInv(Idle(b))
    ensures KeepsPointers(b.db, UpdateMetadata(b, cmd, now).0.db)
    ensures Returns(UpdateMetadata(b, cmd, now).0.db, Trim(cmd.pageId), UpdateMetadata(b, cmd, now).1)
  {
    var read := ReadMetadata(b.db, cmd);
    if read.Ok? {
      MetadataReadRow(b.db, cmd, read.value);
      var patch := BuildChecked(b.db, read.value, cmd);
      if patch.Ok? {
        PatchKeepsPointers(b.db, read.value.actor, read.value.page.id, patch.value, read.value.expectedVersion, now);
      }
    }
  }

  lemma MetadataReadRow(db: Db, cmd: MetadataCommand, read: MetadataRead)
    requires ReadMetadata(db, cmd) == Ok(read)
    requires forall k :: k in db.pages ==> db.pages[k].id == k
    ensures read.page.id == Trim(cmd.pageId) && read.page.id in db.pages && read.page == db.pages[read.page.id]
  {
  }

  lemma ServedMovesOne(b: Backend, next: Backend, c: Client, s: Snapshot, r: Result<PageContent>, now: int)
    requires c.WriteReady? && Served(b, next, c, s, r, now) && c.page.id in b.db.pages
    requires c.page == b.db.pages[c.page.id]
    ensures KeepsPages(b.db, next.db, c.page.id) && r.Ok?
  {
  }

  lemma ContentMovesOne(b: Backend, cmd: UpdateCommand, now: int)
    requires SoundBackend(b)
    ensures KeepsPages(b.db, UpdateContent(b, cmd, now).0.db, Trim(cmd.pageId))
    ensures UpdateContent(b, cmd, now).1.Err? ==> UpdateContent(b, cmd, now).0 == b
  {
    var started := StartUpdate(b.db, cmd);
    var (next, r) := UpdateContent(b, cmd, now);
    UpdateSucceeds(b, cmd, now);
    if started.Ok? {
      var c := started.value;
      UpdatedPage(b, cmd, c);
      var s :| Served(b, next, c, s, r, now);
      ServedMovesOne(b, next, c, s, r, now);
    }
  }

  lemma UpdatedPage(b: Backend, cmd: UpdateCommand, c: Client)
    requires StartUpdate(b.db, cmd) == Ok(c) && c.WriteReady? && PagesInv(Idle(b))
    ensures c.page.id == Trim(cmd.pageId) && c.page.id in b.db.pages && c.page == b.db.pages[c.page.id]
  {
  }

  lemma UpsertMetadataKeeps(b: Backend, r: RemoteRequest, m: Mutation, now: int)
    requires PagesInv(Idle(b)) && m.UpsertPatch?
    ensures KeepsPointers(b.db, UpsertMetadata(b, r, m, now).0.db) && IsRun(b, UpsertMetadata(b, r, m, now).0)
  {
    NoRun(b);
    MetadataKeepsPointers(b, PatchOf(r, m), now);
    UpdateMetadataIsRun(b, PatchOf(r, m), now);
  }

  lemma UpsertContentKeeps(b: Backend, r: RemoteRequest, content: Option<string>, now: int)
    requires SoundBackend(b) && Trim(r.pageId) == r.pageId
    ensures KeepsPages(b.db, UpsertContent(b, r, content, now).0.db, r.pageId)
    ensures IsRun(b, UpsertContent(b, r, content, now).0)
    ensures UpsertContent(b, r, content, now).1.Err? ==> UpsertContent(b, r, content, now).0 == b
  {
    NoRun(b);
    var found := FindPage(b.db, r.actor, r.pageId);
    if content.Some? && found.Ok? {
      ContentMovesOne(b, TextUpdate(r, content.value, found.value.versionId), now);
      UpdateContentIsRun(b, TextUpdate(r, content.value, found.value.versionId), now);
    }
  }

  // What each operation but a permanent delete owes the client: an error moves no pointer, and a
  // success returns the named page as it is afterwards.
  ghost predicate MutateOutcome(b: Backend, id: string, next: Backend, page: Result<Page>) {
    && KeepsPages(b.db, next.db, id) && IsRun(b, next)
    && Returns(next.db, id, page) && (page.Err? ==> KeepsPointers(b.db, next.db))
  }

  lemma KeepsThrough(db: Db, db1: Db, db2: Db, id: string)
    requires KeepsPointers(db, db1) && KeepsPages(db1, db2, id)
    ensures KeepsPages(db, db2, id)
  {
  }

  lemma FoundStays(db: Db, next: Db, actor: Actor, id: string)
    requires KeepsPages(db, next, id) && FindPage(db, actor, id).Ok?
    ensures id in next.pages && FindPage(next, actor, id) == Ok(next.pages[id])
  {
  }

  lemma UpsertKeepsPages(b: Backend, r: RemoteRequest, m: Mutation, now: int, later: int)
    requires SoundBackend(b) && m.UpsertPatch? && Trim(r.pageId) == r.pageId && FindPage(b.db, r.actor, r.pageId).Ok?
    ensures MutateOutcome(b, r.pageId, Upsert(b, r, m, now, later).0, Upsert(b, r, m, now, later).1)
  {
    var (b1, patched) := UpsertMetadata(b, r, m, now);
    UpsertMetadataKeeps(b, r, m, now);
    RunsKeepSound(b, b1);
    if patched.Ok? {
      var b2 := UpsertContent(b1, r, m.content, later).0;
      UpsertContentKeeps(b1, r, m.content, later);
      IsRunTransitive(b, b1, b2);
      KeepsThrough(b.db, b1.db, b2.db, r.pageId);
      FoundStays(b.db, b2.db, r.actor, r.pageId);
    }
  }

  lemma MetadataOutcome(b: Backend, cmd: MetadataCommand, now: int)
    requires PagesInv(Idle(b)) && Trim(cmd.pageId) == cmd.pageId
    ensures MutateOutcome(b, cmd.pageId, UpdateMetadata(b, cmd, now).0, UpdateMetadata(b, cmd, now).1)
  {
    MetadataKeepsPointers(b, cmd, now);
    UpdateMetadataIsRun(b, cmd, now);
  }

  lemma MutateKeepsPages(b: Backend, r: RemoteRequest, m: Mutation, now: int, later: int)
    requires SoundBackend(b) && Trim(r.pageId) == r.pageId && FindPage(b.db, r.actor, r.pageId).Ok?
    ensures MutateOutcome(b, r.pageId, Mutate(b, r, m, now, later).0, Mutate(b, r, m, now, later).1)
  {
    if r.operation == "upsert" {
      NoRun(b);
      if m.UpsertPatch? {
        UpsertKeepsPages(b, r, m, now, later);
      }
    } else {
      MetadataKeepsPages(b, r, m, now, later);
    }
  }

  lemma MetadataKeepsPages(b: Backend, r: RemoteRequest, m: Mutation, now: int, later: int)
    requires SoundBackend(b) && Trim(r.pageId) == r.pageId && FindPage(b.db, r.actor, r.pageId).Ok? && r.operation != "upsert"
    ensures MutateOutcome(b, r.pageId, Mutate(b, r, m, now, later).0, Mutate(b, r, m, now, later).1)
  {
    NoRun(b);
    if r.operation == "move" {
      if m.Move? {
        MetadataOutcome(b, Metadata(r).(parentId := Some(m.targetParentId)), now);
      }
    } else if r.operation == "delete" {
      MetadataOutcome(b, Metadata(r).(archiveStatus := Some("archived")), now);
    } else if r.operation == "restore" {
      MetadataOutcome(b, Metadata(r).(archiveStatus := Some("active")), now);
    }
  }

  /* What one call does */

  // The rows after a call, and the cursor it answers with. `r` is the call's normalized request.
  ghost predicate RemoteOutcome(b: Backend, r: RemoteRequest, next: Backend, result: Result<RemoteResult>) {
    && IsRun(b, next)
    && (result.Err? ==> KeepsPointers(b.db, next.db))
    && (result.Ok? && result.value.Refused? ==> next == b)
    && (result.Ok? && result.value.Applied? ==>
          (&& (forall k :: k in next.db.pages ==> k in b.db.pages)
           && (forall k :: k in b.db.pages && k != r.pageId ==>
                 (&& k in next.db.pages && next.db.pages[k].versionId == b.db.pages[k].versionId
                  && next.db.pages[k].deleted == b.db.pages[k].deleted))
           && r.pageId in b.db.pages && r.pageId in next.db.pages
           && next.db.pages[r.pageId].versionId == result.value.cursor
           && (next.db.pages[r.pageId].deleted ==>
                 (&& r.operation == "permanent-delete"
                  && (b.db.pages[r.pageId].archiveStatus == "archived" || b.db.pages[r.pageId].kind == Folder)))))
  }

  lemma StartedRequest(cmd: RemoteCommand, r: RemoteRequest)
    requires StartRemote(cmd) == Ok(r)
    ensures r.pageId == Trim(cmd.pageId) && Trim(r.pageId) == r.pageId && !IsBlank(r.pageId)
  {
  }

  lemma DeleteEffect(db: Db, actor: Actor, id: string, now: int)
    requires FindPage(db, actor, id).Ok?
    ensures var (next, r) := DeletePage(db, actor, id, now);
            && r.Ok? && (forall k :: k in next.pages ==> k in db.pages) && id in next.pages
            && (forall k :: k in db.pages ==> k in next.pages && next.pages[k].versionId == db.pages[k].versionId)
            && (forall k :: k in db.pages && k != id ==> next.pages[k].deleted == db.pages[k].deleted)
  {
  }

  lemma PermanentDeleteOutcome(b: Backend, r: RemoteRequest, m: Mutation, now: int)
    requires FindPage(b.db, r.actor, r.pageId).Ok? && r.operation == "permanent-delete"
    ensures var current := b.db.pages[r.pageId];
            RemoteOutcome(b, r, PermanentDelete(b, r, m, current, now).0, PermanentDelete(b, r, m, current, now).1)
  {
    NoRun(b);
    DeleteEffect(b.db, r.actor, r.pageId, now);
    DeletePageIsRun(b, r.actor, r.pageId, now);
  }

  lemma MutateToOutcome(b: Backend, r: RemoteRequest, m: Mutation, now: int, later: int, result: Result<RemoteResult>)
    requires SoundBackend(b) && Trim(r.pageId) == r.pageId && FindPage(b.db, r.actor, r.pageId).Ok?
    requires var page := Mutate(b, r, m, now, later).1;
             result == if page.Ok? then Ok(RemoteResult.Applied(r.taskId, page.value.versionId, page.value.updatedAt)) else Err(page.error)
    ensures RemoteOutcome(b, r, Mutate(b, r, m, now, later).0, result)
  {
    MutateKeepsPages(b, r, m, now, later);
  }

  lemma RemoteApplies(b: Backend, cmd: RemoteCommand, r: RemoteRequest, now: int, later: int)
    requires SoundBackend(b) && StartRemote(cmd) == Ok(r)
    ensures RemoteOutcome(b, r, RemoteApplyPage(b, cmd, now, later).0, RemoteApplyPage(b, cmd, now, later).1)
  {
    NoRun(b);
    StartedRequest(cmd, r);
    var found := FindPage(b.db, r.actor, r.pageId);
    var base := NormalizeOptional(cmd.base);
    if found.Ok? && (base.Some? ==> base.value == found.value.versionId) {
      if r.operation == "permanent-delete" {
        PermanentDeleteOutcome(b, r, cmd.mutation, now);
      } else {
        var (next, page) := Mutate(b, r, cmd.mutation, now, later);
        MutateToOutcome(b, r, cmd.mutation, now, later, RemoteApplyPage(b, cmd, now, later).1);
      }
    }
  }

  /* What the operations mean for the page */

  // A row with another archive status, as one metadata commit leaves it.
  function Archived(p: Page, status: string, actor: Actor, now: int): Page {
    p.(archiveStatus := status, version := p.version + 1, updatedBy := actor.operator, updatedAt := now)
  }

  function ArchiveStatusOf(operation: string): string
    requires operation == "delete" || operation == "restore"
  {
    if operation == "delete" then "archived" else "active"
  }

  function StatusCommand(actor: Actor, pageId: string, status: string): MetadataCommand {
    MetadataCommand(actor, pageId, None, None, Some(status), None, None, None)
  }

  // The row set to the status, and nothing else of the user's changed.
  ghost predicate SetsStatus(b: Backend, id: string, status: string, actor: Actor, now: int, next: Backend, page: Result<Page>)
    requires id in b.db.pages
  {
    page.Ok? ==>
      (&& page.value == Archived(b.db.pages[id], status, actor, now)
       && next.db.pages == b.db.pages[id := page.value] && next.drive == b.drive)
  }

  lemma StatusPatch(db: Db, read: MetadataRead, status: string)
    requires NormalizeRequired(status) == Ok(status)
    ensures var p := read.page; var built := BuildChecked(db, read, StatusCommand(read.actor, p.id, status));
            built.Ok? ==> built.value == MetadataPatch(p.title, p.favorite, status, p.publishStatus, None)
  {
  }

  lemma CommitStatus(db: Db, actor: Actor, id: string, status: string, now: int)
    requires id in db.pages && db.pages[id].id == id
    ensures var p := db.pages[id];
            var (next, r) := UpdatePageMetadata(db, actor, id, MetadataPatch(p.title, p.favorite, status, p.publishStatus, None), None, now);
            r.Ok? ==> r.value == Archived(p, status, actor, now) && next.pages == db.pages[id := r.value]
  {
    var p := db.pages[id];
    ProjectedPages(db, Patched(p, MetadataPatch(p.title, p.favorite, status, p.publishStatus, None), actor, now));
  }

  lemma SetStatus(b: Backend, actor: Actor, id: string, status: string, now: int)
    requires PagesInv(Idle(b)) && NormalizeActor(actor) == Ok(actor) && NormalizeRequired(id) == Ok(id)
    requires NormalizeRequired(status) == Ok(status) && id in b.db.pages
    ensures var (next, page) := UpdateMetadata(b, StatusCommand(actor, id, status), now);
            SetsStatus(b, id, status, actor, now, next, page)
  {
    var read := ReadMetadata(b.db, StatusCommand(actor, id, status));
    if read.Ok? {
      assert read.value == MetadataRead(actor, b.db.pages[id], None);
      StatusPatch(b.db, read.value, status);
      CommitStatus(b.db, actor, id, status, now);
    }
  }

  lemma StatusIsTrimmed()
    ensures NormalizeRequired("archived") == Ok("archived") && NormalizeRequired("active") == Ok("active")
  {
  }

  // "delete" and "restore" set the archive status and nothing else of the user's.
  lemma ArchiveSetsStatus(b: Backend, r: RemoteRequest, m: Mutation, now: int, later: int)
    requires PagesInv(Idle(b)) && NormalizeActor(r.actor) == Ok(r.actor) && NormalizeRequired(r.pageId) == Ok(r.pageId)
    requires (r.operation == "delete" || r.operation == "restore") && r.pageId in b.db.pages
    ensures var (next, page) := Mutate(b, r, m, now, later);
            SetsStatus(b, r.pageId, ArchiveStatusOf(r.operation), r.actor, now, next, page)
  {
    StatusIsTrimmed();
    SetStatus(b, r.actor, r.pageId, ArchiveStatusOf(r.operation), now);
    assert Metadata(r).(archiveStatus := Some(ArchiveStatusOf(r.operation))) == StatusCommand(r.actor, r.pageId, ArchiveStatusOf(r.operation));
  }

  lemma StatusFits(db: Db, read: MetadataRead, status: string)
    requires NormalizeRequired(status) == Ok(status) && (status == "active" || status == "archived") && PageChecks.FieldsOk(read.page)
    ensures BuildChecked(db, read, StatusCommand(read.actor, read.page.id, status)).Ok?
  {
  }

  lemma CommitSucceeds(b: Backend, actor: Actor, id: string, patch: MetadataPatch, now: int)
    requires SoundBackend(b) && FindPage(b.db, actor, id).Ok?
    ensures UpdatePageMetadata(b.db, actor, id, patch, None, now).1.Ok?
  {
    InvFormatsPointers(Idle(b));
    UpdateKeepsIndex(b.db, Patched(b.db.pages[id], patch, actor, now));
  }

  lemma StatusSucceeds(b: Backend, actor: Actor, id: string, status: string, now: int)
    requires SoundBackend(b) && NormalizeActor(actor) == Ok(actor) && NormalizeRequired(id) == Ok(id)
    requires NormalizeRequired(status) == Ok(status) && (status == "active" || status == "archived")
    requires FindPage(b.db, actor, id).Ok? && PageChecks.FieldsOk(b.db.pages[id])
    ensures UpdateMetadata(b, StatusCommand(actor, id, status), now).1.Ok?
  {
    var read := MetadataRead(actor, b.db.pages[id], None);
    assert ReadMetadata(b.db, StatusCommand(actor, id, status)) == Ok(read);
    StatusFits(b.db, read, status);
    CommitSucceeds(b, actor, id, BuildChecked(b.db, read, StatusCommand(actor, id, status)).value, now);
  }

  // On a page whose row satisfies the table's constraints, as every reachable row does, "delete" and
  // "restore" always go through.
  lemma ArchiveSucceeds(b: Backend, r: RemoteRequest, m: Mutation, now: int, later: int)
    requires SoundBackend(b) && NormalizeActor(r.actor) == Ok(r.actor) && NormalizeRequired(r.pageId) == Ok(r.pageId)
    requires (r.operation == "delete" || r.operation == "restore") && FindPage(b.db, r.actor, r.pageId).Ok?
    requires PageChecks.FieldsOk(b.db.pages[r.pageId])
    ensures Mutate(b, r, m, now, later).1.Ok?
  {
    StatusIsTrimmed();
    StatusSucceeds(b, r.actor, r.pageId, ArchiveStatusOf(r.operation), now);
    assert Metadata(r).(archiveStatus := Some(ArchiveStatusOf(r.operation))) == StatusCommand(r.actor, r.pageId, ArchiveStatusOf(r.operation));
  }

  lemma MutateKeepsRows(b: Backend, r: RemoteRequest, m: Mutation, now: int, later: int)
    requires SoundBackend(b) && Trim(r.pageId) == r.pageId && FindPage(b.db, r.actor, r.pageId).Ok?
    ensures PagesInv(Idle(Mutate(b, r, m, now, later).0)) && r.pageId in Mutate(b, r, m, now, later).0.db.pages
  {
    MutateKeepsPages(b, r, m, now, later);
    RunsKeepSound(b, Mutate(b, r, m, now, later).0);
  }

  // A restore undoes a delete: only the row version and the update stamp differ from before.
  lemma RestoreUndoesDelete(b: Backend, delete: RemoteRequest, restore: RemoteRequest, m: Mutation, now: int, later: int,
                            trashed: Backend, gone: Result<Page>, next: Backend, back: Result<Page>)
    requires SoundBackend(b) && NormalizeActor(delete.actor) == Ok(delete.actor)
    requires NormalizeRequired(delete.pageId) == Ok(delete.pageId) && FindPage(b.db, delete.actor, delete.pageId).Ok?
    requires delete.operation == "delete" && restore == delete.(operation := "restore")
    requires b.db.pages[delete.pageId].archiveStatus == "active"
    requires (trashed, gone) == Mutate(b, delete, m, now, later) && gone.Ok?
    requires (next, back) == Mutate(trashed, restore, m, now, later) && back.Ok?
    ensures var p := b.db.pages[delete.pageId];
            && back.value == p.(version := p.version + 2, updatedBy := delete.actor.operator, updatedAt := now)
            && next.db.pages == b.db.pages[p.id := back.value] && next.drive == b.drive
  {
    ArchiveSetsStatus(b, delete, m, now, later);
    MutateKeepsRows(b, delete, m, now, later);
    ArchiveSetsStatus(trashed, restore, m, now, later);
    TwoStatuses(b, trashed, next, delete.pageId, delete.actor, now, gone, back);
  }

  lemma TwoStatuses(b: Backend, trashed: Backend, next: Backend, id: string, actor: Actor, now: int,
                    gone: Result<Page>, back: Result<Page>)
    requires id in b.db.pages && b.db.pages[id].archiveStatus == "active" && gone.Ok? && id in trashed.db.pages
    requires SetsStatus(b, id, "archived", actor, now, trashed, gone)
    requires SetsStatus(trashed, id, "active", actor, now, next, back)
    ensures back.Ok? ==>
              (&& back.value == b.db.pages[id].(version := b.db.pages[id].version + 2, updatedBy := actor.operator, updatedAt := now)
               && next.db.pages == b.db.pages[id := back.value] && next.drive == b.drive)
  {
  }

  lemma ServedIsCurrent(b: Backend, next: Backend, cmd: UpdateCommand, c: Client, s: Snapshot, r: Result<PageContent>, now: int)
    requires c.WriteReady? && Served(b, next, c, s, r, now) && StoredAsAsked(cmd, c.page, s)
    ensures var h := History(next.drive, c.page.id);
            && h != [] && h[|h| - 1].content == cmd.content
            && c.page.id in next.db.pages && Points(next.db.pages[c.page.id], h[|h| - 1])
  {
  }

  lemma UpsertedText(b: Backend, r: RemoteRequest, text: string, now: int)
    requires SoundBackend(b) && Trim(r.pageId) == r.pageId && UpsertContent(b, r, Some(text), now).1.Ok?
    ensures var next := UpsertContent(b, r, Some(text), now).0;
            var h := History(next.drive, r.pageId);
            && h != [] && h[|h| - 1].content == Json(true, text)
            && r.pageId in next.db.pages && Points(next.db.pages[r.pageId], h[|h| - 1])
  {
    var update := TextUpdate(r, text, FindPage(b.db, r.actor, r.pageId).value.versionId);
    var (next, result) := UpdateContent(b, update, now);
    UpdateSucceeds(b, update, now);
    var c := StartUpdate(b.db, update).value;
    UpdatedPage(b, update, c);
    var s :| Served(b, next, c, s, result, now) && StoredAsAsked(update, c.page, s);
    ServedIsCurrent(b, next, update, c, s, result, now);
  }

  // An upsert with a text that goes through leaves that text as the page's current version.
  lemma UpsertStoresText(b: Backend, r: RemoteRequest, m: Mutation, now: int, later: int)
    requires SoundBackend(b) && m.UpsertPatch? && m.content.Some? && Trim(r.pageId) == r.pageId
    ensures var (next, page) := Upsert(b, r, m, now, later);
            page.Ok? ==>
              (var h := History(next.drive, r.pageId);
               && h != [] && h[|h| - 1].content == Json(true, m.content.value)
               && r.pageId in next.db.pages && Points(next.db.pages[r.pageId], h[|h| - 1]))
  {
    if Upsert(b, r, m, now, later).1.Ok? {
      UpsertMetadataKeeps(b, r, m, now);
      RunsKeepSound(b, UpsertMetadata(b, r, m, now).0);
      UpsertedText(UpsertMetadata(b, r, m, now).0, r, m.content.value, later);
    }
  }

  /* Runs of a single writer */

  // The client's side: the last cursor it was given, per page.
  datatype Sync = Sync(backend: Backend, cursors: map<string, string>)

  datatype Call = Call(command: RemoteCommand, now: int, later: int)

  function LastCursor(s: Sync, pageId: string): Option<string> {
    if Trim(pageId) in s.cursors then Some(s.cursors[Trim(pageId)]) else None
  }

  // The command as the client sends it: with the last cursor as its base.
  function Sent(s: Sync, call: Call): RemoteCommand {
    call.command.(base := LastCursor(s, call.command.pageId))
  }

  function Given(result: Result<RemoteResult>): Option<string> {
    if result.Err? then None else if result.value.Applied? then Some(result.value.cursor) else result.value.last
  }

  function Answer(s: Sync, call: Call): Result<RemoteResult> {
    RemoteApplyPage(s.backend, Sent(s, call), call.now, call.later).1
  }

  function SyncNext(s: Sync, call: Call): Sync {
    var (backend, result) := RemoteApplyPage(s.backend, Sent(s, call), call.now, call.later);
    var id := Trim(call.command.pageId);
    Sync(backend, if Given(result).Some? then s.cursors[id := Given(result).value] else s.cursors)
  }

  function SyncRun(s: Sync, calls: seq<Call>): Sync {
    if calls == [] then s else SyncNext(SyncRun(s, calls[..|calls| - 1]), calls[|calls| - 1])
  }

  // Every cursor the client holds is the pointer of a page that exists, unless it was deleted.
  ghost predicate CursorsCurrent(s: Sync) {
    forall id :: id in s.cursors ==>
      id in s.backend.db.pages && (s.backend.db.pages[id].deleted || s.backend.db.pages[id].versionId == s.cursors[id])
  }

  ghost predicate SyncInv(s: Sync) {
    SoundBackend(s.backend) && CursorsCurrent(s)
  }

  lemma CursorIsTrimmed(b: Backend, id: string)
    requires SoundBackend(b) && id in b.db.pages
    ensures NormalizeOptional(Some(b.db.pages[id].versionId)) == Some(b.db.pages[id].versionId)
  {
    InvFormatsPointers(Idle(b));
    VersionIdIsTrimmed(id, b.db.pages[id].versionNo);
  }

  predicate Stale(result: Result<RemoteResult>) {
    result.Ok? && result.value.Refused? && result.value.code == StaleBaseVersion
  }

  // A call is stale only against a visible page whose pointer is not the base sent.
  lemma StaleOnlyAgainstPointer(b: Backend, cmd: RemoteCommand, now: int, later: int)
    requires Stale(RemoteApplyPage(b, cmd, now, later).1)
    ensures StartRemote(cmd).Ok? && Trim(cmd.pageId) in b.db.pages && !b.db.pages[Trim(cmd.pageId)].deleted
    ensures NormalizeOptional(cmd.base).Some? && NormalizeOptional(cmd.base).value != b.db.pages[Trim(cmd.pageId)].versionId
  {
    StartedRequest(cmd, StartRemote(cmd).value);
  }

  lemma NotStale(s: Sync, call: Call)
    requires SyncInv(s)
    ensures !Stale(Answer(s, call))
  {
    var cmd := Sent(s, call);
    var id := Trim(call.command.pageId);
    if Stale(Answer(s, call)) {
      StaleOnlyAgainstPointer(s.backend, cmd, call.now, call.later);
      CursorIsTrimmed(s.backend, id);
    }
  }

  lemma RefusalCursor(s: Sync, call: Call, r: RemoteRequest)
    requires StartRemote(Sent(s, call)) == Ok(r) && Answer(s, call).Ok? && Answer(s, call).value.Refused?
    ensures RefusedCursor(s, call, r)
  {
  }

  lemma SyncNextKeeps(s: Sync, call: Call)
    requires SyncInv(s)
    ensures SyncInv(SyncNext(s, call)) && IsRun(s.backend, SyncNext(s, call).backend)
  {
    var started := StartRemote(Sent(s, call));
    if started.Err? {
      NoRun(s.backend);
    } else {
      StartedRequest(Sent(s, call), started.value);
      RemoteApplies(s.backend, Sent(s, call), started.value, call.now, call.later);
      RunsKeepSound(s.backend, SyncNext(s, call).backend);
      if Answer(s, call).Ok? && Answer(s, call).value.Refused? {
        RefusalCursor(s, call, started.value);
      }
      CursorsStayCurrent(s, call, started.value);
    }
  }

  lemma CursorsStayCurrent(s: Sync, call: Call, r: RemoteRequest)
    requires CursorsCurrent(s) && r.pageId == Trim(call.command.pageId)
    requires RemoteOutcome(s.backend, r, SyncNext(s, call).backend, Answer(s, call))
    requires Answer(s, call).Ok? && Answer(s, call).value.Refused? ==> RefusedCursor(s, call, r)
    ensures CursorsCurrent(SyncNext(s, call))
  {
  }

  // A refusal answers with the page's pointer, or with the base that was sent.
  ghost predicate RefusedCursor(s: Sync, call: Call, r: RemoteRequest) {
    var last := Given(Answer(s, call));
    last == LastCursor(s, call.command.pageId)
    || (r.pageId in s.backend.db.pages && last == Some(s.backend.db.pages[r.pageId].versionId))
  }

  lemma {:induction false} SyncRunKeeps(s: Sync, calls: seq<Call>)
    requires SyncInv(s)
    ensures SyncInv(SyncRun(s, calls))
  {
    if calls != [] {
      SyncRunKeeps(s, calls[..|calls| - 1]);
      SyncNextKeeps(SyncRun(s, calls[..|calls| - 1]), calls[|calls| - 1]);
    }
  }

  // A client that is the only writer and always sends back the last cursor it was given is never
  // told that its base is stale, in runs of any length over any pages.
  lemma NeverStale(b: Backend, calls: seq<Call>, i: nat)
    requires SoundBackend(b) && i < |calls|
    ensures var result := Answer(SyncRun(Sync(b, map[]), calls[..i]), calls[i]);
            result.Ok? && result.value.Refused? ==> result.value.code != StaleBaseVersion
  {
    SyncRunKeeps(Sync(b, map[]), calls[..i]);
    NotStale(SyncRun(Sync(b, map[]), calls[..i]), calls[i]);
  }

  // A page that a remote call deletes was archived, or is a folder; the call was a permanent delete.
  lemma DeletedOnlyIfArchived(b: Backend, cmd: RemoteCommand, now: int, later: int, id: string)
    requires SoundBackend(b) && id in b.db.pages && !b.db.pages[id].deleted
    ensures var next := RemoteApplyPage(b, cmd, now, later).0;
            && id in next.db.pages
            && (next.db.pages[id].deleted ==>
                  (&& StartRemote(cmd).Ok? && StartRemote(cmd).value.operation == "permanent-delete"
                   && StartRemote(cmd).value.pageId == id
                   && (b.db.pages[id].archiveStatus == "archived" || b.db.pages[id].kind == Folder)))
  {
    if StartRemote(cmd).Ok? {
      RemoteApplies(b, cmd, StartRemote(cmd).value, now, later);
    }
  }

  /* Deleted pages */

  lemma {:induction false} RunKeepsDeleted(w: World, steps: seq<Step>, id: string)
    requires Sound(w) && id in w.db.pages && w.db.pages[id].deleted
    ensures id in Run(w, steps).db.pages && Run(w, steps).db.pages[id].deleted
  {
    if steps != [] {
      var before := steps[..|steps| - 1];
      RunKeepsDeleted(w, before, id);
      RunIsSound(w, before);
      StepKeepsInv(Run(w, before), steps[|steps| - 1]);
    }
  }

  // However the store's calls go on, a deleted page has no projection row and is found by nobody,
  // and no page is created under its id again.
  lemma DeletedForGood(b: Backend, next: Backend, id: string, actor: Actor, cmd: CreateCommand, spaceId: Option<string>, now: int)
    requires SoundBackend(b) && IsRun(b, next) && id in b.db.pages && b.db.pages[id].deleted
    requires StartCreate(cmd).Ok? && StartCreate(cmd).value.draft.id == id
    ensures FindPage(next.db, actor, id) == Err(NotFound)
    ensures forall sp :: sp in next.db.projections ==> sp.pageId != id
    ensures CreatePage(next, cmd, spaceId, now).1.Err? && CreatePage(next, cmd, spaceId, now).0 == next
  {
    var steps :| Run(Idle(b), steps) == Idle(next);
    RunKeepsDeleted(Idle(b), steps, id);
    RunIsSound(Idle(b), steps);
  }
}
