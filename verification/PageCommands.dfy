// The page commands of CanvasPagesService, cut at their repository and Drive calls. Each
// function is the pure work the service does between two calls; a client value is what the
// service call remembers from one call to the next.
module PageCommands {
  import opened Domain
  import opened Validation
  import opened Drive
  import opened PageTables

  datatype CreateCommand = CreateCommand(
    actor: Actor,
    workspaceId: string,
    pageId: string,
    title: string,
    kind: PageKind,
    parentId: Option<string>,
    folderNodeId: Option<string>,
    content: Json,
    contentType: string,
    schemaVersion: string)

  datatype UpdateCommand = UpdateCommand(
    actor: Actor,
    pageId: string,
    content: Json,
    contentType: Option<string>,
    schemaVersion: Option<string>,
    expected: Option<string>)

  datatype RestoreCommand = RestoreCommand(
    actor: Actor,
    pageId: string,
    versionId: string,
    expected: Option<string>)

  datatype ApplyCommand = ApplyCommand(actor: Actor, suggestionId: string, expected: Option<string>)

  // expectedVersion: Some(None) stands for a text that does not parse as an int64.
  datatype MetadataCommand = MetadataCommand(
    actor: Actor,
    pageId: string,
    title: Option<string>,
    favorite: Option<bool>,
    archiveStatus: Option<string>,
    publishStatus: Option<string>,
    parentId: Option<Option<string>>,
    expectedVersion: Option<Option<int>>)

  datatype DriveWrite =
    | WriteContent(content: Json, contentType: string, schemaVersion: string)
    | RestoreVersion(versionId: string)

  datatype PageContent = PageContent(
    pageId: string,
    nodeId: string,
    versionId: string,
    versionNo: int,
    contentType: string,
    schemaVersion: string,
    content: Json)

  // A service call in flight.
  datatype Client =
    | Creating(draft: PageDraft, snapshot: Snapshot)
    | SuggestionRead(actor: Actor, suggestion: Suggestion, expected: Option<string>)
    | WriteReady(actor: Actor, page: Page, write: DriveWrite, goal: Option<Suggestion>)
    | CommitReady(actor: Actor, page: Page, snapshot: Snapshot, goal: Option<Suggestion>)
    | Patching(actor: Actor, page: Page, command: MetadataCommand, patch: MetadataPatch, expectedVersion: Option<int>)
    | Reading(page: Page)

  function ContentOf(pageId: string, s: Snapshot): PageContent {
    PageContent(pageId, s.nodeId, s.versionId, s.versionNo, s.contentType, s.schemaVersion, s.content)
  }

  function CheckExpected(page: Page, expected: Option<string>): Result<()> {
    Need(expected.Some? ==> page.versionId == expected.value, Conflict)
  }

  /* create_page */

  datatype CreateRequest = CreateRequest(draft: PageDraft, content: Json, contentType: string, schemaVersion: string)

  function StartCreate(cmd: CreateCommand): Result<CreateRequest> {
    var actor :- NormalizeActor(cmd.actor);
    var id :- NormalizeRequired(cmd.pageId);
    var title :- NormalizeRequired(cmd.title);
    var _ :- Need(|title| <= 200, Error.Validation);
    var workspaceId :- NormalizeRequired(cmd.workspaceId);
    var parentId := NormalizeOptional(cmd.parentId);
    var folderNodeId := NormalizeOptional(cmd.folderNodeId);
    var _ :- Need(parentId.None? || folderNodeId.None?, Error.Validation);
    var contentType :- NormalizeRequired(cmd.contentType);
    var schemaVersion :- NormalizeRequired(cmd.schemaVersion);
    var _ :- ValidateContentMetadata(contentType, schemaVersion);
    var _ :- Need(cmd.content.isObject, Error.Validation);
    Ok(CreateRequest(PageDraft(id, actor, workspaceId, title, cmd.kind, parentId, folderNodeId),
                     cmd.content, contentType, schemaVersion))
  }

  // The lookups of create_page after the workspace's: the id must be unused and a parent page must
  // be in the workspace.
  function CheckCreate(db: Db, draft: PageDraft): Result<()> {
    var _ :- Need(!PageIdIsReserved(db, draft.id), Conflict);
    match draft.parentId
    case None => Ok(())
    case Some(parentId) =>
      var parent :- FindPage(db, draft.actor, parentId);
      Need(parent.workspaceId == draft.workspaceId, NotFound)
  }

  // `spaceId` is the Drive space of the workspace.
  function DriveCreate(d: DriveState, r: CreateRequest, spaceId: string): (DriveState, Result<Client>) {
    var s := FirstSnapshot(r.draft.id, spaceId, r.contentType, r.schemaVersion, r.content);
    var accepted := SnapshotValid(s) && s.spaceId == spaceId && MatchesMetadata(s, r.contentType, r.schemaVersion);
    (Stored(d, r.draft.id, s), if accepted then Ok(Creating(r.draft, s)) else Err(Internal))
  }

  /* update_page_content, restore_page_version and apply_ai_suggestion */

  function StartUpdate(db: Db, cmd: UpdateCommand): Result<Client> {
    var actor :- NormalizeActor(cmd.actor);
    var pageId :- NormalizeRequired(cmd.pageId);
    var _ :- Need(cmd.content.isObject, Error.Validation);
    var page :- FindPage(db, actor, pageId);
    var _ :- CheckExpected(page, NormalizeOptional(cmd.expected));
    var contentType := NormalizeOptional(cmd.contentType).GetOr(page.contentType);
    var schemaVersion := NormalizeOptional(cmd.schemaVersion).GetOr(page.schemaVersion);
    var _ :- ValidateContentMetadata(contentType, schemaVersion);
    Ok(WriteReady(actor, page, WriteContent(cmd.content, contentType, schemaVersion), None))
  }

  function StartRestore(db: Db, cmd: RestoreCommand): Result<Client> {
    var actor :- NormalizeActor(cmd.actor);
    var pageId :- NormalizeRequired(cmd.pageId);
    var versionId :- NormalizeRequired(cmd.versionId);
    var page :- FindPage(db, actor, pageId);
    var _ :- CheckExpected(page, NormalizeOptional(cmd.expected));
    Ok(WriteReady(actor, page, RestoreVersion(versionId), None))
  }

  function StartApply(db: Db, cmd: ApplyCommand): Result<Client> {
    var actor :- NormalizeActor(cmd.actor);
    var id :- NormalizeRequired(cmd.suggestionId);
    var suggestion :- FindSuggestion(db, actor, id);
    Ok(SuggestionRead(actor, suggestion, NormalizeOptional(cmd.expected)))
  }

  function PayloadString(f: Field): (r: Result<Option<string>>)
    ensures r.Ok? && r.value.Some? ==> !IsBlank(r.value.value)
  {
    match f
    case Absent => Ok(None)
    case NotText => Err(Error.Validation)
    case Text(t) => Ok(NormalizeOptional(Some(t)))
  }

  // The Drive write that a suggestion's payload asks for.
  function ApplyWrite(sg: Suggestion, page: Page): Result<DriveWrite> {
    var _ :- Need(sg.payload.content.Some? && sg.payload.content.value.isObject, Error.Validation);
    var contentType :- PayloadString(sg.payload.contentType);
    var schemaVersion :- PayloadString(sg.payload.schemaVersion);
    var contentType := contentType.GetOr(page.contentType);
    var schemaVersion := schemaVersion.GetOr(page.schemaVersion);
    var _ :- ValidateContentMetadata(contentType, schemaVersion);
    Ok(WriteContent(sg.payload.content.value, contentType, schemaVersion))
  }

  // The second read of apply_ai_suggestion: the page, checked against the suggestion's source.
  function ReadForApply(db: Db, c: Client): Result<Client>
    requires c.SuggestionRead?
  {
    var sg := c.suggestion;
    var _ :- Need(sg.status == Accepted, Conflict);
    var page :- FindPage(db, c.actor, sg.pageId);
    var _ :- Need(page.workspaceId == sg.workspaceId, NotFound);
    var _ :- Need(sg.sourceVersionId.Some? ==> page.versionId == sg.sourceVersionId.value, Conflict);
    var _ :- Need(sg.sourceVersionNo.Some? ==> page.versionNo == sg.sourceVersionNo.value, Conflict);
    var _ :- CheckExpected(page, c.expected);
    var write :- ApplyWrite(sg, page);
    Ok(WriteReady(c.actor, page, write, Some(sg)))
  }

  // What Drive answers to the write of a client.
  function WrittenSnapshot(d: DriveState, c: Client): Result<Snapshot>
    requires c.WriteReady?
  {
    match c.write
    case WriteContent(content, contentType, schemaVersion) =>
      Ok(UpdatedSnapshot(d, c.page.id, c.page.spaceId, c.page.nodeId, c.page.uri, contentType,
                         schemaVersion, content))
    case RestoreVersion(versionId) => RestoredSnapshot(d, c.page.id, versionId)
  }

  predicate SnapshotAccepted(c: Client, s: Snapshot)
    requires c.WriteReady?
  {
    && SnapshotValid(s)
    && MatchesRefs(s, c.page.spaceId, c.page.nodeId, c.page.uri)
    && Advances(s, c.page.versionId, c.page.versionNo)
    && (c.write.WriteContent? ==> MatchesMetadata(s, c.write.contentType, c.write.schemaVersion))
  }

  // The Drive call and the validation of its answer. A snapshot that fails validation has still
  // been stored.
  function DriveStep(d: DriveState, c: Client): (DriveState, Result<Client>)
    requires c.WriteReady?
  {
    match WrittenSnapshot(d, c)
    case Err(e) => (d, Err(e))
    case Ok(s) =>
      (Stored(d, c.page.id, s),
       if SnapshotAccepted(c, s) then Ok(CommitReady(c.actor, c.page, s, c.goal)) else Err(Internal))
  }

  // The final repository call. Its errors surface as Internal: Drive has already been written.
  function CommitStep(db: Db, c: Client, now: int): (Db, Result<PageContent>)
    requires c.CommitReady?
  {
    var content := ContentOf(c.page.id, c.snapshot);
    match c.goal
    case None =>
      var (db', r) := UpdatePageDriveSnapshot(db, c.actor, c.page.id, c.snapshot, c.page.versionId, now);
      (db', if r.Ok? then Ok(content) else Err(Internal))
    case Some(sg) =>
      var (db', r) := ApplySuggestion(db, c.actor, sg.id, c.page.id, c.snapshot, c.page.versionId, now);
      (db', if r.Ok? then Ok(content) else Err(Internal))
  }

  /* get_page_content */

  function StartRead(db: Db, actor: Actor, pageId: string): Result<Client> {
    var actor :- NormalizeActor(actor);
    var pageId :- NormalizeRequired(pageId);
    var page :- FindPage(db, actor, pageId);
    Ok(Reading(page))
  }

  function ReadStep(d: DriveState, c: Client): Result<PageContent>
    requires c.Reading?
  {
    var page := c.page;
    var s :- Read(d, page.id);
    var _ :- Need(SnapshotValid(s) && MatchesRefs(s, page.spaceId, page.nodeId, page.uri), Internal);
    var _ :- Need(MatchesVersion(s, page.versionId, page.versionNo), Internal);
    var _ :- Need(MatchesMetadata(s, page.contentType, page.schemaVersion), Internal);
    Ok(ContentOf(page.id, s))
  }

  /* update_page_metadata */

  predicate NamesNothing(cmd: MetadataCommand) {
    && cmd.title.None? && cmd.favorite.None? && cmd.archiveStatus.None?
    && cmd.publishStatus.None? && cmd.parentId.None?
  }

  function NamedOr(value: Option<string>, current: string): Result<string> {
    if value.Some? then NormalizeRequired(value.value) else Ok(current)
  }

  function CheckExpectedVersion(page: Page, cmd: MetadataCommand): Result<Option<int>> {
    match cmd.expectedVersion
    case None => Ok(None)
    case Some(None) => Err(Error.Validation)
    case Some(Some(v)) => if v == page.version then Ok(Some(v)) else Err(Conflict)
  }

  // The lookup of a new parent page. It decides whether the call goes on, and nothing else.
  function CheckParent(db: Db, actor: Actor, page: Page, cmd: MetadataCommand): Result<()> {
    match cmd.parentId
    case Some(Some(parentId)) =>
      var parent :- FindPage(db, actor, parentId);
      var _ :- Need(parent.workspaceId == page.workspaceId, NotFound);
      Need(parentId != page.id, Error.Validation)
    case _ => Ok(())
  }

  function BuildPatch(page: Page, cmd: MetadataCommand): Result<MetadataPatch> {
    var title :- NamedOr(cmd.title, page.title);
    var _ :- Need(|title| <= 200, Error.Validation);
    var archiveStatus :- NamedOr(cmd.archiveStatus, page.archiveStatus);
    var _ :- Need(archiveStatus == "active" || archiveStatus == "archived", Error.Validation);
    var publishStatus :- NamedOr(cmd.publishStatus, page.publishStatus);
    var _ :- Need(publishStatus == "private" || publishStatus == "published" || publishStatus == "unlisted",
                  Error.Validation);
    Ok(MetadataPatch(title, cmd.favorite.GetOr(page.favorite), archiveStatus, publishStatus, cmd.parentId))
  }

  // The read of update_page_metadata, up to the parent lookup.
  function StartPatch(db: Db, cmd: MetadataCommand): Result<Client> {
    var actor :- NormalizeActor(cmd.actor);
    var pageId :- NormalizeRequired(cmd.pageId);
    var page :- FindPage(db, actor, pageId);
    var expectedVersion :- CheckExpectedVersion(page, cmd);
    var patch :- BuildPatch(page, cmd);
    Ok(Patching(actor, page, cmd, patch, expectedVersion))
  }

  function PatchStep(db: Db, c: Client, now: int): (Db, Result<Page>)
    requires c.Patching?
  {
    UpdatePageMetadata(db, c.actor, c.page.id, c.patch, c.expectedVersion, now)
  }
}
