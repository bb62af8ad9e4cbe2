// The page calls of CanvasPagesService, each run without interruption: the pieces of PageCommands
// put together over one state of the tables and of Drive.
module PageCalls {
  import opened Domain
  import opened Drive
  import opened PageTables
  import opened PageCommands

  datatype Backend = Backend(db: Db, drive: DriveState)

  // The Drive write, its validation and the commit.
  function FinishWrite(b: Backend, c: Client, now: int): (Backend, Result<PageContent>)
    requires c.WriteReady?
  {
    var (drive, written) := DriveStep(b.drive, c);
    match written
    case Err(e) => (Backend(b.db, drive), Err(e))
    case Ok(ready) =>
      var (db, r) := CommitStep(b.db, ready, now);
      (Backend(db, drive), r)
  }

  function UpdateContent(b: Backend, cmd: UpdateCommand, now: int): (Backend, Result<PageContent>) {
    match StartUpdate(b.db, cmd)
    case Err(e) => (b, Err(e))
    case Ok(c) => FinishWrite(b, c, now)
  }

  function RestoreVersion(b: Backend, cmd: RestoreCommand, now: int): (Backend, Result<PageContent>) {
    match StartRestore(b.db, cmd)
    case Err(e) => (b, Err(e))
    case Ok(c) => FinishWrite(b, c, now)
  }

  function GetContent(b: Backend, actor: Actor, pageId: string): Result<PageContent> {
    var c :- StartRead(b.db, actor, pageId);
    ReadStep(b.drive, c)
  }

  // An applied suggestion is answered with the page's content.
  function ApplySuggestion(b: Backend, cmd: ApplyCommand, now: int): (Backend, Result<PageContent>) {
    match StartApply(b.db, cmd)
    case Err(e) => (b, Err(e))
    case Ok(started) =>
      if started.suggestion.status == Applied
      then (b, GetContent(b, started.actor, started.suggestion.pageId))
      else
        match ReadForApply(b.db, started)
        case Err(e) => (b, Err(e))
        case Ok(c) => FinishWrite(b, c, now)
  }

  function UpdateMetadata(b: Backend, cmd: MetadataCommand, now: int): (Backend, Result<Page>) {
    match ReadMetadata(b.db, cmd)
    case Err(e) => (b, Err(e))
    case Ok(c) =>
      if NamesNothing(cmd) then (b, Ok(c.page))
      else
        match BuildChecked(b.db, c, cmd)
        case Err(e) => (b, Err(e))
        case Ok(patch) =>
          var (db, r) := UpdatePageMetadata(b.db, c.actor, c.page.id, patch, c.expectedVersion, now);
          (b.(db := db), r)
  }

  datatype MetadataRead = MetadataRead(actor: Actor, page: Page, expectedVersion: Option<int>)

  function ReadMetadata(db: Db, cmd: MetadataCommand): Result<MetadataRead> {
    var actor :- NormalizeActor(cmd.actor);
    var pageId :- NormalizeRequired(cmd.pageId);
    var page :- FindPage(db, actor, pageId);
    var expectedVersion :- CheckExpectedVersion(page, cmd);
    Ok(MetadataRead(actor, page, expectedVersion))
  }

  function BuildChecked(db: Db, c: MetadataRead, cmd: MetadataCommand): Result<MetadataPatch> {
    var _ :- CheckParent(db, c.actor, c.page, cmd);
    BuildPatch(c.page, cmd)
  }

  // `spaceId` is what the workspace lookup finds: the Drive space of an existing workspace.
  function CreatePage(b: Backend, cmd: CreateCommand, spaceId: Option<string>, now: int): (Backend, Result<Page>) {
    match PrepareCreate(b.db, cmd, spaceId)
    case Err(e) => (b, Err(e))
    case Ok(request) => CreatePrepared(b, request, spaceId.GetOr(""), now)
  }

  function CreatePrepared(b: Backend, request: CreateRequest, spaceId: string, now: int): (Backend, Result<Page>) {
    var (drive, created) := DriveCreate(b.drive, request, spaceId);
    match created
    case Err(e) => (b.(drive := drive), Err(e))
    case Ok(c) =>
      var (db, r) := InsertPage(b.db, c.draft, c.snapshot, now);
      (Backend(db, drive), if r.Ok? then r else Err(Internal))
  }

  function PrepareCreate(db: Db, cmd: CreateCommand, spaceId: Option<string>): Result<CreateRequest> {
    var request :- StartCreate(cmd);
    var _ :- Need(spaceId.Some?, NotFound);
    var _ :- CheckCreate(db, request.draft);
    Ok(request)
  }

  // accept_ai_suggestion and reject_ai_suggestion.
  function Decide(b: Backend, actor: Actor, suggestionId: string, accept: bool): (Backend, Result<Suggestion>) {
    match StartDecide(b.db, actor, suggestionId)
    case Err(e) => (b, Err(e))
    case Ok(read) =>
      var target := if accept then Accepted else Rejected;
      var (db, r) := if read.suggestion.status == Proposed
                     then DecideSuggestion(b.db, read.actor, read.id, target)
                     else (b.db, Ok(read.suggestion));
      (b.(db := db), if r.Ok? && r.value.status == target then r else if r.Ok? then Err(Conflict) else r)
  }

  datatype DecideRead = DecideRead(actor: Actor, id: string, suggestion: Suggestion)

  function StartDecide(db: Db, actor: Actor, suggestionId: string): Result<DecideRead> {
    var actor :- NormalizeActor(actor);
    var id :- NormalizeRequired(suggestionId);
    var suggestion :- FindSuggestion(db, actor, id);
    Ok(DecideRead(actor, id, suggestion))
  }
}
