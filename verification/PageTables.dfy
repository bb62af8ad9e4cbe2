// The page, search-projection and suggestion tables, and what each repository call of
// SqlCanvasStore does to them. One function describes one call (or one SQL transaction).
module PageTables {
  import opened Domain
  import opened Ids

  // A row of canvas_page_search_projection; every row is written with index_status 'indexed'.
  datatype Projection = Projection(
    id: string,
    tenant: string,
    organization: string,
    workspaceId: string,
    pageId: string,
    versionId: string,
    versionNo: int,
    title: string,
    plainText: string,
    snippet: string)

  datatype SuggestionStatus = Proposed | Accepted | Applied | Rejected | Dismissed

  datatype Field = Absent | Text(text: string) | NotText

  // A suggestion payload: what the service reads out of the JSON value, and its serialized text.
  datatype Payload = Payload(isObject: bool, content: Option<Json>, contentType: Field, schemaVersion: Field, text: string)

  datatype Suggestion = Suggestion(
    id: string,
    tenant: string,
    organization: string,
    workspaceId: string,
    pageId: string,
    jobId: string,
    kind: string,
    status: SuggestionStatus,
    sourceNodeId: Option<string>,
    sourceVersionId: Option<string>,
    sourceVersionNo: Option<int>,
    payload: Payload,
    version: nat)

  // The pages table is a map over its primary key; `order` lists the keys as inserted, so that
  // queries have rows to enumerate. Projection rows are a list: nothing in the representation
  // keeps two of them from joining one page.
  datatype Db = Db(
    pages: map<string, Page>,
    order: seq<string>,
    projections: seq<Projection>,
    suggestions: map<string, Suggestion>)

  datatype PageDraft = PageDraft(
    id: string,
    actor: Actor,
    workspaceId: string,
    title: string,
    kind: PageKind,
    parentId: Option<string>,
    folderNodeId: Option<string>)

  datatype MetadataPatch = MetadataPatch(
    title: string,
    favorite: bool,
    archiveStatus: string,
    publishStatus: string,
    parentId: Option<Option<string>>)

  predicate Visible(p: Page, actor: Actor) {
    p.tenant == actor.tenant && p.organization == actor.organization && !p.deleted
  }

  function FindPage(db: Db, actor: Actor, id: string): Result<Page> {
    if id in db.pages && Visible(db.pages[id], actor) then Ok(db.pages[id]) else Err(NotFound)
  }

  predicate PageIdIsReserved(db: Db, id: string) {
    id in db.pages
  }

  /* The search projection */

  predicate SameKey(sp: Projection, p: Page) {
    && sp.tenant == p.tenant && sp.organization == p.organization
    && sp.pageId == p.id && sp.versionId == p.versionId
  }

  function KeyIndex(sps: seq<Projection>, p: Page): (k: nat)
    ensures k <= |sps|
    ensures k < |sps| ==> SameKey(sps[k], p)
    ensures forall i :: 0 <= i < k ==> !SameKey(sps[i], p)
  {
    if sps == [] || SameKey(sps[0], p) then 0 else 1 + KeyIndex(sps[1..], p)
  }

  function NewProjection(p: Page): Projection {
    Projection(ProjectionId(p.id, p.versionId), p.tenant, p.organization, p.workspaceId, p.id,
               p.versionId, p.versionNo, p.title, p.snippet.GetOr(""), p.snippet.GetOr(""))
  }

  predicate PrimaryKeyTaken(sps: seq<Projection>, p: Page) {
    exists i :: 0 <= i < |sps| && sps[i].id == ProjectionId(p.id, p.versionId) && !SameKey(sps[i], p)
  }

  // INSERT ... ON CONFLICT(tenant, organization, page, version) DO UPDATE. A clash on the primary
  // key alone is not covered by the conflict target and fails the statement.
  function UpsertProjection(sps: seq<Projection>, p: Page): Result<seq<Projection>> {
    var k := KeyIndex(sps, p);
    var row := NewProjection(p);
    if PrimaryKeyTaken(sps, p) then Err(Internal)
    else if k < |sps| then Ok(sps[k := row.(workspaceId := sps[k].workspaceId)])
    else Ok(sps + [row])
  }

  function WithoutPage(sps: seq<Projection>, actor: Actor, id: string): seq<Projection> {
    if sps == [] then []
    else
      var sp, rest := sps[0], WithoutPage(sps[1..], actor, id);
      if sp.tenant == actor.tenant && sp.organization == actor.organization && sp.pageId == id then rest
      else [sp] + rest
  }

  // A statement that changed page `id` to `p`, followed by the projection upsert for the new row.
  function StoreAndProject(db: Db, p: Page): (Db, Result<Page>) {
    var db1 := db.(pages := db.pages[p.id := p]);
    match UpsertProjection(db.projections, p)
    case Ok(sps) => (db1.(projections := sps), Ok(p))
    case Err(e) => (db1, Err(e))
  }

  /* Page statements */

  predicate NodeTaken(db: Db, tenant: string, nodeId: string) {
    exists id :: id in db.pages && db.pages[id].tenant == tenant && db.pages[id].nodeId == nodeId
  }

  function NewPage(draft: PageDraft, s: Snapshot, now: int): Page {
    Page(draft.id, draft.actor.tenant, draft.actor.organization, draft.workspaceId, draft.title,
         draft.kind, draft.parentId, draft.folderNodeId, s.spaceId, s.nodeId, s.uri, s.versionId,
         s.versionNo, s.contentType, s.schemaVersion, s.contentHash, s.snippet, false, "active",
         "private", s.wordCount, s.taskCount, false, 1, draft.actor.operator, now)
  }

  function InsertPage(db: Db, draft: PageDraft, s: Snapshot, now: int): (Db, Result<Page>) {
    if draft.id in db.pages || NodeTaken(db, draft.actor.tenant, s.nodeId) then (db, Err(Conflict))
    else StoreAndProject(db.(order := db.order + [draft.id]), NewPage(draft, s, now))
  }

  function Patched(p: Page, patch: MetadataPatch, actor: Actor, now: int): Page {
    p.(title := patch.title, favorite := patch.favorite, archiveStatus := patch.archiveStatus,
       publishStatus := patch.publishStatus, parentId := patch.parentId.GetOr(p.parentId),
       updatedBy := actor.operator, updatedAt := now, version := p.version + 1)
  }

  function UpdatePageMetadata(db: Db, actor: Actor, id: string, patch: MetadataPatch,
                              expectedVersion: Option<int>, now: int): (Db, Result<Page>) {
    match FindPage(db, actor, id)
    case Err(_) => (db, Err(NotFound))
    case Ok(p) =>
      if expectedVersion.Some? && p.version != expectedVersion.value then (db, Err(Conflict))
      else StoreAndProject(db, Patched(p, patch, actor, now))
  }

  function Deleted(p: Page, actor: Actor, now: int): Page {
    p.(deleted := true, updatedBy := actor.operator, updatedAt := now, version := p.version + 1)
  }

  function DeletePage(db: Db, actor: Actor, id: string, now: int): (Db, Result<()>) {
    match FindPage(db, actor, id)
    case Err(_) => (db, Err(NotFound))
    case Ok(p) =>
      (db.(pages := db.pages[id := Deleted(p, actor, now)],
           projections := WithoutPage(db.projections, actor, id)),
       Ok(()))
  }

  function Repointed(p: Page, s: Snapshot, actor: Actor, now: int): Page {
    p.(spaceId := s.spaceId, nodeId := s.nodeId, uri := s.uri, versionId := s.versionId,
       versionNo := s.versionNo, contentType := s.contentType, schemaVersion := s.schemaVersion,
       contentHash := s.contentHash, snippet := s.snippet, wordCount := s.wordCount,
       taskCount := s.taskCount, updatedBy := actor.operator, updatedAt := now,
       version := p.version + 1)
  }

  // The compare-and-swap of the Drive pointer.
  function UpdatePageDriveSnapshot(db: Db, actor: Actor, id: string, s: Snapshot, expected: string,
                                   now: int): (Db, Result<Page>) {
    match FindPage(db, actor, id)
    case Err(_) => (db, Err(NotFound))
    case Ok(p) =>
      if p.versionId != expected then (db, Err(Conflict))
      else StoreAndProject(db, Repointed(p, s, actor, now))
  }

  /* Suggestion statements */

  function FindSuggestion(db: Db, actor: Actor, id: string): Result<Suggestion> {
    if id in db.suggestions && db.suggestions[id].tenant == actor.tenant
       && db.suggestions[id].organization == actor.organization
    then Ok(db.suggestions[id])
    else Err(NotFound)
  }

  function WithStatus(sg: Suggestion, status: SuggestionStatus): Suggestion {
    sg.(status := status, version := sg.version + 1)
  }

  function DecideSuggestion(db: Db, actor: Actor, id: string, status: SuggestionStatus)
    : (Db, Result<Suggestion>)
  {
    match FindSuggestion(db, actor, id)
    case Err(e) => (db, Err(e))
    case Ok(sg) =>
      if sg.status != Proposed then (db, Ok(sg))
      else (db.(suggestions := db.suggestions[id := WithStatus(sg, status)]), Ok(WithStatus(sg, status)))
  }

  // One transaction: the pointer compare-and-swap and the move from accepted to applied, or
  // neither. It writes no projection row.
  function ApplySuggestion(db: Db, actor: Actor, id: string, pageId: string, s: Snapshot,
                           expected: string, now: int): (Db, Result<Suggestion>) {
    match FindPage(db, actor, pageId)
    case Err(_) => (db, Err(NotFound))
    case Ok(p) =>
      if p.versionId != expected then (db, Err(Conflict))
      else
        match FindSuggestion(db, actor, id)
        case Err(_) => (db, Err(NotFound))
        case Ok(sg) =>
          if sg.status != Accepted then (db, Err(Conflict))
          else
            (db.(pages := db.pages[pageId := Repointed(p, s, actor, now)],
                 suggestions := db.suggestions[id := WithStatus(sg, Applied)]),
             Ok(WithStatus(sg, Applied)))
  }
}
