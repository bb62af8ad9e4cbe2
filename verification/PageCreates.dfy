// create_page: what an uninterrupted create does, and what a second Drive create for one page id
// does. The checks of create_page look at page rows only, so they do not keep a second one out.
module PageCreates {
  import opened Domain
  import opened Ids
  import opened Validation
  import opened Drive
  import opened PageTables
  import opened PageCommands
  import opened PageProtocol
  import opened PageInvariant
  import opened SearchIndex
  import opened PageTheorems
  import opened PageCalls
  import opened PageProgress

  // What the checks of create_page leave for its Drive call.
  predicate WellFormed(request: CreateRequest) {
    && !IsBlank(request.draft.id) && Trim(request.draft.id) == request.draft.id
    && !IsBlank(request.contentType) && !IsBlank(request.schemaVersion) && request.content.isObject
    && |request.contentType| <= 255 && |request.schemaVersion| <= 32
  }

  function SnapshotFor(request: CreateRequest, spaceId: string): Snapshot {
    FirstSnapshot(request.draft.id, spaceId, request.contentType, request.schemaVersion, request.content)
  }

  lemma FirstSnapshotIsValid(request: CreateRequest, spaceId: string)
    requires WellFormed(request)
    ensures SnapshotValid(SnapshotFor(request, spaceId)) <==> !IsBlank(spaceId)
  {
    NodeIdAndUriNotBlank(spaceId, request.draft.id);
    VersionIdIsTrimmed(request.draft.id, 1);
  }

  // The Drive call stores its snapshot whatever is there already, and is refused afterwards exactly
  // when the space has no name.
  lemma DriveCreateAnswers(d: DriveState, request: CreateRequest, spaceId: string)
    requires WellFormed(request)
    ensures DriveCreate(d, request, spaceId)
         == (Stored(d, request.draft.id, SnapshotFor(request, spaceId)),
             if IsBlank(spaceId) then Err(Internal) else Ok(Creating(request.draft, SnapshotFor(request, spaceId))))
  {
    FirstSnapshotIsValid(request, spaceId);
  }

  /* One Drive create per page id */

  // A Drive create keeps the histories well-formed exactly when the page has none yet and the space
  // has a name.
  lemma DriveCreateKeepsExactly(d: DriveState, request: CreateRequest, spaceId: string)
    requires DriveInv(d) && WellFormed(request)
    ensures DriveInv(DriveCreate(d, request, spaceId).0) <==> request.draft.id !in d.versions && !IsBlank(spaceId)
  {
    var page, s := request.draft.id, SnapshotFor(request, spaceId);
    FirstSnapshotIsValid(request, spaceId);
    if page !in d.versions && !IsBlank(spaceId) {
      StoreKeepsInv(d, page, s);
    } else {
      LastEntryIsWrong(d, page, s);
    }
  }

  lemma LastEntryIsWrong(d: DriveState, page: string, s: Snapshot)
    requires DriveInv(d) && s.versionNo == 1 && (page in d.versions || !SnapshotValid(s))
    ensures !DriveInv(Stored(d, page, s))
  {
    var h := History(d, page) + [s];
    assert Stored(d, page, s).versions[page] == h;
    assert page in d.versions ==> HistoryOk(page, d.versions[page]);
    assert HistoryOk(page, h) ==> EntryOk(page, h, |h| - 1);
  }

  // After two Drive creates for one id, the row that the first creator inserts is read exactly when
  // the two agree on space and metadata, and then with the second creator's content.
  lemma SecondCreateServesOtherContent(d: DriveState, first: CreateRequest, second: CreateRequest,
                                       space1: string, space2: string, now: int)
    requires WellFormed(first) && WellFormed(second) && first.draft.id == second.draft.id
    requires !IsBlank(space1) && !IsBlank(space2)
    ensures var d2 := DriveCreate(DriveCreate(d, first, space1).0, second, space2).0;
            var r := ReadStep(d2, Reading(NewPage(first.draft, SnapshotFor(first, space1), now)));
            && (r.Ok? <==> space1 == space2 && first.contentType == second.contentType
                           && first.schemaVersion == second.schemaVersion)
            && (r.Ok? ==> Answers(r.value, first.draft.id, SnapshotFor(second, space2)) && r.value.content == second.content)
            && (r.Err? ==> r.error == Internal)
  {
    FirstSnapshotIsValid(second, space2);
  }

  lemma FirstEntryIsFound(h: seq<Snapshot>, versionId: string)
    requires h != [] && h[0].versionId == versionId
    ensures FindVersion(h, versionId) == Some(h[0])
  {
  }

  // Version 1 then names two entries: a restore of it takes the oldest, while the head is the newest.
  lemma OldestVersionOneIsRestored(d: DriveState, request: CreateRequest, spaceId: string)
    requires History(d, request.draft.id) != []
    requires History(d, request.draft.id)[0].versionId == VersionId(request.draft.id, 1)
    ensures var d2 := DriveCreate(d, request, spaceId).0;
            var restored := RestoredSnapshot(d2, request.draft.id, VersionId(request.draft.id, 1));
            && restored.Ok? && restored.value.content == History(d, request.draft.id)[0].content
            && Read(d2, request.draft.id).Ok? && Read(d2, request.draft.id).value.content == request.content
            && Read(d2, request.draft.id).value.versionId == VersionId(request.draft.id, 1)
  {
    FirstEntryIsFound(History(d, request.draft.id) + [SnapshotFor(request, spaceId)], VersionId(request.draft.id, 1));
  }

  /* create_page */

  lemma NodeIsFree(b: Backend, tenant: string, id: string)
    requires SoundBackend(b) && id !in b.db.pages
    ensures !NodeTaken(b.db, tenant, NodeId(id))
  {
    forall k | k in b.db.pages
      ensures b.db.pages[k].nodeId != NodeId(id)
    {
      EntryIsValid(Idle(b), b.db.pages[k]);
      if NodeId(k) == NodeId(id) {
        CancelPrefix("drive-node-", k, id);
      }
    }
  }

  lemma InsertSucceeds(b: Backend, draft: PageDraft, s: Snapshot, now: int)
    requires SoundBackend(b) && draft.id !in b.db.pages
    requires s.nodeId == NodeId(draft.id) && s.versionNo == 1 && s.versionId == VersionId(draft.id, 1)
    ensures InsertPage(b.db, draft, s, now).1 == Ok(NewPage(draft, s, now))
    ensures InsertPage(b.db, draft, s, now).0.pages == b.db.pages[draft.id := NewPage(draft, s, now)]
  {
    NodeIsFree(b, draft.actor.tenant, draft.id);
    InsertKeepsIndex(b.db, draft, s, now);
    ProjectedPages(b.db.(order := b.db.order + [draft.id]), NewPage(draft, s, now));
  }

  lemma PreparedFields(db: Db, cmd: CreateCommand, spaceId: Option<string>, request: CreateRequest)
    requires PrepareCreate(db, cmd, spaceId) == Ok(request)
    ensures spaceId.Some? && StartCreate(cmd) == Ok(request) && request.draft.id !in db.pages
    ensures WellFormed(request) && request.content == cmd.content && request.draft.id == Trim(cmd.pageId)
    ensures NormalizeActor(cmd.actor) == Ok(request.draft.actor)
    ensures request.draft.title == Trim(cmd.title) && request.draft.workspaceId == Trim(cmd.workspaceId)
    ensures request.draft.kind == cmd.kind && request.draft.parentId == NormalizeOptional(cmd.parentId)
    ensures request.draft.folderNodeId == NormalizeOptional(cmd.folderNodeId)
    ensures request.contentType == Trim(cmd.contentType) && request.schemaVersion == Trim(cmd.schemaVersion)
  {
  }

  // The row of a new page: what the command names, the fixed defaults, and the stored snapshot.
  predicate RowAsAsked(cmd: CreateCommand, p: Page, s: Snapshot, now: int) {
    && p.id == Trim(cmd.pageId) && p.title == Trim(cmd.title) && p.workspaceId == Trim(cmd.workspaceId) && p.kind == cmd.kind
    && p.tenant == Trim(cmd.actor.tenant) && p.organization == Trim(cmd.actor.organization)
    && p.parentId == NormalizeOptional(cmd.parentId) && p.folderNodeId == NormalizeOptional(cmd.folderNodeId)
    && !p.favorite && p.archiveStatus == "active" && p.publishStatus == "private" && !p.deleted && p.version == 1
    && Points(p, s) && p.updatedBy == Trim(cmd.actor.operator) && p.updatedAt == now
  }

  // The snapshot stored for a create: version 1 of the given content.
  predicate SnapshotAsAsked(cmd: CreateCommand, spaceId: string, s: Snapshot) {
    && s.versionId == VersionId(Trim(cmd.pageId), 1) && s.versionNo == 1
    && s.spaceId == spaceId && s.nodeId == NodeId(Trim(cmd.pageId)) && s.uri == DriveUri(spaceId, NodeId(Trim(cmd.pageId)))
    && s.contentHash == Some("sha256:first") && s.snippet == Some("hello") && s.wordCount == 1 && s.taskCount == 0
    && s.content == cmd.content && s.contentType == Trim(cmd.contentType) && s.schemaVersion == Trim(cmd.schemaVersion)
  }

  // A create that passes its checks stores version 1 behind whatever history the page has, adds one
  // row that points at it, and is read back with its own content. In a space without a name it fails
  // after the Drive call. A create that does not pass changes nothing.
  ghost predicate CreateOutcome(b: Backend, cmd: CreateCommand, spaceId: Option<string>, next: Backend, r: Result<Page>, now: int) {
    match PrepareCreate(b.db, cmd, spaceId)
    case Err(e) => next == b && r == Err(e)
    case Ok(_) =>
      var id := Trim(cmd.pageId);
      && spaceId.Some? && id !in b.db.pages
      && exists s :: SnapshotAsAsked(cmd, spaceId.value, s) && next.drive == Stored(b.drive, id, s)
           && if IsBlank(spaceId.value) then next.db == b.db && r == Err(Internal)
              else
                && r.Ok? && RowAsAsked(cmd, r.value, s, now) && next.db.suggestions == b.db.suggestions && next.db.pages == b.db.pages[id := r.value]
                && var read := GetContent(next, cmd.actor, cmd.pageId); read.Ok? && Answers(read.value, id, s)
  }

  lemma PreparedSucceeds(b: Backend, request: CreateRequest, spaceId: string, now: int)
    requires SoundBackend(b) && WellFormed(request) && request.draft.id !in b.db.pages
    ensures var s := SnapshotFor(request, spaceId);
            var (next, r) := CreatePrepared(b, request, spaceId, now);
            && next.drive == Stored(b.drive, request.draft.id, s)
            && (IsBlank(spaceId) ==> next.db == b.db && r == Err(Internal))
            && (!IsBlank(spaceId) ==> r == Ok(NewPage(request.draft, s, now))
                                      && next.db.suggestions == b.db.suggestions
                                      && next.db.pages == b.db.pages[request.draft.id := NewPage(request.draft, s, now)])
  {
    DriveCreateAnswers(b.drive, request, spaceId);
    InsertSucceeds(b, request.draft, SnapshotFor(request, spaceId), now);
  }

  lemma NewRowReads(next: Backend, cmd: CreateCommand, p: Page, s: Snapshot, now: int)
    requires Names(cmd.actor, cmd.pageId) && RowAsAsked(cmd, p, s, now) && SnapshotValid(s)
    requires p.id in next.db.pages && next.db.pages[p.id] == p
    requires p.id in next.drive.records && next.drive.records[p.id] == s
    ensures var read := GetContent(next, cmd.actor, cmd.pageId); read.Ok? && Answers(read.value, p.id, s)
  {
  }

  lemma AsAsked(db: Db, cmd: CreateCommand, request: CreateRequest, spaceId: string, now: int)
    requires PrepareCreate(db, cmd, Some(spaceId)) == Ok(request)
    ensures WellFormed(request) && request.draft.id == Trim(cmd.pageId) && request.draft.id !in db.pages
    ensures Names(cmd.actor, cmd.pageId) && SnapshotAsAsked(cmd, spaceId, SnapshotFor(request, spaceId))
    ensures RowAsAsked(cmd, NewPage(request.draft, SnapshotFor(request, spaceId), now), SnapshotFor(request, spaceId), now)
  {
    PreparedFields(db, cmd, Some(spaceId), request);
  }

  lemma PreparedAsAsked(b: Backend, cmd: CreateCommand, request: CreateRequest, spaceId: string, now: int)
    requires SoundBackend(b) && PrepareCreate(b.db, cmd, Some(spaceId)) == Ok(request)
    ensures CreateOutcome(b, cmd, Some(spaceId), CreatePrepared(b, request, spaceId, now).0, CreatePrepared(b, request, spaceId, now).1, now)
  {
    var s := SnapshotFor(request, spaceId);
    AsAsked(b.db, cmd, request, spaceId, now);
    PreparedSucceeds(b, request, spaceId, now);
    if !IsBlank(spaceId) {
      FirstSnapshotIsValid(request, spaceId);
      NewRowReads(CreatePrepared(b, request, spaceId, now).0, cmd, NewPage(request.draft, s, now), s, now);
    }
  }

  lemma CreateSucceeds(b: Backend, cmd: CreateCommand, spaceId: Option<string>, now: int)
    requires SoundBackend(b)
    ensures CreateOutcome(b, cmd, spaceId, CreatePage(b, cmd, spaceId, now).0, CreatePage(b, cmd, spaceId, now).1, now)
  {
    var prepared := PrepareCreate(b.db, cmd, spaceId);
    if prepared.Ok? {
      PreparedFields(b.db, cmd, spaceId, prepared.value);
      PreparedAsAsked(b, cmd, prepared.value, spaceId.value, now);
    }
  }

  // What a caller must see to. A parent page and a folder exclude each other.
  predicate CreateIsWellFormed(cmd: CreateCommand) {
    && Names(cmd.actor, cmd.pageId) && !IsBlank(cmd.title) && |Trim(cmd.title)| <= 200 && !IsBlank(cmd.workspaceId)
    && (NormalizeOptional(cmd.parentId).None? || NormalizeOptional(cmd.folderNodeId).None?)
    && !IsBlank(cmd.contentType) && |Trim(cmd.contentType)| <= 255
    && !IsBlank(cmd.schemaVersion) && |Trim(cmd.schemaVersion)| <= 32 && cmd.content.isObject
  }

  predicate ParentFits(db: Db, cmd: CreateCommand) {
    NormalizeOptional(cmd.parentId).Some? ==>
      (var parentId := NormalizeOptional(cmd.parentId).value;
       SeesRow(db, cmd.actor, parentId) && db.pages[parentId].workspaceId == Trim(cmd.workspaceId))
  }

  lemma StartsCreateExactly(cmd: CreateCommand)
    ensures StartCreate(cmd).Ok? <==> CreateIsWellFormed(cmd)
    ensures StartCreate(cmd).Ok? ==>
              (var draft := StartCreate(cmd).value.draft;
               && draft.id == Trim(cmd.pageId) && NormalizeActor(cmd.actor) == Ok(draft.actor)
               && draft.workspaceId == Trim(cmd.workspaceId) && draft.parentId == NormalizeOptional(cmd.parentId))
  {
  }

  lemma PreparesExactly(db: Db, cmd: CreateCommand, spaceId: Option<string>)
    ensures PrepareCreate(db, cmd, spaceId).Ok? <==>
              CreateIsWellFormed(cmd) && spaceId.Some? && Trim(cmd.pageId) !in db.pages && ParentFits(db, cmd)
  {
    StartsCreateExactly(cmd);
  }

  // From every reachable state an uninterrupted create succeeds exactly for a well-formed command,
  // in a workspace with a named space, under an unused id, with a parent in the workspace if any.
  lemma CreateSucceedsExactly(b: Backend, cmd: CreateCommand, spaceId: Option<string>, now: int)
    requires SoundBackend(b)
    ensures CreatePage(b, cmd, spaceId, now).1.Ok? <==>
              (&& CreateIsWellFormed(cmd) && spaceId.Some? && !IsBlank(spaceId.value)
               && Trim(cmd.pageId) !in b.db.pages && ParentFits(b.db, cmd))
  {
    PreparesExactly(b.db, cmd, spaceId);
    CreateSucceeds(b, cmd, spaceId, now);
  }

  /* When the protocol survives a create */

  lemma CreateThenInsert(b: Backend, cmd: CreateCommand, spaceId: string, now: int)
    requires PrepareCreate(b.db, cmd, Some(spaceId)).Ok? && !IsBlank(spaceId)
    requires StartCreate(cmd).value.draft.id !in b.drive.versions
    ensures NextInsertPage(NextDriveCreate(Idle(b), 0, cmd, spaceId), 0, now)
         == Idle(CreatePage(b, cmd, Some(spaceId), now).0)
  {
    var (drive, created) := DriveCreate(b.drive, StartCreate(cmd).value, spaceId);
    if created.Ok? {
      assert NextDriveCreate(Idle(b), 0, cmd, spaceId) == World(b.db, drive, map[0 := created.value]);
      OneClientEnds(World(b.db, drive, map[0 := created.value]), created.value);
    }
  }

  lemma FreshCreateKeepsSound(b: Backend, cmd: CreateCommand, spaceId: string, now: int)
    requires SoundBackend(b) && PrepareCreate(b.db, cmd, Some(spaceId)).Ok? && !IsBlank(spaceId)
    requires StartCreate(cmd).value.draft.id !in b.drive.versions
    ensures SoundBackend(CreatePage(b, cmd, Some(spaceId), now).0)
  {
    TwoSteps(Idle(b), StepDriveCreate(0, cmd, spaceId), StepInsertPage(0, now));
    CreateThenInsert(b, cmd, spaceId, now);
    RunsKeepSound(b, CreatePage(b, cmd, Some(spaceId), now).0);
  }

  // A create that passes its checks keeps the invariant exactly when Drive has no history for the
  // page yet and the space has a name: the guard of the machine's Drive create is the boundary.
  lemma CreateKeepsSoundExactly(b: Backend, cmd: CreateCommand, spaceId: string, now: int)
    requires SoundBackend(b) && PrepareCreate(b.db, cmd, Some(spaceId)).Ok?
    ensures SoundBackend(CreatePage(b, cmd, Some(spaceId), now).0)
            <==> Trim(cmd.pageId) !in b.drive.versions && !IsBlank(spaceId)
  {
    var request := PrepareCreate(b.db, cmd, Some(spaceId)).value;
    PreparedFields(b.db, cmd, Some(spaceId), request);
    DriveCreateKeepsExactly(b.drive, request, spaceId);
    if request.draft.id !in b.drive.versions && !IsBlank(spaceId) {
      FreshCreateKeepsSound(b, cmd, spaceId, now);
    } else {
      assert CreatePage(b, cmd, Some(spaceId), now).0.drive == DriveCreate(b.drive, request, spaceId).0;
    }
  }

  /* How a second Drive create comes about */

  // A create whose insert is lost leaves a sound state in which the same command passes all its
  // checks again, although Drive already has a history for the page.
  lemma LostCreateIsReachable(b: Backend, cmd: CreateCommand, spaceId: string)
    requires SoundBackend(b) && PrepareCreate(b.db, cmd, Some(spaceId)).Ok? && !IsBlank(spaceId)
    requires Trim(cmd.pageId) !in b.drive.versions
    ensures var request := PrepareCreate(b.db, cmd, Some(spaceId)).value;
            var lost := b.(drive := DriveCreate(b.drive, request, spaceId).0);
            && IsRun(b, lost) && SoundBackend(lost) && Trim(cmd.pageId) in lost.drive.versions
            && PrepareCreate(lost.db, cmd, Some(spaceId)) == Ok(request)
  {
    var request := PrepareCreate(b.db, cmd, Some(spaceId)).value;
    PreparedFields(b.db, cmd, Some(spaceId), request);
    DriveCreateAnswers(b.drive, request, spaceId);
    VanishedCreate(b, cmd, spaceId, request);
    RunsKeepSound(b, b.(drive := DriveCreate(b.drive, request, spaceId).0));
  }

  lemma VanishedCreate(b: Backend, cmd: CreateCommand, spaceId: string, request: CreateRequest)
    requires StartCreate(cmd) == Ok(request) && !IsBlank(spaceId)
    requires request.draft.id !in b.db.pages && request.draft.id !in b.drive.versions
    requires DriveCreate(b.drive, request, spaceId).1.Ok?
    ensures IsRun(b, b.(drive := DriveCreate(b.drive, request, spaceId).0))
  {
    var (drive, created) := DriveCreate(b.drive, request, spaceId);
    var w1 := World(b.db, drive, map[0 := created.value]);
    CreatedAlone(b, cmd, spaceId, request);
    OneClientEnds(w1, created.value);
    VanishedRun(b, StepDriveCreate(0, cmd, spaceId), w1);
  }

  lemma CreatedAlone(b: Backend, cmd: CreateCommand, spaceId: string, request: CreateRequest)
    requires StartCreate(cmd) == Ok(request) && !IsBlank(spaceId)
    requires request.draft.id !in b.db.pages && request.draft.id !in b.drive.versions
    requires DriveCreate(b.drive, request, spaceId).1.Ok?
    ensures NextDriveCreate(Idle(b), 0, cmd, spaceId)
         == World(b.db, DriveCreate(b.drive, request, spaceId).0,
                  map[0 := DriveCreate(b.drive, request, spaceId).1.value])
  {
  }

  lemma VanishedRun(b: Backend, step: Step, w1: World)
    requires Next(Idle(b), step) == w1 && Finish(w1, 0).clients == map[]
    ensures IsRun(b, Backend(w1.db, w1.drive))
  {
    TwoSteps(Idle(b), step, StepVanish(0));
    assert Run(Idle(b), [step, StepVanish(0)]) == Idle(Backend(w1.db, w1.drive));
  }

  // Two creates of one id that race: both pass their checks and their Drive calls, the second insert
  // is refused, and the first creator's row is served as SecondCreateServesOtherContent says.
  lemma RacingCreates(b: Backend, cmd1: CreateCommand, cmd2: CreateCommand, space1: string, space2: string,
                      r1: CreateRequest, r2: CreateRequest, now1: int, now2: int)
    requires SoundBackend(b) && !IsBlank(space1) && !IsBlank(space2) && r1.draft.id == r2.draft.id
    requires PrepareCreate(b.db, cmd1, Some(space1)) == Ok(r1) && PrepareCreate(b.db, cmd2, Some(space2)) == Ok(r2)
    ensures var (d1, created1) := DriveCreate(b.drive, r1, space1);
            var between := b.(drive := d1);
            var (d2, created2) := DriveCreate(between.drive, r2, space2);
            && PrepareCreate(between.db, cmd2, Some(space2)) == Ok(r2)
            && created1 == Ok(Creating(r1.draft, SnapshotFor(r1, space1)))
            && created2 == Ok(Creating(r2.draft, SnapshotFor(r2, space2)))
            && var (db1, inserted) := InsertPage(between.db, r1.draft, SnapshotFor(r1, space1), now1);
               && inserted == Ok(NewPage(r1.draft, SnapshotFor(r1, space1), now1))
               && InsertPage(db1, r2.draft, SnapshotFor(r2, space2), now2) == (db1, Err(Conflict))
               && (ReadStep(d2, Reading(inserted.value)).Ok? <==>
                     space1 == space2 && r1.contentType == r2.contentType && r1.schemaVersion == r2.schemaVersion)
               && (ReadStep(d2, Reading(inserted.value)).Ok? ==> ReadStep(d2, Reading(inserted.value)).value.content == cmd2.content)
  {
    PreparedFields(b.db, cmd1, Some(space1), r1);
    PreparedFields(b.db, cmd2, Some(space2), r2);
    DriveCreateAnswers(b.drive, r1, space1);
    DriveCreateAnswers(DriveCreate(b.drive, r1, space1).0, r2, space2);
    InsertSucceeds(b, r1.draft, SnapshotFor(r1, space1), now1);
    SecondCreateServesOtherContent(b.drive, r1, r2, space1, space2, now1);
  }
}
