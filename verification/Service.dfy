// CanvasPagesService over its repository and its Drive port: the calls as the service makes them,
// one repository or Drive call after the other.
module Service {
  import opened Domain
  import opened Validation
  import opened Drive
  import opened PageTables
  import opened AiTables
  import opened PageCommands
  import PageCalls
  import opened JobProtocol
  import JobCalls
  import RemoteApply
  import opened Store

  class CanvasPagesService {
    const repository: SqlCanvasStore
    const drive: MemoryDrivePageContentPort

    constructor (repository: SqlCanvasStore, drive: MemoryDrivePageContentPort)
      ensures this.repository == repository && this.drive == drive
    {
      this.repository, this.drive := repository, drive;
    }

    ghost function State(): PageCalls.Backend
      reads repository, drive
    {
      PageCalls.Backend(repository.Tables(), drive.State())
    }

    /* Page content */

    method UpdatePageContent(cmd: UpdateCommand, now: int) returns (r: Result<PageContent>)
      requires repository.Valid()
      modifies repository`pages, repository`projections, drive
      ensures repository.Valid() && (State(), r) == PageCalls.UpdateContent(old(State()), cmd, now)
    {
      var actor :- NormalizeActor(cmd.actor);
      var pageId :- NormalizeRequired(cmd.pageId);
      if !cmd.content.isObject {
        return Err(Error.Validation);
      }
      var page :- repository.FindPage(actor, pageId);
      var expected := NormalizeOptional(cmd.expected);
      if expected.Some? && page.versionId != expected.value {
        return Err(Conflict);
      }
      var contentType := NormalizeOptional(cmd.contentType).GetOr(page.contentType);
      var schemaVersion := NormalizeOptional(cmd.schemaVersion).GetOr(page.schemaVersion);
      var _ :- ValidateContentMetadata(contentType, schemaVersion);
      ghost var c := WriteReady(actor, page, WriteContent(cmd.content, contentType, schemaVersion), None);
      assert StartUpdate(old(State()).db, cmd) == Ok(c);
      var s := drive.UpdatePageContent(page.id, page.spaceId, page.nodeId, page.uri, contentType, schemaVersion, cmd.content);
      if !(SnapshotValid(s) && MatchesRefs(s, page.spaceId, page.nodeId, page.uri)
           && Advances(s, page.versionId, page.versionNo) && MatchesMetadata(s, contentType, schemaVersion)) {
        return Err(Internal);
      }
      var committed := repository.UpdatePageDriveSnapshot(actor, page.id, s, page.versionId, now);
      r := if committed.Ok? then Ok(ContentOf(page.id, s)) else Err(Internal);
    }

    method RestorePageVersion(cmd: RestoreCommand, now: int) returns (r: Result<PageContent>)
      requires repository.Valid()
      modifies repository`pages, repository`projections, drive
      ensures repository.Valid() && (State(), r) == PageCalls.RestoreVersion(old(State()), cmd, now)
    {
      var actor :- NormalizeActor(cmd.actor);
      var pageId :- NormalizeRequired(cmd.pageId);
      var versionId :- NormalizeRequired(cmd.versionId);
      var expected := NormalizeOptional(cmd.expected);
      var page :- repository.FindPage(actor, pageId);
      if expected.Some? && page.versionId != expected.value {
        return Err(Conflict);
      }
      ghost var c := WriteReady(actor, page, RestoreVersion(versionId), None);
      assert StartRestore(old(State()).db, cmd) == Ok(c);
      var s :- drive.RestorePageContentVersion(page.id, versionId);
      if !(SnapshotValid(s) && MatchesRefs(s, page.spaceId, page.nodeId, page.uri)
           && Advances(s, page.versionId, page.versionNo)) {
        return Err(Internal);
      }
      var committed := repository.UpdatePageDriveSnapshot(actor, page.id, s, page.versionId, now);
      r := if committed.Ok? then Ok(ContentOf(page.id, s)) else Err(Internal);
    }

    method GetPageContent(actor: Actor, pageId: string) returns (r: Result<PageContent>)
      ensures r == PageCalls.GetContent(State(), actor, pageId)
    {
      var normalized :- NormalizeActor(actor);
      var id :- NormalizeRequired(pageId);
      var page :- repository.FindPage(normalized, id);
      var s :- drive.ReadPageContent(page.id);
      if !(SnapshotValid(s) && MatchesRefs(s, page.spaceId, page.nodeId, page.uri)) {
        return Err(Internal);
      }
      if !MatchesVersion(s, page.versionId, page.versionNo) {
        return Err(Internal);
      }
      if !MatchesMetadata(s, page.contentType, page.schemaVersion) {
        return Err(Internal);
      }
      r := Ok(ContentOf(page.id, s));
    }

    method ApplyAiSuggestion(cmd: ApplyCommand, now: int) returns (r: Result<PageContent>)
      requires repository.Valid()
      modifies repository`pages, repository`suggestions, drive
      ensures repository.Valid() && (State(), r) == PageCalls.ApplySuggestion(old(State()), cmd, now)
    {
      var actor :- NormalizeActor(cmd.actor);
      var id :- NormalizeRequired(cmd.suggestionId);
      var expected := NormalizeOptional(cmd.expected);
      var sg :- repository.FindAiSuggestion(actor, id);
      ghost var started := SuggestionRead(actor, sg, expected);
      assert StartApply(old(State()).db, cmd) == Ok(started);
      if sg.status == Applied {
        r := GetPageContent(actor, sg.pageId);
        return;
      }
      if sg.status != Accepted {
        return Err(Conflict);
      }
      var page :- repository.FindPage(actor, sg.pageId);
      if page.workspaceId != sg.workspaceId {
        return Err(NotFound);
      }
      if sg.sourceVersionId.Some? && page.versionId != sg.sourceVersionId.value {
        return Err(Conflict);
      }
      if sg.sourceVersionNo.Some? && page.versionNo != sg.sourceVersionNo.value {
        return Err(Conflict);
      }
      if expected.Some? && page.versionId != expected.value {
        return Err(Conflict);
      }
      var write :- ApplyWrite(sg, page);
      ghost var c := WriteReady(actor, page, write, Some(sg));
      assert ReadForApply(old(State()).db, started) == Ok(c);
      var s := drive.UpdatePageContent(page.id, page.spaceId, page.nodeId, page.uri, write.contentType,
                                       write.schemaVersion, write.content);
      if !(SnapshotValid(s) && MatchesRefs(s, page.spaceId, page.nodeId, page.uri)
           && Advances(s, page.versionId, page.versionNo) && MatchesMetadata(s, write.contentType, write.schemaVersion)) {
        return Err(Internal);
      }
      var applied := repository.ApplyAiSuggestion(actor, sg.id, page.id, s, page.versionId, now);
      r := if applied.Ok? then Ok(ContentOf(page.id, s)) else Err(Internal);
    }

    /* Page rows */

    method UpdatePageMetadata(cmd: MetadataCommand, now: int) returns (r: Result<Page>)
      requires repository.Valid()
      modifies repository`pages, repository`projections
      ensures repository.Valid() && (State(), r) == PageCalls.UpdateMetadata(old(State()), cmd, now)
    {
      var actor :- NormalizeActor(cmd.actor);
      var pageId :- NormalizeRequired(cmd.pageId);
      var current :- repository.FindPage(actor, pageId);
      var expectedVersion :- CheckExpectedVersion(current, cmd);
      ghost var read := PageCalls.MetadataRead(actor, current, expectedVersion);
      assert PageCalls.ReadMetadata(old(State()).db, cmd) == Ok(read);
      if NamesNothing(cmd) {
        return Ok(current);
      }
      if cmd.parentId.Some? && cmd.parentId.value.Some? {
        var parent :- repository.FindPage(actor, cmd.parentId.value.value);
        if parent.workspaceId != current.workspaceId {
          return Err(NotFound);
        }
        if cmd.parentId.value.value == pageId {
          return Err(Error.Validation);
        }
      }
      assert CheckParent(old(State()).db, actor, current, cmd).Ok?;
      var patch :- BuildPatch(current, cmd);
      assert PageCalls.BuildChecked(old(State()).db, read, cmd) == Ok(patch);
      r := repository.UpdatePageMetadata(actor, pageId, patch, expectedVersion, now);
    }

    // `spaceId` is what the workspace lookup finds.
    method CreatePage(cmd: CreateCommand, spaceId: Option<string>, now: int) returns (r: Result<Page>)
      requires repository.Valid()
      modifies repository`pages, repository`order, repository`projections, drive
      ensures repository.Valid() && (State(), r) == PageCalls.CreatePage(old(State()), cmd, spaceId, now)
    {
      var request :- StartCreate(cmd);
      var draft := request.draft;
      if spaceId.None? {
        return Err(NotFound);
      }
      var reserved := repository.PageIdIsReserved(draft.id);
      if reserved {
        return Err(Conflict);
      }
      if draft.parentId.Some? {
        var parent :- repository.FindPage(draft.actor, draft.parentId.value);
        if parent.workspaceId != draft.workspaceId {
          return Err(NotFound);
        }
      }
      assert PageCalls.PrepareCreate(old(State()).db, cmd, spaceId) == Ok(request);
      var s := drive.CreatePageContent(draft.id, spaceId.value, request.contentType, request.schemaVersion, request.content);
      if !(SnapshotValid(s) && s.spaceId == spaceId.value && MatchesMetadata(s, request.contentType, request.schemaVersion)) {
        return Err(Internal);
      }
      var inserted := repository.InsertPage(draft, s, now);
      r := if inserted.Ok? then inserted else Err(Internal);
    }

    method DecideAiSuggestion(actor: Actor, suggestionId: string, accept: bool) returns (r: Result<Suggestion>)
      requires repository.Valid()
      modifies repository`suggestions
      ensures repository.Valid() && (State(), r) == PageCalls.Decide(old(State()), actor, suggestionId, accept)
    {
      var normalized :- NormalizeActor(actor);
      var id :- NormalizeRequired(suggestionId);
      var target := if accept then Accepted else Rejected;
      var current :- repository.FindAiSuggestion(normalized, id);
      if current.status == Proposed {
        r := repository.DecideAiSuggestion(normalized, id, target);
        if r.Ok? && r.value.status != target {
          r := Err(Conflict);
        }
      } else {
        r := if current.status == target then Ok(current) else Err(Conflict);
      }
    }

    /* remote_apply_page */

    method RemoteApplyPage(cmd: RemoteApply.RemoteCommand, now: int, later: int) returns (r: Result<RemoteApply.RemoteResult>)
      requires repository.Valid()
      modifies repository`pages, repository`projections, drive
      ensures repository.Valid() && (State(), r) == RemoteApply.RemoteApplyPage(old(State()), cmd, now, later)
    {
      var request :- RemoteApply.StartRemote(cmd);
      var found := repository.FindPage(request.actor, request.pageId);
      if found.Err? {
        return Ok(RemoteApply.Refused(request.taskId, cmd.base, RemoteApply.DeletedRemotely));
      }
      var current := found.value;
      var base := NormalizeOptional(cmd.base);
      if base.Some? && base.value != current.versionId {
        return Ok(RemoteApply.Refused(request.taskId, Some(current.versionId), RemoteApply.StaleBaseVersion));
      }
      if request.operation == "permanent-delete" {
        if !cmd.mutation.PermanentDeleteIntent? {
          return Err(Error.Validation);
        }
        if current.archiveStatus != "archived" && current.kind != Folder {
          return Ok(RemoteApply.Refused(request.taskId, Some(current.versionId), RemoteApply.PageNotInTrash));
        }
        var deleted := repository.DeletePage(request.actor, request.pageId, now);
        return if deleted.Ok? then Ok(RemoteApply.RemoteResult.Applied(request.taskId, current.versionId, current.updatedAt))
               else Err(NotFound);
      }
      var page :- MutatePage(request, cmd.mutation, now, later);
      r := Ok(RemoteApply.RemoteResult.Applied(request.taskId, page.versionId, page.updatedAt));
    }

    method MutatePage(request: RemoteApply.RemoteRequest, m: RemoteApply.Mutation, now: int, later: int)
      returns (r: Result<Page>)
      requires repository.Valid()
      modifies repository`pages, repository`projections, drive
      ensures repository.Valid() && (State(), r) == RemoteApply.Mutate(old(State()), request, m, now, later)
    {
      if request.operation == "upsert" {
        if !m.UpsertPatch? {
          return Err(Error.Validation);
        }
        r := UpsertPage(request, m, now, later);
      } else if request.operation == "move" {
        if !m.Move? {
          return Err(Error.Validation);
        }
        r := UpdatePageMetadata(RemoteApply.Metadata(request).(parentId := Some(m.targetParentId)), now);
      } else if request.operation == "delete" {
        r := UpdatePageMetadata(RemoteApply.Metadata(request).(archiveStatus := Some("archived")), now);
      } else if request.operation == "restore" {
        r := UpdatePageMetadata(RemoteApply.Metadata(request).(archiveStatus := Some("active")), now);
      } else {
        r := Err(Error.Validation);
      }
    }

    method UpsertPage(request: RemoteApply.RemoteRequest, m: RemoteApply.Mutation, now: int, later: int)
      returns (r: Result<Page>)
      requires repository.Valid() && m.UpsertPatch?
      modifies repository`pages, repository`projections, drive
      ensures repository.Valid() && (State(), r) == RemoteApply.Upsert(old(State()), request, m, now, later)
    {
      if m.title.Some? || m.favorite.Some? || m.publishStatus.Some? || m.parentId.Some? {
        var _ :- UpdatePageMetadata(RemoteApply.PatchOf(request, m), now);
      }
      if m.content.Some? {
        var refreshed :- repository.FindPage(request.actor, request.pageId);
        var _ :- UpdatePageContent(RemoteApply.TextUpdate(request, m.content.value, refreshed.versionId), later);
      }
      r := repository.FindPage(request.actor, request.pageId);
    }

    /* AI jobs */

    method CreateAiJob(cmd: CreateJobCommand, workspaceExists: bool) returns (r: Result<Job>)
      requires repository.Valid()
      modifies repository`jobs, repository`keys, repository`sources
      ensures repository.Valid()
      ensures (repository.Ai(), r) == JobCalls.CreateAiJob(old(repository.Ai()), repository.Tables(), cmd, workspaceExists)
    {
      var request :- StartJob(cmd);
      var existing := repository.FindAiJobByIdempotencyKey(request.actor, request.key);
      if existing.Some? {
        return if existing.value.payloadHash == request.payloadHash then Ok(existing.value) else Err(Conflict);
      }
      if !workspaceExists {
        return Err(NotFound);
      }
      var sources := [];
      if request.targetType == "page" {
        if request.targetId.None? {
          return Err(Error.Validation);
        }
        var page :- repository.FindPage(request.actor, request.targetId.value);
        if page.workspaceId != request.workspaceId {
          return Err(NotFound);
        }
        sources := [PageSource(request, page)];
      }
      assert SourcesForTarget(repository.Tables(), request) == Ok(sources);
      var inserted := repository.InsertAiJob(JobFor(request, sources));
      if inserted.Ok? || inserted.error != Conflict {
        return inserted;
      }
      existing := repository.FindAiJobByIdempotencyKey(request.actor, request.key);
      r := if existing.Some? && existing.value.payloadHash == request.payloadHash then Ok(existing.value) else Err(Conflict);
    }

    method CompleteAiJob(cmd: JobCalls.CompleteCommand) returns (r: Result<Job>)
      requires repository.Valid()
      modifies repository`jobs, repository`suggestions
      ensures repository.Valid()
      ensures (repository.Ai(), r) == JobCalls.CompleteAiJob(old(repository.Ai()), old(repository.Tables()), cmd)
    {
      var actor :- NormalizeActor(cmd.actor);
      var id :- NormalizeRequired(cmd.jobId);
      if cmd.inputs == [] {
        return Err(Error.Validation);
      }
      var job :- repository.FindAiJob(actor, id);
      if job.status != Running {
        return Err(Conflict);
      }
      var sources := SourcesOf(repository.sources, job);
      ghost var read := JobCalls.CompleteRead(actor, job, sources);
      assert JobCalls.StartComplete(old(repository.Ai()), cmd) == Ok(read);
      var tables := Db(repository.pages, repository.order, repository.projections, repository.suggestions);
      var built := [];
      while |built| < |cmd.inputs|
        invariant |built| <= |cmd.inputs|
        invariant JobCalls.BuildAll(tables, read, cmd.inputs, built) == JobCalls.BuildAll(tables, read, cmd.inputs, [])
      {
        var next :- BuildSuggestion(tables, actor, job, sources, cmd.inputs[|built|], |built|);
        built := built + [next];
      }
      r := repository.CompleteAiJob(actor, id, built);
    }
  }
}
