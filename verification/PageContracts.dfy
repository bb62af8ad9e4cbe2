// What every page call answers, said from the command and the tables alone: the error, in the order
// in which the checks are made, or the whole effect.
module PageContracts {
  import opened Domain
  import opened Ids
  import opened Drive
  import opened PageTables
  import opened PageCommands
  import opened PageProtocol
  import opened SearchIndex
  import opened PageTheorems
  import opened Calls = PageCalls
  import opened PageProgress
  import opened PageCreates
  import opened PageMetadata

  // The page's search row is that of its current version.
  ghost predicate Projected(db: Db, id: string) {
    && id in db.pages
    && exists sp :: sp in db.projections && sp.pageId == id && sp.versionNo == db.pages[id].versionNo && Mirrors(sp, db.pages[id])
  }

  lemma StoreProjects(db: Db, p: Page)
    requires StoreAndProject(db, p).1.Ok?
    ensures Projected(StoreAndProject(db, p).0, p.id)
  {
    var k := KeyIndex(db.projections, p);
    var sps := StoreAndProject(db, p).0.projections;
    assert sps[k].pageId == p.id && sps[k] in sps;
  }

  // A content write appends one snapshot, which is the new head, moves the page's row to it and
  // nothing else, and is answered with what a read of the page then gives.
  ghost predicate ContentWritten(b: Backend, next: Backend, actor: Actor, id: string, s: Snapshot, r: Result<PageContent>, now: int) {
    && s.versionNo == |History(b.drive, id)| + 1
    && next.drive.versions == b.drive.versions[id := History(b.drive, id) + [s]] && next.drive.records == b.drive.records[id := s]
    && OnlyMoves(b.db, next.db, id, s, Trim(actor.operator), now)
    && r.Ok? && Answers(r.value, id, s) && GetContent(next, actor, id) == r
  }

  lemma ServedIsWritten(b: Backend, next: Backend, actor: Actor, id: string, c: Client, s: Snapshot, r: Result<PageContent>, now: int)
    requires c.WriteReady? && Served(b, next, c, s, r, now) && NormalizeRequired(id) == Ok(id)
    requires NormalizeActor(actor) == Ok(c.actor) && c.page.id == id && FindPage(b.db, c.actor, id).Ok?
    ensures ContentWritten(b, next, actor, id, s, r, now)
  {
    assert FindPage(next.db, c.actor, id) == Ok(next.db.pages[id]);
  }

  lemma FinishWriteProjects(b: Backend, c: Client, now: int)
    requires PagesInv(Idle(b)) && c.WriteReady? && c.goal.None? && FinishWrite(b, c, now).1.Ok?
    ensures Projected(FinishWrite(b, c, now).0.db, c.page.id)
  {
    var ready := DriveStep(b.drive, c).1.value;
    StoreProjects(b.db, Repointed(b.db.pages[c.page.id], ready.snapshot, c.actor, now));
  }

  /* update_page_content */

  predicate MetadataGiven(given: Option<string>, max: nat) {
    given.Some? && !IsBlank(given.value) ==> |Trim(given.value)| <= max
  }

  function UpdateError(db: Db, cmd: UpdateCommand): Option<Error> {
    if !Names(cmd.actor, cmd.pageId) || !cmd.content.isObject then Some(Validation)
    else if !Sees(db, cmd.actor, cmd.pageId) then Some(NotFound)
    else if !ExpectsCurrent(db, cmd.pageId, cmd.expected) then Some(Conflict)
    else if !MetadataGiven(cmd.contentType, 255) || !MetadataGiven(cmd.schemaVersion, 32) then Some(Validation)
    else None
  }

  lemma UpdateStarts(db: Db, cmd: UpdateCommand)
    requires Trim(cmd.pageId) in db.pages ==>
               (var p := db.pages[Trim(cmd.pageId)]; p.id == Trim(cmd.pageId) && |p.contentType| <= 255 && |p.schemaVersion| <= 32)
    ensures match UpdateError(db, cmd)
            case Some(e) => StartUpdate(db, cmd) == Err(e)
            case None =>
              && StartUpdate(db, cmd).Ok? && StartUpdate(db, cmd).value.WriteReady?
              && NormalizeActor(cmd.actor) == Ok(StartUpdate(db, cmd).value.actor)
              && StartUpdate(db, cmd).value.page == db.pages[Trim(cmd.pageId)]
  {
  }

  lemma RowFits(b: Backend, id: string)
    requires SoundBackend(b) && id in b.db.pages
    ensures b.db.pages[id].id == id && |b.db.pages[id].contentType| <= 255 && |b.db.pages[id].schemaVersion| <= 32
  {
    ColumnsFit(b, id);
  }

  // From every reachable state, an uninterrupted update.
  lemma UpdateAnswers(b: Backend, cmd: UpdateCommand, now: int)
    requires SoundBackend(b)
    ensures var (next, r) := UpdateContent(b, cmd, now);
            match UpdateError(b.db, cmd)
            case Some(e) => next == b && r == Err(e)
            case None =>
              var id := Trim(cmd.pageId);
              && next.db.suggestions == b.db.suggestions && Projected(next.db, id)
              && exists s :: StoredAsAsked(cmd, b.db.pages[id], s) && ContentWritten(b, next, cmd.actor, id, s, r, now)
  {
    if Trim(cmd.pageId) in b.db.pages {
      RowFits(b, Trim(cmd.pageId));
    }
    UpdateStarts(b.db, cmd);
    UpdateSucceeds(b, cmd, now);
    if UpdateError(b.db, cmd).None? {
      var c := StartUpdate(b.db, cmd).value;
      var (next, r) := UpdateContent(b, cmd, now);
      UpdateReadsNow(b, cmd, c);
      var s :| Served(b, next, c, s, r, now) && StoredAsAsked(cmd, c.page, s);
      IdIsNamed(b, Trim(cmd.pageId));
      ServedIsWritten(b, next, cmd.actor, Trim(cmd.pageId), c, s, r, now);
      FinishWriteProjects(b, c, now);
    }
  }

  /* restore_page_version */

  function RestoreError(b: Backend, cmd: RestoreCommand): Option<Error> {
    if !Names(cmd.actor, cmd.pageId) || IsBlank(cmd.versionId) then Some(Validation)
    else if !Sees(b.db, cmd.actor, cmd.pageId) then Some(NotFound)
    else if !ExpectsCurrent(b.db, cmd.pageId, cmd.expected) then Some(Conflict)
    else if forall s :: s in History(b.drive, Trim(cmd.pageId)) ==> s.versionId != Trim(cmd.versionId) then Some(NotFound)
    else None
  }

  lemma RestoreStarts(b: Backend, cmd: RestoreCommand)
    requires Trim(cmd.pageId) in b.db.pages ==> b.db.pages[Trim(cmd.pageId)].id == Trim(cmd.pageId)
    ensures StartRestore(b.db, cmd).Err? ==> RestoreError(b, cmd) == Some(StartRestore(b.db, cmd).error)
    ensures StartRestore(b.db, cmd).Ok? ==>
              (var c := StartRestore(b.db, cmd).value;
               && c.WriteReady? && NormalizeActor(cmd.actor) == Ok(c.actor)
               && Trim(cmd.pageId) in b.db.pages && c.page == b.db.pages[Trim(cmd.pageId)] && c.page.id == Trim(cmd.pageId)
               && RestoreError(b, cmd) == (if forall s :: s in History(b.drive, c.page.id) ==> s.versionId != Trim(cmd.versionId)
                                           then Some(NotFound) else None))
  {
  }

  // A copy of the named entry under the next number.
  predicate CopyOf(source: Snapshot, s: Snapshot, id: string) {
    s == source.(versionId := VersionId(id, s.versionNo), versionNo := s.versionNo)
  }

  lemma RestoreAnswers(b: Backend, cmd: RestoreCommand, now: int)
    requires SoundBackend(b)
    ensures var (next, r) := Calls.RestoreVersion(b, cmd, now);
            match RestoreError(b, cmd)
            case Some(e) => next == b && r == Err(e)
            case None =>
              var id := Trim(cmd.pageId);
              && next.db.suggestions == b.db.suggestions && Projected(next.db, id)
              && exists s, source :: source in History(b.drive, id) && source.versionId == Trim(cmd.versionId)
                                     && CopyOf(source, s, id) && ContentWritten(b, next, cmd.actor, id, s, r, now)
  {
    if Trim(cmd.pageId) in b.db.pages {
      RowFits(b, Trim(cmd.pageId));
    }
    RestoreStarts(b, cmd);
    RestoreSucceeds(b, cmd, now);
    if StartRestore(b.db, cmd).Ok? {
      var c := StartRestore(b.db, cmd).value;
      RestoreReadsNow(b, cmd, c);
      if Calls.RestoreVersion(b, cmd, now).1.Ok? {
        IdIsNamed(b, Trim(cmd.pageId));
        FinishWriteProjects(b, c, now);
        RestoredIsWritten(b, Calls.RestoreVersion(b, cmd, now).0, cmd, c, Calls.RestoreVersion(b, cmd, now).1, now);
      }
    }
  }

  lemma RestoredIsWritten(b: Backend, next: Backend, cmd: RestoreCommand, c: Client, r: Result<PageContent>, now: int)
    requires StartRestore(b.db, cmd) == Ok(c) && RestoreOutcome(b, cmd, next, r, now) && r.Ok? && c.WriteReady?
    requires NormalizeActor(cmd.actor) == Ok(c.actor) && c.page.id == Trim(cmd.pageId) && FindPage(b.db, c.actor, c.page.id).Ok?
    requires NormalizeRequired(c.page.id) == Ok(c.page.id)
    ensures exists s, source :: source in History(b.drive, c.page.id) && source.versionId == Trim(cmd.versionId)
                                && CopyOf(source, s, c.page.id) && ContentWritten(b, next, cmd.actor, c.page.id, s, r, now)
  {
    var s, source :| Served(b, next, c, s, r, now) && RestoredFrom(b, cmd, c, s, source);
    ServedIsWritten(b, next, cmd.actor, c.page.id, c, s, r, now);
    assert CopyOf(source, s, c.page.id);
  }

  /* get_page_content */

  function ReadError(b: Backend, actor: Actor, pageId: string): Option<Error> {
    if !Names(actor, pageId) then Some(Validation)
    else if !Sees(b.db, actor, pageId) then Some(NotFound)
    else if b.db.pages[Trim(pageId)].versionNo != |History(b.drive, Trim(pageId))| then Some(Internal)
    else None
  }

  lemma ReadAnswers(b: Backend, actor: Actor, pageId: string)
    requires SoundBackend(b)
    ensures var r := GetContent(b, actor, pageId);
            match ReadError(b, actor, pageId)
            case Some(e) => r == Err(e)
            case None =>
              var id, h := Trim(pageId), History(b.drive, Trim(pageId));
              h != [] && r.Ok? && Answers(r.value, id, h[|h| - 1]) && Points(b.db.pages[id], h[|h| - 1])
  {
    ReadStarts(b.db, actor, pageId);
    var started := StartRead(b.db, actor, pageId);
    if started.Ok? {
      RowFits(b, Trim(pageId));
      ReadIsOfItsPointer(Idle(b), started.value.page);
    }
  }

  lemma ReadStarts(db: Db, actor: Actor, pageId: string)
    ensures StartRead(db, actor, pageId)
         == if !Names(actor, pageId) then Err(Validation)
            else if !Sees(db, actor, pageId) then Err(NotFound)
            else Ok(Reading(db.pages[Trim(pageId)]))
  {
  }

  /* apply_ai_suggestion */

  // The page is live and in the suggestion's workspace.
  predicate TargetSeen(db: Db, actor: Actor, sg: Suggestion) {
    SeesRow(db, actor, sg.pageId) && db.pages[sg.pageId].workspaceId == sg.workspaceId
  }

  function AcceptedError(db: Db, actor: Actor, sg: Suggestion, expected: Option<string>): Option<Error> {
    if !TargetSeen(db, actor, sg) then Some(NotFound)
    else if !TargetIsCurrent(db, actor, sg, expected) then Some(Conflict)
    else if !PayloadFits(sg.payload) then Some(Validation)
    else None
  }

  function ApplyError(b: Backend, cmd: ApplyCommand): Option<Error> {
    if !Names(cmd.actor, cmd.suggestionId) then Some(Validation)
    else if !SeesSuggestion(b.db, cmd.actor, cmd.suggestionId) then Some(NotFound)
    else
      var sg := b.db.suggestions[Trim(cmd.suggestionId)];
      if sg.status == Applied then ReadError(b, cmd.actor, sg.pageId)
      else if sg.status != Accepted then Some(Conflict)
      else AcceptedError(b.db, cmd.actor, sg, cmd.expected)
  }

  lemma ApplyStarts(db: Db, cmd: ApplyCommand)
    ensures !Names(cmd.actor, cmd.suggestionId) ==> StartApply(db, cmd) == Err(Validation)
    ensures Names(cmd.actor, cmd.suggestionId) && !SeesSuggestion(db, cmd.actor, cmd.suggestionId) ==> StartApply(db, cmd) == Err(NotFound)
    ensures SeesSuggestion(db, cmd.actor, cmd.suggestionId) ==>
              StartApply(db, cmd) == Ok(SuggestionRead(Actor(Trim(cmd.actor.tenant), Trim(cmd.actor.organization), Trim(cmd.actor.operator)),
                                                       db.suggestions[Trim(cmd.suggestionId)], NormalizeOptional(cmd.expected)))
  {
  }

  lemma ApplyWriteError(sg: Suggestion, page: Page)
    requires |page.contentType| <= 255 && |page.schemaVersion| <= 32
    ensures PayloadFits(sg.payload) ==> ApplyWrite(sg, page).Ok?
    ensures !PayloadFits(sg.payload) ==> ApplyWrite(sg, page) == Err(Validation)
  {
  }

  lemma ReadForApplyError(db: Db, actor: Actor, started: Client, expected: Option<string>)
    requires started.SuggestionRead? && NormalizeActor(actor) == Ok(started.actor) && started.expected == NormalizeOptional(expected)
    requires started.suggestion.status == Accepted
    requires started.suggestion.pageId in db.pages ==>
               (var p := db.pages[started.suggestion.pageId]; |p.contentType| <= 255 && |p.schemaVersion| <= 32)
    ensures match AcceptedError(db, actor, started.suggestion, expected)
            case Some(e) => ReadForApply(db, started) == Err(e)
            case None => ReadForApply(db, started).Ok?
  {
    if started.suggestion.pageId in db.pages {
      ApplyWriteError(started.suggestion, db.pages[started.suggestion.pageId]);
    }
  }

  // An accepted suggestion is stored, made current and marked applied; an applied one is only read.
  // The search row is not refreshed.
  ghost predicate SuggestionApplied(b: Backend, next: Backend, actor: Actor, sg: Suggestion, r: Result<PageContent>, now: int) {
    if sg.status == Applied then next == b && r == GetContent(b, actor, sg.pageId)
    else
      && OnlyApplies(b.db, next.db, Some(sg)) && next.db.projections == b.db.projections && sg.pageId in b.db.pages
      && exists s :: StoredFromPayload(sg, b.db.pages[sg.pageId], s) && ContentWritten(b, next, actor, sg.pageId, s, r, now)
  }

  lemma ApplySkipsProjection(b: Backend, c: Client, now: int)
    requires c.WriteReady? && c.goal.Some?
    ensures FinishWrite(b, c, now).0.db.projections == b.db.projections
  {
  }

  lemma AcceptedAnswers(b: Backend, cmd: ApplyCommand, started: Client, now: int)
    requires SoundBackend(b) && StartApply(b.db, cmd) == Ok(started) && started.SuggestionRead?
    requires NormalizeActor(cmd.actor) == Ok(started.actor) && started.suggestion.status == Accepted
    requires started.expected == NormalizeOptional(cmd.expected)
    ensures var (next, r) := Calls.ApplySuggestion(b, cmd, now);
            match AcceptedError(b.db, cmd.actor, started.suggestion, cmd.expected)
            case Some(e) => next == b && r == Err(e)
            case None => SuggestionApplied(b, next, cmd.actor, started.suggestion, r, now)
  {
    var sg := started.suggestion;
    if sg.pageId in b.db.pages {
      RowFits(b, sg.pageId);
    }
    ReadForApplyError(b.db, cmd.actor, started, cmd.expected);
    if ReadForApply(b.db, started).Ok? {
      AppliedIsWritten(b, cmd, started, ReadForApply(b.db, started).value, now);
    }
  }

  lemma AppliedIsWritten(b: Backend, cmd: ApplyCommand, started: Client, c: Client, now: int)
    requires SoundBackend(b) && StartApply(b.db, cmd) == Ok(started) && started.SuggestionRead?
    requires NormalizeActor(cmd.actor) == Ok(started.actor) && ReadForApply(b.db, started) == Ok(c)
    ensures var (next, r) := Calls.ApplySuggestion(b, cmd, now); SuggestionApplied(b, next, cmd.actor, started.suggestion, r, now)
  {
    var (next, r) := Calls.ApplySuggestion(b, cmd, now);
    var sg := started.suggestion;
    ApplySucceeds(b, cmd, started, c, now);
    ApplyReadsNow(b, cmd, started, c);
    ApplyTarget(b, started, c);
    var s :| Served(b, next, c, s, r, now) && StoredFromPayload(sg, c.page, s);
    IdIsNamed(b, sg.pageId);
    ServedIsWritten(b, next, cmd.actor, sg.pageId, c, s, r, now);
    ApplySkipsProjection(b, c, now);
    assert StoredFromPayload(sg, b.db.pages[sg.pageId], s);
  }

  lemma SameReader(b: Backend, actor: Actor, normalized: Actor, pageId: string)
    requires NormalizeActor(actor) == Ok(normalized)
    ensures GetContent(b, normalized, pageId) == GetContent(b, actor, pageId)
  {
    assert NormalizeActor(normalized) == Ok(normalized);
  }

  lemma ApplyAnswers(b: Backend, cmd: ApplyCommand, now: int)
    requires SoundBackend(b)
    ensures var (next, r) := Calls.ApplySuggestion(b, cmd, now);
            match ApplyError(b, cmd)
            case Some(e) => next == b && r == Err(e)
            case None => SuggestionApplied(b, next, cmd.actor, b.db.suggestions[Trim(cmd.suggestionId)], r, now)
  {
    ApplyStarts(b.db, cmd);
    if StartApply(b.db, cmd).Ok? {
      var started := StartApply(b.db, cmd).value;
      if started.suggestion.status == Applied {
        AppliedAnswers(b, cmd, started, now);
        SameReader(b, cmd.actor, started.actor, started.suggestion.pageId);
        ReadAnswers(b, cmd.actor, started.suggestion.pageId);
      } else if started.suggestion.status == Accepted {
        AcceptedAnswers(b, cmd, started, now);
      }
    }
  }

  /* accept_ai_suggestion and reject_ai_suggestion */

  function DecideError(db: Db, actor: Actor, id: string, target: SuggestionStatus): Option<Error> {
    if !Names(actor, id) then Some(Validation)
    else if !SeesSuggestion(db, actor, id) then Some(NotFound)
    else if db.suggestions[Trim(id)].status != Proposed && db.suggestions[Trim(id)].status != target then Some(Conflict)
    else None
  }

  // The row a decision leaves: a proposed one decided, a decided one as it is.
  function DecidedRow(sg: Suggestion, target: SuggestionStatus): Suggestion {
    if sg.status == Proposed then sg.(status := target, version := sg.version + 1) else sg
  }

  lemma DecideAnswers(b: Backend, actor: Actor, id: string, accept: bool)
    ensures var (next, r) := Decide(b, actor, id, accept);
            var target := if accept then Accepted else Rejected;
            match DecideError(b.db, actor, id, target)
            case Some(e) => next == b && r == Err(e)
            case None =>
              var row := DecidedRow(b.db.suggestions[Trim(id)], target);
              r == Ok(row) && next == b.(db := b.db.(suggestions := b.db.suggestions[Trim(id) := row]))
  {
    if DecideError(b.db, actor, id, if accept then Accepted else Rejected).None? {
      var sg := b.db.suggestions[Trim(id)];
      assert sg.status != Proposed ==> b.db.suggestions[Trim(id) := sg] == b.db.suggestions;
    }
  }

  /* create_page */

  function CreateError(db: Db, cmd: CreateCommand, spaceId: Option<string>): Option<Error> {
    if !CreateIsWellFormed(cmd) then Some(Validation)
    else if spaceId.None? then Some(NotFound)
    else if Trim(cmd.pageId) in db.pages then Some(Conflict)
    else if !ParentFits(db, cmd) then Some(NotFound)
    else None
  }

  lemma CreateStarts(db: Db, cmd: CreateCommand, spaceId: Option<string>)
    ensures match CreateError(db, cmd, spaceId)
            case Some(e) => PrepareCreate(db, cmd, spaceId) == Err(e)
            case None => PrepareCreate(db, cmd, spaceId).Ok?
  {
    StartsCreateExactly(cmd);
    if StartCreate(cmd).Err? {
      assert StartCreate(cmd) == Err(Validation);
    }
  }

  lemma CreateProjects(b: Backend, cmd: CreateCommand, spaceId: Option<string>, now: int)
    requires CreatePage(b, cmd, spaceId, now).1.Ok?
    ensures Projected(CreatePage(b, cmd, spaceId, now).0.db, CreatePage(b, cmd, spaceId, now).1.value.id)
  {
    var request := PrepareCreate(b.db, cmd, spaceId).value;
    var c := DriveCreate(b.drive, request, spaceId.GetOr("")).1.value;
    StoreProjects(b.db.(order := b.db.order + [c.draft.id]), NewPage(c.draft, c.snapshot, now));
  }

  // The space's name is looked at only after Drive has stored the content.
  lemma CreateAnswers(b: Backend, cmd: CreateCommand, spaceId: Option<string>, now: int)
    requires SoundBackend(b)
    ensures var (next, r) := CreatePage(b, cmd, spaceId, now);
            match CreateError(b.db, cmd, spaceId)
            case Some(e) => next == b && r == Err(e)
            case None =>
              var id := Trim(cmd.pageId);
              exists s :: SnapshotAsAsked(cmd, spaceId.value, s) && next.drive == Stored(b.drive, id, s)
                && if IsBlank(spaceId.value) then next.db == b.db && r == Err(Internal)
                   else
                     && r.Ok? && RowAsAsked(cmd, r.value, s, now) && next.db.pages == b.db.pages[id := r.value]
                     && next.db.suggestions == b.db.suggestions && Projected(next.db, id)
  {
    CreateStarts(b.db, cmd, spaceId);
    CreateSucceeds(b, cmd, spaceId, now);
    if CreatePage(b, cmd, spaceId, now).1.Ok? {
      CreateProjects(b, cmd, spaceId, now);
    }
  }

  /* update_page_metadata */

  predicate NoFieldNamed(cmd: MetadataCommand) {
    && cmd.title == None && cmd.favorite == None && cmd.archiveStatus == None && cmd.publishStatus == None && cmd.parentId == None
  }

  function NewParentError(db: Db, cmd: MetadataCommand): Option<Error>
    requires Trim(cmd.pageId) in db.pages
  {
    if cmd.parentId.None? || cmd.parentId.value.None? then None
    else
      var id := cmd.parentId.value.value;
      if !SeesRow(db, cmd.actor, id) || db.pages[id].workspaceId != db.pages[Trim(cmd.pageId)].workspaceId then Some(NotFound)
      else if id == Trim(cmd.pageId) then Some(Validation)
      else None
  }

  function MetadataError(db: Db, cmd: MetadataCommand): Option<Error> {
    if !Names(cmd.actor, cmd.pageId) then Some(Validation)
    else if !Sees(db, cmd.actor, cmd.pageId) then Some(NotFound)
    else if cmd.expectedVersion == Some(None) then Some(Validation)
    else if !ExpectsVersion(db, cmd) then Some(Conflict)
    else if NewParentError(db, cmd).Some? then NewParentError(db, cmd)
    else if !FieldsFit(cmd) then Some(Validation)
    else None
  }

  lemma MetadataStarts(b: Backend, cmd: MetadataCommand)
    requires CheckedBackend(b)
    ensures match MetadataError(b.db, cmd)
            case Some(e) =>
              ReadMetadata(b.db, cmd) == Err(e)
              || (&& ReadMetadata(b.db, cmd).Ok? && !NamesNothing(cmd) && BuildChecked(b.db, ReadMetadata(b.db, cmd).value, cmd) == Err(e))
            case None => MetadataFits(b.db, cmd)
  {
    ReadMetadataError(b.db, cmd);
    if ReadMetadata(b.db, cmd).Ok? {
      ReadRow(b, cmd, ReadMetadata(b.db, cmd).value);
      CheckedError(b.db, cmd, ReadMetadata(b.db, cmd).value);
    }
  }

  lemma ReadMetadataError(db: Db, cmd: MetadataCommand)
    ensures !Names(cmd.actor, cmd.pageId) ==> ReadMetadata(db, cmd) == Err(Validation)
    ensures Names(cmd.actor, cmd.pageId) && !Sees(db, cmd.actor, cmd.pageId) ==> ReadMetadata(db, cmd) == Err(NotFound)
    ensures Names(cmd.actor, cmd.pageId) && Sees(db, cmd.actor, cmd.pageId) ==>
              (if cmd.expectedVersion == Some(None) then ReadMetadata(db, cmd) == Err(Validation)
               else if !ExpectsVersion(db, cmd) then ReadMetadata(db, cmd) == Err(Conflict)
               else ReadMetadata(db, cmd).Ok? && ReadMetadata(db, cmd).value.page == db.pages[Trim(cmd.pageId)]
                    && NormalizeActor(cmd.actor) == Ok(ReadMetadata(db, cmd).value.actor))
  {
  }

  lemma CheckedError(db: Db, cmd: MetadataCommand, read: MetadataRead)
    requires ReadMetadata(db, cmd) == Ok(read) && read.page.id == Trim(cmd.pageId) && PageChecks.FieldsOk(read.page)
    requires Trim(cmd.pageId) in db.pages && read.page == db.pages[Trim(cmd.pageId)] && NormalizeActor(cmd.actor) == Ok(read.actor)
    ensures NewParentError(db, cmd).Some? ==> BuildChecked(db, read, cmd) == Err(NewParentError(db, cmd).value) && !NamesNothing(cmd)
    ensures NewParentError(db, cmd).None? && !FieldsFit(cmd) ==> BuildChecked(db, read, cmd) == Err(Validation) && !NamesNothing(cmd)
    ensures NewParentError(db, cmd).None? <==> NewParentFits(db, cmd)
  {
    BuildsExactly(read.page, cmd);
    BuildError(read.page, cmd);
  }

  lemma BuildError(page: Page, cmd: MetadataCommand)
    ensures BuildPatch(page, cmd).Err? ==> BuildPatch(page, cmd).error == Validation
  {
  }

  lemma MetadataProjects(b: Backend, cmd: MetadataCommand, now: int)
    requires CheckedBackend(b) && UpdateMetadata(b, cmd, now).1.Ok? && !NamesNothing(cmd)
    ensures Projected(UpdateMetadata(b, cmd, now).0.db, Trim(cmd.pageId))
    ensures UpdateMetadata(b, cmd, now).0.db.suggestions == b.db.suggestions
  {
    var read := ReadMetadata(b.db, cmd).value;
    ReadRow(b, cmd, read);
    StoreProjects(b.db, Patched(read.page, BuildChecked(b.db, read, cmd).value, read.actor, now));
  }

  // The named fields are set and no others, or nothing changes.
  lemma MetadataAnswers(b: Backend, cmd: MetadataCommand, now: int)
    requires CheckedBackend(b)
    ensures var (next, r) := UpdateMetadata(b, cmd, now);
            match MetadataError(b.db, cmd)
            case Some(e) => next == b && r == Err(e)
            case None =>
              var id := Trim(cmd.pageId);
              var p := b.db.pages[id];
              if NoFieldNamed(cmd) then next == b && r == Ok(p)
              else
                && r == Ok(AskedFor(p, cmd, Actor(Trim(cmd.actor.tenant), Trim(cmd.actor.organization), Trim(cmd.actor.operator)), now))
                && next.db.pages == b.db.pages[id := r.value] && next.db.suggestions == b.db.suggestions
                && next.drive == b.drive && Projected(next.db, id)
  {
    MetadataStarts(b, cmd);
    UpdateMetadataSucceedsExactly(b, cmd, now);
    if MetadataError(b.db, cmd).None? && !NamesNothing(cmd) {
      MetadataProjects(b, cmd, now);
    }
  }

  /* delete_page */

  // A live page is marked deleted and loses its search rows; no other row of either table changes.
  lemma DeleteAnswers(db: Db, actor: Actor, id: string, now: int)
    requires IndexInv(db)
    ensures var (next, r) := DeletePage(db, actor, id, now);
            if id !in db.pages || db.pages[id].deleted || db.pages[id].tenant != actor.tenant || db.pages[id].organization != actor.organization
            then next == db && r == Err(NotFound)
            else
              var p := db.pages[id];
              && r == Ok(()) && next.suggestions == db.suggestions
              && next.pages == db.pages[id := p.(deleted := true, version := p.version + 1, updatedBy := actor.operator, updatedAt := now)]
              && forall sp :: sp in next.projections <==> sp in db.projections && sp.pageId != id
  {
    WithoutPageShape(db.projections, actor, id);
  }

  /* Any Drive */

  // Whatever Drive holds and answers, a snapshot that the service goes on to commit lies ahead of the
  // row that was read, on the same node, and fits the row's columns.
  lemma AnyDriveWriteAdvances(d: DriveState, c: Client)
    requires c.WriteReady? && DriveStep(d, c).1.Ok?
    ensures var ready := DriveStep(d, c).1.value;
            && ready.CommitReady? && ready.page == c.page && ready.actor == c.actor && ready.goal == c.goal
            && var s := ready.snapshot;
               && s.versionNo > c.page.versionNo && s.versionNo >= 1 && s.versionId != c.page.versionId && !IsBlank(s.versionId)
               && s.spaceId == c.page.spaceId && s.nodeId == c.page.nodeId && s.uri == c.page.uri
               && s.uri == DriveUri(s.spaceId, s.nodeId) && !IsBlank(s.spaceId) && !IsBlank(s.nodeId) && !IsBlank(s.uri)
               && !IsBlank(s.contentType) && !IsBlank(s.schemaVersion) && |s.contentType| <= 255 && |s.schemaVersion| <= 32
               && s.content.isObject
               && (c.write.WriteContent? ==> s.contentType == c.write.contentType && s.schemaVersion == c.write.schemaVersion)
  {
  }

  // Whatever Drive holds, a read that succeeds answers with the row's own references and metadata.
  lemma AnyDriveReadMatchesRow(d: DriveState, page: Page)
    requires ReadStep(d, Reading(page)).Ok?
    ensures var r := ReadStep(d, Reading(page)).value;
            && r.pageId == page.id && r.nodeId == page.nodeId && r.versionId == page.versionId && r.versionNo == page.versionNo
            && r.contentType == page.contentType && r.schemaVersion == page.schemaVersion && r.content.isObject
  {
  }
}
