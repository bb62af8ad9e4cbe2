// update_page_metadata: exactly when an uninterrupted call succeeds, and exactly what a racing one
// leaves of other writers' fields.
module PageMetadata {
  import opened Domain
  import opened PageTables
  import opened PageCommands
  import opened PageProtocol
  import opened PageInvariant
  import opened PageTheorems
  import opened PageChecks
  import opened PageCalls
  import opened PageProgress

  // A sound state whose rows also satisfy the constraints of their table.
  ghost predicate CheckedBackend(b: Backend) {
    SoundBackend(b) && FieldsInv(Idle(b)) && WordCountsInv(b.drive)
  }

  lemma AnyReachableBackendIsChecked(steps: seq<Step>)
    ensures CheckedBackend(Backend(Run(EMPTY, steps).db, Run(EMPTY, steps).drive))
  {
    AnyReachableBackendIsSound(steps);
    RunKeepsChecks(EMPTY, steps);
  }

  lemma RunsKeepChecked(b: Backend, next: Backend)
    requires CheckedBackend(b) && IsRun(b, next)
    ensures CheckedBackend(next)
  {
    RunsKeepSound(b, next);
    var steps :| Run(Idle(b), steps) == Idle(next);
    RunKeepsChecks(Idle(b), steps);
  }

  /* When the call succeeds */

  predicate TitleFits(title: Option<string>) {
    title.Some? ==> !IsBlank(title.value) && |Trim(title.value)| <= 200
  }

  predicate OneOf(value: Option<string>, allowed: set<string>) {
    value.Some? ==> Trim(value.value) in allowed
  }

  predicate FieldsFit(cmd: MetadataCommand) {
    && TitleFits(cmd.title) && OneOf(cmd.archiveStatus, {"active", "archived"})
    && OneOf(cmd.publishStatus, {"private", "published", "unlisted"})
  }

  // A new parent is another live page of the page's workspace.
  predicate NewParentFits(db: Db, cmd: MetadataCommand)
    requires Trim(cmd.pageId) in db.pages
  {
    cmd.parentId.Some? && cmd.parentId.value.Some? ==>
      (var id := cmd.parentId.value.value;
       SeesRow(db, cmd.actor, id) && id != Trim(cmd.pageId) && db.pages[id].workspaceId == db.pages[Trim(cmd.pageId)].workspaceId)
  }

  predicate ExpectsVersion(db: Db, cmd: MetadataCommand)
    requires Trim(cmd.pageId) in db.pages
  {
    cmd.expectedVersion.Some? ==> cmd.expectedVersion.value == Some(db.pages[Trim(cmd.pageId)].version)
  }

  lemma BuildsExactly(page: Page, cmd: MetadataCommand)
    requires FieldsOk(page)
    ensures BuildPatch(page, cmd).Ok? <==> FieldsFit(cmd)
  {
  }

  lemma ReadsMetadataExactly(db: Db, cmd: MetadataCommand)
    ensures ReadMetadata(db, cmd).Ok? <==> Names(cmd.actor, cmd.pageId) && Sees(db, cmd.actor, cmd.pageId) && ExpectsVersion(db, cmd)
    ensures ReadMetadata(db, cmd).Ok? ==>
              (&& ReadMetadata(db, cmd).value.page == db.pages[Trim(cmd.pageId)]
               && NormalizeActor(cmd.actor) == Ok(ReadMetadata(db, cmd).value.actor))
  {
  }

  lemma ParentChecksExactly(db: Db, cmd: MetadataCommand, read: MetadataRead)
    requires ReadMetadata(db, cmd) == Ok(read) && read.page.id == Trim(cmd.pageId)
    ensures CheckParent(db, read.actor, read.page, cmd).Ok? <==> NewParentFits(db, cmd)
  {
  }

  // A call that passes its checks writes the row it asks for; one that names no field, and any
  // refused one, changes nothing. Drive is never touched.
  predicate MetadataOutcome(b: Backend, cmd: MetadataCommand, next: Backend, r: Result<Page>, now: int) {
    && next.drive == b.drive && (r.Err? ==> next == b)
    && (r.Ok? ==>
          (var id := Trim(cmd.pageId);
           && id in b.db.pages && NormalizeActor(cmd.actor).Ok?
           && r.value == (if NamesNothing(cmd) then b.db.pages[id]
                          else AskedFor(b.db.pages[id], cmd, NormalizeActor(cmd.actor).value, now))
           && next.db.pages == b.db.pages[id := r.value]))
  }

  predicate MetadataFits(db: Db, cmd: MetadataCommand) {
    && Names(cmd.actor, cmd.pageId) && Sees(db, cmd.actor, cmd.pageId) && ExpectsVersion(db, cmd)
    && NewParentFits(db, cmd) && FieldsFit(cmd)
  }

  lemma ReadRow(b: Backend, cmd: MetadataCommand, read: MetadataRead)
    requires CheckedBackend(b) && ReadMetadata(b.db, cmd) == Ok(read)
    ensures read.page.id == Trim(cmd.pageId) && read.page.id in b.db.pages && b.db.pages[read.page.id] == read.page
    ensures FieldsOk(read.page) && Visible(read.page, read.actor) && NormalizeActor(cmd.actor) == Ok(read.actor)
    ensures CheckExpectedVersion(read.page, cmd) == Ok(read.expectedVersion)
  {
  }

  lemma ChecksExactly(b: Backend, cmd: MetadataCommand, read: MetadataRead)
    requires CheckedBackend(b) && ReadMetadata(b.db, cmd) == Ok(read)
    ensures BuildChecked(b.db, read, cmd).Ok? <==> NewParentFits(b.db, cmd) && FieldsFit(cmd)
  {
    ReadRow(b, cmd, read);
    ParentChecksExactly(b.db, cmd, read);
    BuildsExactly(read.page, cmd);
  }

  lemma PatchSucceeds(b: Backend, cmd: MetadataCommand, read: MetadataRead, patch: MetadataPatch, now: int)
    requires CheckedBackend(b) && ReadMetadata(b.db, cmd) == Ok(read) && BuildChecked(b.db, read, cmd) == Ok(patch)
    ensures var (db, r) := UpdatePageMetadata(b.db, read.actor, read.page.id, patch, read.expectedVersion, now);
            r == Ok(AskedFor(read.page, cmd, read.actor, now)) && db.pages == b.db.pages[read.page.id := r.value]
  {
    var c := Patching(read.actor, read.page, cmd, patch, read.expectedVersion);
    ReadRow(b, cmd, read);
    SamePatch(b, cmd);
    StartPatchOk(Idle(b), cmd);
    PatchHasOutcome(Idle(b), c, now);
  }

  // From every reachable state an uninterrupted metadata update succeeds exactly for a live page at
  // the expected row version, if one is named, with named fields that fit and a new parent, if any,
  // in the page's workspace.
  lemma UpdateMetadataSucceedsExactly(b: Backend, cmd: MetadataCommand, now: int)
    requires CheckedBackend(b)
    ensures var (next, r) := UpdateMetadata(b, cmd, now);
            (r.Ok? <==> MetadataFits(b.db, cmd)) && MetadataOutcome(b, cmd, next, r, now)
  {
    ReadsMetadataExactly(b.db, cmd);
    if ReadMetadata(b.db, cmd).Ok? {
      ReadMetadataSucceeds(b, cmd, ReadMetadata(b.db, cmd).value, now);
    }
  }

  lemma ReadMetadataSucceeds(b: Backend, cmd: MetadataCommand, read: MetadataRead, now: int)
    requires CheckedBackend(b) && ReadMetadata(b.db, cmd) == Ok(read) && Trim(cmd.pageId) in b.db.pages
    ensures var (next, r) := UpdateMetadata(b, cmd, now);
            (r.Ok? <==> NewParentFits(b.db, cmd) && FieldsFit(cmd)) && MetadataOutcome(b, cmd, next, r, now)
  {
    ReadRow(b, cmd, read);
    ChecksExactly(b, cmd, read);
    if BuildChecked(b.db, read, cmd).Ok? {
      PatchSucceeds(b, cmd, read, BuildChecked(b.db, read, cmd).value, now);
    }
  }

  lemma UpdateMetadataKeepsChecked(b: Backend, cmd: MetadataCommand, now: int)
    requires CheckedBackend(b)
    ensures CheckedBackend(UpdateMetadata(b, cmd, now).0)
  {
    UpdateMetadataIsRun(b, cmd, now);
    RunsKeepChecked(b, UpdateMetadata(b, cmd, now).0);
  }

  /* What a racing call keeps */

  // The fields that the command does not name are still those its call read.
  predicate UnnamedAsRead(read: Page, cur: Page, cmd: MetadataCommand) {
    && (cmd.title.None? ==> cur.title == read.title) && (cmd.favorite.None? ==> cur.favorite == read.favorite)
    && (cmd.archiveStatus.None? ==> cur.archiveStatus == read.archiveStatus)
    && (cmd.publishStatus.None? ==> cur.publishStatus == read.publishStatus)
  }

  // Without an expected version, a call that commits after other writers changes the named fields
  // and no others exactly when the unnamed ones still are as it read them; otherwise it puts them
  // back and the other writers' changes to them are lost.
  lemma OnlyNamedFieldsChangeExactly(steps: seq<Step>, c: nat, now: int)
    requires var w := Run(EMPTY, steps); c in w.clients && w.clients[c].Patching?
    requires var w := Run(EMPTY, steps); w.clients[c].command.expectedVersion.None? && PatchStep(w.db, w.clients[c], now).1.Ok?
    ensures var w := Run(EMPTY, steps);
            var client := w.clients[c];
            && client.page.id in w.db.pages
            && var cur := w.db.pages[client.page.id];
               PatchStep(w.db, client, now).1.value == AskedFor(cur, client.command, client.actor, now)
               <==> UnnamedAsRead(client.page, cur, client.command)
  {
    PatchIsExact(steps, c, now);
    OnlyNamedFieldsChange(Run(EMPTY, steps).db, Run(EMPTY, steps).clients[c], now);
  }

  lemma OnlyNamedFieldsChange(db: Db, client: Client, now: int)
    requires client.Patching? && client.page.id in db.pages && PatchOutcome(db, client, now) && PatchStep(db, client, now).1.Ok?
    ensures PatchStep(db, client, now).1.value == AskedFor(db.pages[client.page.id], client.command, client.actor, now)
            <==> UnnamedAsRead(client.page, db.pages[client.page.id], client.command)
  {
  }
}
