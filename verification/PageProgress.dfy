// Uninterrupted calls: each is a short run of the step machine, and from every state that any
// interleaving of other calls can leave behind it succeeds exactly when its own checks pass.
module PageProgress {
  import opened Domain
  import opened Ids
  import opened Drive
  import opened PageTables
  import opened PageCommands
  import opened PageProtocol
  import opened PageInvariant
  import opened SearchIndex
  import opened PageTheorems
  import opened Calls = PageCalls

  // The state with no call in flight.
  function Idle(b: Backend): World {
    World(b.db, b.drive, map[])
  }

  ghost predicate SoundBackend(b: Backend) {
    Sound(Idle(b))
  }

  // Whatever calls are in flight, the tables and Drive alone are sound: orphan versions included.
  lemma AnyReachableBackendIsSound(steps: seq<Step>)
    ensures SoundBackend(Backend(Run(EMPTY, steps).db, Run(EMPTY, steps).drive))
  {
    ReachableIsSound(steps);
    DropClients(Run(EMPTY, steps));
  }

  lemma DropClients(w: World)
    requires Sound(w)
    ensures Sound(w.(clients := map[]))
  {
  }

  /* Calls as runs */

  lemma {:induction false} RunFirst(w: World, steps: seq<Step>)
    requires steps != []
    ensures Run(w, steps) == Run(Next(w, steps[0]), steps[1..])
    decreases |steps|
  {
    var n := |steps| - 1;
    if n == 0 {
      assert steps[..0] == [] && steps[1..] == [];
    } else {
      RunFirst(w, steps[..n]);
      assert steps[..n][1..] == steps[1..][..n - 1];
    }
  }

  function WriteSteps(now: int): seq<Step> {
    [StepDriveWrite(0), StepCommit(0, now)]
  }

  lemma RunLast(w: World, steps: seq<Step>, step: Step)
    ensures Run(w, steps + [step]) == Next(Run(w, steps), step)
  {
    assert (steps + [step])[..|steps|] == steps;
  }

  lemma {:induction false} RunAppend(w: World, s: seq<Step>, t: seq<Step>)
    ensures Run(w, s + t) == Run(Run(w, s), t)
  {
    if t == [] {
      assert s + t == s;
    } else {
      var front, last := t[..|t| - 1], t[|t| - 1];
      assert t == front + [last] && s + t == (s + front) + [last];
      RunAppend(w, s, front);
      RunLast(w, s + front, last);
      RunLast(Run(w, s), front, last);
    }
  }

  lemma TwoSteps(w: World, s: Step, t: Step)
    ensures Run(w, [s, t]) == Next(Next(w, s), t)
  {
    RunLast(w, [], s);
    assert [] + [s] == [s];
    RunLast(w, [s], t);
    assert [s] + [t] == [s, t];
  }

  // One client 0 in flight, or none.
  function With(b: Backend, c: Client): World {
    World(b.db, b.drive, map[0 := c])
  }

  lemma OneClientEnds(w: World, c: Client)
    requires w.clients == map[0 := c]
    ensures Finish(w, 0).clients == map[]
  {
  }

  lemma DriveThenCommit(b: Backend, c: Client, now: int)
    requires c.WriteReady?
    ensures NextCommit(NextDriveWrite(With(b, c), 0), 0, now) == Idle(FinishWrite(b, c, now).0)
  {
    var (drive, written) := DriveStep(b.drive, c);
    OneClientEnds(With(b, c), c);
    if written.Ok? {
      assert NextDriveWrite(With(b, c), 0) == World(b.db, drive, map[0 := written.value]);
      OneClientEnds(World(b.db, drive, map[0 := written.value]), written.value);
    }
  }

  lemma FinishWriteIsRun(b: Backend, c: Client, now: int)
    requires c.WriteReady?
    ensures Run(With(b, c), WriteSteps(now)) == Idle(FinishWrite(b, c, now).0)
  {
    TwoSteps(With(b, c), StepDriveWrite(0), StepCommit(0, now));
    DriveThenCommit(b, c, now);
  }

  // The call's effect is that of a run of the machine that starts and ends with no call in flight.
  ghost predicate IsRun(b: Backend, next: Backend) {
    exists steps :: Run(Idle(b), steps) == Idle(next)
  }

  lemma NoRun(b: Backend)
    ensures IsRun(b, b)
  {
    assert Run(Idle(b), []) == Idle(b);
  }

  lemma IsRunTransitive(b: Backend, c: Backend, d: Backend)
    requires IsRun(b, c) && IsRun(c, d)
    ensures IsRun(b, d)
  {
    var s :| Run(Idle(b), s) == Idle(c);
    var t :| Run(Idle(c), t) == Idle(d);
    RunAppend(Idle(b), s, t);
  }

  lemma StartedIsRun(b: Backend, step: Step, c: Client, now: int)
    requires c.WriteReady? && Next(Idle(b), step) == With(b, c)
    ensures IsRun(b, FinishWrite(b, c, now).0)
  {
    RunFirst(Idle(b), [step] + WriteSteps(now));
    FinishWriteIsRun(b, c, now);
  }

  lemma UpdateContentIsRun(b: Backend, cmd: UpdateCommand, now: int)
    ensures IsRun(b, UpdateContent(b, cmd, now).0)
  {
    match StartUpdate(b.db, cmd) {
      case Err(_) => NoRun(b);
      case Ok(c) => StartedIsRun(b, StepReadUpdate(0, cmd), c, now);
    }
  }

  lemma RestoreVersionIsRun(b: Backend, cmd: RestoreCommand, now: int)
    ensures IsRun(b, Calls.RestoreVersion(b, cmd, now).0)
  {
    match StartRestore(b.db, cmd) {
      case Err(_) => NoRun(b);
      case Ok(c) => StartedIsRun(b, StepReadRestore(0, cmd), c, now);
    }
  }

  lemma ApplySuggestionIsRun(b: Backend, cmd: ApplyCommand, now: int)
    ensures IsRun(b, Calls.ApplySuggestion(b, cmd, now).0)
  {
    var started := StartApply(b.db, cmd);
    if started.Err? || started.value.suggestion.status == Applied || ReadForApply(b.db, started.value).Err? {
      NoRun(b);
    } else {
      var c := ReadForApply(b.db, started.value).value;
      var readSteps := [StepReadSuggestion(0, cmd), StepReadForApply(0)];
      TwoSteps(Idle(b), StepReadSuggestion(0, cmd), StepReadForApply(0));
      BothReads(b, cmd);
      FinishWriteIsRun(b, c, now);
      RunAppend(Idle(b), readSteps, WriteSteps(now));
    }
  }

  lemma BothReads(b: Backend, cmd: ApplyCommand)
    requires StartApply(b.db, cmd).Ok? && ReadForApply(b.db, StartApply(b.db, cmd).value).Ok?
    ensures Next(Next(Idle(b), StepReadSuggestion(0, cmd)), StepReadForApply(0))
         == With(b, ReadForApply(b.db, StartApply(b.db, cmd).value).value)
  {
    assert Next(Idle(b), StepReadSuggestion(0, cmd)) == With(b, StartApply(b.db, cmd).value);
    assert NextReadForApply(With(b, StartApply(b.db, cmd).value), 0)
        == With(b, ReadForApply(b.db, StartApply(b.db, cmd).value).value);
  }

  // With a parent that passes its lookup, the two reads of the row agree.
  lemma SamePatch(b: Backend, cmd: MetadataCommand)
    requires ReadMetadata(b.db, cmd).Ok? && BuildChecked(b.db, ReadMetadata(b.db, cmd).value, cmd).Ok?
    ensures var read := ReadMetadata(b.db, cmd).value;
            StartPatch(b.db, cmd) == Ok(Patching(read.actor, read.page, cmd, BuildChecked(b.db, read, cmd).value, read.expectedVersion))
  {
  }

  lemma PatchRuns(b: Backend, cmd: MetadataCommand, c: Client, now: int)
    requires StartPatch(b.db, cmd) == Ok(c) && c.Patching? && !NamesNothing(cmd)
    ensures Run(Idle(b), [StepReadMetadata(0, cmd), StepPatch(0, now)]) == Idle(b.(db := PatchStep(b.db, c, now).0))
  {
    TwoSteps(Idle(b), StepReadMetadata(0, cmd), StepPatch(0, now));
    OneClientEnds(With(b, c), c);
    assert NextPatch(With(b, c), 0, now) == Idle(b.(db := PatchStep(b.db, c, now).0));
  }

  lemma UpdateMetadataIsRun(b: Backend, cmd: MetadataCommand, now: int)
    ensures IsRun(b, UpdateMetadata(b, cmd, now).0)
  {
    var read := ReadMetadata(b.db, cmd);
    if read.Err? || NamesNothing(cmd) || BuildChecked(b.db, read.value, cmd).Err? {
      NoRun(b);
    } else {
      SamePatch(b, cmd);
      PatchRuns(b, cmd, StartPatch(b.db, cmd).value, now);
    }
  }

  lemma OneStep(w: World, s: Step)
    ensures Run(w, [s]) == Next(w, s)
  {
    RunLast(w, [], s);
    assert [] + [s] == [s];
  }

  lemma DecideIsRun(b: Backend, actor: Actor, id: string, accept: bool)
    ensures IsRun(b, Decide(b, actor, id, accept).0)
  {
    var read := StartDecide(b.db, actor, id);
    if read.Err? || read.value.suggestion.status != Proposed {
      NoRun(b);
    } else {
      var step := StepDecide(read.value.actor, read.value.id, accept);
      OneStep(Idle(b), step);
      assert Next(Idle(b), step) == Idle(Decide(b, actor, id, accept).0);
    }
  }

  lemma DeletePageIsRun(b: Backend, actor: Actor, id: string, now: int)
    ensures IsRun(b, b.(db := DeletePage(b.db, actor, id, now).0))
  {
    OneStep(Idle(b), StepDelete(actor, id, now));
  }

  lemma RunsKeepSound(b: Backend, next: Backend)
    requires SoundBackend(b) && IsRun(b, next)
    ensures SoundBackend(next)
  {
    var steps :| Run(Idle(b), steps) == Idle(next);
    RunIsSound(Idle(b), steps);
  }

  /* Progress of content writes */

  // The call may commit: its client has read the live row, and an applied suggestion is accepted.
  ghost predicate ReadNow(b: Backend, c: Client)
    requires c.WriteReady?
  {
    && ClientOk(Idle(b), c)
    && FindPage(b.db, c.actor, c.page.id) == Ok(c.page)
    && (c.goal.Some? ==> (var found := FindSuggestion(b.db, c.actor, c.goal.value.id); found.Ok? && found.value.status == Accepted))
  }

  // What an uninterrupted write leaves: the new snapshot is the last entry of the history, the
  // Drive head and the page pointer, under a number that was never used; all other rows stay.
  ghost predicate Wrote(b: Backend, next: Backend, c: Client, s: Snapshot, now: int)
    requires c.WriteReady? && c.page.id in b.db.pages
  {
    && s.versionNo == |History(b.drive, c.page.id)| + 1
    && s.versionNo > c.page.versionNo
    && next.drive == Stored(b.drive, c.page.id, s)
    && OnlyMoves(b.db, next.db, c.page.id, s, c.actor.operator, now)
  }

  lemma DriveStepAnswers(b: Backend, c: Client)
    requires SoundBackend(b) && c.WriteReady? && ReadNow(b, c) && WrittenSnapshot(b.drive, c).Ok?
    ensures var s := WrittenSnapshot(b.drive, c).value;
            && DriveStep(b.drive, c) == (Stored(b.drive, c.page.id, s), Ok(CommitReady(c.actor, c.page, s, c.goal)))
            && s.versionNo == |History(b.drive, c.page.id)| + 1 && s.versionNo > c.page.versionNo
  {
    WrittenIsNext(Idle(b), c);
  }

  lemma WithIsSound(b: Backend, c: Client)
    requires SoundBackend(b) && ClientOk(Idle(b), c)
    ensures Inv(With(b, c)) && IndexInv(With(b, c).db)
  {
    NothingKeeps(Idle(b));
    ClientOkGrows(Idle(b), With(b, c), c);
  }

  lemma ContinueAlone(db: Db, drive: DriveState, c: Client, ready: Client)
    ensures Continue(World(db, drive, map[0 := c]), 0, Ok(ready)) == World(db, drive, map[0 := ready])
  {
    assert map[0 := c][0 := ready] == map[0 := ready];
  }

  lemma DriveWorld(b: Backend, c: Client, drive: DriveState, ready: Client)
    requires c.WriteReady? && DriveStep(b.drive, c) == (drive, Ok(ready))
    ensures NextDriveWrite(With(b, c), 0) == World(b.db, drive, map[0 := ready])
  {
    ContinueAlone(b.db, drive, c, ready);
  }

  lemma WrittenClientOk(b: Backend, c: Client)
    requires SoundBackend(b) && c.WriteReady? && ReadNow(b, c) && WrittenSnapshot(b.drive, c).Ok?
    ensures var s := WrittenSnapshot(b.drive, c).value;
            var ready := CommitReady(c.actor, c.page, s, c.goal);
            Sound(World(b.db, Stored(b.drive, c.page.id, s), map[0 := ready]))
  {
    var s := WrittenSnapshot(b.drive, c).value;
    DriveStepAnswers(b, c);
    DriveWorld(b, c, Stored(b.drive, c.page.id, s), CommitReady(c.actor, c.page, s, c.goal));
    WithIsSound(b, c);
    DriveWriteKeeps(With(b, c), 0);
  }

  lemma FinishWriteSucceeds(b: Backend, c: Client, now: int)
    requires SoundBackend(b) && c.WriteReady? && ReadNow(b, c) && WrittenSnapshot(b.drive, c).Ok?
    ensures var s := WrittenSnapshot(b.drive, c).value;
            && FinishWrite(b, c, now).1.Ok? && Answers(FinishWrite(b, c, now).1.value, c.page.id, s)
            && OnlyApplies(b.db, FinishWrite(b, c, now).0.db, c.goal) && Wrote(b, FinishWrite(b, c, now).0, c, s, now)
  {
    var s := WrittenSnapshot(b.drive, c).value;
    DriveStepAnswers(b, c);
    WrittenClientOk(b, c);
    var ready := CommitReady(c.actor, c.page, s, c.goal);
    var w := World(b.db, Stored(b.drive, c.page.id, s), map[0 := ready]);
    assert ClientOk(w, w.clients[0]);
    CommitWinsExactly(w, ready, now);
  }

  // The page's pointer, its Drive head and its last history entry agree again, and a read of the
  // page gives back what the call returned.
  ghost predicate Served(b: Backend, next: Backend, c: Client, s: Snapshot, r: Result<PageContent>, now: int)
    requires c.WriteReady?
  {
    && c.page.id in b.db.pages && Wrote(b, next, c, s, now)
    && c.page.id in next.drive.records && next.drive.records[c.page.id] == s
    && r.Ok? && Answers(r.value, c.page.id, s)
    && ReadStep(next.drive, Reading(next.db.pages[c.page.id])) == r
  }

  lemma HeadServes(b: Backend, next: Backend, c: Client, s: Snapshot, r: Result<PageContent>, now: int)
    requires SoundBackend(next) && c.WriteReady? && c.page.id in b.db.pages && Wrote(b, next, c, s, now)
    requires r.Ok? && Answers(r.value, c.page.id, s)
    ensures Served(b, next, c, s, r, now)
  {
    ReadIsOfItsPointer(Idle(next), next.db.pages[c.page.id]);
  }

  lemma FinishWriteServes(b: Backend, c: Client, now: int)
    requires SoundBackend(b) && c.WriteReady? && ReadNow(b, c) && WrittenSnapshot(b.drive, c).Ok?
    requires SoundBackend(FinishWrite(b, c, now).0)
    ensures OnlyApplies(b.db, FinishWrite(b, c, now).0.db, c.goal)
    ensures Served(b, FinishWrite(b, c, now).0, c, WrittenSnapshot(b.drive, c).value, FinishWrite(b, c, now).1, now)
  {
    FinishWriteSucceeds(b, c, now);
    HeadServes(b, FinishWrite(b, c, now).0, c, WrittenSnapshot(b.drive, c).value, FinishWrite(b, c, now).1, now);
  }

  /* update_page_content */

  // A stored write: the content and metadata given, the page's own references, and what the memory
  // port derives from the number.
  predicate StoredWrite(page: Page, s: Snapshot, content: Json, contentType: string, schemaVersion: string) {
    && s.content == content && s.contentType == contentType && s.schemaVersion == schemaVersion
    && s.versionId == VersionId(page.id, s.versionNo)
    && s.spaceId == page.spaceId && s.nodeId == page.nodeId && s.uri == page.uri
    && s.contentHash == Some("sha256:v" + Decimal(s.versionNo)) && s.snippet == Some("hello v" + Decimal(s.versionNo))
    && s.wordCount == s.versionNo && s.taskCount == 0
  }

  // Text that is given, trimmed, or else what the page has.
  function GivenOr(given: Option<string>, otherwise: string): string {
    if given.Some? && !IsBlank(given.value) then Trim(given.value) else otherwise
  }

  predicate StoredAsAsked(cmd: UpdateCommand, page: Page, s: Snapshot) {
    StoredWrite(page, s, cmd.content, GivenOr(cmd.contentType, page.contentType), GivenOr(cmd.schemaVersion, page.schemaVersion))
  }

  // An update that passes its own checks is served, with the content given; any other changes nothing.
  ghost predicate UpdateOutcome(b: Backend, cmd: UpdateCommand, next: Backend, r: Result<PageContent>, now: int) {
    match StartUpdate(b.db, cmd)
    case Err(e) => next == b && r == Err(e)
    case Ok(c) =>
      && c.WriteReady? && next.db.suggestions == b.db.suggestions
      && exists s :: Served(b, next, c, s, r, now) && StoredAsAsked(cmd, c.page, s)
  }

  lemma UpdateReadsNow(b: Backend, cmd: UpdateCommand, c: Client)
    requires SoundBackend(b) && StartUpdate(b.db, cmd) == Ok(c)
    ensures c.WriteReady? && ReadNow(b, c) && c.goal == None && c.write.WriteContent? && c.write.content == cmd.content
    ensures c.write.contentType == NormalizeOptional(cmd.contentType).GetOr(c.page.contentType)
    ensures c.write.schemaVersion == NormalizeOptional(cmd.schemaVersion).GetOr(c.page.schemaVersion)
  {
    StartedUpdate(b.db, cmd, c);
    StartUpdateOk(Idle(b), cmd);
  }

  // However many races left orphan versions behind, an uninterrupted update has this outcome.
  lemma UpdateSucceeds(b: Backend, cmd: UpdateCommand, now: int)
    requires SoundBackend(b)
    ensures UpdateOutcome(b, cmd, UpdateContent(b, cmd, now).0, UpdateContent(b, cmd, now).1, now)
  {
    var started := StartUpdate(b.db, cmd);
    if started.Ok? {
      UpdateReadsNow(b, cmd, started.value);
      UpdateContentIsRun(b, cmd, now);
      RunsKeepSound(b, UpdateContent(b, cmd, now).0);
      FinishWriteServes(b, started.value, now);
    }
  }

  // What a caller must see to: named actor and page, an object as content, the page's current
  // version as the expected one if any, and metadata that fits its columns.
  predicate FitsColumns(contentType: Option<string>, schemaVersion: Option<string>) {
    && (NormalizeOptional(contentType).Some? ==> |NormalizeOptional(contentType).value| <= 255)
    && (NormalizeOptional(schemaVersion).Some? ==> |NormalizeOptional(schemaVersion).value| <= 32)
  }

  predicate Names(actor: Actor, id: string) {
    !IsBlank(actor.tenant) && !IsBlank(actor.organization) && !IsBlank(actor.operator) && !IsBlank(id)
  }

  // The named actor sees a live page under the id.
  predicate SeesRow(db: Db, actor: Actor, id: string) {
    && id in db.pages
    && var p := db.pages[id];
      !p.deleted && p.tenant == Trim(actor.tenant) && p.organization == Trim(actor.organization)
  }

  predicate Sees(db: Db, actor: Actor, pageId: string) {
    SeesRow(db, actor, Trim(pageId))
  }

  predicate ExpectsCurrent(db: Db, pageId: string, expected: Option<string>)
    requires Trim(pageId) in db.pages
  {
    expected.Some? && !IsBlank(expected.value) ==> Trim(expected.value) == db.pages[Trim(pageId)].versionId
  }

  lemma ColumnsFit(b: Backend, id: string)
    requires SoundBackend(b) && id in b.db.pages
    ensures |b.db.pages[id].contentType| <= 255 && |b.db.pages[id].schemaVersion| <= 32
  {
    EntryIsValid(Idle(b), b.db.pages[id]);
  }

  // From every reachable state an uninterrupted update succeeds exactly for a well-formed command;
  // one that expects another version than the current one is a conflict.
  lemma UpdateSucceedsExactly(b: Backend, cmd: UpdateCommand, now: int)
    requires SoundBackend(b)
    ensures UpdateContent(b, cmd, now).1.Ok? <==>
              (&& Names(cmd.actor, cmd.pageId) && cmd.content.isObject && Sees(b.db, cmd.actor, cmd.pageId)
               && ExpectsCurrent(b.db, cmd.pageId, cmd.expected) && FitsColumns(cmd.contentType, cmd.schemaVersion))
    ensures (&& Names(cmd.actor, cmd.pageId) && cmd.content.isObject && Sees(b.db, cmd.actor, cmd.pageId)
             && !ExpectsCurrent(b.db, cmd.pageId, cmd.expected)) ==> UpdateContent(b, cmd, now) == (b, Err(Conflict))
  {
    UpdateSucceeds(b, cmd, now);
    StartsExactly(b.db, cmd);
    if Sees(b.db, cmd.actor, cmd.pageId) {
      ColumnsFit(b, Trim(cmd.pageId));
    }
  }

  lemma StartsExactly(db: Db, cmd: UpdateCommand)
    ensures StartUpdate(db, cmd).Ok? <==>
              (&& Names(cmd.actor, cmd.pageId) && cmd.content.isObject && Sees(db, cmd.actor, cmd.pageId)
               && ExpectsCurrent(db, cmd.pageId, cmd.expected)
               && |NormalizeOptional(cmd.contentType).GetOr(db.pages[Trim(cmd.pageId)].contentType)| <= 255
               && |NormalizeOptional(cmd.schemaVersion).GetOr(db.pages[Trim(cmd.pageId)].schemaVersion)| <= 32)
    ensures (&& Names(cmd.actor, cmd.pageId) && cmd.content.isObject && Sees(db, cmd.actor, cmd.pageId)
             && !ExpectsCurrent(db, cmd.pageId, cmd.expected)) ==> StartUpdate(db, cmd) == Err(Conflict)
  {
  }

  /* restore_page_version */

  // A restore that passes its checks is served exactly when the named version is in the page's
  // history, with that entry's content and metadata; otherwise nothing changes.
  ghost predicate RestoreOutcome(b: Backend, cmd: RestoreCommand, next: Backend, r: Result<PageContent>, now: int) {
    match StartRestore(b.db, cmd)
    case Err(e) => next == b && r == Err(e)
    case Ok(c) =>
      && c.WriteReady?
      && (r.Ok? <==> exists s :: s in History(b.drive, c.page.id) && s.versionId == Trim(cmd.versionId))
      && (r.Err? ==> next == b && r.error == NotFound)
      && next.db.suggestions == b.db.suggestions
      && (r.Ok? ==> exists s, source :: Served(b, next, c, s, r, now) && RestoredFrom(b, cmd, c, s, source))
  }

  ghost predicate RestoredFrom(b: Backend, cmd: RestoreCommand, c: Client, s: Snapshot, source: Snapshot)
    requires c.WriteReady?
  {
    && source in History(b.drive, c.page.id) && source.versionId == Trim(cmd.versionId)
    && s == source.(versionId := VersionId(c.page.id, s.versionNo), versionNo := s.versionNo)
  }

  lemma StartedRestore(db: Db, cmd: RestoreCommand, c: Client)
    requires StartRestore(db, cmd) == Ok(c)
    ensures c.WriteReady? && FindPage(db, c.actor, Trim(cmd.pageId)) == Ok(c.page) && c.goal == None
    ensures c.write == DriveWrite.RestoreVersion(Trim(cmd.versionId))
  {
  }

  lemma RestoreReadsNow(b: Backend, cmd: RestoreCommand, c: Client)
    requires SoundBackend(b) && StartRestore(b.db, cmd) == Ok(c)
    ensures c.WriteReady? && ReadNow(b, c) && c.goal == None && c.write == DriveWrite.RestoreVersion(Trim(cmd.versionId))
  {
    StartedRestore(b.db, cmd, c);
    FoundIsRead(Idle(b), c.actor, Trim(cmd.pageId));
  }

  lemma RestoreSucceeds(b: Backend, cmd: RestoreCommand, now: int)
    requires SoundBackend(b)
    ensures RestoreOutcome(b, cmd, Calls.RestoreVersion(b, cmd, now).0, Calls.RestoreVersion(b, cmd, now).1, now)
  {
    var started := StartRestore(b.db, cmd);
    if started.Ok? {
      var c := started.value;
      RestoreReadsNow(b, cmd, c);
      var written := WrittenSnapshot(b.drive, c);
      if written.Ok? {
        RestoreVersionIsRun(b, cmd, now);
        RunsKeepSound(b, Calls.RestoreVersion(b, cmd, now).0);
        FinishWriteServes(b, c, now);
        var source := FindVersion(History(b.drive, c.page.id), Trim(cmd.versionId)).value;
        assert RestoredFrom(b, cmd, c, written.value, source);
      }
    }
  }

  // From every reachable state an uninterrupted restore succeeds exactly for a well-formed command
  // that names a version in the page's history.
  lemma RestoreSucceedsExactly(b: Backend, cmd: RestoreCommand, now: int)
    requires SoundBackend(b)
    ensures Calls.RestoreVersion(b, cmd, now).1.Ok? <==>
              (&& Names(cmd.actor, cmd.pageId) && !IsBlank(cmd.versionId) && Sees(b.db, cmd.actor, cmd.pageId)
               && ExpectsCurrent(b.db, cmd.pageId, cmd.expected)
               && exists s :: s in History(b.drive, Trim(cmd.pageId)) && s.versionId == Trim(cmd.versionId))
  {
    RestoreSucceeds(b, cmd, now);
    RestoreStartsExactly(b.db, cmd);
    if StartRestore(b.db, cmd).Ok? {
      RestoredPage(b, cmd, StartRestore(b.db, cmd).value);
    }
  }

  lemma RestoredPage(b: Backend, cmd: RestoreCommand, c: Client)
    requires StartRestore(b.db, cmd) == Ok(c) && PagesInv(Idle(b))
    ensures c.WriteReady? && c.page.id == Trim(cmd.pageId)
  {
  }

  lemma RestoreStartsExactly(db: Db, cmd: RestoreCommand)
    ensures StartRestore(db, cmd).Ok? <==>
              (&& Names(cmd.actor, cmd.pageId) && !IsBlank(cmd.versionId) && Sees(db, cmd.actor, cmd.pageId)
               && ExpectsCurrent(db, cmd.pageId, cmd.expected))
  {
  }

  /* apply_ai_suggestion */

  function FieldText(f: Field): Option<string> {
    if f.Text? then Some(f.text) else None
  }

  // The payload's content and metadata; metadata that it does not give stays the page's.
  predicate StoredFromPayload(sg: Suggestion, page: Page, s: Snapshot) {
    && sg.payload.content.Some?
    && StoredWrite(page, s, sg.payload.content.value, GivenOr(FieldText(sg.payload.contentType), page.contentType),
                   GivenOr(FieldText(sg.payload.schemaVersion), page.schemaVersion))
  }

  // An apply whose checks pass is served, with the payload's content and metadata, and marks the
  // suggestion applied in the same step.
  ghost predicate ApplyOutcome(b: Backend, sg: Suggestion, c: Client, next: Backend, r: Result<PageContent>, now: int) {
    && c.WriteReady? && c.page.id == sg.pageId
    && (exists s :: Served(b, next, c, s, r, now) && StoredFromPayload(sg, c.page, s))
    && sg.id in b.db.suggestions && b.db.suggestions[sg.id] == sg && OnlyApplies(b.db, next.db, Some(sg))
  }

  // The write that a payload asks for.
  predicate WritesPayload(sg: Suggestion, c: Client)
    requires c.WriteReady?
  {
    && c.write.WriteContent? && sg.payload.content == Some(c.write.content)
    && c.write.contentType == GivenOr(FieldText(sg.payload.contentType), c.page.contentType)
    && c.write.schemaVersion == GivenOr(FieldText(sg.payload.schemaVersion), c.page.schemaVersion)
  }

  lemma ApplyReadsNow(b: Backend, cmd: ApplyCommand, started: Client, c: Client)
    requires SoundBackend(b) && StartApply(b.db, cmd) == Ok(started) && started.SuggestionRead?
    requires ReadForApply(b.db, started) == Ok(c)
    ensures c.WriteReady? && ReadNow(b, c) && c.goal == Some(started.suggestion)
    ensures c.page.id == started.suggestion.pageId
    ensures WritesPayload(started.suggestion, c)
    ensures started.suggestion.id in b.db.suggestions && b.db.suggestions[started.suggestion.id] == started.suggestion
    ensures started.suggestion.status == Accepted
  {
    assert ClientOk(Idle(b), started);
    ReadForApplyOk(Idle(b), started);
    ApplyTarget(b, started, c);
  }

  lemma ApplyTarget(b: Backend, started: Client, c: Client)
    requires started.SuggestionRead? && ReadForApply(b.db, started) == Ok(c) && PagesInv(Idle(b))
    ensures c.WriteReady? && FindPage(b.db, c.actor, c.page.id) == Ok(c.page) && c.actor == started.actor
    ensures c.goal == Some(started.suggestion) && c.page.id == started.suggestion.pageId
    ensures started.suggestion.status == Accepted && WritesPayload(started.suggestion, c)
  {
  }

  lemma ApplySucceeds(b: Backend, cmd: ApplyCommand, started: Client, c: Client, now: int)
    requires SoundBackend(b) && StartApply(b.db, cmd) == Ok(started) && started.SuggestionRead?
    requires ReadForApply(b.db, started) == Ok(c)
    ensures ApplyOutcome(b, started.suggestion, c, Calls.ApplySuggestion(b, cmd, now).0, Calls.ApplySuggestion(b, cmd, now).1, now)
  {
    ApplyReadsNow(b, cmd, started, c);
    ApplySuggestionIsRun(b, cmd, now);
    RunsKeepSound(b, Calls.ApplySuggestion(b, cmd, now).0);
    FinishWriteServes(b, c, now);
    assert StoredFromPayload(started.suggestion, c.page, WrittenSnapshot(b.drive, c).value);
  }

  lemma IdIsNamed(b: Backend, id: string)
    requires SoundBackend(b) && id in b.db.pages
    ensures NormalizeRequired(id) == Ok(id)
  {
  }

  lemma AppliedReadsBack(b: Backend, cmd: ApplyCommand, started: Client, c: Client, now: int, next: Backend, r: Result<PageContent>)
    requires SoundBackend(b) && StartApply(b.db, cmd) == Ok(started) && started.SuggestionRead?
    requires ReadForApply(b.db, started) == Ok(c) && ApplyOutcome(b, started.suggestion, c, next, r, now)
    ensures GetContent(next, started.actor, started.suggestion.pageId) == r
  {
    ApplyReadsNow(b, cmd, started, c);
    ApplyStartsExactly(b.db, cmd);
    IdIsNamed(b, c.page.id);
    AppliedReads(b, next, started, c, r, now);
  }

  lemma AppliedRepeats(b: Backend, cmd: ApplyCommand, started: Client, c: Client, now: int, again: int,
                       next: Backend, r: Result<PageContent>)
    requires SoundBackend(b) && StartApply(b.db, cmd) == Ok(started) && started.SuggestionRead?
    requires ReadForApply(b.db, started) == Ok(c) && ApplyOutcome(b, started.suggestion, c, next, r, now)
    ensures Calls.ApplySuggestion(next, cmd, again) == (next, r)
  {
    NowApplied(b.db, next.db, cmd, started);
    AppliedReadsBack(b, cmd, started, c, now, next, r);
    AppliedAnswers(next, cmd, started.(suggestion := WithStatus(started.suggestion, Applied)), again);
  }

  // An applied suggestion is answered with a read of its page.
  lemma AppliedAnswers(b: Backend, cmd: ApplyCommand, started: Client, now: int)
    requires StartApply(b.db, cmd) == Ok(started) && started.SuggestionRead? && started.suggestion.status == Applied
    ensures Calls.ApplySuggestion(b, cmd, now) == (b, GetContent(b, started.actor, started.suggestion.pageId))
  {
  }

  // Repeating the apply changes nothing more and returns the same content.
  lemma ApplyAgain(b: Backend, cmd: ApplyCommand, started: Client, c: Client, now: int, again: int)
    requires SoundBackend(b) && StartApply(b.db, cmd) == Ok(started) && started.SuggestionRead?
    requires ReadForApply(b.db, started) == Ok(c)
    ensures var (next, r) := Calls.ApplySuggestion(b, cmd, now);
            r.Ok? && Calls.ApplySuggestion(next, cmd, again) == (next, r)
  {
    var (next, r) := Calls.ApplySuggestion(b, cmd, now);
    ApplySucceeds(b, cmd, started, c, now);
    AppliedRepeats(b, cmd, started, c, now, again, next, r);
  }

  lemma NowApplied(db: Db, next: Db, cmd: ApplyCommand, started: Client)
    requires StartApply(db, cmd) == Ok(started) && started.SuggestionRead?
    requires started.suggestion.id in db.suggestions && db.suggestions[started.suggestion.id] == started.suggestion
    requires OnlyApplies(db, next, Some(started.suggestion)) && SuggestionsInv(db)
    ensures StartApply(next, cmd) == Ok(started.(suggestion := WithStatus(started.suggestion, Applied)))
  {
  }

  lemma AppliedReads(b: Backend, next: Backend, started: Client, c: Client, r: Result<PageContent>, now: int)
    requires started.SuggestionRead? && ReadForApply(b.db, started) == Ok(c) && PagesInv(Idle(b))
    requires NormalizeRequired(c.page.id) == Ok(c.page.id) && NormalizeActor(started.actor) == Ok(started.actor)
    requires ApplyOutcome(b, started.suggestion, c, next, r, now)
    ensures GetContent(next, started.actor, started.suggestion.pageId) == r
  {
    ApplyTarget(b, started, c);
  }

  predicate FieldFits(f: Field, max: nat) {
    match f
    case Absent => true
    case NotText => false
    case Text(t) => IsBlank(t) || |Trim(t)| <= max
  }

  // A payload that can be applied: an object as content, and metadata, if any, that fits its columns.
  predicate PayloadFits(p: Payload) {
    p.content.Some? && p.content.value.isObject && FieldFits(p.contentType, 255) && FieldFits(p.schemaVersion, 32)
  }

  // The named actor sees the named suggestion.
  predicate SeesSuggestion(db: Db, actor: Actor, id: string) {
    && Names(actor, id) && Trim(id) in db.suggestions
    && db.suggestions[Trim(id)].tenant == Trim(actor.tenant)
    && db.suggestions[Trim(id)].organization == Trim(actor.organization)
  }

  // The page is live, in the suggestion's workspace and still at its source, and at the expected
  // version if one is named.
  predicate TargetIsCurrent(db: Db, actor: Actor, sg: Suggestion, expected: Option<string>) {
    && SeesRow(db, actor, sg.pageId)
    && var p := db.pages[sg.pageId];
      && p.workspaceId == sg.workspaceId
      && (sg.sourceVersionId.Some? ==> p.versionId == sg.sourceVersionId.value)
      && (sg.sourceVersionNo.Some? ==> p.versionNo == sg.sourceVersionNo.value)
      && (expected.Some? && !IsBlank(expected.value) ==> p.versionId == Trim(expected.value))
  }

  // The page can be read: it is live and its pointer is the head of its history.
  predicate Readable(b: Backend, actor: Actor, pageId: string) {
    && !IsBlank(pageId) && Sees(b.db, actor, pageId)
    && b.db.pages[Trim(pageId)].versionNo == |History(b.drive, Trim(pageId))|
  }

  lemma ApplyStartsExactly(db: Db, cmd: ApplyCommand)
    ensures StartApply(db, cmd).Ok? <==> SeesSuggestion(db, cmd.actor, cmd.suggestionId)
    ensures StartApply(db, cmd).Ok? ==>
              (var started := StartApply(db, cmd).value;
               && started.SuggestionRead? && started.suggestion == db.suggestions[Trim(cmd.suggestionId)]
               && NormalizeActor(cmd.actor) == Ok(started.actor) && NormalizeActor(started.actor) == Ok(started.actor)
               && started.expected == NormalizeOptional(cmd.expected))
  {
  }

  lemma PayloadFitsExactly(b: Backend, sg: Suggestion, id: string)
    requires SoundBackend(b) && id in b.db.pages
    ensures ApplyWrite(sg, b.db.pages[id]).Ok? <==> PayloadFits(sg.payload)
  {
    ColumnsFit(b, id);
  }

  lemma TargetReadsExactly(db: Db, actor: Actor, started: Client, expected: Option<string>)
    requires started.SuggestionRead? && NormalizeActor(actor) == Ok(started.actor)
    requires started.expected == NormalizeOptional(expected)
    ensures ReadForApply(db, started).Ok? <==>
              (&& started.suggestion.status == Accepted && TargetIsCurrent(db, actor, started.suggestion, expected)
               && ApplyWrite(started.suggestion, db.pages[started.suggestion.pageId]).Ok?)
  {
  }

  lemma ApplyReadsExactly(b: Backend, actor: Actor, started: Client, expected: Option<string>)
    requires SoundBackend(b) && started.SuggestionRead? && NormalizeActor(actor) == Ok(started.actor)
    requires started.expected == NormalizeOptional(expected)
    ensures ReadForApply(b.db, started).Ok? <==>
              (&& started.suggestion.status == Accepted && TargetIsCurrent(b.db, actor, started.suggestion, expected)
               && PayloadFits(started.suggestion.payload))
  {
    TargetReadsExactly(b.db, actor, started, expected);
    if started.suggestion.pageId in b.db.pages {
      PayloadFitsExactly(b, started.suggestion, started.suggestion.pageId);
    }
  }

  lemma ReadsExactly(b: Backend, actor: Actor, pageId: string)
    requires SoundBackend(b)
    ensures GetContent(b, actor, pageId).Ok? <==> Names(actor, pageId) && Readable(b, actor, pageId)
  {
    var started := StartRead(b.db, actor, pageId);
    if started.Ok? {
      ReadIsOfItsPointer(Idle(b), started.value.page);
    }
  }

  // From every reachable state an uninterrupted apply succeeds exactly for an accepted suggestion
  // whose page is still at its source, with a payload that fits, or for an applied one whose page
  // can be read.
  lemma ApplySucceedsExactly(b: Backend, cmd: ApplyCommand, now: int)
    requires SoundBackend(b)
    ensures Calls.ApplySuggestion(b, cmd, now).1.Ok? <==>
              (&& SeesSuggestion(b.db, cmd.actor, cmd.suggestionId)
               && var sg := b.db.suggestions[Trim(cmd.suggestionId)];
                  || (sg.status == Accepted && TargetIsCurrent(b.db, cmd.actor, sg, cmd.expected) && PayloadFits(sg.payload))
                  || (sg.status == Applied && Readable(b, cmd.actor, sg.pageId)))
  {
    ApplyStartsExactly(b.db, cmd);
    if StartApply(b.db, cmd).Ok? {
      var started := StartApply(b.db, cmd).value;
      if started.suggestion.status == Applied {
        ReadsExactly(b, started.actor, started.suggestion.pageId);
      } else {
        ApplyReadsExactly(b, cmd.actor, started, cmd.expected);
        if ReadForApply(b.db, started).Ok? {
          ApplySucceeds(b, cmd, started, ReadForApply(b.db, started).value, now);
        }
      }
    }
  }

  /* accept_ai_suggestion and reject_ai_suggestion */

  // A decision settles a proposed suggestion; asked again it is confirmed, and the opposite is a
  // conflict that changes nothing.
  lemma DecideSettles(b: Backend, actor: Actor, id: string, accept: bool)
    requires Decide(b, actor, id, accept).1.Ok?
    ensures var (next, r) := Decide(b, actor, id, accept);
            && r.value.status == (if accept then Accepted else Rejected)
            && Decide(next, actor, id, accept) == (next, r)
            && Decide(next, actor, id, !accept) == (next, Err(Conflict))
  {
  }

  lemma DecidesWhen(b: Backend, actor: Actor, id: string, accept: bool)
    ensures var (next, r) := Decide(b, actor, id, accept);
            && (r.Ok? <==> SeesSuggestion(b.db, actor, id)
                           && b.db.suggestions[Trim(id)].status in {Proposed, if accept then Accepted else Rejected})
            && (r.Err? ==> next == b)
  {
  }

  // It succeeds exactly for a visible suggestion that is proposed or already decided that way, and
  // keeps the invariant.
  lemma DecidesExactly(b: Backend, actor: Actor, id: string, accept: bool)
    requires SoundBackend(b)
    ensures var (next, r) := Decide(b, actor, id, accept);
            && (r.Ok? <==> SeesSuggestion(b.db, actor, id)
                           && b.db.suggestions[Trim(id)].status in {Proposed, if accept then Accepted else Rejected})
            && (r.Err? ==> next == b) && SoundBackend(next)
  {
    DecidesWhen(b, actor, id, accept);
    DecideIsRun(b, actor, id, accept);
    RunsKeepSound(b, Decide(b, actor, id, accept).0);
  }
}
