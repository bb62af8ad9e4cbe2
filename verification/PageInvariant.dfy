// Every step of the page protocol keeps the invariant and lets the world only grow.
module PageInvariant {
  import opened Domain
  import opened Ids
  import opened Validation
  import opened Drive
  import opened PageTables
  import opened PageCommands
  import opened PageProtocol

  // A read step adds a client and changes nothing else.
  lemma BeginKeeps(w: World, c: nat, started: Result<Client>)
    requires Inv(w)
    requires started.Ok? ==> ClientOk(w, started.value)
    ensures Inv(Begin(w, c, started)) && Grows(w, Begin(w, c, started))
  {
    if c !in w.clients && started.Ok? {
      var w' := Begin(w, c, started);
      ClientOkGrows(w, w', started.value);
      OtherClientsOk(w, w', c);
    }
  }

  // The metadata a page row carries is that of a validated snapshot.
  lemma EntryIsValid(w: World, p: Page)
    requires DriveInv(w.drive) && PointsInto(p, w.drive)
    ensures EntryOk(p.id, History(w.drive, p.id), p.versionNo - 1)
    ensures SnapshotValid(History(w.drive, p.id)[p.versionNo - 1])
    ensures p.nodeId == NodeId(p.id) && p.spaceId == History(w.drive, p.id)[0].spaceId
    ensures p.uri == DriveUri(p.spaceId, p.nodeId)
    ensures p.versionId == VersionId(p.id, p.versionNo)
    ensures !IsBlank(p.contentType) && !IsBlank(p.schemaVersion)
    ensures |p.contentType| <= 255 && |p.schemaVersion| <= 32
  {
    assert HistoryOk(p.id, w.drive.versions[p.id]);
  }

  lemma FoundIsRead(w: World, actor: Actor, id: string)
    requires PagesInv(w) && FindPage(w.db, actor, id).Ok?
    ensures RowRead(w, FindPage(w.db, actor, id).value)
  {
  }

  lemma StartedUpdate(db: Db, cmd: UpdateCommand, c: Client)
    requires StartUpdate(db, cmd) == Ok(c)
    ensures c.WriteReady? && FindPage(db, c.actor, Trim(cmd.pageId)) == Ok(c.page) && c.goal == None
    ensures c.write.WriteContent? && c.write.content == cmd.content
    ensures c.write.contentType == NormalizeOptional(cmd.contentType).GetOr(c.page.contentType)
    ensures c.write.schemaVersion == NormalizeOptional(cmd.schemaVersion).GetOr(c.page.schemaVersion)
  {
  }

  lemma StartUpdateOk(w: World, cmd: UpdateCommand)
    requires DriveInv(w.drive) && PagesInv(w)
    ensures StartUpdate(w.db, cmd).Ok? ==> ClientOk(w, StartUpdate(w.db, cmd).value)
  {
    if StartUpdate(w.db, cmd).Ok? {
      var c := StartUpdate(w.db, cmd).value;
      StartedUpdate(w.db, cmd, c);
      FoundIsRead(w, c.actor, Trim(cmd.pageId));
      EntryIsValid(w, c.page);
      UpdateFits(w.db, cmd);
    }
  }

  lemma UpdateFits(db: Db, cmd: UpdateCommand)
    requires StartUpdate(db, cmd).Ok?
    ensures var c := StartUpdate(db, cmd).value;
            c.WriteReady? && c.write.WriteContent? && c.write.content.isObject && |c.write.contentType| <= 255 && |c.write.schemaVersion| <= 32
  {
  }

  lemma ApplyWriteOk(sg: Suggestion, page: Page)
    requires !IsBlank(page.contentType) && !IsBlank(page.schemaVersion)
    ensures ApplyWrite(sg, page).Ok? ==> WriteOk(ApplyWrite(sg, page).value)
  {
  }

  lemma StartedApplyWrite(db: Db, c: Client, ready: Client)
    requires c.SuggestionRead? && ReadForApply(db, c) == Ok(ready)
    ensures ready.WriteReady? && FindPage(db, c.actor, c.suggestion.pageId) == Ok(ready.page)
    ensures ready.goal == Some(c.suggestion) && ApplyWrite(c.suggestion, ready.page) == Ok(ready.write)
    ensures c.suggestion.sourceVersionId.Some? ==> c.suggestion.sourceVersionId.value == ready.page.versionId
  {
  }

  lemma ReadForApplyOk(w: World, c: Client)
    requires Inv(w) && c.SuggestionRead? && ClientOk(w, c)
    ensures ReadForApply(w.db, c).Ok? ==> ClientOk(w, ReadForApply(w.db, c).value)
  {
    if ReadForApply(w.db, c).Ok? {
      var ready := ReadForApply(w.db, c).value;
      StartedApplyWrite(w.db, c, ready);
      FoundIsRead(w, c.actor, c.suggestion.pageId);
      EntryIsValid(w, ready.page);
      ApplyWriteOk(c.suggestion, ready.page);
    }
  }

  lemma ContinueKeeps(w: World, w1: World, c: nat, next: Result<Client>)
    requires Inv(w) && Grows(w, w1) && w1.clients == w.clients
    requires TablesInv(w1)
    requires next.Ok? ==> ClientOk(w1, next.value)
    ensures Inv(Continue(w1, c, next)) && Grows(w, Continue(w1, c, next))
  {
    var w' := Continue(w1, c, next);
    if next.Ok? {
      ClientOkGrows(w1, w', next.value);
    }
    OtherClientsOk(w, w', c);
  }

  lemma FinishKeeps(w: World, w1: World, c: nat)
    requires Inv(w) && Grows(w, w1) && w1.clients == w.clients
    requires TablesInv(w1)
    ensures Inv(Finish(w1, c)) && Grows(w, Finish(w1, c))
  {
    OtherClientsOk(w, Finish(w1, c), c);
  }

  /* Drive steps */

  // Appending to a history leaves every page row pointing where it did.
  lemma StoredGrows(w: World, page: string, s: Snapshot)
    requires PagesInv(w)
    ensures DriveGrows(w.drive, Stored(w.drive, page, s))
    ensures PagesInv(w.(drive := Stored(w.drive, page, s)))
  {
    var w1 := w.(drive := Stored(w.drive, page, s));
    forall id | id in w.db.pages
      ensures PointsInto(w.db.pages[id], w1.drive)
    {
      PointsIntoGrows(w.db.pages[id], w.drive, w1.drive);
    }
  }

  lemma DriveCreateKeeps(w: World, c: nat, cmd: CreateCommand, spaceId: string)
    requires Inv(w)
    ensures Inv(NextDriveCreate(w, c, cmd, spaceId)) && Grows(w, NextDriveCreate(w, c, cmd, spaceId))
  {
    var r := StartCreate(cmd);
    if r.Ok? && !(c in w.clients || IsBlank(spaceId) || PageIdIsReserved(w.db, r.value.draft.id)
                  || r.value.draft.id in w.drive.versions) {
      var req := r.value;
      var s := FirstSnapshot(req.draft.id, spaceId, req.contentType, req.schemaVersion, req.content);
      NodeIdAndUriNotBlank(spaceId, req.draft.id);
      VersionIdIsTrimmed(req.draft.id, 1);
      StoreKeepsInv(w.drive, req.draft.id, s);
      StoredGrows(w, req.draft.id, s);
      var (drive, next) := DriveCreate(w.drive, req, spaceId);
      ContinueKeeps(w, w.(drive := drive), c, next);
    }
  }

  // Whatever the races so far, Drive answers an update with the next free number, and a restore
  // with a renumbered copy of the named entry.
  lemma WrittenIsNext(w: World, c: Client)
    requires DriveInv(w.drive) && c.WriteReady? && RowRead(w, c.page) && WriteOk(c.write)
    requires WrittenSnapshot(w.drive, c).Ok?
    ensures var s := WrittenSnapshot(w.drive, c).value;
      && DriveInv(Stored(w.drive, c.page.id, s))
      && s.versionNo == |History(w.drive, c.page.id)| + 1
      && SnapshotAccepted(c, s)
  {
    var page, h := c.page, History(w.drive, c.page.id);
    var s := WrittenSnapshot(w.drive, c).value;
    EntryIsValid(w, page);
    NumberedMax(page.id, h);
    VersionIdIsTrimmed(page.id, |h| + 1);
    if c.write.RestoreVersion? {
      var source := FindVersion(h, c.write.versionId);
      var j :| 0 <= j < |h| && h[j] == source.value;
      assert EntryOk(page.id, h, j);
    }
    VersionIdInjective(page.id, |h| + 1, page.id, page.versionNo);
    StoreKeepsInv(w.drive, page.id, s);
  }

  lemma DriveWriteKeeps(w: World, c: nat)
    requires Inv(w) && c in w.clients && w.clients[c].WriteReady?
    ensures Inv(NextDriveWrite(w, c)) && Grows(w, NextDriveWrite(w, c))
  {
    var client := w.clients[c];
    var (drive, next) := DriveStep(w.drive, client);
    if WrittenSnapshot(w.drive, client).Ok? {
      var s := WrittenSnapshot(w.drive, client).value;
      WrittenIsNext(w, client);
      StoredGrows(w, client.page.id, s);
      PointsIntoGrows(client.page, w.drive, drive);
    }
    ContinueKeeps(w, w.(drive := drive), c, next);
  }

  /* Table steps */

  lemma ProjectedPages(db: Db, p: Page)
    ensures StoreAndProject(db, p).0.pages == db.pages[p.id := p]
    ensures StoreAndProject(db, p).0.suggestions == db.suggestions
    ensures StoreAndProject(db, p).0.order == db.order
  {
  }

  // Moving rows forward keeps every applied suggestion behind its page's pointer.
  lemma SuggestionsKeptBehind(db: Db, db': Db)
    requires SuggestionsInv(db) && PagesStep(db, db') && db'.suggestions == db.suggestions
    ensures SuggestionsInv(db')
  {
    forall id | id in db'.suggestions && db'.suggestions[id].status == Applied
      ensures AppliedOk(db', db'.suggestions[id])
    {
      assert AppliedOk(db, db.suggestions[id]);
    }
  }

  lemma PageReplaced(w: World, db': Db, p: Page)
    requires PagesInv(w) && p.id in w.db.pages && RowStep(w.db.pages[p.id], p) && PointsInto(p, w.drive)
    requires db'.pages == w.db.pages[p.id := p]
    ensures PagesInv(w.(db := db')) && PagesStep(w.db, db')
  {
  }

  // Replacing one row by a later one that still points into Drive keeps the table invariants.
  lemma RowReplaced(w: World, db': Db, p: Page)
    requires TablesInv(w) && p.id in w.db.pages && RowStep(w.db.pages[p.id], p) && PointsInto(p, w.drive)
    requires db'.pages == w.db.pages[p.id := p] && db'.suggestions == w.db.suggestions
    ensures PagesInv(w.(db := db')) && SuggestionsInv(db') && Grows(w, w.(db := db'))
  {
    PageReplaced(w, db', p);
    SuggestionsKeptBehind(w.db, db');
  }

  lemma InsertKeeps(w: World, c: nat, now: int)
    requires Inv(w) && c in w.clients && w.clients[c].Creating?
    ensures Inv(NextInsertPage(w, c, now)) && Grows(w, NextInsertPage(w, c, now))
  {
    var client := w.clients[c];
    var (db, r) := InsertPage(w.db, client.draft, client.snapshot, now);
    if !(client.draft.id in w.db.pages || NodeTaken(w.db, client.draft.actor.tenant, client.snapshot.nodeId)) {
      var p := NewPage(client.draft, client.snapshot, now);
      ProjectedPages(w.db.(order := w.db.order + [client.draft.id]), p);
      assert HistoryOk(p.id, w.drive.versions[p.id]);
      assert EntryOk(p.id, History(w.drive, p.id), 0);
      SuggestionsKeptBehind(w.db, db);
    }
    FinishKeeps(w, w.(db := db), c);
  }

  // The row a successful pointer move leaves behind.
  lemma RepointedRow(w: World, p: Page, s: Snapshot, actor: Actor, now: int)
    requires TablesInv(w) && p.id in w.db.pages && p == w.db.pages[p.id]
    requires p.versionNo < s.versionNo <= |History(w.drive, p.id)|
    requires History(w.drive, p.id)[s.versionNo - 1] == s
    ensures RowStep(p, Repointed(p, s, actor, now)) && PointsInto(Repointed(p, s, actor, now), w.drive)
  {
  }

  // A commit that still finds the version id its client read finds the version number too.
  lemma SameVersionSameNumber(w: World, p: Page)
    requires TablesInv(w) && RowRead(w, p)
    ensures w.db.pages[p.id].versionId == p.versionId <==> w.db.pages[p.id].versionNo == p.versionNo
  {
    EntryIsValid(w, p);
    EntryIsValid(w, w.db.pages[p.id]);
    VersionIdInjective(p.id, p.versionNo, p.id, w.db.pages[p.id].versionNo);
  }

  // A suggestion whose source is the current pointer shares it with no applied suggestion: the
  // pointer has already passed every applied one's source.
  lemma CurrentSourceIsUnused(db: Db, sg: Suggestion, other: Suggestion)
    requires other.status == Applied && AppliedOk(db, other)
    requires sg.pageId in db.pages && db.pages[sg.pageId].versionNo >= 1
    requires db.pages[sg.pageId].versionId == VersionId(sg.pageId, db.pages[sg.pageId].versionNo)
    requires sg.sourceVersionId.Some? ==> sg.sourceVersionId.value == db.pages[sg.pageId].versionId
    ensures !SharesSource(other, sg)
  {
    if SharesSource(other, sg) {
      var cur := db.pages[sg.pageId].versionNo;
      var k :| 1 <= k < cur && other.sourceVersionId.value == VersionId(other.pageId, k);
      VersionIdInjective(sg.pageId, k, sg.pageId, cur);
    }
  }

  // The suggestions after an apply whose source is the pointer it replaced.
  lemma AppliedKeepsSuggestions(db: Db, db': Db, sg: Suggestion, p: Page)
    requires SuggestionsInv(db) && sg.id in db.suggestions && sg == db.suggestions[sg.id]
    requires p.id == sg.pageId && sg.pageId in db.pages && db.pages[p.id].versionNo >= 1
    requires db.pages[p.id].versionId == VersionId(p.id, db.pages[p.id].versionNo)
    requires sg.sourceVersionId.Some? ==> sg.sourceVersionId.value == db.pages[p.id].versionId
    requires p.versionNo > db.pages[p.id].versionNo
    requires db'.pages == db.pages[p.id := p]
    requires db'.suggestions == db.suggestions[sg.id := WithStatus(sg, Applied)]
    ensures SuggestionsInv(db')
  {
    forall id | id in db'.suggestions && db'.suggestions[id].status == Applied
      ensures AppliedOk(db', db'.suggestions[id])
      ensures id != sg.id ==> !SharesSource(db'.suggestions[id], sg)
    {
      if id != sg.id {
        assert AppliedOk(db, db.suggestions[id]);
        CurrentSourceIsUnused(db, sg, db.suggestions[id]);
      }
    }
  }

  // What an apply transaction that goes through found and did.
  lemma ApplyEffect(db: Db, actor: Actor, id: string, pageId: string, s: Snapshot, expected: string, now: int)
    requires ApplySuggestion(db, actor, id, pageId, s, expected, now).1.Ok?
    ensures pageId in db.pages && db.pages[pageId].versionId == expected
    ensures id in db.suggestions && db.suggestions[id].status == Accepted
    ensures var db' := ApplySuggestion(db, actor, id, pageId, s, expected, now).0;
      && db'.pages == db.pages[pageId := Repointed(db.pages[pageId], s, actor, now)]
      && db'.suggestions == db.suggestions[id := WithStatus(db.suggestions[id], Applied)]
  {
  }

  lemma ApplyRefused(db: Db, actor: Actor, id: string, pageId: string, s: Snapshot, expected: string, now: int)
    requires ApplySuggestion(db, actor, id, pageId, s, expected, now).1.Err?
    ensures ApplySuggestion(db, actor, id, pageId, s, expected, now).0 == db
  {
  }

  // The tables after an apply: its source is the pointer it replaced.
  lemma AppliedTables(w: World, page: Page, s: Snapshot, goal: Suggestion, db': Db, actor: Actor, now: int)
    requires TablesInv(w) && RowRead(w, page) && GoalOk(w, page, Some(goal))
    requires page.versionNo < s.versionNo <= |History(w.drive, page.id)|
    requires History(w.drive, page.id)[s.versionNo - 1] == s
    requires w.db.pages[page.id].versionId == page.versionId
    requires db'.pages == w.db.pages[page.id := Repointed(w.db.pages[page.id], s, actor, now)]
    requires db'.suggestions == w.db.suggestions[goal.id := WithStatus(w.db.suggestions[goal.id], Applied)]
    ensures TablesInv(w.(db := db')) && Grows(w, w.(db := db'))
  {
    var cur, sg := w.db.pages[page.id], w.db.suggestions[goal.id];
    var p := Repointed(cur, s, actor, now);
    SameVersionSameNumber(w, page);
    EntryIsValid(w, cur);
    RepointedRow(w, cur, s, actor, now);
    PageReplaced(w, db', p);
    AppliedKeepsSuggestions(w.db, db', sg, p);
  }

  lemma ApplyKeepsTables(w: World, client: Client, now: int)
    requires TablesInv(w) && client.CommitReady? && ClientOk(w, client) && client.goal.Some?
    ensures var w' := w.(db := CommitStep(w.db, client, now).0); TablesInv(w') && Grows(w, w')
  {
    var page, goal, s := client.page, client.goal.value, client.snapshot;
    var (db, r) := ApplySuggestion(w.db, client.actor, goal.id, page.id, s, page.versionId, now);
    if r.Err? {
      ApplyRefused(w.db, client.actor, goal.id, page.id, s, page.versionId, now);
      NothingKeeps(w);
    } else {
      ApplyEffect(w.db, client.actor, goal.id, page.id, s, page.versionId, now);
      AppliedTables(w, page, s, goal, db, client.actor, now);
    }
  }

  lemma WriteKeepsTables(w: World, client: Client, now: int)
    requires TablesInv(w) && client.CommitReady? && ClientOk(w, client) && client.goal.None?
    ensures var w' := w.(db := CommitStep(w.db, client, now).0); TablesInv(w') && Grows(w, w')
  {
    var page, s := client.page, client.snapshot;
    var (db, _) := UpdatePageDriveSnapshot(w.db, client.actor, page.id, s, page.versionId, now);
    var cur := w.db.pages[page.id];
    if FindPage(w.db, client.actor, page.id).Ok? && cur.versionId == page.versionId {
      var p := Repointed(cur, s, client.actor, now);
      SameVersionSameNumber(w, page);
      RepointedRow(w, cur, s, client.actor, now);
      ProjectedPages(w.db, p);
      RowReplaced(w, db, p);
    }
  }

  lemma CommitKeeps(w: World, c: nat, now: int)
    requires Inv(w) && c in w.clients && w.clients[c].CommitReady?
    ensures Inv(NextCommit(w, c, now)) && Grows(w, NextCommit(w, c, now))
  {
    if w.clients[c].goal.Some? {
      ApplyKeepsTables(w, w.clients[c], now);
    } else {
      WriteKeepsTables(w, w.clients[c], now);
    }
    FinishKeeps(w, w.(db := CommitStep(w.db, w.clients[c], now).0), c);
  }

  lemma PatchKeepsTables(w: World, client: Client, now: int)
    requires TablesInv(w) && client.Patching? && client.page.id in w.db.pages
    ensures var w1 := w.(db := PatchStep(w.db, client, now).0); TablesInv(w1) && Grows(w, w1)
  {
    var cur := w.db.pages[client.page.id];
    var (db, r) := PatchStep(w.db, client, now);
    if FindPage(w.db, client.actor, client.page.id).Ok? && (client.expectedVersion.None? || cur.version == client.expectedVersion.value) {
      var p := Patched(cur, client.patch, client.actor, now);
      ProjectedPages(w.db, p);
      RowReplaced(w, db, p);
    }
  }

  lemma PatchKeeps(w: World, c: nat, now: int)
    requires Inv(w) && c in w.clients && w.clients[c].Patching?
    ensures Inv(NextPatch(w, c, now)) && Grows(w, NextPatch(w, c, now))
  {
    PatchKeepsTables(w, w.clients[c], now);
    FinishKeeps(w, w.(db := PatchStep(w.db, w.clients[c], now).0), c);
  }

  lemma TablesKeep(w: World, db: Db)
    requires Inv(w) && PagesInv(w.(db := db)) && SuggestionsInv(db) && Grows(w, w.(db := db))
    ensures Inv(w.(db := db))
  {
    var w' := w.(db := db);
    forall k | k in w'.clients
      ensures ClientOk(w', w'.clients[k])
    {
      ClientOkGrows(w, w', w.clients[k]);
    }
  }

  lemma DeleteKeeps(w: World, actor: Actor, id: string, now: int)
    requires Inv(w)
    ensures var w' := w.(db := DeletePage(w.db, actor, id, now).0); Inv(w') && Grows(w, w')
  {
    var (db, r) := DeletePage(w.db, actor, id, now);
    if r.Ok? {
      RowReplaced(w, db, Deleted(w.db.pages[id], actor, now));
    }
    TablesKeep(w, db);
  }

  // A suggestion row that is not applied may be added or may replace an unapplied one.
  lemma SuggestionWritten(w: World, sg: Suggestion)
    requires Inv(w) && sg.status != Applied
    requires sg.id in w.db.suggestions ==>
      SameSuggestion(w.db.suggestions[sg.id], sg) && w.db.suggestions[sg.id].status != Applied
    ensures var w' := w.(db := w.db.(suggestions := w.db.suggestions[sg.id := sg])); Inv(w') && Grows(w, w')
  {
    var db := w.db.(suggestions := w.db.suggestions[sg.id := sg]);
    forall id | id in db.suggestions && db.suggestions[id].status == Applied
      ensures AppliedOk(db, db.suggestions[id])
    {
      assert AppliedOk(w.db, w.db.suggestions[id]);
    }
    assert PagesInv(w.(db := db));
    TablesKeep(w, db);
  }

  lemma DecideKeeps(w: World, actor: Actor, id: string, accept: bool)
    requires Inv(w)
    ensures var w' := w.(db := DecideSuggestion(w.db, actor, id, if accept then Accepted else Rejected).0);
      Inv(w') && Grows(w, w')
  {
    var found := FindSuggestion(w.db, actor, id);
    if found.Ok? && found.value.status == Proposed {
      SuggestionWritten(w, WithStatus(found.value, if accept then Accepted else Rejected));
    }
  }

  lemma ReadForApplyKeeps(w: World, c: nat)
    requires Inv(w) && c in w.clients && w.clients[c].SuggestionRead?
    ensures Inv(NextReadForApply(w, c)) && Grows(w, NextReadForApply(w, c))
  {
    ReadForApplyOk(w, w.clients[c]);
    ContinueKeeps(w, w, c, ReadForApply(w.db, w.clients[c]));
  }

  lemma NothingKeeps(w: World)
    ensures Grows(w, w)
  {
  }

  // The steps that only read tables or end a call.
  predicate OnlyReads(step: Step) {
    step.StepReadUpdate? || step.StepReadRestore? || step.StepReadSuggestion? || step.StepReadForApply?
    || step.StepReadMetadata? || step.StepReadPage? || step.StepVanish?
  }

  lemma ReadUpdateKeeps(w: World, c: nat, cmd: UpdateCommand)
    requires Inv(w)
    ensures var w' := Begin(w, c, StartUpdate(w.db, cmd)); Inv(w') && Grows(w, w')
  {
    StartUpdateOk(w, cmd);
    BeginKeeps(w, c, StartUpdate(w.db, cmd));
  }

  lemma ReadRestoreKeeps(w: World, c: nat, cmd: RestoreCommand)
    requires Inv(w)
    ensures var w' := Begin(w, c, StartRestore(w.db, cmd)); Inv(w') && Grows(w, w')
  {
    BeginKeeps(w, c, StartRestore(w.db, cmd));
  }

  lemma ReadSuggestionKeeps(w: World, c: nat, cmd: ApplyCommand)
    requires Inv(w)
    ensures var w' := Begin(w, c, StartApply(w.db, cmd)); Inv(w') && Grows(w, w')
  {
    BeginKeeps(w, c, StartApply(w.db, cmd));
  }

  lemma StartedPatch(db: Db, cmd: MetadataCommand, c: Client)
    requires StartPatch(db, cmd) == Ok(c)
    ensures c.Patching? && c.command == cmd && FindPage(db, c.actor, Trim(cmd.pageId)) == Ok(c.page)
    ensures BuildPatch(c.page, cmd) == Ok(c.patch) && CheckExpectedVersion(c.page, cmd) == Ok(c.expectedVersion)
  {
  }

  lemma StartPatchOk(w: World, cmd: MetadataCommand)
    requires PagesInv(w)
    ensures StartPatch(w.db, cmd).Ok? ==> ClientOk(w, StartPatch(w.db, cmd).value)
  {
    if StartPatch(w.db, cmd).Ok? {
      var c := StartPatch(w.db, cmd).value;
      StartedPatch(w.db, cmd, c);
      FoundIsRead(w, c.actor, Trim(cmd.pageId));
    }
  }

  lemma ReadMetadataKeeps(w: World, c: nat, cmd: MetadataCommand)
    requires Inv(w)
    ensures var w' := Begin(w, c, StartPatch(w.db, cmd)); Inv(w') && Grows(w, w')
  {
    StartPatchOk(w, cmd);
    BeginKeeps(w, c, StartPatch(w.db, cmd));
  }

  lemma ReadPageKeeps(w: World, c: nat, actor: Actor, id: string)
    requires Inv(w)
    ensures var w' := Begin(w, c, StartRead(w.db, actor, id)); Inv(w') && Grows(w, w')
  {
    BeginKeeps(w, c, StartRead(w.db, actor, id));
  }

  lemma ReadStepKeepsInv(w: World, step: Step)
    requires Inv(w) && OnlyReads(step)
    ensures Inv(Next(w, step)) && Grows(w, Next(w, step))
  {
    NothingKeeps(w);
    match step
    case StepReadUpdate(c, cmd) => ReadUpdateKeeps(w, c, cmd);
    case StepReadRestore(c, cmd) => ReadRestoreKeeps(w, c, cmd);
    case StepReadSuggestion(c, cmd) => ReadSuggestionKeeps(w, c, cmd);
    case StepReadForApply(c) =>
      if c in w.clients && w.clients[c].SuggestionRead? { ReadForApplyKeeps(w, c); }
    case StepReadMetadata(c, cmd) => ReadMetadataKeeps(w, c, cmd);
    case StepReadPage(c, actor, id) => ReadPageKeeps(w, c, actor, id);
    case StepVanish(c) => FinishKeeps(w, w, c);
  }

  lemma WriteStepKeepsInv(w: World, step: Step)
    requires Inv(w) && !OnlyReads(step)
    ensures Inv(Next(w, step)) && Grows(w, Next(w, step))
  {
    NothingKeeps(w);
    match step
    case StepDriveCreate(c, cmd, spaceId) => DriveCreateKeeps(w, c, cmd, spaceId);
    case StepInsertPage(c, now) => if c in w.clients && w.clients[c].Creating? { InsertKeeps(w, c, now); }
    case StepDriveWrite(c) => if c in w.clients && w.clients[c].WriteReady? { DriveWriteKeeps(w, c); }
    case StepCommit(c, now) => if c in w.clients && w.clients[c].CommitReady? { CommitKeeps(w, c, now); }
    case StepPatch(c, now) => if c in w.clients && w.clients[c].Patching? { PatchKeeps(w, c, now); }
    case StepDelete(actor, id, now) => DeleteKeeps(w, actor, id, now);
    case StepStoreSuggestion(sg) =>
      if sg.id !in w.db.suggestions && sg.status == Proposed { SuggestionWritten(w, sg); }
    case StepDecide(actor, id, accept) => DecideKeeps(w, actor, id, accept);
  }

  lemma StepKeepsInv(w: World, step: Step)
    requires Inv(w)
    ensures Inv(Next(w, step)) && Grows(w, Next(w, step))
  {
    if OnlyReads(step) {
      ReadStepKeepsInv(w, step);
    } else {
      WriteStepKeepsInv(w, step);
    }
  }
}
