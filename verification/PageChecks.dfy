// The CHECK constraints of the page table: the service's own validation keeps them, so that in no
// run a statement is refused for one of them.
module PageChecks {
  import opened Domain
  import opened Ids
  import opened Drive
  import opened PageTables
  import opened PageCommands
  import opened PageProtocol
  import opened PageInvariant
  import opened PageTheorems

  predicate TitleOk(title: string) {
    !IsBlank(title) && |title| <= 200
  }

  predicate StatusesOk(archiveStatus: string, publishStatus: string) {
    && (archiveStatus == "active" || archiveStatus == "archived")
    && (publishStatus == "private" || publishStatus == "published" || publishStatus == "unlisted")
  }

  // The columns that users set.
  predicate FieldsOk(p: Page) {
    TitleOk(p.title) && StatusesOk(p.archiveStatus, p.publishStatus) && p.version >= 1
  }

  // The constraints of the table.
  predicate Checks(p: Page) {
    && FieldsOk(p)
    && p.uri == DriveUri(p.spaceId, p.nodeId) && p.versionNo >= 1
    && p.wordCount >= 0 && p.taskCount >= 0
  }

  predicate ClientFieldsOk(c: Client) {
    match c
    case Creating(draft, _) => TitleOk(draft.title)
    case Patching(_, _, _, patch, _) => TitleOk(patch.title) && StatusesOk(patch.archiveStatus, patch.publishStatus)
    case _ => true
  }

  predicate FieldsInv(w: World) {
    && (forall id :: id in w.db.pages ==> FieldsOk(w.db.pages[id]))
    && (forall c :: c in w.clients ==> ClientFieldsOk(w.clients[c]))
  }

  predicate WordCountsInv(d: DriveState) {
    forall page :: page in d.versions ==>
      forall i :: 0 <= i < |d.versions[page]| ==> d.versions[page][i].wordCount >= 0 && d.versions[page][i].taskCount >= 0
  }

  /* The fields that users set */

  lemma BuiltPatchFits(page: Page, cmd: MetadataCommand)
    requires FieldsOk(page) && BuildPatch(page, cmd).Ok?
    ensures var patch := BuildPatch(page, cmd).value;
      TitleOk(patch.title) && StatusesOk(patch.archiveStatus, patch.publishStatus)
  {
  }

  lemma StartPatchFits(db: Db, cmd: MetadataCommand)
    requires (forall id :: id in db.pages ==> FieldsOk(db.pages[id])) && StartPatch(db, cmd).Ok?
    ensures ClientFieldsOk(StartPatch(db, cmd).value)
  {
    BuiltPatchFits(StartPatch(db, cmd).value.page, cmd);
  }

  lemma PatchKeepsFields(db: Db, c: Client, now: int)
    requires c.Patching? && ClientFieldsOk(c) && forall id :: id in db.pages ==> FieldsOk(db.pages[id])
    ensures var next := PatchStep(db, c, now).0; forall id :: id in next.pages ==> FieldsOk(next.pages[id])
  {
  }

  lemma InsertKeepsFields(db: Db, c: Client, now: int)
    requires c.Creating? && ClientFieldsOk(c) && forall id :: id in db.pages ==> FieldsOk(db.pages[id])
    ensures var next := InsertPage(db, c.draft, c.snapshot, now).0; forall id :: id in next.pages ==> FieldsOk(next.pages[id])
  {
  }

  lemma CommitKeepsFields(db: Db, c: Client, now: int)
    requires c.CommitReady? && forall id :: id in db.pages ==> FieldsOk(db.pages[id])
    ensures var next := CommitStep(db, c, now).0; forall id :: id in next.pages ==> FieldsOk(next.pages[id])
  {
  }

  lemma DeleteKeepsFields(db: Db, actor: Actor, id: string, now: int)
    requires forall k :: k in db.pages ==> FieldsOk(db.pages[k])
    ensures var next := DeletePage(db, actor, id, now).0; forall k :: k in next.pages ==> FieldsOk(next.pages[k])
  {
  }

  // The steps that start calls.
  lemma StartKeepsFields(w: World, step: Step)
    requires FieldsInv(w) && (step.StepReadMetadata? || step.StepDriveCreate?)
    ensures FieldsInv(Next(w, step))
  {
    match step {
      case StepReadMetadata(c, cmd) => if StartPatch(w.db, cmd).Ok? { StartPatchFits(w.db, cmd); }
      case StepDriveCreate(c, cmd, spaceId) => CreatingFits(cmd);
    }
  }

  lemma CreatingFits(cmd: CreateCommand)
    ensures StartCreate(cmd).Ok? ==> TitleOk(StartCreate(cmd).value.draft.title)
  {
  }

  // The steps that write page rows.
  predicate WritesRows(step: Step) {
    step.StepInsertPage? || step.StepCommit? || step.StepPatch? || step.StepDelete?
  }

  lemma WriteKeepsFields(w: World, step: Step)
    requires FieldsInv(w) && WritesRows(step)
    ensures FieldsInv(Next(w, step))
  {
    match step {
      case StepInsertPage(c, now) => if c in w.clients && w.clients[c].Creating? { InsertKeepsFields(w.db, w.clients[c], now); }
      case StepCommit(c, now) => if c in w.clients && w.clients[c].CommitReady? { CommitKeepsFields(w.db, w.clients[c], now); }
      case StepPatch(c, now) => if c in w.clients && w.clients[c].Patching? { PatchKeepsFields(w.db, w.clients[c], now); }
      case StepDelete(actor, id, now) => DeleteKeepsFields(w.db, actor, id, now);
    }
  }

  // Any other step leaves a client alone or brings it to a point without user fields.
  lemma OtherClients(w: World, step: Step, c: nat)
    requires !WritesRows(step) && !step.StepReadMetadata? && !step.StepDriveCreate? && c in Next(w, step).clients
    ensures (c in w.clients && Next(w, step).clients[c] == w.clients[c])
            || (!Next(w, step).clients[c].Creating? && !Next(w, step).clients[c].Patching?)
  {
  }

  lemma OtherKeepsFields(w: World, step: Step)
    requires FieldsInv(w) && !WritesRows(step) && !step.StepReadMetadata? && !step.StepDriveCreate?
    ensures FieldsInv(Next(w, step))
  {
    QuietStep(w, step);
    forall c | c in Next(w, step).clients
      ensures ClientFieldsOk(Next(w, step).clients[c])
    {
      OtherClients(w, step, c);
    }
  }

  /* The counts of snapshots */

  lemma StoredCounts(d: DriveState, page: string, s: Snapshot)
    requires WordCountsInv(d) && s.wordCount >= 0 && s.taskCount >= 0
    ensures WordCountsInv(Stored(d, page, s))
  {
  }

  lemma WrittenCounts(w: World, c: Client)
    requires DriveInv(w.drive) && WordCountsInv(w.drive) && c.WriteReady? && WrittenSnapshot(w.drive, c).Ok?
    ensures WrittenSnapshot(w.drive, c).value.wordCount >= 0 && WrittenSnapshot(w.drive, c).value.taskCount >= 0
  {
    var h := History(w.drive, c.page.id);
    NextNumber(c.page.id, h);
    if c.write.RestoreVersion? {
      var source := FindVersion(h, c.write.versionId).value;
      var i :| 0 <= i < |h| && h[i] == source;
    }
  }

  lemma StepKeepsCounts(w: World, step: Step)
    requires DriveInv(w.drive) && WordCountsInv(w.drive)
    ensures WordCountsInv(Next(w, step).drive)
  {
    if step.StepDriveWrite? {
      if step.client in w.clients && w.clients[step.client].WriteReady? && WrittenSnapshot(w.drive, w.clients[step.client]).Ok? {
        var c := w.clients[step.client];
        WrittenCounts(w, c);
        StoredCounts(w.drive, c.page.id, WrittenSnapshot(w.drive, c).value);
      }
    } else if step.StepDriveCreate? {
      if StartCreate(step.create).Ok? {
        var r := StartCreate(step.create).value;
        StoredCounts(w.drive, r.draft.id, FirstSnapshot(r.draft.id, step.spaceId, r.contentType, r.schemaVersion, r.content));
      }
    } else {
      DriveStays(w, step);
    }
  }

  lemma DriveStays(w: World, step: Step)
    requires !step.StepDriveWrite? && !step.StepDriveCreate?
    ensures Next(w, step).drive == w.drive
  {
  }

  /* Every run */

  lemma StepKeepsFields(w: World, step: Step)
    requires FieldsInv(w)
    ensures FieldsInv(Next(w, step))
  {
    if WritesRows(step) {
      WriteKeepsFields(w, step);
    } else if step.StepReadMetadata? || step.StepDriveCreate? {
      StartKeepsFields(w, step);
    } else {
      OtherKeepsFields(w, step);
    }
  }

  lemma {:induction false} RunKeepsChecks(w: World, steps: seq<Step>)
    requires Sound(w) && FieldsInv(w) && WordCountsInv(w.drive)
    ensures FieldsInv(Run(w, steps)) && WordCountsInv(Run(w, steps).drive)
  {
    if steps != [] {
      var before := steps[..|steps| - 1];
      RunKeepsChecks(w, before);
      RunIsSound(w, before);
      StepKeepsFields(Run(w, before), steps[|steps| - 1]);
      StepKeepsCounts(Run(w, before), steps[|steps| - 1]);
    }
  }

  lemma RowChecks(w: World, id: string)
    requires TablesInv(w) && FieldsInv(w) && WordCountsInv(w.drive) && id in w.db.pages
    ensures Checks(w.db.pages[id])
  {
    EntryIsValid(w, w.db.pages[id]);
  }

  // In every run every page row satisfies the table's constraints.
  lemma TableChecksHold(steps: seq<Step>, id: string)
    requires id in Run(EMPTY, steps).db.pages
    ensures Checks(Run(EMPTY, steps).db.pages[id])
  {
    ReachableIsSound(steps);
    RunKeepsChecks(EMPTY, steps);
    RowChecks(Run(EMPTY, steps), id);
  }
}
