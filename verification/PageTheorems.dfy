// What holds of the page protocol over whole interleaved runs.
module PageTheorems {
  import opened Domain
  import opened Ids
  import opened Validation
  import opened Drive
  import opened PageTables
  import opened PageCommands
  import opened PageProtocol
  import opened PageInvariant
  import opened SearchIndex
  import Search

  // Every page id is one that a command can name.
  predicate IdsNamed(db: Db) {
    forall id :: id in db.pages ==> NormalizeRequired(id) == Ok(id)
  }

  ghost predicate Sound(w: World) {
    Inv(w) && IndexInv(w.db) && IdsNamed(w.db)
  }

  lemma InsertKeepsIds(w: World, c: Client, now: int)
    requires c.Creating? && ClientOk(w, c) && IdsNamed(w.db)
    ensures IdsNamed(InsertPage(w.db, c.draft, c.snapshot, now).0)
  {
  }

  lemma CommitKeepsIds(w: World, c: Client, now: int)
    requires PagesInv(w) && c.CommitReady? && IdsNamed(w.db)
    ensures IdsNamed(CommitStep(w.db, c, now).0)
  {
  }

  lemma PatchKeepsIds(w: World, c: Client, now: int)
    requires PagesInv(w) && c.Patching? && IdsNamed(w.db)
    ensures IdsNamed(PatchStep(w.db, c, now).0)
  {
  }

  lemma StepKeepsIds(w: World, step: Step)
    requires PagesInv(w) && ClientsInv(w) && IdsNamed(w.db)
    ensures IdsNamed(Next(w, step).db)
  {
    match step {
      case StepInsertPage(c, now) =>
        if c in w.clients && w.clients[c].Creating? { InsertKeepsIds(w, w.clients[c], now); }
      case StepCommit(c, now) =>
        if c in w.clients && w.clients[c].CommitReady? { CommitKeepsIds(w, w.clients[c], now); }
      case StepPatch(c, now) => if c in w.clients && w.clients[c].Patching? { PatchKeepsIds(w, w.clients[c], now); }
      case StepDelete(actor, id, now) =>
      case _ => QuietStep(w, step);
    }
  }

  lemma {:induction false} RunIsSound(w: World, steps: seq<Step>)
    requires Sound(w)
    ensures Sound(Run(w, steps))
  {
    if steps != [] {
      var before := steps[..|steps| - 1];
      RunIsSound(w, before);
      StepKeepsInv(Run(w, before), steps[|steps| - 1]);
      StepKeepsIndex(Run(w, before), steps[|steps| - 1]);
      StepKeepsIds(Run(w, before), steps[|steps| - 1]);
    }
  }

  lemma ReachableIsSound(steps: seq<Step>)
    ensures Sound(Run(EMPTY, steps))
  {
    RunIsSound(EMPTY, steps);
  }

  // How a page row relates to the same row later in a run: its version counts its changes, and
  // its Drive pointer only moves forward.
  predicate Later(p: Page, p': Page) {
    && p'.id == p.id && p'.tenant == p.tenant && p'.organization == p.organization
    && p'.workspaceId == p.workspaceId
    && p.version <= p'.version
    && (p.version == p'.version ==> p == p')
    && p.versionNo <= p'.versionNo
    && (p.versionNo == p'.versionNo <==> p.versionId == p'.versionId)
    && (p.deleted ==> p'.deleted)
  }

  predicate Formatted(p: Page) {
    p.versionNo >= 1 && p.versionId == VersionId(p.id, p.versionNo)
  }

  lemma LaterExtends(p: Page, q: Page, r: Page)
    requires Later(p, q) && RowStep(q, r) && Formatted(p) && Formatted(r)
    ensures Later(p, r)
  {
    VersionIdInjective(p.id, p.versionNo, p.id, r.versionNo);
  }

  lemma RowFormatted(steps: seq<Step>, i: nat, id: string)
    requires i <= |steps| && id in At(EMPTY, steps, i).db.pages
    ensures Formatted(At(EMPTY, steps, i).db.pages[id])
    ensures At(EMPTY, steps, i).db.pages[id].id == id
  {
    ReachableIsSound(steps[..i]);
    InvFormatsPointers(At(EMPTY, steps, i));
  }

  lemma RowSteps(steps: seq<Step>, i: nat, id: string)
    requires i < |steps| && id in At(EMPTY, steps, i).db.pages
    ensures id in At(EMPTY, steps, i + 1).db.pages
    ensures RowStep(At(EMPTY, steps, i).db.pages[id], At(EMPTY, steps, i + 1).db.pages[id])
  {
    ReachableIsSound(steps[..i]);
    StepKeepsInv(At(EMPTY, steps, i), steps[i]);
    AtNext(EMPTY, steps, i);
  }

  lemma {:induction false} RowsOnlyMoveOn(steps: seq<Step>, i: nat, j: nat, id: string)
    requires i <= j <= |steps|
    requires id in At(EMPTY, steps, i).db.pages
    ensures id in At(EMPTY, steps, j).db.pages
    ensures Later(At(EMPTY, steps, i).db.pages[id], At(EMPTY, steps, j).db.pages[id])
    decreases j - i
  {
    RowFormatted(steps, i, id);
    if i < j {
      RowsOnlyMoveOn(steps, i, j - 1, id);
      RowSteps(steps, j - 1, id);
      RowFormatted(steps, j, id);
      LaterExtends(At(EMPTY, steps, i).db.pages[id], At(EMPTY, steps, j - 1).db.pages[id],
                   At(EMPTY, steps, j).db.pages[id]);
    }
  }

  /* The Drive pointer */

  // A version id that a page's pointer has left is never current again.
  lemma PointerNeverReturns(steps: seq<Step>, i: nat, j: nat, k: nat, id: string)
    requires i <= j <= k <= |steps| && id in At(EMPTY, steps, i).db.pages
    ensures id in At(EMPTY, steps, j).db.pages && id in At(EMPTY, steps, k).db.pages
    ensures At(EMPTY, steps, i).db.pages[id].versionId == At(EMPTY, steps, k).db.pages[id].versionId ==>
      At(EMPTY, steps, j).db.pages[id].versionId == At(EMPTY, steps, i).db.pages[id].versionId
  {
    RowsOnlyMoveOn(steps, i, j, id);
    RowsOnlyMoveOn(steps, j, k, id);
    RowsOnlyMoveOn(steps, i, k, id);
  }

  // The step moves the page's pointer.
  predicate Moves(w: World, step: Step, id: string) {
    id in w.db.pages && id in Next(w, step).db.pages
    && Next(w, step).db.pages[id].versionId != w.db.pages[id].versionId
  }

  predicate GoalStillOpen(db: Db, c: Client)
    requires c.CommitReady?
  {
    c.goal.Some? ==>
      var found := FindSuggestion(db, c.actor, c.goal.value.id);
      found.Ok? && found.value.status == Accepted
  }

  // What a commit must still find: the live page, pointing where its client read it, and the
  // suggestion, if any, still accepted.
  predicate StillWinnable(db: Db, c: Client)
    requires c.CommitReady? && c.page.id in db.pages
  {
    Visible(db.pages[c.page.id], c.actor) && db.pages[c.page.id].versionId == c.page.versionId && GoalStillOpen(db, c)
  }

  // The answer tells the page's id and, field by field, the entry.
  predicate Answers(r: PageContent, pageId: string, s: Snapshot) {
    && r.pageId == pageId && r.nodeId == s.nodeId && r.versionId == s.versionId && r.versionNo == s.versionNo
    && r.contentType == s.contentType && r.schemaVersion == s.schemaVersion && r.content == s.content
  }

  // The columns that no content commit touches.
  predicate KeepsUserColumns(p: Page, q: Page) {
    && q.id == p.id && q.tenant == p.tenant && q.organization == p.organization && q.workspaceId == p.workspaceId
    && q.title == p.title && q.kind == p.kind && q.parentId == p.parentId && q.folderNodeId == p.folderNodeId
    && q.favorite == p.favorite && q.archiveStatus == p.archiveStatus && q.publishStatus == p.publishStatus
    && q.deleted == p.deleted
  }

  // A content commit sets the pointer columns from the snapshot, and the row's version and stamp.
  predicate MovedTo(p: Page, q: Page, s: Snapshot, operator: string, now: int) {
    Points(q, s) && KeepsUserColumns(p, q) && q.version == p.version + 1 && q.updatedBy == operator && q.updatedAt == now
  }

  // The page's row moves to the snapshot, and all other rows stay.
  predicate OnlyMoves(db: Db, next: Db, id: string, s: Snapshot, operator: string, now: int) {
    && id in db.pages && id in next.pages && MovedTo(db.pages[id], next.pages[id], s, operator, now)
    && next.pages == db.pages[id := next.pages[id]]
  }

  // The suggestion, if any, becomes applied; no other changes.
  predicate OnlyApplies(db: Db, next: Db, goal: Option<Suggestion>) {
    match goal
    case None => next.suggestions == db.suggestions
    case Some(sg) =>
      && sg.id in db.suggestions
      && next.suggestions == db.suggestions[sg.id := db.suggestions[sg.id].(status := Applied, version := db.suggestions[sg.id].version + 1)]
  }

  // A commit goes through exactly when it is still winnable. Otherwise it changes nothing.
  lemma CommitWinsExactly(w: World, c: Client, now: int)
    requires Sound(w) && c.CommitReady? && ClientOk(w, c)
    ensures var (db, r) := CommitStep(w.db, c, now);
      && (r.Ok? <==> StillWinnable(w.db, c))
      && (r.Ok? ==> Answers(r.value, c.page.id, c.snapshot))
      && (r.Ok? ==> OnlyMoves(w.db, db, c.page.id, c.snapshot, c.actor.operator, now) && OnlyApplies(w.db, db, c.goal))
      && (r.Err? ==> db == w.db && r.error == Internal)
  {
    var cur := w.db.pages[c.page.id];
    MovedRow(cur, c.snapshot, c.actor, now);
    if c.goal.None? {
      PlainCommit(w, c, now);
    } else {
      ApplyCommit(w.db, c, now);
    }
  }

  lemma MovedRow(p: Page, s: Snapshot, actor: Actor, now: int)
    ensures MovedTo(p, Repointed(p, s, actor, now), s, actor.operator, now)
  {
  }

  lemma PlainCommit(w: World, c: Client, now: int)
    requires Sound(w) && c.CommitReady? && ClientOk(w, c) && c.goal.None?
    ensures var (db, r) := CommitStep(w.db, c, now);
            var cur := w.db.pages[c.page.id];
            && (r.Ok? <==> Visible(cur, c.actor) && cur.versionId == c.page.versionId)
            && (r.Ok? ==> Answers(r.value, c.page.id, c.snapshot) && db.suggestions == w.db.suggestions
                          && db.pages == w.db.pages[c.page.id := Repointed(cur, c.snapshot, c.actor, now)])
            && (r.Err? ==> db == w.db && r.error == Internal)
  {
    var cur := w.db.pages[c.page.id];
    if Visible(cur, c.actor) && cur.versionId == c.page.versionId {
      CommittedRow(w, c, now);
      UpdateKeepsIndex(w.db, Repointed(cur, c.snapshot, c.actor, now));
    }
  }

  lemma ApplyCommit(db: Db, c: Client, now: int)
    requires c.CommitReady? && c.goal.Some? && c.page.id in db.pages
    ensures var (next, r) := CommitStep(db, c, now);
            var cur := db.pages[c.page.id];
            && (r.Ok? <==> StillWinnable(db, c))
            && (r.Ok? ==> Answers(r.value, c.page.id, c.snapshot) && OnlyApplies(db, next, c.goal)
                          && next.pages == db.pages[c.page.id := Repointed(cur, c.snapshot, c.actor, now)])
            && (r.Err? ==> next == db && r.error == Internal)
  {
  }

  lemma InsertLeavesRows(db: Db, draft: PageDraft, s: Snapshot, now: int, id: string)
    requires id in db.pages
    ensures id in InsertPage(db, draft, s, now).0.pages && InsertPage(db, draft, s, now).0.pages[id] == db.pages[id]
  {
  }

  lemma PatchLeavesPointers(db: Db, c: Client, now: int, id: string)
    requires c.Patching? && id in db.pages && forall k :: k in db.pages ==> db.pages[k].id == k
    ensures id in PatchStep(db, c, now).0.pages && PatchStep(db, c, now).0.pages[id].versionId == db.pages[id].versionId
  {
  }

  lemma OnlyCommitsMove(w: World, step: Step, id: string)
    requires PagesInv(w) && id in w.db.pages && !step.StepCommit?
    ensures id in Next(w, step).db.pages && Next(w, step).db.pages[id].versionId == w.db.pages[id].versionId
  {
    if step.StepInsertPage? {
      if step.client in w.clients && w.clients[step.client].Creating? {
        InsertLeavesRows(w.db, w.clients[step.client].draft, w.clients[step.client].snapshot, step.now, id);
      }
    } else if step.StepPatch? {
      if step.client in w.clients && w.clients[step.client].Patching? {
        PatchLeavesPointers(w.db, w.clients[step.client], step.now, id);
      }
    } else if !step.StepDelete? {
      QuietStep(w, step);
    }
  }

  lemma QuietStep(w: World, step: Step)
    requires !step.StepCommit? && !step.StepInsertPage? && !step.StepPatch? && !step.StepDelete?
    ensures Next(w, step).db.pages == w.db.pages
  {
  }

  // Only the commit of a client moves a pointer; it moves it from the very version that client
  // read to the version the client wrote, and strictly raises the number.
  lemma MovesAreCommits(w: World, step: Step, id: string)
    requires Sound(w) && Moves(w, step, id)
    ensures step.StepCommit? && step.client in w.clients && w.clients[step.client].CommitReady?
    ensures w.clients[step.client].page.id == id
    ensures w.db.pages[id].versionId == w.clients[step.client].page.versionId
    ensures Points(Next(w, step).db.pages[id], w.clients[step.client].snapshot)
    ensures Next(w, step).db.pages[id].versionNo > w.db.pages[id].versionNo
  {
    if !step.StepCommit? {
      OnlyCommitsMove(w, step, id);
    } else if step.client in w.clients && w.clients[step.client].CommitReady? {
      CommitMoves(w, w.clients[step.client], step.now, id);
    }
  }

  lemma CommitMoves(w: World, c: Client, now: int, id: string)
    requires Sound(w) && c.CommitReady? && ClientOk(w, c) && id in w.db.pages
    ensures var next := CommitStep(w.db, c, now).0.pages;
            && id in next
            && (next[id].versionId != w.db.pages[id].versionId ==>
                  (&& c.page.id == id && w.db.pages[id].versionId == c.page.versionId
                   && Points(next[id], c.snapshot) && next[id].versionNo > w.db.pages[id].versionNo))
  {
    CommitWinsExactly(w, c, now);
    if CommitStep(w.db, c, now).1.Ok? {
      CommittedRow(w, c, now);
    }
  }

  // The client whose commit step i is.
  function Committer(steps: seq<Step>, i: nat): (c: Client)
    requires i < |steps| && steps[i].StepCommit? && steps[i].client in At(EMPTY, steps, i).clients
  {
    At(EMPTY, steps, i).clients[steps[i].client]
  }

  lemma MoverCommits(steps: seq<Step>, i: nat, id: string)
    requires i < |steps| && Moves(At(EMPTY, steps, i), steps[i], id)
    ensures steps[i].StepCommit? && steps[i].client in At(EMPTY, steps, i).clients
    ensures Committer(steps, i).CommitReady? && Committer(steps, i).page.id == id
    ensures id in At(EMPTY, steps, i + 1).db.pages
    ensures At(EMPTY, steps, i).db.pages[id].versionId == Committer(steps, i).page.versionId
    ensures Points(At(EMPTY, steps, i + 1).db.pages[id], Committer(steps, i).snapshot)
    ensures At(EMPTY, steps, i).db.pages[id].versionNo < At(EMPTY, steps, i + 1).db.pages[id].versionNo
    ensures Formatted(At(EMPTY, steps, i).db.pages[id]) && Formatted(At(EMPTY, steps, i + 1).db.pages[id])
    ensures At(EMPTY, steps, i).db.pages[id].id == At(EMPTY, steps, i + 1).db.pages[id].id == id
  {
    ReachableIsSound(steps[..i]);
    MovesAreCommits(At(EMPTY, steps, i), steps[i], id);
    AtNext(EMPTY, steps, i);
    RowFormatted(steps, i, id);
    RowFormatted(steps, i + 1, id);
  }

  lemma WinnersDiffer(p: Page, q: Page, r: Page, s: Page)
    requires p.id == q.id == r.id == s.id
    requires p.versionNo < q.versionNo <= r.versionNo < s.versionNo
    requires Formatted(p) && Formatted(q) && Formatted(r) && Formatted(s)
    ensures p.versionId != r.versionId && q.versionId != s.versionId && q.versionNo < s.versionNo
  {
    VersionIdInjective(p.id, p.versionNo, r.id, r.versionNo);
    VersionIdInjective(q.id, q.versionNo, s.id, s.versionNo);
  }

  // Of all clients that read the same pointer of a page, at most one ever moves it, and the
  // versions written by successive winners have strictly rising numbers.
  lemma AtMostOneWinner(steps: seq<Step>, i: nat, j: nat, id: string)
    requires i < j < |steps|
    requires Moves(At(EMPTY, steps, i), steps[i], id) && Moves(At(EMPTY, steps, j), steps[j], id)
    ensures steps[i].StepCommit? && steps[i].client in At(EMPTY, steps, i).clients && Committer(steps, i).CommitReady?
    ensures steps[j].StepCommit? && steps[j].client in At(EMPTY, steps, j).clients && Committer(steps, j).CommitReady?
    ensures Committer(steps, i).page.versionId != Committer(steps, j).page.versionId
    ensures Committer(steps, i).snapshot.versionId != Committer(steps, j).snapshot.versionId
    ensures Committer(steps, i).snapshot.versionNo < Committer(steps, j).snapshot.versionNo
  {
    MoverCommits(steps, i, id);
    MoverCommits(steps, j, id);
    RowsOnlyMoveOn(steps, i + 1, j, id);
    WinnersDiffer(At(EMPTY, steps, i).db.pages[id], At(EMPTY, steps, i + 1).db.pages[id],
                  At(EMPTY, steps, j).db.pages[id], At(EMPTY, steps, j + 1).db.pages[id]);
  }

  /* Reads */

  // What get_page_content gives a client that read `page` earlier.
  predicate ReadOutcome(d: DriveState, page: Page) {
    var h, r := History(d, page.id), ReadStep(d, Reading(page));
    && 1 <= page.versionNo <= |h| && Points(page, h[page.versionNo - 1])
    && (r.Ok? <==> |h| == page.versionNo)
    && (r.Ok? ==> Answers(r.value, page.id, h[page.versionNo - 1]))
    && (r.Err? ==> r.error == Internal)
  }

  // The head of a history, with the references that all its entries share.
  lemma HeadOfHistory(d: DriveState, page: string)
    requires DriveInv(d) && page in d.versions
    ensures var h := d.versions[page];
      && h != [] && d.records[page] == h[|h| - 1] && SnapshotValid(h[|h| - 1])
      && h[|h| - 1].nodeId == NodeId(page) && h[|h| - 1].spaceId == h[0].spaceId && h[|h| - 1].versionNo == |h|
  {
    var h := d.versions[page];
    assert HistoryOk(page, h);
    assert EntryOk(page, h, |h| - 1);
  }

  lemma HeadHasRefs(d: DriveState, page: Page)
    requires DriveInv(d) && page.id in d.versions
    requires page.nodeId == NodeId(page.id) && page.spaceId == d.versions[page.id][0].spaceId
    requires page.uri == DriveUri(page.spaceId, page.nodeId)
    ensures var h := d.versions[page.id];
      && h != [] && Read(d, page.id) == Ok(h[|h| - 1]) && h[|h| - 1].versionNo == |h|
      && SnapshotValid(h[|h| - 1]) && MatchesRefs(h[|h| - 1], page.spaceId, page.nodeId, page.uri)
  {
    HeadOfHistory(d, page.id);
  }

  lemma ReadOfHead(d: DriveState, page: Page, h: seq<Snapshot>)
    requires h == History(d, page.id) && 1 <= page.versionNo <= |h| && Points(page, h[page.versionNo - 1])
    requires Read(d, page.id) == Ok(h[|h| - 1]) && h[|h| - 1].versionNo == |h|
    requires SnapshotValid(h[|h| - 1]) && MatchesRefs(h[|h| - 1], page.spaceId, page.nodeId, page.uri)
    ensures ReadOutcome(d, page)
  {
  }

  lemma PointerFacts(w: World, page: Page)
    requires DriveInv(w.drive) && PointsInto(page, w.drive)
    ensures var h := History(w.drive, page.id);
      && page.id in w.drive.versions && w.drive.versions[page.id] == h
      && 1 <= page.versionNo <= |h| && Points(page, h[page.versionNo - 1])
      && page.nodeId == NodeId(page.id) && page.spaceId == h[0].spaceId && page.uri == DriveUri(page.spaceId, page.nodeId)
  {
    EntryIsValid(w, page);
  }

  lemma ReadIsOfItsPointer(w: World, page: Page)
    requires DriveInv(w.drive) && PointsInto(page, w.drive)
    ensures ReadOutcome(w.drive, page)
  {
    PointerFacts(w, page);
    HeadHasRefs(w.drive, page);
    ReadOfHead(w.drive, page, History(w.drive, page.id));
  }

  // In every reachable state, also between another client's Drive write and its commit, a read
  // page row points at an entry of its page's history, and a read that succeeds returns exactly
  // the content stored for the pointer it read. It succeeds exactly while that entry is the head.
  lemma ReadsAreNotTorn(steps: seq<Step>, c: nat)
    requires c in Run(EMPTY, steps).clients && Run(EMPTY, steps).clients[c].Reading?
    ensures ReadOutcome(Run(EMPTY, steps).drive, Run(EMPTY, steps).clients[c].page)
  {
    var w := Run(EMPTY, steps);
    ReachableIsSound(steps);
    ReadingClientRead(w, c);
    ReadIsOfItsPointer(w, w.clients[c].page);
  }

  lemma ReadingClientRead(w: World, c: nat)
    requires ClientsInv(w) && c in w.clients && w.clients[c].Reading?
    ensures RowRead(w, w.clients[c].page)
  {
    assert ClientOk(w, w.clients[c]);
  }

  lemma HistorySteps(steps: seq<Step>, i: nat, page: string)
    requires i < |steps|
    ensures History(At(EMPTY, steps, i).drive, page) <= History(At(EMPTY, steps, i + 1).drive, page)
  {
    ReachableIsSound(steps[..i]);
    StepKeepsInv(At(EMPTY, steps, i), steps[i]);
    AtNext(EMPTY, steps, i);
    HistoryGrows(At(EMPTY, steps, i).drive, At(EMPTY, steps, i + 1).drive, page);
  }

  lemma HistoryGrows(d: DriveState, d': DriveState, page: string)
    requires DriveGrows(d, d')
    ensures History(d, page) <= History(d', page)
  {
  }

  lemma PrefixTransitive<T>(a: seq<T>, b: seq<T>, c: seq<T>)
    requires a <= b <= c
    ensures a <= c
  {
  }

  // Drive histories are append-only over every run.
  lemma {:induction false} HistoriesAreAppendOnly(steps: seq<Step>, i: nat, j: nat, page: string)
    requires i <= j <= |steps|
    ensures History(At(EMPTY, steps, i).drive, page) <= History(At(EMPTY, steps, j).drive, page)
    decreases j - i
  {
    if i < j {
      HistoriesAreAppendOnly(steps, i, j - 1, page);
      HistorySteps(steps, j - 1, page);
      PrefixTransitive(History(At(EMPTY, steps, i).drive, page), History(At(EMPTY, steps, j - 1).drive, page),
                       History(At(EMPTY, steps, j).drive, page));
    }
  }

  /* Suggestions */

  // The step turns the suggestion into an applied one.
  predicate Applies(w: World, step: Step, id: string) {
    id in w.db.suggestions && id in Next(w, step).db.suggestions
    && w.db.suggestions[id].status != Applied && Next(w, step).db.suggestions[id].status == Applied
  }

  lemma ApplyingCommit(w: World, c: Client, now: int, id: string)
    requires TablesInv(w) && c.CommitReady? && ClientOk(w, c)
    requires id in w.db.suggestions && w.db.suggestions[id].status != Applied
    requires var after := CommitStep(w.db, c, now).0.suggestions; id in after && after[id].status == Applied
    ensures var sg := w.db.suggestions[id];
      && sg.status == Accepted && sg.pageId == c.page.id && w.db.pages[c.page.id].versionId == c.page.versionId
      && (sg.sourceVersionId.Some? ==> sg.sourceVersionId.value == c.page.versionId)
      && CommitStep(w.db, c, now).0.pages
         == w.db.pages[c.page.id := Repointed(w.db.pages[c.page.id], c.snapshot, c.actor, now)]
  {
  }

  lemma CommitLeavesPointer(w: World, c: Client, now: int)
    requires TablesInv(w) && c.CommitReady? && ClientOk(w, c) && w.db.pages[c.page.id].versionId == c.page.versionId
    ensures Repointed(w.db.pages[c.page.id], c.snapshot, c.actor, now).versionId != w.db.pages[c.page.id].versionId
  {
    var cur := w.db.pages[c.page.id];
    CommittedRow(w, c, now);
    EntryIsValid(w, cur);
    VersionIdInjective(cur.id, cur.versionNo, cur.id, c.snapshot.versionNo);
  }

  // Only a commit applies a suggestion.
  lemma OnlyCommitsApply(w: World, step: Step, id: string)
    requires Applies(w, step, id)
    ensures step.StepCommit? && step.client in w.clients && w.clients[step.client].CommitReady?
    ensures Next(w, step).db == CommitStep(w.db, w.clients[step.client], step.now).0
  {
  }

  lemma ApplyingStep(w: World, step: Step, id: string)
    requires TablesInv(w) && ClientsInv(w) && Applies(w, step, id)
    ensures step.StepCommit? && step.client in w.clients && w.clients[step.client].CommitReady?
    ensures w.db.suggestions[id].status == Accepted && w.db.suggestions[id].pageId == w.clients[step.client].page.id
    ensures w.db.pages[w.clients[step.client].page.id].versionId == w.clients[step.client].page.versionId
    ensures w.db.suggestions[id].sourceVersionId.Some? ==>
              w.db.suggestions[id].sourceVersionId.value == w.clients[step.client].page.versionId
    ensures var c := w.clients[step.client];
      Next(w, step).db.pages == w.db.pages[c.page.id := Repointed(w.db.pages[c.page.id], c.snapshot, c.actor, step.now)]
  {
    OnlyCommitsApply(w, step, id);
    ApplyingCommit(w, w.clients[step.client], step.now, id);
  }

  // A suggestion is applied only by a commit that finds it accepted, only together with a pointer
  // move of its page, and only while the page still points at the suggestion's source version.
  lemma AppliedOnlyAtSource(steps: seq<Step>, step: Step, id: string)
    requires Applies(Run(EMPTY, steps), step, id)
    ensures var w := Run(EMPTY, steps); var sg := w.db.suggestions[id];
      && sg.status == Accepted
      && sg.pageId in w.db.pages
      && Moves(w, step, sg.pageId)
      && (sg.sourceVersionId.Some? ==> w.db.pages[sg.pageId].versionId == sg.sourceVersionId.value)
  {
    ReachableIsSound(steps);
    ApplyingStep(Run(EMPTY, steps), step, id);
    CommitLeavesPointer(Run(EMPTY, steps), Run(EMPTY, steps).clients[step.client], step.now);
  }

  // In no run are two suggestions of one page with one source version both applied.
  lemma AtMostOneAppliedPerSource(steps: seq<Step>, a: string, b: string)
    requires var sgs := Run(EMPTY, steps).db.suggestions;
      a in sgs && b in sgs && sgs[a].status == Applied && sgs[b].status == Applied && SharesSource(sgs[a], sgs[b])
    ensures a == b
  {
    ReachableIsSound(steps);
  }

  // The statuses of a suggestion: proposed, then accepted or rejected, and from accepted applied.
  predicate StatusStep(from: SuggestionStatus, to: SuggestionStatus) {
    from == to || (from == Proposed && (to == Accepted || to == Rejected)) || (from == Accepted && to == Applied)
  }

  predicate StatusLater(from: SuggestionStatus, to: SuggestionStatus) {
    StatusStep(from, to) || (from == Proposed && to == Applied)
  }

  lemma CommitMovesStatus(db: Db, c: Client, now: int, id: string)
    requires c.CommitReady? && id in db.suggestions
    ensures var next := CommitStep(db, c, now).0.suggestions;
      id in next && StatusStep(db.suggestions[id].status, next[id].status)
  {
  }

  lemma OtherStepsMoveStatus(w: World, step: Step, id: string)
    requires id in w.db.suggestions && !step.StepCommit?
    ensures id in Next(w, step).db.suggestions
    ensures StatusStep(w.db.suggestions[id].status, Next(w, step).db.suggestions[id].status)
  {
  }

  lemma StepMovesStatus(w: World, step: Step, id: string)
    requires id in w.db.suggestions
    ensures id in Next(w, step).db.suggestions
    ensures StatusStep(w.db.suggestions[id].status, Next(w, step).db.suggestions[id].status)
  {
    if step.StepCommit? {
      if step.client in w.clients && w.clients[step.client].CommitReady? {
        CommitMovesStatus(w.db, w.clients[step.client], step.now, id);
      }
    } else {
      OtherStepsMoveStatus(w, step, id);
    }
  }

  // Over every run a suggestion's status only moves on: a decision is never reversed, and applied
  // and rejected are final.
  lemma {:induction false} SuggestionsOnlyMoveOn(steps: seq<Step>, i: nat, j: nat, id: string)
    requires i <= j <= |steps| && id in At(EMPTY, steps, i).db.suggestions
    ensures id in At(EMPTY, steps, j).db.suggestions
    ensures StatusLater(At(EMPTY, steps, i).db.suggestions[id].status, At(EMPTY, steps, j).db.suggestions[id].status)
    decreases j - i
  {
    if i < j {
      SuggestionsOnlyMoveOn(steps, i, j - 1, id);
      AtNext(EMPTY, steps, j - 1);
      StepMovesStatus(At(EMPTY, steps, j - 1), steps[j - 1], id);
    }
  }

  /* Row versions and metadata */

  // A page's version number determines the whole row over a run.
  lemma VersionDeterminesRow(steps: seq<Step>, i: nat, j: nat, id: string)
    requires i <= j <= |steps| && id in At(EMPTY, steps, i).db.pages
    ensures id in At(EMPTY, steps, j).db.pages
    ensures At(EMPTY, steps, i).db.pages[id].version == At(EMPTY, steps, j).db.pages[id].version ==>
      At(EMPTY, steps, i).db.pages[id] == At(EMPTY, steps, j).db.pages[id]
  {
    RowsOnlyMoveOn(steps, i, j, id);
  }

  function Named(value: Option<string>, current: string): string {
    if value.Some? then Trim(value.value) else current
  }

  // The row a metadata command asks for: the named fields replaced, everything else as it was.
  function AskedFor(p: Page, cmd: MetadataCommand, actor: Actor, now: int): Page {
    p.(title := Named(cmd.title, p.title),
       favorite := cmd.favorite.GetOr(p.favorite),
       archiveStatus := Named(cmd.archiveStatus, p.archiveStatus),
       publishStatus := Named(cmd.publishStatus, p.publishStatus),
       parentId := cmd.parentId.GetOr(p.parentId),
       version := p.version + 1, updatedBy := actor.operator, updatedAt := now)
  }

  // What a metadata commit does, for a client that read `page` and now meets `cur`. With an
  // expectedVersion it commits exactly when the live row is still the one that was read, and then
  // changes exactly the named fields. Without one it may commit over a newer row; the unnamed
  // metadata fields then go back to what was read. The Drive pointer is never touched.
  predicate PatchOutcome(db: Db, client: Client, now: int)
    requires client.Patching? && client.page.id in db.pages
  {
    var cur := db.pages[client.page.id];
    var (db', r) := PatchStep(db, client, now);
    var asked := AskedFor(client.page, client.command, client.actor, now);
    && (client.command.expectedVersion.Some? ==> (r.Ok? <==> cur == client.page && Visible(cur, client.actor)))
    && (client.command.expectedVersion.None? ==> (r.Ok? <==> Visible(cur, client.actor)))
    && (client.command.expectedVersion.Some? && r.Ok? ==> r.value == AskedFor(cur, client.command, client.actor, now))
    && (r.Ok? ==> db'.pages == db.pages[cur.id := r.value])
    && (r.Ok? ==> r.value == cur.(title := asked.title, favorite := asked.favorite,
                                  archiveStatus := asked.archiveStatus, publishStatus := asked.publishStatus,
                                  parentId := client.command.parentId.GetOr(cur.parentId),
                                  version := cur.version + 1, updatedBy := client.actor.operator, updatedAt := now))
    && (r.Err? ==> db' == db)
  }

  lemma BuiltPatch(page: Page, cmd: MetadataCommand, patch: MetadataPatch)
    requires BuildPatch(page, cmd) == Ok(patch)
    ensures patch.title == Named(cmd.title, page.title)
    ensures patch.favorite == cmd.favorite.GetOr(page.favorite)
    ensures patch.archiveStatus == Named(cmd.archiveStatus, page.archiveStatus)
    ensures patch.publishStatus == Named(cmd.publishStatus, page.publishStatus)
    ensures patch.parentId == cmd.parentId
  {
  }

  lemma PatchHasOutcome(w: World, client: Client, now: int)
    requires Sound(w) && client.Patching? && ClientOk(w, client)
    ensures PatchOutcome(w.db, client, now)
  {
    BuiltPatch(client.page, client.command, client.patch);
    PatchAnswers(w, client, now);
    ExpectedIsRead(w, client);
  }

  lemma PatchAnswers(w: World, client: Client, now: int)
    requires TablesInv(w) && IndexInv(w.db) && client.Patching? && client.page.id in w.db.pages
    ensures var cur := w.db.pages[client.page.id];
            var (db, r) := PatchStep(w.db, client, now);
            && (r.Ok? <==> Visible(cur, client.actor) && (client.expectedVersion.Some? ==> cur.version == client.expectedVersion.value))
            && (r.Ok? ==> r.value == Patched(cur, client.patch, client.actor, now) && db.pages == w.db.pages[cur.id := r.value])
            && (r.Err? ==> db == w.db)
  {
    if Visible(w.db.pages[client.page.id], client.actor) {
      PatchProjects(w, client, now);
    }
  }

  // The version that an expectation names is that of the row read, so it is the live row's exactly
  // while nothing has changed.
  lemma ExpectedIsRead(w: World, client: Client)
    requires client.Patching? && ClientOk(w, client)
    ensures client.expectedVersion.Some? <==> client.command.expectedVersion.Some?
    ensures client.expectedVersion.Some? ==>
              (w.db.pages[client.page.id].version == client.expectedVersion.value <==> w.db.pages[client.page.id] == client.page)
  {
  }

  lemma PatchProjects(w: World, client: Client, now: int)
    requires TablesInv(w) && IndexInv(w.db) && client.Patching? && client.page.id in w.db.pages
    requires Visible(w.db.pages[client.page.id], client.actor)
    ensures var p := Patched(w.db.pages[client.page.id], client.patch, client.actor, now);
      StoreAndProject(w.db, p).1 == Ok(p)
  {
    InvFormatsPointers(w);
    UpdateKeepsIndex(w.db, Patched(w.db.pages[client.page.id], client.patch, client.actor, now));
  }

  lemma PatchIsExact(steps: seq<Step>, c: nat, now: int)
    requires c in Run(EMPTY, steps).clients && Run(EMPTY, steps).clients[c].Patching?
    ensures Run(EMPTY, steps).clients[c].page.id in Run(EMPTY, steps).db.pages
    ensures PatchOutcome(Run(EMPTY, steps).db, Run(EMPTY, steps).clients[c], now)
  {
    ReachableIsSound(steps);
    assert ClientOk(Run(EMPTY, steps), Run(EMPTY, steps).clients[c]);
    PatchHasOutcome(Run(EMPTY, steps), Run(EMPTY, steps).clients[c], now);
  }

  /* Search */

  lemma SearchAgreesInEveryRun(steps: seq<Step>, q: Search.PageQuery, lower: string -> string, page: int, size: int)
    requires lower("") == "" && page >= 1 && size >= 1
    ensures var db := Run(EMPTY, steps).db;
      var ids := Search.PageIds(Search.SearchPages(db, q, lower, page, size));
      && ids == Search.PageIds(Search.ListPages(db, q, lower, page, size))
      && forall i, j :: 0 <= i < j < |ids| ==> ids[i] != ids[j]
  {
    ReachableIsSound(steps);
    var w := Run(EMPTY, steps);
    InvFormatsPointers(w);
    SearchListsSamePages(w.db, q, lower, page, size);
    ListedOnce(w.db, q, lower, page, size);
  }

  // A deleted page has no projection row, is found by nobody, and its id stays reserved.
  lemma DeletedStaysGone(steps: seq<Step>, i: nat, j: nat, id: string, actor: Actor)
    requires i <= j <= |steps|
    requires id in At(EMPTY, steps, i).db.pages && At(EMPTY, steps, i).db.pages[id].deleted
    ensures var db := At(EMPTY, steps, j).db;
      && FindPage(db, actor, id) == Err(NotFound)
      && PageIdIsReserved(db, id)
      && forall sp :: sp in db.projections ==> sp.pageId != id
  {
    RowsOnlyMoveOn(steps, i, j, id);
    ReachableIsSound(steps[..j]);
  }
}
