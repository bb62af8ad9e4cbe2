// The page, Drive and suggestion protocol as a step machine: the tables, the versioned store and
// any number of service calls in flight. One repository call (or transaction) or one Drive call is
// one step, and steps of different clients interleave freely.
module PageProtocol {
  import opened Domain
  import opened Ids
  import opened Drive
  import opened PageTables
  import opened PageCommands

  datatype World = World(db: Db, drive: DriveState, clients: map<nat, Client>)

  const EMPTY: World :=
    World(Db(map[], [], [], map[]), DriveState(map[], map[]), map[])

  datatype Step =
    | StepDriveCreate(client: nat, create: CreateCommand, spaceId: string)
    | StepInsertPage(client: nat, now: int)
    | StepReadUpdate(client: nat, update: UpdateCommand)
    | StepReadRestore(client: nat, restore: RestoreCommand)
    | StepReadSuggestion(client: nat, apply: ApplyCommand)
    | StepReadForApply(client: nat)
    | StepDriveWrite(client: nat)
    | StepCommit(client: nat, now: int)
    | StepReadMetadata(client: nat, metadata: MetadataCommand)
    | StepPatch(client: nat, now: int)
    | StepDelete(actor: Actor, pageId: string, now: int)
    | StepReadPage(client: nat, actor: Actor, pageId: string)
    | StepStoreSuggestion(suggestion: Suggestion)
    | StepDecide(actor: Actor, suggestionId: string, accept: bool)
    | StepVanish(client: nat)

  // A call starts under an unused client number.
  function Begin(w: World, c: nat, started: Result<Client>): World {
    if c in w.clients || started.Err? then w else w.(clients := w.clients[c := started.value])
  }

  function Continue(w: World, c: nat, next: Result<Client>): World {
    if next.Ok? then w.(clients := w.clients[c := next.value]) else Finish(w, c)
  }

  function Finish(w: World, c: nat): World {
    w.(clients := w.clients - {c})
  }

  // A step whose client is not at that point of its call does nothing.
  function Next(w: World, step: Step): World {
    match step
    case StepDriveCreate(c, cmd, spaceId) => NextDriveCreate(w, c, cmd, spaceId)
    case StepInsertPage(c, now) => NextInsertPage(w, c, now)
    case StepReadUpdate(c, cmd) => Begin(w, c, StartUpdate(w.db, cmd))
    case StepReadRestore(c, cmd) => Begin(w, c, StartRestore(w.db, cmd))
    case StepReadSuggestion(c, cmd) => Begin(w, c, StartApply(w.db, cmd))
    case StepReadForApply(c) => NextReadForApply(w, c)
    case StepDriveWrite(c) => NextDriveWrite(w, c)
    case StepCommit(c, now) => NextCommit(w, c, now)
    case StepReadMetadata(c, cmd) => if NamesNothing(cmd) then w else Begin(w, c, StartPatch(w.db, cmd))
    case StepPatch(c, now) => NextPatch(w, c, now)
    case StepDelete(actor, id, now) => w.(db := DeletePage(w.db, actor, id, now).0)
    case StepReadPage(c, actor, id) => Begin(w, c, StartRead(w.db, actor, id))
    case StepStoreSuggestion(sg) => NextStoreSuggestion(w, sg)
    case StepDecide(actor, id, accept) =>
      w.(db := DecideSuggestion(w.db, actor, id, if accept then Accepted else Rejected).0)
    case StepVanish(c) => Finish(w, c)
  }

  function NextInsertPage(w: World, c: nat, now: int): World {
    if c in w.clients && w.clients[c].Creating? then
      Finish(w.(db := InsertPage(w.db, w.clients[c].draft, w.clients[c].snapshot, now).0), c)
    else w
  }

  function NextReadForApply(w: World, c: nat): World {
    if c in w.clients && w.clients[c].SuggestionRead? then Continue(w, c, ReadForApply(w.db, w.clients[c])) else w
  }

  function NextDriveWrite(w: World, c: nat): World {
    if c in w.clients && w.clients[c].WriteReady? then
      var (drive, next) := DriveStep(w.drive, w.clients[c]);
      Continue(w.(drive := drive), c, next)
    else w
  }

  function NextCommit(w: World, c: nat, now: int): World {
    if c in w.clients && w.clients[c].CommitReady? then
      Finish(w.(db := CommitStep(w.db, w.clients[c], now).0), c)
    else w
  }

  function NextPatch(w: World, c: nat, now: int): World {
    if c in w.clients && w.clients[c].Patching? then
      Finish(w.(db := PatchStep(w.db, w.clients[c], now).0), c)
    else w
  }

  // Suggestions come from completed AI jobs: new rows, always proposed, otherwise arbitrary.
  function NextStoreSuggestion(w: World, sg: Suggestion): World {
    if sg.id in w.db.suggestions || sg.status != Proposed then w
    else w.(db := w.db.(suggestions := w.db.suggestions[sg.id := sg]))
  }

  // A Drive create happens once per page id, and never for a reserved one. The workspace names a
  // Drive space.
  function NextDriveCreate(w: World, c: nat, cmd: CreateCommand, spaceId: string): World {
    match StartCreate(cmd)
    case Err(_) => w
    case Ok(r) =>
      if c in w.clients || IsBlank(spaceId) || PageIdIsReserved(w.db, r.draft.id) || r.draft.id in w.drive.versions
      then w
      else
        var (drive, next) := DriveCreate(w.drive, r, spaceId);
        Continue(w.(drive := drive), c, next)
  }

  function Run(w: World, steps: seq<Step>): World {
    if steps == [] then w else Next(Run(w, steps[..|steps| - 1]), steps[|steps| - 1])
  }

  // The world after the first i steps.
  function At(w: World, steps: seq<Step>, i: nat): World
    requires i <= |steps|
  {
    Run(w, steps[..i])
  }

  lemma AtNext(w: World, steps: seq<Step>, i: nat)
    requires i < |steps|
    ensures At(w, steps, i + 1) == Next(At(w, steps, i), steps[i])
  {
    assert steps[..i + 1][..i] == steps[..i];
  }

  /* The invariant */

  // The row's pointer is exactly the stored snapshot.
  predicate Points(p: Page, s: Snapshot) {
    && p.versionId == s.versionId && p.versionNo == s.versionNo
    && p.spaceId == s.spaceId && p.nodeId == s.nodeId && p.uri == s.uri
    && p.contentType == s.contentType && p.schemaVersion == s.schemaVersion
    && p.contentHash == s.contentHash && p.snippet == s.snippet
    && p.wordCount == s.wordCount && p.taskCount == s.taskCount
  }

  ghost predicate PointsInto(p: Page, d: DriveState) {
    && 1 <= p.versionNo <= |History(d, p.id)|
    && Points(p, History(d, p.id)[p.versionNo - 1])
  }

  ghost predicate PagesInv(w: World) {
    forall id :: id in w.db.pages ==> w.db.pages[id].id == id && PointsInto(w.db.pages[id], w.drive)
  }

  // What a row read earlier still tells about the row now.
  predicate ReadOf(was: Page, now: Page) {
    && was.id == now.id && was.tenant == now.tenant && was.organization == now.organization
    && was.workspaceId == now.workspaceId && was.kind == now.kind
    && was.version <= now.version
    && (was.version == now.version ==> was == now)
    && was.versionNo <= now.versionNo
  }

  ghost predicate RowRead(w: World, p: Page) {
    p.id in w.db.pages && ReadOf(p, w.db.pages[p.id]) && PointsInto(p, w.drive)
  }

  ghost predicate WriteOk(write: DriveWrite) {
    write.WriteContent? ==>
      && write.content.isObject
      && !IsBlank(write.contentType) && !IsBlank(write.schemaVersion)
      && |write.contentType| <= 255 && |write.schemaVersion| <= 32
  }

  // The columns of a suggestion that no statement changes.
  predicate SameSuggestion(a: Suggestion, b: Suggestion) {
    a == b.(status := a.status, version := a.version)
  }

  ghost predicate SuggestionKnown(w: World, sg: Suggestion) {
    sg.id in w.db.suggestions && SameSuggestion(sg, w.db.suggestions[sg.id])
  }

  ghost predicate GoalOk(w: World, p: Page, goal: Option<Suggestion>) {
    goal.Some? ==>
      && SuggestionKnown(w, goal.value)
      && goal.value.pageId == p.id
      && (goal.value.sourceVersionId.Some? ==> goal.value.sourceVersionId.value == p.versionId)
  }

  ghost predicate ClientOk(w: World, c: Client) {
    match c
    case Creating(draft, s) =>
      && !IsBlank(draft.id) && Trim(draft.id) == draft.id
      && History(w.drive, draft.id) != [] && History(w.drive, draft.id)[0] == s
    case SuggestionRead(_, sg, _) => SuggestionKnown(w, sg)
    case WriteReady(_, p, write, goal) => RowRead(w, p) && WriteOk(write) && GoalOk(w, p, goal)
    case CommitReady(_, p, s, goal) =>
      && RowRead(w, p) && GoalOk(w, p, goal)
      && p.versionNo < s.versionNo <= |History(w.drive, p.id)|
      && History(w.drive, p.id)[s.versionNo - 1] == s
    case Patching(_, p, cmd, patch, expectedVersion) =>
      RowRead(w, p) && BuildPatch(p, cmd) == Ok(patch) && CheckExpectedVersion(p, cmd) == Ok(expectedVersion)
    case Reading(p) => RowRead(w, p)
  }

  ghost predicate ClientsInv(w: World) {
    forall c :: c in w.clients ==> ClientOk(w, w.clients[c])
  }

  // An applied suggestion's source version lies strictly behind its page's pointer, and no two
  // applied suggestions share a page and a source version.
  ghost predicate AppliedOk(db: Db, sg: Suggestion) {
    && sg.pageId in db.pages
    && (sg.sourceVersionId.Some? ==>
          exists k :: 1 <= k < db.pages[sg.pageId].versionNo && sg.sourceVersionId.value == VersionId(sg.pageId, k))
  }

  predicate SharesSource(a: Suggestion, b: Suggestion) {
    a.pageId == b.pageId && a.sourceVersionId.Some? && a.sourceVersionId == b.sourceVersionId
  }

  ghost predicate SuggestionsInv(db: Db) {
    && (forall id :: id in db.suggestions ==> db.suggestions[id].id == id)
    && (forall id :: id in db.suggestions && db.suggestions[id].status == Applied ==> AppliedOk(db, db.suggestions[id]))
    && (forall a, b :: a in db.suggestions && b in db.suggestions && a != b
          && db.suggestions[a].status == Applied && db.suggestions[b].status == Applied
          ==> !SharesSource(db.suggestions[a], db.suggestions[b]))
  }

  ghost predicate TablesInv(w: World) {
    DriveInv(w.drive) && PagesInv(w) && SuggestionsInv(w.db)
  }

  ghost predicate Inv(w: World) {
    TablesInv(w) && ClientsInv(w)
  }

  /* How worlds grow */

  // Drive histories only gain entries at their end.
  ghost predicate DriveGrows(d: DriveState, d': DriveState) {
    forall page :: page in d.versions ==> page in d'.versions && d.versions[page] <= d'.versions[page]
  }

  // One statement's effect on a row: nothing, or one version bump that moves the Drive pointer
  // strictly forward if it moves it at all.
  predicate RowStep(p: Page, p': Page) {
    p' == p || (
      && p'.version == p.version + 1
      && p'.id == p.id && p'.tenant == p.tenant && p'.organization == p.organization
      && p'.workspaceId == p.workspaceId && p'.kind == p.kind
      && (p.deleted ==> p'.deleted)
      && (p'.versionNo > p.versionNo || (p'.versionNo == p.versionNo && p'.versionId == p.versionId)))
  }

  ghost predicate PagesStep(db: Db, db': Db) {
    forall id :: id in db.pages ==> id in db'.pages && RowStep(db.pages[id], db'.pages[id])
  }

  ghost predicate SuggestionsStep(db: Db, db': Db) {
    forall id :: id in db.suggestions ==> id in db'.suggestions && SameSuggestion(db.suggestions[id], db'.suggestions[id])
  }

  ghost predicate Grows(w: World, w': World) {
    DriveGrows(w.drive, w'.drive) && PagesStep(w.db, w'.db) && SuggestionsStep(w.db, w'.db)
  }

  lemma PointsIntoGrows(p: Page, d: DriveState, d': DriveState)
    requires PointsInto(p, d) && DriveGrows(d, d')
    ensures PointsInto(p, d')
  {
  }

  // What a client remembers stays true while the world grows around it.
  lemma ClientOkGrows(w: World, w': World, c: Client)
    requires ClientOk(w, c) && Grows(w, w')
    ensures ClientOk(w', c)
  {
  }

  lemma OtherClientsOk(w: World, w': World, c: nat)
    requires ClientsInv(w) && Grows(w, w')
    requires forall k :: k in w'.clients && k != c ==> k in w.clients && w'.clients[k] == w.clients[k]
    requires c in w'.clients ==> ClientOk(w', w'.clients[c])
    ensures ClientsInv(w')
  {
    forall k | k in w'.clients
      ensures ClientOk(w', w'.clients[k])
    {
      if k != c {
        ClientOkGrows(w, w', w.clients[k]);
      }
    }
  }
}
