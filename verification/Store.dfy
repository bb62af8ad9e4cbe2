// SqlCanvasStore: the tables as fields, the statements of each repository call as updates to them.
// A transaction works on local copies and assigns the fields when it commits.
module Store {
  import opened Domain
  import opened PageTables
  import opened AiTables

  class SqlCanvasStore {
    var pages: map<string, Page>
    var order: seq<string>
    var projections: seq<Projection>
    var suggestions: map<string, Suggestion>
    var jobs: map<string, Job>
    var keys: map<JobKey, string>
    var sources: seq<Source>

    ghost predicate Valid()
      reads this
    {
      && (forall id :: id in pages ==> pages[id].id == id)
      && (forall id :: id in suggestions ==> suggestions[id].id == id)
      && (forall id :: id in jobs ==> jobs[id].id == id)
      && (forall k :: k in keys ==> keys[k] in jobs && KeyOf(jobs[keys[k]]) == k)
    }

    // The page and suggestion tables.
    ghost function Tables(): Db
      reads this
    {
      Db(pages, order, projections, suggestions)
    }

    // The job, source and suggestion tables.
    ghost function Ai(): AiDb
      reads this
    {
      AiDb(jobs, keys, sources, suggestions)
    }

    constructor ()
      ensures Valid() && Tables() == Db(map[], [], [], map[]) && Ai() == AiDb(map[], map[], [], map[])
    {
      pages, order, projections, suggestions := map[], [], [], map[];
      jobs, keys, sources := map[], map[], [];
    }

    /* Pages */

    method FindPage(actor: Actor, id: string) returns (r: Result<Page>)
      ensures r == PageTables.FindPage(Tables(), actor, id)
    {
      r := if id in pages && Visible(pages[id], actor) then Ok(pages[id]) else Err(NotFound);
    }

    method PageIdIsReserved(id: string) returns (taken: bool)
      ensures taken == PageTables.PageIdIsReserved(Tables(), id)
    {
      taken := id in pages;
    }

    method UpsertPageSearchProjection(p: Page) returns (r: Result<()>)
      modifies this`projections
      ensures var upserted := UpsertProjection(old(projections), p);
              && projections == (if upserted.Ok? then upserted.value else old(projections))
              && r == (if upserted.Ok? then Ok(()) else Err(upserted.error))
    {
      var row := NewProjection(p);
      if exists i :: 0 <= i < |projections| && projections[i].id == row.id && !SameKey(projections[i], p) {
        return Err(Internal);
      }
      var k := 0;
      while k < |projections| && !SameKey(projections[k], p)
        invariant 0 <= k <= |projections|
        invariant forall i :: 0 <= i < k ==> !SameKey(projections[i], p)
      {
        k := k + 1;
      }
      assert k == KeyIndex(projections, p);
      projections := if k < |projections| then projections[k := row.(workspaceId := projections[k].workspaceId)]
                     else projections + [row];
      r := Ok(());
    }

    method InsertPage(draft: PageDraft, s: Snapshot, now: int) returns (r: Result<Page>)
      requires Valid()
      modifies this`pages, this`order, this`projections
      ensures Valid() && (Tables(), r) == PageTables.InsertPage(old(Tables()), draft, s, now)
    {
      if draft.id in pages || NodeTaken(Db(pages, order, projections, suggestions), draft.actor.tenant, s.nodeId) {
        return Err(Conflict);
      }
      var page := NewPage(draft, s, now);
      pages := pages[draft.id := page];
      order := order + [draft.id];
      var upserted := UpsertPageSearchProjection(page);
      r := if upserted.Ok? then Ok(page) else Err(upserted.error);
    }

    method UpdatePageMetadata(actor: Actor, id: string, patch: MetadataPatch, expectedVersion: Option<int>, now: int)
      returns (r: Result<Page>)
      requires Valid()
      modifies this`pages, this`projections
      ensures Valid()
      ensures (Tables(), r) == PageTables.UpdatePageMetadata(old(Tables()), actor, id, patch, expectedVersion, now)
    {
      var affected := 0;
      if id in pages && Visible(pages[id], actor) && (expectedVersion.None? || pages[id].version == expectedVersion.value) {
        pages := pages[id := Patched(pages[id], patch, actor, now)];
        affected := 1;
      }
      if affected == 0 {
        var found := FindPage(actor, id);
        return Err(if expectedVersion.Some? && found.Ok? then Conflict else NotFound);
      }
      var page := pages[id];
      var upserted := UpsertPageSearchProjection(page);
      r := if upserted.Ok? then Ok(page) else Err(upserted.error);
    }

    method DeletePage(actor: Actor, id: string, now: int) returns (r: Result<()>)
      requires Valid()
      modifies this`pages, this`projections
      ensures Valid() && (Tables(), r) == PageTables.DeletePage(old(Tables()), actor, id, now)
    {
      if !(id in pages && Visible(pages[id], actor)) {
        return Err(NotFound);
      }
      pages := pages[id := Deleted(pages[id], actor, now)];
      var kept, i := [], 0;
      while i < |projections|
        invariant 0 <= i <= |projections|
        invariant kept + WithoutPage(projections[i..], actor, id) == WithoutPage(projections, actor, id)
      {
        var sp := projections[i];
        assert projections[i..][1..] == projections[i + 1..];
        if !(sp.tenant == actor.tenant && sp.organization == actor.organization && sp.pageId == id) {
          kept := kept + [sp];
        }
        i := i + 1;
      }
      assert kept + [] == kept;
      projections := kept;
      r := Ok(());
    }

    method UpdatePageDriveSnapshot(actor: Actor, id: string, s: Snapshot, expected: string, now: int)
      returns (r: Result<Page>)
      requires Valid()
      modifies this`pages, this`projections
      ensures Valid() && (Tables(), r) == PageTables.UpdatePageDriveSnapshot(old(Tables()), actor, id, s, expected, now)
    {
      var affected := 0;
      if id in pages && Visible(pages[id], actor) && pages[id].versionId == expected {
        pages := pages[id := Repointed(pages[id], s, actor, now)];
        affected := 1;
      }
      if affected == 0 {
        var found := FindPage(actor, id);
        return Err(if found.Ok? then Conflict else NotFound);
      }
      var page := pages[id];
      var upserted := UpsertPageSearchProjection(page);
      r := if upserted.Ok? then Ok(page) else Err(upserted.error);
    }

    /* Suggestions */

    method FindAiSuggestion(actor: Actor, id: string) returns (r: Result<Suggestion>)
      ensures r == FindSuggestion(Tables(), actor, id)
    {
      r := if id in suggestions && suggestions[id].tenant == actor.tenant && suggestions[id].organization == actor.organization
           then Ok(suggestions[id]) else Err(NotFound);
    }

    method DecideAiSuggestion(actor: Actor, id: string, status: SuggestionStatus) returns (r: Result<Suggestion>)
      requires Valid()
      modifies this`suggestions
      ensures Valid() && (Tables(), r) == DecideSuggestion(old(Tables()), actor, id, status)
    {
      var found := FindAiSuggestion(actor, id);
      if found.Ok? && found.value.status == Proposed {
        suggestions := suggestions[id := WithStatus(found.value, status)];
      }
      r := FindAiSuggestion(actor, id);
    }

    method ApplyAiSuggestion(actor: Actor, id: string, pageId: string, s: Snapshot, expected: string, now: int)
      returns (r: Result<Suggestion>)
      requires Valid()
      modifies this`pages, this`suggestions
      ensures Valid() && (Tables(), r) == ApplySuggestion(old(Tables()), actor, id, pageId, s, expected, now)
    {
      var staged := pages;
      var pageAffected := 0;
      if pageId in staged && Visible(staged[pageId], actor) && staged[pageId].versionId == expected {
        staged := staged[pageId := Repointed(staged[pageId], s, actor, now)];
        pageAffected := 1;
      }
      if pageAffected == 0 {
        var present := pageId in staged && Visible(staged[pageId], actor);
        return Err(if present then Conflict else NotFound);
      }
      var found := FindAiSuggestion(actor, id);
      if found.Err? || found.value.status != Accepted {
        return Err(if found.Ok? then Conflict else NotFound);
      }
      pages, suggestions := staged, suggestions[id := WithStatus(found.value, Applied)];
      r := FindAiSuggestion(actor, id);
    }

    /* Jobs */

    method FindAiJob(actor: Actor, id: string) returns (r: Result<Job>)
      ensures r == FindJob(Ai(), actor, id)
    {
      r := if id in jobs && JobVisible(jobs[id], actor) then Ok(jobs[id]) else Err(NotFound);
    }

    method FindAiJobByIdempotencyKey(actor: Actor, key: string) returns (r: Option<Job>)
      requires Valid()
      ensures r == FindJobByKey(Ai(), actor, key)
    {
      r := None;
      if KeyFor(actor, key) in keys {
        var found := FindAiJob(actor, keys[KeyFor(actor, key)]);
        r := if found.Ok? then Some(found.value) else None;
      }
    }

    method InsertAiJob(draft: NewJob) returns (r: Result<Job>)
      requires Valid()
      modifies this`jobs, this`keys, this`sources
      ensures Valid() && Ai() == InsertJob(old(Ai()), draft).0
      ensures var inserted := InsertJob(old(Ai()), draft).1;
              r == if inserted.Ok? then Ok(QueuedJob(draft)) else Err(inserted.error)
    {
      if |draft.key| > MAX_KEY_LENGTH {
        return Err(Internal);
      }
      if draft.id in jobs || KeyFor(draft.actor, draft.key) in keys {
        return Err(Conflict);
      }
      var staged, i := sources, 0;
      while i < |draft.sources|
        invariant 0 <= i <= |draft.sources|
        invariant InsertSources(staged, draft, draft.sources[i..]) == InsertSources(sources, draft, draft.sources)
      {
        if SourceIdTaken(staged, draft.sources[i].id) {
          return Err(Conflict);
        }
        staged := staged + [SourceRow(draft, draft.sources[i])];
        i := i + 1;
      }
      jobs, keys, sources := jobs[draft.id := QueuedJob(draft)], keys[KeyFor(draft.actor, draft.key) := draft.id], staged;
      var stored := FindAiJobByIdempotencyKey(draft.actor, draft.key);
      r := if stored.Some? then Ok(stored.value) else Err(Internal);
    }

    method CallAiJob(actor: Actor, id: string, call: JobCall) returns (r: Result<Job>)
      requires Valid()
      modifies this`jobs
      ensures Valid() && (Ai(), r) == CallJob(old(Ai()), actor, id, call)
    {
      var current :- FindAiJob(actor, id);
      if AlreadyDone(call, current.status) {
        return Ok(current);
      }
      if !CallApplies(call, current.status) {
        return Err(Conflict);
      }
      jobs := jobs[id := CallResult(call, jobs[id])];
      r := FindAiJob(actor, id);
    }

    method CompleteAiJob(actor: Actor, id: string, rows: seq<Suggestion>) returns (r: Result<Job>)
      requires Valid()
      modifies this`jobs, this`suggestions
      ensures Valid()
      ensures var found := FindJob(old(Ai()), actor, id);
              (Ai(), r) == if found.Err? then (old(Ai()), Err(NotFound)) else Completed(old(Ai()), actor, id, rows)
    {
      var current :- FindAiJob(actor, id);
      if current.status != Running {
        return Err(Conflict);
      }
      var staged, i := suggestions, 0;
      while i < |rows|
        invariant 0 <= i <= |rows|
        invariant InsertSuggestions(staged, rows[i..]) == InsertSuggestions(suggestions, rows)
        invariant forall k :: k in staged ==> staged[k].id == k
      {
        if rows[i].id in staged {
          return Err(Conflict);
        }
        staged := staged[rows[i].id := rows[i]];
        i := i + 1;
      }
      suggestions, jobs := staged, jobs[id := SucceededJob(current, actor, |rows|)];
      r := FindAiJob(actor, id);
    }
  }
}
