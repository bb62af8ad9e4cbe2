// The invariant of the AI tables and of every pending job call, and how the tables may grow.
module JobInvariant {
  import opened Domain
  import opened PageTables
  import opened AiTables

  /* Invariant */

  // Version 1 plus the number of status changes behind the row.
  predicate VersionFitsStatus(j: Job) {
    match j.status
    case Queued => j.version == 1
    case Running => j.version == 2
    case Succeeded => j.version == 3
    case Failed => j.version == 3
    case Canceled => j.version == 2 || j.version == 3
  }

  predicate JobRowOk(j: Job) {
    VersionFitsStatus(j) && (j.result.Some? <==> j.status == Succeeded) && (j.error.Some? <==> j.status == Failed)
  }

  // The sources a job may have: a page-targeted job pins one version of its target page.
  predicate PinsTarget(targetType: string, targetId: Option<string>, n: nat, sourceType: string, sourceId: Option<string>,
                       versionId: Option<string>, versionNo: Option<int>) {
    n == 1 && sourceType == "page" && targetId.Some? && sourceId == targetId && versionId.Some? && versionNo.Some?
  }

  predicate SourcesFit(j: Job, sources: seq<Source>) {
    if j.targetType == "page"
    then sources != [] && PinsTarget(j.targetType, j.targetId, |sources|, sources[0].sourceType, sources[0].sourceId,
                                     sources[0].versionId, sources[0].versionNo)
    else sources == []
  }

  predicate NewSourcesFit(targetType: string, targetId: Option<string>, sources: seq<NewSource>) {
    if targetType == "page"
    then sources != [] && PinsTarget(targetType, targetId, |sources|, sources[0].sourceType, sources[0].sourceId,
                                     sources[0].versionId, sources[0].versionNo)
    else sources == []
  }

  // A suggestion of a page-targeted job names the target page and the pinned version.
  predicate Pinned(j: Job, sources: seq<Source>, sg: Suggestion)
    requires SourcesFit(j, sources)
  {
    && sg.jobId == j.id && sg.tenant == j.tenant && sg.organization == j.organization && sg.workspaceId == j.workspaceId
    && (j.targetType == "page" ==>
          (&& Some(sg.pageId) == j.targetId && sg.sourceNodeId == sources[0].nodeId
           && sg.sourceVersionId == sources[0].versionId && sg.sourceVersionNo == sources[0].versionNo))
    && (j.targetType != "page" ==> sg.sourceNodeId.None? && sg.sourceVersionId.None? && sg.sourceVersionNo.None?)
  }

  predicate JobsInv(ai: AiDb) {
    && (forall id :: id in ai.jobs ==> ai.jobs[id].id == id && JobRowOk(ai.jobs[id]))
    && (forall id :: id in ai.jobs ==> KeyOf(ai.jobs[id]) in ai.keys && ai.keys[KeyOf(ai.jobs[id])] == id)
    && (forall k :: k in ai.keys ==> ai.keys[k] in ai.jobs && KeyOf(ai.jobs[ai.keys[k]]) == k)
  }

  predicate DistinctSourceIds(sources: seq<Source>) {
    forall i, k :: 0 <= i < k < |sources| ==> sources[i].id != sources[k].id
  }

  predicate SourcesInv(ai: AiDb) {
    && (forall i :: 0 <= i < |ai.sources| ==> ai.sources[i].jobId in ai.jobs)
    && DistinctSourceIds(ai.sources)
    && (forall id :: id in ai.jobs ==> SourcesFit(ai.jobs[id], SourcesOf(ai.sources, ai.jobs[id])))
  }

  function SuggestionIds(table: map<string, Suggestion>, jobId: string): set<string> {
    set id | id in table && table[id].jobId == jobId
  }

  predicate StoredSuggestionsInv(ai: AiDb)
    requires SourcesInv(ai)
  {
    && (forall id :: id in ai.suggestions ==>
          (&& ai.suggestions[id].id == id && ai.suggestions[id].jobId in ai.jobs
           && ai.jobs[ai.suggestions[id].jobId].status == Succeeded))
    && (forall id :: id in ai.suggestions ==>
          (var j := ai.jobs[ai.suggestions[id].jobId]; Pinned(j, SourcesOf(ai.sources, j), ai.suggestions[id])))
  }

  predicate CountsInv(ai: AiDb) {
    forall id :: id in ai.jobs && ai.jobs[id].result.Some? ==>
      (&& ai.jobs[id].result.value.suggestionCount == |SuggestionIds(ai.suggestions, id)|
       && ai.jobs[id].result.value.suggestionCount > 0)
  }

  predicate AiInv(ai: AiDb) {
    JobsInv(ai) && SourcesInv(ai) && StoredSuggestionsInv(ai) && CountsInv(ai)
  }

  /* Growth */

  predicate SameOrigin(j: Job, k: Job) {
    k == j.(status := k.status, result := k.result, error := k.error, version := k.version)
  }

  predicate Edge(from: JobStatus, to: JobStatus) {
    || (from == Queued && (to == Running || to == Canceled))
    || (from == Running && (to == Succeeded || to == Failed || to == Canceled))
  }

  predicate JobMoves(j: Job, k: Job) {
    j == k || (SameOrigin(j, k) && Edge(j.status, k.status) && k.version == j.version + 1)
  }

  predicate AiGrows(ai: AiDb, next: AiDb) {
    && (forall id :: id in ai.jobs ==> id in next.jobs && JobMoves(ai.jobs[id], next.jobs[id]))
    && (forall id :: id in next.jobs && id !in ai.jobs ==> next.jobs[id].status == Queued)
    && (forall k :: k in ai.keys ==> k in next.keys && next.keys[k] == ai.keys[k])
    && (forall id :: id in ai.jobs ==> SourcesOf(next.sources, ai.jobs[id]) == SourcesOf(ai.sources, ai.jobs[id]))
  }

  lemma {:induction false} SourcesOfOrigin(sources: seq<Source>, j: Job, k: Job)
    requires SameOrigin(j, k)
    ensures SourcesOf(sources, j) == SourcesOf(sources, k)
  {
    if sources != [] {
      SourcesOfOrigin(sources[..|sources| - 1], j, k);
    }
  }

  /* Statements that change one job row */

  lemma MovedJob(ai: AiDb, k: Job)
    requires JobsInv(ai) && SourcesInv(ai)
    requires k.id in ai.jobs && JobMoves(ai.jobs[k.id], k) && JobRowOk(k)
    ensures var next := ai.(jobs := ai.jobs[k.id := k]); JobsInv(next) && SourcesInv(next) && AiGrows(ai, next)
  {
    SourcesOfOrigin(ai.sources, ai.jobs[k.id], k);
    assert KeyOf(k) == KeyOf(ai.jobs[k.id]);
  }

  lemma CallMoves(ai: AiDb, call: JobCall, j: Job)
    requires JobsInv(ai) && j.id in ai.jobs && ai.jobs[j.id] == j && CallApplies(call, j.status)
    ensures JobMoves(j, CallResult(call, j)) && JobRowOk(CallResult(call, j)) && CallResult(call, j).result.None?
    ensures j.status != Succeeded && CallResult(call, j).id == j.id
  {
  }

  lemma UpdateKeeps(ai: AiDb, actor: Actor, id: string, call: JobCall)
    requires AiInv(ai)
    ensures var next := UpdateJob(ai, actor, id, call).0; AiInv(next) && AiGrows(ai, next)
  {
    var found := FindJob(ai, actor, id);
    if found.Ok? && CallApplies(call, found.value.status) {
      CallMoves(ai, call, found.value);
      MovedJob(ai, CallResult(call, found.value));
      MovedKeepsSuggestions(ai, CallResult(call, found.value));
    }
  }

  // A row that is not succeeded has no suggestions, so its move cannot separate any from its job.
  lemma MovedKeepsSuggestions(ai: AiDb, k: Job)
    requires AiInv(ai) && k.id in ai.jobs && JobMoves(ai.jobs[k.id], k) && ai.jobs[k.id].status != Succeeded
    requires k.result.None? && SourcesInv(ai.(jobs := ai.jobs[k.id := k]))
    ensures var next := ai.(jobs := ai.jobs[k.id := k]); StoredSuggestionsInv(next) && CountsInv(next)
  {
  }

  /* insert_ai_job */

  lemma AppendedSources(sources: seq<Source>, row: Source, j: Job)
    ensures SourcesOf(sources + [row], j) == SourcesOf(sources, j) + (if SourceOf(row, j) then [row] else [])
  {
    assert (sources + [row])[..|sources|] == sources;
  }

  lemma {:induction false} NoSources(sources: seq<Source>, j: Job)
    requires forall i :: 0 <= i < |sources| ==> sources[i].jobId != j.id
    ensures SourcesOf(sources, j) == []
  {
    if sources != [] {
      NoSources(sources[..|sources| - 1], j);
    }
  }

  function SourceRows(draft: NewJob): seq<Source> {
    if draft.sources == [] then [] else [SourceRow(draft, draft.sources[0])]
  }

  predicate NewIds(ai: AiDb, draft: NewJob) {
    draft.sources != [] ==> !SourceIdTaken(ai.sources, draft.sources[0].id)
  }

  lemma InsertedSources(ai: AiDb, draft: NewJob)
    requires |draft.sources| <= 1
    ensures var inserted := InsertSources(ai.sources, draft, draft.sources);
            inserted.Some? ==> inserted.value == ai.sources + SourceRows(draft) && NewIds(ai, draft)
  {
    if draft.sources != [] {
      assert draft.sources[1..] == [];
      assert InsertSources(ai.sources + [SourceRow(draft, draft.sources[0])], draft, []) == Some(ai.sources + SourceRows(draft));
    } else {
      assert ai.sources + [] == ai.sources;
    }
  }

  lemma SourcesAfterInsert(ai: AiDb, draft: NewJob, j: Job)
    requires |draft.sources| <= 1
    ensures j.id != draft.id ==> SourcesOf(ai.sources + SourceRows(draft), j) == SourcesOf(ai.sources, j)
    ensures j == QueuedJob(draft) ==> SourcesOf(ai.sources + SourceRows(draft), j) == SourcesOf(ai.sources, j) + SourceRows(draft)
  {
    if draft.sources == [] {
      assert ai.sources + [] == ai.sources;
    } else {
      AppendedSources(ai.sources, SourceRow(draft, draft.sources[0]), j);
    }
  }

  // What the transaction leaves, for a job with fitting sources.
  predicate Inserted(ai: AiDb, draft: NewJob, next: AiDb) {
    && |draft.sources| <= 1 && draft.id !in ai.jobs && KeyFor(draft.actor, draft.key) !in ai.keys
    && next.jobs == ai.jobs[draft.id := QueuedJob(draft)] && next.keys == ai.keys[KeyFor(draft.actor, draft.key) := draft.id]
    && next.sources == ai.sources + SourceRows(draft) && NewIds(ai, draft) && next.suggestions == ai.suggestions
  }

  lemma InsertedJob(ai: AiDb, draft: NewJob)
    requires NewSourcesFit(draft.targetType, draft.targetId, draft.sources)
    requires InsertJob(ai, draft).1.Ok?
    ensures Inserted(ai, draft, InsertJob(ai, draft).0)
  {
    InsertedSources(ai, draft);
  }

  lemma OldSourcesStay(ai: AiDb, draft: NewJob, next: AiDb)
    requires Inserted(ai, draft, next) && JobsInv(ai)
    ensures forall id :: id in ai.jobs ==> SourcesOf(next.sources, ai.jobs[id]) == SourcesOf(ai.sources, ai.jobs[id])
  {
    forall id | id in ai.jobs
      ensures SourcesOf(next.sources, ai.jobs[id]) == SourcesOf(ai.sources, ai.jobs[id])
    {
      SourcesAfterInsert(ai, draft, ai.jobs[id]);
    }
  }

  lemma NewJobHasItsSources(ai: AiDb, draft: NewJob, next: AiDb)
    requires Inserted(ai, draft, next) && SourcesInv(ai)
    requires NewSourcesFit(draft.targetType, draft.targetId, draft.sources)
    ensures SourcesOf(next.sources, QueuedJob(draft)) == SourceRows(draft)
    ensures SourcesFit(QueuedJob(draft), SourceRows(draft))
  {
    SourcesAfterInsert(ai, draft, QueuedJob(draft));
    NoSources(ai.sources, QueuedJob(draft));
  }

  lemma InsertKeepsSources(ai: AiDb, draft: NewJob, next: AiDb)
    requires Inserted(ai, draft, next) && JobsInv(ai) && SourcesInv(ai)
    requires NewSourcesFit(draft.targetType, draft.targetId, draft.sources)
    ensures SourcesInv(next)
  {
    assert DistinctSourceIds(next.sources);
    forall i | 0 <= i < |next.sources| ensures next.sources[i].jobId in next.jobs {
      if i < |ai.sources| {
        assert next.sources[i] == ai.sources[i];
      }
    }
    forall id | id in next.jobs ensures SourcesFit(next.jobs[id], SourcesOf(next.sources, next.jobs[id])) {
      if id == draft.id {
        NewJobHasItsSources(ai, draft, next);
      } else {
        OldSourcesStay(ai, draft, next);
      }
    }
  }

  lemma InsertKeepsSuggestion(ai: AiDb, draft: NewJob, next: AiDb, sg: Suggestion)
    requires Inserted(ai, draft, next) && JobsInv(ai) && SourcesInv(ai) && SourcesInv(next)
    requires sg.jobId in ai.jobs && ai.jobs[sg.jobId].status == Succeeded
    requires Pinned(ai.jobs[sg.jobId], SourcesOf(ai.sources, ai.jobs[sg.jobId]), sg)
    ensures sg.jobId in next.jobs && next.jobs[sg.jobId].status == Succeeded
    ensures Pinned(next.jobs[sg.jobId], SourcesOf(next.sources, next.jobs[sg.jobId]), sg)
  {
    SourcesAfterInsert(ai, draft, ai.jobs[sg.jobId]);
  }

  lemma InsertKeepsCounts(ai: AiDb, draft: NewJob, next: AiDb)
    requires CountsInv(ai) && next.jobs == ai.jobs[draft.id := QueuedJob(draft)] && next.suggestions == ai.suggestions
    ensures CountsInv(next)
  {
  }

  lemma InsertKeepsSuggestions(ai: AiDb, draft: NewJob, next: AiDb)
    requires Inserted(ai, draft, next) && AiInv(ai) && SourcesInv(next)
    ensures StoredSuggestionsInv(next)
  {
    forall id | id in next.suggestions
      ensures next.suggestions[id].jobId in next.jobs
      ensures var j := next.jobs[next.suggestions[id].jobId];
              j.status == Succeeded && Pinned(j, SourcesOf(next.sources, j), next.suggestions[id])
    {
      InsertKeepsSuggestion(ai, draft, next, ai.suggestions[id]);
    }
  }

  lemma InsertKeeps(ai: AiDb, draft: NewJob)
    requires AiInv(ai) && NewSourcesFit(draft.targetType, draft.targetId, draft.sources)
    ensures var next := InsertJob(ai, draft).0; AiInv(next) && AiGrows(ai, next)
  {
    var (next, r) := InsertJob(ai, draft);
    if r.Ok? {
      InsertedJob(ai, draft);
      InsertedKeeps(ai, draft, next);
    }
  }

  lemma InsertedKeeps(ai: AiDb, draft: NewJob, next: AiDb)
    requires Inserted(ai, draft, next) && AiInv(ai)
    requires NewSourcesFit(draft.targetType, draft.targetId, draft.sources)
    ensures AiInv(next) && AiGrows(ai, next)
  {
    InsertKeepsJobs(ai, draft, next);
    InsertKeepsSources(ai, draft, next);
    InsertKeepsSuggestions(ai, draft, next);
    InsertKeepsCounts(ai, draft, next);
    InsertGrows(ai, draft, next);
  }

  lemma InsertKeepsJobs(ai: AiDb, draft: NewJob, next: AiDb)
    requires Inserted(ai, draft, next) && JobsInv(ai)
    ensures JobsInv(next)
  {
    assert KeyOf(QueuedJob(draft)) == KeyFor(draft.actor, draft.key);
  }

  lemma InsertGrows(ai: AiDb, draft: NewJob, next: AiDb)
    requires Inserted(ai, draft, next) && JobsInv(ai)
    ensures AiGrows(ai, next)
  {
    OldSourcesStay(ai, draft, next);
  }

  /* complete_ai_job */

  // All or nothing: the rows are new, pairwise distinct and all stored.
  lemma {:induction false} InsertedSuggestions(table: map<string, Suggestion>, rows: seq<Suggestion>)
    requires InsertSuggestions(table, rows).Some?
    ensures var t := InsertSuggestions(table, rows).value;
            && (forall id :: id in table ==> id in t && t[id] == table[id])
            && (forall k :: 0 <= k < |rows| ==> rows[k].id in t && t[rows[k].id] == rows[k] && rows[k].id !in table)
            && (forall id :: id in t && id !in table ==> exists k :: 0 <= k < |rows| && rows[k] == t[id] && id == rows[k].id)
            && |t| == |table| + |rows|
    decreases |rows|
  {
    if rows != [] {
      InsertedSuggestions(table[rows[0].id := rows[0]], rows[1..]);
      var t := InsertSuggestions(table, rows).value;
      assert forall k :: 0 < k < |rows| ==> rows[k] == rows[1..][k - 1];
      forall id | id in t && id !in table
        ensures exists k :: 0 <= k < |rows| && rows[k] == t[id] && id == rows[k].id
      {
        if id == rows[0].id {
          assert rows[0] == t[id];
        } else {
          var k :| 0 <= k < |rows[1..]| && rows[1..][k] == t[id] && id == rows[1..][k].id;
          assert rows[k + 1] == t[id];
        }
      }
    }
  }

  lemma {:induction false} CountInserted(table: map<string, Suggestion>, rows: seq<Suggestion>, jobId: string)
    requires InsertSuggestions(table, rows).Some?
    requires forall k :: 0 <= k < |rows| ==> rows[k].jobId == jobId
    ensures |SuggestionIds(InsertSuggestions(table, rows).value, jobId)| == |SuggestionIds(table, jobId)| + |rows|
    decreases |rows|
  {
    if rows != [] {
      var t := table[rows[0].id := rows[0]];
      CountInserted(t, rows[1..], jobId);
      assert SuggestionIds(t, jobId) == SuggestionIds(table, jobId) + {rows[0].id};
    }
  }

  lemma {:induction false} OtherCountsKept(table: map<string, Suggestion>, rows: seq<Suggestion>, jobId: string)
    requires InsertSuggestions(table, rows).Some?
    requires forall k :: 0 <= k < |rows| ==> rows[k].jobId != jobId
    ensures SuggestionIds(InsertSuggestions(table, rows).value, jobId) == SuggestionIds(table, jobId)
    decreases |rows|
  {
    if rows != [] {
      var t := table[rows[0].id := rows[0]];
      OtherCountsKept(t, rows[1..], jobId);
      assert SuggestionIds(t, jobId) == SuggestionIds(table, jobId);
    }
  }

  // What the rows of a completion owe to the job they complete.
  predicate RowsFit(ai: AiDb, id: string, rows: seq<Suggestion>)
    requires SourcesInv(ai)
  {
    && id in ai.jobs && rows != []
    && forall k :: 0 <= k < |rows| ==> Pinned(ai.jobs[id], SourcesOf(ai.sources, ai.jobs[id]), rows[k])
  }

  lemma CompleteKeeps(ai: AiDb, actor: Actor, id: string, rows: seq<Suggestion>)
    requires AiInv(ai) && RowsFit(ai, id, rows)
    ensures var next := CompleteJob(ai, actor, id, rows).0; AiInv(next) && AiGrows(ai, next)
  {
    if CompleteJob(ai, actor, id, rows).1.Ok? {
      var j := SucceededJob(ai.jobs[id], actor, |rows|);
      MovedJob(ai, j);
      CompleteKeepsSuggestions(ai, j, rows);
      CompleteKeepsCounts(ai, j, rows);
    }
  }

  lemma CompleteKeepsSuggestions(ai: AiDb, j: Job, rows: seq<Suggestion>)
    requires AiInv(ai) && RowsFit(ai, j.id, rows) && ai.jobs[j.id].status == Running
    requires SameOrigin(ai.jobs[j.id], j) && j.status == Succeeded
    requires InsertSuggestions(ai.suggestions, rows).Some?
    requires SourcesInv(ai.(jobs := ai.jobs[j.id := j]))
    ensures var next := ai.(jobs := ai.jobs[j.id := j], suggestions := InsertSuggestions(ai.suggestions, rows).value);
            SourcesInv(next) && StoredSuggestionsInv(next)
  {
    var t := InsertSuggestions(ai.suggestions, rows).value;
    var next := ai.(jobs := ai.jobs[j.id := j], suggestions := t);
    forall id | id in t
      ensures t[id].id == id && t[id].jobId in next.jobs && next.jobs[t[id].jobId].status == Succeeded
      ensures Pinned(next.jobs[t[id].jobId], SourcesOf(ai.sources, next.jobs[t[id].jobId]), t[id])
    {
      InsertedSuggestions(ai.suggestions, rows);
      if id !in ai.suggestions {
        SourcesOfOrigin(ai.sources, ai.jobs[j.id], j);
      }
    }
  }

  lemma RowsNameTheJob(ai: AiDb, id: string, rows: seq<Suggestion>)
    requires JobsInv(ai) && SourcesInv(ai) && RowsFit(ai, id, rows)
    ensures forall k :: 0 <= k < |rows| ==> rows[k].jobId == id
  {
  }

  lemma CompleteKeepsCounts(ai: AiDb, j: Job, rows: seq<Suggestion>)
    requires AiInv(ai) && RowsFit(ai, j.id, rows) && ai.jobs[j.id].status == Running
    requires j.result.Some? && j.result.value.suggestionCount == |rows|
    requires InsertSuggestions(ai.suggestions, rows).Some?
    ensures CountsInv(ai.(jobs := ai.jobs[j.id := j], suggestions := InsertSuggestions(ai.suggestions, rows).value))
  {
    RowsNameTheJob(ai, j.id, rows);
    CountsAfter(ai, j, rows, InsertSuggestions(ai.suggestions, rows).value);
  }

  lemma CountsAfter(ai: AiDb, j: Job, rows: seq<Suggestion>, table: map<string, Suggestion>)
    requires CountsInv(ai) && rows != [] && InsertSuggestions(ai.suggestions, rows) == Some(table)
    requires forall k :: 0 <= k < |rows| ==> rows[k].jobId == j.id
    requires forall id :: id in ai.suggestions ==> ai.suggestions[id].jobId != j.id
    requires j.result.Some? && j.result.value.suggestionCount == |rows|
    ensures CountsInv(ai.(jobs := ai.jobs[j.id := j], suggestions := table))
  {
    CountInserted(ai.suggestions, rows, j.id);
    assert SuggestionIds(ai.suggestions, j.id) == {};
    forall id | id in ai.jobs && id != j.id
      ensures SuggestionIds(table, id) == SuggestionIds(ai.suggestions, id)
    {
      OtherCountsKept(ai.suggestions, rows, id);
    }
  }

  /* Decisions */

  lemma StatusKeeps(ai: AiDb, id: string, status: SuggestionStatus)
    requires AiInv(ai) && id in ai.suggestions
    ensures var next := ai.(suggestions := ai.suggestions[id := WithStatus(ai.suggestions[id], status)]);
            AiInv(next) && AiGrows(ai, next)
  {
    var next := ai.(suggestions := ai.suggestions[id := WithStatus(ai.suggestions[id], status)]);
    forall jobId ensures SuggestionIds(next.suggestions, jobId) == SuggestionIds(ai.suggestions, jobId) {
    }
  }
}
