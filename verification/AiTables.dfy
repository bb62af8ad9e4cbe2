// The AI job, job-source and suggestion tables and what each statement or transaction of
// SqlCanvasStore does to them.
module AiTables {
  import opened Domain
  import opened PageTables

  datatype JobStatus = Queued | Running | Succeeded | Failed | Canceled

  datatype JobResult = JobResult(suggestionCount: nat, completedBy: string)

  datatype JobError = JobError(code: string, message: string)

  datatype Job = Job(
    id: string,
    tenant: string,
    organization: string,
    workspaceId: string,
    jobType: string,
    targetType: string,
    targetId: Option<string>,
    prompt: Option<string>,
    status: JobStatus,
    result: Option<JobResult>,
    error: Option<JobError>,
    key: string,
    payloadHash: string,
    createdBy: string,
    version: nat)

  datatype Source = Source(
    id: string,
    tenant: string,
    organization: string,
    workspaceId: string,
    jobId: string,
    sourceType: string,
    sourceId: Option<string>,
    nodeId: Option<string>,
    versionId: Option<string>,
    versionNo: Option<int>)

  datatype NewSource = NewSource(id: string, sourceType: string, sourceId: Option<string>,
                                 nodeId: Option<string>, versionId: Option<string>, versionNo: Option<int>)

  datatype NewJob = NewJob(
    id: string,
    actor: Actor,
    workspaceId: string,
    jobType: string,
    targetType: string,
    targetId: Option<string>,
    prompt: Option<string>,
    key: string,
    payloadHash: string,
    sources: seq<NewSource>)

  datatype JobKey = JobKey(tenant: string, organization: string, createdBy: string, key: string)

  // `keys` is the unique index on tenant, organization, creator and idempotency key.
  datatype AiDb = AiDb(
    jobs: map<string, Job>,
    keys: map<JobKey, string>,
    sources: seq<Source>,
    suggestions: map<string, Suggestion>)

  function KeyOf(j: Job): JobKey {
    JobKey(j.tenant, j.organization, j.createdBy, j.key)
  }

  function KeyFor(actor: Actor, key: string): JobKey {
    JobKey(actor.tenant, actor.organization, actor.operator, key)
  }

  predicate JobVisible(j: Job, actor: Actor) {
    j.tenant == actor.tenant && j.organization == actor.organization
  }

  function FindJob(ai: AiDb, actor: Actor, id: string): Result<Job> {
    if id in ai.jobs && JobVisible(ai.jobs[id], actor) then Ok(ai.jobs[id]) else Err(NotFound)
  }

  function FindJobByKey(ai: AiDb, actor: Actor, key: string): Option<Job> {
    var k := KeyFor(actor, key);
    if k in ai.keys && ai.keys[k] in ai.jobs then Some(ai.jobs[ai.keys[k]]) else None
  }

  predicate SourceOf(s: Source, j: Job) {
    s.tenant == j.tenant && s.organization == j.organization && s.jobId == j.id
  }

  // The sources of a job, in insertion order.
  function SourcesOf(sources: seq<Source>, j: Job): seq<Source> {
    if sources == [] then []
    else
      var last := |sources| - 1;
      SourcesOf(sources[..last], j) + (if SourceOf(sources[last], j) then [sources[last]] else [])
  }

  /* insert_ai_job: one transaction */

  function QueuedJob(draft: NewJob): Job {
    Job(draft.id, draft.actor.tenant, draft.actor.organization, draft.workspaceId, draft.jobType, draft.targetType,
        draft.targetId, draft.prompt, Queued, None, None, draft.key, draft.payloadHash, draft.actor.operator, 1)
  }

  function SourceRow(draft: NewJob, s: NewSource): Source {
    Source(s.id, draft.actor.tenant, draft.actor.organization, draft.workspaceId, draft.id, s.sourceType,
           s.sourceId, s.nodeId, s.versionId, s.versionNo)
  }

  predicate SourceIdTaken(sources: seq<Source>, id: string) {
    exists i :: 0 <= i < |sources| && sources[i].id == id
  }

  function InsertSources(sources: seq<Source>, draft: NewJob, rows: seq<NewSource>): Option<seq<Source>>
    decreases |rows|
  {
    if rows == [] then Some(sources)
    else if SourceIdTaken(sources, rows[0].id) then None
    else InsertSources(sources + [SourceRow(draft, rows[0])], draft, rows[1..])
  }

  const MAX_KEY_LENGTH := 255

  // The table's CHECK on the key's length is the only one that the service does not make itself.
  function InsertJob(ai: AiDb, draft: NewJob): (AiDb, Result<()>) {
    if |draft.key| > MAX_KEY_LENGTH then (ai, Err(Internal))
    else if draft.id in ai.jobs || KeyFor(draft.actor, draft.key) in ai.keys then (ai, Err(Conflict))
    else
      match InsertSources(ai.sources, draft, draft.sources)
      case None => (ai, Err(Conflict))
      case Some(sources) =>
        (ai.(jobs := ai.jobs[draft.id := QueuedJob(draft)],
             keys := ai.keys[KeyFor(draft.actor, draft.key) := draft.id],
             sources := sources),
         Ok(()))
  }

  /* The conditional updates of a job's status */

  datatype JobCall = Claim | Cancel | Fail(error: JobError)

  predicate CallApplies(call: JobCall, status: JobStatus) {
    match call
    case Claim => status == Queued
    case Cancel => status == Queued || status == Running
    case Fail(_) => status == Running
  }

  function CallResult(call: JobCall, j: Job): Job {
    match call
    case Claim => j.(status := Running, version := j.version + 1)
    case Cancel => j.(status := Canceled, version := j.version + 1)
    case Fail(error) => j.(status := Failed, error := Some(error), version := j.version + 1)
  }

  // UPDATE ... WHERE the row is the actor's and its status is one the call applies to; the number
  // of affected rows, zero or one, as a boolean.
  function UpdateJob(ai: AiDb, actor: Actor, id: string, call: JobCall): (AiDb, bool) {
    var found := FindJob(ai, actor, id);
    if found.Ok? && CallApplies(call, found.value.status)
    then (ai.(jobs := ai.jobs[id := CallResult(call, found.value)]), true)
    else (ai, false)
  }

  // A status in which the call has nothing left to do.
  predicate AlreadyDone(call: JobCall, status: JobStatus) {
    (call.Cancel? && status == Canceled) || (call.Fail? && status == Failed)
  }

  // claim, cancel or fail, run without interruption.
  function CallJob(ai: AiDb, actor: Actor, id: string, call: JobCall): (AiDb, Result<Job>) {
    var found := FindJob(ai, actor, id);
    if found.Err? then (ai, Err(found.error))
    else if AlreadyDone(call, found.value.status) then (ai, found)
    else
      var (next, updated) := UpdateJob(ai, actor, id, call);
      if updated then (next, FindJob(next, actor, id)) else (ai, Err(Conflict))
  }

  /* complete_ai_job: one transaction */

  function InsertSuggestions(table: map<string, Suggestion>, rows: seq<Suggestion>): Option<map<string, Suggestion>>
    decreases |rows|
  {
    if rows == [] then Some(table)
    else if rows[0].id in table then None
    else InsertSuggestions(table[rows[0].id := rows[0]], rows[1..])
  }

  function SucceededJob(j: Job, actor: Actor, count: nat): Job {
    j.(status := Succeeded, result := Some(JobResult(count, actor.operator)), version := j.version + 1)
  }

  function CompleteJob(ai: AiDb, actor: Actor, id: string, rows: seq<Suggestion>): (AiDb, Result<()>) {
    var found := FindJob(ai, actor, id);
    match InsertSuggestions(ai.suggestions, rows)
    case None => (ai, Err(Conflict))
    case Some(suggestions) =>
      if found.Err? || found.value.status != Running then (ai, Err(Conflict))
      else (ai.(jobs := ai.jobs[id := SucceededJob(found.value, actor, |rows|)], suggestions := suggestions), Ok(()))
  }

  // The transaction and the read after it.
  function Completed(ai: AiDb, actor: Actor, id: string, rows: seq<Suggestion>): (AiDb, Result<Job>) {
    var (next, r) := CompleteJob(ai, actor, id, rows);
    (next, if r.Ok? then FindJob(next, actor, id) else Err(r.error))
  }
}
