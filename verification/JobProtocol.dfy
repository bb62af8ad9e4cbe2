// AI jobs as a step machine over single SQL statements (or transactions): the reads and the
// conditional updates of a repository call are separate steps, and calls of any number of clients
// interleave. The page tables belong to the environment, which changes them in between.
module JobProtocol {
  import opened Domain
  import opened PageTables
  import opened AiTables
  import StableIds

  datatype CreateJobCommand = CreateJobCommand(
    actor: Actor,
    workspaceId: string,
    jobType: string,
    targetType: string,
    targetId: Option<string>,
    prompt: Option<string>,
    policyIsObject: bool,
    key: string,
    payloadHash: string)   // the hash of the normalized request's JSON text

  datatype JobRequest = JobRequest(
    actor: Actor,
    workspaceId: string,
    jobType: string,
    targetType: string,
    targetId: Option<string>,
    prompt: Option<string>,
    key: string,
    payloadHash: string)

  datatype SuggestionInput = SuggestionInput(pageId: Option<string>, kind: string, payload: Payload)

  const JOB_TYPES: set<string> := {"summarize", "rewrite", "extract_tasks", "answer", "organize", "generate"}
  const TARGET_TYPES: set<string> := {"page", "collection", "workspace", "selection"}
  const SUGGESTION_KINDS: set<string> := {"summary", "rewrite", "tag", "property_update", "link_create", "task_create"}

  function NormalizeIn(value: string, allowed: set<string>): (r: Result<string>)
    ensures r.Ok? ==> r.value in allowed
  {
    var v :- NormalizeRequired(value);
    if v in allowed then Ok(v) else Err(Error.Validation)
  }

  /* create_ai_job */

  function StartJob(cmd: CreateJobCommand): Result<JobRequest> {
    var actor :- NormalizeActor(cmd.actor);
    var workspaceId :- NormalizeRequired(cmd.workspaceId);
    var key :- NormalizeRequired(cmd.key);
    var jobType :- NormalizeIn(cmd.jobType, JOB_TYPES);
    var targetType :- NormalizeIn(cmd.targetType, TARGET_TYPES);
    var targetId := NormalizeOptional(cmd.targetId);
    var prompt := NormalizeOptional(cmd.prompt);
    var _ :- Need(prompt.Some? ==> |prompt.value| <= 8000, Error.Validation);
    var _ :- Need(cmd.policyIsObject, Error.Validation);
    var _ :- Need((targetType == "page" || targetType == "collection") ==> targetId.Some?, Error.Validation);
    Ok(JobRequest(actor, workspaceId, jobType, targetType, targetId, prompt, key, cmd.payloadHash))
  }

  // The source of a page-targeted job pins the page's Drive version as it is at this read.
  function PageSource(r: JobRequest, page: Page): NewSource {
    NewSource(StableIds.SourceId(r.actor, r.workspaceId, "page", page.id, page.versionId, page.versionNo),
              "page", Some(page.id), Some(page.nodeId), Some(page.versionId), Some(page.versionNo))
  }

  function SourcesForTarget(db: Db, r: JobRequest): Result<seq<NewSource>> {
    if r.targetType != "page" then Ok([])
    else if r.targetId.None? then Err(Error.Validation)
    else
      var page :- FindPage(db, r.actor, r.targetId.value);
      var _ :- Need(page.workspaceId == r.workspaceId, NotFound);
      Ok([PageSource(r, page)])
  }

  function JobFor(r: JobRequest, sources: seq<NewSource>): NewJob {
    NewJob(StableIds.JobId(r.actor, r.key, r.payloadHash), r.actor, r.workspaceId, r.jobType, r.targetType,
           r.targetId, r.prompt, r.key, r.payloadHash, sources)
  }

  /* complete_ai_job */

  function FirstPageSource(sources: seq<Source>): Option<Source> {
    if sources == [] then None
    else if sources[0].sourceType == "page" then Some(sources[0])
    else FirstPageSource(sources[1..])
  }

  function PageIdFromJob(job: Job, sources: seq<Source>): Option<string> {
    if job.targetType == "page" && job.targetId.Some? then job.targetId
    else
      var first := FirstPageSource(sources);
      if first.Some? then first.value.sourceId else None
  }

  function SourceForPage(sources: seq<Source>, pageId: string): Option<Source> {
    if sources == [] then None
    else if sources[0].sourceType == "page" && sources[0].sourceId == Some(pageId) then Some(sources[0])
    else SourceForPage(sources[1..], pageId)
  }

  function OrElse(a: Option<string>, b: Option<string>): Option<string> {
    if a.Some? then a else b
  }

  // One round of the loop in complete_ai_job.
  function BuildSuggestion(db: Db, actor: Actor, job: Job, sources: seq<Source>, input: SuggestionInput,
                           index: nat): Result<Suggestion> {
    var kind :- NormalizeIn(input.kind, SUGGESTION_KINDS);
    var _ :- Need(input.payload.isObject, Error.Validation);
    var pageId := OrElse(NormalizeOptional(input.pageId), PageIdFromJob(job, sources));
    if pageId.None? then Err(Error.Validation)
    else
      var page :- FindPage(db, actor, pageId.value);
      var _ :- Need(page.workspaceId == job.workspaceId, NotFound);
      var source := SourceForPage(sources, pageId.value);
      var _ :- Need(FirstPageSource(sources).Some? ==> source.Some?, Error.Validation);
      Ok(Suggestion(StableIds.SuggestionId(actor, job.id, pageId.value, kind, index, input.payload.text),
                    actor.tenant, actor.organization, job.workspaceId, pageId.value, job.id, kind, Proposed,
                    if source.Some? then source.value.nodeId else None,
                    if source.Some? then source.value.versionId else None,
                    if source.Some? then source.value.versionNo else None,
                    input.payload, 1))
  }

  /* The machine */

  datatype JobClient =
    | CreateSourcing(request: JobRequest)
    | CreateInserting(request: JobRequest, job: NewJob)
    | CreateRereading(request: JobRequest)
    | CreateConflicted(request: JobRequest)
    | CallReady(actor: Actor, jobId: string, call: JobCall)
    | Sourcing(actor: Actor, target: Job, inputs: seq<SuggestionInput>)
    | Building(actor: Actor, target: Job, sources: seq<Source>, inputs: seq<SuggestionInput>, built: seq<Suggestion>)
    | Completing(actor: Actor, target: Job, built: seq<Suggestion>)

  datatype Outcome = Outcome(request: JobRequest, result: Result<Job>)

  datatype JobWorld = JobWorld(ai: AiDb, db: Db, clients: map<nat, JobClient>, outcomes: map<nat, Outcome>)

  const NO_JOBS: JobWorld := JobWorld(AiDb(map[], map[], [], map[]), Db(map[], [], [], map[]), map[], map[])

  datatype JobStep =
    | StepCreateRead(client: nat, command: CreateJobCommand)
    | StepCreateSources(client: nat, workspaceExists: bool)
    | StepCreateInsert(client: nat)
    | StepCreateReread(client: nat)
    | StepCallRead(client: nat, actor: Actor, jobId: string, call: JobCall)
    | StepCallUpdate(client: nat)
    | StepCompleteRead(client: nat, actor: Actor, jobId: string, inputs: seq<SuggestionInput>)
    | StepCompleteSources(client: nat)
    | StepCompleteBuild(client: nat)
    | StepCompleteCheck(client: nat)
    | StepCompleteCommit(client: nat)
    | StepSuggestionStatus(suggestionId: string, status: SuggestionStatus)
    | StepEnvironment(db: Db)
    | StepVanish(client: nat)

  function Drop(w: JobWorld, c: nat): JobWorld {
    w.(clients := w.clients - {c})
  }

  function Go(w: JobWorld, c: nat, client: JobClient): JobWorld {
    w.(clients := w.clients[c := client])
  }

  function Settle(w: JobWorld, c: nat, request: JobRequest, result: Result<Job>): JobWorld {
    Drop(w, c).(outcomes := w.outcomes[c := Outcome(request, result)])
  }

  // The primary key of the page table.
  predicate PagesKeyed(db: Db) {
    forall id :: id in db.pages ==> db.pages[id].id == id
  }

  predicate Fresh(w: JobWorld, c: nat) {
    c !in w.clients && c !in w.outcomes
  }

  function NextJob(w: JobWorld, step: JobStep): JobWorld {
    match step
    case StepCreateRead(c, cmd) => CreateRead(w, c, cmd)
    case StepCreateSources(c, found) => if c in w.clients && w.clients[c].CreateSourcing? then CreateSources(w, c, found) else w
    case StepCreateInsert(c) => if c in w.clients && w.clients[c].CreateInserting? then CreateInsert(w, c) else w
    case StepCreateReread(c) => CreateReread(w, c)
    case StepCallRead(c, actor, id, call) => CallRead(w, c, actor, id, call)
    case StepCallUpdate(c) => if c in w.clients && w.clients[c].CallReady? then CallUpdate(w, c) else w
    case StepCompleteRead(c, actor, id, inputs) => CompleteRead(w, c, actor, id, inputs)
    case StepCompleteSources(c) => if c in w.clients && w.clients[c].Sourcing? then CompleteSources(w, c) else w
    case StepCompleteBuild(c) => if c in w.clients && w.clients[c].Building? then CompleteBuild(w, c) else w
    case StepCompleteCheck(c) => if c in w.clients && w.clients[c].Building? then CompleteCheck(w, c) else w
    case StepCompleteCommit(c) => if c in w.clients && w.clients[c].Completing? then CompleteCommit(w, c) else w
    case StepSuggestionStatus(id, status) => MarkSuggestion(w, id, status)
    case StepEnvironment(db) => if PagesKeyed(db) then w.(db := db) else w
    case StepVanish(c) => Drop(w, c)
  }

  // create_ai_job up to the lookup by idempotency key.
  function CreateRead(w: JobWorld, c: nat, cmd: CreateJobCommand): JobWorld {
    var started := StartJob(cmd);
    if !Fresh(w, c) || started.Err? then w
    else
      var request := started.value;
      match FindJobByKey(w.ai, request.actor, request.key)
      case None => Go(w, c, CreateSourcing(request))
      case Some(job) =>
        Settle(w, c, request, if job.payloadHash == request.payloadHash then Ok(job) else Err(Conflict))
  }

  // The workspace and page reads.
  function CreateSources(w: JobWorld, c: nat, workspaceExists: bool): JobWorld
    requires c in w.clients && w.clients[c].CreateSourcing?
  {
    var request := w.clients[c].request;
    var sources := SourcesForTarget(w.db, request);
    if !workspaceExists then Settle(w, c, request, Err(NotFound))
    else if sources.Err? then Settle(w, c, request, Err(sources.error))
    else Go(w, c, CreateInserting(request, JobFor(request, sources.value)))
  }

  function CreateInsert(w: JobWorld, c: nat): JobWorld
    requires c in w.clients && w.clients[c].CreateInserting?
  {
    var (ai, r) := InsertJob(w.ai, w.clients[c].job);
    var request := w.clients[c].request;
    if r.Err? && r.error != Conflict then Settle(w, c, request, Err(r.error))
    else Go(w.(ai := ai), c, if r.Ok? then CreateRereading(request) else CreateConflicted(request))
  }

  // The lookup after the insert, or after its conflict.
  function CreateReread(w: JobWorld, c: nat): JobWorld {
    if c in w.clients && (w.clients[c].CreateRereading? || w.clients[c].CreateConflicted?) then
      var request := w.clients[c].request;
      var found := FindJobByKey(w.ai, request.actor, request.key);
      Settle(w, c, request,
             if w.clients[c].CreateRereading? then (if found.Some? then Ok(found.value) else Err(Internal))
             else if found.Some? && found.value.payloadHash == request.payloadHash then Ok(found.value)
             else Err(Conflict))
    else w
  }

  // claim, cancel and fail: the read and its guard.
  function CallRead(w: JobWorld, c: nat, actor: Actor, id: string, call: JobCall): JobWorld {
    var found := FindJob(w.ai, actor, id);
    if Fresh(w, c) && found.Ok? && CallApplies(call, found.value.status) then Go(w, c, CallReady(actor, id, call)) else w
  }

  function CallUpdate(w: JobWorld, c: nat): JobWorld
    requires c in w.clients && w.clients[c].CallReady?
  {
    var client := w.clients[c];
    Drop(w.(ai := UpdateJob(w.ai, client.actor, client.jobId, client.call).0), c)
  }

  function CompleteRead(w: JobWorld, c: nat, actor: Actor, id: string, inputs: seq<SuggestionInput>): JobWorld {
    var found := FindJob(w.ai, actor, id);
    if Fresh(w, c) && inputs != [] && found.Ok? && found.value.status == Running
    then Go(w, c, Sourcing(actor, found.value, inputs))
    else w
  }

  function CompleteSources(w: JobWorld, c: nat): JobWorld
    requires c in w.clients && w.clients[c].Sourcing?
  {
    var client := w.clients[c];
    Go(w, c, Building(client.actor, client.target, SourcesOf(w.ai.sources, client.target), client.inputs, []))
  }

  function CompleteBuild(w: JobWorld, c: nat): JobWorld
    requires c in w.clients && w.clients[c].Building?
  {
    var client := w.clients[c];
    var i := |client.built|;
    if i >= |client.inputs| then w
    else
      var next := BuildSuggestion(w.db, client.actor, client.target, client.sources, client.inputs[i], i);
      if next.Err? then Drop(w, c)
      else Go(w, c, Building(client.actor, client.target, client.sources, client.inputs, client.built + [next.value]))
  }

  // The repository call's own read of the job.
  function CompleteCheck(w: JobWorld, c: nat): JobWorld
    requires c in w.clients && w.clients[c].Building?
  {
    var client := w.clients[c];
    var found := FindJob(w.ai, client.actor, client.target.id);
    if |client.built| < |client.inputs| then w
    else if found.Ok? && found.value.status == Running
    then Go(w, c, Completing(client.actor, client.target, client.built))
    else Drop(w, c)
  }

  function CompleteCommit(w: JobWorld, c: nat): JobWorld
    requires c in w.clients && w.clients[c].Completing?
  {
    var client := w.clients[c];
    Drop(w.(ai := CompleteJob(w.ai, client.actor, client.target.id, client.built).0), c)
  }

  // Decisions and applies on suggestions, seen from the jobs: any status change of a stored row.
  function MarkSuggestion(w: JobWorld, id: string, status: SuggestionStatus): JobWorld {
    if id in w.ai.suggestions
    then w.(ai := w.ai.(suggestions := w.ai.suggestions[id := WithStatus(w.ai.suggestions[id], status)]))
    else w
  }

  function RunJobs(steps: seq<JobStep>): JobWorld {
    if steps == [] then NO_JOBS else NextJob(RunJobs(steps[..|steps| - 1]), steps[|steps| - 1])
  }

  lemma RunJobsNext(steps: seq<JobStep>, i: nat)
    requires i < |steps|
    ensures RunJobs(steps[..i + 1]) == NextJob(RunJobs(steps[..i]), steps[i])
  {
    assert steps[..i + 1][..i] == steps[..i];
  }
}
