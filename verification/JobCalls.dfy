// The AI job calls of CanvasPagesService, each run without interruption.
module JobCalls {
  import opened Domain
  import opened PageTables
  import opened AiTables
  import opened JobProtocol
  import opened JobInvariant
  import opened JobRuns
  import opened JobTheorems

  /* create_ai_job */

  function CreateAiJob(ai: AiDb, db: Db, cmd: CreateJobCommand, workspaceExists: bool): (AiDb, Result<Job>) {
    match StartJob(cmd)
    case Err(e) => (ai, Err(e))
    case Ok(r) =>
      match FindJobByKey(ai, r.actor, r.key)
      case Some(existing) => (ai, if existing.payloadHash == r.payloadHash then Ok(existing) else Err(Conflict))
      case None =>
        if !workspaceExists then (ai, Err(NotFound))
        else
          match SourcesForTarget(db, r)
          case Err(e) => (ai, Err(e))
          case Ok(sources) => InsertAndReread(ai, r, sources)
  }

  function InsertAndReread(ai: AiDb, r: JobRequest, sources: seq<NewSource>): (AiDb, Result<Job>) {
    var (next, inserted) := InsertJob(ai, JobFor(r, sources));
    var found := FindJobByKey(next, r.actor, r.key);
    (next,
     if inserted.Ok? then (if found.Some? then Ok(found.value) else Err(Internal))
     else if inserted.error != Conflict then Err(inserted.error)
     else if found.Some? && found.value.payloadHash == r.payloadHash then Ok(found.value)
     else Err(Conflict))
  }

  // When a create under an unused key must be refused: the key is too long for the table, its derived
  // job id is taken, or the page version it would pin is already pinned by another job, since a
  // source's id leaves the job out.
  predicate InsertBlocked(ai: AiDb, draft: NewJob) {
    |draft.key| > MAX_KEY_LENGTH || draft.id in ai.jobs || (draft.sources != [] && SourceIdTaken(ai.sources, draft.sources[0].id))
  }

  // A create under an unused key.
  ghost predicate CreateJobOutcome(ai: AiDb, db: Db, r: JobRequest, workspaceExists: bool, next: AiDb, result: Result<Job>) {
    var sources := SourcesForTarget(db, r);
    && (result.Ok? <==> workspaceExists && sources.Ok? && !InsertBlocked(ai, JobFor(r, sources.value)))
    && (result.Err? ==> next == ai)
    && (result.Ok? ==>
          (&& result.value == QueuedJob(JobFor(r, sources.value))
           && next.jobs == ai.jobs[result.value.id := result.value]
           && SourcesOf(next.sources, result.value) == SourceRows(JobFor(r, sources.value))
           && next.suggestions == ai.suggestions))
  }

  // The stored job of a command, column by column.
  predicate JobAsAsked(cmd: CreateJobCommand, j: Job) {
    && j.tenant == Trim(cmd.actor.tenant) && j.organization == Trim(cmd.actor.organization) && j.createdBy == Trim(cmd.actor.operator)
    && j.workspaceId == Trim(cmd.workspaceId) && j.jobType == Trim(cmd.jobType) && j.targetType == Trim(cmd.targetType)
    && j.targetId == NormalizeOptional(cmd.targetId) && j.prompt == NormalizeOptional(cmd.prompt)
    && j.key == Trim(cmd.key) && j.payloadHash == cmd.payloadHash
    && j.status == Queued && j.result.None? && j.error.None? && j.version == 1
  }

  lemma StartedJob(cmd: CreateJobCommand, r: JobRequest)
    requires StartJob(cmd) == Ok(r)
    ensures NormalizeActor(cmd.actor) == Ok(r.actor) && r.workspaceId == Trim(cmd.workspaceId) && r.jobType == Trim(cmd.jobType)
    ensures r.targetType == Trim(cmd.targetType) && r.targetId == NormalizeOptional(cmd.targetId)
    ensures r.prompt == NormalizeOptional(cmd.prompt) && r.key == Trim(cmd.key) && r.payloadHash == cmd.payloadHash
  {
  }

  lemma QueuedAsAsked(cmd: CreateJobCommand, sources: seq<NewSource>)
    requires StartJob(cmd).Ok?
    ensures JobAsAsked(cmd, QueuedJob(JobFor(StartJob(cmd).value, sources)))
  {
    StartedJob(cmd, StartJob(cmd).value);
  }

  lemma InsertExactly(ai: AiDb, draft: NewJob)
    requires AiInv(ai) && NewSourcesFit(draft.targetType, draft.targetId, draft.sources)
    requires KeyFor(draft.actor, draft.key) !in ai.keys
    ensures InsertJob(ai, draft).1.Ok? <==> !InsertBlocked(ai, draft)
    ensures InsertJob(ai, draft).1.Err? ==> InsertJob(ai, draft).0 == ai
  {
    if draft.sources != [] {
      assert draft.sources[1..] == [];
      assert InsertSources(ai.sources + [SourceRow(draft, draft.sources[0])], draft, []).Some?;
    }
  }

  lemma InsertedFind(ai: AiDb, r: JobRequest, sources: seq<NewSource>)
    requires InsertJob(ai, JobFor(r, sources)).1.Ok?
    ensures InsertAndReread(ai, r, sources) == (InsertJob(ai, JobFor(r, sources)).0, Ok(QueuedJob(JobFor(r, sources))))
  {
  }

  lemma RefusedFind(ai: AiDb, r: JobRequest, sources: seq<NewSource>)
    requires InsertJob(ai, JobFor(r, sources)).1.Err? && InsertJob(ai, JobFor(r, sources)).0 == ai
    requires KeyFor(r.actor, r.key) !in ai.keys
    ensures InsertAndReread(ai, r, sources).0 == ai && InsertAndReread(ai, r, sources).1.Err?
  {
  }

  lemma InsertOutcome(ai: AiDb, db: Db, r: JobRequest, sources: seq<NewSource>)
    requires AiInv(ai) && SourcesForTarget(db, r) == Ok(sources) && NewSourcesFit(r.targetType, r.targetId, sources)
    requires KeyFor(r.actor, r.key) !in ai.keys
    ensures CreateJobOutcome(ai, db, r, true, InsertAndReread(ai, r, sources).0, InsertAndReread(ai, r, sources).1)
  {
    var draft := JobFor(r, sources);
    InsertExactly(ai, draft);
    if InsertJob(ai, draft).1.Ok? {
      InsertedFind(ai, r, sources);
      InsertedJob(ai, draft);
      NewJobHasItsSources(ai, draft, InsertJob(ai, draft).0);
    } else {
      RefusedFind(ai, r, sources);
    }
  }

  lemma CreateWithUnusedKey(ai: AiDb, db: Db, cmd: CreateJobCommand, workspaceExists: bool, r: JobRequest)
    requires AiInv(ai) && PagesKeyed(db) && StartJob(cmd) == Ok(r) && KeyFor(r.actor, r.key) !in ai.keys
    ensures var (next, result) := CreateAiJob(ai, db, cmd, workspaceExists);
            CreateJobOutcome(ai, db, r, workspaceExists, next, result) && (result.Ok? ==> JobAsAsked(cmd, result.value))
  {
    if workspaceExists && SourcesForTarget(db, r).Ok? {
      SourcesForTargetFit(db, r);
      InsertOutcome(ai, db, r, SourcesForTarget(db, r).value);
      QueuedAsAsked(cmd, SourcesForTarget(db, r).value);
    }
  }

  // A create under a used key stores nothing: the same payload gets the stored job, whatever has
  // become of it, and a different one is refused.
  lemma CreateWithUsedKey(ai: AiDb, db: Db, cmd: CreateJobCommand, workspaceExists: bool, r: JobRequest)
    requires AiInv(ai) && StartJob(cmd) == Ok(r) && KeyFor(r.actor, r.key) in ai.keys
    ensures var j := ai.jobs[ai.keys[KeyFor(r.actor, r.key)]];
            CreateAiJob(ai, db, cmd, workspaceExists)
            == (ai, if j.payloadHash == r.payloadHash then Ok(j) else Err(Conflict))
  {
  }

  // A create leaves the tables alone or runs one insert transaction.
  lemma CreateInserts(ai: AiDb, db: Db, cmd: CreateJobCommand, workspaceExists: bool)
    ensures var next := CreateAiJob(ai, db, cmd, workspaceExists).0;
            next == ai
            || (&& StartJob(cmd).Ok? && SourcesForTarget(db, StartJob(cmd).value).Ok?
                && next == InsertJob(ai, JobFor(StartJob(cmd).value, SourcesForTarget(db, StartJob(cmd).value).value)).0)
  {
  }

  lemma CreateKeeps(ai: AiDb, db: Db, cmd: CreateJobCommand, workspaceExists: bool)
    requires AiInv(ai) && PagesKeyed(db)
    ensures var next := CreateAiJob(ai, db, cmd, workspaceExists).0; AiInv(next) && AiGrows(ai, next)
  {
    var next := CreateAiJob(ai, db, cmd, workspaceExists).0;
    CreateInserts(ai, db, cmd, workspaceExists);
    if next != ai {
      var r := StartJob(cmd).value;
      SourcesForTargetFit(db, r);
      InsertKeeps(ai, JobFor(r, SourcesForTarget(db, r).value));
    }
  }

  // Whatever other creates run between a successful create and its retry, the retry returns the
  // same job and stores nothing.
  function CreateAll(ai: AiDb, db: Db, cmds: seq<CreateJobCommand>): AiDb {
    if cmds == [] then ai else CreateAiJob(CreateAll(ai, db, cmds[..|cmds| - 1]), db, cmds[|cmds| - 1], true).0
  }

  lemma {:induction false} CreateAllKeeps(ai: AiDb, db: Db, cmds: seq<CreateJobCommand>, id: string)
    requires AiInv(ai) && PagesKeyed(db) && id in ai.jobs
    ensures var next := CreateAll(ai, db, cmds); AiInv(next) && id in next.jobs && next.jobs[id] == ai.jobs[id]
  {
    if cmds != [] {
      var before := CreateAll(ai, db, cmds[..|cmds| - 1]);
      CreateAllKeeps(ai, db, cmds[..|cmds| - 1], id);
      CreateKeeps(before, db, cmds[|cmds| - 1], true);
      CreateLeavesJobs(before, db, cmds[|cmds| - 1], id);
    }
  }

  lemma InsertLeavesJobs(ai: AiDb, draft: NewJob, id: string)
    requires id in ai.jobs
    ensures var next := InsertJob(ai, draft).0; id in next.jobs && next.jobs[id] == ai.jobs[id]
  {
  }

  lemma CreateLeavesJobs(ai: AiDb, db: Db, cmd: CreateJobCommand, id: string)
    requires id in ai.jobs
    ensures var next := CreateAiJob(ai, db, cmd, true).0; id in next.jobs && next.jobs[id] == ai.jobs[id]
  {
    var next := CreateAiJob(ai, db, cmd, true).0;
    CreateInserts(ai, db, cmd, true);
    if next != ai {
      var r := StartJob(cmd).value;
      InsertLeavesJobs(ai, JobFor(r, SourcesForTarget(db, r).value), id);
    }
  }

  lemma RetryReturnsSameJob(ai: AiDb, db: Db, cmd: CreateJobCommand, others: seq<CreateJobCommand>)
    requires AiInv(ai) && PagesKeyed(db) && CreateAiJob(ai, db, cmd, true).1.Ok?
    ensures var (next, result) := CreateAiJob(ai, db, cmd, true);
            var later := CreateAll(next, db, others);
            CreateAiJob(later, db, cmd, true) == (later, result)
  {
    var (next, result) := CreateAiJob(ai, db, cmd, true);
    CreateKeeps(ai, db, cmd, true);
    CreatedRow(ai, db, cmd);
    CreateAllKeeps(next, db, others, result.value.id);
    CreateWithUsedKey(CreateAll(next, db, others), db, cmd, true, StartJob(cmd).value);
  }

  lemma CreatedRow(ai: AiDb, db: Db, cmd: CreateJobCommand)
    requires AiInv(ai) && PagesKeyed(db) && CreateAiJob(ai, db, cmd, true).1.Ok?
    ensures var (next, result) := CreateAiJob(ai, db, cmd, true);
            && StartJob(cmd).Ok? && result.value.id in next.jobs && next.jobs[result.value.id] == result.value
            && KeyOf(result.value) == KeyFor(StartJob(cmd).value.actor, StartJob(cmd).value.key)
            && result.value.payloadHash == StartJob(cmd).value.payloadHash
  {
    var r := StartJob(cmd).value;
    if KeyFor(r.actor, r.key) in ai.keys {
      CreateWithUsedKey(ai, db, cmd, true, r);
    } else {
      CreateWithUnusedKey(ai, db, cmd, true, r);
    }
  }

  /* claim_ai_job, cancel_ai_job, fail_ai_job */

  lemma CallUpdates(ai: AiDb, actor: Actor, id: string, call: JobCall)
    ensures CallJob(ai, actor, id, call).0 == ai || CallJob(ai, actor, id, call).0 == UpdateJob(ai, actor, id, call).0
  {
  }

  lemma CallKeeps(ai: AiDb, actor: Actor, id: string, call: JobCall)
    requires AiInv(ai)
    ensures AiInv(CallJob(ai, actor, id, call).0) && AiGrows(ai, CallJob(ai, actor, id, call).0)
  {
    var next := CallJob(ai, actor, id, call).0;
    CallUpdates(ai, actor, id, call);
    if next != ai {
      UpdateKeeps(ai, actor, id, call);
    }
  }

  function Target(call: JobCall): JobStatus {
    match call
    case Claim => Running
    case Cancel => Canceled
    case Fail(_) => Failed
  }

  // A call that succeeds leaves the job in its target status; repeating a cancel or a failure
  // report changes nothing, repeating a claim is refused.
  lemma CallsOnce(ai: AiDb, actor: Actor, id: string, call: JobCall)
    requires JobsInv(ai) && CallJob(ai, actor, id, call).1.Ok?
    ensures var (next, result) := CallJob(ai, actor, id, call);
            && result.value.id == id && result.value.status == Target(call)
            && CallJob(next, actor, id, call) == (next, if call.Claim? then Err(Conflict) else result)
  {
  }

  // A call is refused exactly for a job out of sight or in a status it does not apply to, and then
  // changes nothing.
  lemma CallRefused(ai: AiDb, actor: Actor, id: string, call: JobCall)
    ensures var (next, result) := CallJob(ai, actor, id, call);
            var found := FindJob(ai, actor, id);
            && (result.Err? <==> found.Err? || !(AlreadyDone(call, found.value.status) || CallApplies(call, found.value.status)))
            && (result.Err? ==> next == ai)
  {
  }

  /* complete_ai_job */

  datatype CompleteCommand = CompleteCommand(actor: Actor, jobId: string, inputs: seq<SuggestionInput>)

  datatype CompleteRead = CompleteRead(actor: Actor, job: Job, sources: seq<Source>)

  function StartComplete(ai: AiDb, cmd: CompleteCommand): Result<CompleteRead> {
    var actor :- NormalizeActor(cmd.actor);
    var id :- NormalizeRequired(cmd.jobId);
    var _ :- Need(cmd.inputs != [], Error.Validation);
    var job :- FindJob(ai, actor, id);
    var _ :- Need(job.status == Running, Conflict);
    Ok(CompleteRead(actor, job, SourcesOf(ai.sources, job)))
  }

  // The loop over the inputs, from the first one not yet built on.
  function BuildAll(db: Db, read: CompleteRead, inputs: seq<SuggestionInput>, built: seq<Suggestion>): Result<seq<Suggestion>>
    decreases |inputs| - |built|
  {
    if |built| >= |inputs| then Ok(built)
    else
      var next :- BuildSuggestion(db, read.actor, read.job, read.sources, inputs[|built|], |built|);
      BuildAll(db, read, inputs, built + [next])
  }

  function CompleteAiJob(ai: AiDb, db: Db, cmd: CompleteCommand): (AiDb, Result<Job>) {
    match StartComplete(ai, cmd)
    case Err(e) => (ai, Err(e))
    case Ok(read) =>
      match BuildAll(db, read, cmd.inputs, [])
      case Err(e) => (ai, Err(e))
      case Ok(built) => Completed(ai, read.actor, read.job.id, built)
  }

  lemma {:induction false} BuiltPrefix(db: Db, read: CompleteRead, inputs: seq<SuggestionInput>, built: seq<Suggestion>)
    requires |built| <= |inputs|
    ensures var r := BuildAll(db, read, inputs, built); r.Ok? ==> |r.value| == |inputs| && built <= r.value
    decreases |inputs| - |built|
  {
    if |built| < |inputs| {
      var next := BuildSuggestion(db, read.actor, read.job, read.sources, inputs[|built|], |built|);
      if next.Ok? {
        BuiltPrefix(db, read, inputs, built + [next.value]);
      }
    }
  }

  // One suggestion per input, in order.
  lemma {:induction false} BuiltInOrder(db: Db, read: CompleteRead, inputs: seq<SuggestionInput>, built: seq<Suggestion>, k: nat)
    requires |built| <= k < |inputs| && BuildAll(db, read, inputs, built).Ok?
    ensures |BuildAll(db, read, inputs, built).value| == |inputs|
    ensures BuildSuggestion(db, read.actor, read.job, read.sources, inputs[k], k) == Ok(BuildAll(db, read, inputs, built).value[k])
    decreases |inputs| - |built|
  {
    var next := BuildSuggestion(db, read.actor, read.job, read.sources, inputs[|built|], |built|);
    BuiltPrefix(db, read, inputs, built + [next.value]);
    if |built| < k {
      BuiltInOrder(db, read, inputs, built + [next.value], k);
    }
  }

  // What a completion leaves: a succeeded job that records the number of inputs, and one stored
  // suggestion per input, with its kind and payload, on a page of the job's workspace.
  ghost predicate CompleteOutcome(ai: AiDb, cmd: CompleteCommand, id: string, next: AiDb, result: Result<Job>) {
    && (result.Err? ==> next == ai)
    && (result.Ok? ==>
          (&& id in ai.jobs && ai.jobs[id].status == Running && result.value.id == id
           && result.value.status == Succeeded && result.value.result.Some? && result.value.result.value.suggestionCount == |cmd.inputs|
           && result.value.result.value.completedBy == Trim(cmd.actor.operator)
           && next.jobs == ai.jobs[id := result.value]
           && |SuggestionIds(next.suggestions, id)| == |cmd.inputs|
           && (forall k :: 0 <= k < |cmd.inputs| ==>
                 (exists s :: s in SuggestionIds(next.suggestions, id) && StoredFor(next.suggestions[s], cmd.inputs[k])))))
  }

  ghost predicate StoredFor(sg: Suggestion, input: SuggestionInput) {
    && sg.kind == Trim(input.kind) && sg.payload == input.payload && sg.status == Proposed
    && (NormalizeOptional(input.pageId).Some? ==> sg.pageId == NormalizeOptional(input.pageId).value)
  }

  lemma StartedComplete(ai: AiDb, cmd: CompleteCommand, read: CompleteRead)
    requires AiInv(ai) && StartComplete(ai, cmd) == Ok(read)
    ensures read.job.id in ai.jobs && ai.jobs[read.job.id] == read.job && read.job.status == Running
    ensures JobVisible(read.job, read.actor) && cmd.inputs != [] && read.job.id == Trim(cmd.jobId)
    ensures read.actor.operator == Trim(cmd.actor.operator)
    ensures SourcesFit(read.job, read.sources) && read.sources == SourcesOf(ai.sources, read.job)
  {
  }

  lemma BuiltRowsFit(ai: AiDb, db: Db, read: CompleteRead, inputs: seq<SuggestionInput>, built: seq<Suggestion>)
    requires SourcesInv(ai) && read.job.id in ai.jobs && ai.jobs[read.job.id] == read.job
    requires JobVisible(read.job, read.actor)
    requires read.sources == SourcesOf(ai.sources, read.job) && SourcesFit(read.job, read.sources)
    requires inputs != [] && BuildAll(db, read, inputs, []) == Ok(built)
    ensures RowsFit(ai, read.job.id, built) && |built| == |inputs|
    ensures forall k :: 0 <= k < |inputs| ==> StoredFor(built[k], inputs[k])
  {
    BuiltPrefix(db, read, inputs, []);
    forall k | 0 <= k < |inputs|
      ensures Pinned(read.job, read.sources, built[k]) && StoredFor(built[k], inputs[k])
    {
      BuiltInOrder(db, read, inputs, [], k);
      BuiltOne(db, read, inputs[k], k, built[k]);
    }
  }

  lemma BuiltOne(db: Db, read: CompleteRead, input: SuggestionInput, k: nat, sg: Suggestion)
    requires JobVisible(read.job, read.actor) && SourcesFit(read.job, read.sources)
    requires BuildSuggestion(db, read.actor, read.job, read.sources, input, k) == Ok(sg)
    ensures Pinned(read.job, read.sources, sg) && StoredFor(sg, input)
  {
    BuiltIsPinned(db, read.actor, read.job, read.sources, input, k);
  }

  lemma CompleteStores(ai: AiDb, cmd: CompleteCommand, read: CompleteRead, built: seq<Suggestion>)
    requires AiInv(ai) && RowsFit(ai, read.job.id, built) && |built| == |cmd.inputs|
    requires read.actor.operator == Trim(cmd.actor.operator)
    requires ai.jobs[read.job.id] == read.job && read.job.status == Running && JobVisible(read.job, read.actor)
    requires forall k :: 0 <= k < |cmd.inputs| ==> StoredFor(built[k], cmd.inputs[k])
    ensures var (next, result) := Completed(ai, read.actor, read.job.id, built);
            CompleteOutcome(ai, cmd, read.job.id, next, result)
  {
    if InsertSuggestions(ai.suggestions, built).Some? {
      var next := CompleteJob(ai, read.actor, read.job.id, built).0;
      InsertedSuggestions(ai.suggestions, built);
      CountInserted(ai.suggestions, built, read.job.id);
      assert SuggestionIds(ai.suggestions, read.job.id) == {};
      forall k | 0 <= k < |cmd.inputs|
        ensures exists s :: s in SuggestionIds(next.suggestions, read.job.id) && StoredFor(next.suggestions[s], cmd.inputs[k])
      {
        assert built[k].id in SuggestionIds(next.suggestions, read.job.id);
      }
    }
  }

  lemma CompleteSucceeds(ai: AiDb, db: Db, cmd: CompleteCommand)
    requires AiInv(ai)
    ensures AiInv(CompleteAiJob(ai, db, cmd).0) && AiGrows(ai, CompleteAiJob(ai, db, cmd).0)
    ensures CompleteOutcome(ai, cmd, Trim(cmd.jobId), CompleteAiJob(ai, db, cmd).0, CompleteAiJob(ai, db, cmd).1)
  {
    var started := StartComplete(ai, cmd);
    if started.Ok? {
      StartedComplete(ai, cmd, started.value);
      var built := BuildAll(db, started.value, cmd.inputs, []);
      if built.Ok? {
        BuiltCompletes(ai, db, cmd, started.value, built.value);
      }
    }
  }

  lemma BuiltCompletes(ai: AiDb, db: Db, cmd: CompleteCommand, read: CompleteRead, built: seq<Suggestion>)
    requires AiInv(ai) && read.job.id in ai.jobs && ai.jobs[read.job.id] == read.job && read.job.status == Running
    requires JobVisible(read.job, read.actor) && cmd.inputs != [] && read.sources == SourcesOf(ai.sources, read.job)
    requires read.actor.operator == Trim(cmd.actor.operator)
    requires BuildAll(db, read, cmd.inputs, []) == Ok(built)
    ensures var (next, result) := Completed(ai, read.actor, read.job.id, built);
            AiInv(next) && AiGrows(ai, next) && CompleteOutcome(ai, cmd, read.job.id, next, result)
  {
    BuiltRowsFit(ai, db, read, cmd.inputs, built);
    CompleteKeeps(ai, read.actor, read.job.id, built);
    CompleteStores(ai, cmd, read, built);
  }

  /* Runs of whole calls */

  datatype AiCall =
    | Create(create: CreateJobCommand, workspaceExists: bool)
    | Change(actor: Actor, jobId: string, change: JobCall)
    | Complete(complete: CompleteCommand)

  // A call and the page tables it meets, which change as they please between calls.
  datatype Met = Met(db: Db, call: AiCall)

  function AfterCall(ai: AiDb, m: Met): AiDb {
    match m.call
    case Create(cmd, found) => CreateAiJob(ai, m.db, cmd, found).0
    case Change(actor, id, change) => CallJob(ai, actor, id, change).0
    case Complete(cmd) => CompleteAiJob(ai, m.db, cmd).0
  }

  function AfterCalls(ai: AiDb, calls: seq<Met>): AiDb {
    if calls == [] then ai else AfterCall(AfterCalls(ai, calls[..|calls| - 1]), calls[|calls| - 1])
  }

  // Every page is stored under its id, whenever a call looks.
  predicate AllKeyed(calls: seq<Met>) {
    forall i :: 0 <= i < |calls| ==> PagesKeyed(calls[i].db)
  }

  lemma AfterCallKeeps(ai: AiDb, m: Met)
    requires AiInv(ai) && PagesKeyed(m.db)
    ensures AiInv(AfterCall(ai, m)) && AiGrows(ai, AfterCall(ai, m))
  {
    match m.call {
      case Create(cmd, found) => CreateKeeps(ai, m.db, cmd, found);
      case Change(actor, id, change) => CallKeeps(ai, actor, id, change);
      case Complete(cmd) => CompleteSucceeds(ai, m.db, cmd);
    }
  }

  lemma SourcesGrow(ai: AiDb, m: Met)
    requires PagesKeyed(m.db)
    ensures ai.sources <= AfterCall(ai, m).sources
  {
    match m.call {
      case Create(cmd, found) =>
        CreateInserts(ai, m.db, cmd, found);
        if AfterCall(ai, m) != ai {
          var r := StartJob(cmd).value;
          SourcesForTargetFit(m.db, r);
          InsertedSources(ai, JobFor(r, SourcesForTarget(m.db, r).value));
        }
      case Change(actor, id, change) => CallUpdates(ai, actor, id, change);
      case Complete(cmd) =>
    }
  }

  // Over any calls the tables stay consistent, a job keeps the columns of its origin and its row only
  // moves on, and no source is lost.
  lemma {:induction false} CallsKeep(ai: AiDb, calls: seq<Met>, id: string)
    requires AiInv(ai) && AllKeyed(calls) && id in ai.jobs
    ensures var next := AfterCalls(ai, calls);
            AiInv(next) && id in next.jobs && LaterJob(ai.jobs[id], next.jobs[id]) && ai.sources <= next.sources
  {
    if calls != [] {
      var before, last := AfterCalls(ai, calls[..|calls| - 1]), calls[|calls| - 1];
      CallsKeep(ai, calls[..|calls| - 1], id);
      AfterCallKeeps(before, last);
      SourcesGrow(before, last);
      LaterTransitive(ai.jobs[id], before.jobs[id], AfterCall(before, last).jobs[id]);
    }
  }

  lemma FoundLater(later: AiDb, created: Job, r: JobRequest, now: Db, cmd: CreateJobCommand, workspaceExists: bool)
    requires AiInv(later) && created.id in later.jobs && LaterJob(created, later.jobs[created.id])
    requires StartJob(cmd) == Ok(r) && KeyOf(created) == KeyFor(r.actor, r.key) && created.payloadHash == r.payloadHash
    ensures CreateAiJob(later, now, cmd, workspaceExists) == (later, Ok(later.jobs[created.id]))
  {
    assert KeyOf(later.jobs[created.id]) == KeyFor(r.actor, r.key);
    CreateWithUsedKey(later, now, cmd, workspaceExists, r);
  }

  // A retry of a successful create finds its job however often it was claimed, canceled, failed or
  // completed since, and whatever became of the page and the workspace: it stores nothing and answers
  // with the job's row of that moment.
  lemma RetryFindsTheJob(ai: AiDb, db: Db, cmd: CreateJobCommand, calls: seq<Met>, now: Db, workspaceExists: bool)
    requires AiInv(ai) && PagesKeyed(db) && AllKeyed(calls) && CreateAiJob(ai, db, cmd, true).1.Ok?
    ensures var (next, result) := CreateAiJob(ai, db, cmd, true);
            var later := AfterCalls(next, calls);
            && result.value.id in later.jobs && LaterJob(result.value, later.jobs[result.value.id])
            && CreateAiJob(later, now, cmd, workspaceExists) == (later, Ok(later.jobs[result.value.id]))
  {
    var (next, result) := CreateAiJob(ai, db, cmd, true);
    CreateKeeps(ai, db, cmd, true);
    CreatedRow(ai, db, cmd);
    CallsKeep(next, calls, result.value.id);
    FoundLater(AfterCalls(next, calls), result.value, StartJob(cmd).value, now, cmd, workspaceExists);
  }

  lemma SourceIdStaysTaken(before: seq<Source>, after: seq<Source>, id: string)
    requires before <= after && SourceIdTaken(before, id)
    ensures SourceIdTaken(after, id)
  {
    var i :| 0 <= i < |before| && before[i].id == id;
    assert after[i].id == id;
  }

  lemma CreatedSourceIsTaken(ai: AiDb, db: Db, cmd: CreateJobCommand, r: JobRequest, sources: seq<NewSource>)
    requires AiInv(ai) && PagesKeyed(db) && StartJob(cmd) == Ok(r) && KeyFor(r.actor, r.key) !in ai.keys
    requires SourcesForTarget(db, r) == Ok(sources) && sources != [] && CreateAiJob(ai, db, cmd, true).1.Ok?
    ensures SourceIdTaken(CreateAiJob(ai, db, cmd, true).0.sources, sources[0].id)
  {
    SourcesForTargetFit(db, r);
    InsertOutcome(ai, db, r, sources);
    InsertedJob(ai, JobFor(r, sources));
    var next := CreateAiJob(ai, db, cmd, true).0;
    assert next.sources[|ai.sources|].id == sources[0].id;
  }

  lemma TakenSourceConflicts(ai: AiDb, db: Db, cmd: CreateJobCommand, r: JobRequest, sources: seq<NewSource>)
    requires AiInv(ai) && PagesKeyed(db) && StartJob(cmd) == Ok(r) && KeyFor(r.actor, r.key) !in ai.keys
    requires SourcesForTarget(db, r) == Ok(sources) && sources != [] && SourceIdTaken(ai.sources, sources[0].id)
    requires |r.key| <= MAX_KEY_LENGTH
    ensures CreateAiJob(ai, db, cmd, true) == (ai, Err(Conflict))
  {
  }

  // Both requests target one page, in one organization and workspace, and find it at one version.
  predicate ReadSameVersion(db1: Db, r1: JobRequest, db2: Db, r2: JobRequest) {
    && r1.targetType == "page" && r2.targetType == "page" && r1.targetId == r2.targetId && r1.workspaceId == r2.workspaceId
    && r1.actor.tenant == r2.actor.tenant && r1.actor.organization == r2.actor.organization
    && SourcesForTarget(db1, r1).Ok? && SourcesForTarget(db2, r2).Ok?
    && var p, q := db1.pages[r1.targetId.value], db2.pages[r1.targetId.value];
       p.id == q.id && p.nodeId == q.nodeId && p.versionId == q.versionId && p.versionNo == q.versionNo
  }

  lemma SameVersionSameSource(db1: Db, r1: JobRequest, db2: Db, r2: JobRequest)
    requires ReadSameVersion(db1, r1, db2, r2)
    ensures SourcesForTarget(db1, r1) == SourcesForTarget(db2, r2) && SourcesForTarget(db1, r1).value != []
  {
  }

  // A page has at most one job per version: after a successful create for it, and any further calls,
  // a create under another key that finds the page at the same version is refused, whatever its job
  // type and prompt.
  lemma SecondJobRefused(ai: AiDb, db: Db, first: CreateJobCommand, r1: JobRequest,
                         calls: seq<Met>, now: Db, second: CreateJobCommand, r2: JobRequest)
    requires AiInv(ai) && PagesKeyed(db) && AllKeyed(calls) && PagesKeyed(now)
    requires StartJob(first) == Ok(r1) && KeyFor(r1.actor, r1.key) !in ai.keys && CreateAiJob(ai, db, first, true).1.Ok?
    requires StartJob(second) == Ok(r2) && |r2.key| <= MAX_KEY_LENGTH && ReadSameVersion(db, r1, now, r2)
    requires KeyFor(r2.actor, r2.key) !in AfterCalls(CreateAiJob(ai, db, first, true).0, calls).keys
    ensures var later := AfterCalls(CreateAiJob(ai, db, first, true).0, calls);
            CreateAiJob(later, now, second, true) == (later, Err(Conflict))
  {
    var (next, result) := CreateAiJob(ai, db, first, true);
    var later, sources := AfterCalls(next, calls), SourcesForTarget(db, r1).value;
    SameVersionSameSource(db, r1, now, r2);
    CreateKeeps(ai, db, first, true);
    CreatedRow(ai, db, first);
    CallsKeep(next, calls, result.value.id);
    CreatedSourceIsTaken(ai, db, first, r1, sources);
    SourceIdStaysTaken(next.sources, later.sources, sources[0].id);
    TakenSourceConflicts(later, now, second, r2, sources);
  }
}
