// What every AI job call answers, said from the command and the tables alone: the error, in the order
// in which the checks are made, or the whole effect, column by column.
module JobContracts {
  import opened Domain
  import opened Ids
  import opened PageTables
  import opened AiTables
  import opened JobProtocol
  import opened JobInvariant
  import opened JobRuns
  import opened JobCalls

  // The named actor sees the live page.
  predicate SeesPage(db: Db, actor: Actor, id: string) {
    && id in db.pages && !db.pages[id].deleted
    && db.pages[id].tenant == Trim(actor.tenant) && db.pages[id].organization == Trim(actor.organization)
  }

  function Trimmed(actor: Actor): Actor {
    Actor(Trim(actor.tenant), Trim(actor.organization), Trim(actor.operator))
  }

  predicate NamesActor(actor: Actor) {
    !IsBlank(actor.tenant) && !IsBlank(actor.organization) && !IsBlank(actor.operator)
  }

  // Text that is given.
  function Given(text: Option<string>): Option<string> {
    if text.Some? && !IsBlank(text.value) then Some(Trim(text.value)) else None
  }

  /* create_ai_job */

  predicate CreateJobIsWellFormed(cmd: CreateJobCommand) {
    && NamesActor(cmd.actor) && !IsBlank(cmd.workspaceId) && !IsBlank(cmd.key) && cmd.policyIsObject
    && Trim(cmd.jobType) in {"summarize", "rewrite", "extract_tasks", "answer", "organize", "generate"}
    && Trim(cmd.targetType) in {"page", "collection", "workspace", "selection"}
    && (Trim(cmd.targetType) in {"page", "collection"} ==> Given(cmd.targetId).Some?)
    && (Given(cmd.prompt).Some? ==> |Given(cmd.prompt).value| <= 8000)
  }

  // The target, if it is a page, is a live page of the workspace.
  predicate TargetFits(db: Db, cmd: CreateJobCommand) {
    Trim(cmd.targetType) == "page" && Given(cmd.targetId).Some? ==>
      (var id := Given(cmd.targetId).value; SeesPage(db, cmd.actor, id) && db.pages[id].workspaceId == Trim(cmd.workspaceId))
  }

  // The job was created by this actor under this key.
  predicate HasKey(j: Job, cmd: CreateJobCommand) {
    && j.tenant == Trim(cmd.actor.tenant) && j.organization == Trim(cmd.actor.organization)
    && j.createdBy == Trim(cmd.actor.operator) && j.key == Trim(cmd.key)
  }

  function NewJobRow(cmd: CreateJobCommand): Job {
    Job(StableIds.JobId(Trimmed(cmd.actor), Trim(cmd.key), cmd.payloadHash), Trim(cmd.actor.tenant), Trim(cmd.actor.organization),
        Trim(cmd.workspaceId), Trim(cmd.jobType), Trim(cmd.targetType), Given(cmd.targetId), Given(cmd.prompt),
        Queued, None, None, Trim(cmd.key), cmd.payloadHash, Trim(cmd.actor.operator), 1)
  }

  // The sources of the job: the target page, if any, at its version of this moment.
  function NewSourceRows(db: Db, cmd: CreateJobCommand): seq<Source>
    requires TargetFits(db, cmd)
  {
    if Trim(cmd.targetType) != "page" || Given(cmd.targetId).None? then []
    else
      var p := db.pages[Given(cmd.targetId).value];
      [Source(StableIds.SourceId(Trimmed(cmd.actor), Trim(cmd.workspaceId), "page", Given(cmd.targetId).value, p.versionId, p.versionNo),
              Trim(cmd.actor.tenant), Trim(cmd.actor.organization), Trim(cmd.workspaceId), NewJobRow(cmd).id,
              "page", Given(cmd.targetId), Some(p.nodeId), Some(p.versionId), Some(p.versionNo))]
  }

  // One of the ids the create would store is taken.
  predicate IdTaken(ai: AiDb, db: Db, cmd: CreateJobCommand)
    requires TargetFits(db, cmd)
  {
    || NewJobRow(cmd).id in ai.jobs
    || exists i, k :: 0 <= i < |NewSourceRows(db, cmd)| && 0 <= k < |ai.sources| && ai.sources[k].id == NewSourceRows(db, cmd)[i].id
  }

  lemma StartsJobExactly(cmd: CreateJobCommand)
    ensures StartJob(cmd)
         == if CreateJobIsWellFormed(cmd)
            then Ok(JobRequest(Trimmed(cmd.actor), Trim(cmd.workspaceId), Trim(cmd.jobType), Trim(cmd.targetType), Given(cmd.targetId),
                               Given(cmd.prompt), Trim(cmd.key), cmd.payloadHash))
            else Err(Validation)
  {
  }

  lemma TargetsExactly(db: Db, cmd: CreateJobCommand, r: JobRequest)
    requires PagesKeyed(db) && CreateJobIsWellFormed(cmd) && StartJob(cmd) == Ok(r)
    ensures if TargetFits(db, cmd)
            then SourcesForTarget(db, r).Ok? && SourceRows(JobFor(r, SourcesForTarget(db, r).value)) == NewSourceRows(db, cmd)
                 && |SourcesForTarget(db, r).value| == |NewSourceRows(db, cmd)|
            else SourcesForTarget(db, r) == Err(NotFound)
    ensures TargetFits(db, cmd) ==> QueuedJob(JobFor(r, SourcesForTarget(db, r).value)) == NewJobRow(cmd)
  {
    StartsJobExactly(cmd);
  }

  // The row of the key, by its four columns.
  lemma KeyByColumns(ai: AiDb, cmd: CreateJobCommand, r: JobRequest, id: string)
    requires JobsInv(ai) && CreateJobIsWellFormed(cmd) && StartJob(cmd) == Ok(r)
    ensures id in ai.jobs && HasKey(ai.jobs[id], cmd) <==> KeyFor(r.actor, r.key) in ai.keys && ai.keys[KeyFor(r.actor, r.key)] == id
  {
    StartsJobExactly(cmd);
    if id in ai.jobs && HasKey(ai.jobs[id], cmd) {
      assert KeyOf(ai.jobs[id]) == KeyFor(r.actor, r.key);
    }
  }

  lemma BlockedExactly(ai: AiDb, db: Db, cmd: CreateJobCommand, r: JobRequest)
    requires PagesKeyed(db) && CreateJobIsWellFormed(cmd) && StartJob(cmd) == Ok(r) && TargetFits(db, cmd)
    ensures SourcesForTarget(db, r).Ok?
    ensures InsertBlocked(ai, JobFor(r, SourcesForTarget(db, r).value)) <==> |Trim(cmd.key)| > 255 || IdTaken(ai, db, cmd)
  {
    StartsJobExactly(cmd);
    TargetsExactly(db, cmd, r);
    var sources := SourcesForTarget(db, r).value;
    if sources != [] {
      assert NewSourceRows(db, cmd)[0].id == sources[0].id;
    }
  }

  // The effect of a create that goes through.
  predicate JobCreated(ai: AiDb, db: Db, cmd: CreateJobCommand, next: AiDb, r: Result<Job>)
    requires TargetFits(db, cmd)
  {
    var j := NewJobRow(cmd);
    && r == Ok(j) && next.jobs == ai.jobs[j.id := j] && next.sources == ai.sources + NewSourceRows(db, cmd)
    && next.suggestions == ai.suggestions
  }

  // A create under a key that no job has.
  ghost predicate UnusedKeyAnswer(ai: AiDb, db: Db, cmd: CreateJobCommand, workspaceExists: bool, next: AiDb, r: Result<Job>) {
    if !workspaceExists || !TargetFits(db, cmd) then next == ai && r == Err(NotFound)
    else if |Trim(cmd.key)| > 255 then next == ai && r == Err(Internal)
    else if IdTaken(ai, db, cmd) then next == ai && r == Err(Conflict)
    else JobCreated(ai, db, cmd, next, r)
  }

  lemma InsertedAsAsked(ai: AiDb, db: Db, cmd: CreateJobCommand, r: JobRequest, sources: seq<NewSource>)
    requires AiInv(ai) && PagesKeyed(db) && CreateJobIsWellFormed(cmd) && StartJob(cmd) == Ok(r)
    requires SourcesForTarget(db, r) == Ok(sources) && TargetFits(db, cmd) && KeyFor(r.actor, r.key) !in ai.keys
    requires |Trim(cmd.key)| <= 255 && !IdTaken(ai, db, cmd)
    ensures JobCreated(ai, db, cmd, InsertAndReread(ai, r, sources).0, InsertAndReread(ai, r, sources).1)
  {
    var draft := JobFor(r, sources);
    SourcesForTargetFit(db, r);
    BlockedExactly(ai, db, cmd, r);
    InsertExactly(ai, draft);
    InsertedFind(ai, r, sources);
    InsertedJob(ai, draft);
    TargetsExactly(db, cmd, r);
  }

  // What an insert that is refused answers.
  lemma InsertRefused(ai: AiDb, r: JobRequest, sources: seq<NewSource>)
    requires InsertJob(ai, JobFor(r, sources)).1.Err? && KeyFor(r.actor, r.key) !in ai.keys
    ensures InsertAndReread(ai, r, sources) == (ai, Err(if |r.key| > 255 then Internal else Conflict))
  {
  }

  lemma UnusedKeyAnswers(ai: AiDb, db: Db, cmd: CreateJobCommand, workspaceExists: bool, r: JobRequest)
    requires AiInv(ai) && PagesKeyed(db) && CreateJobIsWellFormed(cmd) && StartJob(cmd) == Ok(r)
    requires KeyFor(r.actor, r.key) !in ai.keys
    ensures var (next, result) := CreateAiJob(ai, db, cmd, workspaceExists);
            UnusedKeyAnswer(ai, db, cmd, workspaceExists, next, result)
  {
    TargetsExactly(db, cmd, r);
    if workspaceExists && TargetFits(db, cmd) {
      var sources := SourcesForTarget(db, r).value;
      if |Trim(cmd.key)| <= 255 && !IdTaken(ai, db, cmd) {
        InsertedAsAsked(ai, db, cmd, r, sources);
      } else {
        StartsJobExactly(cmd);
        SourcesForTargetFit(db, r);
        BlockedExactly(ai, db, cmd, r);
        InsertExactly(ai, JobFor(r, sources));
        InsertRefused(ai, r, sources);
      }
    }
  }

  // A malformed command is refused; a used key answers with its job, or a conflict for another payload.
  ghost predicate CreateAnswer(ai: AiDb, db: Db, cmd: CreateJobCommand, workspaceExists: bool, next: AiDb, r: Result<Job>) {
    if !CreateJobIsWellFormed(cmd) then next == ai && r == Err(Validation)
    else
      && (forall id :: id in ai.jobs && HasKey(ai.jobs[id], cmd) ==>
            next == ai && r == if ai.jobs[id].payloadHash == cmd.payloadHash then Ok(ai.jobs[id]) else Err(Conflict))
      && ((forall id :: id in ai.jobs ==> !HasKey(ai.jobs[id], cmd)) ==> UnusedKeyAnswer(ai, db, cmd, workspaceExists, next, r))
  }

  lemma CreateJobAnswers(ai: AiDb, db: Db, cmd: CreateJobCommand, workspaceExists: bool)
    requires AiInv(ai) && PagesKeyed(db)
    ensures CreateAnswer(ai, db, cmd, workspaceExists, CreateAiJob(ai, db, cmd, workspaceExists).0, CreateAiJob(ai, db, cmd, workspaceExists).1)
  {
    StartsJobExactly(cmd);
    if CreateJobIsWellFormed(cmd) {
      var r := StartJob(cmd).value;
      var k := KeyFor(r.actor, r.key);
      if k in ai.keys {
        KeyByColumns(ai, cmd, r, ai.keys[k]);
        CreateWithUsedKey(ai, db, cmd, workspaceExists, r);
        forall id | id in ai.jobs && HasKey(ai.jobs[id], cmd) ensures id == ai.keys[k] {
          KeyByColumns(ai, cmd, r, id);
        }
      } else {
        UnusedKeyAnswers(ai, db, cmd, workspaceExists, r);
        forall id | id in ai.jobs ensures !HasKey(ai.jobs[id], cmd) {
          KeyByColumns(ai, cmd, r, id);
        }
      }
    }
  }

  // The five parts from which a create's job id is hashed.
  function IdParts(cmd: CreateJobCommand): seq<string> {
    [Trim(cmd.actor.tenant), Trim(cmd.actor.organization), Trim(cmd.actor.operator), Trim(cmd.key), cmd.payloadHash]
  }

  // The tables after a first create into empty ones.
  predicate OnlyFirst(ai: AiDb, db: Db, first: CreateJobCommand, next: AiDb) {
    && ai.jobs == map[] && CreateJobIsWellFormed(first) && TargetFits(db, first)
    && next.jobs == map[NewJobRow(first).id := NewJobRow(first)] && next.sources == NewSourceRows(db, first)
  }

  lemma FirstCreate(ai: AiDb, db: Db, first: CreateJobCommand, next: AiDb, r: Result<Job>)
    requires CreateAnswer(ai, db, first, true, next, r) && r.Ok? && ai.jobs == map[] && ai.sources == []
    ensures OnlyFirst(ai, db, first, next)
  {
  }

  lemma NoJobsNoSources(ai: AiDb)
    requires SourcesInv(ai)
    ensures ai.jobs == map[] ==> ai.sources == []
  {
    assert ai.sources != [] ==> ai.sources[0].jobId in ai.jobs;
  }

  lemma SecondCreate(ai: AiDb, db: Db, first: CreateJobCommand, next: AiDb, now: Db, second: CreateJobCommand, last: AiDb, r: Result<Job>)
    requires OnlyFirst(ai, db, first, next) && CreateAnswer(next, now, second, true, last, r)
    requires CreateJobIsWellFormed(second) && TargetFits(now, second) && |Trim(second.key)| <= 255 && Trim(second.key) != Trim(first.key)
    requires NewJobRow(first).id != NewJobRow(second).id
    requires forall i, k :: 0 <= i < |NewSourceRows(now, second)| && 0 <= k < |NewSourceRows(db, first)|
               ==> NewSourceRows(db, first)[k].id != NewSourceRows(now, second)[i].id
    ensures r == Ok(NewJobRow(second))
  {
    NotTaken(next, now, second, NewJobRow(first), NewSourceRows(db, first));
    assert !HasKey(NewJobRow(first), second);
    GoesThrough(next, now, second, last, r);
  }

  lemma GoesThrough(ai: AiDb, db: Db, cmd: CreateJobCommand, next: AiDb, r: Result<Job>)
    requires CreateAnswer(ai, db, cmd, true, next, r) && CreateJobIsWellFormed(cmd) && TargetFits(db, cmd)
    requires |Trim(cmd.key)| <= 255 && !IdTaken(ai, db, cmd) && forall id :: id in ai.jobs ==> !HasKey(ai.jobs[id], cmd)
    ensures r == Ok(NewJobRow(cmd))
  {
  }

  lemma NotTaken(ai: AiDb, now: Db, second: CreateJobCommand, j: Job, sources: seq<Source>)
    requires TargetFits(now, second) && ai.jobs == map[j.id := j] && ai.sources == sources && j.id != NewJobRow(second).id
    requires forall i, k :: 0 <= i < |NewSourceRows(now, second)| && 0 <= k < |sources| ==> sources[k].id != NewSourceRows(now, second)[i].id
    ensures !IdTaken(ai, now, second)
  {
  }

  lemma IdsApart(first: CreateJobCommand, second: CreateJobCommand)
    requires StableIds.Near(Trim(first.key), Trim(second.key)) && second.payloadHash == first.payloadHash
    requires Trimmed(second.actor) == Trimmed(first.actor)
    ensures NewJobRow(first).id != NewJobRow(second).id && Trim(second.key) != Trim(first.key)
  {
    assert StableIds.NearPart(IdParts(first), IdParts(second), 3);
    StableIds.JobIdsDiffer(Trimmed(first.actor), Trim(first.key), first.payloadHash, Trimmed(second.actor), Trim(second.key), second.payloadHash);
  }

  // Both creates, one after the other.
  lemma TwoCreates(ai: AiDb, db: Db, first: CreateJobCommand, now: Db, second: CreateJobCommand)
    requires AiInv(ai) && PagesKeyed(db) && PagesKeyed(now) && ai.jobs == map[] && CreateAiJob(ai, db, first, true).1.Ok?
    ensures var next := CreateAiJob(ai, db, first, true).0;
            OnlyFirst(ai, db, first, next)
            && CreateAnswer(next, now, second, true, CreateAiJob(next, now, second, true).0, CreateAiJob(next, now, second, true).1)
  {
    var (next, r) := CreateAiJob(ai, db, first, true);
    CreateJobAnswers(ai, db, first, true);
    CreateKeeps(ai, db, first, true);
    NoJobsNoSources(ai);
    FirstCreate(ai, db, first, next, r);
    CreateJobAnswers(next, now, second, true);
  }

  // One request under two keys that differ within three bytes creates two jobs.
  lemma SecondKeySucceeds(ai: AiDb, db: Db, first: CreateJobCommand, now: Db, second: CreateJobCommand)
    requires AiInv(ai) && PagesKeyed(db) && PagesKeyed(now) && ai.jobs == map[] && CreateAiJob(ai, db, first, true).1.Ok?
    requires CreateJobIsWellFormed(second) && Trim(second.targetType) != "page" && |Trim(second.key)| <= 255
    requires StableIds.Near(Trim(first.key), Trim(second.key)) && second.payloadHash == first.payloadHash
    requires Trimmed(second.actor) == Trimmed(first.actor)
    ensures CreateAiJob(CreateAiJob(ai, db, first, true).0, now, second, true).1 == Ok(NewJobRow(second))
  {
    var next := CreateAiJob(ai, db, first, true).0;
    TwoCreates(ai, db, first, now, second);
    IdsApart(first, second);
    SecondCreate(ai, db, first, next, now, second, CreateAiJob(next, now, second, true).0, CreateAiJob(next, now, second, true).1);
  }

  // The page is at this version, formatted as Drive does.
  predicate AtVersion(db: Db, id: string, n: nat) {
    id in db.pages && db.pages[id].versionNo == n && db.pages[id].versionId == VersionId(id, n)
  }

  // The second create is of the same request under a near key, for the page at another version.
  predicate AtNextVersion(db: Db, first: CreateJobCommand, now: Db, second: CreateJobCommand, m: nat, n: nat) {
    && Trimmed(second.actor) == Trimmed(first.actor) && Trim(second.workspaceId) == Trim(first.workspaceId)
    && Trim(first.targetType) == "page" && Trim(second.targetType) == "page"
    && Given(first.targetId) == Given(second.targetId) && Given(first.targetId).Some?
    && AtVersion(db, Given(first.targetId).value, m) && AtVersion(now, Given(first.targetId).value, n)
    && m < 10 && n < 10 && m != n
  }

  // Once the page has moved on, a second job for it goes through.
  lemma NextVersionSucceeds(ai: AiDb, db: Db, first: CreateJobCommand, now: Db, second: CreateJobCommand, m: nat, n: nat)
    requires AiInv(ai) && PagesKeyed(db) && PagesKeyed(now) && ai.jobs == map[] && CreateAiJob(ai, db, first, true).1.Ok?
    requires CreateJobIsWellFormed(second) && |Trim(second.key)| <= 255 && TargetFits(now, second)
    requires StableIds.Near(Trim(first.key), Trim(second.key)) && second.payloadHash == first.payloadHash
    requires AtNextVersion(db, first, now, second, m, n)
    ensures CreateAiJob(CreateAiJob(ai, db, first, true).0, now, second, true).1 == Ok(NewJobRow(second))
  {
    TwoCreates(ai, db, first, now, second);
    var next := CreateAiJob(ai, db, first, true).0;
    NextVersionAnswer(ai, db, first, next, now, second, m, n, CreateAiJob(next, now, second, true).0, CreateAiJob(next, now, second, true).1);
  }

  lemma NextVersionAnswer(ai: AiDb, db: Db, first: CreateJobCommand, next: AiDb, now: Db, second: CreateJobCommand, m: nat, n: nat,
                          last: AiDb, r: Result<Job>)
    requires OnlyFirst(ai, db, first, next) && CreateAnswer(next, now, second, true, last, r)
    requires CreateJobIsWellFormed(second) && |Trim(second.key)| <= 255 && TargetFits(now, second)
    requires StableIds.Near(Trim(first.key), Trim(second.key)) && second.payloadHash == first.payloadHash
    requires AtNextVersion(db, first, now, second, m, n)
    ensures r == Ok(NewJobRow(second))
  {
    IdsApart(first, second);
    SourcesApart(db, first, now, second, m, n);
    SecondCreate(ai, db, first, next, now, second, last, r);
  }

  lemma SourcesApart(db: Db, first: CreateJobCommand, now: Db, second: CreateJobCommand, m: nat, n: nat)
    requires TargetFits(db, first) && TargetFits(now, second) && AtNextVersion(db, first, now, second, m, n)
    ensures NewSourceRows(db, first)[0].id != NewSourceRows(now, second)[0].id
  {
    StableIds.NineVersionsGetDistinctSources(Trimmed(first.actor), Trim(first.workspaceId), Given(first.targetId).value, m, n);
  }

  /* claim_ai_job, cancel_ai_job, fail_ai_job */

  // The statuses in which a call changes the job, and those in which it finds its work done.
  predicate Changes(call: JobCall, status: JobStatus) {
    (call.Claim? && status == Queued) || (call.Cancel? && status in {Queued, Running}) || (call.Fail? && status == Running)
  }

  predicate Confirms(call: JobCall, status: JobStatus) {
    (call.Cancel? && status == Canceled) || (call.Fail? && status == Failed)
  }

  // The row after the call: its status, its version and, for a failure, the error it was given.
  function ChangedRow(call: JobCall, j: Job): Job {
    match call
    case Claim => j.(status := Running, version := j.version + 1)
    case Cancel => j.(status := Canceled, version := j.version + 1)
    case Fail(error) => j.(status := Failed, error := Some(error), version := j.version + 1)
  }

  lemma CallAnswers(ai: AiDb, actor: Actor, id: string, call: JobCall)
    requires JobsInv(ai)
    ensures var (next, r) := CallJob(ai, actor, id, call);
            if id !in ai.jobs || ai.jobs[id].tenant != actor.tenant || ai.jobs[id].organization != actor.organization
            then next == ai && r == Err(NotFound)
            else
              var j := ai.jobs[id];
              if Confirms(call, j.status) then next == ai && r == Ok(j)
              else if !Changes(call, j.status) then next == ai && r == Err(Conflict)
              else r == Ok(ChangedRow(call, j)) && next == ai.(jobs := ai.jobs[id := ChangedRow(call, j)])
  {
  }

  // A failed job tells the error that it was reported with, whoever asks.
  lemma FailRecordsError(ai: AiDb, actor: Actor, id: string, error: JobError)
    requires JobsInv(ai) && id in ai.jobs && ai.jobs[id].status == Running && CallJob(ai, actor, id, Fail(error)).1.Ok?
    ensures var next := CallJob(ai, actor, id, Fail(error)).0;
            id in next.jobs && next.jobs[id].status == Failed && next.jobs[id].error == Some(error)
  {
    CallAnswers(ai, actor, id, Fail(error));
  }

  /* complete_ai_job */

  // The page a suggestion is for: the one given, or the target of a page-targeted job.
  function PageFor(job: Job, input: SuggestionInput): Option<string> {
    if Given(input.pageId).Some? then Given(input.pageId)
    else if job.targetType == "page" then job.targetId
    else None
  }

  function InputError(db: Db, actor: Actor, job: Job, input: SuggestionInput): Option<Error> {
    if Trim(input.kind) !in {"summary", "rewrite", "tag", "property_update", "link_create", "task_create"} || !input.payload.isObject
    then Some(Validation)
    else
      match PageFor(job, input)
      case None => Some(Validation)
      case Some(id) =>
        if !SeesPage(db, actor, id) || db.pages[id].workspaceId != job.workspaceId then Some(NotFound)
        else if job.targetType == "page" && Some(id) != job.targetId then Some(Validation)
        else None
  }

  // The row for the input at place k, with the version that the job's source pins, if it has one.
  function SuggestionRow(actor: Actor, job: Job, sources: seq<Source>, input: SuggestionInput, k: nat): Suggestion
  {
    var id := PageFor(job, input).GetOr("");
    Suggestion(StableIds.SuggestionId(Trimmed(actor), job.id, id, Trim(input.kind), k, input.payload.text),
               Trim(actor.tenant), Trim(actor.organization), job.workspaceId, id, job.id, Trim(input.kind), Proposed,
               if sources == [] then None else sources[0].nodeId,
               if sources == [] then None else sources[0].versionId,
               if sources == [] then None else sources[0].versionNo,
               input.payload, 1)
  }

  lemma KindIn(kind: string)
    ensures NormalizeIn(kind, SUGGESTION_KINDS)
         == if Trim(kind) in {"summary", "rewrite", "tag", "property_update", "link_create", "task_create"} then Ok(Trim(kind))
            else Err(Validation)
  {
  }

  lemma PageOfInput(job: Job, sources: seq<Source>, input: SuggestionInput)
    requires SourcesFit(job, sources)
    ensures OrElse(NormalizeOptional(input.pageId), PageIdFromJob(job, sources)) == PageFor(job, input)
  {
  }

  lemma PinOfPage(job: Job, sources: seq<Source>, id: string)
    requires SourcesFit(job, sources)
    ensures FirstPageSource(sources).Some? <==> job.targetType == "page"
    ensures SourceForPage(sources, id) == if job.targetType == "page" && job.targetId == Some(id) then Some(sources[0]) else None
  {
    SourceLookups(job, sources, id);
    if job.targetType == "page" {
      assert sources[1..] == [];
    }
  }

  // One round of the loop.
  lemma BuildsExactly(db: Db, actor: Actor, normalized: Actor, job: Job, sources: seq<Source>, input: SuggestionInput, k: nat)
    requires SourcesFit(job, sources) && NormalizeActor(actor) == Ok(normalized)
    ensures BuildSuggestion(db, normalized, job, sources, input, k)
         == match InputError(db, actor, job, input)
            case Some(e) => Err(e)
            case None => Ok(SuggestionRow(actor, job, sources, input, k))
  {
    KindIn(input.kind);
    PageOfInput(job, sources, input);
    if PageFor(job, input).Some? {
      PinOfPage(job, sources, PageFor(job, input).value);
    }
  }

  // The error of the first input, from place i on, that has one.
  function FirstError(db: Db, actor: Actor, job: Job, inputs: seq<SuggestionInput>, i: nat): Option<Error>
    decreases |inputs| - i
  {
    if i >= |inputs| then None
    else if InputError(db, actor, job, inputs[i]).Some? then InputError(db, actor, job, inputs[i])
    else FirstError(db, actor, job, inputs, i + 1)
  }

  function Rows(actor: Actor, job: Job, sources: seq<Source>, inputs: seq<SuggestionInput>): (rows: seq<Suggestion>)
    ensures |rows| == |inputs|
  {
    seq(|inputs|, k requires 0 <= k < |inputs| => SuggestionRow(actor, job, sources, inputs[k], k))
  }

  lemma RowAt(actor: Actor, job: Job, sources: seq<Source>, inputs: seq<SuggestionInput>, k: nat)
    requires k < |inputs|
    ensures Rows(actor, job, sources, inputs)[k] == SuggestionRow(actor, job, sources, inputs[k], k)
  {
  }

  lemma TakeNext<T>(s: seq<T>, i: nat)
    requires i < |s|
    ensures s[..i + 1] == s[..i] + [s[i]]
  {
  }

  // One round: the loop fails on its input, or goes on behind its row.
  lemma BuildsOne(db: Db, actor: Actor, read: CompleteRead, inputs: seq<SuggestionInput>, built: seq<Suggestion>, next: seq<Suggestion>)
    requires SourcesFit(read.job, read.sources) && NormalizeActor(actor) == Ok(read.actor) && |built| < |inputs|
    requires next == built + [SuggestionRow(actor, read.job, read.sources, inputs[|built|], |built|)]
    ensures BuildAll(db, read, inputs, built)
         == match InputError(db, actor, read.job, inputs[|built|])
            case Some(e) => Err(e)
            case None => BuildAll(db, read, inputs, next)
  {
    BuildsExactly(db, actor, read.actor, read.job, read.sources, inputs[|built|], |built|);
  }

  lemma RowsGrow(actor: Actor, read: CompleteRead, inputs: seq<SuggestionInput>, rows: seq<Suggestion>, i: nat)
    requires rows == Rows(actor, read.job, read.sources, inputs) && i < |inputs|
    ensures rows[..i + 1] == rows[..i] + [SuggestionRow(actor, read.job, read.sources, inputs[i], i)]
  {
    RowAt(actor, read.job, read.sources, inputs, i);
    TakeNext(rows, i);
  }

  lemma BuiltAll(db: Db, read: CompleteRead, inputs: seq<SuggestionInput>, built: seq<Suggestion>)
    requires |built| == |inputs|
    ensures BuildAll(db, read, inputs, built) == Ok(built)
  {
  }

  lemma {:induction false} BuildsRows(db: Db, actor: Actor, read: CompleteRead, inputs: seq<SuggestionInput>, rows: seq<Suggestion>, i: nat)
    requires SourcesFit(read.job, read.sources) && NormalizeActor(actor) == Ok(read.actor)
    requires rows == Rows(actor, read.job, read.sources, inputs) && i <= |inputs|
    ensures BuildAll(db, read, inputs, rows[..i])
         == match FirstError(db, actor, read.job, inputs, i)
            case Some(e) => Err(e)
            case None => Ok(rows)
    decreases |inputs| - i
  {
    if i == |inputs| {
      assert rows[..i] == rows;
      BuiltAll(db, read, inputs, rows);
    } else {
      RowsGrow(actor, read, inputs, rows, i);
      BuildsOne(db, actor, read, inputs, rows[..i], rows[..i + 1]);
      BuildsRows(db, actor, read, inputs, rows, i + 1);
    }
  }

  // The rows have new and pairwise different ids.
  predicate AllNew(table: map<string, Suggestion>, rows: seq<Suggestion>) {
    && (forall k :: 0 <= k < |rows| ==> rows[k].id !in table)
    && (forall i, k :: 0 <= i < k < |rows| ==> rows[i].id != rows[k].id)
  }

  lemma {:induction false} InsertsExactly(table: map<string, Suggestion>, rows: seq<Suggestion>)
    ensures InsertSuggestions(table, rows).Some? <==> AllNew(table, rows)
    decreases |rows|
  {
    if rows != [] && rows[0].id !in table {
      var t, rest := table[rows[0].id := rows[0]], rows[1..];
      InsertsExactly(t, rest);
      assert AllNew(t, rest) <==> AllNew(table, rows) by {
        assert forall k :: 0 < k < |rows| ==> rows[k] == rest[k - 1];
        assert forall k :: 0 <= k < |rest| ==> rest[k] == rows[k + 1];
      }
    }
  }

  // The table with the rows, and nothing else, added.
  predicate Adds(table: map<string, Suggestion>, rows: seq<Suggestion>, next: map<string, Suggestion>) {
    && (forall id :: id in table ==> id in next && next[id] == table[id])
    && (forall k :: 0 <= k < |rows| ==> rows[k].id in next && next[rows[k].id] == rows[k])
    && (forall id :: id in next && id !in table ==> exists k :: 0 <= k < |rows| && rows[k].id == id)
  }

  predicate CompletedWith(ai: AiDb, cmd: CompleteCommand, j: Job, rows: seq<Suggestion>, next: AiDb, r: Result<Job>) {
    if !AllNew(ai.suggestions, rows) then next == ai && r == Err(Conflict)
    else
      && r == Ok(j.(status := Succeeded, result := Some(JobResult(|cmd.inputs|, Trim(cmd.actor.operator))), version := j.version + 1))
      && next.jobs == ai.jobs[j.id := r.value] && next.keys == ai.keys && next.sources == ai.sources
      && Adds(ai.suggestions, rows, next.suggestions)
  }

  predicate CompleteAnswer(ai: AiDb, db: Db, cmd: CompleteCommand, next: AiDb, r: Result<Job>) {
    var id := Trim(cmd.jobId);
    if !NamesActor(cmd.actor) || IsBlank(cmd.jobId) || cmd.inputs == [] then next == ai && r == Err(Validation)
    else if id !in ai.jobs || ai.jobs[id].tenant != Trim(cmd.actor.tenant) || ai.jobs[id].organization != Trim(cmd.actor.organization)
    then next == ai && r == Err(NotFound)
    else
      var j := ai.jobs[id];
      if j.status != Running then next == ai && r == Err(Conflict)
      else
        match FirstError(db, cmd.actor, j, cmd.inputs, 0)
        case Some(e) => next == ai && r == Err(e)
        case None => CompletedWith(ai, cmd, j, Rows(cmd.actor, j, SourcesOf(ai.sources, j), cmd.inputs), next, r)
  }

  function IdAt(actor: Actor, job: Job, input: SuggestionInput, k: nat): string {
    StableIds.SuggestionId(Trimmed(actor), job.id, PageFor(job, input).GetOr(""), Trim(input.kind), k, input.payload.text)
  }

  lemma RowId(actor: Actor, job: Job, sources: seq<Source>, inputs: seq<SuggestionInput>, input: SuggestionInput, k: nat)
    requires k < |inputs| && inputs[k] == input
    ensures Rows(actor, job, sources, inputs)[k].id == IdAt(actor, job, input, k)
  {
    RowAt(actor, job, sources, inputs, k);
  }

  lemma IdsAtDiffer(actor: Actor, job: Job, input: SuggestionInput, i: nat, k: nat)
    requires i < k < 10
    ensures IdAt(actor, job, input, i) != IdAt(actor, job, input, k)
  {
    StableIds.ThousandSuggestionsGetDistinctIds(Trimmed(actor), job.id, PageFor(job, input).GetOr(""), Trim(input.kind), i, k,
                                                input.payload.text);
  }

  // Ten equal inputs, or fewer, have different ids, so a completion never refuses them for each other.
  lemma EqualInputsGetDistinctIds(actor: Actor, job: Job, sources: seq<Source>, inputs: seq<SuggestionInput>,
                                  input: SuggestionInput, i: nat, k: nat)
    requires |inputs| <= 10 && i < k < |inputs| && inputs[i] == input && inputs[k] == input
    ensures Rows(actor, job, sources, inputs)[i].id != Rows(actor, job, sources, inputs)[k].id
  {
    RowId(actor, job, sources, inputs, input, i);
    RowId(actor, job, sources, inputs, input, k);
    IdsAtDiffer(actor, job, input, i, k);
  }

  lemma StartsCompleteExactly(ai: AiDb, cmd: CompleteCommand)
    ensures StartComplete(ai, cmd)
         == if !NamesActor(cmd.actor) || IsBlank(cmd.jobId) || cmd.inputs == [] then Err(Validation)
            else
              var id := Trim(cmd.jobId);
              if id !in ai.jobs || ai.jobs[id].tenant != Trim(cmd.actor.tenant) || ai.jobs[id].organization != Trim(cmd.actor.organization)
              then Err(NotFound)
              else if ai.jobs[id].status != Running then Err(Conflict)
              else Ok(CompleteRead(Trimmed(cmd.actor), ai.jobs[id], SourcesOf(ai.sources, ai.jobs[id])))
  {
  }

  lemma CommitsExactly(ai: AiDb, cmd: CompleteCommand, j: Job, rows: seq<Suggestion>)
    requires j.id in ai.jobs && ai.jobs[j.id] == j && j.status == Running && |rows| == |cmd.inputs|
    requires j.tenant == Trim(cmd.actor.tenant) && j.organization == Trim(cmd.actor.organization)
    ensures CompletedWith(ai, cmd, j, rows, Completed(ai, Trimmed(cmd.actor), j.id, rows).0, Completed(ai, Trimmed(cmd.actor), j.id, rows).1)
  {
    InsertsExactly(ai.suggestions, rows);
    if AllNew(ai.suggestions, rows) {
      InsertedSuggestions(ai.suggestions, rows);
    }
  }

  lemma CompleteAnswers(ai: AiDb, db: Db, cmd: CompleteCommand)
    requires JobsInv(ai) && SourcesInv(ai)
    ensures CompleteAnswer(ai, db, cmd, CompleteAiJob(ai, db, cmd).0, CompleteAiJob(ai, db, cmd).1)
  {
    StartsCompleteExactly(ai, cmd);
    if StartComplete(ai, cmd).Ok? {
      var read := StartComplete(ai, cmd).value;
      assert NormalizeActor(cmd.actor) == Ok(read.actor);
      var rows := Rows(cmd.actor, read.job, read.sources, cmd.inputs);
      assert rows[..0] == [];
      BuildsRows(db, cmd.actor, read, cmd.inputs, rows, 0);
      if FirstError(db, cmd.actor, read.job, cmd.inputs, 0).None? {
        CommitsExactly(ai, cmd, read.job, rows);
      }
    }
  }
}
