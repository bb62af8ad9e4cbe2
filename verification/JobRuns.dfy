// Every step of the job machine keeps the invariant, including what each pending call relies on.
module JobRuns {
  import opened Domain
  import opened PageTables
  import opened AiTables
  import opened JobProtocol
  import opened JobInvariant

  // The key of a request is taken by a job with the request's payload.
  predicate HashStored(ai: AiDb, r: JobRequest) {
    var k := KeyFor(r.actor, r.key);
    k in ai.keys && ai.keys[k] in ai.jobs && ai.jobs[ai.keys[k]].payloadHash == r.payloadHash
  }

  predicate Known(ai: AiDb, target: Job) {
    target.id in ai.jobs && SameOrigin(target, ai.jobs[target.id])
  }

  predicate BuiltOk(target: Job, sources: seq<Source>, built: seq<Suggestion>) {
    SourcesFit(target, sources) && forall k :: 0 <= k < |built| ==> Pinned(target, sources, built[k]) && built[k].status == Proposed
  }

  predicate JobClientOk(ai: AiDb, client: JobClient) {
    match client
    case CreateSourcing(_) => true
    case CreateInserting(r, job) => job == JobFor(r, job.sources) && NewSourcesFit(job.targetType, job.targetId, job.sources)
    case CreateRereading(r) => HashStored(ai, r)
    case CreateConflicted(_) => true
    case CallReady(_, _, _) => true
    case Sourcing(actor, target, inputs) => Known(ai, target) && JobVisible(target, actor) && inputs != []
    case Building(actor, target, sources, inputs, built) =>
      && Known(ai, target) && JobVisible(target, actor) && inputs != [] && sources == SourcesOf(ai.sources, target)
      && BuiltOk(target, sources, built)
    case Completing(actor, target, built) =>
      Known(ai, target) && built != [] && BuiltOk(target, SourcesOf(ai.sources, target), built)
  }

  predicate OutcomeOk(ai: AiDb, o: Outcome) {
    o.result.Ok? ==>
      (&& HashStored(ai, o.request) && o.result.value.id == ai.keys[KeyFor(o.request.actor, o.request.key)]
       && o.result.value.payloadHash == o.request.payloadHash)
  }

  predicate JobWorldInv(w: JobWorld) {
    && AiInv(w.ai) && PagesKeyed(w.db)
    && (forall c :: c in w.clients ==> JobClientOk(w.ai, w.clients[c]))
    && (forall c :: c in w.outcomes ==> OutcomeOk(w.ai, w.outcomes[c]))
  }

  /* What the table growth leaves alone */

  lemma KnownGrows(ai: AiDb, next: AiDb, target: Job)
    requires AiGrows(ai, next) && JobsInv(ai) && Known(ai, target)
    ensures Known(next, target) && SourcesOf(next.sources, target) == SourcesOf(ai.sources, target)
  {
    SourcesOfOrigin(ai.sources, target, ai.jobs[target.id]);
    SourcesOfOrigin(next.sources, target, ai.jobs[target.id]);
  }

  lemma ClientGrows(ai: AiDb, next: AiDb, client: JobClient)
    requires AiGrows(ai, next) && JobsInv(ai) && JobClientOk(ai, client)
    ensures JobClientOk(next, client)
  {
    match client {
      case Sourcing(_, target, _) => KnownGrows(ai, next, target);
      case Building(_, target, _, _, _) => KnownGrows(ai, next, target);
      case Completing(_, target, _) => KnownGrows(ai, next, target);
      case _ =>
    }
  }

  // A step that grows the tables, keeps all clients but one and settles at most that one.
  lemma Rest(w: JobWorld, next: JobWorld, c: nat)
    requires JobWorldInv(w) && AiInv(next.ai) && AiGrows(w.ai, next.ai) && next.db == w.db
    requires forall d :: d in next.clients && d != c ==> d in w.clients && next.clients[d] == w.clients[d]
    requires forall d :: d in next.outcomes && d != c ==> d in w.outcomes && next.outcomes[d] == w.outcomes[d]
    requires c in next.clients ==> JobClientOk(next.ai, next.clients[c])
    requires c in next.outcomes ==>
               (OutcomeOk(next.ai, next.outcomes[c]) || (c in w.outcomes && next.outcomes[c] == w.outcomes[c]))
    ensures JobWorldInv(next)
  {
    forall d | d in next.clients && d != c ensures JobClientOk(next.ai, next.clients[d]) {
      ClientGrows(w.ai, next.ai, w.clients[d]);
    }
  }

  // The same, for a step that leaves the tables alone.
  lemma Unchanged(w: JobWorld, next: JobWorld, c: nat)
    requires JobWorldInv(w) && next.ai == w.ai && next.db == w.db
    requires forall d :: d in next.clients && d != c ==> d in w.clients && next.clients[d] == w.clients[d]
    requires forall d :: d in next.outcomes && d != c ==> d in w.outcomes && next.outcomes[d] == w.outcomes[d]
    requires c in next.clients ==> JobClientOk(next.ai, next.clients[c])
    requires c in next.outcomes ==>
               (OutcomeOk(next.ai, next.outcomes[c]) || (c in w.outcomes && next.outcomes[c] == w.outcomes[c]))
    ensures JobWorldInv(next) && AiGrows(w.ai, next.ai)
  {
  }

  /* create_ai_job */

  lemma CreateReadKeeps(w: JobWorld, c: nat, cmd: CreateJobCommand)
    requires JobWorldInv(w)
    ensures JobWorldInv(CreateRead(w, c, cmd)) && CreateRead(w, c, cmd).ai == w.ai
  {
    Unchanged(w, CreateRead(w, c, cmd), c);
  }

  lemma SourcesForTargetFit(db: Db, r: JobRequest)
    requires PagesKeyed(db) && SourcesForTarget(db, r).Ok?
    ensures NewSourcesFit(r.targetType, r.targetId, SourcesForTarget(db, r).value)
  {
  }

  lemma CreateSourcesKeeps(w: JobWorld, c: nat, workspaceExists: bool)
    requires JobWorldInv(w) && c in w.clients && w.clients[c].CreateSourcing?
    ensures JobWorldInv(CreateSources(w, c, workspaceExists)) && CreateSources(w, c, workspaceExists).ai == w.ai
  {
    var request := w.clients[c].request;
    if SourcesForTarget(w.db, request).Ok? {
      SourcesForTargetFit(w.db, request);
    }
    Unchanged(w, CreateSources(w, c, workspaceExists), c);
  }

  lemma InsertStoresHash(ai: AiDb, client: JobClient)
    requires client.CreateInserting? && JobClientOk(ai, client) && InsertJob(ai, client.job).1.Ok?
    ensures HashStored(InsertJob(ai, client.job).0, client.request)
  {
  }

  lemma StoredKeeps(w: JobWorld, c: nat)
    requires JobWorldInv(w) && c in w.clients && w.clients[c].CreateInserting?
    requires InsertJob(w.ai, w.clients[c].job).1.Ok?
    ensures JobWorldInv(CreateInsert(w, c)) && AiGrows(w.ai, CreateInsert(w, c).ai)
  {
    var ai := InsertJob(w.ai, w.clients[c].job).0;
    var next := CreateInsert(w, c);
    assert next == Go(w.(ai := ai), c, CreateRereading(w.clients[c].request));
    InsertKeeps(w.ai, w.clients[c].job);
    InsertStoresHash(w.ai, w.clients[c]);
    Rest(w, next, c);
  }

  lemma CreateInsertKeeps(w: JobWorld, c: nat)
    requires JobWorldInv(w) && c in w.clients && w.clients[c].CreateInserting?
    ensures JobWorldInv(CreateInsert(w, c)) && AiGrows(w.ai, CreateInsert(w, c).ai)
  {
    if InsertJob(w.ai, w.clients[c].job).1.Ok? {
      StoredKeeps(w, c);
    } else {
      Unchanged(w, CreateInsert(w, c), c);
    }
  }

  lemma CreateRereadKeeps(w: JobWorld, c: nat)
    requires JobWorldInv(w)
    ensures JobWorldInv(CreateReread(w, c)) && CreateReread(w, c).ai == w.ai
  {
    Unchanged(w, CreateReread(w, c), c);
  }

  /* claim, cancel, fail */

  lemma CallReadKeeps(w: JobWorld, c: nat, actor: Actor, id: string, call: JobCall)
    requires JobWorldInv(w)
    ensures JobWorldInv(CallRead(w, c, actor, id, call)) && CallRead(w, c, actor, id, call).ai == w.ai
  {
    Unchanged(w, CallRead(w, c, actor, id, call), c);
  }

  lemma CallUpdateKeeps(w: JobWorld, c: nat)
    requires JobWorldInv(w) && c in w.clients && w.clients[c].CallReady?
    ensures JobWorldInv(CallUpdate(w, c)) && AiGrows(w.ai, CallUpdate(w, c).ai)
  {
    UpdateKeeps(w.ai, w.clients[c].actor, w.clients[c].jobId, w.clients[c].call);
    Rest(w, CallUpdate(w, c), c);
  }

  /* complete_ai_job */

  lemma CompleteReadKeeps(w: JobWorld, c: nat, actor: Actor, id: string, inputs: seq<SuggestionInput>)
    requires JobWorldInv(w)
    ensures JobWorldInv(CompleteRead(w, c, actor, id, inputs)) && CompleteRead(w, c, actor, id, inputs).ai == w.ai
  {
    Unchanged(w, CompleteRead(w, c, actor, id, inputs), c);
  }

  lemma KnownSourcesFit(ai: AiDb, target: Job)
    requires JobsInv(ai) && SourcesInv(ai) && Known(ai, target)
    ensures SourcesFit(target, SourcesOf(ai.sources, target))
    ensures SourcesOf(ai.sources, target) == SourcesOf(ai.sources, ai.jobs[target.id])
  {
    SourcesOfOrigin(ai.sources, target, ai.jobs[target.id]);
  }

  lemma CompleteSourcesKeeps(w: JobWorld, c: nat)
    requires JobWorldInv(w) && c in w.clients && w.clients[c].Sourcing?
    ensures JobWorldInv(CompleteSources(w, c)) && CompleteSources(w, c).ai == w.ai
  {
    KnownSourcesFit(w.ai, w.clients[c].target);
    Unchanged(w, CompleteSources(w, c), c);
  }

  lemma SourceLookups(job: Job, sources: seq<Source>, pageId: string)
    requires SourcesFit(job, sources)
    ensures job.targetType == "page" ==>
              (&& FirstPageSource(sources) == Some(sources[0])
               && (SourceForPage(sources, pageId).Some? ==> job.targetId == Some(pageId) && SourceForPage(sources, pageId).value == sources[0]))
    ensures job.targetType != "page" ==> SourceForPage(sources, pageId).None?
  {
    if job.targetType == "page" {
      assert sources[1..] == [] && SourceForPage(sources[1..], pageId) == None;
    }
  }

  // The loop body refuses any page other than the pinned one.
  lemma BuiltIsPinned(db: Db, actor: Actor, job: Job, sources: seq<Source>, input: SuggestionInput, index: nat)
    requires SourcesFit(job, sources) && JobVisible(job, actor)
    requires BuildSuggestion(db, actor, job, sources, input, index).Ok?
    ensures Pinned(job, sources, BuildSuggestion(db, actor, job, sources, input, index).value)
    ensures BuildSuggestion(db, actor, job, sources, input, index).value.status == Proposed
  {
    var pageId := OrElse(NormalizeOptional(input.pageId), PageIdFromJob(job, sources));
    SourceLookups(job, sources, pageId.value);
  }

  lemma BuildKeepsClient(ai: AiDb, db: Db, client: JobClient)
    requires client.Building? && JobClientOk(ai, client) && |client.built| < |client.inputs|
    requires BuildSuggestion(db, client.actor, client.target, client.sources, client.inputs[|client.built|], |client.built|).Ok?
    ensures var sg := BuildSuggestion(db, client.actor, client.target, client.sources, client.inputs[|client.built|], |client.built|).value;
            JobClientOk(ai, Building(client.actor, client.target, client.sources, client.inputs, client.built + [sg]))
  {
    BuiltIsPinned(db, client.actor, client.target, client.sources, client.inputs[|client.built|], |client.built|);
  }

  lemma CompleteBuildKeeps(w: JobWorld, c: nat)
    requires JobWorldInv(w) && c in w.clients && w.clients[c].Building?
    ensures JobWorldInv(CompleteBuild(w, c)) && CompleteBuild(w, c).ai == w.ai
  {
    var client := w.clients[c];
    var next := CompleteBuild(w, c);
    assert c in next.clients ==> JobClientOk(w.ai, next.clients[c]) by {
      var i := |client.built|;
      if i < |client.inputs| && BuildSuggestion(w.db, client.actor, client.target, client.sources, client.inputs[i], i).Ok? {
        BuildKeepsClient(w.ai, w.db, client);
      }
    }
    Unchanged(w, next, c);
  }

  lemma CheckKeepsClient(ai: AiDb, client: JobClient)
    requires client.Building? && JobClientOk(ai, client) && |client.built| >= |client.inputs|
    ensures JobClientOk(ai, Completing(client.actor, client.target, client.built))
  {
  }

  lemma CompleteCheckKeeps(w: JobWorld, c: nat)
    requires JobWorldInv(w) && c in w.clients && w.clients[c].Building?
    ensures JobWorldInv(CompleteCheck(w, c)) && CompleteCheck(w, c).ai == w.ai
  {
    var client := w.clients[c];
    var next := CompleteCheck(w, c);
    assert c in next.clients ==> JobClientOk(w.ai, next.clients[c]) by {
      if |client.built| >= |client.inputs| {
        CheckKeepsClient(w.ai, client);
      }
    }
    Unchanged(w, next, c);
  }

  lemma CompletingRowsFit(ai: AiDb, target: Job, built: seq<Suggestion>)
    requires JobsInv(ai) && SourcesInv(ai) && Known(ai, target)
    requires built != [] && BuiltOk(target, SourcesOf(ai.sources, target), built)
    ensures RowsFit(ai, target.id, built)
  {
    KnownSourcesFit(ai, target);
  }

  lemma CompleteCommitKeeps(w: JobWorld, c: nat)
    requires JobWorldInv(w) && c in w.clients && w.clients[c].Completing?
    ensures JobWorldInv(CompleteCommit(w, c)) && AiGrows(w.ai, CompleteCommit(w, c).ai)
  {
    var client := w.clients[c];
    CompletingRowsFit(w.ai, client.target, client.built);
    CompleteKeeps(w.ai, client.actor, client.target.id, client.built);
    Rest(w, CompleteCommit(w, c), c);
  }

  lemma MarkSuggestionKeeps(w: JobWorld, id: string, status: SuggestionStatus)
    requires JobWorldInv(w)
    ensures JobWorldInv(MarkSuggestion(w, id, status)) && AiGrows(w.ai, MarkSuggestion(w, id, status).ai)
  {
    if id in w.ai.suggestions {
      StatusKeeps(w.ai, id, status);
      Rest(w, MarkSuggestion(w, id, status), 0) by {
        var next := MarkSuggestion(w, id, status);
        if 0 in w.clients {
          ClientGrows(w.ai, next.ai, w.clients[0]);
        }
      }
    }
  }

  /* Every step, every run */

  // The steps of create_ai_job.
  predicate OfCreate(step: JobStep) {
    step.StepCreateRead? || step.StepCreateSources? || step.StepCreateInsert? || step.StepCreateReread?
  }

  lemma CreateStepKeeps(w: JobWorld, step: JobStep)
    requires JobWorldInv(w) && OfCreate(step)
    ensures JobWorldInv(NextJob(w, step)) && AiGrows(w.ai, NextJob(w, step).ai)
  {
    match step {
      case StepCreateRead(c, cmd) => CreateReadKeeps(w, c, cmd);
      case StepCreateSources(c, found) => if c in w.clients && w.clients[c].CreateSourcing? { CreateSourcesKeeps(w, c, found); }
      case StepCreateInsert(c) => if c in w.clients && w.clients[c].CreateInserting? { CreateInsertKeeps(w, c); }
      case StepCreateReread(c) => CreateRereadKeeps(w, c);
    }
  }

  lemma OtherStepKeeps(w: JobWorld, step: JobStep)
    requires JobWorldInv(w) && !OfCreate(step)
    ensures JobWorldInv(NextJob(w, step)) && AiGrows(w.ai, NextJob(w, step).ai)
  {
    match step {
      case StepCallRead(c, actor, id, call) => CallReadKeeps(w, c, actor, id, call);
      case StepCallUpdate(c) => if c in w.clients && w.clients[c].CallReady? { CallUpdateKeeps(w, c); }
      case StepCompleteRead(c, actor, id, inputs) => CompleteReadKeeps(w, c, actor, id, inputs);
      case StepCompleteSources(c) => if c in w.clients && w.clients[c].Sourcing? { CompleteSourcesKeeps(w, c); }
      case StepCompleteBuild(c) => if c in w.clients && w.clients[c].Building? { CompleteBuildKeeps(w, c); }
      case StepCompleteCheck(c) => if c in w.clients && w.clients[c].Building? { CompleteCheckKeeps(w, c); }
      case StepCompleteCommit(c) => if c in w.clients && w.clients[c].Completing? { CompleteCommitKeeps(w, c); }
      case StepSuggestionStatus(id, status) => MarkSuggestionKeeps(w, id, status);
      case StepEnvironment(db) =>
      case StepVanish(c) =>
    }
  }

  lemma NextJobKeeps(w: JobWorld, step: JobStep)
    requires JobWorldInv(w)
    ensures JobWorldInv(NextJob(w, step)) && AiGrows(w.ai, NextJob(w, step).ai)
  {
    if OfCreate(step) {
      CreateStepKeeps(w, step);
    } else {
      OtherStepKeeps(w, step);
    }
  }

  lemma {:induction false} JobRunsAreSound(steps: seq<JobStep>)
    ensures JobWorldInv(RunJobs(steps))
  {
    if steps != [] {
      JobRunsAreSound(steps[..|steps| - 1]);
      NextJobKeeps(RunJobs(steps[..|steps| - 1]), steps[|steps| - 1]);
    }
  }
}
