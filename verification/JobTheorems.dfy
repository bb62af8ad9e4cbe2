// What holds of AI jobs over every run of the job machine.
module JobTheorems {
  import opened Domain
  import opened PageTables
  import opened AiTables
  import opened JobProtocol
  import opened JobInvariant
  import opened JobRuns

  function JobsAfter(steps: seq<JobStep>): map<string, Job> {
    RunJobs(steps).ai.jobs
  }

  lemma RunsGrow(steps: seq<JobStep>)
    requires steps != []
    ensures AiGrows(RunJobs(steps[..|steps| - 1]).ai, RunJobs(steps).ai)
  {
    JobRunsAreSound(steps[..|steps| - 1]);
    NextJobKeeps(RunJobs(steps[..|steps| - 1]), steps[|steps| - 1]);
  }

  /* Status histories */

  // The statuses a job has gone through, oldest first.
  function StatusHistory(steps: seq<JobStep>, id: string): seq<JobStatus> {
    if steps == [] || id !in JobsAfter(steps) then []
    else
      var before, now := steps[..|steps| - 1], JobsAfter(steps)[id].status;
      if id in JobsAfter(before) && JobsAfter(before)[id].status == now then StatusHistory(before, id)
      else StatusHistory(before, id) + [now]
  }

  const STATUS_PATHS: set<seq<JobStatus>> := {
    [Queued], [Queued, Canceled], [Queued, Running],
    [Queued, Running, Canceled], [Queued, Running, Succeeded], [Queued, Running, Failed]
  }

  // A job's history is one of six paths, it ends in the current status, and the row version is its
  // length: one plus the number of transitions, at most three.
  lemma {:induction false} HistoryIsAPath(steps: seq<JobStep>, id: string)
    ensures id !in JobsAfter(steps) ==> StatusHistory(steps, id) == []
    ensures id in JobsAfter(steps) ==>
              (var h := StatusHistory(steps, id);
               && h in STATUS_PATHS && h[|h| - 1] == JobsAfter(steps)[id].status && JobsAfter(steps)[id].version == |h| <= 3)
  {
    if steps != [] {
      var before := steps[..|steps| - 1];
      HistoryIsAPath(before, id);
      RunsGrow(steps);
      JobRunsAreSound(steps);
      if id in JobsAfter(steps) {
        HistoryExtends(steps, id);
      }
    }
  }

  lemma HistoryExtends(steps: seq<JobStep>, id: string)
    requires steps != [] && id in JobsAfter(steps) && JobRowOk(JobsAfter(steps)[id])
    requires var before := steps[..|steps| - 1];
             if id in JobsAfter(before)
             then (&& JobMoves(JobsAfter(before)[id], JobsAfter(steps)[id])
                   && var h := StatusHistory(before, id);
                      h in STATUS_PATHS && h[|h| - 1] == JobsAfter(before)[id].status && JobsAfter(before)[id].version == |h|)
             else JobsAfter(steps)[id].status == Queued && StatusHistory(before, id) == []
    ensures var h := StatusHistory(steps, id);
            h in STATUS_PATHS && h[|h| - 1] == JobsAfter(steps)[id].status && JobsAfter(steps)[id].version == |h| <= 3
  {
    var before := steps[..|steps| - 1];
    var now := JobsAfter(steps)[id].status;
    if id !in JobsAfter(before) {
      assert StatusHistory(steps, id) == [Queued];
    } else if JobsAfter(before)[id].status != now {
      PathExtends(StatusHistory(before, id), JobsAfter(before)[id].status, now);
    }
  }

  lemma PathExtends(h: seq<JobStatus>, from: JobStatus, to: JobStatus)
    requires h in STATUS_PATHS && h[|h| - 1] == from && Edge(from, to)
    ensures h + [to] in STATUS_PATHS
  {
    if from == Queued {
      assert h + [to] == [Queued, to];
    } else {
      assert h + [to] == [Queued, Running, to];
    }
  }

  /* Rows over time */

  predicate Terminal(status: JobStatus) {
    status == Succeeded || status == Failed || status == Canceled
  }

  // LaterJob rows of a job have the same columns of origin, a version at least as high, and are the
  // same row if the version is the same or the job had ended.
  predicate LaterJob(j: Job, k: Job) {
    SameOrigin(j, k) && k.version >= j.version && (k.version == j.version || Terminal(j.status) ==> k == j)
  }

  lemma LaterTransitive(i: Job, j: Job, k: Job)
    requires LaterJob(i, j) && JobMoves(j, k)
    ensures LaterJob(i, k)
  {
  }

  lemma {:induction false} JobsOnlyMoveOn(steps: seq<JobStep>, i: nat, id: string)
    requires i <= |steps| && id in JobsAfter(steps[..i])
    ensures id in JobsAfter(steps) && LaterJob(JobsAfter(steps[..i])[id], JobsAfter(steps)[id])
  {
    if i == |steps| {
      assert steps[..i] == steps;
    } else {
      var before := steps[..|steps| - 1];
      assert before[..i] == steps[..i];
      JobsOnlyMoveOn(before, i, id);
      RunsGrow(steps);
      LaterTransitive(JobsAfter(steps[..i])[id], JobsAfter(before)[id], JobsAfter(steps)[id]);
    }
  }

  // Terminal states absorb: the whole row stays as it was when the job ended.
  lemma EndedJobsStay(steps: seq<JobStep>, i: nat, id: string)
    requires i <= |steps| && id in JobsAfter(steps[..i]) && Terminal(JobsAfter(steps[..i])[id].status)
    ensures id in JobsAfter(steps) && JobsAfter(steps)[id] == JobsAfter(steps[..i])[id]
  {
    JobsOnlyMoveOn(steps, i, id);
  }

  /* Races for one job */

  predicate CallWins(w: JobWorld, step: JobStep, id: string, call: JobCall) {
    && step.StepCallUpdate? && step.client in w.clients && w.clients[step.client].CallReady?
    && w.clients[step.client].jobId == id && w.clients[step.client].call == call
    && UpdateJob(w.ai, w.clients[step.client].actor, id, call).1
  }

  predicate CompletionWins(w: JobWorld, step: JobStep, id: string) {
    && step.StepCompleteCommit? && step.client in w.clients && w.clients[step.client].Completing?
    && w.clients[step.client].target.id == id
    && CompleteJob(w.ai, w.clients[step.client].actor, id, w.clients[step.client].built).1.Ok?
  }

  // The step takes the job from one of the `from` statuses to `to`.
  predicate TakesJob(before: map<string, Job>, after: map<string, Job>, id: string, from: set<JobStatus>, to: JobStatus) {
    && id in before && id in after && before[id].status in from && after[id].status == to
    && after[id].version == before[id].version + 1
  }

  lemma CallTakes(w: JobWorld, step: JobStep, id: string, call: JobCall)
    requires JobsInv(w.ai) && CallWins(w, step, id, call)
    ensures var after := NextJob(w, step).ai.jobs;
            match call
            case Claim => TakesJob(w.ai.jobs, after, id, {Queued}, Running)
            case Cancel => TakesJob(w.ai.jobs, after, id, {Queued, Running}, Canceled)
            case Fail(_) => TakesJob(w.ai.jobs, after, id, {Running}, Failed)
  {
  }

  lemma CompletionTakes(w: JobWorld, step: JobStep, id: string)
    requires JobsInv(w.ai) && CompletionWins(w, step, id)
    ensures TakesJob(w.ai.jobs, NextJob(w, step).ai.jobs, id, {Running}, Succeeded)
  {
  }

  predicate ClaimedAt(steps: seq<JobStep>, i: nat, id: string)
    requires i < |steps|
  {
    CallWins(RunJobs(steps[..i]), steps[i], id, Claim)
  }

  ghost predicate EndedAt(steps: seq<JobStep>, i: nat, id: string)
    requires i < |steps|
  {
    var w := RunJobs(steps[..i]);
    CallWins(w, steps[i], id, Cancel) || (exists e :: CallWins(w, steps[i], id, Fail(e))) || CompletionWins(w, steps[i], id)
  }

  lemma ClaimedRow(steps: seq<JobStep>, i: nat, id: string)
    requires i < |steps| && ClaimedAt(steps, i, id)
    ensures TakesJob(JobsAfter(steps[..i]), JobsAfter(steps[..i + 1]), id, {Queued}, Running)
    ensures JobsAfter(steps[..i])[id].version == 1
  {
    JobRunsAreSound(steps[..i]);
    CallTakes(RunJobs(steps[..i]), steps[i], id, Claim);
    RunJobsNext(steps, i);
  }

  lemma EndedRow(steps: seq<JobStep>, i: nat, id: string)
    requires i < |steps| && EndedAt(steps, i, id)
    ensures id in JobsAfter(steps[..i]) && !Terminal(JobsAfter(steps[..i])[id].status)
    ensures id in JobsAfter(steps[..i + 1]) && Terminal(JobsAfter(steps[..i + 1])[id].status)
  {
    var w := RunJobs(steps[..i]);
    JobRunsAreSound(steps[..i]);
    RunJobsNext(steps, i);
    if CallWins(w, steps[i], id, Cancel) {
      CallTakes(w, steps[i], id, Cancel);
    } else if CompletionWins(w, steps[i], id) {
      CompletionTakes(w, steps[i], id);
    } else {
      var e :| CallWins(w, steps[i], id, Fail(e));
      CallTakes(w, steps[i], id, Fail(e));
    }
  }

  // At most one claim of a job succeeds.
  lemma AtMostOneClaim(steps: seq<JobStep>, i: nat, k: nat, id: string)
    requires i < |steps| && k < |steps| && ClaimedAt(steps, i, id) && ClaimedAt(steps, k, id)
    ensures i == k
  {
    if i < k {
      NoLaterClaim(steps, i, k, id);
    } else if k < i {
      NoLaterClaim(steps, k, i, id);
    }
  }

  lemma NoLaterClaim(steps: seq<JobStep>, i: nat, k: nat, id: string)
    requires i < k < |steps| && ClaimedAt(steps, i, id)
    ensures !ClaimedAt(steps, k, id)
  {
    ClaimedRow(steps, i, id);
    assert steps[..k][..i + 1] == steps[..i + 1];
    JobsOnlyMoveOn(steps[..k], i + 1, id);
    if ClaimedAt(steps, k, id) {
      ClaimedRow(steps, k, id);
    }
  }

  // At most one cancellation, completion or failure of a job succeeds, counted together.
  lemma AtMostOneEnd(steps: seq<JobStep>, i: nat, k: nat, id: string)
    requires i < |steps| && k < |steps| && EndedAt(steps, i, id) && EndedAt(steps, k, id)
    ensures i == k
  {
    if i < k {
      NoLaterEnd(steps, i, k, id);
    } else if k < i {
      NoLaterEnd(steps, k, i, id);
    }
  }

  lemma NoLaterEnd(steps: seq<JobStep>, i: nat, k: nat, id: string)
    requires i < k < |steps| && EndedAt(steps, i, id)
    ensures !EndedAt(steps, k, id)
  {
    EndedRow(steps, i, id);
    assert steps[..k][..i + 1] == steps[..i + 1];
    EndedJobsStay(steps[..k], i + 1, id);
    if EndedAt(steps, k, id) {
      EndedRow(steps, k, id);
    }
  }

  /* Suggestions */

  // Suggestions exist exactly for succeeded jobs, as many as the job's result records.
  lemma SuggestionsOfSucceededJobs(steps: seq<JobStep>, id: string)
    requires id in JobsAfter(steps)
    ensures var j, ids := JobsAfter(steps)[id], SuggestionIds(RunJobs(steps).ai.suggestions, id);
            && (ids != {} <==> j.status == Succeeded)
            && (j.status == Succeeded ==> j.result.Some? && j.result.value.suggestionCount == |ids|)
  {
    JobRunsAreSound(steps);
    var ids := SuggestionIds(RunJobs(steps).ai.suggestions, id);
    if ids != {} {
      var sg :| sg in ids;
      assert RunJobs(steps).ai.suggestions[sg].jobId == id;
    } else {
      assert |ids| == 0;
    }
  }

  // A completion stores all its rows under new ids and ends the job, or it changes nothing.
  lemma CompletionIsAllOrNothing(ai: AiDb, actor: Actor, id: string, rows: seq<Suggestion>)
    requires JobsInv(ai)
    ensures var (next, r) := CompleteJob(ai, actor, id, rows);
            && (r.Err? ==> next == ai)
            && (r.Ok? ==>
                  (&& id in ai.jobs && ai.jobs[id].status == Running && next.jobs[id].status == Succeeded
                   && |next.suggestions| == |ai.suggestions| + |rows|
                   && (forall k :: 0 <= k < |rows| ==> rows[k].id !in ai.suggestions && rows[k].id in next.suggestions
                                                       && next.suggestions[rows[k].id] == rows[k])
                   && (forall s :: s in ai.suggestions ==> s in next.suggestions && next.suggestions[s] == ai.suggestions[s])))
  {
    if InsertSuggestions(ai.suggestions, rows).Some? {
      InsertedSuggestions(ai.suggestions, rows);
    }
  }

  /* create_ai_job */

  // However create calls interleave, those that succeed with one actor and key return one job, the
  // one stored under that key, and all of them had the same payload.
  lemma OneJobPerKey(steps: seq<JobStep>, a: nat, b: nat)
    requires var o := RunJobs(steps).outcomes;
             && a in o && b in o && o[a].result.Ok? && o[b].result.Ok?
             && KeyFor(o[a].request.actor, o[a].request.key) == KeyFor(o[b].request.actor, o[b].request.key)
    ensures var o := RunJobs(steps).outcomes;
            && o[a].result.value.id == o[b].result.value.id && o[a].request.payloadHash == o[b].request.payloadHash
            && o[a].result.value.id in JobsAfter(steps)
  {
    JobRunsAreSound(steps);
  }

  lemma OneRowPerKey(steps: seq<JobStep>, i: string, k: string)
    requires i in JobsAfter(steps) && k in JobsAfter(steps) && KeyOf(JobsAfter(steps)[i]) == KeyOf(JobsAfter(steps)[k])
    ensures i == k
  {
    JobRunsAreSound(steps);
    assert RunJobs(steps).ai.keys[KeyOf(JobsAfter(steps)[i])] == i;
  }

  // A different payload under a used key is refused at the first read and stores nothing.
  lemma ReusedKeyConflicts(w: JobWorld, c: nat, cmd: CreateJobCommand)
    requires JobWorldInv(w) && Fresh(w, c) && StartJob(cmd).Ok?
    requires var r := StartJob(cmd).value; KeyFor(r.actor, r.key) in w.ai.keys && !HashStored(w.ai, r)
    ensures var next := NextJob(w, StepCreateRead(c, cmd));
            next.ai == w.ai && c in next.outcomes && next.outcomes[c].result == Err(Conflict)
  {
  }

  /* Pinned versions */

  // At some moment of the run the page was at this version.
  predicate VersionSeen(steps: seq<JobStep>, pageId: string, nodeId: Option<string>, versionId: Option<string>,
                        versionNo: Option<int>) {
    exists i :: 0 <= i <= |steps| && CurrentIn(RunJobs(steps[..i]).db, pageId, nodeId, versionId, versionNo)
  }

  predicate CurrentIn(db: Db, pageId: string, nodeId: Option<string>, versionId: Option<string>, versionNo: Option<int>) {
    && pageId in db.pages && nodeId == Some(db.pages[pageId].nodeId)
    && versionId == Some(db.pages[pageId].versionId) && versionNo == Some(db.pages[pageId].versionNo)
  }

  predicate SourceSeen(steps: seq<JobStep>, sourceId: Option<string>, nodeId: Option<string>, versionId: Option<string>,
                       versionNo: Option<int>) {
    sourceId.Some? && VersionSeen(steps, sourceId.value, nodeId, versionId, versionNo)
  }

  predicate NewSourcesSeen(steps: seq<JobStep>, sources: seq<NewSource>) {
    forall i :: 0 <= i < |sources| ==>
      SourceSeen(steps, sources[i].sourceId, sources[i].nodeId, sources[i].versionId, sources[i].versionNo)
  }

  predicate SourcesSeen(steps: seq<JobStep>, sources: seq<Source>) {
    forall i :: 0 <= i < |sources| ==>
      SourceSeen(steps, sources[i].sourceId, sources[i].nodeId, sources[i].versionId, sources[i].versionNo)
  }

  predicate ClientsSeen(steps: seq<JobStep>, clients: map<nat, JobClient>) {
    forall c :: c in clients && clients[c].CreateInserting? ==> NewSourcesSeen(steps, clients[c].job.sources)
  }

  lemma SeenStays(steps: seq<JobStep>, n: nat)
    requires n <= |steps|
    ensures forall p, nd, v, k :: SourceSeen(steps[..n], p, nd, v, k) ==> SourceSeen(steps, p, nd, v, k)
  {
    forall p, nd, v, k | SourceSeen(steps[..n], p, nd, v, k)
      ensures SourceSeen(steps, p, nd, v, k)
    {
      var i :| 0 <= i <= n && CurrentIn(RunJobs(steps[..n][..i]).db, p.value, nd, v, k);
      assert steps[..n][..i] == steps[..i];
    }
  }

  lemma {:induction false} AllSourcesSeen(steps: seq<JobStep>)
    ensures SourcesSeen(steps, RunJobs(steps).ai.sources) && ClientsSeen(steps, RunJobs(steps).clients)
  {
    if steps != [] {
      var n := |steps| - 1;
      AllSourcesSeen(steps[..n]);
      SeenStays(steps, n);
      JobRunsAreSound(steps[..n]);
      var w := RunJobs(steps[..n]);
      assert SourcesSeen(steps, w.ai.sources) && ClientsSeen(steps, w.clients);
      if steps[n].StepCreateSources? {
        SourcesStepSeen(steps, n);
      } else if steps[n].StepCreateInsert? {
        InsertStepSeen(steps, w, steps[n].client);
      } else {
        OtherStepSeen(steps, w, steps[n]);
      }
    }
  }

  lemma TargetSourcesSeen(steps: seq<JobStep>, n: nat, r: JobRequest)
    requires n <= |steps| && PagesKeyed(RunJobs(steps[..n]).db) && SourcesForTarget(RunJobs(steps[..n]).db, r).Ok?
    ensures NewSourcesSeen(steps, SourcesForTarget(RunJobs(steps[..n]).db, r).value)
  {
    var db := RunJobs(steps[..n]).db;
    var sources := SourcesForTarget(db, r).value;
    if sources != [] {
      assert CurrentIn(db, sources[0].sourceId.value, sources[0].nodeId, sources[0].versionId, sources[0].versionNo);
    }
  }

  lemma SourcesStepSeen(steps: seq<JobStep>, n: nat)
    requires n + 1 == |steps| && steps[n].StepCreateSources? && PagesKeyed(RunJobs(steps[..n]).db)
    requires ClientsSeen(steps, RunJobs(steps[..n]).clients) && SourcesSeen(steps, RunJobs(steps[..n]).ai.sources)
    ensures ClientsSeen(steps, RunJobs(steps).clients) && SourcesSeen(steps, RunJobs(steps).ai.sources)
  {
    var w, c := RunJobs(steps[..n]), steps[n].client;
    if c in w.clients && w.clients[c].CreateSourcing? && SourcesForTarget(w.db, w.clients[c].request).Ok? {
      TargetSourcesSeen(steps, n, w.clients[c].request);
    }
  }

  lemma InsertedSourcesSeen(steps: seq<JobStep>, ai: AiDb, job: NewJob)
    requires SourcesSeen(steps, ai.sources) && NewSourcesSeen(steps, job.sources)
    requires NewSourcesFit(job.targetType, job.targetId, job.sources)
    ensures SourcesSeen(steps, InsertJob(ai, job).0.sources)
  {
    if InsertJob(ai, job).1.Ok? {
      InsertedJob(ai, job);
    }
  }

  lemma InsertStepSeen(steps: seq<JobStep>, w: JobWorld, c: nat)
    requires JobWorldInv(w) && ClientsSeen(steps, w.clients) && SourcesSeen(steps, w.ai.sources)
    ensures var next := NextJob(w, StepCreateInsert(c));
            ClientsSeen(steps, next.clients) && SourcesSeen(steps, next.ai.sources)
  {
    if c in w.clients && w.clients[c].CreateInserting? {
      assert JobClientOk(w.ai, w.clients[c]);
      InsertedSourcesSeen(steps, w.ai, w.clients[c].job);
    }
  }

  lemma OtherStepSeen(steps: seq<JobStep>, w: JobWorld, step: JobStep)
    requires ClientsSeen(steps, w.clients) && SourcesSeen(steps, w.ai.sources)
    requires !step.StepCreateSources? && !step.StepCreateInsert?
    ensures ClientsSeen(steps, NextJob(w, step).clients) && SourcesSeen(steps, NextJob(w, step).ai.sources)
  {
  }

  // The one source of a page-targeted job, and what its suggestions copy from it.
  lemma PinnedToSource(ai: AiDb, id: string)
    requires AiInv(ai) && id in ai.suggestions && ai.jobs[ai.suggestions[id].jobId].targetType == "page"
    ensures var sg := ai.suggestions[id];
            var sources := SourcesOf(ai.sources, ai.jobs[sg.jobId]);
            && |sources| == 1 && sources[0].versionId.Some? && sources[0].versionNo.Some?
            && ai.jobs[sg.jobId].targetId == Some(sg.pageId) && sources[0].sourceId == Some(sg.pageId)
            && sg.sourceNodeId == sources[0].nodeId && sg.sourceVersionId == sources[0].versionId
            && sg.sourceVersionNo == sources[0].versionNo
  {
    var j := ai.jobs[ai.suggestions[id].jobId];
    assert SourcesFit(j, SourcesOf(ai.sources, j)) && Pinned(j, SourcesOf(ai.sources, j), ai.suggestions[id]);
  }

  lemma SourceWasSeen(steps: seq<JobStep>, sources: seq<Source>, j: Job)
    requires SourcesSeen(steps, sources) && SourcesOf(sources, j) != []
    ensures var s := SourcesOf(sources, j)[0]; SourceSeen(steps, s.sourceId, s.nodeId, s.versionId, s.versionNo)
  {
    SourcesOfMember(sources, j, 0);
  }

  // Every stored suggestion of a page-targeted job names the target page and the node, id and
  // number of a version the page had at some moment of the run, the one pinned in the job's source.
  lemma SuggestionsArePinned(steps: seq<JobStep>, id: string)
    requires var ai := RunJobs(steps).ai;
             id in ai.suggestions && ai.suggestions[id].jobId in ai.jobs && ai.jobs[ai.suggestions[id].jobId].targetType == "page"
    ensures var ai := RunJobs(steps).ai;
            var sg := ai.suggestions[id];
            var j := ai.jobs[sg.jobId];
            && j.targetId == Some(sg.pageId)
            && |SourcesOf(ai.sources, j)| == 1
            && sg.sourceVersionId.Some? && sg.sourceVersionId == SourcesOf(ai.sources, j)[0].versionId
            && sg.sourceVersionNo.Some? && sg.sourceVersionNo == SourcesOf(ai.sources, j)[0].versionNo
            && VersionSeen(steps, sg.pageId, sg.sourceNodeId, sg.sourceVersionId, sg.sourceVersionNo)
  {
    var ai := RunJobs(steps).ai;
    JobRunsAreSound(steps);
    PinnedToSource(ai, id);
    AllSourcesSeen(steps);
    SourceWasSeen(steps, ai.sources, ai.jobs[ai.suggestions[id].jobId]);
  }

  lemma {:induction false} SourcesOfMember(sources: seq<Source>, j: Job, k: nat)
    requires k < |SourcesOf(sources, j)|
    ensures SourcesOf(sources, j)[k] in sources
  {
    var last := |sources| - 1;
    if k < |SourcesOf(sources[..last], j)| {
      SourcesOfMember(sources[..last], j, k);
    }
  }

  // The sources of a job never change, so neither does the pinned version.
  lemma {:induction false} SourcesStay(steps: seq<JobStep>, i: nat, id: string)
    requires i <= |steps| && id in JobsAfter(steps[..i])
    ensures id in JobsAfter(steps)
    ensures SourcesOf(RunJobs(steps).ai.sources, JobsAfter(steps)[id])
         == SourcesOf(RunJobs(steps[..i]).ai.sources, JobsAfter(steps[..i])[id])
  {
    if i == |steps| {
      assert steps[..i] == steps;
    } else {
      var before := steps[..|steps| - 1];
      assert before[..i] == steps[..i];
      SourcesStay(before, i, id);
      RunsGrow(steps);
      SourcesOfOrigin(RunJobs(steps).ai.sources, JobsAfter(before)[id], JobsAfter(steps)[id]);
    }
  }
}
