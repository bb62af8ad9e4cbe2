// The page machine and the job machine over one suggestion table: a completed job's suggestions are
// the rows that pages decide on and apply. Every joint run is a run of each machine.
module JointProtocol {
  import opened Domain
  import opened PageTables
  import opened PageCommands
  import opened PageProtocol
  import opened PageTheorems
  import opened PageProgress
  import opened AiTables
  import opened JobProtocol
  import opened JobRuns

  // The suggestion table is the one in `world`.
  datatype Joint = Joint(
    world: World,
    jobs: map<string, Job>,
    keys: map<JobKey, string>,
    sources: seq<Source>,
    clients: map<nat, JobClient>,
    outcomes: map<nat, Outcome>)

  const START: Joint := Joint(EMPTY, map[], map[], [], map[], map[])

  datatype JointStep = OfPages(page: Step) | OfJobs(job: JobStep)

  // What the job machine sees.
  function JobSide(s: Joint): JobWorld {
    JobWorld(AiDb(s.jobs, s.keys, s.sources, s.world.db.suggestions), s.world.db, s.clients, s.outcomes)
  }

  function WithJobs(s: Joint, j: JobWorld): Joint {
    Joint(s.world.(db := s.world.db.(suggestions := j.ai.suggestions)), j.ai.jobs, j.ai.keys, j.ai.sources,
          j.clients, j.outcomes)
  }

  // The steps by which a machine lets its environment act are the other machine's own here.
  predicate OfEnvironment(j: JobStep) {
    j.StepEnvironment? || j.StepSuggestionStatus?
  }

  function NextJoint(s: Joint, step: JointStep): Joint {
    match step
    case OfPages(p) => if p.StepStoreSuggestion? then s else s.(world := Next(s.world, p))
    case OfJobs(j) => if OfEnvironment(j) then s else WithJobs(s, NextJob(JobSide(s), j))
  }

  function RunJoint(steps: seq<JointStep>): Joint {
    if steps == [] then START else NextJoint(RunJoint(steps[..|steps| - 1]), steps[|steps| - 1])
  }

  /* The page side of a joint step */

  // The suggestions that a step of the jobs stores.
  function NewRows(s: Joint, j: JobStep): seq<Suggestion> {
    if j.StepCompleteCommit? && j.client in s.clients && s.clients[j.client].Completing?
       && CompleteJob(JobSide(s).ai, s.clients[j.client].actor, s.clients[j.client].target.id, s.clients[j.client].built).1.Ok?
    then s.clients[j.client].built
    else []
  }

  function StoreSteps(rows: seq<Suggestion>): seq<Step> {
    if rows == [] then [] else [StepStoreSuggestion(rows[0])] + StoreSteps(rows[1..])
  }

  function PageStepsOf(s: Joint, step: JointStep): seq<Step> {
    match step
    case OfPages(p) => if p.StepStoreSuggestion? then [] else [p]
    case OfJobs(j) => if OfEnvironment(j) then [] else StoreSteps(NewRows(s, j))
  }

  function PageSteps(steps: seq<JointStep>): seq<Step> {
    if steps == [] then []
    else PageSteps(steps[..|steps| - 1]) + PageStepsOf(RunJoint(steps[..|steps| - 1]), steps[|steps| - 1])
  }

  lemma CommitAdds(s: Joint, j: JobStep)
    requires !OfEnvironment(j)
    ensures InsertSuggestions(s.world.db.suggestions, NewRows(s, j))
         == Some(NextJob(JobSide(s), j).ai.suggestions)
  {
  }

  lemma NewRowsProposed(s: Joint, j: JobStep)
    requires JobWorldInv(JobSide(s))
    ensures forall k :: 0 <= k < |NewRows(s, j)| ==> NewRows(s, j)[k].status == Proposed
  {
    if NewRows(s, j) != [] {
      assert JobClientOk(JobSide(s).ai, s.clients[j.client]);
    }
  }

  lemma {:induction false} StoresRows(w: World, rows: seq<Suggestion>)
    requires InsertSuggestions(w.db.suggestions, rows).Some?
    requires forall k :: 0 <= k < |rows| ==> rows[k].status == Proposed
    ensures Run(w, StoreSteps(rows)) == w.(db := w.db.(suggestions := InsertSuggestions(w.db.suggestions, rows).value))
    decreases |rows|
  {
    if rows != [] {
      var steps := StoreSteps(rows);
      RunFirst(w, steps);
      assert steps[0] == StepStoreSuggestion(rows[0]) && steps[1..] == StoreSteps(rows[1..]);
      StoresRows(Next(w, steps[0]), rows[1..]);
    }
  }

  lemma PageSideMoves(s: Joint, step: JointStep)
    requires JobWorldInv(JobSide(s))
    ensures Run(s.world, PageStepsOf(s, step)) == NextJoint(s, step).world
  {
    match step {
      case OfPages(p) => if !p.StepStoreSuggestion? { OneStep(s.world, p); }
      case OfJobs(j) =>
        if !OfEnvironment(j) {
          CommitAdds(s, j);
          NewRowsProposed(s, j);
          StoresRows(s.world, NewRows(s, j));
        }
    }
  }

  /* The job side of a joint step */

  // The suggestion whose status a step of the pages changes, and the new status.
  function MarkOf(w: World, p: Step): Option<(string, SuggestionStatus)> {
    match p
    case StepDecide(actor, id, accept) =>
      var found := FindSuggestion(w.db, actor, id);
      if found.Ok? && found.value.status == Proposed then Some((id, if accept then Accepted else Rejected)) else None
    case StepCommit(c, now) =>
      if c in w.clients && w.clients[c].CommitReady? && w.clients[c].goal.Some? && CommitStep(w.db, w.clients[c], now).1.Ok?
      then Some((w.clients[c].goal.value.id, Applied))
      else None
    case _ => None
  }

  function MarkSteps(mark: Option<(string, SuggestionStatus)>): seq<JobStep> {
    if mark.Some? then [StepSuggestionStatus(mark.value.0, mark.value.1)] else []
  }

  function OwnJobSteps(s: Joint, step: JointStep): (r: seq<JobStep>)
    ensures |r| <= 1 && (r != [] ==> !r[0].StepEnvironment?)
  {
    match step
    case OfPages(p) => if p.StepStoreSuggestion? then [] else MarkSteps(MarkOf(s.world, p))
    case OfJobs(j) => if OfEnvironment(j) then [] else [j]
  }

  // The step's own effect on the jobs, and then the news of the pages.
  function JobStepsOf(s: Joint, step: JointStep): seq<JobStep> {
    OwnJobSteps(s, step) + [StepEnvironment(NextJoint(s, step).world.db)]
  }

  function JobSteps(steps: seq<JointStep>): seq<JobStep> {
    if steps == [] then []
    else JobSteps(steps[..|steps| - 1]) + JobStepsOf(RunJoint(steps[..|steps| - 1]), steps[|steps| - 1])
  }

  predicate Marks(before: map<string, Suggestion>, after: map<string, Suggestion>, mark: Option<(string, SuggestionStatus)>) {
    match mark
    case None => after == before
    case Some(m) => m.0 in before && after == before[m.0 := WithStatus(before[m.0], m.1)]
  }

  lemma CommitMarks(w: World, c: nat, now: int)
    requires c in w.clients && w.clients[c].CommitReady?
    ensures Marks(w.db.suggestions, CommitStep(w.db, w.clients[c], now).0.suggestions, MarkOf(w, StepCommit(c, now)))
  {
  }

  lemma PageStepMarks(w: World, p: Step)
    requires !p.StepStoreSuggestion?
    ensures Marks(w.db.suggestions, Next(w, p).db.suggestions, MarkOf(w, p))
  {
    if p.StepCommit? {
      if p.client in w.clients && w.clients[p.client].CommitReady? {
        CommitMarks(w, p.client, p.now);
      }
    }
  }

  lemma RunJobsLast(steps: seq<JobStep>, step: JobStep)
    ensures RunJobs(steps + [step]) == NextJob(RunJobs(steps), step)
  {
    assert (steps + [step])[..|steps|] == steps;
  }

  // The job machine's world after the step's own effect, before it learns of the pages' changes.
  function Behind(s: Joint, next: Joint): JobWorld {
    JobSide(next).(db := s.world.db)
  }

  lemma PagesMoveJobs(s: Joint, p: Step)
    requires !p.StepStoreSuggestion?
    ensures var mark := MarkOf(s.world, p);
            var behind := Behind(s, NextJoint(s, OfPages(p)));
            if mark.None? then behind == JobSide(s) else behind == MarkSuggestion(JobSide(s), mark.value.0, mark.value.1)
  {
    PageStepMarks(s.world, p);
  }

  lemma DbStays(w: JobWorld, step: JobStep)
    requires !step.StepEnvironment?
    ensures NextJob(w, step).db == w.db
  {
  }

  lemma JobsMoveJobs(s: Joint, j: JobStep)
    requires !OfEnvironment(j)
    ensures Behind(s, NextJoint(s, OfJobs(j))) == NextJob(JobSide(s), j)
  {
    DbStays(JobSide(s), j);
  }

  lemma CatchesUp(s: Joint, next: Joint)
    requires PagesKeyed(next.world.db)
    ensures NextJob(Behind(s, next), StepEnvironment(next.world.db)) == JobSide(next)
  {
  }

  lemma AtMostOneMore(steps: seq<JobStep>, own: seq<JobStep>)
    requires |own| <= 1
    ensures RunJobs(steps + own) == if own == [] then RunJobs(steps) else NextJob(RunJobs(steps), own[0])
  {
    if own == [] {
      assert steps + own == steps;
    } else {
      assert own == [own[0]];
      RunJobsLast(steps, own[0]);
    }
  }

  lemma OwnStepMoves(steps: seq<JobStep>, s: Joint, step: JointStep)
    requires RunJobs(steps) == JobSide(s)
    ensures RunJobs(steps + OwnJobSteps(s, step)) == Behind(s, NextJoint(s, step))
  {
    AtMostOneMore(steps, OwnJobSteps(s, step));
    match step {
      case OfPages(p) => if !p.StepStoreSuggestion? { PagesMoveJobs(s, p); }
      case OfJobs(j) => if !OfEnvironment(j) { JobsMoveJobs(s, j); }
    }
  }

  lemma JobSideMoves(steps: seq<JobStep>, s: Joint, step: JointStep)
    requires RunJobs(steps) == JobSide(s) && PagesKeyed(NextJoint(s, step).world.db)
    ensures RunJobs(steps + JobStepsOf(s, step)) == JobSide(NextJoint(s, step))
  {
    var next, own := NextJoint(s, step), OwnJobSteps(s, step);
    OwnStepMoves(steps, s, step);
    CatchesUp(s, next);
    RunJobsLast(steps + own, StepEnvironment(next.world.db));
    assert steps + JobStepsOf(s, step) == (steps + own) + [StepEnvironment(next.world.db)];
  }

  /* Every joint run */

  lemma KeyedPages(w: World)
    requires PagesInv(w)
    ensures PagesKeyed(w.db)
  {
  }

  lemma StartSides()
    ensures START.world == EMPTY && JobSide(START) == NO_JOBS
  {
  }

  // A joint run is a run of the page machine and a run of the job machine, so that whatever holds of
  // all runs of either holds of it.
  lemma {:induction false} EachSideRuns(steps: seq<JointStep>)
    ensures Run(EMPTY, PageSteps(steps)) == RunJoint(steps).world
    ensures RunJobs(JobSteps(steps)) == JobSide(RunJoint(steps))
  {
    if steps == [] {
      StartSides();
    } else {
      var before, step := steps[..|steps| - 1], steps[|steps| - 1];
      var s := RunJoint(before);
      EachSideRuns(before);
      JobRunsAreSound(JobSteps(before));
      PageSideMoves(s, step);
      RunAppend(EMPTY, PageSteps(before), PageStepsOf(s, step));
      ReachableIsSound(PageSteps(steps));
      KeyedPages(RunJoint(steps).world);
      JobSideMoves(JobSteps(before), s, step);
    }
  }
}
