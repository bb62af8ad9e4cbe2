// What ties an applied suggestion to the job it came from, over runs in which pages and jobs share
// one suggestion table.
module JointTheorems {
  import opened Domain
  import opened PageTables
  import opened PageProtocol
  import opened PageTheorems
  import opened AiTables
  import opened JobProtocol
  import opened JobInvariant
  import opened JobRuns
  import opened JobTheorems
  import opened JointProtocol

  function PagesAfter(steps: seq<JointStep>): map<string, Page> {
    RunJoint(steps).world.db.pages
  }

  lemma {:induction false} SidesOfPrefix(steps: seq<JointStep>, m: nat)
    requires m <= |steps|
    ensures PageSteps(steps[..m]) <= PageSteps(steps) && JobSteps(steps[..m]) <= JobSteps(steps)
  {
    if m == |steps| {
      assert steps[..m] == steps;
    } else {
      var before := steps[..|steps| - 1];
      assert before[..m] == steps[..m];
      SidesOfPrefix(before, m);
    }
  }

  // Every page table that the job machine sees is that of some moment of the joint run.
  lemma {:induction false} MomentOf(steps: seq<JointStep>, i: nat) returns (t: nat)
    requires i <= |JobSteps(steps)|
    ensures t <= |steps| && RunJobs(JobSteps(steps)[..i]).db == RunJoint(steps[..t]).world.db
  {
    if i == |JobSteps(steps)| {
      EachSideRuns(steps);
      assert JobSteps(steps)[..i] == JobSteps(steps) && steps[..|steps|] == steps;
      return |steps|;
    }
    var n := |steps| - 1;
    var before := steps[..n];
    if i <= |JobSteps(before)| {
      t := MomentOf(before, i);
      assert JobSteps(steps)[..i] == JobSteps(before)[..i] && before[..t] == steps[..t];
    } else {
      var own := JobStepsOf(RunJoint(before), steps[n])[0];
      assert JobSteps(steps)[..i] == JobSteps(before) + [own];
      EachSideRuns(before);
      RunJobsLast(JobSteps(before), own);
      DbStays(RunJobs(JobSteps(before)), own);
      t := n;
    }
  }

  // The page's row exists and points at the version.
  predicate PointsAt(pages: map<string, Page>, pageId: string, versionId: string) {
    pageId in pages && pages[pageId].versionId == versionId
  }

  lemma PageMoment(steps: seq<JointStep>, m: nat)
    requires m <= |steps|
    ensures |PageSteps(steps[..m])| <= |PageSteps(steps)|
    ensures At(EMPTY, PageSteps(steps), |PageSteps(steps[..m])|) == RunJoint(steps[..m]).world
  {
    SidesOfPrefix(steps, m);
    EachSideRuns(steps[..m]);
    assert PageSteps(steps)[..|PageSteps(steps[..m])|] == PageSteps(steps[..m]);
  }

  lemma JobMoment(steps: seq<JointStep>, m: nat)
    requires m <= |steps|
    ensures |JobSteps(steps[..m])| <= |JobSteps(steps)|
    ensures RunJobs(JobSteps(steps)[..|JobSteps(steps[..m])|]) == JobSide(RunJoint(steps[..m]))
  {
    SidesOfPrefix(steps, m);
    EachSideRuns(steps[..m]);
    assert JobSteps(steps)[..|JobSteps(steps[..m])|] == JobSteps(steps[..m]);
  }

  lemma MomentsInOrder(steps: seq<JointStep>, t: nat, m: nat)
    requires t <= m <= |steps|
    ensures |PageSteps(steps[..t])| <= |PageSteps(steps[..m])|
  {
    assert steps[..m][..t] == steps[..t];
    SidesOfPrefix(steps[..m], t);
  }

  // A page that points at one version at two moments does so throughout.
  lemma PointedThroughout(steps: seq<JointStep>, t: nat, m: nat, pageId: string, versionId: string)
    requires t <= m <= |steps|
    requires PointsAt(PagesAfter(steps[..t]), pageId, versionId) && PointsAt(PagesAfter(steps), pageId, versionId)
    ensures PointsAt(PagesAfter(steps[..m]), pageId, versionId)
  {
    PageMoment(steps, t);
    PageMoment(steps, m);
    MomentsInOrder(steps, t, m);
    EachSideRuns(steps);
    assert PageSteps(steps)[..|PageSteps(steps)|] == PageSteps(steps);
    PointerNeverReturns(PageSteps(steps), |PageSteps(steps[..t])|, |PageSteps(steps[..m])|, |PageSteps(steps)|, pageId);
  }

  // When a page-targeted job exists, its page was at the version of its source at that moment or before.
  lemma PinnedBefore(steps: seq<JointStep>, jobId: string) returns (t: nat)
    requires jobId in RunJoint(steps).jobs && RunJoint(steps).jobs[jobId].targetType == "page"
    ensures t <= |steps|
    ensures var s := RunJoint(steps);
            var sources := SourcesOf(s.sources, s.jobs[jobId]);
            && |sources| == 1 && sources[0].versionId.Some? && sources[0].sourceId == s.jobs[jobId].targetId
            && s.jobs[jobId].targetId.Some?
            && PointsAt(PagesAfter(steps[..t]), s.jobs[jobId].targetId.value, sources[0].versionId.value)
  {
    var qs, s := JobSteps(steps), RunJoint(steps);
    EachSideRuns(steps);
    JobRunsAreSound(qs);
    var sources := SourcesOf(s.sources, s.jobs[jobId]);
    assert SourcesFit(s.jobs[jobId], sources);
    AllSourcesSeen(qs);
    SourceWasSeen(qs, s.sources, s.jobs[jobId]);
    var i :| 0 <= i <= |qs| && CurrentIn(RunJobs(qs[..i]).db, sources[0].sourceId.value, sources[0].nodeId,
                                         sources[0].versionId, sources[0].versionNo);
    t := MomentOf(steps, i);
  }

  // A job keeps the sources it was created with.
  lemma SourceStays(steps: seq<JointStep>, m: nat, jobId: string)
    requires m <= |steps| && jobId in RunJoint(steps[..m]).jobs
    ensures jobId in RunJoint(steps).jobs
    ensures SameOrigin(RunJoint(steps[..m]).jobs[jobId], RunJoint(steps).jobs[jobId])
    ensures SourcesOf(RunJoint(steps).sources, RunJoint(steps).jobs[jobId])
         == SourcesOf(RunJoint(steps[..m]).sources, RunJoint(steps[..m]).jobs[jobId])
  {
    JobMoment(steps, m);
    EachSideRuns(steps);
    SourcesStay(JobSteps(steps), |JobSteps(steps[..m])|, jobId);
    JobsOnlyMoveOn(JobSteps(steps), |JobSteps(steps[..m])|, jobId);
  }

  // The pinned version of a page-targeted job, as its one source records it.
  predicate PinnedVersion(s: Joint, jobId: string, versionId: string) {
    && jobId in s.jobs && |SourcesOf(s.sources, s.jobs[jobId])| == 1
    && SourcesOf(s.sources, s.jobs[jobId])[0].versionId == Some(versionId)
  }

  lemma SuggestionOfJob(steps: seq<JointStep>, id: string)
    requires var s := RunJoint(steps); id in s.world.db.suggestions && s.world.db.suggestions[id].jobId in s.jobs
    requires var s := RunJoint(steps); s.jobs[s.world.db.suggestions[id].jobId].targetType == "page"
    ensures var s := RunJoint(steps);
            var sg := s.world.db.suggestions[id];
            && sg.sourceVersionId.Some? && PinnedVersion(s, sg.jobId, sg.sourceVersionId.value)
            && s.jobs[sg.jobId].targetId == Some(sg.pageId) && s.jobs[sg.jobId].status == Succeeded
  {
    EachSideRuns(steps);
    JobRunsAreSound(JobSteps(steps));
    PinnedToSource(JobSide(RunJoint(steps)).ai, id);
  }

  // The job targets the page and pinned this version of it.
  predicate Pins(s: Joint, jobId: string, pageId: string, versionId: string) {
    PinnedVersion(s, jobId, versionId) && s.jobs[jobId].targetType == "page" && s.jobs[jobId].targetId == Some(pageId)
  }

  lemma PinnedThen(steps: seq<JointStep>, m: nat, jobId: string, pageId: string, versionId: string)
    requires m <= |steps| && jobId in RunJoint(steps[..m]).jobs && Pins(RunJoint(steps), jobId, pageId, versionId)
    ensures Pins(RunJoint(steps[..m]), jobId, pageId, versionId)
  {
    SourceStays(steps, m, jobId);
  }

  lemma PinnedPointed(steps: seq<JointStep>, m: nat, jobId: string, pageId: string, versionId: string) returns (t: nat)
    requires m <= |steps| && Pins(RunJoint(steps[..m]), jobId, pageId, versionId)
    ensures t <= m && PointsAt(PagesAfter(steps[..t]), pageId, versionId)
  {
    t := PinnedBefore(steps[..m], jobId);
    assert steps[..m][..t] == steps[..t];
  }

  // While the page points at a job's pinned version, it has done so since the job was created.
  lemma PinnedSinceCreation(steps: seq<JointStep>, m: nat, jobId: string, pageId: string, versionId: string)
    requires m <= |steps| && jobId in RunJoint(steps[..m]).jobs && Pins(RunJoint(steps), jobId, pageId, versionId)
    requires PointsAt(PagesAfter(steps), pageId, versionId)
    ensures PointsAt(PagesAfter(steps[..m]), pageId, versionId)
  {
    PinnedThen(steps, m, jobId, pageId, versionId);
    var t := PinnedPointed(steps, m, jobId, pageId, versionId);
    PointedThroughout(steps, t, m, pageId, versionId);
  }

  lemma AppliedHere(steps: seq<JointStep>, step: Step, id: string)
    requires Applies(RunJoint(steps).world, step, id)
    ensures var w := RunJoint(steps).world;
            var sg := w.db.suggestions[id];
            && sg.status == Accepted && Moves(w, step, sg.pageId)
            && (sg.sourceVersionId.Some? ==> PointsAt(w.db.pages, sg.pageId, sg.sourceVersionId.value))
  {
    EachSideRuns(steps);
    AppliedOnlyAtSource(PageSteps(steps), step, id);
  }

  // A suggestion of a page-targeted job is applied only on the version that the job's source pinned:
  // the page points at it at every moment from the job's creation to the apply, and the apply moves
  // the pointer away from it.
  lemma AppliedAtPinnedVersion(steps: seq<JointStep>, step: Step, id: string, m: nat)
    requires var s := RunJoint(steps);
             && Applies(s.world, step, id) && s.world.db.suggestions[id].jobId in s.jobs
             && s.jobs[s.world.db.suggestions[id].jobId].targetType == "page"
    requires m <= |steps| && RunJoint(steps).world.db.suggestions[id].jobId in RunJoint(steps[..m]).jobs
    ensures var s := RunJoint(steps);
            var sg := s.world.db.suggestions[id];
            && sg.status == Accepted && sg.sourceVersionId.Some?
            && PinnedVersion(s, sg.jobId, sg.sourceVersionId.value) && s.jobs[sg.jobId].targetId == Some(sg.pageId)
            && PointsAt(PagesAfter(steps[..m]), sg.pageId, sg.sourceVersionId.value)
            && PointsAt(PagesAfter(steps), sg.pageId, sg.sourceVersionId.value)
            && Moves(s.world, step, sg.pageId)
  {
    var sg := RunJoint(steps).world.db.suggestions[id];
    SuggestionOfJob(steps, id);
    AppliedHere(steps, step, id);
    PinnedSinceCreation(steps, m, sg.jobId, sg.pageId, sg.sourceVersionId.value);
  }
}
