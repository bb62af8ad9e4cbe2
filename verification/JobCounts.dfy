// The counts in a job row: two LEFT JOINs multiply the rows, COUNT(DISTINCT ...) undoes that.
module JobCounts {
  import opened Domain
  import opened PageTables
  import opened AiTables
  import opened JobProtocol
  import opened JobInvariant
  import opened JobRuns
  import opened JobTheorems

  datatype CountRow = CountRow(source: Option<Source>, suggestion: Option<Suggestion>)

  predicate SuggestionOf(sg: Suggestion, j: Job) {
    sg.tenant == j.tenant && sg.organization == j.organization && sg.jobId == j.id
  }

  function SuggestionsOf(suggestions: seq<Suggestion>, j: Job): (r: seq<Suggestion>)
    ensures forall sg :: sg in r <==> sg in suggestions && SuggestionOf(sg, j)
  {
    if suggestions == [] then []
    else (if SuggestionOf(suggestions[0], j) then [suggestions[0]] else []) + SuggestionsOf(suggestions[1..], j)
  }

  // The right-hand rows that a LEFT JOIN pairs with one left-hand row.
  function OrNull<T(!new)>(matching: seq<T>): (r: seq<Option<T>>)
    ensures |r| == if matching == [] then 1 else |matching|
    ensures forall x :: Some(x) in r <==> x in matching
    ensures None in r <==> matching == []
  {
    if matching == [] then [None] else Somes(matching)
  }

  function Somes<T(!new)>(s: seq<T>): (r: seq<Option<T>>)
    ensures |r| == |s| && None !in r
    ensures forall x :: Some(x) in r <==> x in s
  {
    if s == [] then [] else [Some(s[0])] + Somes(s[1..])
  }

  function JoinSuggestions(source: Option<Source>, suggestions: seq<Option<Suggestion>>): (r: seq<CountRow>)
    ensures |r| == |suggestions|
    ensures forall row :: row in r <==> row.source == source && row.suggestion in suggestions
  {
    if suggestions == [] then []
    else [CountRow(source, suggestions[0])] + JoinSuggestions(source, suggestions[1..])
  }

  function JoinAll(sources: seq<Option<Source>>, suggestions: seq<Option<Suggestion>>): (r: seq<CountRow>)
    ensures |r| == |sources| * |suggestions|
    ensures forall row :: row in r <==> row.source in sources && row.suggestion in suggestions
  {
    if sources == [] then []
    else
      assert |suggestions| + (|sources| - 1) * |suggestions| == |sources| * |suggestions|;
      JoinSuggestions(sources[0], suggestions) + JoinAll(sources[1..], suggestions)
  }

  // The group of a job: job LEFT JOIN sources LEFT JOIN suggestions.
  function JobRows(sources: seq<Source>, suggestions: seq<Suggestion>, j: Job): seq<CountRow> {
    JoinAll(OrNull(SourcesOf(sources, j)), OrNull(SuggestionsOf(suggestions, j)))
  }

  // COUNT(DISTINCT s.id) skips NULLs.
  function SourceCount(rows: seq<CountRow>): nat {
    |set r | r in rows && r.source.Some? :: r.source.value.id|
  }

  function SuggestionCount(rows: seq<CountRow>): nat {
    |set r | r in rows && r.suggestion.Some? :: r.suggestion.value.id|
  }

  lemma {:induction false} DistinctCount(sources: seq<Source>)
    requires DistinctSourceIds(sources)
    ensures |set s | s in sources :: s.id| == |sources|
  {
    if sources != [] {
      var n := |sources| - 1;
      DistinctCount(sources[..n]);
      assert sources == sources[..n] + [sources[n]];
      assert (set s | s in sources :: s.id) == (set s | s in sources[..n] :: s.id) + {sources[n].id};
    }
  }

  lemma {:induction false} SourcesOfDistinct(sources: seq<Source>, j: Job)
    requires DistinctSourceIds(sources)
    ensures DistinctSourceIds(SourcesOf(sources, j))
    ensures forall s :: s in SourcesOf(sources, j) ==> s in sources
  {
    if sources != [] {
      var n := |sources| - 1;
      SourcesOfDistinct(sources[..n], j);
      forall s | s in SourcesOf(sources[..n], j) ensures s.id != sources[n].id {
        assert s in sources[..n];
      }
    }
  }

  // The group has a row for every pair, yet each count is the number of the job's own rows, and
  // zero when that side is empty.
  lemma CountsDespiteFanOut(sources: seq<Source>, suggestions: seq<Suggestion>, j: Job)
    requires DistinctSourceIds(sources)
    ensures var rows := JobRows(sources, suggestions, j);
            && |rows| == |OrNull(SourcesOf(sources, j))| * |OrNull(SuggestionsOf(suggestions, j))|
            && SourceCount(rows) == |SourcesOf(sources, j)|
            && SuggestionCount(rows) == |set sg | sg in suggestions && SuggestionOf(sg, j) :: sg.id|
  {
    var rows := JobRows(sources, suggestions, j);
    var ss, gs := OrNull(SourcesOf(sources, j)), OrNull(SuggestionsOf(suggestions, j));
    assert ss[0] in ss && gs[0] in gs;
    SourceIdsInRows(ss, gs, SourcesOf(sources, j));
    SourcesOfDistinct(sources, j);
    DistinctCount(SourcesOf(sources, j));
    SuggestionIdsInRows(ss, gs, suggestions, j);
  }

  lemma SourceIdsInRows(ss: seq<Option<Source>>, gs: seq<Option<Suggestion>>, sources: seq<Source>)
    requires ss == OrNull(sources) && gs != []
    ensures (set r | r in JoinAll(ss, gs) && r.source.Some? :: r.source.value.id) == (set s | s in sources :: s.id)
  {
    forall s | s in sources
      ensures exists r :: r in JoinAll(ss, gs) && r.source == Some(s)
    {
      assert CountRow(Some(s), gs[0]) in JoinAll(ss, gs);
    }
  }

  lemma SuggestionIdsInRows(ss: seq<Option<Source>>, gs: seq<Option<Suggestion>>, suggestions: seq<Suggestion>, j: Job)
    requires ss != [] && gs == OrNull(SuggestionsOf(suggestions, j))
    ensures (set r | r in JoinAll(ss, gs) && r.suggestion.Some? :: r.suggestion.value.id)
         == (set sg | sg in suggestions && SuggestionOf(sg, j) :: sg.id)
  {
    forall sg | sg in suggestions && SuggestionOf(sg, j)
      ensures exists r :: r in JoinAll(ss, gs) && r.suggestion == Some(sg)
    {
      assert CountRow(ss[0], Some(sg)) in JoinAll(ss, gs);
    }
  }

  // `rows` lists the suggestion table, in whatever order the query meets it.
  predicate Lists(rows: seq<Suggestion>, table: map<string, Suggestion>) {
    && (forall sg :: sg in rows ==> sg.id in table && table[sg.id] == sg)
    && (forall id :: id in table ==> table[id] in rows)
  }

  // In every run, find_ai_job reports one source for a page-targeted job and none for another, and
  // as many suggestions as the job's result records, none before it succeeded.
  lemma ReportedCounts(steps: seq<JobStep>, id: string, rows: seq<Suggestion>)
    requires id in JobsAfter(steps) && Lists(rows, RunJobs(steps).ai.suggestions)
    ensures var j := JobsAfter(steps)[id];
            var group := JobRows(RunJobs(steps).ai.sources, rows, j);
            && SourceCount(group) == (if j.targetType == "page" then 1 else 0)
            && SuggestionCount(group) == (if j.status == Succeeded && j.result.Some? then j.result.value.suggestionCount else 0)
  {
    JobRunsAreSound(steps);
    var ai := RunJobs(steps).ai;
    var j := ai.jobs[id];
    CountsDespiteFanOut(ai.sources, rows, j);
    ListedIds(ai, rows, id);
    SuggestionsOfSucceededJobs(steps, id);
  }

  lemma ListedIds(ai: AiDb, rows: seq<Suggestion>, id: string)
    requires AiInv(ai) && id in ai.jobs && Lists(rows, ai.suggestions)
    ensures (set sg | sg in rows && SuggestionOf(sg, ai.jobs[id]) :: sg.id) == SuggestionIds(ai.suggestions, id)
  {
    var listed := set sg | sg in rows && SuggestionOf(sg, ai.jobs[id]) :: sg.id;
    forall s | s in SuggestionIds(ai.suggestions, id) ensures s in listed {
      assert ai.suggestions[s] in rows && SuggestionOf(ai.suggestions[s], ai.jobs[id]);
    }
  }
}
