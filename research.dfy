/** The multi-round research agent (backend/services/research_service.py).

    A run alternates search and analysis for at most `maxIterations` rounds. The
    search capability and the language model are oracles: `search(k, request)` is
    what the search service returns (or raises) in round k, `analyze(k, request)`
    what the model answers (or raises) to round k's analysis prompt, and
    `summarize(request)` its answer to the final synthesis prompt. Progress
    callbacks are recorded as the output sequence `events`. */
module Research {
  import opened Wrappers
  import opened Text
  import opened Models
  import opened Seqs

  /** `max_sources_per_round`: the result limit passed to every search. */
  const MaxSourcesPerRound: int := 5
  /** The marker by which the model declares the research complete. */
  const CompletionMarker: string := "RESEARCH_COMPLETE"
  /** The output-token budgets of the analysis and the synthesis calls. */
  const AnalysisMaxTokens: int := 1000
  const SummaryMaxTokens: int := 2000
  const ResearchTemperature: real := 0.3

  datatype SearchRequest = SearchRequest(query: string, provider: SearchProvider, maxResults: int)

  /** What a search call yields: the result list, or the error it raised. */
  datatype SearchReply = Found(items: seq<Source>) | SearchFailed(error: string)

  /** The two prompts the agent sends, by their parts; `Text()` renders the exact
      system-prompt text the model receives. */
  datatype Prompt =
    | AnalysisPrompt(query: string, results: seq<Source>, previous: string)
    | SummaryPrompt(originalQuery: string, steps: seq<ResearchStep>)
  {
    function Text(): string {
      match this
      case AnalysisPrompt(query, results, previous) => AnalysisPromptText(query, results, previous)
      case SummaryPrompt(originalQuery, steps) => SummaryPromptText(originalQuery, steps)
    }
  }

  /** A completion call with an empty message list; the whole request is the system prompt. */
  datatype CompletionRequest = CompletionRequest(model: string, prompt: Prompt, temperature: real, maxTokens: int)

  /** What a completion call yields: the reply text, or the message of the error it raised. */
  datatype Completion = Reply(text: string) | Failed(error: string)

  datatype ResearchStep = ResearchStep(query: string, results: seq<Source>, analysis: string)

  datatype ResearchReport = ResearchReport(
    originalQuery: string,
    steps: seq<ResearchStep>,
    finalSummary: string,
    sources: seq<Source>,
    totalSourcesAnalyzed: int)

  datatype ProgressEvent =
    | Searching(iteration: int, maxIterations: int, query: string)
    | Analyzing(iteration: int, sourcesFound: int)
    | Summarizing

  // ---------------------------------------------------------------- the source ledger

  function UrlsOf(rs: seq<Source>): set<string> {
    set r | r in rs :: r.url
  }

  ghost predicate NonEmptyUrls(rs: seq<Source>) {
    forall i :: 0 <= i < |rs| ==> rs[i].url != ""
  }

  ghost predicate DistinctUrls(rs: seq<Source>) {
    forall i, j :: 0 <= i < j < |rs| ==> rs[i].url != rs[j].url
  }

  /** The results of one round that enter the ledger, in order: those whose url is
      non-empty and not yet seen; of several results with one url the first wins. */
  function NewResults(rs: seq<Source>, seen: set<string>): seq<Source> {
    if rs == [] then []
    else if rs[0].url != "" && rs[0].url !in seen then [rs[0]] + NewResults(rs[1..], seen + {rs[0].url})
    else NewResults(rs[1..], seen)
  }

  /** The round filter keeps exactly the results with a new, non-empty url: what it keeps
      has pairwise distinct, non-empty urls that were unseen, comes from the round's
      results in their order, and every other non-empty url of the round was already seen. */
  lemma {:induction false} NewResultsAreNew(rs: seq<Source>, seen: set<string>)
    ensures NonEmptyUrls(NewResults(rs, seen)) && DistinctUrls(NewResults(rs, seen))
    ensures forall r :: r in NewResults(rs, seen) ==> r.url !in seen
    ensures IsSubsequence(NewResults(rs, seen), rs)
    ensures forall r :: r in rs && r.url != "" ==> r.url in seen + UrlsOf(NewResults(rs, seen))
  {
    if rs != [] {
      var r0 := rs[0];
      if r0.url != "" && r0.url !in seen {
        var tail := NewResults(rs[1..], seen + {r0.url});
        NewResultsAreNew(rs[1..], seen + {r0.url});
        var out := [r0] + tail;
        assert out == NewResults(rs, seen);
        forall i, j | 0 <= i < j < |out| ensures out[i].url != out[j].url {
          if i == 0 {
            assert out[j] in tail;
          }
        }
        forall r | r in out ensures r.url !in seen {
          if r != r0 {
            assert r in tail;
          }
        }
        SubsequenceCons(r0, tail, rs[1..]);
        assert [r0] + rs[1..] == rs;
        forall r | r in rs && r.url != "" ensures r.url in seen + UrlsOf(out) {
          if r != r0 {
            assert r in rs[1..];
          }
        }
      } else {
        NewResultsAreNew(rs[1..], seen);
        SubsequenceSkip(NewResults(rs[1..], seen), rs);
        forall r | r in rs && r.url != "" ensures r.url in seen + UrlsOf(NewResults(rs, seen)) {
          if r != r0 {
            assert r in rs[1..];
          }
        }
      }
    }
  }

  /** When every non-empty url of a result list is already in the ledger, the round adds nothing. */
  lemma {:induction false} NothingNewWhenAllSeen(rs: seq<Source>, seen: set<string>)
    requires forall r :: r in rs && r.url != "" ==> r.url in seen
    ensures NewResults(rs, seen) == []
  {
    if rs != [] {
      NothingNewWhenAllSeen(rs[1..], seen);
    }
  }

  /** The filtering loop of one round: keeps the new results and adds their urls to
      the set of seen urls. */
  method FilterNewResults(results: seq<Source>, seen: set<string>) returns (kept: seq<Source>, seenAfter: set<string>)
    ensures kept == NewResults(results, seen)
    ensures seenAfter == seen + UrlsOf(kept)
  {
    kept, seenAfter := [], seen;
    var i := 0;
    while i < |results|
      invariant 0 <= i <= |results|
      invariant kept + NewResults(results[i..], seenAfter) == NewResults(results, seen)
      invariant seenAfter == seen + UrlsOf(kept)
    {
      var r := results[i];
      FilterStep(results, i, seenAfter);
      if r.url != "" && r.url !in seenAfter {
        UrlsOfSnoc(kept, r);
        seenAfter := seenAfter + {r.url};
        kept := kept + [r];
      }
      i := i + 1;
    }
    assert results[i..] == [];
  }

  /** One step of the filtering loop: the filter of a suffix starts with its first result
      exactly when that result's url is new. */
  lemma FilterStep(results: seq<Source>, i: nat, seen: set<string>)
    requires i < |results|
    ensures var r := results[i];
            NewResults(results[i..], seen)
            == if r.url != "" && r.url !in seen then [r] + NewResults(results[i + 1..], seen + {r.url})
               else NewResults(results[i + 1..], seen)
  {
    assert results[i..][0] == results[i] && results[i..][1..] == results[i + 1..];
  }

  lemma UrlsOfSnoc(a: seq<Source>, r: Source)
    ensures UrlsOf(a + [r]) == UrlsOf(a) + {r.url}
  {
    UrlsOfAppend(a, [r]);
    assert UrlsOf([r]) == {r.url};
  }

  /** Every step's results, concatenated in round order. */
  function Ledger(steps: seq<ResearchStep>): seq<Source> {
    if steps == [] then [] else Ledger(steps[..|steps| - 1]) + steps[|steps| - 1].results
  }

  lemma LedgerSnoc(steps: seq<ResearchStep>, s: ResearchStep)
    ensures Ledger(steps + [s]) == Ledger(steps) + s.results
  {
    assert (steps + [s])[..|steps|] == steps;
  }

  function SearchItems(reply: SearchReply): seq<Source> {
    match reply
    case Found(items) => items
    case SearchFailed(_) => []
  }

  /** Adding a round's new results keeps the ledger's urls non-empty and distinct, and
      its url set grows by exactly the new urls. */
  lemma LedgerExtends(ledger: seq<Source>, results: seq<Source>, seen: set<string>)
    requires NonEmptyUrls(ledger) && DistinctUrls(ledger) && seen == UrlsOf(ledger)
    ensures var kept := NewResults(results, seen);
            && NonEmptyUrls(ledger + kept) && DistinctUrls(ledger + kept)
            && UrlsOf(ledger + kept) == seen + UrlsOf(kept)
  {
    NewResultsAreNew(results, seen);
    DistinctAppend(ledger, NewResults(results, seen), seen);
    UrlsOfAppend(ledger, NewResults(results, seen));
  }

  lemma UrlsOfAppend(a: seq<Source>, b: seq<Source>)
    ensures UrlsOf(a + b) == UrlsOf(a) + UrlsOf(b)
  {
    forall u | u in UrlsOf(a + b) ensures u in UrlsOf(a) + UrlsOf(b) {
      var r :| r in a + b && r.url == u;
    }
    forall u | u in UrlsOf(a) + UrlsOf(b) ensures u in UrlsOf(a + b) {
      if u in UrlsOf(a) {
        var r :| r in a && r.url == u;
        assert r in a + b;
      } else {
        var r :| r in b && r.url == u;
        assert r in a + b;
      }
    }
  }

  lemma DistinctAppend(ledger: seq<Source>, kept: seq<Source>, seen: set<string>)
    requires NonEmptyUrls(ledger) && DistinctUrls(ledger) && seen == UrlsOf(ledger)
    requires NonEmptyUrls(kept) && DistinctUrls(kept)
    requires forall r :: r in kept ==> r.url !in seen
    ensures NonEmptyUrls(ledger + kept) && DistinctUrls(ledger + kept)
  {
    var all := ledger + kept;
    forall i, j | 0 <= i < j < |all| ensures all[i].url != all[j].url {
      if i < |ledger| && j >= |ledger| {
        assert all[i] in ledger;
        assert all[j] == kept[j - |ledger|];
      }
    }
  }

  // ---------------------------------------------------------------- analysis text

  /** A failed analysis becomes an error text instead of an exception. */
  function AnalysisText(c: Completion): (a: string)
    ensures c.Reply? ==> a == c.text
    ensures c.Failed? ==> a == "Error analyzing results: " + c.error
  {
    match c
    case Reply(t) => t
    case Failed(e) => "Error analyzing results: " + e
  }

  predicate IsComplete(analysis: string) {
    Contains(Upper(analysis), CompletionMarker)
  }

  predicate MentionsNextQuery(line: string) {
    var l := Lower(line);
    Contains(l, "follow-up") || Contains(l, "next query") || Contains(l, "search for")
  }

  /** The text after a line's first colon, stripped of whitespace and then of quotes. */
  function Candidate(line: string): string
    requires ':' in line
  {
    Strip(Strip(AfterFirst(line, ':'), Whitespace), Quotes)
  }

  predicate Qualifies(line: string) {
    MentionsNextQuery(line) && ':' in line && |Candidate(line)| > 10
  }

  /** The follow-up query proposed by an analysis: the candidate of its first
      qualifying line, if any line qualifies. */
  function NextQuery(analysis: string): (r: Option<string>)
    ensures r.Some? ==> |r.value| > 10
  {
    var lines := Split(analysis, '\n');
    var k := FirstIndex(lines, Qualifies);
    if k < |lines| then Some(Candidate(lines[k])) else None
  }

  /** The query the loop moves on to after a step, if it moves on at all: none when
      the analysis declares completion, proposes nothing, or proposes the same query. */
  function Proposal(step: ResearchStep): (r: Option<string>)
    ensures r.Some? <==> !IsComplete(step.analysis) && NextQuery(step.analysis).Some?
                         && NextQuery(step.analysis).value != step.query
    ensures r.Some? ==> r == NextQuery(step.analysis)
  {
    if IsComplete(step.analysis) then None
    else match NextQuery(step.analysis)
      case Some(q) => if q != step.query then Some(q) else None
      case None => None
  }

  /** `_extract_next_query`: scans the lines in order and returns the first candidate
      longer than ten characters. The original query argument is unused. */
  method ExtractNextQuery(analysis: string, originalQuery: string) returns (r: Option<string>)
    ensures r == NextQuery(analysis)
  {
    var lines := Split(analysis, '\n');
    var i := 0;
    while i < |lines|
      invariant 0 <= i <= |lines|
      invariant i <= FirstIndex(lines, Qualifies)
    {
      var line := lines[i];
      if MentionsNextQuery(line) && ':' in line {
        var query := Candidate(line);
        if |query| > 10 {
          assert Qualifies(line);
          assert FirstIndex(lines, Qualifies) == i;
          return Some(query);
        }
      }
      i := i + 1;
    }
    assert FirstIndex(lines, Qualifies) == |lines|;
    return None;
  }

  // ---------------------------------------------------------------- prompts

  function RecapLine(round: nat, step: ResearchStep): string {
    "Round " + NatToString(round) + " (" + step.query + "): " + Take(step.analysis, 500) + "..."
  }

  function RecapLines(steps: seq<ResearchStep>): (lines: seq<string>)
    ensures |lines| == |steps|
  {
    seq(|steps|, i requires 0 <= i < |steps| => RecapLine(i + 1, steps[i]))
  }

  /** The recap of earlier rounds that each analysis prompt carries. */
  function Recap(steps: seq<ResearchStep>): string {
    Join("\n", RecapLines(steps))
  }

  lemma JoinNonEmpty(sep: string, parts: seq<string>)
    requires parts != [] && parts[0] != ""
    ensures Join(sep, parts) != ""
  {
  }

  /** `_summarize_steps`: one recap line per step, 1-based, joined by newlines; empty
      exactly when there are no steps. */
  method SummarizeSteps(steps: seq<ResearchStep>) returns (r: string)
    ensures r == Recap(steps)
    ensures r == "" <==> steps == []
  {
    if steps == [] {
      return "";
    }
    var summaries: seq<string> := [];
    var i := 0;
    while i < |steps|
      invariant 0 <= i <= |steps|
      invariant |summaries| == i
      invariant forall j :: 0 <= j < i ==> summaries[j] == RecapLine(j + 1, steps[j])
    {
      summaries := summaries + [RecapLine(i + 1, steps[i])];
      i := i + 1;
    }
    assert summaries == RecapLines(steps);
    JoinNonEmpty("\n", summaries);
    r := Join("\n", summaries);
  }

  function SourceBlock(r: Source): string {
    "Source: " + r.title + "\nURL: " + r.url + "\nContent: " + r.snippet
  }

  function SourceBlocks(rs: seq<Source>): (blocks: seq<string>)
    ensures |blocks| == |rs|
  {
    seq(|rs|, i requires 0 <= i < |rs| => SourceBlock(rs[i]))
  }

  /** The analysis prompt of a round, given the recap text of the earlier rounds. */
  function AnalysisPromptText(query: string, kept: seq<Source>, previous: string): string {
    "You are a research analyst. Analyze the following search results for the query: \"" + query + "\"\n\n"
    + "Search Results:\n" + Join("\n\n", SourceBlocks(kept)) + "\n\n"
    + "Previous findings:\n" + previous + "\n\n"
    + "Provide:\n"
    + "1. Key findings from these sources\n"
    + "2. What information is still missing or unclear\n"
    + "3. A suggested follow-up search query to fill gaps (or \"RESEARCH_COMPLETE\" if sufficient info gathered)\n\n"
    + "Be concise but thorough."
  }

  function AnalysisRequest(model: string, query: string, kept: seq<Source>, prior: seq<ResearchStep>): CompletionRequest {
    var previous := if prior == [] then "None yet." else Recap(prior);
    CompletionRequest(model, AnalysisPrompt(query, kept, previous), ResearchTemperature, AnalysisMaxTokens)
  }

  function FindingsBlocks(steps: seq<ResearchStep>): (blocks: seq<string>)
    ensures |blocks| == |steps|
  {
    seq(|steps|, i requires 0 <= i < |steps| =>
      "### Research Round " + NatToString(i + 1) + ": " + steps[i].query + "\n" + steps[i].analysis)
  }

  function SummaryPromptText(originalQuery: string, steps: seq<ResearchStep>): string {
    "Based on the following multi-round research on \"" + originalQuery + "\", provide a comprehensive final summary.\n\n"
    + "Research Findings:\n" + Join("\n\n", FindingsBlocks(steps)) + "\n\n"
    + "Create a well-structured summary that:\n"
    + "1. Directly answers the original question\n"
    + "2. Synthesizes key findings from all rounds\n"
    + "3. Notes any limitations or areas needing more research\n"
    + "4. Lists the most important sources\n\n"
    + "Format with clear headings and bullet points where appropriate."
  }

  /** `_generate_final_summary`: the synthesis reply, or an error text when the call fails. */
  function GenerateFinalSummary(originalQuery: string, steps: seq<ResearchStep>, model: string,
                                summarize: CompletionRequest -> Completion): (summary: string)
    ensures var c := summarize(CompletionRequest(model, SummaryPrompt(originalQuery, steps), ResearchTemperature, SummaryMaxTokens));
            (c.Reply? ==> summary == c.text) && (c.Failed? ==> summary == "Error generating summary: " + c.error)
  {
    match summarize(CompletionRequest(model, SummaryPrompt(originalQuery, steps), ResearchTemperature, SummaryMaxTokens))
    case Reply(t) => t
    case Failed(e) => "Error generating summary: " + e
  }

  // ---------------------------------------------------------------- what a run is

  /** The outside world of a run: the model, the search provider, and what the search
      and the analysis calls return in each round. */
  datatype Env = Env(
    model: string,
    provider: SearchProvider,
    search: (nat, SearchRequest) -> SearchReply,
    analyze: (nat, CompletionRequest) -> Completion)

  /** The new results of round `k` searching `query` after the steps `prior`. */
  function RoundResults(env: Env, k: nat, query: string, prior: seq<ResearchStep>): seq<Source> {
    NewResults(SearchItems(env.search(k, SearchRequest(query, env.provider, MaxSourcesPerRound))), UrlsOf(Ledger(prior)))
  }

  /** Step `step` is what round `k` records after the steps `prior`: its results are the
      new ones among the round's search results, its analysis the model's reply (or the
      error text) to the prompt built from them. */
  ghost predicate RoundRecorded(env: Env, k: nat, prior: seq<ResearchStep>, step: ResearchStep) {
    && step.results == RoundResults(env, k, step.query, prior)
    && step.analysis == AnalysisText(env.analyze(k, AnalysisRequest(env.model, step.query, step.results, prior)))
  }

  /** The rounds recorded so far, given the rule `decide` that names the query a step
      moves on to: no more than the cap allows; the first searched the original query
      and each later one the query its predecessor proposed, and found something new;
      each step is what its round records. The loop's rule is `Proposal`. */
  ghost predicate Recorded(
    env: Env, decide: ResearchStep -> Option<string>, query: string, maxIterations: int,
    steps: seq<ResearchStep>)
  {
    && (maxIterations <= 0 ==> steps == [])
    && (maxIterations > 0 ==> |steps| <= maxIterations)
    && (steps != [] ==> steps[0].query == query)
    && AllRoundsRecorded(env, steps)
    && Chained(decide, steps)
  }

  /** Each step is what its round records. */
  ghost predicate AllRoundsRecorded(env: Env, steps: seq<ResearchStep>) {
    forall k {:trigger RoundRecorded(env, k, steps[..k], steps[k])} ::
      0 <= k < |steps| ==> RoundRecorded(env, k, steps[..k], steps[k])
  }

  /** Each step after the first searched the query its predecessor proposed, and found
      something new. */
  ghost predicate Chained(decide: ResearchStep -> Option<string>, steps: seq<ResearchStep>) {
    forall k {:trigger steps[k].results} :: 0 < k < |steps| ==>
      decide(steps[k - 1]) == Some(steps[k].query) && steps[k].results != []
  }

  /** The "searching" and "analyzing" events of the recorded rounds. */
  function RoundEvents(steps: seq<ResearchStep>, maxIterations: int): (es: seq<ProgressEvent>)
    ensures |es| == 2 * |steps|
  {
    if steps == [] then []
    else
      var n := |steps|;
      RoundEvents(steps[..n - 1], maxIterations)
      + [Searching(n, maxIterations, steps[n - 1].query), Analyzing(n, |steps[n - 1].results|)]
  }

  /** The query of a round that started but stopped before analysis because it found
      nothing new (stopping rule A): it exists exactly when the last recorded step
      proposed a query and the iteration cap was not reached. */
  function RuleAQuery(decide: ResearchStep -> Option<string>, steps: seq<ResearchStep>, maxIterations: int)
    : (r: Option<string>)
    ensures r.Some? <==> 0 < |steps| < maxIterations && decide(steps[|steps| - 1]).Some?
  {
    if 0 < |steps| < maxIterations then decide(steps[|steps| - 1]) else None
  }

  /** The runs of the loop: the recorded rounds, at least one when the cap is positive;
      when the last step proposed a query below the cap, that query's round found
      nothing new; the events are the two per recorded round, the "searching" event of
      a round stopped for finding nothing new, and one final "summarizing" event. */
  ghost predicate IsRun(
    env: Env, decide: ResearchStep -> Option<string>, query: string, maxIterations: int,
    steps: seq<ResearchStep>, events: seq<ProgressEvent>)
  {
    && Recorded(env, decide, query, maxIterations, steps)
    && (maxIterations > 0 ==> steps != [])
    && var stopA := RuleAQuery(decide, steps, maxIterations);
       && (stopA.Some? ==> RoundResults(env, |steps|, stopA.value, steps) == [])
       && events == RoundEvents(steps, maxIterations)
                    + (if stopA.Some? then [Searching(|steps| + 1, maxIterations, stopA.value)] else [])
                    + [Summarizing]
  }

  lemma StepAt(
    env: Env, decide: ResearchStep -> Option<string>, query: string, maxIterations: int,
    steps: seq<ResearchStep>, k: nat)
    requires Recorded(env, decide, query, maxIterations, steps)
    requires k < |steps|
    ensures RoundRecorded(env, k, steps[..k], steps[k])
    ensures k == 0 ==> steps[k].query == query
    ensures k > 0 ==> decide(steps[k - 1]) == Some(steps[k].query) && steps[k].results != []
  {
  }

  lemma RecordedSnoc(
    env: Env, decide: ResearchStep -> Option<string>, query: string, maxIterations: int,
    steps: seq<ResearchStep>, step: ResearchStep)
    requires Recorded(env, decide, query, maxIterations, steps)
    requires |steps| < maxIterations
    requires steps == [] ==> step.query == query
    requires steps != [] ==> decide(steps[|steps| - 1]) == Some(step.query) && step.results != []
    requires RoundRecorded(env, |steps|, steps, step)
    ensures Recorded(env, decide, query, maxIterations, steps + [step])
  {
    AllRoundsSnoc(env, steps, step);
    ChainedSnoc(decide, steps, step);
  }

  lemma AllRoundsSnoc(env: Env, steps: seq<ResearchStep>, step: ResearchStep)
    requires AllRoundsRecorded(env, steps)
    requires RoundRecorded(env, |steps|, steps, step)
    ensures AllRoundsRecorded(env, steps + [step])
  {
    var s' := steps + [step];
    assert s'[..|steps|] == steps;
    forall k | 0 <= k < |s'| ensures RoundRecorded(env, k, s'[..k], s'[k]) {
      if k < |steps| {
        assert s'[..k] == steps[..k] && s'[k] == steps[k];
        assert RoundRecorded(env, k, steps[..k], steps[k]);
      }
    }
  }

  lemma ChainedSnoc(decide: ResearchStep -> Option<string>, steps: seq<ResearchStep>, step: ResearchStep)
    requires Chained(decide, steps)
    requires steps != [] ==> decide(steps[|steps| - 1]) == Some(step.query) && step.results != []
    ensures Chained(decide, steps + [step])
  {
    var s' := steps + [step];
    forall k | 0 < k < |s'| ensures decide(s'[k - 1]) == Some(s'[k].query) && s'[k].results != [] {
      if k < |steps| {
        assert s'[k - 1] == steps[k - 1] && s'[k] == steps[k];
        assert steps[k].results != [];
      }
    }
  }

  lemma RoundEventsSnoc(steps: seq<ResearchStep>, step: ResearchStep, maxIterations: int)
    ensures RoundEvents(steps + [step], maxIterations)
            == RoundEvents(steps, maxIterations)
               + [Searching(|steps| + 1, maxIterations, step.query)] + [Analyzing(|steps| + 1, |step.results|)]
  {
    assert (steps + [step])[..|steps|] == steps;
    var e := RoundEvents(steps, maxIterations);
    var x, y := Searching(|steps| + 1, maxIterations, step.query), Analyzing(|steps| + 1, |step.results|);
    assert e + [x, y] == e + [x] + [y];
  }

  /** The analysis part of a round: builds the prompt from the round's new results and
      the recap of the earlier steps, and asks the model, turning a failure into an
      error text. */
  method AnalyzeRound(k: nat, model: string, query: string, newResults: seq<Source>, prior: seq<ResearchStep>,
                      analyze: (nat, CompletionRequest) -> Completion)
    returns (analysis: string)
    ensures analysis == AnalysisText(analyze(k, AnalysisRequest(model, query, newResults, prior)))
  {
    var previous := "None yet.";
    if prior != [] {
      previous := SummarizeSteps(prior);
    }
    var request := CompletionRequest(model, AnalysisPrompt(query, newResults, previous),
                                     ResearchTemperature, AnalysisMaxTokens);
    analysis := AnalysisText(analyze(k, request));
  }

  /** The end of a round: stop when the analysis declares completion (stopping rule B),
      otherwise move on to the proposed query unless there is none or it repeats the
      round's query. */
  method DecideNext(step: ResearchStep, originalQuery: string) returns (next: Option<string>)
    ensures next == Proposal(step)
  {
    if Contains(Upper(step.analysis), CompletionMarker) {
      return None;
    }
    var nextQuery := ExtractNextQuery(step.analysis, originalQuery);
    if nextQuery.Some? && nextQuery.value != step.query {
      return nextQuery;
    }
    return None;
  }

  // ---------------------------------------------------------------- the loop

  /** The ledger kept by the loop: the steps' results in order, their url set, and
      those urls non-empty and pairwise distinct. */
  ghost predicate LedgerKept(steps: seq<ResearchStep>, allSources: seq<Source>, seenUrls: set<string>) {
    && allSources == Ledger(steps) && seenUrls == UrlsOf(allSources)
    && NonEmptyUrls(allSources) && DistinctUrls(allSources)
  }

  /** The loop's control state: while it goes on, the query of the next round; once it
      has stopped, whether rule A stopped it. */
  ghost predicate Control(
    decide: ResearchStep -> Option<string>, query: string, maxIterations: int, steps: seq<ResearchStep>,
    currentQuery: string, done: bool, stopA: Option<string>)
  {
    && (maxIterations > 0 && steps == [] ==> !done)
    && (!done ==> stopA.None?)
    && (!done && steps == [] ==> currentQuery == query)
    && (!done && steps != [] ==> decide(steps[|steps| - 1]) == Some(currentQuery))
    && (done ==> stopA == RuleAQuery(decide, steps, maxIterations))
  }

  ghost predicate EventsSoFar(maxIterations: int, steps: seq<ResearchStep>, stopA: Option<string>, events: seq<ProgressEvent>) {
    events == RoundEvents(steps, maxIterations)
              + (if stopA.Some? then [Searching(|steps| + 1, maxIterations, stopA.value)] else [])
  }

  /** What holds of the loop's variables between rounds. */
  ghost predicate ResearchLoop(
    env: Env, decide: ResearchStep -> Option<string>, query: string, maxIterations: int,
    steps: seq<ResearchStep>, allSources: seq<Source>, seenUrls: set<string>,
    currentQuery: string, done: bool, stopA: Option<string>, events: seq<ProgressEvent>)
  {
    && Recorded(env, decide, query, maxIterations, steps)
    && Control(decide, query, maxIterations, steps, currentQuery, done, stopA)
    && LedgerKept(steps, allSources, seenUrls)
    && (stopA.Some? ==> RoundResults(env, |steps|, stopA.value, steps) == [])
    && EventsSoFar(maxIterations, steps, stopA, events)
  }

  lemma LoopStarts(env: Env, decide: ResearchStep -> Option<string>, query: string, maxIterations: int)
    ensures ResearchLoop(env, decide, query, maxIterations, [], [], {}, query, false, None, [])
  {
  }

  /** A round after the first that finds nothing new stops the loop (rule A) without
      recording a step. */
  lemma RoundFindsNothing(
    env: Env, decide: ResearchStep -> Option<string>, query: string, maxIterations: int,
    steps: seq<ResearchStep>, allSources: seq<Source>, seenUrls: set<string>,
    currentQuery: string, events: seq<ProgressEvent>, newResults: seq<Source>)
    requires ResearchLoop(env, decide, query, maxIterations, steps, allSources, seenUrls, currentQuery, false, None, events)
    requires 0 < |steps| < maxIterations
    requires newResults == RoundResults(env, |steps|, currentQuery, steps)
    requires newResults == []
    ensures ResearchLoop(env, decide, query, maxIterations,
                         steps, allSources + newResults, seenUrls + UrlsOf(newResults), currentQuery, true, Some(currentQuery),
                         events + [Searching(|steps| + 1, maxIterations, currentQuery)])
  {
    assert allSources + newResults == allSources;
    assert seenUrls + UrlsOf(newResults) == seenUrls;
    assert Control(decide, query, maxIterations, steps, currentQuery, true, Some(currentQuery));
    var e := RoundEvents(steps, maxIterations);
    assert e + [] == e;
  }

  /** A round that is analysed records its step, and the loop goes on with the query
      the step proposes, or stops when it proposes none. */
  lemma RoundIsRecorded(
    env: Env, decide: ResearchStep -> Option<string>, query: string, maxIterations: int,
    steps: seq<ResearchStep>, allSources: seq<Source>, seenUrls: set<string>,
    currentQuery: string, events: seq<ProgressEvent>, step: ResearchStep, next: Option<string>)
    requires ResearchLoop(env, decide, query, maxIterations, steps, allSources, seenUrls, currentQuery, false, None, events)
    requires |steps| < maxIterations
    requires step.query == currentQuery
    requires step.results == RoundResults(env, |steps|, currentQuery, steps)
    requires step.results == [] ==> steps == []
    requires step.analysis == AnalysisText(env.analyze(|steps|, AnalysisRequest(env.model, currentQuery, step.results, steps)))
    requires next == decide(step)
    ensures ResearchLoop(env, decide, query, maxIterations,
                         steps + [step], allSources + step.results, seenUrls + UrlsOf(step.results),
                         next.GetOr(currentQuery), next.None?, None,
                         events + [Searching(|steps| + 1, maxIterations, currentQuery)] + [Analyzing(|steps| + 1, |step.results|)])
  {
    RecordedSnoc(env, decide, query, maxIterations, steps, step);
    LedgerKeptSnoc(steps, allSources, seenUrls, SearchItems(env.search(|steps|, SearchRequest(currentQuery, env.provider, MaxSourcesPerRound))), step);
    ControlSnoc(decide, query, maxIterations, steps, step, next);
    EventsSnoc(maxIterations, steps, events, step);
  }

  lemma EventsSnoc(maxIterations: int, steps: seq<ResearchStep>, events: seq<ProgressEvent>, step: ResearchStep)
    requires EventsSoFar(maxIterations, steps, None, events)
    ensures EventsSoFar(maxIterations, steps + [step], None,
                        events + [Searching(|steps| + 1, maxIterations, step.query)] + [Analyzing(|steps| + 1, |step.results|)])
  {
    var e := RoundEvents(steps, maxIterations);
    assert e + [] == e;
    RoundEventsSnoc(steps, step, maxIterations);
    var e' := RoundEvents(steps + [step], maxIterations);
    assert e' + [] == e';
  }

  lemma LedgerKeptSnoc(steps: seq<ResearchStep>, allSources: seq<Source>, seenUrls: set<string>,
                       results: seq<Source>, step: ResearchStep)
    requires LedgerKept(steps, allSources, seenUrls)
    requires step.results == NewResults(results, seenUrls)
    ensures LedgerKept(steps + [step], allSources + step.results, seenUrls + UrlsOf(step.results))
  {
    LedgerExtends(allSources, results, seenUrls);
    LedgerSnoc(steps, step);
  }

  lemma ControlSnoc(
    decide: ResearchStep -> Option<string>, query: string, maxIterations: int,
    steps: seq<ResearchStep>, step: ResearchStep, next: Option<string>)
    requires |steps| < maxIterations
    requires next == decide(step)
    ensures Control(decide, query, maxIterations, steps + [step], next.GetOr(step.query), next.None?, None)
  {
    assert (steps + [step])[|steps|] == step;
  }

  /** When the loop exits, the recorded rounds and the events so far, closed by the
      "summarizing" event, form a run. */
  lemma FinishRun(
    env: Env, decide: ResearchStep -> Option<string>, query: string, maxIterations: int,
    steps: seq<ResearchStep>, allSources: seq<Source>, seenUrls: set<string>,
    currentQuery: string, done: bool, stopA: Option<string>, events: seq<ProgressEvent>)
    requires ResearchLoop(env, decide, query, maxIterations, steps, allSources, seenUrls, currentQuery, done, stopA, events)
    requires done || |steps| >= maxIterations
    ensures IsRun(env, decide, query, maxIterations, steps, events + [Summarizing])
  {
    assert stopA == RuleAQuery(decide, steps, maxIterations);
  }

  /** `conduct_research`. The report's steps and the progress events form a run of the
      loop under the stopping rule `Proposal` (`IsRun`); the sources are the steps'
      results in round order, with non-empty, pairwise distinct urls; and the summary is
      the synthesis reply or its error text. */
  method ConductResearch(
    query: string, model: string, maxIterations: int, provider: SearchProvider,
    search: (nat, SearchRequest) -> SearchReply,
    analyze: (nat, CompletionRequest) -> Completion,
    summarize: CompletionRequest -> Completion)
    returns (report: ResearchReport, events: seq<ProgressEvent>)
    ensures IsRun(Env(model, provider, search, analyze), Proposal, query, maxIterations, report.steps, events)
    ensures report.originalQuery == query
    ensures report.sources == Ledger(report.steps)
    ensures report.totalSourcesAnalyzed == |report.sources|
    ensures NonEmptyUrls(report.sources) && DistinctUrls(report.sources)
    ensures report.finalSummary == GenerateFinalSummary(query, report.steps, model, summarize)
  {
    ghost var env := Env(model, provider, search, analyze);
    var steps: seq<ResearchStep> := [];
    var allSources: seq<Source> := [];
    var seenUrls: set<string> := {};
    var currentQuery := query;
    events := [];

    var iteration := 0;
    var done := false;
    ghost var stopA: Option<string> := None;
    LoopStarts(env, Proposal, query, maxIterations);
    while !done && iteration < maxIterations
      invariant |steps| == iteration
      invariant ResearchLoop(env, Proposal, query, maxIterations, steps, allSources, seenUrls, currentQuery, done, stopA, events)
    {
      ghost var events0 := events;
      events := events + [Searching(iteration + 1, maxIterations, currentQuery)];

      var reply := search(iteration, SearchRequest(currentQuery, provider, MaxSourcesPerRound));
      var results := SearchItems(reply);
      var newResults, seenAfter := FilterNewResults(results, seenUrls);

      if newResults == [] && iteration > 0 {
        // stopping rule A: nothing new after the first round
        RoundFindsNothing(env, Proposal, query, maxIterations, steps, allSources, seenUrls, currentQuery, events0, newResults);
        seenUrls := seenAfter;
        allSources := allSources + newResults;
        stopA := Some(currentQuery);
        done := true;
      } else {
        events := events + [Analyzing(iteration + 1, |newResults|)];
        var analysis := AnalyzeRound(iteration, model, currentQuery, newResults, steps, analyze);
        var step := ResearchStep(currentQuery, newResults, analysis);
        var next := DecideNext(step, query);
        RoundIsRecorded(env, Proposal, query, maxIterations, steps, allSources, seenUrls, currentQuery, events0, step, next);
        seenUrls := seenAfter;
        allSources := allSources + newResults;
        steps := steps + [step];
        iteration := iteration + 1;
        if next.Some? {
          currentQuery := next.value;
        } else {
          done := true;
        }
      }
    }

    FinishRun(env, Proposal, query, maxIterations, steps, allSources, seenUrls, currentQuery, done, stopA, events);
    events := events + [Summarizing];
    var finalSummary := GenerateFinalSummary(query, steps, model, summarize);
    report := ResearchReport(query, steps, finalSummary, allSources, |allSources|);
  }

  // ---------------------------------------------------------------- properties of runs

  lemma {:induction false} RoundEventsCounts(steps: seq<ResearchStep>, maxIterations: int)
    ensures Summarizing !in RoundEvents(steps, maxIterations)
    ensures forall i :: 0 <= i < |steps| ==>
              RoundEvents(steps, maxIterations)[2 * i] == Searching(i + 1, maxIterations, steps[i].query)
              && RoundEvents(steps, maxIterations)[2 * i + 1] == Analyzing(i + 1, |steps[i].results|)
  {
    if steps != [] {
      var n := |steps|;
      var prefix := steps[..n - 1];
      RoundEventsCounts(prefix, maxIterations);
      var pe := RoundEvents(prefix, maxIterations);
      var es := RoundEvents(steps, maxIterations);
      var last := [Searching(n, maxIterations, steps[n - 1].query), Analyzing(n, |steps[n - 1].results|)];
      assert es == pe + last;
      forall i | 0 <= i < n
        ensures es[2 * i] == Searching(i + 1, maxIterations, steps[i].query)
        ensures es[2 * i + 1] == Analyzing(i + 1, |steps[i].results|)
      {
        if i < n - 1 {
          assert steps[i] == prefix[i];
          assert es[2 * i] == pe[2 * i] && es[2 * i + 1] == pe[2 * i + 1];
        }
      }
    }
  }

  /** The progress events of a run: round i (1-based) of the recorded steps emits
      "searching" with its query and then "analyzing" with its count of new results; a
      round stopped for finding nothing new emits "searching" only; "summarizing" comes
      exactly once, last. */
  lemma RunEvents(
    env: Env, decide: ResearchStep -> Option<string>, query: string, maxIterations: int,
    steps: seq<ResearchStep>, events: seq<ProgressEvent>)
    requires IsRun(env, decide, query, maxIterations, steps, events)
    ensures |events| == 2 * |steps| + (if RuleAQuery(decide, steps, maxIterations).Some? then 2 else 1)
    ensures events[|events| - 1] == Summarizing && Summarizing !in events[..|events| - 1]
    ensures forall i :: 0 <= i < |steps| ==>
              events[2 * i] == Searching(i + 1, maxIterations, steps[i].query)
              && events[2 * i + 1] == Analyzing(i + 1, |steps[i].results|)
    ensures RuleAQuery(decide, steps, maxIterations).Some? ==>
              events[2 * |steps|] == Searching(|steps| + 1, maxIterations, RuleAQuery(decide, steps, maxIterations).value)
  {
    EventsLayout(steps, maxIterations, RuleAQuery(decide, steps, maxIterations), events);
  }

  lemma EventsLayout(steps: seq<ResearchStep>, maxIterations: int, stopA: Option<string>, events: seq<ProgressEvent>)
    requires events == RoundEvents(steps, maxIterations)
                       + (if stopA.Some? then [Searching(|steps| + 1, maxIterations, stopA.value)] else [])
                       + [Summarizing]
    ensures |events| == 2 * |steps| + (if stopA.Some? then 2 else 1)
    ensures events[|events| - 1] == Summarizing && Summarizing !in events[..|events| - 1]
    ensures forall i :: 0 <= i < |steps| ==>
              events[2 * i] == Searching(i + 1, maxIterations, steps[i].query)
              && events[2 * i + 1] == Analyzing(i + 1, |steps[i].results|)
    ensures stopA.Some? ==> events[2 * |steps|] == Searching(|steps| + 1, maxIterations, stopA.value)
  {
    RoundEventsCounts(steps, maxIterations);
    var re := RoundEvents(steps, maxIterations);
    var extra: seq<ProgressEvent> := if stopA.Some? then [Searching(|steps| + 1, maxIterations, stopA.value)] else [];
    assert events[..|events| - 1] == re + extra;
  }

  /** With a cap of zero or less no round runs: no steps, no sources, and the only event
      is "summarizing". */
  lemma {:induction false} NoRoundsWithoutIterations(
    env: Env, decide: ResearchStep -> Option<string>, query: string, maxIterations: int,
    steps: seq<ResearchStep>, events: seq<ProgressEvent>)
    requires IsRun(env, decide, query, maxIterations, steps, events)
    requires maxIterations <= 0
    ensures steps == [] && Ledger(steps) == [] && events == [Summarizing]
  {
    assert RoundEvents(steps, maxIterations) == [];
  }

  /** Under the loop's rule, a step whose analysis carries the completion marker is the
      last one, and no further round is even started. */
  lemma CompletionEndsRun(
    env: Env, query: string, maxIterations: int, steps: seq<ResearchStep>, events: seq<ProgressEvent>, k: nat)
    requires IsRun(env, Proposal, query, maxIterations, steps, events)
    requires k < |steps| && IsComplete(steps[k].analysis)
    ensures k == |steps| - 1
    ensures RuleAQuery(Proposal, steps, maxIterations).None?
  {
    assert Proposal(steps[k]).None?;
    if k < |steps| - 1 {
      StepAt(env, Proposal, query, maxIterations, steps, k + 1);
    }
  }

  /** Every url in the ledger of recorded rounds is non-empty and appears once. */
  lemma LedgerIsDeduplicated(
    env: Env, decide: ResearchStep -> Option<string>, query: string, maxIterations: int,
    steps: seq<ResearchStep>)
    requires Recorded(env, decide, query, maxIterations, steps)
    ensures NonEmptyUrls(Ledger(steps)) && DistinctUrls(Ledger(steps))
  {
    LedgerPrefixDeduplicated(env, steps, |steps|);
    assert steps[..|steps|] == steps;
  }

  /** The ledger of the first `n` recorded rounds has non-empty, pairwise distinct urls. */
  lemma {:induction false} LedgerPrefixDeduplicated(env: Env, steps: seq<ResearchStep>, n: nat)
    requires AllRoundsRecorded(env, steps)
    requires n <= |steps|
    ensures NonEmptyUrls(Ledger(steps[..n])) && DistinctUrls(Ledger(steps[..n]))
  {
    if n > 0 {
      LedgerPrefixDeduplicated(env, steps, n - 1);
      var prior, step := steps[..n - 1], steps[n - 1];
      RoundResultsAt(env, steps, n - 1);
      LedgerStepDeduplicated(prior, step,
        SearchItems(env.search(n - 1, SearchRequest(step.query, env.provider, MaxSourcesPerRound))));
      assert steps[..n] == prior + [step];
    }
  }

  lemma RoundResultsAt(env: Env, steps: seq<ResearchStep>, k: nat)
    requires AllRoundsRecorded(env, steps)
    requires k < |steps|
    ensures steps[k].results == RoundResults(env, k, steps[k].query, steps[..k])
  {
    assert RoundRecorded(env, k, steps[..k], steps[k]);
  }

  /** A step whose results are the round filter's output keeps the ledger deduplicated. */
  lemma LedgerStepDeduplicated(prior: seq<ResearchStep>, step: ResearchStep, items: seq<Source>)
    requires NonEmptyUrls(Ledger(prior)) && DistinctUrls(Ledger(prior))
    requires step.results == NewResults(items, UrlsOf(Ledger(prior)))
    ensures NonEmptyUrls(Ledger(prior + [step])) && DistinctUrls(Ledger(prior + [step]))
  {
    LedgerExtends(Ledger(prior), items, UrlsOf(Ledger(prior)));
    LedgerSnoc(prior, step);
  }

  lemma RecordedPrefix(
    env: Env, decide: ResearchStep -> Option<string>, query: string, maxIterations: int,
    steps: seq<ResearchStep>)
    requires Recorded(env, decide, query, maxIterations, steps)
    requires steps != []
    ensures Recorded(env, decide, query, maxIterations, steps[..|steps| - 1])
  {
    var prior := steps[..|steps| - 1];
    forall k | 0 <= k < |prior| ensures RoundRecorded(env, k, prior[..k], prior[k]) {
      assert prior[..k] == steps[..k];
      StepAt(env, decide, query, maxIterations, steps, k);
    }
    forall k | 0 < k < |prior| ensures decide(prior[k - 1]) == Some(prior[k].query) && prior[k].results != [] {
      StepAt(env, decide, query, maxIterations, steps, k);
    }
  }

  /** A round's step is fixed by its query and the steps before it. */
  lemma StepDetermined(env: Env, k: nat, prior: seq<ResearchStep>, a: ResearchStep, b: ResearchStep)
    requires RoundRecorded(env, k, prior, a)
    requires RoundRecorded(env, k, prior, b)
    requires a.query == b.query
    ensures a == b
  {
  }

  /** When every round's search returns the same list, a second round can find nothing
      new, so a run records at most one step. */
  lemma SameResultsGiveOneStep(
    env: Env, decide: ResearchStep -> Option<string>, query: string, maxIterations: int,
    steps: seq<ResearchStep>, events: seq<ProgressEvent>, items: seq<Source>)
    requires IsRun(env, decide, query, maxIterations, steps, events)
    requires forall k: nat, r: SearchRequest :: SearchItems(env.search(k, r)) == items
    ensures |steps| <= 1
  {
    if |steps| >= 2 {
      StepAt(env, decide, query, maxIterations, steps, 0);
      StepAt(env, decide, query, maxIterations, steps, 1);
      var s0, s1 := steps[0], steps[1];
      assert steps[..0] == [] && steps[..1] == [s0];
      assert Ledger([s0]) == s0.results by {
        assert [s0][..0] == [];
      }
      assert UrlsOf([]) == {};
      assert s0.results == NewResults(items, {});
      NewResultsAreNew(items, {});
      assert s1.results == NewResults(items, UrlsOf(s0.results));
      NothingNewWhenAllSeen(items, UrlsOf(s0.results));
    }
  }

  /** Two recorded runs over the same world that agree before round `k` agree on it. */
  lemma NextRoundAgrees(
    env: Env, decide: ResearchStep -> Option<string>, query: string, maxIterations: int,
    s1: seq<ResearchStep>, s2: seq<ResearchStep>, k: nat)
    requires Recorded(env, decide, query, maxIterations, s1)
    requires Recorded(env, decide, query, maxIterations, s2)
    requires k < |s1| && k < |s2|
    requires s1[..k] == s2[..k]
    ensures s1[k] == s2[k]
  {
    StepAt(env, decide, query, maxIterations, s1, k);
    StepAt(env, decide, query, maxIterations, s2, k);
    if k > 0 {
      assert s1[k - 1] == s1[..k][k - 1] == s2[k - 1];
    }
    StepDetermined(env, k, s1[..k], s1[k], s2[k]);
  }

  /** Two recorded runs over the same world agree on their common rounds. */
  lemma {:induction false} RecordedAgree(
    env: Env, decide: ResearchStep -> Option<string>, query: string, maxIterations: int,
    s1: seq<ResearchStep>, s2: seq<ResearchStep>, n: nat)
    requires Recorded(env, decide, query, maxIterations, s1)
    requires Recorded(env, decide, query, maxIterations, s2)
    requires n <= |s1| && n <= |s2|
    ensures s1[..n] == s2[..n]
  {
    if n > 0 {
      RecordedAgree(env, decide, query, maxIterations, s1, s2, n - 1);
      NextRoundAgrees(env, decide, query, maxIterations, s1, s2, n - 1);
      assert s1[..n] == s1[..n - 1] + [s1[n - 1]];
      assert s2[..n] == s2[..n - 1] + [s2[n - 1]];
    }
  }

  /** A run that stopped below the cap recorded at least one round, and the query its
      last step proposes, if any, finds nothing new. */
  lemma RunStoppedForAReason(
    env: Env, decide: ResearchStep -> Option<string>, query: string, maxIterations: int,
    steps: seq<ResearchStep>, events: seq<ProgressEvent>, q: string)
    requires IsRun(env, decide, query, maxIterations, steps, events)
    requires |steps| < maxIterations
    requires steps != [] ==> decide(steps[|steps| - 1]) == Some(q)
    ensures steps != []
    ensures RoundResults(env, |steps|, q, steps) == []
  {
  }

  /** A longer recorded run over the same world continues a shorter one: it repeats its
      rounds, and its next round searches the query the last of them proposed. */
  lemma RecordedExtends(
    env: Env, decide: ResearchStep -> Option<string>, query: string, maxIterations: int,
    s1: seq<ResearchStep>, s2: seq<ResearchStep>)
    requires Recorded(env, decide, query, maxIterations, s1)
    requires Recorded(env, decide, query, maxIterations, s2)
    requires |s1| < |s2|
    ensures s1 == s2[..|s1|]
    ensures s2[|s1|].results == RoundResults(env, |s1|, s2[|s1|].query, s1)
    ensures s1 != [] ==> decide(s1[|s1| - 1]) == Some(s2[|s1|].query) && s2[|s1|].results != []
  {
    var n := |s1|;
    StepAt(env, decide, query, maxIterations, s2, n);
    RecordedAgree(env, decide, query, maxIterations, s1, s2, n);
    assert s1 == s2[..n];
  }

  /** A run stops for a reason: no recorded run over the same world goes further. */
  lemma ShorterRunIsNotLonger(
    env: Env, decide: ResearchStep -> Option<string>, query: string, maxIterations: int,
    s1: seq<ResearchStep>, e1: seq<ProgressEvent>, s2: seq<ResearchStep>)
    requires IsRun(env, decide, query, maxIterations, s1, e1)
    requires Recorded(env, decide, query, maxIterations, s2)
    ensures |s2| <= |s1|
  {
    if |s1| < |s2| {
      RecordedExtends(env, decide, query, maxIterations, s1, s2);
      assert false;
    }
  }

  /** The loop is determined by its inputs: two runs over the same query, cap, world and
      rule record the same steps and emit the same events. */
  lemma RunIsDetermined(
    env: Env, decide: ResearchStep -> Option<string>, query: string, maxIterations: int,
    s1: seq<ResearchStep>, e1: seq<ProgressEvent>, s2: seq<ResearchStep>, e2: seq<ProgressEvent>)
    requires IsRun(env, decide, query, maxIterations, s1, e1)
    requires IsRun(env, decide, query, maxIterations, s2, e2)
    ensures s1 == s2 && e1 == e2
  {
    ShorterRunIsNotLonger(env, decide, query, maxIterations, s1, e1, s2);
    ShorterRunIsNotLonger(env, decide, query, maxIterations, s2, e2, s1);
    RecordedAgree(env, decide, query, maxIterations, s1, s2, |s1|);
    assert s1 == s1[..|s1|] && s2 == s2[..|s2|];
  }
}
