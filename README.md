# pixel-knight backend, modelled in Dafny

This project models the core of the pixel-knight chat backend, a FastAPI server in Python. The model covers:

- the multi-round deep-research loop;
- the LLM service's history truncation, message assembly, client cache and session naming;
- the in-memory session store;
- the prompt-preset registry;
- the API-provider registry and its model-to-provider routing;
- directory indexing and keyword retrieval with snippet windows;
- YouTube video-id extraction;
- the request and record types;
- the decision logic of the web handlers: auto-naming, regenerate, chat overrides, export, upload check and preset deletion.

Each source file becomes one module:

| module | file | form |
|---|---|---|
| `Research` | `backend/services/research_service.py` | the loop is a method with invariants, specified by the ghost predicate `IsRun` |
| `Llm` | `backend/services/llm_service.py` | truncation is a backward loop; the client cache and usage counters are a class |
| `Sessions` | `backend/services/session_service.py` | class `SessionService` over an insertion-ordered dictionary |
| `Presets` | `backend/services/preset_service.py` | class `PresetService`; the lookups are functions |
| `Providers` | `backend/services/provider_service.py` | class `ProviderService`; routing is a scan proved equal to a function |
| `Rag` | `backend/services/rag_service.py` | class `RagService`; the snippet scan is a loop over the query words |
| `YouTube` | `backend/services/youtube_service.py` | pure functions; `re.search` is a leftmost scan |
| `Models` | `backend/models.py` | datatypes and field validation |
| `Handlers` | `backend/main.py` | functions, plus methods that drive the services |

Supporting modules:

- `Wrappers`: `Option` and `Result`.
- `Text`: ASCII models of the Python string built-ins used (`lower`, `upper`, `in`, `find`, `split`, `strip`, `join`).
- `Seqs`: subsequences and first-index search.
- `Dicts`: an insertion-ordered dictionary, as Python's `dict`.
- `Sorting`: the stable descending sort and the sorted set of strings.

Outside effects become parameters:

- Search results, completions and the oEmbed lookup are functions passed in.
- Fresh ids (`uuid4`) are passed in.
- A directory to index arrives as whether it exists and the list of entries its walk yields.
- The current time is a natural number `now`.
- Formatted timestamps are strings supplied by the caller.

## Model

| member | source | states |
|---|---|---|
| `Models.ParseSearchProvider` | backend/models.py:9-13 | exactly "searxng", "brave" and "duckduckgo" are accepted, each as the value with that wire string |
| `Models.ParseMessageRole` | backend/models.py:16-20 | exactly "user", "assistant" and "system" are accepted |
| `Models.ParseAPIProviderType` | backend/models.py:190-200 | exactly the nine provider-type wire strings are accepted; any other string is no type's value |
| `Models.EnumRoundTrip` | backend/models.py:9-20 | every enumeration value parses back from its wire string, so distinct values have distinct strings |
| `Models.NewChatSession` | backend/models.py:33-46 | a new session has no messages, 0 tokens used, max_tokens 2048, temperature 0.7 and the default system prompt |
| `Models.NewLLMParameters` | backend/models.py:49-53 | a max_tokens value is accepted iff it lies in 1..32000, and is then kept with the system prompt |
| `Models.NewAPIProvider` | backend/models.py:203-212 | a new provider is enabled, with an empty key and no cached models |
| `Models.NewDeepResearchRequest` | backend/models.py:145-149 | max_iterations defaults to 5 and any given integer is kept, with no lower bound; the provider defaults to DuckDuckGo |
| `Research.NewResultsAreNew` | backend/services/research_service.py:87-94 | a round keeps a subsequence of its results whose urls are non-empty, pairwise distinct and unseen; every other non-empty url of the round was already seen |
| `Research.NothingNewWhenAllSeen` | backend/services/research_service.py:87-94 | when every non-empty url of a round is already in the ledger, the round keeps nothing |
| `Research.FilterNewResults` | backend/services/research_service.py:88-94 | the filtering loop keeps exactly the new results and adds exactly their urls to the seen set |
| `Research.LedgerExtends` | backend/services/research_service.py:87-94 | appending a round's new results keeps the ledger's urls non-empty and distinct, and the seen set is the ledger's url set |
| `Research.AnalysisText` | backend/services/research_service.py:137-138 | a failed analysis becomes "Error analyzing results: " followed by the error |
| `Research.NextQuery` | backend/services/research_service.py:191-204 | a proposed follow-up query is always longer than 10 characters |
| `Research.ExtractNextQuery` | backend/services/research_service.py:191-204 | the line scan returns the candidate of the first qualifying line (follow-up keyword, a colon, over 10 characters after stripping), else None |
| `Research.Proposal` | backend/services/research_service.py:147-156 | the loop moves on iff the analysis lacks RESEARCH_COMPLETE (upper-cased) and proposes a query different from the current one, and then moves to that query |
| `Research.DecideNext` | backend/services/research_service.py:147-156 | the end-of-round decision computes `Proposal` |
| `Research.SummarizeSteps` | backend/services/research_service.py:180-189 | the recap is one 1-based "Round i (query): ..." line per step joined by newlines, and is empty iff there are no steps |
| `Research.AnalyzeRound` | backend/services/research_service.py:108-138 | the analysis is the model's reply to the prompt built from the new results and the recap ("None yet." for no steps), or the error text |
| `Research.GenerateFinalSummary` | backend/services/research_service.py:232-242 | the summary is the synthesis reply, or "Error generating summary: " followed by the error |
| `Research.RoundEvents` | backend/services/research_service.py:66-106 | each recorded round contributes two progress events |
| `Research.RuleAQuery` | backend/services/research_service.py:96-98 | a round is cut short for finding nothing new iff the last step proposed a query and the cap was not reached |
| `Research.RoundFindsNothing` | backend/services/research_service.py:96-98 | a later round with no new results stops the loop after its "searching" event and records no step |
| `Research.RoundIsRecorded` | backend/services/research_service.py:140-156 | an analysed round appends its step and continues with the proposed query, or stops when there is none |
| `Research.FinishRun` | backend/services/research_service.py:158-162 | when the loop ends, the steps and events so far plus one "summarizing" event form a run |
| `Research.ConductResearch` | backend/services/research_service.py:37-178 | the report's steps and events form a run under `Proposal`; sources are the steps' results in round order with non-empty distinct urls; total_sources_analyzed is their number; the summary is the synthesis reply or its error text |
| `Research.RunEvents` | backend/services/research_service.py:66-162 | a run has two events per step, plus "searching" for a round stopped for finding nothing new, and "summarizing" exactly once, last |
| `Research.NoRoundsWithoutIterations` | backend/services/research_service.py:66 | with max_iterations <= 0 there are no steps, no sources, and the only event is "summarizing" |
| `Research.CompletionEndsRun` | backend/services/research_service.py:148-149 | a step whose analysis contains the completion marker is the last step, and no further round starts |
| `Research.LedgerIsDeduplicated` | backend/services/research_service.py:87-94 | the urls of all recorded sources are non-empty and pairwise distinct |
| `Research.StepDetermined` | backend/services/research_service.py:140-145 | a round's step is fixed by its query and the earlier steps |
| `Research.SameResultsGiveOneStep` | backend/services/research_service.py:87-98 | when every search returns the same list, a run records at most one step |
| `Research.RunStoppedForAReason` | backend/services/research_service.py:96-156 | a run that stops below the cap has at least one step, and its last proposal, if any, finds nothing new |
| `Research.ShorterRunIsNotLonger` | backend/services/research_service.py:66-156 | no recorded run over the same inputs goes further than a finished run |
| `Research.RunIsDetermined` | backend/services/research_service.py:66-162 | two runs over the same query, cap and oracles have the same steps and the same events |
| `Llm.EstimateTokens` | backend/services/llm_service.py:56-58 | the estimate n satisfies 4n <= len(text) < 4n + 4 (floor of len/4) |
| `Llm.TruncateMessages` | backend/services/llm_service.py:60-90 | the reverse scan returns the input when it is empty or fits the budget, otherwise the backward pick |
| `Llm.TruncationKeepsOrder` | backend/services/llm_service.py:81-88 | the result is a subsequence of the input, in order, not necessarily contiguous |
| `Llm.TruncationKeepsLast` | backend/services/llm_service.py:81-88 | for non-empty input the last message survives, so the result is non-empty |
| `Llm.TruncationFitsBudget` | backend/services/llm_service.py:83-88 | the result's summed estimate is within max_tokens unless it is the last message alone and that message exceeds the budget |
| `Llm.TruncationShortcut` | backend/services/llm_service.py:67-74 | a history that fits is returned unchanged, and the scan would keep all of it too |
| `Llm.FormatMessages` | backend/services/llm_service.py:104-119 | a system entry comes first iff the system prompt is non-empty, then the history truncated to 4000 tokens, in order, with role wire strings |
| `Llm.KeyTag` | backend/services/llm_service.py:21 | the key part of the cache key is the key's first (at most 8) characters, or "nokey" for an empty key |
| `Llm.CacheKeyCollisions` | backend/services/llm_service.py:21 | two keys sharing their first 8 characters, or the keys "nokey" and "", share a cache entry |
| `Llm.CacheKeyDistinguishesTags` | backend/services/llm_service.py:21 | for one endpoint, two keys share a cache entry iff their tags agree |
| `Llm.LlmService.constructor` | backend/services/llm_service.py:12-17 | the service starts with no clients and zero counters |
| `Llm.LlmService.GetClient` | backend/services/llm_service.py:19-29 | an existing cache entry is reused; otherwise a client for the endpoint and key (or the placeholder key) is added; counters are unchanged |
| `Llm.LlmService.GetProviderClient` | backend/services/llm_service.py:31-40 | the client cached for the endpoint and key of the provider `ProviderForModel` chooses for the model, or for the default endpoint and key when it chooses none; a new cache entry is added only when missing, and the counters are kept |
| `Llm.LlmService.UpdateClient` | backend/services/llm_service.py:42-44 | the cache is emptied and the counters are kept |
| `Llm.LlmService.RecordCompletion` | backend/services/llm_service.py:133-136 | the tokens used are the reported total or 0; the token counter grows by them and the request counter by one |
| `Llm.LlmService.RecordStream` | backend/services/llm_service.py:180 | a stream counts one request and no tokens |
| `Llm.LlmService.GetUsageStats` | backend/services/llm_service.py:215-217 | the counters are reported as they are |
| `Llm.LlmService.ResetUsageStats` | backend/services/llm_service.py:219-224 | both counters return to zero, and the cache is kept |
| `Llm.NameRequestFor` | backend/services/llm_service.py:192-206 | the naming request is the fixed instruction plus the first message cut to its first 500 characters |
| `Llm.CleanName` | backend/services/llm_service.py:207-213 | the name is never empty; a failed call gives "New Chat"; any other name has at most 50 characters and does not start with a quote |
| `Llm.CleanNameIsPartOfReply` | backend/services/llm_service.py:207-210 | a generated name other than the default is a contiguous piece of the model's reply |
| `Llm.GenerateSessionName` | backend/services/llm_service.py:188-213 | the result is `CleanName` of the reply to the naming request for the first message, so it is "New Chat" or a non-empty name of at most 50 characters |
| `Llm.CleanNameKeepsTidyReply` | backend/services/llm_service.py:207-210 | a reply of 1 to 50 characters that neither starts nor ends with whitespace or a quote is the name as it is |
| `Llm.CleanNameOfBlankReply` | backend/services/llm_service.py:207-210 | a reply made of whitespace, then quotes, then whitespace gives "New Chat" |
| `Llm.QuotedSpaceIsKept` | backend/services/llm_service.py:207-210 | whitespace of 1 to 48 characters inside a pair of double quotes is kept as the name, since the quotes are stripped only after the whitespace |
| `Llm.CleanNameCutsLongReply` | backend/services/llm_service.py:207-209 | when the stripped reply is longer than 50 characters, the name is exactly its first 50 characters |
| `Sessions.CountedTokens` | backend/services/session_service.py:186-187 | a token count adds to the total only when present (a zero count adds 0) |
| `Sessions.WithMessage` | backend/services/session_service.py:175-187 | the message is appended at the end, the session is stamped, the total grows by the counted tokens, and identity fields are kept |
| `Sessions.Updated` | backend/services/session_service.py:139-148 | exactly the fields passed as non-None change; messages, totals and identity are kept; the session is stamped |
| `Sessions.WithoutMessage` | backend/services/session_service.py:205-208 | every message with the id is dropped and the rest keep their order; the list shrinks iff some message had the id |
| `Sessions.MessageIndex` | backend/services/session_service.py:226-227 | the index is that of the first message with the id, or the length when there is none |
| `Sessions.Matching` | backend/services/session_service.py:252-262 | the search keeps, in order, exactly the sessions whose name or some message contains the query |
| `Sessions.SessionService.constructor` | backend/services/session_service.py:26-31 | the store starts empty |
| `Sessions.SessionService.CreateSession` | backend/services/session_service.py:89-114 | a session with no messages and 0 tokens used is stored under its id, with the given name, model and parameters |
| `Sessions.SessionService.GetSession` | backend/services/session_service.py:116-119 | a stored session is returned, and None for an unknown id |
| `Sessions.SessionService.GetAllSessions` | backend/services/session_service.py:121-126 | the sessions are sorted by update time, newest first, with a stable sort |
| `Sessions.SessionService.UpdateSession` | backend/services/session_service.py:128-150 | an unknown id gives None and no change; otherwise only that session changes, as `Updated` says |
| `Sessions.SessionService.DeleteSession` | backend/services/session_service.py:152-159 | the result is true iff the id was stored; afterwards it is gone |
| `Sessions.SessionService.AddMessage` | backend/services/session_service.py:161-190 | an unknown session gives None and no change; otherwise the message is appended to that session only |
| `Sessions.SessionService.GetMessages` | backend/services/session_service.py:192-196 | the session's messages, or none for an unknown session |
| `Sessions.SessionService.RemoveMessage` | backend/services/session_service.py:198-212 | every message with the id is removed; true iff the list shrank; only then is the session stamped |
| `Sessions.SessionService.UpdateMessage` | backend/services/session_service.py:214-233 | only the first message with the id takes the new content; an unknown session or message gives None and no change |
| `Sessions.SessionService.GetTotalUsage` | backend/services/session_service.py:235-244 | tokens and message counts are summed over all sessions, and sessions are counted |
| `Sessions.SessionService.SearchSessions` | backend/services/session_service.py:246-264 | the sessions matching the lower-cased query, in insertion order |
| `Sessions.MentionsQuery` | backend/services/session_service.py:259-262 | the message scan finds the query iff some message's lower-cased content contains it |
| `Sessions.AllSessionsOrder` | backend/services/session_service.py:124-125 | the session list is sorted by update time, is a permutation of the stored sessions, and keeps insertion order among equal times |
| `Sessions.UsageAfterAddMessage` | backend/services/session_service.py:183-187 | adding a message raises the message total by one and the token total by its counted tokens |
| `Sessions.SearchReturnsEachOnce` | backend/services/session_service.py:252-262 | a search returns each session at most once |
| `Presets.BuiltinIdsAreNotCustom` | backend/services/preset_service.py:11-176 | no built-in id starts with "custom_" |
| `Presets.BuiltinIdsDistinct` | backend/services/preset_service.py:11-176 | the built-in ids are pairwise distinct |
| `Presets.AllPresets` | backend/services/preset_service.py:205-207 | the list is the built-ins followed by the custom presets: its length is their sum, and its members are exactly theirs |
| `Presets.Lookup` | backend/services/preset_service.py:217-224 | a preset is found iff some built-in or custom preset has the id, and what is found has that id |
| `Presets.GetPresetIsFirstListed` | backend/services/preset_service.py:217-224 | get_preset returns the first preset with the id in get_all_presets' order |
| `Presets.BuiltinsShadowCustom` | backend/services/preset_service.py:219-222 | a built-in is always found under its id, whatever custom presets exist |
| `Presets.CreatedPresetIsFound` | backend/services/preset_service.py:242-252 | a stored custom preset is found under its id, and lookups of other ids do not change |
| `Presets.DeleteForgetsOnlyThatId` | backend/services/preset_service.py:256-262 | deleting makes a custom id unknown, leaves a built-in with that id findable, and changes no other lookup |
| `Presets.InCategory` | backend/services/preset_service.py:226-229 | the presets of a category are exactly those in it, in order |
| `Presets.CategoriesOf` | backend/services/preset_service.py:264-268 | the categories are strictly increasing, and exactly those of the presets |
| `Presets.CategoriesAreUnique` | backend/services/preset_service.py:264-268 | no category is listed twice |
| `Presets.Loaded` | backend/services/preset_service.py:192-194 | each loaded preset is stored under its own id, and only those ids are stored |
| `Presets.PresetService.constructor` | backend/services/preset_service.py:181-196 | the registry starts from the loaded custom presets |
| `Presets.PresetService.GetAllPresets` | backend/services/preset_service.py:205-207 | the method returns `AllPresets` |
| `Presets.PresetService.GetPreset` | backend/services/preset_service.py:217-224 | the built-in scan then the custom lookup compute `Lookup` |
| `Presets.PresetService.GetPresetsByCategory` | backend/services/preset_service.py:226-229 | the category filter of the full list |
| `Presets.PresetService.CreatePreset` | backend/services/preset_service.py:231-254 | the preset gets the id "custom_" plus 8 hex digits and the given fields, and is stored under it |
| `Presets.PresetService.DeletePreset` | backend/services/preset_service.py:256-262 | the result is true iff the id is a custom one; only that entry is removed |
| `Presets.PresetService.GetCategories` | backend/services/preset_service.py:264-268 | the sorted unique categories of all presets |
| `Providers.PresetProvider` | backend/services/provider_service.py:141-157 | a table key gives an entry with that id, the table's name and the given key, enabled iff the key is non-empty or the table key is "ollama"; an unknown key gives None |
| `Providers.Offers` | backend/services/provider_service.py:328-343 | the table rows not yet configured, in table order, each requiring a key iff it is not "ollama" |
| `Providers.NormalizedBase` | backend/services/provider_service.py:133 | the base without all its trailing slashes: a prefix that does not end in '/', followed only by slashes in the input |
| `Providers.Patched` | backend/services/provider_service.py:172-179 | only the fields passed change, and a new base is stripped of trailing slashes |
| `Providers.PatchWithNothing` | backend/services/provider_service.py:172-179 | an update that passes nothing leaves the entry unchanged |
| `Providers.Enabled` | backend/services/provider_service.py:113-115 | the enabled entries, in order |
| `Providers.InitialProviders` | backend/services/provider_service.py:88-100 | the default registry holds only the "ollama" entry, enabled, the same as the table's entry for it without a key |
| `Providers.InitialOffersNeedKeys` | backend/services/provider_service.py:328-343 | a fresh install offers every table entry except "ollama", and each offer requires a key |
| `Providers.FirstCaching` | backend/services/provider_service.py:302-304 | the first entry whose cached models hold the model id, and None iff there is none |
| `Providers.FirstOfTypes` | backend/services/provider_service.py:316-322 | the first entry of one of the listed types, and None iff there is none |
| `Providers.ByName` | backend/services/provider_service.py:307-326 | a name rule returns an enabled entry or, for a fixed-id route, a stored entry; None only for a fixed-id route or when nothing is enabled |
| `Providers.ProviderForModel` | backend/services/provider_service.py:299-326 | a disabled entry can come back only through a fixed-id route (claude, gpt/o1, grok); None only then or when nothing is enabled |
| `Providers.ChosenProviderIsConfigured` | backend/services/provider_service.py:299-326 | whatever provider is chosen is one of the stored entries |
| `Providers.CachedModelWins` | backend/services/provider_service.py:302-304 | when an enabled provider caches the model, the answer is the first enabled provider that caches it, whatever the model's name |
| `Providers.GptGoesToOpenAI` | backend/services/provider_service.py:311-312 | an uncached model with "gpt" or "o1" in its name, and not "claude", gets the stored "openai" entry, or None when there is none |
| `Providers.GrokGoesToXai` | backend/services/provider_service.py:313-314 | an uncached model with "grok" in its name and none of the earlier names gets the stored "xai" entry, or None when there is none |
| `Providers.MistralPrefersListedTypes` | backend/services/provider_service.py:315-318 | an uncached "mistral"/"mixtral" model outside the fixed routes gets the first enabled Mistral, Groq or Together entry, or the first enabled entry when there is none of those types |
| `Providers.LlamaPrefersListedTypes` | backend/services/provider_service.py:319-322 | an uncached "llama" model outside the earlier routes gets the first enabled Ollama, Groq or Together entry, or the first enabled entry when there is none of those types |
| `Providers.OtherNamesGoToFirstEnabled` | backend/services/provider_service.py:324-326 | an uncached model matching no name rule gets the first enabled entry, or None when nothing is enabled |
| `Providers.FirstEnabled` | backend/services/provider_service.py:325-326 | the first enabled entry, and None iff nothing is enabled |
| `Providers.ClaudeHasNoFallback` | backend/services/provider_service.py:309-310 | an uncached "claude" model goes to the "anthropic" entry, even when that is absent or disabled |
| `Providers.SomeProviderServes` | backend/services/provider_service.py:315-326 | outside the fixed-id routes, any model gets an enabled provider as long as one exists |
| `Providers.ProviderService.constructor` | backend/services/provider_service.py:68-86 | the registry holds the stored entries keyed by id, or the default registry when there is no file |
| `Providers.ProviderService.GetAllProviders` | backend/services/provider_service.py:109-111 | all entries, in insertion order |
| `Providers.ProviderService.GetEnabledProviders` | backend/services/provider_service.py:113-115 | the enabled entries, in order |
| `Providers.ProviderService.GetProvider` | backend/services/provider_service.py:117-119 | the entry with that id, if any |
| `Providers.ProviderService.AddProvider` | backend/services/provider_service.py:121-139 | an enabled entry under the fresh id, with the normalised base and no cached models; other entries are unchanged |
| `Providers.ProviderService.AddPresetProvider` | backend/services/provider_service.py:141-157 | the table entry is stored (overwriting), or an unknown key changes nothing |
| `Providers.ProviderService.UpdateProvider` | backend/services/provider_service.py:159-182 | a missing id gives None and no change; otherwise only that entry changes, as `Patched` says |
| `Providers.ProviderService.DeleteProvider` | backend/services/provider_service.py:184-190 | the result is true iff the id was present, and only that entry is removed |
| `Providers.ProviderService.ToggleProvider` | backend/services/provider_service.py:192-198 | the enabled flag is flipped, or a missing id gives None and no change |
| `Providers.ProviderService.FirstEnabledOfTypes` | backend/services/provider_service.py:316-322 | the scan returns the first enabled entry of the listed types |
| `Providers.ProviderService.GetProviderForModel` | backend/services/provider_service.py:299-326 | the scans compute `ProviderForModel` |
| `Providers.ProviderService.RouteByName` | backend/services/provider_service.py:307-326 | the name rules in order, then the first enabled entry, compute `ByName` |
| `Providers.ProviderService.GetAvailablePresets` | backend/services/provider_service.py:328-343 | the offers for the table keys not configured |
| `Rag.QueryWords` | backend/services/rag_service.py:112-113 | the query words are non-empty words of the lower-cased query |
| `Rag.Score` | backend/services/rag_service.py:119 | the score is at most the number of words, and positive iff some word occurs in the lower-cased content |
| `Rag.BestPos` | backend/services/rag_service.py:139-144 | the position is where the earliest hit of any word starts, or the content's length when no word occurs |
| `Rag.WindowStart` | backend/services/rag_service.py:149 | the window starts at most 200 characters before the hit, and exactly 200 before when it does not start at 0 |
| `Rag.WindowEnd` | backend/services/rag_service.py:150 | the window ends at most 200 characters after the hit, and exactly 200 after when it ends before the content does |
| `Rag.SnippetAt` | backend/services/rag_service.py:146-158 | the snippet has at most 406 characters; with no hit it is the first 400 characters |
| `Rag.SnippetHoldsWindow` | backend/services/rag_service.py:149-158 | the text from the hit to 200 characters on appears in the snippet, after the leading ellipsis when there is one |
| `Rag.SnippetShowsHit` | backend/services/rag_service.py:149-158 | a hit of at most 200 characters appears whole in the lower-cased snippet |
| `Rag.EarliestHit` | backend/services/rag_service.py:139-144 | the word loop finds `BestPos` |
| `Rag.SnippetAround` | backend/services/rag_service.py:146-158 | the text's opening of 400 characters when the position is its end, otherwise the 200 characters either side of the position, with "..." on each side that was cut |
| `Rag.ExtractSnippet` | backend/services/rag_service.py:135-158 | the snippet is the window around the earliest hit, or the opening when no word occurs |
| `Rag.ScoredDocumentHasHit` | backend/services/rag_service.py:119-123 | a document with a positive score has its snippet around a real hit |
| `Rag.HitsOf` | backend/services/rag_service.py:115-129 | there are no more hits than documents |
| `Rag.HitsAreTheMatches` | backend/services/rag_service.py:115-129 | each hit is a document with a positive score, shown with its score and snippet, and every such document gives a hit |
| `Rag.SliceTo` | backend/services/rag_service.py:133 | Python's `[:n]`: a prefix of length min(n, len) for n >= 0, or of length len + n (at least 0) for negative n |
| `Rag.RankedOrder` | backend/services/rag_service.py:131-133 | the results are sorted by score, descending; there are at most top_k when top_k >= 0; every result is a hit; equal scores keep document order |
| `Rag.RemoveAll` | backend/services/rag_service.py:164-166 | exactly the listed files are removed from the documents, and the others keep their order |
| `Rag.DocOf` | backend/services/rag_service.py:77-87 | a walked file becomes the document whose id is its path and whose content is the file's text |
| `Rag.IndexedPaths` | backend/services/rag_service.py:73-89 | a path is listed iff some walked entry with that path is a file with a supported suffix and non-empty content |
| `Rag.StoreAll` | backend/services/rag_service.py:73-87 | storing the walk keeps every document under its own id; the keys become the old keys plus the listed paths, and documents at other keys are unchanged |
| `Rag.LastIndexedIsStored` | backend/services/rag_service.py:79-87 | the last indexable entry of the walk is stored as its document, whatever came before it |
| `Rag.HitIdsAreKeys` | backend/services/rag_service.py:115-126 | every search hit's id is the key of a stored document with that id |
| `Rag.RagService.IndexDirectory` | backend/services/rag_service.py:65-98 | a missing directory gives the "Directory not found" error and no change; otherwise the indexable files are stored in walk order, the directory maps to their paths, and the summary gives the directory, the count and the paths |
| `Rag.RagService.constructor` | backend/services/rag_service.py:23-36 | the service starts with no documents and the saved directory index |
| `Rag.RagService.Search` | backend/services/rag_service.py:109-133 | the search returns the ranked hits of the indexed documents for the query's words |
| `Rag.RagService.RemoveDirectory` | backend/services/rag_service.py:160-170 | an unknown directory gives false and no change; otherwise that directory and exactly its listed files' documents are removed |
| `YouTube.MatchAt` | backend/services/youtube_service.py:18 | a match at a position is an 11-character id of `[A-Za-z0-9_-]` |
| `YouTube.MatchAtFits` | backend/services/youtube_service.py:18 | a match at p exists iff some link form occurs at p followed by 11 id characters, and it is those 11 characters |
| `YouTube.Search` | backend/services/youtube_service.py:22-25 | what the search finds is an 11-character id |
| `YouTube.SearchIsLeftmost` | backend/services/youtube_service.py:22-25 | the search returns the match at the leftmost position where the pattern fits, and None iff it fits nowhere |
| `YouTube.QueryId` | backend/services/youtube_service.py:28-32 | the fallback gives the first "v" parameter iff the host contains "youtube.com" and "v" has a value |
| `YouTube.ExtractVideoId` | backend/services/youtube_service.py:14-34 | the first pattern wins; the shorts pattern is used only when the first finds nothing; the parsed URL only when both find nothing |
| `YouTube.PatternIdsAreWellFormed` | backend/services/youtube_service.py:17-25 | an id found by either pattern has exactly 11 id characters |
| `YouTube.LeadingLinkGivesId` | backend/services/youtube_service.py:17-25 | a URL starting with a watch, youtu.be or embed link gives the 11 characters after it, whatever follows |
| `YouTube.GetOr` | backend/services/youtube_service.py:109-110 | `dict.get` with a default |
| `YouTube.SummarizeVideo` | backend/services/youtube_service.py:61-126 | a URL without an id (None or empty) fails with "Invalid YouTube URL"; otherwise there is no transcript, and the reply holds the id, the title and author (default "Unknown") and the fallback text |
| `YouTube.FailsBeforeLookup` | backend/services/youtube_service.py:72-74 | the failure does not depend on what the video lookup would answer |
| `YouTube.LinkGetsFallback` | backend/services/youtube_service.py:104-125 | a well-formed link always gets the fallback summary for its id |
| `Handlers.FirstUserIndex` | backend/main.py:277-281 | the index of the first user message, or the length when there is none |
| `Handlers.AutoNameSource` | backend/main.py:270-284 | 404 for a missing session; 400 for no messages; 400 when there is no user message or the first one is empty; otherwise the first user message's content |
| `Handlers.AutoNameSession` | backend/main.py:267-292 | on success the session gets the generated name, and only it changes; on error nothing changes |
| `Handlers.LastUserBefore` | backend/main.py:559-561 | the greatest index below i holding a user message, or -1 |
| `Handlers.RegenerateLookup` | backend/main.py:545-564 | 404 iff no message has the id; 400 when the first such message is not an assistant's, or no user message precedes it; otherwise both indices |
| `Handlers.LocateRegenerate` | backend/main.py:545-564 | the forward and backward loops compute `RegenerateLookup` |
| `Handlers.Regenerate` | backend/main.py:537-599 | errors before the removal change nothing; only after both checks is the old reply removed; a failed completion leaves it removed; on success the new reply is appended |
| `Handlers.SystemPromptFor` | backend/main.py:387-390 | the request's prompt when it is non-empty, else the session's; the context block is appended iff the context is non-empty |
| `Handlers.Override` | backend/main.py:395-397 | a request value is used whenever it is present, zero included |
| `Handlers.Chat` | backend/main.py:349-424 | 404 for a missing session; the user's message is stored before the model is asked, and stays on a 500; on success the reply is stored after it, with the sources only when there are any |
| `Handlers.FormatOf` | backend/main.py:302 | JSON iff the lower-cased format is "json", else Markdown |
| `Handlers.ExportFilename` | backend/main.py:305 | the session name with every space turned into `_` and all else kept, followed by the extension |
| `Handlers.RoleLabel` | backend/main.py:321 | the user label iff the role is user, else the assistant label |
| `Handlers.EveryMessageShown` | backend/main.py:320-332 | each message's heading line appears in order, and its content two lines below |
| `Handlers.MarkdownLines` | backend/main.py:309-332 | the Markdown lines are the header followed by each message's block |
| `Handlers.MessagesLines` | backend/main.py:320-332 | the message loop appends each message's block in order |
| `Handlers.MessageLines` | backend/main.py:321-332 | one message's lines are its heading, a blank line, its content, a blank line, then its sources part when it has sources |
| `Handlers.AppendSources` | backend/main.py:328-332 | the sources part is the title, one link line per source, and a blank line |
| `Handlers.ExportSession` | backend/main.py:295-344 | 404 for a missing session; JSON or Markdown content with the matching file name and media type |
| `Handlers.FileName` | backend/main.py:699 | a path's final component contains no '/' |
| `Handlers.FileNameOfPlainName` | backend/main.py:699 | a plain file name is its own final component |
| `Handlers.Suffix` | backend/main.py:699 | the suffix is empty, or a trailing part of the name of at least 2 characters, starting with its only '.', and shorter than the name |
| `Handlers.UploadCheck` | backend/main.py:697-705 | accepted iff the lower-cased suffix is one of the 7 allowed extensions, and then that extension; otherwise 400 |
| `Handlers.AcceptedNameEndsWithExtension` | backend/main.py:698-701 | an accepted file name ends, in some letter case, with its extension, and something comes before it |
| `Handlers.UpperCaseExtensionAccepted` | backend/main.py:699 | "notes.TXT" is accepted |
| `Handlers.BareExtensionRejected` | backend/main.py:699 | ".txt" is refused: a leading dot starts no suffix |
| `Handlers.DeletePreset` | backend/main.py:660-672 | 404 for an unknown preset; 400 for an id without "custom_"; otherwise "deleted", and the custom preset is removed |

## Left out

- Persistence is not modelled. This covers the JSON files, the PostgreSQL methods, `_db_to_pydantic`, `initialize` and every `_load_*`/`_save_*` helper. Loaded data enters the constructors already parsed.
- Two load failures are not modelled: a presets file that fails part-way keeps the entries read so far, and a providers file that fails part-way keeps them and also adds the default entry.
- Network and foreign-library calls are parameters:
  - the search service;
  - the OpenAI client completions;
  - the oEmbed `get_video_info`;
  - `test_provider` and `get_all_models`.
  The image service and the search service's own code are not part of this model.
- Streaming (`chat_completion_stream`, the SSE endpoints) and the concurrent research progress queue are not modelled. Only the request count of a stream is kept.
- Python's `datetime` is not modelled. Clock readings are `now: nat`, and formatted timestamps are strings supplied by the caller. `duration_seconds` of the research report is dropped.
- `uuid4` ids are parameters. The preset id suffix is any 8 hex digits.
- `Models`: temperatures and the other float parameters are `real` values without their bounds. Pydantic aliasing (`type` for `providerType`) and the request records not named here are not modelled.
- `Presets`: the built-in presets' long system prompts are replaced by an empty placeholder. Their ids, names and categories are kept.
- `Presets`: `get_builtin_presets` and `get_custom_presets` are plain accessors (the built-in list and the custom values) and are not modelled separately.
- `Rag.RagService.IndexDirectory`: the directory test and the recursive walk (`Path.exists`, `rglob`, `is_file`, `suffix`, `_read_file`) arrive as parameters. A file that cannot be read is given as one with empty content, which `_read_file` also returns, so it is skipped. `_save_index` is not modelled.
- `Rag`: `get_indexed_files` and the file saving in `upload_file` touch the filesystem and are not modelled.
- `YouTube.QueryId`: the `urlparse`/`parse_qs` step is taken as a parsed-URL parameter (host and query map). How the library parses is not modelled.
- `YouTube.SummarizeVideo`: the branch that summarises a transcript is unreachable, since `get_transcript` always returns None, and is not modelled.
- `Handlers.Chat`: the search and retrieval calls that build the context and the source list are not modelled. Both arrive as parameters.
- `Handlers.Regenerate`: the preceding user message's content is computed in the source but never used, so the model does not compute it either.
- `Handlers.ExportSession`: the JSON text of a session is a parameter. The `'Link'`/`'#'` defaults of the source links cannot arise, because a `Source` always has a title and a url.
- `Handlers.UploadCheck`: the error message lists the allowed extensions in a fixed order, not in Python's set-iteration order.
- `Handlers.FileName`: POSIX path rules only. Backslash separators and other `pathlib` normalisation are not modelled.
- `Text`: `lower`/`upper` and whitespace are ASCII only.
