/** The chat side of the LLM service (backend/services/llm_service.py): the token
    estimate, the truncation of a message history to a token budget, the assembly of
    the messages sent to the model, the client cache with its usage counters, and the
    clean-up of a generated session name. The HTTP client itself is an oracle. */
module Llm {
  import opened Wrappers
  import opened Text
  import opened Seqs
  import opened Models
  import Providers

  // ---------------------------------------------------------------- token estimate

  /** About four characters per token, rounded down. */
  function EstimateTokens(text: string): (n: nat)
    ensures 4 * n <= |text| < 4 * n + 4
  {
    |text| / 4
  }

  /** The summed estimate of the messages' contents. */
  function TotalTokens(ms: seq<ChatMessage>): nat {
    if ms == [] then 0 else TotalTokens(ms[..|ms| - 1]) + EstimateTokens(ms[|ms| - 1].content)
  }

  lemma TotalTokensSnoc(ms: seq<ChatMessage>, m: ChatMessage)
    ensures TotalTokens(ms + [m]) == TotalTokens(ms) + EstimateTokens(m.content)
  {
    assert (ms + [m])[..|ms|] == ms;
  }

  // ---------------------------------------------------------------- truncation

  /** The history budget used when messages are assembled for the model. */
  const HistoryBudget: int := 4000

  /** What the backward scan keeps of `pending`, newest first, once it has kept messages
      worth `used` tokens (`started` says whether it has kept any). A message is kept
      when it still fits the budget; the newest message is kept even when it does not,
      and then the scan stops; any other message that does not fit is skipped. */
  function Pick(pending: seq<ChatMessage>, used: int, started: bool, maxTokens: int): (kept: seq<ChatMessage>)
    ensures |kept| <= |pending|
    decreases |pending|
  {
    if pending == [] then []
    else
      var m := pending[|pending| - 1];
      var rest := pending[..|pending| - 1];
      var t := EstimateTokens(m.content);
      if used + t <= maxTokens then Pick(rest, used + t, true, maxTokens) + [m]
      else if !started then [m]
      else Pick(rest, used, started, maxTokens)
  }

  /** The history `truncate_messages` returns: the input itself when it is empty or fits
      the budget, otherwise what the backward scan keeps. */
  function Truncated(messages: seq<ChatMessage>, maxTokens: int): seq<ChatMessage> {
    if messages == [] || TotalTokens(messages) <= maxTokens then messages
    else Pick(messages, 0, false, maxTokens)
  }

  /** `truncate_messages`: walks the history from the newest message back, putting each
      message it keeps in front of those kept so far. */
  method TruncateMessages(messages: seq<ChatMessage>, maxTokens: int) returns (truncated: seq<ChatMessage>)
    ensures truncated == Truncated(messages, maxTokens)
  {
    if messages == [] {
      return messages;
    }
    if TotalTokens(messages) <= maxTokens {
      return messages;
    }
    truncated := [];
    var currentTokens := 0;
    var i := |messages|;
    assert messages[..i] == messages;
    while i > 0
      invariant 0 <= i <= |messages|
      invariant Pick(messages[..i], currentTokens, truncated != [], maxTokens) + truncated
                == Pick(messages, 0, false, maxTokens)
    {
      var msg := messages[i - 1];
      var msgTokens := EstimateTokens(msg.content);
      assert messages[..i][..i - 1] == messages[..i - 1];
      if currentTokens + msgTokens <= maxTokens {
        truncated := [msg] + truncated;
        currentTokens := currentTokens + msgTokens;
      } else if truncated == [] {
        // the newest message is always kept
        truncated := [msg] + truncated;
        return;
      }
      i := i - 1;
    }
    assert messages[..0] == [];
  }

  lemma {:induction false} PickIsSubsequence(pending: seq<ChatMessage>, used: int, started: bool, maxTokens: int)
    ensures IsSubsequence(Pick(pending, used, started, maxTokens), pending)
    decreases |pending|
  {
    if pending != [] {
      var m := pending[|pending| - 1];
      var rest := pending[..|pending| - 1];
      var t := EstimateTokens(m.content);
      assert rest + [m] == pending;
      if used + t <= maxTokens {
        PickIsSubsequence(rest, used + t, true, maxTokens);
        SubsequenceSnoc(Pick(rest, used + t, true, maxTokens), rest, m);
      } else if !started {
        SubsequenceOfSingleton(rest, m);
      } else {
        PickIsSubsequence(rest, used, started, maxTokens);
        SubsequenceExtend(Pick(rest, used, started, maxTokens), rest, m);
      }
    }
  }

  lemma {:induction false} PickWithinBudget(pending: seq<ChatMessage>, used: int, maxTokens: int)
    requires used <= maxTokens
    ensures used + TotalTokens(Pick(pending, used, true, maxTokens)) <= maxTokens
    decreases |pending|
  {
    if pending != [] {
      var m := pending[|pending| - 1];
      var rest := pending[..|pending| - 1];
      var t := EstimateTokens(m.content);
      if used + t <= maxTokens {
        PickWithinBudget(rest, used + t, maxTokens);
        TotalTokensSnoc(Pick(rest, used + t, true, maxTokens), m);
      } else {
        PickWithinBudget(rest, used, maxTokens);
      }
    }
  }

  lemma {:induction false} PickAllWhenFits(pending: seq<ChatMessage>, used: int, started: bool, maxTokens: int)
    requires used + TotalTokens(pending) <= maxTokens
    ensures Pick(pending, used, started, maxTokens) == pending
    decreases |pending|
  {
    if pending != [] {
      var m := pending[|pending| - 1];
      var rest := pending[..|pending| - 1];
      PickAllWhenFits(rest, used + EstimateTokens(m.content), true, maxTokens);
      assert rest + [m] == pending;
    }
  }

  /** The result of truncation is the input with some messages deleted, the rest in
      their original order (not necessarily a contiguous run). */
  lemma TruncationKeepsOrder(messages: seq<ChatMessage>, maxTokens: int)
    ensures IsSubsequence(Truncated(messages, maxTokens), messages)
  {
    if messages == [] || TotalTokens(messages) <= maxTokens {
      SubsequenceRefl(messages);
    } else {
      PickIsSubsequence(messages, 0, false, maxTokens);
    }
  }

  /** The newest message always survives truncation, so a non-empty history never
      truncates to nothing. */
  lemma TruncationKeepsLast(messages: seq<ChatMessage>, maxTokens: int)
    requires messages != []
    ensures var r := Truncated(messages, maxTokens); r != [] && r[|r| - 1] == messages[|messages| - 1]
  {
  }

  /** Truncation meets the budget, except when all that is left is the newest message,
      which alone exceeds it. */
  lemma TruncationFitsBudget(messages: seq<ChatMessage>, maxTokens: int)
    requires messages != []
    ensures var r := Truncated(messages, maxTokens);
            || TotalTokens(r) <= maxTokens
            || (r == [messages[|messages| - 1]] && EstimateTokens(messages[|messages| - 1].content) > maxTokens)
  {
    var m := messages[|messages| - 1];
    var rest := messages[..|messages| - 1];
    var t := EstimateTokens(m.content);
    if TotalTokens(messages) > maxTokens && t <= maxTokens {
      PickWithinBudget(rest, t, maxTokens);
      TotalTokensSnoc(Pick(rest, t, true, maxTokens), m);
    }
  }

  /** The early return for a history that fits is only a shortcut: the scan would keep
      every message anyway. */
  lemma TruncationShortcut(messages: seq<ChatMessage>, maxTokens: int)
    requires TotalTokens(messages) <= maxTokens
    ensures Pick(messages, 0, false, maxTokens) == messages
    ensures Truncated(messages, maxTokens) == messages
  {
    PickAllWhenFits(messages, 0, false, maxTokens);
  }

  // ---------------------------------------------------------------- request assembly

  /** A message as sent to the model: its role's wire string and its content. */
  datatype WireMessage = WireMessage(role: string, content: string)

  function Wire(m: ChatMessage): WireMessage {
    WireMessage(m.role.Value(), m.content)
  }

  /** The message list of `chat_completion` and `chat_completion_stream`: a system entry
      exactly when a non-empty system prompt is given, then the history truncated to
      4000 tokens, in order. */
  method FormatMessages(messages: seq<ChatMessage>, systemPrompt: Option<string>)
    returns (formatted: seq<WireMessage>)
    ensures var hasSystem := systemPrompt.Some? && systemPrompt.value != "";
            var offset := if hasSystem then 1 else 0;
            var history := Truncated(messages, HistoryBudget);
            && |formatted| == offset + |history|
            && (hasSystem ==> formatted[0] == WireMessage("system", systemPrompt.value))
            && forall i :: 0 <= i < |history| ==> formatted[offset + i] == Wire(history[i])
  {
    formatted := [];
    if systemPrompt.Some? && systemPrompt.value != "" {
      formatted := formatted + [WireMessage("system", systemPrompt.value)];
    }
    var offset := |formatted|;
    var truncated := TruncateMessages(messages, HistoryBudget);
    var i := 0;
    while i < |truncated|
      invariant 0 <= i <= |truncated|
      invariant |formatted| == offset + i
      invariant offset == 1 ==> formatted[0] == WireMessage("system", systemPrompt.value)
      invariant forall j :: 0 <= j < i ==> formatted[offset + j] == Wire(truncated[j])
    {
      formatted := formatted + [Wire(truncated[i])];
      i := i + 1;
    }
  }

  // ---------------------------------------------------------------- clients and usage

  /** An API client, reduced to the endpoint and key it was built with. */
  datatype Client = Client(baseUrl: string, apiKey: string)

  /** The key a client is built with when none is configured. */
  const NoKeyPlaceholder: string := "sk-no-key-required"

  /** The part of the cache key that stands for the API key: its first 8 characters,
      or "nokey" when there is none. */
  function KeyTag(apiKey: string): (tag: string)
    ensures |tag| <= 8
    ensures apiKey != "" ==> |tag| <= |apiKey| && apiKey[..|tag|] == tag && (|apiKey| <= 8 ==> tag == apiKey)
  {
    if apiKey != "" then Take(apiKey, 8) else "nokey"
  }

  function CacheKey(apiBase: string, apiKey: string): string {
    apiBase + ":" + KeyTag(apiKey)
  }

  /** The cache key keeps only 8 characters of the API key: two keys with the same first
      8 characters share one cached client for a given endpoint, and a short key of
      "nokey" shares the entry of the missing key. */
  lemma CacheKeyCollisions(apiBase: string, key1: string, key2: string)
    ensures |key1| >= 8 && |key2| >= 8 && key1[..8] == key2[..8] ==> CacheKey(apiBase, key1) == CacheKey(apiBase, key2)
    ensures key1 == "nokey" && key2 == "" ==> CacheKey(apiBase, key1) == CacheKey(apiBase, key2)
  {
  }

  /** For one endpoint, the cache keys of two API keys agree exactly when their tags do. */
  lemma CacheKeyDistinguishesTags(apiBase: string, key1: string, key2: string)
    ensures CacheKey(apiBase, key1) == CacheKey(apiBase, key2) <==> KeyTag(key1) == KeyTag(key2)
  {
    if CacheKey(apiBase, key1) == CacheKey(apiBase, key2) {
      var n := |apiBase| + 1;
      assert KeyTag(key1) == CacheKey(apiBase, key1)[n..];
      assert KeyTag(key2) == CacheKey(apiBase, key2)[n..];
    }
  }

  /** `LLMService`: the cached clients and the usage counters. */
  class LlmService {
    var clients: map<string, Client>
    var totalTokens: int
    var totalRequests: int

    constructor ()
      ensures clients == map[] && totalTokens == 0 && totalRequests == 0
    {
      clients := map[];
      totalTokens := 0;
      totalRequests := 0;
    }

    /** `_get_client`: the cached client for the endpoint and key, created on first use;
        a key already cached returns the client stored under it, whatever API key that
        client was built with. */
    method GetClient(apiBase: string, apiKey: string) returns (client: Client)
      modifies this
      ensures var key := CacheKey(apiBase, apiKey);
              && (key in old(clients) ==> clients == old(clients) && client == old(clients)[key])
              && (key !in old(clients) ==>
                    && client == Client(apiBase, if apiKey != "" then apiKey else NoKeyPlaceholder)
                    && clients == old(clients)[key := client])
      ensures totalTokens == old(totalTokens) && totalRequests == old(totalRequests)
    {
      var cacheKey := CacheKey(apiBase, apiKey);
      if cacheKey !in clients {
        clients := clients[cacheKey := Client(apiBase, if apiKey != "" then apiKey else NoKeyPlaceholder)];
      }
      client := clients[cacheKey];
    }

    /** `_get_provider_client`: the client of the provider `get_provider_for_model`
        chooses for `model`, or of the default endpoint and key when it chooses none. */
    method GetProviderClient(service: Providers.ProviderService, model: string, defaultBase: string, defaultKey: string)
      returns (client: Client)
      requires service.Valid()
      modifies this
      ensures var provider := Providers.ProviderForModel(service.providers, model);
              var (base, key) := if provider.Some? then (provider.value.apiBase, provider.value.apiKey)
                                 else (defaultBase, defaultKey);
              && CacheKey(base, key) in clients
              && client == clients[CacheKey(base, key)]
              && (CacheKey(base, key) in old(clients) ==> clients == old(clients))
              && (CacheKey(base, key) !in old(clients) ==> clients == old(clients)[CacheKey(base, key) := client])
      ensures totalTokens == old(totalTokens) && totalRequests == old(totalRequests)
    {
      var provider := service.GetProviderForModel(model);
      if provider.Some? {
        client := GetClient(provider.value.apiBase, provider.value.apiKey);
      } else {
        client := GetClient(defaultBase, defaultKey);
      }
    }

    /** `update_client`: drops every cached client. */
    method UpdateClient()
      modifies this
      ensures clients == map[]
      ensures totalTokens == old(totalTokens) && totalRequests == old(totalRequests)
    {
      clients := map[];
    }

    /** The bookkeeping of a completed `chat_completion`: the reply's total token count,
        0 when the reply carries no usage, is added to the token counter, and one request
        is counted. */
    method RecordCompletion(usage: Option<nat>) returns (tokensUsed: nat)
      modifies this
      ensures tokensUsed == if usage.Some? then usage.value else 0
      ensures totalTokens == old(totalTokens) + tokensUsed
      ensures totalRequests == old(totalRequests) + 1
      ensures clients == old(clients)
    {
      tokensUsed := if usage.Some? then usage.value else 0;
      totalTokens := totalTokens + tokensUsed;
      totalRequests := totalRequests + 1;
    }

    /** The bookkeeping of a started `chat_completion_stream`: one request, no tokens. */
    method RecordStream()
      modifies this
      ensures totalRequests == old(totalRequests) + 1
      ensures totalTokens == old(totalTokens) && clients == old(clients)
    {
      totalRequests := totalRequests + 1;
    }

    /** `get_usage_stats`. */
    method GetUsageStats() returns (tokens: int, requests: int)
      ensures tokens == totalTokens && requests == totalRequests
    {
      tokens, requests := totalTokens, totalRequests;
    }

    /** `reset_usage_stats`. */
    method ResetUsageStats()
      modifies this
      ensures totalTokens == 0 && totalRequests == 0 && clients == old(clients)
    {
      totalTokens, totalRequests := 0, 0;
    }
  }

  // ---------------------------------------------------------------- session names

  const DefaultSessionName: string := "New Chat"
  const SessionNameInstruction: string :=
    "Generate a very short (3-5 words max) title for a conversation that starts with the following message. Reply with ONLY the title, nothing else."

  /** The request `generate_session_name` sends. */
  datatype NameRequest = NameRequest(model: string, messages: seq<WireMessage>, temperature: real, maxTokens: int)

  /** The naming request: the fixed instruction, then at most the first 500 characters
      of the first message. */
  function NameRequestFor(firstMessage: string, model: string): (r: NameRequest)
    ensures r.model == model && |r.messages| == 2
    ensures r.messages[0] == WireMessage("system", SessionNameInstruction)
    ensures r.messages[1].role == "user"
    ensures |r.messages[1].content| <= 500 && |r.messages[1].content| <= |firstMessage|
    ensures r.messages[1].content == firstMessage[..|r.messages[1].content|]
    ensures |firstMessage| <= 500 ==> r.messages[1].content == firstMessage
  {
    NameRequest(model, [WireMessage("system", SessionNameInstruction), WireMessage("user", Take(firstMessage, 500))], 0.7, 20)
  }

  /** The clean-up of the model's reply (`None` for a failed call): whitespace, then
      surrounding quotes are stripped and at most 50 characters kept; an empty result or
      a failure gives "New Chat". */
  function CleanName(reply: Option<string>): (name: string)
    ensures name != []
    ensures reply.None? ==> name == DefaultSessionName
    ensures name != DefaultSessionName ==> |name| <= 50 && name[0] !in Quotes
  {
    match reply
    case None => DefaultSessionName
    case Some(text) =>
      var cleaned := Take(Strip(Strip(text, Whitespace), Quotes), 50);
      if cleaned == [] then DefaultSessionName else cleaned
  }

  ghost predicate IsInfix(part: string, whole: string) {
    exists i, j :: 0 <= i <= j <= |whole| && whole[i..j] == part
  }

  /** Cutting a suffix, a prefix, a suffix, a prefix and a prefix off `text` leaves a
      piece of it. */
  lemma CutsLeaveInfix(text: string, a: string, b: string, c: string, d: string, e: string)
    requires |a| <= |text| && a == text[|text| - |a|..]
    requires |b| <= |a| && b == a[..|b|]
    requires |c| <= |b| && c == b[|b| - |c|..]
    requires |d| <= |c| && d == c[..|d|]
    requires |e| <= |d| && e == d[..|e|]
    ensures IsInfix(e, text)
  {
    var i := |text| - |a|;
    SliceOfSlice(text, i, |text|, 0, |b|);
    assert b == text[i..i + |b|];
    var k := i + |b| - |c|;
    SliceOfSlice(text, i, i + |b|, |b| - |c|, |b|);
    assert c == text[k..i + |b|];
    SliceOfSlice(text, k, i + |b|, 0, |d|);
    assert d == text[k..k + |d|];
    SliceOfSlice(text, k, k + |d|, 0, |e|);
    assert text[k..k + |e|] == e;
  }

  /** A generated name other than the default is a piece of the reply, cut out by the
      clean-up. */
  lemma CleanNameIsPartOfReply(text: string)
    requires CleanName(Some(text)) != DefaultSessionName
    ensures IsInfix(CleanName(Some(text)), text)
  {
    var a := TrimLeft(text, Whitespace);
    var b := TrimRight(a, Whitespace);
    var c := TrimLeft(b, Quotes);
    var d := TrimRight(c, Quotes);
    CutsLeaveInfix(text, a, b, c, d, Take(d, 50));
  }

  /** A reply of at most 50 characters with nothing to strip at either end is the name
      as it stands. */
  lemma CleanNameKeepsTidyReply(text: string)
    requires 1 <= |text| <= 50
    requires text[0] !in Whitespace + Quotes && text[|text| - 1] !in Whitespace + Quotes
    ensures CleanName(Some(text)) == text
  {
    StripClean(text, Whitespace);
    StripClean(text, Quotes);
    ShortStrippedIsName(text);
  }

  /** A reply made of quotes with only whitespace around them (or of whitespace alone)
      gives the default name. */
  lemma CleanNameOfBlankReply(before: string, quotes: string, after: string)
    requires forall i :: 0 <= i < |before| ==> before[i] in Whitespace
    requires forall i :: 0 <= i < |quotes| ==> quotes[i] in Quotes
    requires forall i :: 0 <= i < |after| ==> after[i] in Whitespace
    ensures CleanName(Some(before + quotes + after)) == DefaultSessionName
  {
    assert quotes != [] ==> quotes[0] in Quotes && quotes[|quotes| - 1] in Quotes;
    StripSurrounded(before, quotes, after, Whitespace);
    var none: string := [];
    assert quotes + none + none == quotes;
    StripSurrounded(quotes, none, none, Quotes);
  }

  /** Whitespace between the quotes survives: a reply of at most 50 whitespace characters
      in double quotes is named with that whitespace, not with the default. */
  lemma QuotedSpaceIsKept(w: string)
    requires 1 <= |w| <= 48
    requires forall i :: 0 <= i < |w| ==> w[i] in Whitespace
    ensures CleanName(Some(['"'] + w + ['"'])) == w
  {
    QuotedStrip(w);
    ShortStrippedIsName(['"'] + w + ['"']);
  }

  /** A reply that strips down to 1..50 characters is named with what is left. */
  lemma ShortStrippedIsName(text: string)
    requires 1 <= |Strip(Strip(text, Whitespace), Quotes)| <= 50
    ensures CleanName(Some(text)) == Strip(Strip(text, Whitespace), Quotes)
  {
  }

  lemma QuotedStrip(w: string)
    requires w != []
    requires forall i :: 0 <= i < |w| ==> w[i] in Whitespace
    ensures Strip(Strip(['"'] + w + ['"'], Whitespace), Quotes) == w
  {
    var q: string := ['"'];
    var text := q + w + q;
    assert text[0] == '"' && text[|text| - 1] == '"';
    StripClean(text, Whitespace);
    assert w[0] in Whitespace && w[|w| - 1] in Whitespace;
    StripSurrounded(q, w, q, Quotes);
  }

  /** When the stripped reply is longer than 50 characters, the name is its first 50. */
  lemma CleanNameCutsLongReply(text: string)
    requires |Strip(Strip(text, Whitespace), Quotes)| > 50
    ensures |CleanName(Some(text))| == 50
    ensures CleanName(Some(text)) == Strip(Strip(text, Whitespace), Quotes)[..50]
  {
    var stripped := Strip(Strip(text, Whitespace), Quotes);
    assert Take(stripped, 50) == stripped[..50];
  }

  /** `generate_session_name`, with the model's reply to the naming request given by
      `complete`. */
  function GenerateSessionName(firstMessage: string, model: string, complete: NameRequest -> Option<string>)
    : (name: string)
    ensures name != [] && (name == DefaultSessionName || |name| <= 50)
    ensures name == CleanName(complete(NameRequestFor(firstMessage, model)))
  {
    CleanName(complete(NameRequestFor(firstMessage, model)))
  }
}
