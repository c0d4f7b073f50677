/** The in-memory session store (`SessionService`, backend/services/session_service.py):
    sessions kept under their ids in insertion order, with their messages and token
    totals. Ids and clock readings are parameters: a fresh id per new session or
    message, and the current time for every change that stamps `updated_at`. */
module Sessions {
  import opened Wrappers
  import opened Text
  import opened Seqs
  import opened Models
  import opened Dicts
  import opened Sorting

  // ---------------------------------------------------------------- one session

  /** The tokens a message adds to its session's total: its count when that is present
      and non-zero (Python truthiness), otherwise nothing. */
  function CountedTokens(tokenCount: Option<int>): (n: int)
    ensures tokenCount.None? ==> n == 0
    ensures tokenCount.Some? ==> n == tokenCount.value
  {
    if tokenCount.Some? && tokenCount.value != 0 then tokenCount.value else 0
  }

  /** A session after `add_message`: the message at the end, the clock stamped, and the
      total grown by the message's counted tokens. */
  function WithMessage(s: ChatSession, m: ChatMessage, now: nat): (r: ChatSession)
    ensures r.messages == s.messages + [m] && r.updatedAt == now
    ensures r.totalTokensUsed == s.totalTokensUsed + CountedTokens(m.tokenCount)
    ensures r.id == s.id && r.name == s.name && r.model == s.model && r.createdAt == s.createdAt
  {
    s.(messages := s.messages + [m], updatedAt := now,
       totalTokensUsed := s.totalTokensUsed + CountedTokens(m.tokenCount))
  }

  /** A session after `update_session`: each field given a value takes it, the others
      keep theirs; the clock is stamped. */
  function Updated(s: ChatSession, name: Option<string>, temperature: Option<real>,
                   maxTokens: Option<int>, systemPrompt: Option<string>, now: nat): (r: ChatSession)
    ensures r.id == s.id && r.model == s.model && r.messages == s.messages
    ensures r.createdAt == s.createdAt && r.totalTokensUsed == s.totalTokensUsed && r.updatedAt == now
    ensures name.None? ==> r.name == s.name
    ensures name.Some? ==> r.name == name.value
    ensures temperature.None? ==> r.temperature == s.temperature
    ensures temperature.Some? ==> r.temperature == temperature.value
    ensures maxTokens.None? ==> r.maxTokens == s.maxTokens
    ensures maxTokens.Some? ==> r.maxTokens == maxTokens.value
    ensures systemPrompt.None? ==> r.systemPrompt == s.systemPrompt
    ensures systemPrompt.Some? ==> r.systemPrompt == systemPrompt.value
  {
    s.(name := name.GetOr(s.name), temperature := temperature.GetOr(s.temperature),
       maxTokens := maxTokens.GetOr(s.maxTokens), systemPrompt := systemPrompt.GetOr(s.systemPrompt),
       updatedAt := now)
  }

  /** The messages other than those with id `id`, in order. */
  function WithoutMessage(ms: seq<ChatMessage>, id: string): (r: seq<ChatMessage>)
    ensures IsSubsequence(r, ms)
    ensures forall m :: m in r <==> m in ms && m.id != id
    ensures |r| < |ms| <==> exists k :: 0 <= k < |ms| && ms[k].id == id
    ensures |r| <= |ms|
  {
    if ms == [] then []
    else if ms[0].id == id then
      var rest := WithoutMessage(ms[1..], id);
      SubsequenceSkip(rest, ms);
      rest
    else
      var rest := WithoutMessage(ms[1..], id);
      SubsequenceCons(ms[0], rest, ms[1..]);
      assert ms == [ms[0]] + ms[1..];
      assert forall k :: 0 <= k < |ms| - 1 ==> ms[1..][k] == ms[k + 1];
      [ms[0]] + rest
  }

  /** The position of the first message with id `id`, or the length when there is none. */
  function MessageIndex(ms: seq<ChatMessage>, id: string): (i: nat)
    ensures i <= |ms|
    ensures i < |ms| ==> ms[i].id == id
    ensures forall j :: 0 <= j < i ==> ms[j].id != id
  {
    FirstIndex(ms, HasMessageId(id))
  }

  function HasMessageId(id: string): ChatMessage -> bool {
    (m: ChatMessage) => m.id == id
  }

  /** `query` (already lower-cased) occurs in the lower-cased content of some message. */
  predicate Mentions(ms: seq<ChatMessage>, query: string) {
    ms != [] && (Contains(Lower(ms[0].content), query) || Mentions(ms[1..], query))
  }

  lemma {:induction false} MentionsSome(ms: seq<ChatMessage>, query: string)
    ensures Mentions(ms, query) <==> exists k :: 0 <= k < |ms| && Contains(Lower(ms[k].content), query)
  {
    if ms != [] {
      MentionsSome(ms[1..], query);
      assert forall k :: 0 <= k < |ms| - 1 ==> ms[1..][k] == ms[k + 1];
      if exists k :: 0 <= k < |ms| && Contains(Lower(ms[k].content), query) {
        var k :| 0 <= k < |ms| && Contains(Lower(ms[k].content), query);
        if k > 0 {
          assert ms[1..][k - 1] == ms[k];
        }
      }
    }
  }

  /** What `search_sessions` looks for, given the lower-cased query: the query in the
      lower-cased name or in some message. */
  predicate Matches(s: ChatSession, query: string) {
    Contains(Lower(s.name), query) || Mentions(s.messages, query)
  }

  /** The sessions among `ss` that match, in order. */
  function Matching(ss: seq<ChatSession>, query: string): (r: seq<ChatSession>)
    ensures IsSubsequence(r, ss)
    ensures forall s :: s in r ==> Matches(s, query)
    ensures forall s :: s in ss && Matches(s, query) ==> s in r
  {
    if ss == [] then []
    else
      var prefix := ss[..|ss| - 1];
      var last := ss[|ss| - 1];
      var rest := Matching(prefix, query);
      assert ss == prefix + [last];
      if Matches(last, query) then
        SubsequenceSnoc(rest, prefix, last);
        rest + [last]
      else
        SubsequenceExtend(rest, prefix, last);
        rest
  }

  // ---------------------------------------------------------------- totals

  function TokensUsed(ss: seq<ChatSession>): int {
    if ss == [] then 0 else TokensUsed(ss[..|ss| - 1]) + ss[|ss| - 1].totalTokensUsed
  }

  function MessageCount(ss: seq<ChatSession>): nat {
    if ss == [] then 0 else MessageCount(ss[..|ss| - 1]) + |ss[|ss| - 1].messages|
  }

  /** Replacing one session changes the totals by the difference it makes. */
  lemma {:induction false} TotalsAfterReplace(ss: seq<ChatSession>, i: nat, s: ChatSession)
    requires i < |ss|
    ensures TokensUsed(ss[i := s]) == TokensUsed(ss) - ss[i].totalTokensUsed + s.totalTokensUsed
    ensures MessageCount(ss[i := s]) == MessageCount(ss) - |ss[i].messages| + |s.messages|
  {
    var n := |ss|;
    var ss' := ss[i := s];
    assert ss'[..n - 1] == if i == n - 1 then ss[..n - 1] else ss[..n - 1][i := s];
    if i < n - 1 {
      TotalsAfterReplace(ss[..n - 1], i, s);
    }
  }

  /** Storing a new value under a present key replaces it in place among the values. */
  lemma ValuesAfterPut<K(!new), V>(d: Dict<K, V>, i: nat, v: V)
    requires d.Valid() && i < |d.keys|
    ensures d.Put(d.keys[i], v).Values() == d.Values()[i := v]
  {
    var k := d.keys[i];
    var d' := d.Put(k, v);
    assert d'.keys == d.keys;
    forall j | 0 <= j < |d.keys| ensures d'.Values()[j] == d.Values()[i := v][j] {
      if j != i {
        assert d.keys[j] != k;
      }
    }
  }

  // ---------------------------------------------------------------- the store

  function UpdatedAt(s: ChatSession): int {
    s.updatedAt
  }

  /** `SessionService` with its `sessions` dictionary. */
  class SessionService {
    var sessions: Dict<string, ChatSession>

    /** Every session is stored under its own id. */
    ghost predicate Valid()
      reads this
    {
      && sessions.Valid()
      && forall id :: id in sessions.items ==> sessions.items[id].id == id
    }

    constructor ()
      ensures Valid() && sessions == Dict.Empty()
    {
      sessions := Dict.Empty();
    }

    /** `create_session`: a new session with no messages and no tokens used, stored
        under its id. */
    method CreateSession(id: string, name: string, model: string, temperature: real, maxTokens: int,
                         systemPrompt: string, now: nat)
      returns (session: ChatSession)
      requires Valid()
      modifies this
      ensures Valid()
      ensures session == ChatSession(id, name, model, [], now, now, temperature, maxTokens, systemPrompt, 0)
      ensures sessions == old(sessions).Put(id, session)
    {
      session := ChatSession(id, name, model, [], now, now, temperature, maxTokens, systemPrompt, 0);
      sessions := sessions.Put(id, session);
    }

    /** `get_session`. */
    method GetSession(id: string) returns (session: Option<ChatSession>)
      ensures session.Some? <==> id in sessions.items
      ensures session.Some? ==> session.value == sessions.items[id]
    {
      session := sessions.Get(id);
    }

    /** `get_all_sessions`: the sessions by most recent update first; sessions updated at
        the same time keep their insertion order. */
    method GetAllSessions() returns (all: seq<ChatSession>)
      requires Valid()
      ensures all == SortDesc(sessions.Values(), UpdatedAt)
    {
      all := SortDesc(sessions.Values(), UpdatedAt);
    }

    /** `update_session`: only the fields given a value change, and only in a stored
        session; an unknown id gives `None` and changes nothing. */
    method UpdateSession(id: string, name: Option<string>, temperature: Option<real>,
                         maxTokens: Option<int>, systemPrompt: Option<string>, now: nat)
      returns (session: Option<ChatSession>)
      requires Valid()
      modifies this
      ensures Valid()
      ensures id !in old(sessions.items) ==> session.None? && sessions == old(sessions)
      ensures id in old(sessions.items) ==>
                && session == Some(Updated(old(sessions.items[id]), name, temperature, maxTokens, systemPrompt, now))
                && sessions == old(sessions).Put(id, session.value)
    {
      session := sessions.Get(id);
      if session.Some? {
        var s := Updated(session.value, name, temperature, maxTokens, systemPrompt, now);
        sessions := sessions.Put(id, s);
        session := Some(s);
      }
    }

    /** `delete_session`: true exactly when the id was stored; it is gone afterwards. */
    method DeleteSession(id: string) returns (deleted: bool)
      requires Valid()
      modifies this
      ensures Valid()
      ensures deleted <==> id in old(sessions.items)
      ensures sessions == old(sessions).Remove(id) && id !in sessions.items
    {
      deleted := id in sessions.items;
      sessions := sessions.Remove(id);
    }

    /** `add_message`: an unknown session gives `None` and changes nothing; otherwise the
        message goes at the end of its session, and no other session changes. */
    method AddMessage(sessionId: string, messageId: string, role: MessageRole, content: string,
                      sources: Option<seq<Source>>, tokenCount: Option<int>, now: nat)
      returns (message: Option<ChatMessage>)
      requires Valid()
      modifies this
      ensures Valid()
      ensures sessionId !in old(sessions.items) ==> message.None? && sessions == old(sessions)
      ensures sessionId in old(sessions.items) ==>
                && message == Some(ChatMessage(messageId, role, content, sources, tokenCount))
                && sessions == old(sessions).Put(sessionId, WithMessage(old(sessions.items[sessionId]), message.value, now))
    {
      var session := sessions.Get(sessionId);
      if session.None? {
        return None;
      }
      var m := ChatMessage(messageId, role, content, sources, tokenCount);
      sessions := sessions.Put(sessionId, WithMessage(session.value, m, now));
      message := Some(m);
    }

    /** `get_messages`: the session's messages, or none for an unknown session. */
    method GetMessages(sessionId: string) returns (messages: seq<ChatMessage>)
      ensures sessionId in sessions.items ==> messages == sessions.items[sessionId].messages
      ensures sessionId !in sessions.items ==> messages == []
    {
      var session := sessions.Get(sessionId);
      messages := if session.Some? then session.value.messages else [];
    }

    /** `remove_message`: drops every message with the id; true exactly when one was
        dropped, and only then is the session's clock stamped. */
    method RemoveMessage(sessionId: string, messageId: string, now: nat) returns (removed: bool)
      requires Valid()
      modifies this
      ensures Valid()
      ensures sessionId !in old(sessions.items) ==> !removed && sessions == old(sessions)
      ensures sessionId in old(sessions.items) ==>
                var s := old(sessions.items[sessionId]);
                var kept := WithoutMessage(s.messages, messageId);
                && (removed <==> exists k :: 0 <= k < |s.messages| && s.messages[k].id == messageId)
                && sessions == old(sessions).Put(sessionId,
                                 if removed then s.(messages := kept, updatedAt := now) else s.(messages := kept))
    {
      var session := sessions.Get(sessionId);
      if session.None? {
        return false;
      }
      var s := session.value;
      var originalLength := |s.messages|;
      s := s.(messages := WithoutMessage(s.messages, messageId));
      removed := |s.messages| < originalLength;
      if removed {
        s := s.(updatedAt := now);
      }
      sessions := sessions.Put(sessionId, s);
    }

    /** `update_message`: the first message with the id takes the new content; an
        unknown session or message gives `None` and changes nothing. */
    method UpdateMessage(sessionId: string, messageId: string, content: string, now: nat)
      returns (message: Option<ChatMessage>)
      requires Valid()
      modifies this
      ensures Valid()
      ensures sessionId !in old(sessions.items) ==> message.None? && sessions == old(sessions)
      ensures sessionId in old(sessions.items) ==>
                var s := old(sessions.items[sessionId]);
                var i := MessageIndex(s.messages, messageId);
                && (i == |s.messages| ==> message.None? && sessions == old(sessions))
                && (i < |s.messages| ==>
                      && message == Some(s.messages[i].(content := content))
                      && sessions == old(sessions).Put(sessionId,
                                       s.(messages := s.messages[i := message.value], updatedAt := now)))
    {
      var session := sessions.Get(sessionId);
      if session.None? {
        return None;
      }
      var s := session.value;
      var i := 0;
      while i < |s.messages|
        invariant i <= |s.messages|
        invariant forall j :: 0 <= j < i ==> s.messages[j].id != messageId
      {
        if s.messages[i].id == messageId {
          var m := s.messages[i].(content := content);
          sessions := sessions.Put(sessionId, s.(messages := s.messages[i := m], updatedAt := now));
          return Some(m);
        }
        i := i + 1;
      }
      return None;
    }

    /** `get_total_usage`: the tokens and messages summed over all sessions, and their
        number. */
    method GetTotalUsage() returns (totalTokens: int, totalMessages: nat, totalSessions: nat)
      requires Valid()
      ensures totalTokens == TokensUsed(sessions.Values())
      ensures totalMessages == MessageCount(sessions.Values())
      ensures totalSessions == |sessions.items|
    {
      var values := sessions.Values();
      totalTokens, totalMessages := 0, 0;
      var i := 0;
      while i < |values|
        invariant i <= |values|
        invariant totalTokens == TokensUsed(values[..i]) && totalMessages == MessageCount(values[..i])
      {
        assert values[..i + 1][..i] == values[..i];
        totalTokens := totalTokens + values[i].totalTokensUsed;
        totalMessages := totalMessages + |values[i].messages|;
        i := i + 1;
      }
      assert values[..i] == values;
      KeysCount(sessions);
      totalSessions := |sessions.keys|;
    }

    /** `search_sessions`: the sessions, in insertion order, whose name or some message
        contains the query, ignoring case; a session whose name matches is not searched
        further. */
    method SearchSessions(query: string) returns (results: seq<ChatSession>)
      requires Valid()
      ensures results == Matching(sessions.Values(), Lower(query))
    {
      var queryLower := Lower(query);
      var values := sessions.Values();
      results := [];
      var i := 0;
      while i < |values|
        invariant i <= |values|
        invariant results == Matching(values[..i], queryLower)
      {
        var session := values[i];
        assert values[..i + 1][..i] == values[..i] && values[..i + 1][i] == session;
        if Contains(Lower(session.name), queryLower) {
          results := results + [session];
        } else {
          var found := MentionsQuery(session.messages, queryLower);
          if found {
            results := results + [session];
          }
        }
        i := i + 1;
      }
      assert values[..i] == values;
    }
  }

  /** The message scan of `search_sessions`: stops at the first message whose lower-cased
      content contains the (lower-cased) query. */
  method MentionsQuery(messages: seq<ChatMessage>, queryLower: string) returns (found: bool)
    ensures found == Mentions(messages, queryLower)
  {
    var j := 0;
    found := false;
    while j < |messages| && !found
      invariant j <= |messages|
      invariant Mentions(messages, queryLower) <==> found || Mentions(messages[j..], queryLower)
    {
      assert messages[j..][1..] == messages[j + 1..];
      if Contains(Lower(messages[j].content), queryLower) {
        found := true;
      }
      j := j + 1;
    }
  }

  lemma KeysCount<K(!new), V>(d: Dict<K, V>)
    requires d.Valid()
    ensures |d.items| == |d.keys|
  {
    var ks := set i | 0 <= i < |d.keys| :: d.keys[i];
    assert d.items.Keys == ks;
    DistinctCard(d.keys);
  }

  lemma {:induction false} DistinctCard<K(!new)>(keys: seq<K>)
    requires Distinct(keys)
    ensures |set i | 0 <= i < |keys| :: keys[i]| == |keys|
  {
    if keys != [] {
      var n := |keys|;
      var prefix := keys[..n - 1];
      assert Distinct(prefix);
      DistinctCard(prefix);
      var s := set i | 0 <= i < |keys| :: keys[i];
      var s' := set i | 0 <= i < |prefix| :: prefix[i];
      assert s == s' + {keys[n - 1]};
      assert keys[n - 1] !in s';
    }
  }

  // ---------------------------------------------------------------- properties

  /** The session list is newest first, holds every stored session once, and keeps
      insertion order among sessions updated at the same time. */
  lemma AllSessionsOrder(d: Dict<string, ChatSession>, v: int)
    requires d.Valid()
    ensures SortedDesc(SortDesc(d.Values(), UpdatedAt), UpdatedAt)
    ensures multiset(SortDesc(d.Values(), UpdatedAt)) == multiset(d.Values())
    ensures WithKey(SortDesc(d.Values(), UpdatedAt), UpdatedAt, v) == WithKey(d.Values(), UpdatedAt, v)
  {
    SortDescSorted(d.Values(), UpdatedAt);
    SortDescStable(d.Values(), UpdatedAt, v);
  }

  /** Adding a message to a stored session raises the message total by one and the
      token total by the message's counted tokens. */
  lemma UsageAfterAddMessage(d: Dict<string, ChatSession>, sessionId: string, m: ChatMessage, now: nat)
    requires d.Valid() && sessionId in d.items
    ensures var d' := d.Put(sessionId, WithMessage(d.items[sessionId], m, now));
            && MessageCount(d'.Values()) == MessageCount(d.Values()) + 1
            && TokensUsed(d'.Values()) == TokensUsed(d.Values()) + CountedTokens(m.tokenCount)
  {
    var i :| 0 <= i < |d.keys| && d.keys[i] == sessionId;
    var s := WithMessage(d.items[sessionId], m, now);
    ValuesAfterPut(d, i, s);
    TotalsAfterReplace(d.Values(), i, s);
  }

  /** A search returns each stored session at most once. */
  lemma SearchReturnsEachOnce(d: Dict<string, ChatSession>, query: string)
    requires d.Valid()
    requires forall id :: id in d.items ==> d.items[id].id == id
    ensures DistinctBy(Matching(d.Values(), query), (s: ChatSession) => s.id)
  {
    var vs := d.Values();
    assert forall i :: 0 <= i < |vs| ==> vs[i].id == d.keys[i];
    SubsequenceDistinctBy(Matching(vs, query), vs, (s: ChatSession) => s.id);
  }
}
