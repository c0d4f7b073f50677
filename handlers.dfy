/** The decisions the web API's handlers make around the services: which message an
    auto-name or a regeneration starts from, which system prompt and parameters a chat
    call uses, how a session is exported, which uploads are accepted and which presets
    may be deleted. A failure is the status code and detail the handler raises. */
module Handlers {
  import opened Wrappers
  import opened Text
  import opened Seqs
  import opened Models
  import Sessions
  import Llm
  import Presets
  import Dicts

  datatype HttpError = HttpError(status: int, detail: string)

  const SessionNotFound: HttpError := HttpError(404, "Session not found")

  // ---------------------------------------------------------------- model calls

  /** The arguments of one `chat_completion` call. */
  datatype ChatCall = ChatCall(
    messages: seq<ChatMessage>,
    model: string,
    systemPrompt: string,
    temperature: real,
    maxTokens: int)

  /** What a completed call gives back: the reply text and the tokens it used. */
  datatype Reply = Reply(content: string, tokensUsed: int)

  // ---------------------------------------------------------------- auto-name

  predicate IsUserMessage(m: ChatMessage) {
    m.role == User
  }

  /** Where the first user message is, or the length when there is none. */
  function FirstUserIndex(ms: seq<ChatMessage>): (i: nat)
    ensures i <= |ms|
    ensures i < |ms| ==> ms[i].role == User
    ensures forall j :: 0 <= j < i ==> ms[j].role != User
  {
    FirstIndex(ms, IsUserMessage)
  }

  /** The checks of `auto_name_session` before the model is asked: the session must
      exist and have messages, and its first user message must have content. */
  function AutoNameSource(session: Option<ChatSession>): (r: Result<string, HttpError>)
    ensures session.None? ==> r == Err(SessionNotFound)
    ensures session.Some? && session.value.messages == [] ==> r == Err(HttpError(400, "Session has no messages"))
    ensures session.Some? && session.value.messages != [] ==>
              var ms := session.value.messages;
              var i := FirstUserIndex(ms);
              && (r.Ok? <==> i < |ms| && ms[i].content != "")
              && (r.Ok? ==> r.value == ms[i].content)
              && (r.Err? ==> r.error == HttpError(400, "No user message found"))
  {
    match session
    case None => Err(SessionNotFound)
    case Some(s) =>
      if s.messages == [] then Err(HttpError(400, "Session has no messages"))
      else
        var i := FirstUserIndex(s.messages);
        if i == |s.messages| || s.messages[i].content == "" then Err(HttpError(400, "No user message found"))
        else Ok(s.messages[i].content)
  }

  /** `auto_name_session`: names the session after its first user message, by the
      model's reply to `complete`. */
  method AutoNameSession(sessions: Sessions.SessionService, sessionId: string,
                         complete: Llm.NameRequest -> Option<string>, now: nat)
    returns (r: Result<string, HttpError>)
    requires sessions.Valid()
    modifies sessions
    ensures sessions.Valid()
    ensures var source := AutoNameSource(old(sessions.sessions).Get(sessionId));
            && (source.Err? ==> r == Err(source.error) && sessions.sessions == old(sessions.sessions))
            && (source.Ok? ==>
                  var s := old(sessions.sessions.items[sessionId]);
                  var name := Llm.GenerateSessionName(source.value, s.model, complete);
                  && r == Ok(name)
                  && sessions.sessions == old(sessions.sessions).Put(sessionId, Sessions.Updated(s, Some(name), None, None, None, now)))
  {
    var session := sessions.GetSession(sessionId);
    var source := AutoNameSource(session);
    if source.Err? {
      return Err(source.error);
    }
    var name := Llm.GenerateSessionName(source.value, session.value.model, complete);
    var _ := sessions.UpdateSession(sessionId, Some(name), None, None, None, now);
    r := Ok(name);
  }

  // ---------------------------------------------------------------- regenerate

  /** The message to regenerate and the user message it answers. */
  datatype RegenerateTarget = RegenerateTarget(index: nat, userIndex: nat)

  const MessageNotFound: HttpError := HttpError(404, "Message not found")
  const NotAnAssistantMessage: HttpError := HttpError(400, "Can only regenerate assistant messages")
  const NoUserMessageBefore: HttpError := HttpError(400, "No user message found before this response")

  /** The greatest index below `i` holding a user message, or -1. */
  function LastUserBefore(ms: seq<ChatMessage>, i: nat): (j: int)
    requires i <= |ms|
    ensures -1 <= j < i
    ensures j >= 0 ==> ms[j].role == User
    ensures forall k :: j < k < i ==> ms[k].role != User
  {
    if i == 0 then -1
    else if ms[i - 1].role == User then i - 1
    else LastUserBefore(ms, i - 1)
  }

  /** The lookup of `regenerate_response`: the first message with the id, which must be
      an assistant message, and the nearest user message before it. */
  function RegenerateLookup(ms: seq<ChatMessage>, messageId: string): (r: Result<RegenerateTarget, HttpError>)
    ensures r == Err(MessageNotFound) <==> forall k :: 0 <= k < |ms| ==> ms[k].id != messageId
    ensures var i := Sessions.MessageIndex(ms, messageId);
            && (i < |ms| && ms[i].role != Assistant ==> r == Err(NotAnAssistantMessage))
            && (i < |ms| && ms[i].role == Assistant ==>
                  && (r.Ok? <==> exists k :: 0 <= k < i && ms[k].role == User)
                  && (r.Err? ==> r == Err(NoUserMessageBefore)))
    ensures r.Ok? ==>
              var t := r.value;
              && t.index == Sessions.MessageIndex(ms, messageId) && t.index < |ms| && ms[t.index].role == Assistant
              && t.userIndex < t.index && ms[t.userIndex].role == User
              && forall k :: t.userIndex < k < t.index ==> ms[k].role != User
  {
    var i := Sessions.MessageIndex(ms, messageId);
    if i == |ms| then Err(MessageNotFound)
    else if ms[i].role != Assistant then Err(NotAnAssistantMessage)
    else
      var j := LastUserBefore(ms, i);
      if j < 0 then Err(NoUserMessageBefore) else Ok(RegenerateTarget(i, j))
  }

  /** The two searches of `regenerate_response`: forwards for the message, then
      backwards from just before it for a user message. */
  method LocateRegenerate(ms: seq<ChatMessage>, messageId: string) returns (r: Result<RegenerateTarget, HttpError>)
    ensures r == RegenerateLookup(ms, messageId)
  {
    var index := 0;
    while index < |ms| && ms[index].id != messageId
      invariant index <= |ms|
      invariant forall k :: 0 <= k < index ==> ms[k].id != messageId
    {
      index := index + 1;
    }
    if index == |ms| {
      return Err(MessageNotFound);
    }
    if ms[index].role != Assistant {
      return Err(NotAnAssistantMessage);
    }
    var userIndex: int := index as int - 1;
    while userIndex >= 0 && ms[userIndex].role != User
      invariant -1 <= userIndex < index
      invariant LastUserBefore(ms, index) == LastUserBefore(ms, userIndex + 1)
    {
      userIndex := userIndex - 1;
    }
    if userIndex < 0 {
      return Err(NoUserMessageBefore);
    }
    r := Ok(RegenerateTarget(index, userIndex));
  }

  /** The reply of `regenerate_response`. */
  datatype Regenerated = Regenerated(message: ChatMessage, tokensUsed: int)

  /** A session without the messages carrying `messageId`, stamped at `now`. */
  function Pruned(s: ChatSession, messageId: string, now: nat): ChatSession {
    s.(messages := Sessions.WithoutMessage(s.messages, messageId), updatedAt := now)
  }

  /** `regenerate_response`: only once the lookup succeeds is the old reply removed;
      the model is then asked again with the remaining history and the session's own
      settings, and its answer is stored as a new assistant message. A failed call
      leaves the old reply removed. */
  method Regenerate(sessions: Sessions.SessionService, sessionId: string, messageId: string,
                    complete: ChatCall -> Result<Reply, string>, newMessageId: string, now: nat)
    returns (r: Result<Regenerated, HttpError>)
    requires sessions.Valid()
    modifies sessions
    ensures sessions.Valid()
    ensures sessionId !in old(sessions.sessions.items) ==> r == Err(SessionNotFound) && sessions.sessions == old(sessions.sessions)
    ensures sessionId in old(sessions.sessions.items) ==>
              var s := old(sessions.sessions.items[sessionId]);
              var lookup := RegenerateLookup(s.messages, messageId);
              var pruned := Pruned(s, messageId, now);
              var reply := complete(ChatCall(pruned.messages, s.model, s.systemPrompt, s.temperature, s.maxTokens));
              && (lookup.Err? ==> r == Err(lookup.error) && sessions.sessions == old(sessions.sessions))
              && (lookup.Ok? && reply.Err? ==>
                    r == Err(HttpError(500, reply.error)) && sessions.sessions == old(sessions.sessions).Put(sessionId, pruned))
              && (lookup.Ok? && reply.Ok? ==>
                    var m := ChatMessage(newMessageId, Assistant, reply.value.content, None, Some(reply.value.tokensUsed));
                    && r == Ok(Regenerated(m, reply.value.tokensUsed))
                    && sessions.sessions == old(sessions.sessions).Put(sessionId, Sessions.WithMessage(pruned, m, now)))
  {
    var session := sessions.GetSession(sessionId);
    if session.None? {
      return Err(SessionNotFound);
    }
    var s := session.value;
    var target := LocateRegenerate(s.messages, messageId);
    if target.Err? {
      return Err(target.error);
    }
    ghost var before := sessions.sessions;
    var removed := sessions.RemoveMessage(sessionId, messageId, now);
    assert removed by {
      assert s.messages[target.value.index].id == messageId;
    }
    var messages := sessions.GetMessages(sessionId);
    var reply := complete(ChatCall(messages, s.model, s.systemPrompt, s.temperature, s.maxTokens));
    if reply.Err? {
      return Err(HttpError(500, reply.error));
    }
    var m := sessions.AddMessage(sessionId, newMessageId, Assistant, reply.value.content, None,
                                 Some(reply.value.tokensUsed), now);
    Dicts.PutTwice(before, sessionId, Pruned(s, messageId, now), Sessions.WithMessage(Pruned(s, messageId, now), m.value, now));
    r := Ok(Regenerated(m.value, reply.value.tokensUsed));
  }

  // ---------------------------------------------------------------- chat

  /** The fields of a chat request the handler reads; search and document retrieval
      reach it only as the context text and sources they produce. */
  datatype ChatRequest = ChatRequest(
    sessionId: string,
    message: string,
    model: string,
    temperature: Option<real>,
    maxTokens: Option<int>,
    systemPrompt: Option<string>)

  const ContextIntro: string := "\n\nUse the following context to answer the user's question:\n"

  /** The system prompt of a chat call: the request's when it is given and non-empty,
      else the session's, followed by the context block only when there is context. */
  function SystemPromptFor(requested: Option<string>, sessionPrompt: string, context: string): (r: string)
    ensures var base := if requested.Some? && requested.value != "" then requested.value else sessionPrompt;
            && (context == "" ==> r == base)
            && (context != "" ==> r == base + ContextIntro + context)
  {
    var base := if requested.Some? && requested.value != "" then requested.value else sessionPrompt;
    if context != "" then base + ContextIntro + context else base
  }

  /** A request value overrides the session's whenever it is present, zero included. */
  function Override<T>(requested: Option<T>, current: T): (r: T)
    ensures requested.Some? ==> r == requested.value
    ensures requested.None? ==> r == current
  {
    match requested
    case Some(v) => v
    case None => current
  }

  /** The reply of `chat`. */
  datatype ChatReply = ChatReply(message: ChatMessage, sources: Option<seq<Source>>, tokensUsed: int)

  /** The sources stored with the answer: none when the list is empty. */
  function KeptSources(sources: seq<Source>): Option<seq<Source>> {
    if sources != [] then Some(sources) else None
  }

  /** `chat`: the user's message is stored first, then the model is asked with the
      whole history and the chosen prompt and parameters; its answer is stored as an
      assistant message. A failed call leaves the user's message stored. */
  method Chat(sessions: Sessions.SessionService, request: ChatRequest, context: string, sources: seq<Source>,
              userMessageId: string, replyMessageId: string, complete: ChatCall -> Result<Reply, string>, now: nat)
    returns (r: Result<ChatReply, HttpError>)
    requires sessions.Valid()
    modifies sessions
    ensures sessions.Valid()
    ensures request.sessionId !in old(sessions.sessions.items) ==> r == Err(SessionNotFound) && sessions.sessions == old(sessions.sessions)
    ensures request.sessionId in old(sessions.sessions.items) ==>
              var s := old(sessions.sessions.items[request.sessionId]);
              var asked := Sessions.WithMessage(s, ChatMessage(userMessageId, User, request.message, None, None), now);
              var call := ChatCall(asked.messages, request.model, SystemPromptFor(request.systemPrompt, s.systemPrompt, context),
                                   Override(request.temperature, s.temperature), Override(request.maxTokens, s.maxTokens));
              var reply := complete(call);
              && (reply.Err? ==>
                    r == Err(HttpError(500, reply.error)) && sessions.sessions == old(sessions.sessions).Put(request.sessionId, asked))
              && (reply.Ok? ==>
                    var m := ChatMessage(replyMessageId, Assistant, reply.value.content, KeptSources(sources), Some(reply.value.tokensUsed));
                    && r == Ok(ChatReply(m, KeptSources(sources), reply.value.tokensUsed))
                    && sessions.sessions == old(sessions.sessions).Put(request.sessionId, Sessions.WithMessage(asked, m, now)))
  {
    var session := sessions.GetSession(request.sessionId);
    if session.None? {
      return Err(SessionNotFound);
    }
    var s := session.value;
    ghost var before := sessions.sessions;
    var _ := sessions.AddMessage(request.sessionId, userMessageId, User, request.message, None, None, now);
    ghost var asked := Sessions.WithMessage(s, ChatMessage(userMessageId, User, request.message, None, None), now);
    var systemPrompt := SystemPromptFor(request.systemPrompt, s.systemPrompt, context);
    var messages := sessions.GetMessages(request.sessionId);
    var temperature := Override(request.temperature, s.temperature);
    var maxTokens := Override(request.maxTokens, s.maxTokens);
    var reply := complete(ChatCall(messages, request.model, systemPrompt, temperature, maxTokens));
    if reply.Err? {
      return Err(HttpError(500, reply.error));
    }
    var kept := KeptSources(sources);
    var m := sessions.AddMessage(request.sessionId, replyMessageId, Assistant, reply.value.content, kept,
                                 Some(reply.value.tokensUsed), now);
    Dicts.PutTwice(before, request.sessionId, asked, Sessions.WithMessage(asked, m.value, now));
    r := Ok(ChatReply(m.value, kept, reply.value.tokensUsed));
  }

  // ---------------------------------------------------------------- export

  datatype ExportFormat = Json | Markdown

  /** "json" in any letter case selects JSON; anything else Markdown. */
  function FormatOf(format: string): (f: ExportFormat)
    ensures f == Json <==> Lower(format) == "json"
  {
    if Lower(format) == "json" then Json else Markdown
  }

  function Extension(f: ExportFormat): string {
    match f
    case Json => ".json"
    case Markdown => ".md"
  }

  function MediaType(f: ExportFormat): string {
    match f
    case Json => "application/json"
    case Markdown => "text/markdown"
  }

  /** The download name: the session name with its spaces turned into underscores,
      then the format's extension. */
  function ExportFilename(name: string, f: ExportFormat): (r: string)
    ensures |r| == |name| + |Extension(f)| && r[|name|..] == Extension(f)
    ensures forall i :: 0 <= i < |name| ==> r[i] != ' ' && (name[i] != ' ' ==> r[i] == name[i])
  {
    ReplaceChar(name, ' ', '_') + Extension(f)
  }

  const UserLabel: string := "\U{1F464} **User**"
  const AssistantLabel: string := "\U{1F916} **Assistant**"

  /** The heading label of a message: the user's for user messages, the assistant's
      for every other role, system included. */
  function RoleLabel(role: MessageRole): (tag: string)
    ensures tag == UserLabel <==> role == User
    ensures tag == AssistantLabel <==> role != User
  {
    if role.Value() == "user" then UserLabel else AssistantLabel
  }

  /** The opening lines: title, model, creation time (`created`, already formatted),
      message count and a rule. */
  function MarkdownHeader(s: ChatSession, created: string): seq<string> {
    ["# " + s.name, "", "**Model:** " + s.model, "**Created:** " + created,
     "**Messages:** " + NatToString(|s.messages|), "", "---", ""]
  }

  function SourceLine(source: Source): string {
    "- [" + source.title + "](" + source.url + ")"
  }

  function SourceLines(sources: seq<Source>): (lines: seq<string>)
    ensures |lines| == |sources|
  {
    if sources == [] then []
    else SourceLines(sources[..|sources| - 1]) + [SourceLine(sources[|sources| - 1])]
  }

  predicate HasSources(m: ChatMessage) {
    m.sources.Some? && m.sources.value != []
  }

  /** A message's heading: its role's label and its time (`stamp`). */
  function Heading(m: ChatMessage, stamp: string): string {
    "### " + RoleLabel(m.role) + " (" + stamp + ")"
  }

  const SourcesTitle: string := "**Sources:**"

  /** The first lines of a message: its heading, its content, and blank lines. */
  function MessageHead(m: ChatMessage, stamp: string): seq<string> {
    [Heading(m, stamp), "", m.content, ""]
  }

  /** The lines listing a message's sources, when it has any. */
  function SourcesPart(m: ChatMessage): seq<string> {
    if HasSources(m) then [SourcesTitle] + SourceLines(m.sources.value) + [""] else []
  }

  /** The lines of one message. */
  function MessageBlock(m: ChatMessage, stamp: string): seq<string> {
    MessageHead(m, stamp) + SourcesPart(m)
  }

  function BlockOf(stampOf: ChatMessage -> string): ChatMessage -> seq<string> {
    m => MessageBlock(m, stampOf(m))
  }

  /** The lines of all the messages, in order. */
  function MessageBlocks(ms: seq<ChatMessage>, stampOf: ChatMessage -> string): seq<string> {
    Flatten(ms, BlockOf(stampOf))
  }

  /** Message `i` shows up with its heading line, followed two lines later by its
      content, right after the lines of the messages before it. */
  lemma EveryMessageShown(ms: seq<ChatMessage>, stampOf: ChatMessage -> string, i: nat)
    requires i < |ms|
    ensures var lines := MessageBlocks(ms, stampOf);
            var k := |MessageBlocks(ms[..i], stampOf)|;
            && k + 2 < |lines| && lines[k] == Heading(ms[i], stampOf(ms[i])) && lines[k + 2] == ms[i].content
  {
    var f := BlockOf(stampOf);
    FlattenAt(ms, f, i);
    var before := MessageBlocks(ms[..i], stampOf);
    var block := MessageBlock(ms[i], stampOf(ms[i]));
    assert f(ms[i]) == block;
    assert block[0] == Heading(ms[i], stampOf(ms[i])) && block[2] == ms[i].content;
    var lines := before + block + Flatten(ms[i + 1..], f);
    assert lines[|before|] == block[0] && lines[|before| + 2] == block[2];
  }

  /** Builds the Markdown lines as the handler does, line by line. */
  method MarkdownLines(s: ChatSession, created: string, stampOf: ChatMessage -> string) returns (lines: seq<string>)
    ensures lines == MarkdownHeader(s, created) + MessageBlocks(s.messages, stampOf)
  {
    var header := MarkdownHeader(s, created);
    var body := MessagesLines(s.messages, stampOf);
    lines := header + body;
  }

  /** The lines of the messages, appended one message at a time. */
  method MessagesLines(ms: seq<ChatMessage>, stampOf: ChatMessage -> string) returns (lines: seq<string>)
    ensures lines == MessageBlocks(ms, stampOf)
  {
    lines := [];
    for i := 0 to |ms|
      invariant lines == MessageBlocks(ms[..i], stampOf)
    {
      var block := MessageLines(ms[i], stampOf(ms[i]));
      FlattenPrefixStep(ms, BlockOf(stampOf), i);
      lines := lines + block;
    }
    assert ms[..|ms|] == ms;
  }

  /** The lines of one message: its head, then its sources when it has any. */
  method MessageLines(m: ChatMessage, stamp: string) returns (lines: seq<string>)
    ensures lines == MessageBlock(m, stamp)
  {
    lines := [Heading(m, stamp), "", m.content, ""];
    if m.sources.Some? && m.sources.value != [] {
      lines := AppendSources(lines, m.sources.value);
    }
  }

  /** The sources part of a message block, appended to `lines`. */
  method AppendSources(lines: seq<string>, sources: seq<Source>) returns (r: seq<string>)
    ensures r == lines + ([SourcesTitle] + SourceLines(sources) + [""])
  {
    r := lines + [SourcesTitle];
    for j := 0 to |sources|
      invariant r == lines + [SourcesTitle] + SourceLines(sources[..j])
    {
      assert sources[..j + 1][..j] == sources[..j];
      r := r + [SourceLine(sources[j])];
    }
    assert sources[..|sources|] == sources;
    r := r + [""];
  }

  /** A session export: the file's text, its name and its media type. */
  datatype Export = Export(content: string, filename: string, mediaType: string)

  /** `export_session`. `created` and `stampOf` format the session's creation time and
      each message's time; `jsonOf` is the JSON rendering of the session. */
  method ExportSession(sessions: Sessions.SessionService, sessionId: string, format: string,
                       created: ChatSession -> string, stampOf: ChatMessage -> string, jsonOf: ChatSession -> string)
    returns (r: Result<Export, HttpError>)
    ensures sessionId !in sessions.sessions.items ==> r == Err(SessionNotFound)
    ensures sessionId in sessions.sessions.items ==>
              var s := sessions.sessions.items[sessionId];
              var f := FormatOf(format);
              && r.Ok?
              && r.value.filename == ExportFilename(s.name, f)
              && r.value.mediaType == MediaType(f)
              && (f == Json ==> r.value.content == jsonOf(s))
              && (f == Markdown ==> r.value.content == Join("\n", MarkdownHeader(s, created(s)) + MessageBlocks(s.messages, stampOf)))
  {
    var session := sessions.GetSession(sessionId);
    if session.None? {
      return Err(SessionNotFound);
    }
    var s := session.value;
    var f := FormatOf(format);
    var content;
    if f == Json {
      content := jsonOf(s);
    } else {
      var lines := MarkdownLines(s, created(s), stampOf);
      content := Join("\n", lines);
    }
    r := Ok(Export(content, ExportFilename(s.name, f), MediaType(f)));
  }

  // ---------------------------------------------------------------- upload

  const AllowedExtensions: set<string> := {".txt", ".md", ".py", ".js", ".ts", ".json", ".pdf"}

  /** The last path component that is neither empty nor ".", or "" when there is none. */
  function LastComponent(parts: seq<string>): (name: string)
    ensures name == "" || name in parts
  {
    if parts == [] then ""
    else
      var last := parts[|parts| - 1];
      if last != "" && last != "." then last else LastComponent(parts[..|parts| - 1])
  }

  /** A path's final component (`PurePosixPath.name`). */
  function FileName(path: string): (name: string)
    ensures '/' !in name
  {
    LastComponent(Split(path, '/'))
  }

  /** A name without slashes, other than "" and ".", is its own final component. */
  lemma FileNameOfPlainName(path: string)
    requires '/' !in path && path != "" && path != "."
    ensures FileName(path) == path
  {
    SplitWithoutSep(path, '/');
  }

  /** The detail of a refused upload; the allowed extensions are listed in a fixed
      order here. */
  const UnsupportedType: string := "File type not supported. Allowed: .txt, .md, .py, .js, .ts, .json, .pdf"

  /** The index of the last `c` in `s`, or -1 (`str.rfind`). */
  function LastIndexOf(s: string, c: char): (i: int)
    ensures -1 <= i < |s|
    ensures i >= 0 ==> s[i] == c
    ensures forall k :: i < k < |s| ==> s[k] != c
  {
    if s == [] then -1
    else if s[|s| - 1] == c then |s| - 1
    else LastIndexOf(s[..|s| - 1], c)
  }

  /** A file name's extension (`PurePath.suffix`): from its last dot on, when that dot
      is neither the name's first nor its last character. */
  function Suffix(name: string): (r: string)
    ensures r == "" || (|r| >= 2 && |r| < |name| && r == name[|name| - |r|..] && r[0] == '.' && '.' !in r[1..])
  {
    var i := LastIndexOf(name, '.');
    if 0 < i < |name| - 1 then name[i..] else ""
  }

  /** The check of `upload_file`: the file's extension, lower-cased, must be one of the
      seven allowed. */
  function UploadCheck(filename: string): (r: Result<string, HttpError>)
    ensures r.Ok? <==> Lower(Suffix(FileName(filename))) in AllowedExtensions
    ensures r.Ok? ==> r.value == Lower(Suffix(FileName(filename)))
    ensures r.Err? ==> r.error.status == 400
  {
    var ext := Lower(Suffix(FileName(filename)));
    if ext in AllowedExtensions then Ok(ext)
    else Err(HttpError(400, UnsupportedType))
  }

  /** An accepted file's name ends, in some letter case, with its extension, and has
      something before the dot. */
  lemma AcceptedNameEndsWithExtension(filename: string)
    requires UploadCheck(filename).Ok?
    ensures var name := FileName(filename);
            var ext := UploadCheck(filename).value;
            && |ext| < |name| && Lower(name[|name| - |ext|..]) == ext
  {
    var name := FileName(filename);
    var suffix := Suffix(name);
    AllowedAreDotted();
    assert |Lower(suffix)| >= 2;
  }

  /** Each allowed extension is a dot and at least one more character. */
  lemma AllowedAreDotted()
    ensures forall e :: e in AllowedExtensions ==> |e| >= 2
  {
  }

  /** Letter case in the extension does not matter. */
  lemma UpperCaseExtensionAccepted()
    ensures UploadCheck("notes.TXT").Ok?
  {
    FileNameOfPlainName("notes.TXT");
    SuffixOfNotes();
    LowerOfTxt();
    assert ".txt" in AllowedExtensions;
  }

  lemma SuffixOfNotes()
    ensures Suffix("notes.TXT") == ".TXT"
  {
    var name := "notes.TXT";
    assert name[5] == '.' && name[6] == 'T' && name[7] == 'X' && name[8] == 'T';
    assert LastIndexOf(name, '.') == 5;
  }

  lemma LowerOfTxt()
    ensures Lower(".TXT") == ".txt"
  {
  }

  /** A name that is only an extension has none: a dot that starts the name does not
      begin a suffix. */
  lemma BareExtensionRejected()
    ensures UploadCheck(".txt").Err?
  {
    FileNameOfPlainName(".txt");
    assert LastIndexOf(".txt", '.') == 0;
    assert Suffix(".txt") == "";
  }

  // ---------------------------------------------------------------- presets

  const PresetNotFound: HttpError := HttpError(404, "Preset not found")

  /** `delete_preset`: an unknown preset is not found; a preset whose id does not start
      with `custom_` is refused; any other is deleted. The last not-found answer of the
      handler cannot happen: a known `custom_` id is never a built-in one, so it is a
      stored custom preset. */
  method DeletePreset(presets: Presets.PresetService, presetId: string) returns (r: Result<string, HttpError>)
    requires presets.Valid()
    modifies presets
    ensures presets.Valid()
    ensures Presets.Lookup(old(presets.custom), presetId).None? ==>
              r == Err(PresetNotFound) && presets.custom == old(presets.custom)
    ensures Presets.Lookup(old(presets.custom), presetId).Some? && !StartsWith(presetId, Presets.CustomPrefix) ==>
              r == Err(HttpError(400, "Cannot delete built-in presets")) && presets.custom == old(presets.custom)
    ensures Presets.Lookup(old(presets.custom), presetId).Some? && StartsWith(presetId, Presets.CustomPrefix) ==>
              r == Ok("deleted") && presets.custom == old(presets.custom).Remove(presetId)
  {
    var preset := presets.GetPreset(presetId);
    if preset.None? {
      return Err(PresetNotFound);
    }
    if !StartsWith(presetId, Presets.CustomPrefix) {
      return Err(HttpError(400, "Cannot delete built-in presets"));
    }
    Presets.BuiltinIdsAreNotCustom();
    var deleted := presets.DeletePreset(presetId);
    if deleted {
      return Ok("deleted");
    }
    assert false;
    r := Err(PresetNotFound);
  }
}
