/**
 * The FastAPI application: the model catalogue, the chat endpoint with the
 * event stream its `generate()` produces, the classification of exception
 * texts into user messages, and the conversation endpoints' status decisions.
 */
module Server {
  import opened Wrappers
  import opened Text
  import Types
  import opened Environment
  import opened LlmProvider
  import opened Llm
  import opened Repository

  const TooManyRequestsMessage: string := "リクエストが多すぎます。しばらく待ってから再試行してください"
  const CannotConnectMessage: string := "サービスに接続できません"
  const NetworkErrorMessage: string := "ネットワークエラーが発生しました。接続を確認してください"
  const GenericErrorMessage: string := "エラーが発生しました"

  // ---------------------------------------------------------------------
  // Error classification
  // ---------------------------------------------------------------------

  predicate MentionsRateLimit(t: string) {
    Contains(t, "rate") || Contains(t, "quota")
  }

  predicate MentionsAuth(t: string) {
    Contains(t, "auth") || Contains(t, "api key")
  }

  predicate MentionsNetwork(t: string) {
    Contains(t, "network") || Contains(t, "connection")
  }

  /**
   * The message the stream reports for an exception: the lower-cased text is
   * tested for rate limits, then authentication, then the network, in that order.
   */
  function ClassifyError(exceptionText: string): (message: string)
    ensures var t := ToLower(exceptionText);
      && (MentionsRateLimit(t) ==> message == TooManyRequestsMessage)
      && (!MentionsRateLimit(t) && MentionsAuth(t) ==> message == CannotConnectMessage)
      && (!MentionsRateLimit(t) && !MentionsAuth(t) && MentionsNetwork(t) ==> message == NetworkErrorMessage)
      && (!MentionsRateLimit(t) && !MentionsAuth(t) && !MentionsNetwork(t) ==> message == GenericErrorMessage)
  {
    var t := ToLower(exceptionText);
    if MentionsRateLimit(t) then TooManyRequestsMessage
    else if MentionsAuth(t) then CannotConnectMessage
    else if MentionsNetwork(t) then NetworkErrorMessage
    else GenericErrorMessage
  }

  lemma ToLowerIdempotent(s: string)
    ensures ToLower(ToLower(s)) == ToLower(s)
  {
    var t := ToLower(s);
    forall i | 0 <= i < |s| ensures ToLower(t)[i] == t[i] {
      assert t[i] == ToLowerChar(s[i]);
    }
  }

  /** The classification does not depend on letter case. */
  lemma ClassifyIgnoresCase(exceptionText: string)
    ensures ClassifyError(ToLower(exceptionText)) == ClassifyError(exceptionText)
  {
    ToLowerIdempotent(exceptionText);
  }

  /** Whatever the exception, the message reported is never empty, so the client treats it as an error. */
  lemma ClassifiedMessageNonEmpty(exceptionText: string)
    ensures ClassifyError(exceptionText) != ""
  {
  }

  lemma ToLowerKeepsLowerCase(s: string)
    requires forall i :: 0 <= i < |s| ==> !('A' <= s[i] <= 'Z')
    ensures ToLower(s) == s
  {
  }

  lemma RateLimitMentioned()
    ensures MentionsRateLimit("rate limit exceeded")
  {
    assert StartsWith("rate limit exceeded", "rate");
  }

  /** The rate-limit case of the error-handling tests. */
  lemma RateLimitClassified()
    ensures ClassifyError("rate limit exceeded") == TooManyRequestsMessage
  {
    ToLowerKeepsLowerCase("rate limit exceeded");
    RateLimitMentioned();
  }

  // ---------------------------------------------------------------------
  // The model catalogue
  // ---------------------------------------------------------------------

  const OpenAiModels: seq<Types.ModelInfo> := [
    Types.ModelInfo("gpt-5.2", "GPT-5.2", Types.OpenAi, "OpenAIの最新モデル"),
    Types.ModelInfo("gpt-5.2-pro", "GPT-5.2 Pro", Types.OpenAi, "OpenAIの高性能モデル")
  ]

  const GoogleModels: seq<Types.ModelInfo> := [
    Types.ModelInfo("gemini-3-pro-preview", "Gemini 3 Pro", Types.Google, "Googleの高性能モデル"),
    Types.ModelInfo("gemini-3-flash-preview", "Gemini 3 Flash", Types.Google, "Googleの高速モデル")
  ]

  const ClaudeModels: seq<Types.ModelInfo> := [
    Types.ModelInfo("claude-opus-4-5", "Claude 4.5 Opus", Types.Claude, "Claudeの高性能モデル"),
    Types.ModelInfo("claude-sonnet-4-5", "Claude 4.5 Sonnet", Types.Claude, "Claudeのバランス型モデル"),
    Types.ModelInfo("claude-haiku-4-5", "Claude 4.5 Haiku", Types.Claude, "Claudeの高速モデル")
  ]

  /** Every model the server knows, in the order it lists them. */
  const Catalogue: seq<Types.ModelInfo> := OpenAiModels + GoogleModels + ClaudeModels

  /** The entries whose provider has a key set, in order. */
  function Enabled(ms: seq<Types.ModelInfo>, env: Env): seq<Types.ModelInfo>
    decreases |ms|
  {
    if ms == [] then []
    else Enabled(ms[..|ms| - 1], env) + (if HasKeyFor(env, ms[|ms| - 1].provider) then [ms[|ms| - 1]] else [])
  }

  lemma {:induction false} EnabledAppend(a: seq<Types.ModelInfo>, b: seq<Types.ModelInfo>, env: Env)
    ensures Enabled(a + b, env) == Enabled(a, env) + Enabled(b, env)
    decreases |b|
  {
    if b == [] {
      assert a + b == a;
    } else {
      var n := |b| - 1;
      assert (a + b)[..|a + b| - 1] == a + b[..n];
      assert (a + b)[|a + b| - 1] == b[n];
      EnabledAppend(a, b[..n], env);
    }
  }

  /** A block of one provider's models is listed whole or not at all. */
  lemma {:induction false} EnabledBlock(ms: seq<Types.ModelInfo>, p: Types.Provider, env: Env)
    requires forall i :: 0 <= i < |ms| ==> ms[i].provider == p
    ensures Enabled(ms, env) == if HasKeyFor(env, p) then ms else []
    decreases |ms|
  {
    if ms != [] {
      var n := |ms| - 1;
      EnabledBlock(ms[..n], p, env);
      assert ms[..n] + [ms[n]] == ms;
    }
  }

  lemma {:induction false} EnabledMembers(ms: seq<Types.ModelInfo>, env: Env, m: Types.ModelInfo)
    ensures m in Enabled(ms, env) <==> m in ms && HasKeyFor(env, m.provider)
    decreases |ms|
  {
    if ms != [] {
      var n := |ms| - 1;
      EnabledMembers(ms[..n], env, m);
      assert ms == ms[..n] + [ms[n]];
    }
  }

  lemma OpenAiBlock(env: Env)
    ensures Enabled(OpenAiModels, env) == if HasOpenAiKey(env) then OpenAiModels else []
  {
    EnabledBlock(OpenAiModels, Types.OpenAi, env);
  }

  lemma GoogleBlock(env: Env)
    ensures Enabled(GoogleModels, env) == if HasGoogleKey(env) then GoogleModels else []
  {
    EnabledBlock(GoogleModels, Types.Google, env);
  }

  lemma ClaudeBlock(env: Env)
    ensures Enabled(ClaudeModels, env) == if HasAnthropicKey(env) then ClaudeModels else []
  {
    EnabledBlock(ClaudeModels, Types.Claude, env);
  }

  /** The enabled catalogue is the OpenAI block, then the Gemini block, then the Claude block, each kept or dropped whole. */
  lemma CatalogueBlocks(env: Env)
    ensures Enabled(Catalogue, env) ==
      (if HasOpenAiKey(env) then OpenAiModels else [])
      + (if HasGoogleKey(env) then GoogleModels else [])
      + (if HasAnthropicKey(env) then ClaudeModels else [])
  {
    OpenAiBlock(env);
    GoogleBlock(env);
    ClaudeBlock(env);
    EnabledAppend(OpenAiModels, GoogleModels, env);
    EnabledAppend(OpenAiModels + GoogleModels, ClaudeModels, env);
  }

  /** `get_models`: the blocks of the providers whose keys are set, OpenAI, then Gemini, then Claude. */
  method GetModels(env: Env) returns (models: seq<Types.ModelInfo>)
    ensures models == Enabled(Catalogue, env)
  {
    var openAiKey := env.openAiKey;
    var anthropicKey := env.anthropicKey;
    var googleKey := if Truthy(env.geminiKey) then env.geminiKey else env.googleKey;
    models := [];
    if Truthy(openAiKey) {
      models := models + OpenAiModels;
    }
    if Truthy(googleKey) {
      models := models + GoogleModels;
    }
    if Truthy(anthropicKey) {
      models := models + ClaudeModels;
    }
    CatalogueBlocks(env);
  }

  /** Two OpenAI models iff its key is set, two Gemini models iff either Google key is, three Claude models iff the Anthropic key is. */
  lemma CatalogueSize(env: Env)
    ensures |Enabled(Catalogue, env)| ==
      (if HasOpenAiKey(env) then 2 else 0) + (if HasGoogleKey(env) then 2 else 0) + (if HasAnthropicKey(env) then 3 else 0)
  {
    CatalogueBlocks(env);
  }

  // ---------------------------------------------------------------------
  // The chat endpoint
  // ---------------------------------------------------------------------

  /** One entry of the request history. */
  datatype ChatMessage = ChatMessage(role: string, content: string)

  /** The body of `POST /api/chat`. */
  datatype ChatRequest = ChatRequest(conversationId: string, message: string, model: string, history: seq<ChatMessage>)

  /** The messages sent to the model: the history, then the new user message. */
  function BuildMessages(request: ChatRequest): (r: seq<ChatDict>)
    ensures |r| == |request.history| + 1
    ensures forall i :: 0 <= i < |request.history| ==>
      r[i] == ChatDict(Some(request.history[i].role), Some(request.history[i].content))
    ensures r[|request.history|] == ChatDict(Some("user"), Some(request.message))
  {
    var h := request.history;
    seq(|h|, i requires 0 <= i < |h| => ChatDict(Some(h[i].role), Some(h[i].content)))
      + [ChatDict(Some("user"), Some(request.message))]
  }

  /** One `data: ` event of the stream: `{"content": ...}`, `{"done": true}` or `{"error": ...}`. */
  datatype Event = Content(chunk: string) | Done | Failed(message: string)

  function ContentEvents(chunks: seq<string>): (r: seq<Event>)
    ensures |r| == |chunks| && forall i :: 0 <= i < |chunks| ==> r[i] == Content(chunks[i])
  {
    seq(|chunks|, i requires 0 <= i < |chunks| => Content(chunks[i]))
  }

  /** The events of a turn: one per chunk, then `done`, or the classified error if the model raised. */
  function TurnEvents(stream: ChunkStream): seq<Event> {
    ContentEvents(stream.chunks)
      + [if stream.raised.None? then Done else Failed(ClassifyError(stream.raised.value))]
  }

  /** A turn's events end in exactly one `done` or `error`, after content events only. */
  lemma TurnEventsShape(stream: ChunkStream)
    ensures var es := TurnEvents(stream);
      && |es| == |stream.chunks| + 1
      && (forall i :: 0 <= i < |es| - 1 ==> es[i] == Content(stream.chunks[i]))
      && (stream.raised.None? <==> es[|es| - 1] == Done)
      && (stream.raised.Some? <==> es[|es| - 1].Failed?)
  {
  }

  /** What one write of the turn meets: the time since the previous reading, and whether its commit fails. */
  datatype Commit = Commit(elapsed: nat, fault: bool)

  predicate StoredAs(m: Message, role: string, content: string, request: ChatRequest) {
    m.role == role && m.content == content && m.model == request.model && m.conversationId == request.conversationId
  }

  /** The store's two tables and its clock, as one value. */
  datatype Store = Store(conversations: map<string, Conversation>, messages: seq<Message>, clock: nat)

  function StoreOf(repo: MessageRepository): Store
    reads repo
  {
    Store(repo.conversations, repo.messages, repo.clock)
  }

  /**
   * The store after `ensure_conversation`: unchanged for a known id; for a
   * new one the clock is read and, unless the commit fails, the conversation
   * is created with the default title.
   */
  function Ensured(s: Store, id: string, save: Commit): (r: Store)
    ensures r.messages == s.messages
    ensures id in s.conversations ==> r == s
    ensures id !in s.conversations ==> r.clock == s.clock + save.elapsed
    ensures id !in s.conversations && save.fault ==> r.conversations == s.conversations
    ensures id !in s.conversations && !save.fault ==>
      && r.conversations.Keys == s.conversations.Keys + {id}
      && r.conversations[id] == Conversation(id, Types.DefaultTitle, r.clock, r.clock)
      && forall other :: other in s.conversations ==> r.conversations[other] == s.conversations[other]
  {
    if id in s.conversations then s
    else
      var now := s.clock + save.elapsed;
      if save.fault then s.(clock := now)
      else s.(conversations := s.conversations[id := Conversation(id, Types.DefaultTitle, now, now)], clock := now)
  }

  /**
   * The store after one `save_message` of `content`, whose built title is
   * `built`: the clock is read; unless the commit fails, the row is appended
   * and the conversation saved.
   */
  function SaveEffect(s: Store, role: string, content: string, built: string, model: string, conversationId: string,
                      save: Commit): Store {
    var now := s.clock + save.elapsed;
    if save.fault then s.(clock := now)
    else Store(SavedInto(s.conversations, conversationId, role, built, now),
               s.messages + [Message(NextMessageId(s.messages), conversationId, role, content, model, now)], now)
  }

  /** One save reads the clock; a failed commit stores nothing, a successful one appends the row and touches only its conversation. */
  lemma SaveEffectFacts(s: Store, role: string, content: string, built: string, model: string, conversationId: string,
                        save: Commit)
    ensures var r := SaveEffect(s, role, content, built, model, conversationId, save);
      && r.clock == s.clock + save.elapsed
      && (save.fault ==> r.conversations == s.conversations && r.messages == s.messages)
    ensures !save.fault ==>
      var r := SaveEffect(s, role, content, built, model, conversationId, save);
      var title := if conversationId in s.conversations then s.conversations[conversationId].title else Types.DefaultTitle;
      && |r.messages| == |s.messages| + 1
      && r.messages[..|s.messages|] == s.messages
      && var m := r.messages[|s.messages|];
      && m.role == role && m.content == content && m.model == model && m.conversationId == conversationId
      && r.conversations.Keys == s.conversations.Keys + {conversationId}
      && (forall other :: other in s.conversations && other != conversationId ==> r.conversations[other] == s.conversations[other])
      && r.conversations[conversationId].title == (if role == "user" && title == Types.DefaultTitle then built else title)
      && r.conversations[conversationId].updatedAt == r.clock
  {
    if !save.fault {
      var now := s.clock + save.elapsed;
      SavedTitle(if conversationId in s.conversations then Some(s.conversations[conversationId]) else None,
                 conversationId, role, built, now);
      var row := Message(NextMessageId(s.messages), conversationId, role, content, model, now);
      assert (s.messages + [row])[..|s.messages|] == s.messages;
    }
  }

  /**
   * The store after the saves of a turn: nothing when the model raised;
   * otherwise the user message, and the reply unless the user save failed,
   * each through `save_message`, each reading the clock.
   */
  function Persisted(s: Store, request: ChatRequest, stream: ChunkStream, userSave: Commit, assistantSave: Commit): Store {
    if stream.raised.Some? then s
    else
      var afterUser := SaveEffect(s, "user", request.message, BuildTitle(request.message), request.model,
                                  request.conversationId, userSave);
      if userSave.fault then afterUser
      else
        var reply := Concat(stream.chunks);
        SaveEffect(afterUser, "assistant", reply, BuildTitle(reply), request.model, request.conversationId, assistantSave)
  }

  /**
   * What the saves of a turn promise: the model raising or the user save
   * failing stores nothing; otherwise the user message and, unless its save
   * fails, the reply are appended, only the turn's conversation changes, and
   * the first user message titles a conversation that still has the default
   * title.
   */
  lemma PersistedEffects(s: Store, request: ChatRequest, stream: ChunkStream, userSave: Commit, assistantSave: Commit)
    ensures var r := Persisted(s, request, stream, userSave, assistantSave);
      && (stream.raised.Some? ==> r == s)
      && (stream.raised.None? ==> r.clock == s.clock + userSave.elapsed + (if userSave.fault then 0 else assistantSave.elapsed))
      && (stream.raised.Some? || userSave.fault ==> r.conversations == s.conversations && r.messages == s.messages)
    ensures stream.raised.None? && !userSave.fault ==>
      var r := Persisted(s, request, stream, userSave, assistantSave);
      var n := |s.messages|;
      var cid := request.conversationId;
      var title := if cid in s.conversations then s.conversations[cid].title else Types.DefaultTitle;
      && |r.messages| == n + (if assistantSave.fault then 1 else 2)
      && r.messages[..n] == s.messages
      && StoredAs(r.messages[n], "user", request.message, request)
      && (!assistantSave.fault ==> StoredAs(r.messages[n + 1], "assistant", Concat(stream.chunks), request))
      && r.conversations.Keys == s.conversations.Keys + {cid}
      && (forall other :: other in s.conversations && other != cid ==> r.conversations[other] == s.conversations[other])
      && r.conversations[cid].title == (if title == Types.DefaultTitle then BuildTitle(request.message) else title)
      && (!assistantSave.fault ==> r.conversations[cid].updatedAt == r.clock)
  {
    if stream.raised.None? {
      var cid := request.conversationId;
      var afterUser := SaveEffect(s, "user", request.message, BuildTitle(request.message), request.model, cid, userSave);
      SaveEffectFacts(s, "user", request.message, BuildTitle(request.message), request.model, cid, userSave);
      if !userSave.fault {
        var reply := Concat(stream.chunks);
        SaveEffectFacts(afterUser, "assistant", reply, BuildTitle(reply), request.model, cid, assistantSave);
        var r := Persisted(s, request, stream, userSave, assistantSave);
        var n := |s.messages|;
        if !assistantSave.fault {
          assert r.messages[..n + 1] == afterUser.messages;
          assert r.messages[..n] == afterUser.messages[..n];
          assert r.messages[n] == afterUser.messages[n];
        }
      }
    }
  }

  /**
   * `generate()`: relay the provider's chunks, then save the user message and
   * the whole reply and report `done`; a failed save is not reported; if the
   * model raises, report the classified error and save nothing.
   */
  method Generate(repo: MessageRepository, service: LLMService, request: ChatRequest,
                  upstream: (Types.Provider, seq<ChatDict>, string) -> ChunkStream,
                  userSave: Commit, assistantSave: Commit)
    returns (events: seq<Event>)
    requires repo.Valid()
    modifies repo`conversations, repo`messages, repo`clock
    ensures repo.Valid()
    ensures StoreOf(repo) == Persisted(old(StoreOf(repo)), request,
                                       StreamChat(service, BuildMessages(request), request.model, upstream),
                                       userSave, assistantSave)
    ensures var stream := StreamChat(service, BuildMessages(request), request.model, upstream);
      && events == TurnEvents(stream)
      && (stream.raised.Some? || userSave.fault ==>
            repo.messages == old(repo.messages) && repo.conversations == old(repo.conversations))
      && (stream.raised.None? && !userSave.fault ==>
            var n := |old(repo.messages)|;
            && |repo.messages| == n + (if assistantSave.fault then 1 else 2)
            && repo.messages[..n] == old(repo.messages)
            && StoredAs(repo.messages[n], "user", request.message, request)
            && (!assistantSave.fault ==> StoredAs(repo.messages[n + 1], "assistant", Concat(stream.chunks), request))
            && request.conversationId in repo.conversations)
    ensures forall id :: id in old(repo.conversations) ==> id in repo.conversations
  {
    var messages := BuildMessages(request);
    var stream := StreamChat(service, messages, request.model, upstream);
    var fullResponse := "";
    events := [];
    for i := 0 to |stream.chunks|
      invariant fullResponse == Concat(stream.chunks[..i])
      invariant events == ContentEvents(stream.chunks[..i])
    {
      assert stream.chunks[..i + 1][..i] == stream.chunks[..i];
      fullResponse := fullResponse + stream.chunks[i];
      events := events + [Content(stream.chunks[i])];
    }
    assert stream.chunks[..|stream.chunks|] == stream.chunks;
    if stream.raised.Some? {
      events := events + [Failed(ClassifyError(stream.raised.value))];
      return;
    }
    ghost var before := StoreOf(repo);
    SaveTurn(repo, request, stream, fullResponse, userSave, assistantSave);
    PersistedEffects(before, request, stream, userSave, assistantSave);
    events := events + [Done];
  }

  /** The `try` block of `generate()`: the user message, then the reply only if that save succeeded. */
  method SaveTurn(repo: MessageRepository, request: ChatRequest, stream: ChunkStream, fullResponse: string,
                  userSave: Commit, assistantSave: Commit)
    requires repo.Valid() && stream.raised.None? && fullResponse == Concat(stream.chunks)
    modifies repo`conversations, repo`messages, repo`clock
    ensures repo.Valid()
    ensures StoreOf(repo) == Persisted(old(StoreOf(repo)), request, stream, userSave, assistantSave)
  {
    var saved := Save(repo, "user", request.message, request.model, request.conversationId, userSave);
    if saved.Success? {
      var _ := Save(repo, "assistant", fullResponse, request.model, request.conversationId, assistantSave);
    }
  }

  /** One `save_message` call, read as its effect on the store. */
  method Save(repo: MessageRepository, role: string, content: string, model: string, conversationId: string, save: Commit)
    returns (r: Result<Message, DbError>)
    requires repo.Valid()
    modifies repo`conversations, repo`messages, repo`clock
    ensures repo.Valid()
    ensures r.Success? <==> !save.fault
    ensures StoreOf(repo) == SaveEffect(old(StoreOf(repo)), role, content, BuildTitle(content), model, conversationId, save)
  {
    r := repo.SaveMessage(role, content, model, conversationId, save.elapsed, save.fault);
    SaveEffectMatches(old(StoreOf(repo)), StoreOf(repo), role, content, BuildTitle(content), model, conversationId, save);
  }

  /** A store that changed as `save_message` promises is the one `SaveEffect` describes. */
  lemma SaveEffectMatches(s: Store, t: Store, role: string, content: string, built: string, model: string,
                          conversationId: string, save: Commit)
    requires t.clock == s.clock + save.elapsed
    requires save.fault ==> t.conversations == s.conversations && t.messages == s.messages
    requires !save.fault ==>
      && t.messages == s.messages + [Message(NextMessageId(s.messages), conversationId, role, content, model, t.clock)]
      && t.conversations == SavedInto(s.conversations, conversationId, role, built, t.clock)
    ensures t == SaveEffect(s, role, content, built, model, conversationId, save)
  {
  }

  /** The response of `POST /api/chat`. */
  datatype ChatResponse = InternalError | Unavailable(detail: string) | EventStream(events: seq<Event>)

  /**
   * `chat_stream`: the conversation is ensured first; an unavailable model is
   * refused with 503 before any stream; otherwise the turn's events.
   */
  method ChatStream(repo: MessageRepository, service: LLMService, request: ChatRequest,
                    upstream: (Types.Provider, seq<ChatDict>, string) -> ChunkStream,
                    ensureSave: Commit, userSave: Commit, assistantSave: Commit)
    returns (response: ChatResponse)
    requires repo.Valid()
    modifies repo`conversations, repo`messages, repo`clock
    ensures repo.Valid()
    ensures var ensured := Ensured(old(StoreOf(repo)), request.conversationId, ensureSave);
      && (!response.EventStream? ==> StoreOf(repo) == ensured)
      && (response.EventStream? ==>
            StoreOf(repo) == Persisted(ensured, request, StreamChat(service, BuildMessages(request), request.model, upstream),
                                       userSave, assistantSave))
    ensures response.InternalError? <==> request.conversationId !in old(repo.conversations) && ensureSave.fault
    ensures response.InternalError? ==> repo.messages == old(repo.messages) && repo.conversations == old(repo.conversations)
    ensures response.Unavailable? <==> !response.InternalError? && !IsModelAvailable(service, request.model)
    ensures response.Unavailable? ==>
      response.detail == CannotConnectMessage && repo.messages == old(repo.messages)
      && request.conversationId in repo.conversations
    ensures response.EventStream? ==>
      response.events == TurnEvents(StreamChat(service, BuildMessages(request), request.model, upstream))
      && request.conversationId in repo.conversations
  {
    var ensured := Ensure(repo, request.conversationId, ensureSave);
    if ensured.Failure? {
      return InternalError;
    }
    if !IsModelAvailable(service, request.model) {
      return Unavailable(CannotConnectMessage);
    }
    var events := Generate(repo, service, request, upstream, userSave, assistantSave);
    response := EventStream(events);
  }

  /** One `ensure_conversation` call, read as its effect on the store. */
  method Ensure(repo: MessageRepository, id: string, save: Commit) returns (r: Result<Conversation, DbError>)
    requires repo.Valid()
    modifies repo`conversations, repo`clock
    ensures repo.Valid()
    ensures r.Failure? <==> id !in old(repo.conversations) && save.fault
    ensures StoreOf(repo) == Ensured(old(StoreOf(repo)), id, save)
  {
    r := repo.EnsureConversation(id, save.elapsed, save.fault);
  }

  // ---------------------------------------------------------------------
  // The conversation endpoints
  // ---------------------------------------------------------------------

  const NoContent: nat := 204
  const NotFound: nat := 404
  const ServerError: nat := 500

  /** `POST /api/conversations`: the requested title, or the default one without a body. */
  method CreateConversationEndpoint(repo: MessageRepository, requestTitle: Option<string>, freshId: string,
                                    elapsed: nat, fault: bool)
    returns (r: Result<Conversation, nat>)
    requires repo.Valid()
    modifies repo`conversations, repo`clock
    ensures repo.Valid()
    ensures var title := if requestTitle.Some? then requestTitle.value else Types.DefaultTitle;
      if freshId in old(repo.conversations) || fault then r == Failure(ServerError) && repo.conversations == old(repo.conversations)
      else r == Success(Conversation(freshId, title, repo.clock, repo.clock)) && repo.conversations == old(repo.conversations)[freshId := r.value]
  {
    var title := if requestTitle.Some? then requestTitle.value else Types.DefaultTitle;
    var created := repo.CreateConversation(title, None, freshId, elapsed, fault);
    match created {
      case Success(c) => r := Success(c);
      case Failure(_) => r := Failure(ServerError);
    }
  }

  /** `DELETE /api/conversations/{id}`: 204 when deleted, 404 for an unknown id. */
  method DeleteConversationEndpoint(repo: MessageRepository, id: string, fault: bool) returns (status: nat)
    requires repo.Valid()
    modifies repo`conversations, repo`messages
    ensures repo.Valid()
    ensures status == NoContent <==> id in old(repo.conversations) && !fault
    ensures status == NotFound <==> id !in old(repo.conversations)
    ensures status == ServerError <==> id in old(repo.conversations) && fault
    ensures status == NoContent ==> id !in repo.conversations && MessagesOf(repo.messages, id) == []
    ensures status == NoContent ==>
      repo.conversations == old(repo.conversations) - {id} && repo.messages == WithoutConversation(old(repo.messages), id)
    ensures status != NoContent ==> repo.conversations == old(repo.conversations) && repo.messages == old(repo.messages)
  {
    var deleted := repo.DeleteConversation(id, fault);
    match deleted {
      case Success(true) =>
        forall m | m in repo.messages ensures m.conversationId != id {
          WhereMembers(old(repo.messages), NotInConversation(id), m);
        }
        NoMessagesOf(repo.messages, id);
        status := NoContent;
      case Success(false) => status := NotFound;
      case Failure(_) => status := ServerError;
    }
  }

  /** `GET /api/conversations/{id}/messages`: 404 for an unknown conversation, else its messages in order. */
  method ListMessagesEndpoint(repo: MessageRepository, id: string) returns (r: Result<seq<Message>, nat>)
    requires repo.Valid()
    ensures r.Failure? <==> id !in repo.conversations
    ensures r.Failure? ==> r.error == NotFound
    ensures r.Success? ==> Ordered(r.value) && Chronological(r.value)
    ensures r.Success? ==> forall m :: m in r.value <==> m in repo.messages && m.conversationId == id
  {
    var conversation := repo.GetConversation(id);
    if conversation.None? {
      return Failure(NotFound);
    }
    r := Success(repo.GetMessagesByConversation(id));
  }
}
