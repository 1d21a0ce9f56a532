/**
 * The chat screen's controller: the pure helpers that reshape the sidebar
 * list and read the conversation id out of the address bar, and a class whose
 * fields are the screen's state and whose methods are the events it handles.
 *
 * Each asynchronous handler is one atomic method; what the server answered to
 * each request it makes is a parameter (a `Reply`), and so are the clock
 * readings it takes.
 */
module Session {
  import opened Wrappers
  import opened Text
  import opened Types
  import opened ChatService

  const ChatPathPrefix: string := "/chat/"
  const CreateFailedMessage: string := "新しいチャットの作成に失敗しました"
  const DeleteFailedMessage: string := "チャット履歴の削除に失敗しました"
  /** How much of the first message becomes a conversation's title candidate. */
  const TitleCandidateLength: nat := 40

  /** JavaScript's `a || b` on strings: the empty string is falsy. */
  function Or(a: string, b: string): string {
    if a != "" then a else b
  }

  /** `err instanceof Error ? err.message : fallback`; a TypeError is an Error. */
  function ErrorText(t: Thrown, fallback: string): (text: string)
    ensures t.NonError? ==> text == fallback
    ensures !t.NonError? ==> text == t.message
  {
    match t
    case TypeError(m) => m
    case Error(m) => m
    case NonError => fallback
  }

  // ---------------------------------------------------------------------
  // Pure helpers
  // ---------------------------------------------------------------------

  /** A freshly created conversation as a sidebar entry: no messages yet. */
  function ToSummary(c: ConversationResponse): (s: ConversationSummary)
    ensures s.id == c.id && s.title == c.title
    ensures s.createdAt == c.createdAt && s.updatedAt == c.updatedAt
    ensures s.messageCount == 0 && s.lastMessagePreview == ""
  {
    ConversationSummary(c.id, c.title, c.createdAt, c.updatedAt, 0, "")
  }

  /** The outcome of reading the address bar: no match, an id, or a `URIError` from decoding. */
  datatype PathId = NoId | Id(id: string) | Malformed

  /** `^/chat/([^/]+)$`: the prefix, then at least one character, none of them `/`. */
  predicate IsChatPath(path: string) {
    |path| > |ChatPathPrefix| && StartsWith(path, ChatPathPrefix) && '/' !in path[|ChatPathPrefix|..]
  }

  /**
   * `parseConversationIdFromPath`; `decode` is `decodeURIComponent`, None
   * standing for the URIError it throws on a malformed escape.
   */
  function ParseConversationIdFromPath(path: string, decode: string -> Option<string>): (r: PathId)
    ensures r.NoId? <==> !IsChatPath(path)
    ensures r.Malformed? <==> IsChatPath(path) && decode(path[|ChatPathPrefix|..]).None?
    ensures r.Id? ==> IsChatPath(path) && decode(path[|ChatPathPrefix|..]) == Some(r.id)
  {
    if !IsChatPath(path) then NoId
    else match decode(path[|ChatPathPrefix|..])
      case None => Malformed
      case Some(id) => Id(id)
  }

  /** The address the controller navigates to for a conversation. */
  function ChatUrl(id: string, encode: string -> string): string {
    ChatPathPrefix + encode(id)
  }

  /**
   * Reading back the address written for a conversation gives the conversation,
   * for any encoder whose output for it is non-empty, has no `/`, and decodes back.
   */
  lemma ChatPathRoundTrip(id: string, encode: string -> string, decode: string -> Option<string>)
    requires encode(id) != "" && '/' !in encode(id) && decode(encode(id)) == Some(id)
    ensures ParseConversationIdFromPath(ChatUrl(id, encode), decode) == Id(id)
  {
    var path := ChatUrl(id, encode);
    assert path[|ChatPathPrefix|..] == encode(id);
    assert StartsWith(path, ChatPathPrefix);
  }

  /** A path with a further `/` after the conversation segment is not a chat path. */
  lemma NestedPathRejected(segment: string, rest: string, decode: string -> Option<string>)
    ensures ParseConversationIdFromPath(ChatPathPrefix + segment + "/" + rest, decode) == NoId
  {
    var path := ChatPathPrefix + segment + "/" + rest;
    assert path[|ChatPathPrefix|..][|segment|] == '/';
  }

  predicate HasId(convs: seq<ConversationSummary>, id: string) {
    exists k :: 0 <= k < |convs| && convs[k].id == id
  }

  /** `conversations.find(item => item.id === id)`: the first entry with that id. */
  function Find(convs: seq<ConversationSummary>, id: string): (r: Option<ConversationSummary>)
    ensures r.None? <==> !HasId(convs, id)
    ensures r.Some? ==> r.value.id == id && r.value in convs
    ensures |convs| > 0 && convs[0].id == id ==> r == Some(convs[0])
    ensures r.Some? ==> exists k :: 0 <= k < |convs| && convs[k] == r.value && forall j :: 0 <= j < k ==> convs[j].id != id
  {
    if convs == [] then None
    else if convs[0].id == id then Some(convs[0])
    else
      var r := Find(convs[1..], id);
      assert r.Some? ==> exists k :: 0 <= k < |convs| && convs[k] == r.value && forall j :: 0 <= j < k ==> convs[j].id != id by {
        if r.Some? {
          var k :| 0 <= k < |convs[1..]| && convs[1..][k] == r.value && forall j :: 0 <= j < k ==> convs[1..][j].id != id;
          assert convs[k + 1] == r.value;
          forall j | 0 <= j < k + 1 ensures convs[j].id != id {
            if j > 0 { assert convs[j] == convs[1..][j - 1]; }
          }
        }
      }
      assert HasId(convs[1..], id) ==> HasId(convs, id) by {
        if HasId(convs[1..], id) {
          var k :| 0 <= k < |convs[1..]| && convs[1..][k].id == id;
          assert convs[k + 1].id == id;
        }
      }
      assert HasId(convs, id) ==> HasId(convs[1..], id) by {
        if HasId(convs, id) {
          var k :| 0 <= k < |convs| && convs[k].id == id;
          assert k > 0;
          assert convs[1..][k - 1].id == id;
        }
      }
      r
  }

  /** `conversations.filter(item => item.id !== id)`. */
  function WithoutId(convs: seq<ConversationSummary>, id: string): (r: seq<ConversationSummary>)
    ensures |r| <= |convs|
  {
    if convs == [] then []
    else (if convs[0].id == id then [] else [convs[0]]) + WithoutId(convs[1..], id)
  }

  /** No entry of the result has the filtered id. */
  lemma {:induction false} WithoutIdDropsId(convs: seq<ConversationSummary>, id: string)
    ensures !HasId(WithoutId(convs, id), id)
  {
    if convs != [] {
      WithoutIdDropsId(convs[1..], id);
      var r := WithoutId(convs, id);
      var head: seq<ConversationSummary> := if convs[0].id == id then [] else [convs[0]];
      var rest := WithoutId(convs[1..], id);
      forall k | 0 <= k < |r| ensures r[k].id != id {
        if k >= |head| {
          assert r[k] == rest[k - |head|];
        }
      }
    }
  }

  /** The filter keeps exactly the entries with another id. */
  lemma {:induction false} WithoutIdMembers(convs: seq<ConversationSummary>, id: string, c: ConversationSummary)
    ensures c in WithoutId(convs, id) <==> c in convs && c.id != id
  {
    if convs != [] {
      WithoutIdMembers(convs[1..], id, c);
      assert convs == [convs[0]] + convs[1..];
    }
  }

  /** Filtering out an id no entry has changes nothing. */
  lemma {:induction false} WithoutIdNoMatch(convs: seq<ConversationSummary>, id: string)
    requires !HasId(convs, id)
    ensures WithoutId(convs, id) == convs
  {
    if convs != [] {
      forall k | 0 <= k < |convs[1..]| ensures convs[1..][k].id != id {
        assert convs[1..][k] == convs[k + 1];
      }
      WithoutIdNoMatch(convs[1..], id);
      assert convs[0].id != id;
      assert convs == [convs[0]] + convs[1..];
    }
  }

  /** Filtering a concatenation filters each part: the kept entries stay in their order. */
  lemma {:induction false} WithoutIdAppend(a: seq<ConversationSummary>, b: seq<ConversationSummary>, id: string)
    ensures WithoutId(a + b, id) == WithoutId(a, id) + WithoutId(b, id)
  {
    if a == [] {
      assert a + b == b;
    } else {
      assert (a + b)[0] == a[0];
      assert (a + b)[1..] == a[1..] + b;
      WithoutIdAppend(a[1..], b, id);
    }
  }

  /** The title rule of `moveConversationToTop`, written as its nested `||` chain. */
  function NextTitle(current: Option<ConversationSummary>, titleCandidate: string): string {
    if current.Some? && current.value.title != DefaultTitle then current.value.title
    else Or(titleCandidate, Or(if current.Some? then current.value.title else "", DefaultTitle))
  }

  /**
   * `moveConversationToTop`: the touched conversation, rebuilt from its current
   * entry (if any), followed by every other entry in order. `now` is the
   * `new Date().toISOString()` it reads.
   */
  function MoveConversationToTop(convs: seq<ConversationSummary>, id: string, titleCandidate: string,
                                 preview: string, incrementBy: int, now: string): (r: seq<ConversationSummary>)
    ensures |r| > 0 && r[0].id == id && r[1..] == WithoutId(convs, id)
  {
    var current := Find(convs, id);
    var next := ConversationSummary(
      id,
      NextTitle(current, titleCandidate),
      if current.Some? then current.value.createdAt else now,
      now,
      (if current.Some? then current.value.messageCount else 0) + incrementBy,
      Or(preview, Or(if current.Some? then current.value.lastMessagePreview else "", "")));
    [next] + WithoutId(convs, id)
  }

  /** After a promotion the id is held by the first entry and by no other. */
  lemma MoveToTopIdOnce(convs: seq<ConversationSummary>, id: string, titleCandidate: string,
                        preview: string, incrementBy: int, now: string)
    ensures var r := MoveConversationToTop(convs, id, titleCandidate, preview, incrementBy, now);
      forall k :: 0 <= k < |r| ==> (r[k].id == id <==> k == 0)
  {
    var r := MoveConversationToTop(convs, id, titleCandidate, preview, incrementBy, now);
    WithoutIdDropsId(convs, id);
    forall k | 0 < k < |r| ensures r[k].id != id {
      assert r[k] == r[1..][k - 1];
    }
  }

  /**
   * The promoted entry: a title other than the default is kept, else the
   * candidate is taken if non-empty, else the default; `created_at` is kept
   * for an existing entry; the count grows by `incrementBy`; a non-empty
   * preview replaces the old one.
   */
  lemma MoveToTopFields(convs: seq<ConversationSummary>, id: string, titleCandidate: string,
                        preview: string, incrementBy: int, now: string)
    ensures var cur := Find(convs, id);
      var top := MoveConversationToTop(convs, id, titleCandidate, preview, incrementBy, now)[0];
      && top.title == (if cur.Some? && cur.value.title != DefaultTitle then cur.value.title
                       else if titleCandidate != "" then titleCandidate
                       else DefaultTitle)
      && top.createdAt == (if cur.Some? then cur.value.createdAt else now)
      && top.updatedAt == now
      && top.messageCount == (if cur.Some? then cur.value.messageCount else 0) + incrementBy
      && top.lastMessagePreview == (if preview != "" then preview
                                    else if cur.Some? then cur.value.lastMessagePreview
                                    else "")
  {
  }

  /** In a promoted list the id is found at the head, and dropping it leaves the tail. */
  lemma PromotedLookup(convs: seq<ConversationSummary>, id: string, titleCandidate: string,
                       preview: string, incrementBy: int, now: string)
    ensures var once := MoveConversationToTop(convs, id, titleCandidate, preview, incrementBy, now);
      Find(once, id) == Some(once[0]) && WithoutId(once, id) == once[1..]
  {
    var once := MoveConversationToTop(convs, id, titleCandidate, preview, incrementBy, now);
    assert once == [once[0]] + once[1..];
    WithoutIdDropsId(convs, id);
    WithoutIdNoMatch(once[1..], id);
  }

  /**
   * Promoting the same conversation twice with the same arguments and no
   * increment changes nothing but the second `updated_at`.
   */
  lemma MoveToTopIdempotent(convs: seq<ConversationSummary>, id: string, titleCandidate: string,
                            preview: string, now: string, later: string)
    ensures var once := MoveConversationToTop(convs, id, titleCandidate, preview, 0, now);
      MoveConversationToTop(once, id, titleCandidate, preview, 0, later) == once[0 := once[0].(updatedAt := later)]
  {
    var once := MoveConversationToTop(convs, id, titleCandidate, preview, 0, now);
    var twice := MoveConversationToTop(once, id, titleCandidate, preview, 0, later);
    PromotedLookup(convs, id, titleCandidate, preview, 0, now);
    PromotedTwiceHead(convs, id, titleCandidate, preview, now, later);
    assert twice == [once[0].(updatedAt := later)] + once[1..];
  }

  /** The head of a second promotion without increment is the first one's head, updated at the later time. */
  lemma PromotedTwiceHead(convs: seq<ConversationSummary>, id: string, titleCandidate: string,
                          preview: string, now: string, later: string)
    ensures var once := MoveConversationToTop(convs, id, titleCandidate, preview, 0, now);
      MoveConversationToTop(once, id, titleCandidate, preview, 0, later)[0] == once[0].(updatedAt := later)
  {
    var once := MoveConversationToTop(convs, id, titleCandidate, preview, 0, now);
    PromotedLookup(convs, id, titleCandidate, preview, 0, now);
    MoveToTopFields(convs, id, titleCandidate, preview, 0, now);
    MoveToTopFields(once, id, titleCandidate, preview, 0, later);
  }

  /** Promoting once when a turn starts and once when it completes raises the count by two. */
  lemma CompletedTurnCountsTwo(convs: seq<ConversationSummary>, id: string, titleCandidate: string,
                               preview: string, sentAt: string, completedAt: string)
    ensures var cur := Find(convs, id);
      MoveConversationToTop(MoveConversationToTop(convs, id, titleCandidate, preview, 1, sentAt),
                            id, titleCandidate, preview, 1, completedAt)[0].messageCount
        == (if cur.Some? then cur.value.messageCount else 0) + 2
  {
    var once := MoveConversationToTop(convs, id, titleCandidate, preview, 1, sentAt);
    MoveToTopFields(convs, id, titleCandidate, preview, 1, sentAt);
    MoveToTopFields(once, id, titleCandidate, preview, 1, completedAt);
    assert Find(once, id) == Some(once[0]);
  }

  // ---------------------------------------------------------------------
  // Messages as rendered
  // ---------------------------------------------------------------------

  /** One message under `onChunk`'s update: grown by `text` if it has that id. */
  function Grow(m: Message, id: string, text: string): Message {
    if m.id == id then m.(content := m.content + text) else m
  }

  /** `onChunk`'s update: `messages.map(...)` appending `text` to every message with that id. */
  function AppendToMessage(ms: seq<Message>, id: string, text: string): (r: seq<Message>)
    ensures |r| == |ms|
  {
    if ms == [] then [] else [Grow(ms[0], id, text)] + AppendToMessage(ms[1..], id, text)
  }

  /** Message k of the result is message k of the input, grown if it has the id. */
  lemma {:induction false} AppendToMessageAt(ms: seq<Message>, id: string, text: string, k: nat)
    requires k < |ms|
    ensures AppendToMessage(ms, id, text)[k] == Grow(ms[k], id, text)
  {
    if k > 0 {
      AppendToMessageAt(ms[1..], id, text, k - 1);
    }
  }

  /** Appending two fragments one after the other appends their concatenation. */
  lemma {:induction false} AppendTwice(ms: seq<Message>, id: string, a: string, b: string)
    ensures AppendToMessage(AppendToMessage(ms, id, a), id, b) == AppendToMessage(ms, id, a + b)
  {
    if ms != [] {
      var once := AppendToMessage(ms, id, a);
      assert once[0] == Grow(ms[0], id, a);
      assert once[1..] == AppendToMessage(ms[1..], id, a);
      AppendTwice(ms[1..], id, a, b);
      if ms[0].id == id {
        assert ms[0].content + a + b == ms[0].content + (a + b);
      }
    }
  }

  lemma {:induction false} AppendNothing(ms: seq<Message>, id: string)
    ensures AppendToMessage(ms, id, "") == ms
  {
    if ms != [] {
      AppendNothing(ms[1..], id);
      assert ms[0].content + "" == ms[0].content;
      assert ms == [ms[0]] + ms[1..];
    }
  }

  /** Growing an id no message has changes nothing. */
  lemma {:induction false} AppendToMessageNoMatch(ms: seq<Message>, id: string, text: string)
    requires FreshId(ms, id)
    ensures AppendToMessage(ms, id, text) == ms
  {
    if ms != [] {
      assert FreshId(ms[1..], id) by {
        forall k | 0 <= k < |ms[1..]| ensures ms[1..][k].id != id {
          assert ms[1..][k] == ms[k + 1];
        }
      }
      AppendToMessageNoMatch(ms[1..], id, text);
      assert ms == [ms[0]] + ms[1..];
    }
  }

  /** `messages.filter(msg => msg.id !== id)`. */
  function RemoveMessage(ms: seq<Message>, id: string): (r: seq<Message>)
    ensures |r| <= |ms|
  {
    if ms == [] then []
    else (if ms[0].id == id then [] else [ms[0]]) + RemoveMessage(ms[1..], id)
  }

  /** The filter keeps exactly the messages with another id. */
  lemma {:induction false} RemoveMessageMembers(ms: seq<Message>, id: string, m: Message)
    ensures m in RemoveMessage(ms, id) <==> m in ms && m.id != id
  {
    if ms != [] {
      RemoveMessageMembers(ms[1..], id, m);
      assert ms == [ms[0]] + ms[1..];
    }
  }

  /** Filtering out an id no message has changes nothing. */
  lemma {:induction false} RemoveMessageNoMatch(ms: seq<Message>, id: string)
    requires FreshId(ms, id)
    ensures RemoveMessage(ms, id) == ms
  {
    if ms != [] {
      assert FreshId(ms[1..], id) by {
        forall k | 0 <= k < |ms[1..]| ensures ms[1..][k].id != id {
          assert ms[1..][k] == ms[k + 1];
        }
      }
      RemoveMessageNoMatch(ms[1..], id);
      assert ms == [ms[0]] + ms[1..];
    }
  }

  lemma RemoveMessageAppend(a: seq<Message>, b: seq<Message>, id: string)
    ensures RemoveMessage(a + b, id) == RemoveMessage(a, id) + RemoveMessage(b, id)
  {
    if a == [] {
      assert a + b == b;
    } else {
      assert (a + b)[0] == a[0];
      assert (a + b)[1..] == a[1..] + b;
      RemoveMessageAppend(a[1..], b, id);
    }
  }

  lemma {:induction false} AppendToMessageAppend(a: seq<Message>, b: seq<Message>, id: string, text: string)
    ensures AppendToMessage(a + b, id, text) == AppendToMessage(a, id, text) + AppendToMessage(b, id, text)
  {
    if a == [] {
      assert a + b == b;
    } else {
      assert (a + b)[0] == a[0];
      assert (a + b)[1..] == a[1..] + b;
      AppendToMessageAppend(a[1..], b, id, text);
    }
  }

  predicate FreshId(ms: seq<Message>, id: string) {
    forall k :: 0 <= k < |ms| ==> ms[k].id != id
  }

  /** The concatenated text of the chunk callbacks. */
  function ChunkText(cs: seq<Callback>): string
  {
    if cs == [] then ""
    else ChunkText(cs[..|cs| - 1]) + (if cs[|cs| - 1].OnChunk? then cs[|cs| - 1].content else "")
  }

  /** A stored message as the client renders it (`String(msg.id)`, the timestamp kept as text). */
  function ToMessage(m: ConversationMessage): Message {
    Message(NatToString(m.id), m.role, m.content, m.model, m.timestamp, Some(m.conversationId))
  }

  function Rendered(ms: seq<ConversationMessage>): (r: seq<Message>)
    ensures |r| == |ms|
  {
    if ms == [] then [] else [ToMessage(ms[0])] + Rendered(ms[1..])
  }

  /** Message k shown is stored message k, with its numeric id as text. */
  lemma {:induction false} RenderedAt(ms: seq<ConversationMessage>, k: nat)
    requires k < |ms|
    ensures Rendered(ms)[k] == ToMessage(ms[k])
    ensures Rendered(ms)[k].id == NatToString(ms[k].id) && Rendered(ms)[k].content == ms[k].content
  {
    if k > 0 {
      RenderedAt(ms[1..], k - 1);
    }
  }

  /** What `loadConversation` shows: the fetched history, or nothing when the fetch throws. */
  function LoadedMessages(fetched: Reply<seq<ConversationMessage>>): (r: seq<Message>)
    ensures FetchJson(fetched).Failure? ==> r == []
    ensures FetchJson(fetched).Success? ==> r == Rendered(fetched.body)
  {
    match FetchJson(fetched)
    case Success(ms) => Rendered(ms)
    case Failure(_) => []
  }

  function HistoryOf(ms: seq<Message>): (h: seq<HistoryEntry>)
    ensures |h| == |ms|
  {
    if ms == [] then [] else [HistoryEntry(ms[0].role, ms[0].content)] + HistoryOf(ms[1..])
  }

  /** History entry k is message k's role and content. */
  lemma {:induction false} HistoryOfAt(ms: seq<Message>, k: nat)
    requires k < |ms|
    ensures HistoryOf(ms)[k] == HistoryEntry(ms[k].role, ms[k].content)
  {
    if k > 0 {
      HistoryOfAt(ms[1..], k - 1);
    }
  }

  // ---------------------------------------------------------------------
  // One turn's callbacks, as a function of the state they start from
  // ---------------------------------------------------------------------

  /** What the three callbacks of a send close over. */
  datatype Turn = Turn(conversationId: string, message: string, assistantId: string, completedAt: string)

  /** The part of the screen's state the callbacks change. */
  datatype View = View(messages: seq<Message>, conversations: seq<ConversationSummary>, isLoading: bool, error: Option<string>)

  function Step(v: View, t: Turn, cb: Callback): View {
    match cb
    case OnChunk(c) => v.(messages := AppendToMessage(v.messages, t.assistantId, c))
    case OnComplete =>
      v.(conversations := MoveConversationToTop(v.conversations, t.conversationId,
                                                Prefix(t.message, TitleCandidateLength), t.message, 1, t.completedAt),
         isLoading := false)
    case OnError(m) =>
      v.(error := Some(m), isLoading := false, messages := RemoveMessage(v.messages, t.assistantId))
  }

  function Replay(v: View, t: Turn, cbs: seq<Callback>): View
  {
    if cbs == [] then v else Step(Replay(v, t, cbs[..|cbs| - 1]), t, cbs[|cbs| - 1])
  }

  /** Chunks only ever extend the assistant's message, by their concatenation. */
  lemma {:induction false} ReplayChunks(v: View, t: Turn, cs: seq<Callback>)
    requires OnlyChunks(cs)
    ensures Replay(v, t, cs) == v.(messages := AppendToMessage(v.messages, t.assistantId, ChunkText(cs)))
  {
    if cs == [] {
      AppendNothing(v.messages, t.assistantId);
    } else {
      var init := cs[..|cs| - 1];
      assert OnlyChunks(init) by {
        forall i | 0 <= i < |init| ensures init[i].OnChunk? {
          assert init[i] == cs[i];
        }
      }
      ReplayChunks(v, t, init);
      assert cs[|cs| - 1].OnChunk?;
      AppendTwice(v.messages, t.assistantId, ChunkText(init), cs[|cs| - 1].content);
    }
  }

  /** The message placeholders a send appends. */
  function UserMessage(message: string, model: string, cid: string, nowMs: nat, sentAt: string): Message {
    Message("user-" + NatToString(nowMs), User, message, model, sentAt, Some(cid))
  }

  function AssistantId(nowMs: nat): string {
    "assistant-" + NatToString(nowMs)
  }

  function AssistantMessage(model: string, cid: string, nowMs: nat, sentAt: string): Message {
    Message(AssistantId(nowMs), Assistant, "", model, sentAt, Some(cid))
  }

  lemma UserAndAssistantIdsDiffer(nowMs: nat)
    ensures "user-" + NatToString(nowMs) != AssistantId(nowMs)
  {
    assert ("user-" + NatToString(nowMs))[0] == 'u';
    assert AssistantId(nowMs)[0] == 'a';
  }

  /** Replaying one more callback is one more step. */
  lemma ReplaySnoc(v: View, t: Turn, cs: seq<Callback>, cb: Callback)
    ensures Replay(v, t, cs + [cb]) == Step(Replay(v, t, cs), t, cb)
  {
    assert (cs + [cb])[..|cs|] == cs;
  }

  /** The chunks of a turn grow the assistant placeholder, which is the last message. */
  lemma ChunksFillPlaceholder(before: seq<Message>, user: Message, assistant: Message, convs: seq<ConversationSummary>,
                              t: Turn, cs: seq<Callback>)
    requires assistant.id == t.assistantId && user.id != t.assistantId && FreshId(before, t.assistantId)
    requires OnlyChunks(cs)
    ensures Replay(View(before + [user, assistant], convs, true, None), t, cs)
      == View(before + [user, assistant.(content := assistant.content + ChunkText(cs))], convs, true, None)
  {
    var v0 := View(before + [user, assistant], convs, true, None);
    ReplayChunks(v0, t, cs);
    AppendToMessageAppend(before, [user, assistant], t.assistantId, ChunkText(cs));
    assert [user, assistant][1..] == [assistant];
    assert AppendToMessage([user, assistant], t.assistantId, ChunkText(cs))
      == [user, assistant.(content := assistant.content + ChunkText(cs))];
    AppendToMessageNoMatch(before, t.assistantId, ChunkText(cs));
  }

  /**
   * A completed turn: the assistant placeholder holds every fragment in order,
   * the user message stays, the conversation is promoted again, and the
   * spinner stops.
   */
  lemma CompletedTurn(before: seq<Message>, user: Message, assistant: Message, convs: seq<ConversationSummary>,
                      t: Turn, cs: seq<Callback>)
    requires assistant.id == t.assistantId && user.id != t.assistantId && FreshId(before, t.assistantId)
    requires OnlyChunks(cs)
    ensures var v := Replay(View(before + [user, assistant], convs, true, None), t, cs + [OnComplete]);
      && v.messages == before + [user, assistant.(content := assistant.content + ChunkText(cs))]
      && v.conversations == MoveConversationToTop(convs, t.conversationId, Prefix(t.message, TitleCandidateLength),
                                                  t.message, 1, t.completedAt)
      && !v.isLoading && v.error == None
  {
    var v0 := View(before + [user, assistant], convs, true, None);
    ReplaySnoc(v0, t, cs, OnComplete);
    ChunksFillPlaceholder(before, user, assistant, convs, t, cs);
  }

  /**
   * A failed turn: the assistant placeholder, with whatever it had received,
   * is gone, the user message stays, and the error is shown.
   */
  lemma FailedTurn(before: seq<Message>, user: Message, assistant: Message, convs: seq<ConversationSummary>,
                   t: Turn, cs: seq<Callback>, message: string)
    requires assistant.id == t.assistantId && user.id != t.assistantId && FreshId(before, t.assistantId)
    requires OnlyChunks(cs)
    ensures var v := Replay(View(before + [user, assistant], convs, true, None), t, cs + [OnError(message)]);
      && v.messages == before + [user]
      && v.conversations == convs
      && !v.isLoading && v.error == Some(message)
  {
    var v0 := View(before + [user, assistant], convs, true, None);
    ReplaySnoc(v0, t, cs, OnError(message));
    ChunksFillPlaceholder(before, user, assistant, convs, t, cs);
    var grown := assistant.(content := assistant.content + ChunkText(cs));
    RemoveMessageAppend(before, [user, grown], t.assistantId);
    RemoveMessageAppend([user], [grown], t.assistantId);
    RemoveMessageNoMatch(before, t.assistantId);
    assert [user, grown] == [user] + [grown];
    assert RemoveMessage([grown], t.assistantId) == [];
    assert RemoveMessage([user], t.assistantId) == [user];
  }

  /** The two ways a turn ends, for any trace `sendMessage` can make. */
  lemma TurnOutcome(before: seq<Message>, user: Message, assistant: Message, convs: seq<ConversationSummary>,
                    t: Turn, trace: seq<Callback>)
    requires assistant.id == t.assistantId && user.id != t.assistantId && OneTerminalAtEnd(trace)
    requires FreshId(before, t.assistantId)
    ensures var v := Replay(View(before + [user, assistant], convs, true, None), t, trace);
      var last := trace[|trace| - 1];
      && (last == OnComplete ==>
            v == View(before + [user, assistant.(content := assistant.content + ChunkText(trace[..|trace| - 1]))],
                      MoveConversationToTop(convs, t.conversationId, Prefix(t.message, TitleCandidateLength),
                                            t.message, 1, t.completedAt),
                      false, None))
      && (last.OnError? ==> v == View(before + [user], convs, false, Some(last.message)))
  {
    var n := |trace| - 1;
    assert trace == trace[..n] + [trace[n]];
    if trace[n] == OnComplete {
      CompletedTurn(before, user, assistant, convs, t, trace[..n]);
    } else if trace[n].OnError? {
      FailedTurn(before, user, assistant, convs, t, trace[..n], trace[n].message);
    }
  }

  /** `TurnOutcome` for the messages `handleSend` adds, read off a view field by field. */
  lemma SentTurnOutcome(v: View, before: seq<Message>, convs: seq<ConversationSummary>, message: string, model: string,
                        cid: string, nowMs: nat, sentAt: string, completedAt: string, trace: seq<Callback>)
    requires OneTerminalAtEnd(trace) && FreshId(before, AssistantId(nowMs))
    requires v == Replay(View(before + [UserMessage(message, model, cid, nowMs, sentAt), AssistantMessage(model, cid, nowMs, sentAt)],
                              convs, true, None), Turn(cid, message, AssistantId(nowMs), completedAt), trace)
    ensures var last := trace[|trace| - 1];
      && (last == OnComplete ==>
            && v.messages == before + [UserMessage(message, model, cid, nowMs, sentAt),
                                       AssistantMessage(model, cid, nowMs, sentAt).(content := ChunkText(trace[..|trace| - 1]))]
            && v.conversations == MoveConversationToTop(convs, cid, Prefix(message, TitleCandidateLength), message, 1, completedAt)
            && !v.isLoading && v.error == None)
      && (last.OnError? ==>
            v.messages == before + [UserMessage(message, model, cid, nowMs, sentAt)] && v.conversations == convs
            && !v.isLoading && v.error == Some(last.message))
  {
    UserAndAssistantIdsDiffer(nowMs);
    var assistant := AssistantMessage(model, cid, nowMs, sentAt);
    assert assistant.content + ChunkText(trace[..|trace| - 1]) == ChunkText(trace[..|trace| - 1]);
    TurnOutcome(before, UserMessage(message, model, cid, nowMs, sentAt), assistant, convs,
                Turn(cid, message, AssistantId(nowMs), completedAt), trace);
  }

  // ---------------------------------------------------------------------
  // The screen
  // ---------------------------------------------------------------------

  /** A history entry written by `pushState` or `replaceState`. */
  datatype Navigation = Push(url: string) | Replace(url: string)

  function NavigationTo(url: string, replace: bool): Navigation {
    if replace then Replace(url) else Push(url)
  }

  function LocalId(nowMs: nat): string {
    "local-" + NatToString(nowMs)
  }

  /** The conversation a send goes to: `activeConversationId ?? local-<now>`. */
  function SendTarget(active: Option<string>, nowMs: nat): string {
    if active.Some? then active.value else LocalId(nowMs)
  }

  class ChatInterface {
    var messages: seq<Message>
    var inputValue: string
    var selectedModel: string
    var availableModels: seq<ModelInfo>
    var isLoading: bool
    var error: Option<string>
    var conversations: seq<ConversationSummary>
    var activeConversationId: Option<string>
    var deletingConversationId: Option<string>
    /** `window.location.pathname`, and the entries written to the session history. */
    var pathname: string
    var navigations: seq<Navigation>
    /** `encodeURIComponent` and `decodeURIComponent`. */
    const encode: string -> string
    const decode: string -> Option<string>

    constructor (encode: string -> string, decode: string -> Option<string>, pathname: string)
      ensures this.encode == encode && this.decode == decode && this.pathname == pathname
      ensures messages == [] && inputValue == "" && selectedModel == "" && availableModels == []
      ensures !isLoading && error == None && conversations == []
      ensures activeConversationId == None && deletingConversationId == None && navigations == []
    {
      this.encode := encode;
      this.decode := decode;
      this.pathname := pathname;
      messages := [];
      inputValue := "";
      selectedModel := "";
      availableModels := [];
      isLoading := false;
      error := None;
      conversations := [];
      activeConversationId := None;
      deletingConversationId := None;
      navigations := [];
    }

    function CurrentView(): View
      reads this
    {
      View(messages, conversations, isLoading, error)
    }

    method NavigateToConversation(id: string, replace: bool)
      modifies this`pathname, this`navigations
      ensures pathname == ChatUrl(id, encode)
      ensures navigations == old(navigations) + [NavigationTo(ChatUrl(id, encode), replace)]
    {
      var url := ChatUrl(id, encode);
      navigations := navigations + [NavigationTo(url, replace)];
      pathname := url;
    }

    /** `loadConversation`: select it, move the address bar if needed, show its history. */
    method LoadConversation(id: string, replaceUrl: bool, fetched: Reply<seq<ConversationMessage>>)
      modifies this`activeConversationId, this`pathname, this`navigations, this`messages
      ensures activeConversationId == Some(id)
      ensures pathname == ChatUrl(id, encode)
      ensures old(pathname) == ChatUrl(id, encode) ==> navigations == old(navigations)
      ensures old(pathname) != ChatUrl(id, encode) ==>
        navigations == old(navigations) + [NavigationTo(ChatUrl(id, encode), replaceUrl)]
      ensures messages == LoadedMessages(fetched)
    {
      activeConversationId := Some(id);
      if pathname != ChatUrl(id, encode) {
        NavigateToConversation(id, replaceUrl);
      }
      match FetchJson(fetched) {
        case Success(ms) =>
          messages := Rendered(ms);
        case Failure(_) =>
          messages := [];
      }
    }

    /**
     * `createConversation`: on success the new entry goes to the front (an
     * older entry with its id is dropped), the screen is emptied and the new
     * conversation selected; a failed request changes nothing and is returned
     * as the thrown value.
     */
    method CreateConversation(created: Reply<ConversationResponse>) returns (r: Result<string, Thrown>)
      modifies this`conversations, this`messages, this`activeConversationId, this`pathname, this`navigations
      ensures r.Success? <==> FetchJson(created).Success?
      ensures r.Failure? ==> r.error == FetchJson(created).error
      ensures r.Failure? ==>
        && conversations == old(conversations) && messages == old(messages)
        && activeConversationId == old(activeConversationId) && pathname == old(pathname) && navigations == old(navigations)
      ensures r.Success? ==>
        var c := created.body;
        && r.value == c.id
        && conversations == [ToSummary(c)] + WithoutId(old(conversations), c.id)
        && messages == [] && activeConversationId == Some(c.id)
        && pathname == ChatUrl(c.id, encode)
        && navigations == old(navigations) + [Push(ChatUrl(c.id, encode))]
    {
      match FetchJson(created) {
        case Failure(t) =>
          r := Failure(t);
        case Success(c) =>
          conversations := [ToSummary(c)] + WithoutId(conversations, c.id);
          messages := [];
          activeConversationId := Some(c.id);
          NavigateToConversation(c.id, false);
          r := Success(c.id);
      }
    }

    method HandleCreateConversation(created: Reply<ConversationResponse>)
      modifies this`conversations, this`messages, this`activeConversationId, this`pathname, this`navigations, this`error
      ensures FetchJson(created).Failure? ==>
        error == Some(ErrorText(FetchJson(created).error, CreateFailedMessage))
        && conversations == old(conversations) && messages == old(messages) && activeConversationId == old(activeConversationId)
        && pathname == old(pathname) && navigations == old(navigations)
      ensures FetchJson(created).Success? ==>
        error == None
        && conversations == [ToSummary(created.body)] + WithoutId(old(conversations), created.body.id)
        && messages == [] && activeConversationId == Some(created.body.id)
        && pathname == ChatUrl(created.body.id, encode)
        && navigations == old(navigations) + [Push(ChatUrl(created.body.id, encode))]
    {
      error := None;
      var r := CreateConversation(created);
      if r.Failure? {
        error := Some(ErrorText(r.error, CreateFailedMessage));
      }
    }

    /**
     * `handleDeleteConversation`, given the outcome of the delete request. A
     * delete while another is pending is ignored. A successful delete drops
     * the entry and, only if it was the open conversation, creates one
     * replacement; any failure is shown and leaves the list as it then is.
     */
    method HandleDeleteConversation(id: string, deleted: Result<(), Thrown>, created: Reply<ConversationResponse>)
      modifies this`deletingConversationId, this`error, this`conversations, this`messages
      modifies this`activeConversationId, this`pathname, this`navigations
      ensures Truthy(old(deletingConversationId)) ==>
        deletingConversationId == old(deletingConversationId) && error == old(error)
        && conversations == old(conversations) && messages == old(messages)
        && activeConversationId == old(activeConversationId) && pathname == old(pathname) && navigations == old(navigations)
      ensures !Truthy(old(deletingConversationId)) ==> deletingConversationId == None
      ensures !Truthy(old(deletingConversationId)) && deleted.Failure? ==>
        error == Some(ErrorText(deleted.error, DeleteFailedMessage))
        && conversations == old(conversations) && messages == old(messages)
        && activeConversationId == old(activeConversationId) && pathname == old(pathname) && navigations == old(navigations)
      ensures !Truthy(old(deletingConversationId)) && deleted.Success? && old(activeConversationId) != Some(id) ==>
        error == None && conversations == WithoutId(old(conversations), id)
        && messages == old(messages) && activeConversationId == old(activeConversationId)
        && pathname == old(pathname) && navigations == old(navigations)
      ensures !Truthy(old(deletingConversationId)) && deleted.Success? && old(activeConversationId) == Some(id) ==>
        (if FetchJson(created).Success? then
          var c := created.body;
          && error == None
          && conversations == [ToSummary(c)] + WithoutId(WithoutId(old(conversations), id), c.id)
          && messages == [] && activeConversationId == Some(c.id)
          && pathname == ChatUrl(c.id, encode)
          && navigations == old(navigations) + [Push(ChatUrl(c.id, encode))]
        else
          && error == Some(ErrorText(FetchJson(created).error, DeleteFailedMessage))
          && conversations == WithoutId(old(conversations), id)
          && messages == old(messages) && activeConversationId == old(activeConversationId)
          && pathname == old(pathname) && navigations == old(navigations))
    {
      if Truthy(deletingConversationId) {
        return;
      }
      error := None;
      deletingConversationId := Some(id);
      match deleted {
        case Failure(t) =>
          error := Some(ErrorText(t, DeleteFailedMessage));
        case Success(_) =>
          conversations := WithoutId(conversations, id);
          if activeConversationId == Some(id) {
            var r := CreateConversation(created);
            if r.Failure? {
              error := Some(ErrorText(r.error, DeleteFailedMessage));
            }
          }
      }
      deletingConversationId := None;
    }

    /** The callbacks of one turn, applied in the order `sendMessage` makes them. */
    method ApplyCallbacks(t: Turn, trace: seq<Callback>)
      modifies this`messages, this`conversations, this`isLoading, this`error
      ensures CurrentView() == Replay(old(CurrentView()), t, trace)
    {
      var i := 0;
      while i < |trace|
        invariant 0 <= i <= |trace|
        invariant CurrentView() == Replay(old(CurrentView()), t, trace[..i])
      {
        assert trace[..i + 1][..i] == trace[..i];
        match trace[i] {
          case OnChunk(c) =>
            messages := AppendToMessage(messages, t.assistantId, c);
          case OnComplete =>
            conversations := MoveConversationToTop(conversations, t.conversationId,
                                                   Prefix(t.message, TitleCandidateLength), t.message, 1, t.completedAt);
            isLoading := false;
          case OnError(m) =>
            error := Some(m);
            isLoading := false;
            messages := RemoveMessage(messages, t.assistantId);
        }
        i := i + 1;
      }
      assert trace[..i] == trace;
    }

    /** `sendMessage` for one turn, with the turn's callbacks applied as it makes them. */
    method RunTurn(t: Turn, reply: Reply<Option<Body>>, parse: string -> Option<StreamChunk>) returns (trace: seq<Callback>)
      modifies this`messages, this`conversations, this`isLoading, this`error
      ensures trace == SendTrace(reply, parse) && OneTerminalAtEnd(trace)
      ensures CurrentView() == Replay(old(CurrentView()), t, trace)
    {
      trace := SendMessage(reply, parse);
      ApplyCallbacks(t, trace);
    }

    /**
     * The part of `handleSend` before the request: pick the conversation
     * (opening a `local-<time>` one if none is active), append the user
     * message and an empty assistant message, promote the conversation,
     * clear the input and the error, start the spinner.
     */
    method BeginSend(message: string, nowMs: nat, sentAt: string) returns (request: ChatRequest)
      modifies this`activeConversationId, this`pathname, this`navigations, this`messages, this`conversations
      modifies this`inputValue, this`isLoading, this`error
      ensures request == ChatRequest(SendTarget(old(activeConversationId), nowMs), message, old(selectedModel), HistoryOf(old(messages)))
      ensures messages == old(messages) + [UserMessage(message, old(selectedModel), request.conversationId, nowMs, sentAt),
                                           AssistantMessage(old(selectedModel), request.conversationId, nowMs, sentAt)]
      ensures conversations == MoveConversationToTop(old(conversations), request.conversationId,
                                                     Prefix(message, TitleCandidateLength), message, 1, sentAt)
      ensures isLoading && error == None && inputValue == ""
      ensures activeConversationId == Some(request.conversationId) && selectedModel == old(selectedModel)
      ensures Truthy(old(activeConversationId)) ==> pathname == old(pathname) && navigations == old(navigations)
      ensures !Truthy(old(activeConversationId)) ==>
        pathname == ChatUrl(request.conversationId, encode)
        && navigations == old(navigations) + [Push(ChatUrl(request.conversationId, encode))]
    {
      var cid := SendTarget(activeConversationId, nowMs);
      var model := selectedModel;
      request := ChatRequest(cid, message, model, HistoryOf(messages));
      messages := messages + [UserMessage(message, model, cid, nowMs, sentAt), AssistantMessage(model, cid, nowMs, sentAt)];
      conversations := MoveConversationToTop(conversations, cid, Prefix(message, TitleCandidateLength), message, 1, sentAt);
      inputValue := "";
      isLoading := true;
      error := None;
      // Opening the fallback conversation is independent of the steps above.
      if !Truthy(activeConversationId) {
        activeConversationId := Some(cid);
        NavigateToConversation(cid, false);
      }
    }

    /**
     * `handleSend`. A blank message, or one sent while a turn is running,
     * changes nothing. Otherwise the turn begins, the request carries the
     * messages from before as history, and then the callbacks of the trace
     * `sendMessage` makes run in order (`TurnOutcome` says where a completed
     * and a failed turn end).
     * `sentAt` and `completedAt` are the two clock readings the turn takes.
     */
    method HandleSend(message: string, nowMs: nat, sentAt: string, completedAt: string,
                      reply: Reply<Option<Body>>, parse: string -> Option<StreamChunk>)
      returns (request: Option<ChatRequest>, trace: seq<Callback>)
      modifies this`activeConversationId, this`pathname, this`navigations, this`messages, this`conversations
      modifies this`inputValue, this`isLoading, this`error
      ensures request.None? <==> IsBlank(message) || old(isLoading)
      ensures request.None? ==> trace == []
      ensures request.Some? ==> trace == SendTrace(reply, parse) && OneTerminalAtEnd(trace)
      ensures request.None? ==>
        messages == old(messages) && conversations == old(conversations) && isLoading == old(isLoading)
        && error == old(error) && inputValue == old(inputValue) && activeConversationId == old(activeConversationId)
        && pathname == old(pathname) && navigations == old(navigations)
      ensures request.Some? ==>
        var cid := SendTarget(old(activeConversationId), nowMs);
        var user := UserMessage(message, old(selectedModel), cid, nowMs, sentAt);
        var assistant := AssistantMessage(old(selectedModel), cid, nowMs, sentAt);
        var promoted := MoveConversationToTop(old(conversations), cid, Prefix(message, TitleCandidateLength), message, 1, sentAt);
        && request.value == ChatRequest(cid, message, old(selectedModel), HistoryOf(old(messages)))
        && CurrentView() == Replay(View(old(messages) + [user, assistant], promoted, true, None),
                                   Turn(cid, message, AssistantId(nowMs), completedAt), trace)
        && inputValue == "" && activeConversationId == Some(cid) && selectedModel == old(selectedModel)
        && (Truthy(old(activeConversationId)) ==> pathname == old(pathname) && navigations == old(navigations))
        && (!Truthy(old(activeConversationId)) ==>
              pathname == ChatUrl(cid, encode) && navigations == old(navigations) + [Push(ChatUrl(cid, encode))])
      ensures request.Some? && FreshId(old(messages), AssistantId(nowMs)) ==>
        var cid := SendTarget(old(activeConversationId), nowMs);
        var user := UserMessage(message, old(selectedModel), cid, nowMs, sentAt);
        var assistant := AssistantMessage(old(selectedModel), cid, nowMs, sentAt);
        var promoted := MoveConversationToTop(old(conversations), cid, Prefix(message, TitleCandidateLength), message, 1, sentAt);
        var last := trace[|trace| - 1];
        && (last == OnComplete ==>
              && messages == old(messages) + [user, assistant.(content := ChunkText(trace[..|trace| - 1]))]
              && conversations == MoveConversationToTop(promoted, cid, Prefix(message, TitleCandidateLength), message, 1, completedAt)
              && !isLoading && error == None)
        && (last.OnError? ==>
              messages == old(messages) + [user] && conversations == promoted && !isLoading && error == Some(last.message))
    {
      if IsBlank(message) || isLoading {  // `!message.trim()`: Strip(message) == "" exactly when message is blank
        return None, [];
      }
      var sent := BeginSend(message, nowMs, sentAt);
      request := Some(sent);
      ghost var cid := sent.conversationId;
      ghost var start := View(old(messages) + [UserMessage(message, old(selectedModel), cid, nowMs, sentAt),
                                              AssistantMessage(old(selectedModel), cid, nowMs, sentAt)],
                              MoveConversationToTop(old(conversations), cid, Prefix(message, TitleCandidateLength), message, 1, sentAt),
                              true, None);
      assert CurrentView() == start;
      var t := Turn(sent.conversationId, message, AssistantId(nowMs), completedAt);
      trace := RunTurn(t, reply, parse);
      assert CurrentView() == Replay(start, t, trace);
      if FreshId(old(messages), AssistantId(nowMs)) {
        SentTurnOutcome(CurrentView(), old(messages), start.conversations, message, old(selectedModel), cid,
                        nowMs, sentAt, completedAt, trace);
      }
    }

    /** The refresh `onComplete` starts: a failure is ignored. */
    method RefreshConversations(listed: Reply<seq<ConversationSummary>>)
      modifies this`conversations
      ensures FetchJson(listed).Success? ==> conversations == listed.body
      ensures FetchJson(listed).Failure? ==> conversations == old(conversations)
    {
      if FetchJson(listed).Success? {
        conversations := listed.body;
      }
    }

    /**
     * The startup effect. The first listed model becomes the selection (a
     * failure to list them is shown). The conversation opened is the one in
     * the address bar, else the most recent one; if the list cannot be
     * fetched, the address bar cannot be decoded, or there is no
     * conversation, a `local-<time>` one is opened, empty.
     */
    method Startup(models: Reply<seq<ModelInfo>>, listed: Reply<seq<ConversationSummary>>,
                   fetched: Reply<seq<ConversationMessage>>, nowMs: nat)
      modifies this`availableModels, this`selectedModel, this`error
      modifies this`conversations, this`activeConversationId, this`messages, this`pathname, this`navigations
      ensures GetModels(models).Success? ==>
        availableModels == models.body && error == old(error)
        && selectedModel == (if |models.body| > 0 then models.body[0].id else old(selectedModel))
      ensures GetModels(models).Failure? ==>
        availableModels == old(availableModels) && selectedModel == old(selectedModel)
        && error == Some(GetModels(models).error)
      ensures FetchJson(listed).Success? ==> conversations == listed.body
      ensures FetchJson(listed).Failure? ==> conversations == old(conversations)
      ensures var fromPath := ParseConversationIdFromPath(old(pathname), decode);
        if FetchJson(listed).Success? && fromPath.Id? && fromPath.id != "" then
          var url := ChatUrl(fromPath.id, encode);
          && activeConversationId == Some(fromPath.id) && messages == LoadedMessages(fetched) && pathname == url
          && navigations == (if old(pathname) == url then old(navigations) else old(navigations) + [Replace(url)])
        else if FetchJson(listed).Success? && !fromPath.Malformed? && |listed.body| > 0 then
          var url := ChatUrl(listed.body[0].id, encode);
          && activeConversationId == Some(listed.body[0].id) && messages == LoadedMessages(fetched) && pathname == url
          && navigations == (if old(pathname) == url then old(navigations) else old(navigations) + [Replace(url)])
        else
          activeConversationId == Some(LocalId(nowMs)) && messages == []
          && pathname == ChatUrl(LocalId(nowMs), encode)
          && navigations == old(navigations) + [Replace(ChatUrl(LocalId(nowMs), encode))]
    {
      LoadModels(models);
      OpenInitialConversation(listed, fetched, nowMs);
    }

    /** The first half of start-up: the model list, choosing its first entry. */
    method LoadModels(models: Reply<seq<ModelInfo>>)
      modifies this`availableModels, this`selectedModel, this`error
      ensures GetModels(models).Success? ==>
        availableModels == models.body && error == old(error)
        && selectedModel == (if |models.body| > 0 then models.body[0].id else old(selectedModel))
      ensures GetModels(models).Failure? ==>
        availableModels == old(availableModels) && selectedModel == old(selectedModel)
        && error == Some(GetModels(models).error)
    {
      match GetModels(models) {
        case Success(ms) =>
          availableModels := ms;
          if |ms| > 0 {
            selectedModel := ms[0].id;
          }
        case Failure(m) =>
          error := Some(m);
      }
    }

    /**
     * The second half of start-up: the conversation list, then the conversation
     * named by the path, else the most recent one, else a local one.
     */
    method OpenInitialConversation(listed: Reply<seq<ConversationSummary>>,
                                   fetched: Reply<seq<ConversationMessage>>, nowMs: nat)
      modifies this`conversations, this`activeConversationId, this`messages, this`pathname, this`navigations
      ensures FetchJson(listed).Success? ==> conversations == listed.body
      ensures FetchJson(listed).Failure? ==> conversations == old(conversations)
      ensures var fromPath := ParseConversationIdFromPath(old(pathname), decode);
        if FetchJson(listed).Success? && fromPath.Id? && fromPath.id != "" then
          var url := ChatUrl(fromPath.id, encode);
          && activeConversationId == Some(fromPath.id) && messages == LoadedMessages(fetched) && pathname == url
          && navigations == (if old(pathname) == url then old(navigations) else old(navigations) + [Replace(url)])
        else if FetchJson(listed).Success? && !fromPath.Malformed? && |listed.body| > 0 then
          var url := ChatUrl(listed.body[0].id, encode);
          && activeConversationId == Some(listed.body[0].id) && messages == LoadedMessages(fetched) && pathname == url
          && navigations == (if old(pathname) == url then old(navigations) else old(navigations) + [Replace(url)])
        else
          activeConversationId == Some(LocalId(nowMs)) && messages == []
          && pathname == ChatUrl(LocalId(nowMs), encode)
          && navigations == old(navigations) + [Replace(ChatUrl(LocalId(nowMs), encode))]
    {
      match FetchJson(listed) {
        case Success(summaries) =>
          conversations := summaries;
          var fromPath := ParseConversationIdFromPath(pathname, decode);
          if fromPath.Id? && fromPath.id != "" {
            LoadConversation(fromPath.id, true, fetched);
            return;
          }
          if !fromPath.Malformed? && |summaries| > 0 {
            LoadConversation(summaries[0].id, true, fetched);
            return;
          }
        case Failure(_) =>
      }

      var fallbackId := LocalId(nowMs);
      activeConversationId := Some(fallbackId);
      NavigateToConversation(fallbackId, true);
      messages := [];
    }

    /** Back/forward: the browser has already moved to `path`; a chat path is loaded. */
    method OnPopState(path: string, fetched: Reply<seq<ConversationMessage>>)
      modifies this`activeConversationId, this`pathname, this`navigations, this`messages
      ensures var fromPath := ParseConversationIdFromPath(path, decode);
        if fromPath.Id? && fromPath.id != "" then
          var url := ChatUrl(fromPath.id, encode);
          && activeConversationId == Some(fromPath.id) && messages == LoadedMessages(fetched) && pathname == url
          && navigations == (if path == url then old(navigations) else old(navigations) + [Replace(url)])
        else
          activeConversationId == old(activeConversationId) && messages == old(messages) && pathname == path
          && navigations == old(navigations)
    {
      pathname := path;
      var fromPath := ParseConversationIdFromPath(path, decode);
      if fromPath.Id? && fromPath.id != "" {
        LoadConversation(fromPath.id, true, fetched);
      }
    }

    method HandleSelectConversation(id: string, fetched: Reply<seq<ConversationMessage>>)
      modifies this`activeConversationId, this`pathname, this`navigations, this`messages, this`error
      ensures error == None && activeConversationId == Some(id) && messages == LoadedMessages(fetched)
      ensures pathname == ChatUrl(id, encode)
      ensures navigations == if old(pathname) == ChatUrl(id, encode) then old(navigations)
                             else old(navigations) + [Push(ChatUrl(id, encode))]
    {
      error := None;
      LoadConversation(id, false, fetched);
    }

    method DismissError()
      modifies this`error
      ensures error == None
    {
      error := None;
    }

    method ChangeInput(value: string)
      modifies this`inputValue
      ensures inputValue == value
    {
      inputValue := value;
    }

    method ChangeModel(model: string)
      modifies this`selectedModel
      ensures selectedModel == model
    {
      selectedModel := model;
    }
  }
}
