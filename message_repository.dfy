/**
 * The server's conversation and message store (`MessageRepository`), held in
 * memory: conversations keyed by id, message rows in insertion order, and the
 * time `datetime.utcnow()` last read.
 *
 * Every write takes the time that has passed since the previous reading
 * (`elapsed`) and whether its commit fails (`fault`); a failed commit is
 * rolled back, so the tables are as before.
 */
module Repository {
  import opened Wrappers
  import opened Text
  import Types

  const TitleLength: nat := 40
  const PreviewLength: nat := 80

  /** A `conversations` row; times are readings of the store's clock. */
  datatype Conversation = Conversation(id: string, title: string, createdAt: nat, updatedAt: nat)

  /** A `messages` row. */
  datatype Message = Message(id: nat, conversationId: string, role: string, content: string, model: string, timestamp: nat)

  /** One entry of `get_conversation_summaries`. */
  datatype Summary = Summary(id: string, title: string, createdAt: nat, updatedAt: nat,
                             messageCount: nat, lastMessagePreview: string)

  /** Why a write raised: a second row with the same key, or any other failed commit. */
  datatype DbError = DuplicateKey | CommitFailed

  /**
   * `_build_title`: the content without surrounding whitespace, line breaks
   * turned into spaces, cut to 40 characters; the default title if nothing is left.
   */
  function BuildTitle(content: string): (title: string)
    ensures Strip(content) == "" ==> title == Types.DefaultTitle
    ensures Strip(content) != "" ==>
      var s := Strip(content);
      && |title| == (if |s| <= TitleLength then |s| else TitleLength)
      && forall i :: 0 <= i < |title| ==> title[i] == (if s[i] == '\n' then ' ' else s[i])
  {
    var s := Strip(content);
    if s == "" then Types.DefaultTitle else Prefix(ReplaceChar(s, '\n', ' '), TitleLength)
  }

  /** A built title is never empty, has at most 40 characters and no line break. */
  lemma BuildTitleShape(content: string)
    ensures 0 < |BuildTitle(content)| <= TitleLength
    ensures '\n' !in BuildTitle(content)
  {
    var title := BuildTitle(content);
    if Strip(content) == "" {
      assert title == Types.DefaultTitle;
      assert |title| == 7;
      assert forall i | 0 <= i < 7 :: title[i] != '\n';
    } else {
      assert forall i | 0 <= i < |title| :: title[i] != '\n';
    }
  }

  // ---------------------------------------------------------------------
  // Queries over the message rows
  // ---------------------------------------------------------------------

  /** The two row filters the store uses: one conversation's rows, or every other row. */
  datatype Filter = InConversation(id: string) | NotInConversation(id: string)

  predicate Keeps(keep: Filter, m: Message) {
    match keep
    case InConversation(id) => m.conversationId == id
    case NotInConversation(id) => m.conversationId != id
  }

  /** The rows `keep` accepts, in their order. */
  function Where(ms: seq<Message>, keep: Filter): (r: seq<Message>)
    ensures |r| <= |ms|
  {
    if ms == [] then []
    else Where(ms[..|ms| - 1], keep) + (if Keeps(keep, ms[|ms| - 1]) then [ms[|ms| - 1]] else [])
  }

  /** `filter(Message.conversation_id == id)`. */
  function MessagesOf(ms: seq<Message>, id: string): seq<Message> {
    Where(ms, InConversation(id))
  }

  /** The rows left after deleting every message of `id`. */
  function WithoutConversation(ms: seq<Message>, id: string): seq<Message> {
    Where(ms, NotInConversation(id))
  }

  /** Ids strictly increase and timestamps never decrease along the rows. */
  predicate Ordered(ms: seq<Message>) {
    forall i, j :: 0 <= i < j < |ms| ==> ms[i].id < ms[j].id && ms[i].timestamp <= ms[j].timestamp
  }

  /** `order_by(Message.timestamp.asc())` holds of a sequence of rows. */
  predicate Chronological(ms: seq<Message>) {
    forall i, j :: 0 <= i < j < |ms| ==> ms[i].timestamp <= ms[j].timestamp
  }

  lemma {:induction false} WhereMembers(ms: seq<Message>, keep: Filter, m: Message)
    ensures m in Where(ms, keep) <==> m in ms && Keeps(keep, m)
    decreases |ms|
  {
    if ms != [] {
      var init := ms[..|ms| - 1];
      assert ms == init + [ms[|ms| - 1]];
      WhereMembers(init, keep, m);
    }
  }

  lemma WhereAppend(ms: seq<Message>, m: Message, keep: Filter)
    ensures Where(ms + [m], keep) == Where(ms, keep) + (if Keeps(keep, m) then [m] else [])
  {
    assert (ms + [m])[..|ms|] == ms;
  }

  /** A conversation's rows are exactly the rows that name it. */
  lemma MessagesOfMembers(ms: seq<Message>, id: string)
    ensures forall m :: m in MessagesOf(ms, id) <==> m in ms && m.conversationId == id
  {
    forall m ensures m in MessagesOf(ms, id) <==> m in ms && m.conversationId == id {
      WhereMembers(ms, InConversation(id), m);
    }
  }

  /** A conversation that no row names has no messages. */
  lemma {:induction false} NoMessagesOf(ms: seq<Message>, id: string)
    requires forall m :: m in ms ==> m.conversationId != id
    ensures MessagesOf(ms, id) == []
    decreases |ms|
  {
    if ms != [] {
      var n := |ms| - 1;
      assert ms[n] in ms;
      NoMessagesOf(ms[..n], id);
    }
  }

  /** Keeping some rows keeps them in order. */
  lemma {:induction false} WhereOrdered(ms: seq<Message>, keep: Filter)
    requires Ordered(ms)
    ensures Ordered(Where(ms, keep))
    decreases |ms|
  {
    if ms != [] {
      var init := ms[..|ms| - 1];
      var last := ms[|ms| - 1];
      assert Ordered(init);
      WhereOrdered(init, keep);
      var w := Where(init, keep);
      forall x | x in w ensures x.id < last.id && x.timestamp <= last.timestamp {
        WhereMembers(init, keep, x);
        var k :| 0 <= k < |init| && init[k] == x;
        assert ms[k] == x;
      }
      var r := w + (if Keeps(keep, last) then [last] else []);
      forall i, j | 0 <= i < j < |r| ensures r[i].id < r[j].id && r[i].timestamp <= r[j].timestamp {
        assert r[i] == w[i];
        if j == |w| {
          assert r[i] in w;
        } else {
          assert r[j] == w[j];
        }
      }
    }
  }

  /** Deleting a conversation's rows leaves it none and every other conversation its own. */
  lemma DeleteKeepsOthers(ms: seq<Message>, id: string, other: string, m: Message)
    ensures m in MessagesOf(WithoutConversation(ms, id), other) <==>
            other != id && m in MessagesOf(ms, other)
  {
    WhereMembers(WithoutConversation(ms, id), InConversation(other), m);
    WhereMembers(ms, NotInConversation(id), m);
    WhereMembers(ms, InConversation(other), m);
  }

  /** Deleting one conversation's rows does not reorder another's. */
  lemma {:induction false} DeleteKeepsOthersInOrder(ms: seq<Message>, id: string, other: string)
    requires other != id
    ensures MessagesOf(WithoutConversation(ms, id), other) == MessagesOf(ms, other)
    decreases |ms|
  {
    if ms != [] {
      var init := ms[..|ms| - 1];
      var last := ms[|ms| - 1];
      assert ms == init + [last];
      DeleteKeepsOthersInOrder(init, id, other);
      assert MessagesOf(ms, other) == MessagesOf(init, other) + (if last.conversationId == other then [last] else []);
      if last.conversationId != id {
        assert WithoutConversation(ms, id) == WithoutConversation(init, id) + [last];
        WhereAppend(WithoutConversation(init, id), last, InConversation(other));
      } else {
        assert WithoutConversation(ms, id) == WithoutConversation(init, id);
      }
    }
  }

  /** SQLite's choice of a new integer key: one more than the largest, which is the last. */
  function NextMessageId(ms: seq<Message>): nat {
    if ms == [] then 1 else ms[|ms| - 1].id + 1
  }

  /** The summary of one conversation: its message count and the start of its last message. */
  function SummaryOf(c: Conversation, ms: seq<Message>): Summary {
    var own := MessagesOf(ms, c.id);
    Summary(c.id, c.title, c.createdAt, c.updatedAt, |own|,
            if own == [] then "" else Prefix(own[|own| - 1].content, PreviewLength))
  }

  /**
   * The conversation `save_message` leaves behind: the existing one or a new
   * one with the default title; a user message replaces a default title by
   * `built`, the title built from its content; the update time is `now`.
   */
  function Saved(current: Option<Conversation>, id: string, role: string, built: string, now: nat): Conversation {
    var c := if current.Some? then current.value else Conversation(id, Types.DefaultTitle, now, now);
    c.(title := if role == "user" && c.title == Types.DefaultTitle then built else c.title,
       updatedAt := now)
  }

  /** Only a user message, and only over the default title, sets a title. */
  lemma SavedTitle(current: Option<Conversation>, id: string, role: string, built: string, now: nat)
    ensures var old_title := if current.Some? then current.value.title else Types.DefaultTitle;
      Saved(current, id, role, built, now).title ==
        (if role == "user" && old_title == Types.DefaultTitle then built else old_title)
    ensures role != "user" ==> Saved(current, id, role, built, now).title == (if current.Some? then current.value.title else Types.DefaultTitle)
  {
  }

  /** Saving keeps the conversation's id and creation time, or stamps a new one with `now`; either way it was updated at `now`. */
  lemma SavedStamps(current: Option<Conversation>, id: string, role: string, built: string, now: nat)
    ensures var c := Saved(current, id, role, built, now);
      && c.id == (if current.Some? then current.value.id else id)
      && c.createdAt == (if current.Some? then current.value.createdAt else now)
      && c.updatedAt == now
  {
  }

  /** The conversations table after `save_message` into `id`: that entry is added or replaced, every other one stays. */
  function SavedInto(convs: map<string, Conversation>, id: string, role: string, built: string, now: nat)
    : (r: map<string, Conversation>)
    ensures r.Keys == convs.Keys + {id}
    ensures forall other :: other in convs && other != id ==> r[other] == convs[other]
  {
    convs[id := Saved(if id in convs then Some(convs[id]) else None, id, role, built, now)]
  }

  /** Among the entries of a finite set of conversations there is one updated last. */
  lemma {:induction false} MostRecentExists(convs: map<string, Conversation>, s: set<string>)
    requires s != {} && s <= convs.Keys
    ensures exists id :: id in s && forall k :: k in s ==> convs[k].updatedAt <= convs[id].updatedAt
    decreases |s|
  {
    var x :| x in s;
    if s == {x} {
      assert forall k :: k in s ==> k == x;
    } else {
      var rest := s - {x};
      MostRecentExists(convs, rest);
      var y :| y in rest && forall k :: k in rest ==> convs[k].updatedAt <= convs[y].updatedAt;
      if convs[x].updatedAt <= convs[y].updatedAt {
        assert y in s && forall k :: k in s ==> convs[k].updatedAt <= convs[y].updatedAt;
      } else {
        assert x in s && forall k :: k in s ==> convs[k].updatedAt <= convs[x].updatedAt;
      }
    }
  }

  /** A listing in the order `get_conversation_summaries` promises, of exactly `convs`. */
  predicate ListsByRecency(summaries: seq<Summary>, convs: map<string, Conversation>) {
    && Ids(summaries) == convs.Keys
    && (forall i, j :: 0 <= i < j < |summaries| ==>
          summaries[i].id != summaries[j].id && summaries[i].updatedAt >= summaries[j].updatedAt)
    && (forall i :: 0 <= i < |summaries| ==>
          summaries[i].id in convs && summaries[i].updatedAt == convs[summaries[i].id].updatedAt)
  }

  /** The conversation touched strictly last is listed first. */
  lemma MostRecentListedFirst(summaries: seq<Summary>, convs: map<string, Conversation>, id: string)
    requires ListsByRecency(summaries, convs)
    requires id in convs
    requires forall k :: k in convs && k != id ==> convs[k].updatedAt < convs[id].updatedAt
    ensures |summaries| > 0 && summaries[0].id == id
  {
    assert id in Ids(summaries);
    var i :| 0 <= i < |summaries| && summaries[i].id == id;
    assert summaries[0].updatedAt >= summaries[i].updatedAt;
  }

  /**
   * The state of the summary loop: `summaries` lists, most recent first, the
   * conversations no longer `remaining`, each no older than any remaining one.
   */
  ghost predicate ListedSoFar(summaries: seq<Summary>, remaining: set<string>,
                              convs: map<string, Conversation>, ms: seq<Message>) {
    && remaining <= convs.Keys
    && Ids(summaries) == convs.Keys - remaining
    && (forall i, j :: 0 <= i < j < |summaries| ==>
          summaries[i].id != summaries[j].id && summaries[i].updatedAt >= summaries[j].updatedAt)
    && (forall i, k :: 0 <= i < |summaries| && k in remaining ==> summaries[i].updatedAt >= convs[k].updatedAt)
    && (forall i :: 0 <= i < |summaries| ==>
          summaries[i].id in convs && summaries[i] == SummaryOf(convs[summaries[i].id], ms))
  }

  function Ids(summaries: seq<Summary>): set<string> {
    set i | 0 <= i < |summaries| :: summaries[i].id
  }

  lemma IdsAppend(summaries: seq<Summary>, x: Summary)
    ensures Ids(summaries + [x]) == Ids(summaries) + {x.id}
  {
    var s := summaries + [x];
    forall y | y in Ids(s) ensures y in Ids(summaries) + {x.id} {
      var i :| 0 <= i < |s| && s[i].id == y;
      if i < |summaries| {
        assert summaries[i].id == y;
      }
    }
    forall y | y in Ids(summaries) ensures y in Ids(s) {
      var i :| 0 <= i < |summaries| && summaries[i].id == y;
      assert s[i].id == y;
    }
    assert s[|summaries|].id == x.id;
  }

  /** Listing a most recent remaining conversation keeps the loop's state. */
  lemma ListStep(summaries: seq<Summary>, remaining: set<string>,
                 convs: map<string, Conversation>, ms: seq<Message>, id: string)
    requires ListedSoFar(summaries, remaining, convs, ms)
    requires forall k :: k in convs ==> convs[k].id == k
    requires id in remaining && forall k :: k in remaining ==> convs[k].updatedAt <= convs[id].updatedAt
    ensures ListedSoFar(summaries + [SummaryOf(convs[id], ms)], remaining - {id}, convs, ms)
  {
    var s := summaries + [SummaryOf(convs[id], ms)];
    var n := |summaries|;
    assert s[n].id == id;
    assert forall i :: 0 <= i < n ==> s[i] == summaries[i];
    assert forall i :: 0 <= i < n ==> summaries[i].id != id by {
      forall i | 0 <= i < n ensures summaries[i].id != id {
        assert summaries[i].id in Ids(summaries);
      }
    }
    IdsAppend(summaries, SummaryOf(convs[id], ms));
  }

  /** Once nothing remains, the summaries list every conversation by recency. */
  lemma ListDone(summaries: seq<Summary>, convs: map<string, Conversation>, ms: seq<Message>)
    requires ListedSoFar(summaries, {}, convs, ms)
    requires forall k :: k in convs ==> convs[k].id == k
    ensures ListsByRecency(summaries, convs)
    ensures forall i :: 0 <= i < |summaries| ==> summaries[i] == SummaryOf(convs[summaries[i].id], ms)
  {
    assert convs.Keys - {} == convs.Keys;
  }

  /**
   * Every conversation is stored under its own id and was created no later
   * than it was updated; every message belongs to a stored conversation;
   * rows are in key and time order; no time is later than the clock.
   */
  ghost predicate Consistent(conversations: map<string, Conversation>, messages: seq<Message>, clock: nat) {
    && (forall id :: id in conversations ==>
          conversations[id].id == id && conversations[id].createdAt <= conversations[id].updatedAt <= clock)
    && (forall i :: 0 <= i < |messages| ==>
          messages[i].conversationId in conversations && messages[i].timestamp <= clock)
    && Ordered(messages)
  }

  /**
   * A `save_message` that commits keeps the store consistent, and every other
   * conversation was updated no later than the previous clock reading.
   */
  lemma SaveConsistent(convs: map<string, Conversation>, ms: seq<Message>, clock: nat, now: nat,
                       id: string, role: string, content: string, built: string, model: string)
    requires Consistent(convs, ms, clock) && clock <= now
    ensures Consistent(SavedInto(convs, id, role, built, now), ms + [Message(NextMessageId(ms), id, role, content, model, now)], now)
    ensures forall other :: other in SavedInto(convs, id, role, built, now) && other != id ==>
      SavedInto(convs, id, role, built, now)[other].updatedAt <= clock
  {
    var m := Message(NextMessageId(ms), id, role, content, model, now);
    SavedStamps(if id in convs then Some(convs[id]) else None, id, role, built, now);
    forall i | 0 <= i < |ms| ensures ms[i].id < m.id {
      assert i == |ms| - 1 || ms[i].id < ms[|ms| - 1].id;
    }
  }

  class MessageRepository {
    var conversations: map<string, Conversation>
    var messages: seq<Message>
    /** The last reading of `datetime.utcnow()`. */
    var clock: nat

    /** The store's tables and clock are consistent. */
    ghost predicate Valid()
      reads this
    {
      Consistent(conversations, messages, clock)
    }

    /** An empty store, as `create_all` leaves a new database. */
    constructor ()
      ensures Valid() && conversations == map[] && messages == [] && clock == 0
    {
      conversations := map[];
      messages := [];
      clock := 0;
    }

    /** `datetime.utcnow()`: the clock moves on by `elapsed`. */
    method Now(elapsed: nat) returns (now: nat)
      modifies this`clock
      ensures clock == old(clock) + elapsed && now == clock
    {
      clock := clock + elapsed;
      now := clock;
    }

    /**
     * `create_conversation`: a new conversation under the given id, or under
     * `freshId` (the `uuid4()` drawn) when none or an empty one is given.
     */
    method CreateConversation(title: string, conversationId: Option<string>, freshId: string, elapsed: nat, fault: bool)
      returns (r: Result<Conversation, DbError>)
      requires Valid()
      modifies this`conversations, this`clock
      ensures Valid() && clock == old(clock) + elapsed && messages == old(messages)
      ensures var id := if Truthy(conversationId) then conversationId.value else freshId;
        if id in old(conversations) then
          r == Failure(DuplicateKey) && conversations == old(conversations)
        else if fault then
          r == Failure(CommitFailed) && conversations == old(conversations)
        else
          r == Success(Conversation(id, title, clock, clock)) && conversations == old(conversations)[id := r.value]
    {
      var now := Now(elapsed);
      var id := if Truthy(conversationId) then conversationId.value else freshId;
      if id in conversations {
        return Failure(DuplicateKey);
      }
      if fault {
        return Failure(CommitFailed);
      }
      var conversation := Conversation(id, title, now, now);
      conversations := conversations[id := conversation];
      r := Success(conversation);
    }

    /** `get_conversation`. */
    function GetConversation(id: string): (r: Option<Conversation>)
      reads this
      requires Valid()
      ensures r.Some? <==> id in conversations
      ensures r.Some? ==> r.value == conversations[id] && r.value.id == id
    {
      if id in conversations then Some(conversations[id]) else None
    }

    /** `delete_conversation`: False for an unknown id; otherwise the conversation and its messages go. */
    method DeleteConversation(id: string, fault: bool) returns (r: Result<bool, DbError>)
      requires Valid()
      modifies this`conversations, this`messages
      ensures Valid()
      ensures id !in old(conversations) ==>
        r == Success(false) && conversations == old(conversations) && messages == old(messages)
      ensures id in old(conversations) && fault ==>
        r == Failure(CommitFailed) && conversations == old(conversations) && messages == old(messages)
      ensures id in old(conversations) && !fault ==>
        && r == Success(true)
        && conversations == old(conversations) - {id}
        && messages == WithoutConversation(old(messages), id)
    {
      if id !in conversations {
        return Success(false);
      }
      if fault {
        return Failure(CommitFailed);
      }
      var kept := WithoutConversation(messages, id);
      WhereOrdered(messages, NotInConversation(id));
      forall i | 0 <= i < |kept|
        ensures kept[i].conversationId in conversations - {id} && kept[i].timestamp <= clock
      {
        WhereMembers(messages, NotInConversation(id), kept[i]);
      }
      messages := kept;
      conversations := conversations - {id};
      r := Success(true);
    }

    /**
     * `ensure_conversation`: an existing conversation is returned as it is and
     * nothing changes; a missing one is created with the default title.
     */
    method EnsureConversation(id: string, elapsed: nat, fault: bool) returns (r: Result<Conversation, DbError>)
      requires Valid()
      modifies this`conversations, this`clock
      ensures Valid() && messages == old(messages)
      ensures id in old(conversations) ==>
        r == Success(old(conversations)[id]) && conversations == old(conversations) && clock == old(clock)
      ensures id !in old(conversations) ==> clock == old(clock) + elapsed
      ensures id !in old(conversations) && fault ==>
        r == Failure(CommitFailed) && conversations == old(conversations)
      ensures id !in old(conversations) && !fault ==>
        && r == Success(Conversation(id, Types.DefaultTitle, clock, clock))
        && conversations == old(conversations)[id := r.value]
    {
      if id in conversations {
        return Success(conversations[id]);
      }
      var now := Now(elapsed);
      if fault {
        return Failure(CommitFailed);
      }
      var conversation := Conversation(id, Types.DefaultTitle, now, now);
      conversations := conversations[id := conversation];
      r := Success(conversation);
    }

    /**
     * `save_message`: the conversation is created if missing, the message is
     * appended, the title is set from a first user message, and the
     * conversation becomes the most recently updated one.
     */
    method SaveMessage(role: string, content: string, model: string, conversationId: string, elapsed: nat, fault: bool)
      returns (r: Result<Message, DbError>)
      requires Valid()
      modifies this`conversations, this`messages, this`clock
      ensures Valid() && clock == old(clock) + elapsed
      ensures fault ==>
        r == Failure(CommitFailed) && conversations == old(conversations) && messages == old(messages)
      ensures !fault ==>
        && r == Success(Message(NextMessageId(old(messages)), conversationId, role, content, model, clock))
        && messages == old(messages) + [r.value]
        && conversations == SavedInto(old(conversations), conversationId, role, BuildTitle(content), clock)
        && forall id :: id in conversations && id != conversationId ==> conversations[id].updatedAt <= old(clock)
    {
      var now := Now(elapsed);
      if fault {
        return Failure(CommitFailed);
      }
      var message := Message(NextMessageId(messages), conversationId, role, content, model, now);
      SaveConsistent(conversations, messages, old(clock), now, conversationId, role, content, BuildTitle(content), model);
      messages := messages + [message];
      conversations := SavedInto(conversations, conversationId, role, BuildTitle(content), now);
      r := Success(message);
    }

    /** `get_messages_by_conversation`: that conversation's messages, oldest first. */
    function GetMessagesByConversation(id: string): (r: seq<Message>)
      reads this
      requires Valid()
      ensures forall m :: m in r <==> m in messages && m.conversationId == id
      ensures Ordered(r) && Chronological(r)
    {
      WhereOrdered(messages, InConversation(id));
      MessagesOfMembers(messages, id);
      MessagesOf(messages, id)
    }

    /**
     * `get_conversation_summaries`: one summary per conversation, the most
     * recently updated first.
     */
    method GetConversationSummaries() returns (summaries: seq<Summary>)
      requires Valid()
      ensures ListsByRecency(summaries, conversations)
      ensures forall i :: 0 <= i < |summaries| ==> summaries[i] == SummaryOf(conversations[summaries[i].id], messages)
    {
      var remaining := conversations.Keys;
      summaries := [];
      while remaining != {}
        invariant ListedSoFar(summaries, remaining, conversations, messages)
        decreases |remaining|
      {
        MostRecentExists(conversations, remaining);
        var id :| id in remaining && forall k :: k in remaining ==> conversations[k].updatedAt <= conversations[id].updatedAt;
        var conversation := conversations[id];
        var own := MessagesOf(messages, id);
        var lastPreview := "";
        if |own| > 0 {
          lastPreview := Prefix(own[|own| - 1].content, PreviewLength);
        }
        var summary := Summary(id, conversation.title, conversation.createdAt, conversation.updatedAt, |own|, lastPreview);
        ListStep(summaries, remaining, conversations, messages, id);
        summaries := summaries + [summary];
        remaining := remaining - {id};
      }
      ListDone(summaries, conversations, messages);
    }
  }
}
