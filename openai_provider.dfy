/**
 * The OpenAI provider: its key, the messages it forwards to the Responses
 * API, and the translation of the response events into text chunks.
 */
module OpenAiProvider {
  import opened Wrappers
  import opened Text
  import opened Environment
  import opened LlmProvider

  const MissingKeyMessage: string := "OPENAI_API_KEY is not set"
  /** `str(KeyError("content"))`, raised for a forwarded message without content. */
  const MissingContentMessage: string := "'content'"

  /** `api_key or os.getenv("OPENAI_API_KEY")`; the ValueError text when neither is set. */
  function ResolveKey(apiKey: Option<string>, env: Env): (r: Result<string, string>)
    ensures r.Success? <==> Truthy(apiKey) || HasOpenAiKey(env)
    ensures r.Success? ==> r.value != "" && r.value == (if Truthy(apiKey) then apiKey.value else env.openAiKey.value)
    ensures r.Failure? ==> r.error == MissingKeyMessage
  {
    if Truthy(apiKey) then Success(apiKey.value)
    else if Truthy(env.openAiKey) then Success(env.openAiKey.value)
    else Failure(MissingKeyMessage)
  }

  /** One item of the `input` list: `{"type": "message", "role": ..., "content": ...}`. */
  datatype InputMessage = InputMessage(kind: string, role: string, content: string)

  predicate Forwarded(role: Option<string>) {
    role == Some("user") || role == Some("assistant") || role == Some("system") || role == Some("developer")
  }

  /**
   * `input_messages`: the messages with a forwarded role, in order; reading
   * the content of one that has none raises `KeyError`.
   */
  function InputMessages(ms: seq<ChatDict>): (r: Result<seq<InputMessage>, string>)
    ensures r.Failure? ==> r.error == MissingContentMessage
    decreases |ms|
  {
    if ms == [] then Success([])
    else
      var m := ms[|ms| - 1];
      match InputMessages(ms[..|ms| - 1])
      case Failure(e) => Failure(e)
      case Success(kept) =>
        if !Forwarded(m.role) then Success(kept)
        else if m.content.None? then Failure(MissingContentMessage)
        else Success(kept + [InputMessage("message", m.role.value, m.content.value)])
  }

  /** The list fails exactly when a forwarded message lacks its content. */
  lemma {:induction false} InputMessagesFails(ms: seq<ChatDict>)
    ensures InputMessages(ms).Failure? <==> exists i :: 0 <= i < |ms| && Forwarded(ms[i].role) && ms[i].content.None?
    decreases |ms|
  {
    if ms != [] {
      var n := |ms| - 1;
      InputMessagesFails(ms[..n]);
      assert forall i :: 0 <= i < n ==> ms[..n][i] == ms[i];
    }
  }

  /** Forwarding is done message by message: the list of a concatenation is the concatenation. */
  lemma {:induction false} InputMessagesAppend(a: seq<ChatDict>, b: seq<ChatDict>)
    requires InputMessages(a + b).Success?
    ensures InputMessages(a).Success? && InputMessages(b).Success?
    ensures InputMessages(a + b).value == InputMessages(a).value + InputMessages(b).value
    decreases |b|
  {
    if b == [] {
      assert a + b == a;
    } else {
      var n := |b| - 1;
      assert (a + b)[..|a + b| - 1] == a + b[..n];
      assert (a + b)[|a + b| - 1] == b[n];
      InputMessagesAppend(a, b[..n]);
    }
  }

  /** Each forwarded message keeps its role and content; messages of other roles contribute nothing. */
  lemma InputMessagesSingle(m: ChatDict)
    ensures !Forwarded(m.role) ==> InputMessages([m]) == Success([])
    ensures Forwarded(m.role) && m.content.Some? ==>
      InputMessages([m]) == Success([InputMessage("message", m.role.value, m.content.value)])
  {
    assert [m][..0] == [];
    assert InputMessages([m][..0]) == Success([]);
    if Forwarded(m.role) && m.content.Some? {
      var item := InputMessage("message", m.role.value, m.content.value);
      assert [] + [item] == [item];
    }
  }

  /** An event of `client.responses.stream`, as far as the provider looks at it. */
  datatype ResponseEvent =
    | OutputTextDelta(delta: string)
    | ErrorEvent(message: string)
    | OtherEvent(kind: string)

  /** What the provider yields for a sequence of events: the deltas, until an error event raises. */
  function Translate(events: seq<ResponseEvent>): ChunkStream
    decreases |events|
  {
    if events == [] then ChunkStream([], None)
    else match events[0]
      case OutputTextDelta(d) => var rest := Translate(events[1..]); ChunkStream([d] + rest.chunks, rest.raised)
      case ErrorEvent(m) => ChunkStream([], Some(m))
      case OtherEvent(_) => Translate(events[1..])
  }

  /** The deltas of a list of events, in order. */
  function Deltas(events: seq<ResponseEvent>): seq<string>
    decreases |events|
  {
    if events == [] then []
    else Deltas(events[..|events| - 1]) + (if events[|events| - 1].OutputTextDelta? then [events[|events| - 1].delta] else [])
  }

  predicate NoErrorEvent(events: seq<ResponseEvent>) {
    forall i :: 0 <= i < |events| ==> !events[i].ErrorEvent?
  }

  /** `stream_chat`'s loop: yield each text delta, raise at an error event, ignore the rest. */
  method StreamText(events: seq<ResponseEvent>) returns (out: ChunkStream)
    ensures out == Translate(events)
  {
    var chunks := [];
    var i := 0;
    while i < |events|
      invariant 0 <= i <= |events|
      invariant Translate(events) == ChunkStream(chunks + Translate(events[i..]).chunks, Translate(events[i..]).raised)
    {
      assert events[i..][1..] == events[i + 1..];
      match events[i] {
        case OutputTextDelta(d) =>
          chunks := chunks + [d];
        case ErrorEvent(m) =>
          return ChunkStream(chunks, Some(m));
        case OtherEvent(_) =>
      }
      i := i + 1;
    }
    return ChunkStream(chunks, None);
  }

  /** Events before the first error contribute their deltas; what follows is that of the rest. */
  lemma {:induction false} TranslateAppend(a: seq<ResponseEvent>, b: seq<ResponseEvent>)
    requires NoErrorEvent(a)
    ensures Translate(a + b) == ChunkStream(Deltas(a) + Translate(b).chunks, Translate(b).raised)
    decreases |a|
  {
    if a == [] {
      assert a + b == b;
    } else {
      assert (a + b)[0] == a[0];
      assert (a + b)[1..] == a[1..] + b;
      TranslateAppend(a[1..], b);
      DeltasCons(a[0], a[1..]);
      assert [a[0]] + a[1..] == a;
    }
  }

  lemma {:induction false} DeltasCons(e: ResponseEvent, rest: seq<ResponseEvent>)
    ensures Deltas([e] + rest) == (if e.OutputTextDelta? then [e.delta] else []) + Deltas(rest)
    decreases |rest|
  {
    if rest == [] {
      assert [e] + rest == [e];
      assert [e][..0] == [];
    } else {
      var n := |rest| - 1;
      assert ([e] + rest)[..|rest|] == [e] + rest[..n];
      DeltasCons(e, rest[..n]);
    }
  }

  /** Without an error event every delta is yielded and nothing is raised. */
  lemma AllDeltasWithoutError(events: seq<ResponseEvent>)
    requires NoErrorEvent(events)
    ensures Translate(events) == ChunkStream(Deltas(events), None)
  {
    TranslateAppend(events, []);
    assert events + [] == events;
  }

  /** An error event raises its message after the deltas before it; later events are never read. */
  lemma ErrorEndsOutput(a: seq<ResponseEvent>, message: string, b: seq<ResponseEvent>)
    requires NoErrorEvent(a)
    ensures Translate(a + [ErrorEvent(message)] + b) == ChunkStream(Deltas(a), Some(message))
  {
    assert a + [ErrorEvent(message)] + b == a + ([ErrorEvent(message)] + b);
    TranslateAppend(a, [ErrorEvent(message)] + b);
    assert Deltas(a) + [] == Deltas(a);
  }
}
