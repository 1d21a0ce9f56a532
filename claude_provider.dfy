/**
 * The Anthropic provider: its key, the conversion of chat messages into a
 * system text and a user/assistant conversation, and the stream parameters.
 */
module ClaudeProvider {
  import opened Wrappers
  import opened Text
  import opened Environment
  import opened LlmProvider

  const MaxTokens: nat := 4096
  const MissingKeyMessage: string := "ANTHROPIC_API_KEY is not set"

  /** `api_key or os.getenv("ANTHROPIC_API_KEY")`; the ValueError text when neither is set. */
  function ResolveKey(apiKey: Option<string>, env: Env): (r: Result<string, string>)
    ensures r.Success? <==> Truthy(apiKey) || HasAnthropicKey(env)
    ensures r.Success? ==> r.value != "" && r.value == (if Truthy(apiKey) then apiKey.value else env.anthropicKey.value)
    ensures r.Failure? ==> r.error == MissingKeyMessage
  {
    if Truthy(apiKey) then Success(apiKey.value)
    else if Truthy(env.anthropicKey) then Success(env.anthropicKey.value)
    else Failure(MissingKeyMessage)
  }

  /** One entry of the `messages` parameter of the Anthropic API. */
  datatype ClaudeMessage = ClaudeMessage(role: string, content: string)

  /** `msg.get("content", "")`. */
  function ContentOf(m: ChatDict): string {
    if m.content.Some? then m.content.value else ""
  }

  predicate IsDialogRole(role: Option<string>) {
    role == Some("user") || role == Some("assistant")
  }

  /** The content of the last `system` message, if there is one. */
  function LastSystem(ms: seq<ChatDict>): Option<string>
    decreases |ms|
  {
    if ms == [] then None
    else if ms[|ms| - 1].role == Some("system") then Some(ContentOf(ms[|ms| - 1]))
    else LastSystem(ms[..|ms| - 1])
  }

  /** The user and assistant messages, in order, with their role and content. */
  function Dialog(ms: seq<ChatDict>): seq<ClaudeMessage>
    decreases |ms|
  {
    if ms == [] then []
    else
      var m := ms[|ms| - 1];
      Dialog(ms[..|ms| - 1]) + (if IsDialogRole(m.role) then [ClaudeMessage(m.role.value, ContentOf(m))] else [])
  }

  /**
   * `_convert_messages`: a system message overwrites the system text seen so
   * far, a user or assistant message is appended, any other role is dropped.
   */
  method ConvertMessages(messages: seq<ChatDict>) returns (system: Option<string>, converted: seq<ClaudeMessage>)
    ensures system == LastSystem(messages)
    ensures converted == Dialog(messages)
  {
    system := None;
    converted := [];
    for i := 0 to |messages|
      invariant system == LastSystem(messages[..i])
      invariant converted == Dialog(messages[..i])
    {
      assert messages[..i + 1][..i] == messages[..i];
      var role := messages[i].role;
      var content := ContentOf(messages[i]);
      if role == Some("system") {
        system := Some(content);
      } else if role == Some("user") || role == Some("assistant") {
        converted := converted + [ClaudeMessage(role.value, content)];
      }
    }
    assert messages[..|messages|] == messages;
  }

  /** The system text is there exactly when some message is a system message, and it is the last one's. */
  lemma {:induction false} LastSystemIsLast(ms: seq<ChatDict>)
    ensures LastSystem(ms).Some? <==> exists i :: 0 <= i < |ms| && ms[i].role == Some("system")
    ensures LastSystem(ms).Some? ==>
      exists i :: (0 <= i < |ms| && ms[i].role == Some("system") && LastSystem(ms).value == ContentOf(ms[i])
                   && forall j :: i < j < |ms| ==> ms[j].role != Some("system"))
    decreases |ms|
  {
    if ms != [] {
      var n := |ms| - 1;
      var init := ms[..n];
      LastSystemIsLast(init);
      if ms[n].role != Some("system") {
        forall i | 0 <= i < n ensures ms[i] == init[i] {}
        if LastSystem(init).Some? {
          var i :| 0 <= i < |init| && init[i].role == Some("system") && LastSystem(init).value == ContentOf(init[i])
            && forall j :: i < j < |init| ==> init[j].role != Some("system");
          assert ms[i] == init[i];
        }
      }
    }
  }

  /** The conversation of a concatenation is the concatenation of the conversations. */
  lemma {:induction false} DialogAppend(a: seq<ChatDict>, b: seq<ChatDict>)
    ensures Dialog(a + b) == Dialog(a) + Dialog(b)
    decreases |b|
  {
    if b == [] {
      assert a + b == a;
    } else {
      var n := |b| - 1;
      assert (a + b)[..|a + b| - 1] == a + b[..n];
      assert (a + b)[|a + b| - 1] == b[n];
      DialogAppend(a, b[..n]);
    }
  }

  /** Every converted message is a user or assistant message of the input, with its content. */
  lemma {:induction false} DialogRoles(ms: seq<ChatDict>)
    ensures forall k :: 0 <= k < |Dialog(ms)| ==> Dialog(ms)[k].role == "user" || Dialog(ms)[k].role == "assistant"
    decreases |ms|
  {
    if ms != [] {
      DialogRoles(ms[..|ms| - 1]);
    }
  }

  /** The parameters `stream_chat` passes to the Anthropic client. */
  datatype Params = Params(model: string, messages: seq<ClaudeMessage>, maxTokens: nat, system: Option<string>)

  /** The `params` dict: the converted messages, a 4096-token limit, and the system text only if non-empty. */
  method BuildParams(model: string, messages: seq<ChatDict>) returns (params: Params)
    ensures params.model == model && params.messages == Dialog(messages) && params.maxTokens == MaxTokens
    ensures params.system.Some? <==> Truthy(LastSystem(messages))
    ensures params.system.Some? ==> params.system == LastSystem(messages)
  {
    var system, converted := ConvertMessages(messages);
    params := Params(model, converted, MaxTokens, None);
    if Truthy(system) {
      params := params.(system := system);
    }
  }
}
