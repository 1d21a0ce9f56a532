/**
 * The Gemini provider, reached through the OpenAI-compatible chat completions
 * endpoint: its key, and the text it takes from each streamed chunk.
 */
module GoogleProvider {
  import opened Wrappers
  import opened Text
  import opened Environment

  const MissingKeyMessage: string := "GEMINI_API_KEY or GOOGLE_API_KEY is not set"

  /** `api_key or os.getenv("GEMINI_API_KEY") or os.getenv("GOOGLE_API_KEY")`; the ValueError text when none is set. */
  function ResolveKey(apiKey: Option<string>, env: Env): (r: Result<string, string>)
    ensures r.Success? <==> Truthy(apiKey) || HasGoogleKey(env)
    ensures r.Success? ==> r.value != ""
    ensures Truthy(apiKey) ==> r == Success(apiKey.value)
    ensures !Truthy(apiKey) && Truthy(env.geminiKey) ==> r == Success(env.geminiKey.value)
    ensures !Truthy(apiKey) && !Truthy(env.geminiKey) && Truthy(env.googleKey) ==> r == Success(env.googleKey.value)
    ensures r.Failure? ==> r.error == MissingKeyMessage
  {
    if Truthy(apiKey) then Success(apiKey.value)
    else if Truthy(env.geminiKey) then Success(env.geminiKey.value)
    else if Truthy(env.googleKey) then Success(env.googleKey.value)
    else Failure(MissingKeyMessage)
  }

  datatype Delta = Delta(content: Option<string>)

  datatype Choice = Choice(delta: Delta)

  /** One streamed chat completion chunk. */
  datatype CompletionChunk = CompletionChunk(choices: seq<Choice>)

  /** `chunk.choices and chunk.choices[0].delta.content`. */
  predicate HasText(c: CompletionChunk) {
    |c.choices| > 0 && Truthy(c.choices[0].delta.content)
  }

  /** The text of the first choice of every chunk that has some, in order. */
  function Texts(chunks: seq<CompletionChunk>): seq<string>
    decreases |chunks|
  {
    if chunks == [] then []
    else
      var c := chunks[|chunks| - 1];
      Texts(chunks[..|chunks| - 1]) + (if HasText(c) then [c.choices[0].delta.content.value] else [])
  }

  /** `stream_chat`'s loop over the completion stream. */
  method StreamText(chunks: seq<CompletionChunk>) returns (out: seq<string>)
    ensures out == Texts(chunks)
  {
    out := [];
    for i := 0 to |chunks|
      invariant out == Texts(chunks[..i])
    {
      assert chunks[..i + 1][..i] == chunks[..i];
      var c := chunks[i];
      if |c.choices| > 0 && Truthy(c.choices[0].delta.content) {
        out := out + [c.choices[0].delta.content.value];
      }
    }
    assert chunks[..|chunks|] == chunks;
  }

  /** Nothing empty is ever yielded. */
  lemma {:induction false} TextsNonEmpty(chunks: seq<CompletionChunk>)
    ensures forall k :: 0 <= k < |Texts(chunks)| ==> Texts(chunks)[k] != ""
    decreases |chunks|
  {
    if chunks != [] {
      TextsNonEmpty(chunks[..|chunks| - 1]);
    }
  }

  /** Chunks are read one after another: the text of a concatenation is the concatenation. */
  lemma {:induction false} TextsAppend(a: seq<CompletionChunk>, b: seq<CompletionChunk>)
    ensures Texts(a + b) == Texts(a) + Texts(b)
    decreases |b|
  {
    if b == [] {
      assert a + b == a;
    } else {
      var n := |b| - 1;
      assert (a + b)[..|a + b| - 1] == a + b[..n];
      assert (a + b)[|a + b| - 1] == b[n];
      TextsAppend(a, b[..n]);
    }
  }

  /** A chunk without choices, or whose first delta is empty or absent, contributes nothing. */
  lemma SkippedChunk(a: seq<CompletionChunk>, c: CompletionChunk, b: seq<CompletionChunk>)
    requires !HasText(c)
    ensures Texts(a + [c] + b) == Texts(a + b)
  {
    TextsAppend(a + [c], b);
    TextsAppend(a, b);
    assert (a + [c])[..|a|] == a;
  }
}
