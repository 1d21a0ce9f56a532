/**
 * The client's stream decoder (`ChatService.sendMessage`) and the error
 * mapping of its four JSON calls.
 *
 * A response body is the sequence of already-decoded text chunks that
 * `reader.read()` delivers, followed by either a clean end or a rejection.
 * `JSON.parse` is the parameter `parse`; it yields None where it would throw.
 * The callbacks the caller passes are recorded, in call order, as a trace.
 */
module ChatService {
  import opened Wrappers
  import opened Text
  import opened Types

  /** The payload of a `data: ` line; an absent field is None (or false for `done`). */
  datatype StreamChunk = StreamChunk(content: Option<string>, error: Option<string>, done: bool)

  /** One invocation of `onChunk`, `onComplete` or `onError`. */
  datatype Callback = OnChunk(content: string) | OnComplete | OnError(message: string)

  predicate IsTerminal(c: Callback) {
    !c.OnChunk?
  }

  /** What a `throw` or a rejected promise carries. */
  datatype Thrown = TypeError(message: string) | Error(message: string) | NonError

  /** A response body: the text of each read, then a clean end (None) or a failed read. */
  datatype Body = Body(texts: seq<string>, end: Option<Thrown>)

  /** The result of `fetch`: rejected before any response, or a status and a body. */
  datatype Reply<T> = Rejected(thrown: Thrown) | Replied(status: nat, body: T)

  const DataPrefix: string := "data: "
  const NetworkErrorMessage: string := "ネットワークエラーが発生しました。接続を確認してください"
  const SendFailedMessage: string := "メッセージの送信に失敗しました"
  const ModelsFailedMessage: string := "モデル情報の取得に失敗しました"
  const NullBodyMessage: string := "Response body is null"

  /** `response.ok`. */
  predicate IsOk(status: nat) {
    200 <= status <= 299
  }

  function HttpErrorMessage(status: nat): string {
    "HTTP error! status: " + NatToString(status)
  }

  /** The `catch` of `sendMessage`: the text handed to `onError` for a thrown value. */
  function SendFailureText(t: Thrown): string {
    match t
    case TypeError(_) => NetworkErrorMessage
    case Error(m) => m
    case NonError => SendFailedMessage
  }

  /** How far decoding got: the callbacks made so far and whether `sendMessage` has returned. */
  datatype Progress = Progress(callbacks: seq<Callback>, stop: bool)

  const Nothing: Progress := Progress([], false)

  /** Running `b` after `a`: once `a` has returned, `b` never runs. */
  function Then(a: Progress, b: Progress): Progress {
    if a.stop then a else Progress(a.callbacks + b.callbacks, b.stop)
  }

  /** The callbacks one decoded payload causes (`ChatService.ts:76-88`). */
  function DecodeEvent(d: StreamChunk): Progress {
    if Truthy(d.error) then Progress([OnError(d.error.value)], true)
    else
      var chunk := if Truthy(d.content) then [OnChunk(d.content.value)] else [];
      if d.done then Progress(chunk + [OnComplete], true) else Progress(chunk, false)
  }

  /** One line of a read: only `data: ` lines whose payload parses do anything. */
  function DecodeLine(line: string, parse: string -> Option<StreamChunk>): Progress {
    if !StartsWith(line, DataPrefix) then Nothing
    else match parse(line[|DataPrefix|..])
      case None => Nothing
      case Some(d) => DecodeEvent(d)
  }

  function DecodeLines(lines: seq<string>, parse: string -> Option<StreamChunk>): Progress
    decreases |lines|
  {
    if lines == [] then Nothing
    else Then(DecodeLines(lines[..|lines| - 1], parse), DecodeLine(lines[|lines| - 1], parse))
  }

  /** Each read is split on `\n` on its own: nothing is carried over to the next read. */
  function DecodeRead(read: string, parse: string -> Option<StreamChunk>): Progress {
    DecodeLines(Split(read, '\n'), parse)
  }

  function DecodeReads(texts: seq<string>, parse: string -> Option<StreamChunk>): Progress
    decreases |texts|
  {
    if texts == [] then Nothing
    else Then(DecodeReads(texts[..|texts| - 1], parse), DecodeRead(texts[|texts| - 1], parse))
  }

  /** Every callback `sendMessage` makes for a given reply, in order. */
  function SendTrace(reply: Reply<Option<Body>>, parse: string -> Option<StreamChunk>): seq<Callback> {
    match reply
    case Rejected(t) => [OnError(SendFailureText(t))]
    case Replied(status, body) =>
      if !IsOk(status) then [OnError(SendFailureText(Error(HttpErrorMessage(status))))]
      else if body.None? then [OnError(SendFailureText(Error(NullBodyMessage)))]
      else BodyTrace(body.value, parse)
  }

  /** The callbacks of a 2xx response with a body: those of its reads, then the fallback ending. */
  function BodyTrace(body: Body, parse: string -> Option<StreamChunk>): seq<Callback> {
    var p := DecodeReads(body.texts, parse);
    if p.stop then p.callbacks
    else p.callbacks + [if body.end.None? then OnComplete else OnError(SendFailureText(body.end.value))]
  }

  predicate OnlyChunks(cs: seq<Callback>) {
    forall i :: 0 <= i < |cs| ==> cs[i].OnChunk?
  }

  /** Exactly one terminal callback, at the end, after nothing but chunks. */
  predicate OneTerminalAtEnd(cs: seq<Callback>) {
    |cs| > 0 && IsTerminal(cs[|cs| - 1]) && OnlyChunks(cs[..|cs| - 1])
  }

  predicate WellFormed(p: Progress) {
    if p.stop then OneTerminalAtEnd(p.callbacks) else OnlyChunks(p.callbacks)
  }

  lemma ThenWellFormed(a: Progress, b: Progress)
    requires WellFormed(a) && WellFormed(b)
    ensures WellFormed(Then(a, b))
  {
    if !a.stop && b.stop {
      var cs := a.callbacks + b.callbacks;
      assert cs[..|cs| - 1] == a.callbacks + b.callbacks[..|b.callbacks| - 1];
    }
  }

  lemma {:induction false} DecodeLinesWellFormed(lines: seq<string>, parse: string -> Option<StreamChunk>)
    ensures WellFormed(DecodeLines(lines, parse))
    decreases |lines|
  {
    if lines != [] {
      DecodeLinesWellFormed(lines[..|lines| - 1], parse);
      var last := DecodeLine(lines[|lines| - 1], parse);
      assert WellFormed(last) by {
        if last.stop {
          assert last.callbacks[..|last.callbacks| - 1] == [] || last.callbacks[..|last.callbacks| - 1] == [last.callbacks[0]];
        }
      }
      ThenWellFormed(DecodeLines(lines[..|lines| - 1], parse), last);
    }
  }

  lemma {:induction false} DecodeReadsWellFormed(texts: seq<string>, parse: string -> Option<StreamChunk>)
    ensures WellFormed(DecodeReads(texts, parse))
    decreases |texts|
  {
    if texts != [] {
      DecodeReadsWellFormed(texts[..|texts| - 1], parse);
      DecodeLinesWellFormed(Split(texts[|texts| - 1], '\n'), parse);
      ThenWellFormed(DecodeReads(texts[..|texts| - 1], parse), DecodeRead(texts[|texts| - 1], parse));
    }
  }

  /**
   * Per call, exactly one of `onComplete` / `onError` fires, as the last
   * callback, and every callback before it is an `onChunk`.
   */
  lemma SendTraceShape(reply: Reply<Option<Body>>, parse: string -> Option<StreamChunk>)
    ensures OneTerminalAtEnd(SendTrace(reply, parse))
  {
    if reply.Replied? && IsOk(reply.status) && reply.body.Some? {
      var p := DecodeReads(reply.body.value.texts, parse);
      DecodeReadsWellFormed(reply.body.value.texts, parse);
      if !p.stop {
        var cs := SendTrace(reply, parse);
        assert cs[..|cs| - 1] == p.callbacks;
      }
    }
  }

  lemma {:induction false} DecodeLinesAppend(a: seq<string>, b: seq<string>, parse: string -> Option<StreamChunk>)
    ensures DecodeLines(a + b, parse) == Then(DecodeLines(a, parse), DecodeLines(b, parse))
    decreases |b|
  {
    if b == [] {
      assert a + b == a;
    } else {
      var b' := b[..|b| - 1];
      assert (a + b)[..|a + b| - 1] == a + b';
      DecodeLinesAppend(a, b', parse);
    }
  }

  lemma {:induction false} DecodeReadsAppend(a: seq<string>, b: seq<string>, parse: string -> Option<StreamChunk>)
    ensures DecodeReads(a + b, parse) == Then(DecodeReads(a, parse), DecodeReads(b, parse))
    decreases |b|
  {
    if b == [] {
      assert a + b == a;
    } else {
      var n := |b| - 1;
      var b' := b[..n];
      assert (a + b)[..|a + b| - 1] == a + b';
      assert (a + b)[|a + b| - 1] == b[n];
      var last := DecodeRead(b[n], parse);
      assert DecodeReads(a + b, parse) == Then(DecodeReads(a + b', parse), last);
      assert DecodeReads(b, parse) == Then(DecodeReads(b', parse), last);
      DecodeReadsAppend(a, b', parse);
      ThenAssociative(DecodeReads(a, parse), DecodeReads(b', parse), last);
    }
  }

  /**
   * Lines without the `data: ` prefix, and payloads that do not parse, are
   * skipped: removing one changes nothing, and in particular does not end the turn.
   */
  lemma SkippedLineIgnored(pre: seq<string>, line: string, post: seq<string>, parse: string -> Option<StreamChunk>)
    requires !StartsWith(line, DataPrefix) || parse(line[|DataPrefix|..]).None?
    ensures DecodeLines(pre + [line] + post, parse) == DecodeLines(pre + post, parse)
  {
    DecodeLinesAppend(pre + [line], post, parse);
    DecodeLinesAppend(pre, [line], parse);
    DecodeLinesAppend(pre, post, parse);
    assert DecodeLines([line], parse) == Then(Nothing, DecodeLine(line, parse));
  }

  /**
   * A payload with a truthy `error` calls `onError` with it and returns at
   * once: no `onChunk` for that payload and nothing after it is processed.
   */
  lemma ErrorLineEndsTurn(pre: seq<string>, line: string, post: seq<string>, parse: string -> Option<StreamChunk>)
    requires !DecodeLines(pre, parse).stop
    requires StartsWith(line, DataPrefix)
    requires parse(line[|DataPrefix|..]).Some? && Truthy(parse(line[|DataPrefix|..]).value.error)
    ensures DecodeLines(pre + [line] + post, parse)
         == Progress(DecodeLines(pre, parse).callbacks + [OnError(parse(line[|DataPrefix|..]).value.error.value)], true)
  {
    DecodeLinesAppend(pre + [line], post, parse);
    DecodeLinesAppend(pre, [line], parse);
    assert DecodeLines([line], parse) == Then(Nothing, DecodeLine(line, parse));
  }

  /**
   * A payload with a truthy `done` (and no error) calls `onChunk` for its
   * content if that is non-empty, then `onComplete`, and returns.
   */
  lemma DoneLineEndsTurn(pre: seq<string>, line: string, post: seq<string>, parse: string -> Option<StreamChunk>)
    requires !DecodeLines(pre, parse).stop
    requires StartsWith(line, DataPrefix)
    requires parse(line[|DataPrefix|..]).Some?
    requires !Truthy(parse(line[|DataPrefix|..]).value.error) && parse(line[|DataPrefix|..]).value.done
    ensures var d := parse(line[|DataPrefix|..]).value;
      DecodeLines(pre + [line] + post, parse)
      == Progress(DecodeLines(pre, parse).callbacks
                  + (if Truthy(d.content) then [OnChunk(d.content.value)] else [])
                  + [OnComplete], true)
  {
    DecodeLinesAppend(pre + [line], post, parse);
    DecodeLinesAppend(pre, [line], parse);
    assert DecodeLines([line], parse) == Then(Nothing, DecodeLine(line, parse));
  }

  /**
   * Once `sendMessage` has returned inside the texts, later texts and how the
   * body ends are never looked at.
   */
  lemma LaterReadsIgnored(status: nat, texts: seq<string>, more: seq<string>, end: Option<Thrown>, end': Option<Thrown>, parse: string -> Option<StreamChunk>)
    requires DecodeReads(texts, parse).stop
    ensures SendTrace(Replied(status, Some(Body(texts + more, end))), parse)
         == SendTrace(Replied(status, Some(Body(texts, end'))), parse)
  {
    DecodeReadsAppend(texts, more, parse);
  }

  /** The text of one event frame as the server writes it. */
  function Frame(c: StreamChunk, encode: StreamChunk -> string): string {
    DataPrefix + encode(c) + "\n\n"
  }

  function Frames(cs: seq<StreamChunk>, encode: StreamChunk -> string): string
    decreases |cs|
  {
    if cs == [] then "" else Frame(cs[0], encode) + Frames(cs[1..], encode)
  }

  /** The reference reading of a sequence of payloads, first to last. */
  function EventsProgress(cs: seq<StreamChunk>): Progress
    decreases |cs|
  {
    if cs == [] then Nothing else Then(DecodeEvent(cs[0]), EventsProgress(cs[1..]))
  }

  /** The trace of a stream of payloads that then ends cleanly. */
  function EventsTrace(cs: seq<StreamChunk>): seq<Callback> {
    var p := EventsProgress(cs);
    if p.stop then p.callbacks else p.callbacks + [OnComplete]
  }

  lemma ThenAssociative(a: Progress, b: Progress, c: Progress)
    ensures Then(Then(a, b), c) == Then(a, Then(b, c))
  {
  }

  lemma {:induction false} EventsProgressAppend(a: seq<StreamChunk>, b: seq<StreamChunk>)
    ensures EventsProgress(a + b) == Then(EventsProgress(a), EventsProgress(b))
    decreases |a|
  {
    if a == [] {
      assert a + b == b;
    } else {
      assert (a + b)[1..] == a[1..] + b;
      EventsProgressAppend(a[1..], b);
      ThenAssociative(DecodeEvent(a[0]), EventsProgress(a[1..]), EventsProgress(b));
    }
  }

  /** A frame followed by more text splits into its `data: ` line, an empty line, and the rest's lines. */
  lemma FrameLines(c: StreamChunk, rest: string, encode: StreamChunk -> string)
    requires '\n' !in encode(c)
    ensures Split(Frame(c, encode) + rest, '\n') == [DataPrefix + encode(c), ""] + Split(rest, '\n')
  {
    var x := DataPrefix + encode(c);
    assert '\n' !in DataPrefix;
    assert '\n' !in x;
    assert Frame(c, encode) + rest == x + ['\n'] + (['\n'] + rest);
    SplitAtSeparator(x, ['\n'] + rest, '\n');
    assert [] + ['\n'] + rest == ['\n'] + rest;
    SplitAtSeparator([], rest, '\n');
  }

  /** The two lines of a frame decode to its payload's callbacks. */
  lemma FrameLinesDecode(c: StreamChunk, lines: seq<string>, encode: StreamChunk -> string, parse: string -> Option<StreamChunk>)
    requires parse(encode(c)) == Some(c)
    ensures DecodeLines([DataPrefix + encode(c), ""] + lines, parse) == Then(DecodeEvent(c), DecodeLines(lines, parse))
  {
    var x := DataPrefix + encode(c);
    assert x[|DataPrefix|..] == encode(c);
    assert DecodeLine(x, parse) == DecodeEvent(c);
    assert DecodeLine("", parse) == Nothing;
    assert [x, ""] + lines == [x] + ([""] + lines);
    DecodeLinesAppend([x], [""] + lines, parse);
    DecodeLinesAppend([""], lines, parse);
    assert DecodeLines([x], parse) == Then(Nothing, DecodeLine(x, parse));
    assert DecodeLines([""], parse) == Then(Nothing, DecodeLine("", parse));
  }

  /** A read made of whole frames decodes to exactly its payloads, in order. */
  lemma {:induction false} FramedReadDecodes(cs: seq<StreamChunk>, encode: StreamChunk -> string, parse: string -> Option<StreamChunk>)
    requires forall c :: parse(encode(c)) == Some(c)
    requires forall c :: '\n' !in encode(c)
    ensures DecodeRead(Frames(cs, encode), parse) == EventsProgress(cs)
    decreases |cs|
  {
    if cs == [] {
      assert Split("", '\n') == [""];
      assert DecodeLines([""], parse) == Then(Nothing, DecodeLine("", parse));
    } else {
      var rest := Frames(cs[1..], encode);
      FrameLines(cs[0], rest, encode);
      FrameLinesDecode(cs[0], Split(rest, '\n'), encode, parse);
      FramedReadDecodes(cs[1..], encode, parse);
    }
  }

  function Flatten(evs: seq<seq<StreamChunk>>): seq<StreamChunk>
    decreases |evs|
  {
    if evs == [] then [] else Flatten(evs[..|evs| - 1]) + evs[|evs| - 1]
  }

  lemma {:induction false} FramedReadsDecode(texts: seq<string>, evs: seq<seq<StreamChunk>>, encode: StreamChunk -> string, parse: string -> Option<StreamChunk>)
    requires forall c :: parse(encode(c)) == Some(c)
    requires forall c :: '\n' !in encode(c)
    requires |texts| == |evs|
    requires forall i :: 0 <= i < |texts| ==> texts[i] == Frames(evs[i], encode)
    ensures DecodeReads(texts, parse) == EventsProgress(Flatten(evs))
    decreases |texts|
  {
    if texts != [] {
      var n := |texts| - 1;
      FramedReadsDecode(texts[..n], evs[..n], encode, parse);
      FramedReadDecodes(evs[n], encode, parse);
      EventsProgressAppend(Flatten(evs[..n]), evs[n]);
    }
  }

  /**
   * When every read holds whole `data: <json>\n\n` frames and the body ends
   * cleanly, the callbacks are those of the payloads read one after another,
   * however the frames are grouped into texts.
   */
  lemma WholeFramesTrace(status: nat, texts: seq<string>, evs: seq<seq<StreamChunk>>, encode: StreamChunk -> string, parse: string -> Option<StreamChunk>)
    requires IsOk(status)
    requires forall c :: parse(encode(c)) == Some(c)
    requires forall c :: '\n' !in encode(c)
    requires |texts| == |evs|
    requires forall i :: 0 <= i < |texts| ==> texts[i] == Frames(evs[i], encode)
    ensures SendTrace(Replied(status, Some(Body(texts, None))), parse) == EventsTrace(Flatten(evs))
  {
    FramedReadsDecode(texts, evs, encode, parse);
  }

  /**
   * The decoder does not carry a partial line over to the next read: a frame
   * whose payload is cut in two by a read boundary yields no callback at all.
   */
  lemma SplitFrameDropped(status: nat, head: string, tail: string, parse: string -> Option<StreamChunk>)
    requires IsOk(status)
    requires '\n' !in head && '\n' !in tail
    requires parse(head).None?
    requires !StartsWith(tail, DataPrefix)
    ensures SendTrace(Replied(status, Some(Body([DataPrefix + head, tail + "\n\n"], None))), parse) == [OnComplete]
  {
    var first := DataPrefix + head;
    assert '\n' !in DataPrefix;
    assert '\n' !in first;
    SplitWithoutSeparator(first, '\n');
    assert first[|DataPrefix|..] == head;
    assert DecodeLines([first], parse) == Then(Nothing, DecodeLine(first, parse));
    var nl: string := ['\n'];
    var empty: string := [];
    assert tail + "\n\n" == tail + nl + nl;
    SplitAtSeparator(tail, nl, '\n');
    assert empty + nl + empty == nl;
    SplitAtSeparator(empty, empty, '\n');
    assert Split(empty, '\n') == [""];
    assert Split(nl, '\n') == ["", ""];
    assert Split(tail + "\n\n", '\n') == [tail, "", ""];
    DecodeLinesAppend([tail], ["", ""], parse);
    DecodeLinesAppend([""], [""], parse);
    assert DecodeLines([tail], parse) == Then(Nothing, DecodeLine(tail, parse));
    assert DecodeLines([""], parse) == Then(Nothing, DecodeLine("", parse));
    var texts := [first, tail + "\n\n"];
    assert DecodeRead(first, parse) == Nothing;
    assert DecodeRead(tail + "\n\n", parse) == Nothing;
    assert texts[..1] == [first];
    assert texts[..1][..0] == [];
    assert DecodeReads(texts[..1], parse) == Then(DecodeReads([], parse), DecodeRead(first, parse));
    assert DecodeReads(texts, parse) == Then(DecodeReads(texts[..1], parse), DecodeRead(texts[1], parse));
    assert BodyTrace(Body(texts, None), parse) == [OnComplete];
  }

  lemma StepLine(lines: seq<string>, j: nat, parse: string -> Option<StreamChunk>)
    requires j < |lines|
    ensures DecodeLines(lines[..j + 1], parse) == Then(DecodeLines(lines[..j], parse), DecodeLine(lines[j], parse))
  {
    assert lines[..j + 1][..j] == lines[..j];
  }

  lemma StepRead(texts: seq<string>, i: nat, parse: string -> Option<StreamChunk>)
    requires i < |texts|
    ensures DecodeReads(texts[..i + 1], parse) == Then(DecodeReads(texts[..i], parse), DecodeRead(texts[i], parse))
  {
    assert texts[..i + 1][..i] == texts[..i];
  }

  /** Once decoding has returned, further lines change nothing. */
  lemma ReturnInside(lines: seq<string>, j: nat, parse: string -> Option<StreamChunk>)
    requires j < |lines|
    requires DecodeLines(lines[..j + 1], parse).stop
    ensures DecodeLines(lines, parse) == DecodeLines(lines[..j + 1], parse)
  {
    assert lines == lines[..j + 1] + lines[j + 1..];
    DecodeLinesAppend(lines[..j + 1], lines[j + 1..], parse);
  }

  /**
   * The `for (const line of lines)` loop of one read: dispatches each `data: `
   * line and reports whether `sendMessage` returned inside it.
   */
  method DispatchLines(lines: seq<string>, parse: string -> Option<StreamChunk>) returns (p: Progress)
    ensures p == DecodeLines(lines, parse)
  {
    var trace := [];
    var j := 0;
    while j < |lines|
      invariant 0 <= j <= |lines|
      invariant DecodeLines(lines[..j], parse) == Progress(trace, false)
    {
      StepLine(lines, j, parse);
      var line := lines[j];
      if StartsWith(line, DataPrefix) {
        var data := parse(line[|DataPrefix|..]);
        if data.Some? {
          var d := data.value;
          if Truthy(d.error) {
            trace := trace + [OnError(d.error.value)];
            ReturnInside(lines, j, parse);
            return Progress(trace, true);
          }
          if Truthy(d.content) {
            trace := trace + [OnChunk(d.content.value)];
          }
          if d.done {
            trace := trace + [OnComplete];
            ReturnInside(lines, j, parse);
            return Progress(trace, true);
          }
        }
      }
      j := j + 1;
    }
    assert lines[..j] == lines;
    p := Progress(trace, false);
  }

  /** Once decoding has returned inside read `i`, later reads change nothing. */
  lemma ReturnInRead(texts: seq<string>, i: nat, parse: string -> Option<StreamChunk>)
    requires i < |texts|
    requires DecodeReads(texts[..i + 1], parse).stop
    ensures DecodeReads(texts, parse) == DecodeReads(texts[..i + 1], parse)
  {
    assert texts == texts[..i + 1] + texts[i + 1..];
    DecodeReadsAppend(texts[..i + 1], texts[i + 1..], parse);
  }

  /**
   * `sendMessage`: reads the body chunk by chunk, splits each chunk on `\n`,
   * and dispatches the callbacks of each `data: ` line, returning as soon as
   * an error or done payload has been handled; a body that ends without one
   * completes, a failed read or request reports the failure.
   */
  method SendMessage(reply: Reply<Option<Body>>, parse: string -> Option<StreamChunk>) returns (trace: seq<Callback>)
    ensures trace == SendTrace(reply, parse)
    ensures OneTerminalAtEnd(trace)
    ensures reply.Rejected? ==> trace == [OnError(SendFailureText(reply.thrown))]
    ensures reply.Replied? && !IsOk(reply.status) ==> trace == [OnError(HttpErrorMessage(reply.status))]
    ensures reply.Replied? && IsOk(reply.status) && reply.body.None? ==> trace == [OnError(NullBodyMessage)]
  {
    SendTraceShape(reply, parse);
    if reply.Rejected? {
      trace := [OnError(SendFailureText(reply.thrown))];
      return;
    }
    if !IsOk(reply.status) {
      trace := [OnError(SendFailureText(Error(HttpErrorMessage(reply.status))))];
      return;
    }
    if reply.body.None? {
      trace := [OnError(SendFailureText(Error(NullBodyMessage)))];
      return;
    }
    var body := reply.body.value;
    var texts := body.texts;
    trace := [];
    var i := 0;
    while i < |texts|
      invariant 0 <= i <= |texts|
      invariant DecodeReads(texts[..i], parse) == Progress(trace, false)
    {
      var lines := Split(texts[i], '\n');
      var p := DispatchLines(lines, parse);
      StepRead(texts, i, parse);
      trace := trace + p.callbacks;
      if p.stop {
        ReturnInRead(texts, i, parse);
        return;
      }
      i := i + 1;
    }
    assert texts[..i] == texts;
    if body.end.None? {
      trace := trace + [OnComplete];
    } else {
      trace := trace + [OnError(SendFailureText(body.end.value))];
    }
  }

  /** The three calls without a `catch` (`createConversation`, `getConversations`, `getConversationMessages`). */
  function FetchJson<T>(reply: Reply<T>): (r: Result<T, Thrown>)
    ensures reply.Replied? && IsOk(reply.status) <==> r.Success?
    ensures r.Success? ==> r.value == reply.body
    ensures reply.Replied? && !IsOk(reply.status) ==> r == Failure(Error(HttpErrorMessage(reply.status)))
    ensures reply.Rejected? ==> r == Failure(reply.thrown)
  {
    match reply
    case Rejected(t) => Failure(t)
    case Replied(status, body) =>
      if IsOk(status) then Success(body) else Failure(Error(HttpErrorMessage(status)))
  }

  /** `getModels`: the same request, with its `catch` turning every failure into an Error's message. */
  function GetModels(reply: Reply<seq<ModelInfo>>): (r: Result<seq<ModelInfo>, string>)
    ensures r.Success? <==> reply.Replied? && IsOk(reply.status)
    ensures r.Success? ==> r.value == reply.body
  {
    match FetchJson(reply)
    case Success(models) => Success(models)
    case Failure(TypeError(_)) => Failure(NetworkErrorMessage)
    case Failure(Error(m)) => Failure(m)
    case Failure(NonError) => Failure(ModelsFailedMessage)
  }

  /**
   * `getModels` agrees with the uncaught calls on success and on an HTTP
   * status error, and turns a transport failure into the network message.
   */
  lemma GetModelsErrorMapping(reply: Reply<seq<ModelInfo>>)
    ensures GetModels(reply).Success? <==> FetchJson(reply).Success?
    ensures GetModels(reply).Success? ==> GetModels(reply).value == reply.body
    ensures reply.Replied? && !IsOk(reply.status) ==> GetModels(reply) == Failure(HttpErrorMessage(reply.status))
    ensures reply.Rejected? && reply.thrown.TypeError? ==> GetModels(reply) == Failure(NetworkErrorMessage)
    ensures reply.Rejected? && reply.thrown.Error? ==> GetModels(reply) == Failure(reply.thrown.message)
    ensures reply.Rejected? && reply.thrown.NonError? ==> GetModels(reply) == Failure(ModelsFailedMessage)
  {
  }

  /**
   * The delete call as the client is written: `chatService` has no
   * `deleteConversation` member, so calling it throws a TypeError before any
   * request is made, whatever the server would have answered.
   */
  const NotAFunctionMessage: string := "chatService.deleteConversation is not a function"

  function DeleteConversationAsWritten(reply: Reply<()>): (r: Result<(), Thrown>)
    ensures r.Failure? && r.error.TypeError?
  {
    Failure(TypeError(NotAFunctionMessage))
  }

  /** Even a 204 from the server ends in failure as written. */
  lemma DeleteAsWrittenAlwaysFails(reply: Reply<()>)
    ensures DeleteConversationAsWritten(reply).Failure?
    ensures DeleteConversationAsWritten(Replied(204, ())) != DeleteConversation(Replied(204, ()))
  {
  }

  /**
   * `DELETE /api/conversations/{id}` as evidently intended, in the style of the
   * other uncaught calls: a 2xx status (the server sends 204, no body) succeeds,
   * any other status throws the HTTP-error message.
   */
  function DeleteConversation(reply: Reply<()>): (r: Result<(), Thrown>)
    ensures r.Success? <==> reply.Replied? && IsOk(reply.status)
    ensures reply.Replied? && !IsOk(reply.status) ==> r == Failure(Error(HttpErrorMessage(reply.status)))
  {
    FetchJson(reply)
  }
}
