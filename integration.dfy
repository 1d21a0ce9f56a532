/**
 * Facts that span the client and the server: the server's catalogue agrees
 * with the client's display names and with the service's routing table, and a
 * turn's events, as the server writes them and the client decodes them, end in
 * exactly the callbacks the user sees.
 */
module Integration {
  import opened Wrappers
  import opened Text
  import Types
  import opened Environment
  import opened LlmProvider
  import opened Llm
  import opened ModelDisplay
  import opened ChatService
  import Server

  // ---------------------------------------------------------------------
  // Catalogue, display names and routing
  // ---------------------------------------------------------------------

  /** The catalogue entry by entry: seven models, in the order `get_models` lists them. */
  lemma CatalogueEntries()
    ensures var c := Server.Catalogue;
      && |c| == 7
      && c[0].id == "gpt-5.2" && c[0].name == "GPT-5.2" && c[0].provider == Types.OpenAi
      && c[1].id == "gpt-5.2-pro" && c[1].name == "GPT-5.2 Pro" && c[1].provider == Types.OpenAi
      && c[2].id == "gemini-3-pro-preview" && c[2].name == "Gemini 3 Pro" && c[2].provider == Types.Google
      && c[3].id == "gemini-3-flash-preview" && c[3].name == "Gemini 3 Flash" && c[3].provider == Types.Google
      && c[4].id == "claude-opus-4-5" && c[4].name == "Claude 4.5 Opus" && c[4].provider == Types.Claude
      && c[5].id == "claude-sonnet-4-5" && c[5].name == "Claude 4.5 Sonnet" && c[5].provider == Types.Claude
      && c[6].id == "claude-haiku-4-5" && c[6].name == "Claude 4.5 Haiku" && c[6].provider == Types.Claude
  {
    var a, g, k := Server.OpenAiModels, Server.GoogleModels, Server.ClaudeModels;
    assert Server.Catalogue == [a[0], a[1], g[0], g[1], k[0], k[1], k[2]];
  }

  /** Every model the server lists is shown by the client under the name the server gives it. */
  lemma CatalogueNamesDisplayed()
    ensures forall i :: 0 <= i < |Server.Catalogue| ==>
      GetModelDisplayName(Server.Catalogue[i].id) == Server.Catalogue[i].name
  {
    CatalogueEntries();
  }

  /** The client's display table and the service's routing table know the same models. */
  lemma DisplayTableMatchesRouting()
    ensures ModelDisplayNames.Keys == ModelMapping.Keys
  {
  }

  /** Each model of the catalogue is routed to the provider it is listed under. */
  lemma CatalogueRoutedAsListed()
    ensures forall i :: 0 <= i < |Server.Catalogue| ==>
      Server.Catalogue[i].id in ModelMapping && ModelMapping[Server.Catalogue[i].id] == Server.Catalogue[i].provider
  {
    CatalogueEntries();
  }

  /** Every model the service can route appears in the catalogue. */
  lemma RoutedModelsListed()
    ensures forall id :: id in ModelMapping ==> exists i :: 0 <= i < |Server.Catalogue| && Server.Catalogue[i].id == id
  {
    CatalogueEntries();
    var c := Server.Catalogue;
    assert ModelMapping.Keys == {c[0].id, c[1].id, c[2].id, c[3].id, c[4].id, c[5].id, c[6].id};
    forall id | id in ModelMapping ensures exists i :: 0 <= i < |c| && c[i].id == id {
      var i := if id == c[0].id then 0 else if id == c[1].id then 1 else if id == c[2].id then 2
        else if id == c[3].id then 3 else if id == c[4].id then 4 else if id == c[5].id then 5 else 6;
      assert c[i].id == id;
    }
  }

  /**
   * With the service built from the same environment, a model is offered by
   * `/api/models` exactly when the chat endpoint accepts it.
   */
  lemma ListedIffAvailable(s: LLMService, env: Env, id: string)
    requires ConfiguredFor(s, env)
    ensures (exists m :: m in Server.Enabled(Server.Catalogue, env) && m.id == id) <==> IsModelAvailable(s, id)
  {
    CatalogueRoutedAsListed();
    RoutedModelsListed();
    AvailableIffKeySet(s, env, id);
    if IsModelAvailable(s, id) {
      var i :| 0 <= i < |Server.Catalogue| && Server.Catalogue[i].id == id;
      Server.EnabledMembers(Server.Catalogue, env, Server.Catalogue[i]);
    } else {
      forall m | m in Server.Enabled(Server.Catalogue, env) ensures m.id != id {
        Server.EnabledMembers(Server.Catalogue, env, m);
        var i :| 0 <= i < |Server.Catalogue| && Server.Catalogue[i] == m;
      }
    }
  }

  // ---------------------------------------------------------------------
  // A turn, end to end
  // ---------------------------------------------------------------------

  /** The JSON object the server writes for an event, as the client reads it back. */
  function Payload(e: Server.Event): StreamChunk {
    match e
    case Content(chunk) => StreamChunk(Some(chunk), None, false)
    case Done => StreamChunk(None, None, true)
    case Failed(message) => StreamChunk(None, Some(message), false)
  }

  function Payloads(es: seq<Server.Event>): (r: seq<StreamChunk>)
    ensures |r| == |es| && forall i :: 0 <= i < |es| ==> r[i] == Payload(es[i])
  {
    seq(|es|, i requires 0 <= i < |es| => Payload(es[i]))
  }

  /** The client calls `onChunk` for the chunks that are not empty, in order. */
  function ChunkCallbacks(chunks: seq<string>): seq<Callback>
    decreases |chunks|
  {
    if chunks == [] then []
    else
      var last := chunks[|chunks| - 1];
      ChunkCallbacks(chunks[..|chunks| - 1]) + (if last != "" then [OnChunk(last)] else [])
  }

  lemma {:induction false} ContentProgress(chunks: seq<string>)
    ensures EventsProgress(Payloads(Server.ContentEvents(chunks))) == Progress(ChunkCallbacks(chunks), false)
    decreases |chunks|
  {
    if chunks != [] {
      var n := |chunks| - 1;
      var init := Payloads(Server.ContentEvents(chunks[..n]));
      var last := Payload(Server.Content(chunks[n]));
      assert Payloads(Server.ContentEvents(chunks)) == init + [last];
      ContentProgress(chunks[..n]);
      EventsProgressAppend(init, [last]);
      assert EventsProgress([last]) == Then(DecodeEvent(last), EventsProgress([]));
    }
  }

  /** The callbacks the user sees for a turn: the chunks, then completion or the classified error. */
  function TurnCallbacks(stream: ChunkStream): seq<Callback> {
    ChunkCallbacks(stream.chunks)
      + [if stream.raised.None? then OnComplete else OnError(Server.ClassifyError(stream.raised.value))]
  }

  lemma TurnProgress(stream: ChunkStream)
    ensures EventsProgress(Payloads(Server.TurnEvents(stream))) == Progress(TurnCallbacks(stream), true)
  {
    var body := Payloads(Server.ContentEvents(stream.chunks));
    var ending := if stream.raised.None? then Server.Done else Server.Failed(Server.ClassifyError(stream.raised.value));
    assert Payloads(Server.TurnEvents(stream)) == body + [Payload(ending)];
    ContentProgress(stream.chunks);
    EventsProgressAppend(body, [Payload(ending)]);
    assert EventsProgress([Payload(ending)]) == Then(DecodeEvent(Payload(ending)), EventsProgress([]));
    if stream.raised.Some? {
      Server.ClassifiedMessageNonEmpty(stream.raised.value);
    }
  }

  /**
   * However the server's frames are grouped into reads, as long as no frame is
   * split, the client makes one `onChunk` per non-empty chunk and then exactly
   * one `onComplete`, or one `onError` with the classified message.
   */
  lemma EndToEnd(stream: ChunkStream, status: nat, texts: seq<string>, evs: seq<seq<StreamChunk>>,
                 encode: StreamChunk -> string, parse: string -> Option<StreamChunk>)
    requires IsOk(status)
    requires forall c :: parse(encode(c)) == Some(c)
    requires forall c :: '\n' !in encode(c)
    requires |texts| == |evs|
    requires forall i :: 0 <= i < |texts| ==> texts[i] == Frames(evs[i], encode)
    requires Flatten(evs) == Payloads(Server.TurnEvents(stream))
    ensures SendTrace(Replied(status, Some(Body(texts, None))), parse) == TurnCallbacks(stream)
    ensures OneTerminalAtEnd(TurnCallbacks(stream))
  {
    WholeFramesTrace(status, texts, evs, encode, parse);
    TurnProgress(stream);
    SendTraceShape(Replied(status, Some(Body(texts, None))), parse);
  }
}
