/** `app/services/query_response.py`: the relay that turns a streamed
    completion into "stream" events on the chat's response stream, one per
    non-empty content piece, followed by one "ended" event, and returns the
    concatenated text. */
module QueryResponse {

  import opened Wrappers
  import opened RedisUtils

  /** `chunk.choices[0].delta`: no `content` attribute, content None, or a string. */
  datatype Delta = NoContent | NullContent | Content(text: string)

  /** A completion chunk: the deltas of its choices. */
  datatype Chunk = Chunk(choices: seq<Delta>)

  /** What awaiting `tool_func()` gives: it raises, or a stream of chunks
      whose iteration may raise once they are exhausted. */
  datatype Source = ToolRaised | Stream(chunks: seq<Chunk>, raisesAtEnd: bool)

  /** `{"status": ..., "response": ...}` */
  datatype RelayReply = RelayReply(status: string, response: string)

  const Failed := RelayReply("failed", "")

  /** The relay part way through the chunks: the events pushed so far, the
      accumulated `full_response`, and whether a chunk raised. */
  datatype Walk = Walk(events: seq<Dict>, text: string, raised: bool)

  /** The "stream" event for one content piece. */
  function StreamEvent(chatId: string, piece: string): Dict
  {
    Formatter("stream", chatId, Some(piece), None)
  }

  /** The "ended" event. */
  function EndedEvent(chatId: string): Dict
  {
    Formatter("ended", chatId, None, Some("Processing completed"))
  }

  /** One iteration of the loop: a chunk without choices raises IndexError;
      a non-empty content piece is pushed and appended; anything else is
      skipped. */
  function Step(w: Walk, c: Chunk, chatId: string): Walk
  {
    if c.choices == [] then Walk(w.events, w.text, true)
    else
      match c.choices[0]
      case Content(t) =>
        if t != "" then Walk(w.events + [StreamEvent(chatId, t)], w.text + t, false) else w
      case _ => w
  }

  /** The loop over the chunks, stopping at the first one that raises. */
  function WalkChunks(cs: seq<Chunk>, chatId: string): Walk
  {
    if cs == [] then Walk([], "", false)
    else
      var w := WalkChunks(cs[..|cs| - 1], chatId);
      if w.raised then w else Step(w, cs[|cs| - 1], chatId)
  }

  /** Every event `handle_response_stream` pushes, in order. */
  function RelayEvents(source: Source, chatId: string): seq<Dict>
  {
    match source
    case ToolRaised => []
    case Stream(cs, raisesAtEnd) =>
      var w := WalkChunks(cs, chatId);
      if w.raised || raisesAtEnd then w.events else w.events + [EndedEvent(chatId)]
  }

  /** What `handle_response_stream` returns. */
  function RelayResult(source: Source, chatId: string): RelayReply
  {
    match source
    case ToolRaised => Failed
    case Stream(cs, raisesAtEnd) =>
      var w := WalkChunks(cs, chatId);
      if w.raised || raisesAtEnd then Failed else RelayReply("success", w.text)
  }

  /** Once a chunk has raised, later chunks change nothing. */
  lemma {:induction false} WalkRaisedStays(cs: seq<Chunk>, i: nat, chatId: string)
    requires i <= |cs| && WalkChunks(cs[..i], chatId).raised
    ensures WalkChunks(cs, chatId) == WalkChunks(cs[..i], chatId)
    decreases |cs| - i
  {
    if i < |cs| {
      assert cs[..i + 1][..i] == cs[..i];
      WalkRaisedStays(cs, i + 1, chatId);
    } else {
      assert cs[..i] == cs;
    }
  }

  /** `handle_response_stream`: never raises; pushes the events of
      `RelayEvents`, in order, through `formatter`. */
  method HandleResponseStream(source: Source, chatId: string, store: RedisStore) returns (reply: RelayReply)
    modifies store
    ensures reply == RelayResult(source, chatId)
    ensures store.up == old(store.up)
    ensures store.streams == PushedAll(old(store.streams), store.prefix, store.up, RelayEvents(source, chatId))
  {
    if source.ToolRaised? {
      return Failed;
    }
    var chunks := source.chunks;
    var fullResponse := "";
    ghost var events: seq<Dict> := [];
    for i := 0 to |chunks|
      invariant WalkChunks(chunks[..i], chatId) == Walk(events, fullResponse, false)
      invariant store.up == old(store.up)
      invariant store.streams == PushedAll(old(store.streams), store.prefix, store.up, events)
    {
      assert chunks[..i + 1][..i] == chunks[..i];
      var chunk := chunks[i];
      if chunk.choices == [] {
        WalkRaisedStays(chunks, i + 1, chatId);
        assert chunks[..|chunks|] == chunks;
        return Failed;
      }
      match chunk.choices[0]
      case Content(piece) =>
        if piece != "" {
          store.Emit("stream", chatId, Some(piece), None);
          PushedAllSnoc(old(store.streams), store.prefix, store.up, events, StreamEvent(chatId, piece));
          events := events + [StreamEvent(chatId, piece)];
          fullResponse := fullResponse + piece;
        }
      case _ =>
    }
    assert chunks[..|chunks|] == chunks;
    if source.raisesAtEnd {
      return Failed;
    }
    store.Emit("ended", chatId, None, Some("Processing completed"));
    PushedAllSnoc(old(store.streams), store.prefix, store.up, events, EndedEvent(chatId));
    return RelayReply("success", fullResponse);
  }

  // ---------------------------------------------------------------------------
  // What the events say

  /** The "type" of an event, "" when it has none. */
  function TypeOf(e: Dict): string
  {
    var m := DictMap(e);
    if "type" in m then m["type"] else ""
  }

  /** The number of events of a type. */
  function CountType(events: seq<Dict>, kind: string): nat
  {
    if events == [] then 0
    else CountType(events[..|events| - 1], kind) + if TypeOf(events[|events| - 1]) == kind then 1 else 0
  }

  /** The concatenated "data" of the "stream" events, in order. */
  function StreamData(events: seq<Dict>): string
  {
    if events == [] then ""
    else
      var m := DictMap(events[|events| - 1]);
      StreamData(events[..|events| - 1]) + if TypeOf(events[|events| - 1]) == "stream" && "data" in m then m["data"] else ""
  }

  lemma EventFields(chatId: string, piece: string)
    ensures TypeOf(StreamEvent(chatId, piece)) == "stream"
    ensures "data" in DictMap(StreamEvent(chatId, piece)) && DictMap(StreamEvent(chatId, piece))["data"] == piece
    ensures "chat_id" in DictMap(StreamEvent(chatId, piece)) && DictMap(StreamEvent(chatId, piece))["chat_id"] == chatId
    ensures TypeOf(EndedEvent(chatId)) == "ended"
    ensures "status" in DictMap(EndedEvent(chatId)) && DictMap(EndedEvent(chatId))["status"] == "Processing completed"
    ensures "chat_id" in DictMap(EndedEvent(chatId)) && DictMap(EndedEvent(chatId))["chat_id"] == chatId
  {
    FormatterFields("stream", chatId, Some(piece), None);
    FormatterFields("ended", chatId, None, Some("Processing completed"));
  }

  /** The pieces the chunks carry that get pushed: the non-empty contents, up
      to the first chunk that raises. */
  function Pieces(cs: seq<Chunk>): seq<string>
  {
    if cs == [] then []
    else
      var c := cs[|cs| - 1];
      Pieces(cs[..|cs| - 1]) + if c.choices != [] && c.choices[0].Content? && c.choices[0].text != "" then [c.choices[0].text] else []
  }

  function Concat(ps: seq<string>): string
  {
    if ps == [] then "" else Concat(ps[..|ps| - 1]) + ps[|ps| - 1]
  }

  /** Without a raising chunk, each non-empty content piece is pushed as exactly
      one "stream" event, in order, and `full_response` is their concatenation;
      skipped chunks push nothing and add nothing. */
  lemma {:induction false} WalkPushesPieces(cs: seq<Chunk>, chatId: string)
    requires forall i | 0 <= i < |cs| :: cs[i].choices != []
    ensures var w := WalkChunks(cs, chatId);
      && !w.raised
      && |w.events| == |Pieces(cs)|
      && (forall i | 0 <= i < |w.events| :: w.events[i] == StreamEvent(chatId, Pieces(cs)[i]))
      && w.text == Concat(Pieces(cs))
  {
    if cs != [] {
      var init := cs[..|cs| - 1];
      WalkPushesPieces(init, chatId);
      var c := cs[|cs| - 1];
      if c.choices[0].Content? && c.choices[0].text != "" {
        var ps := Pieces(cs);
        assert ps == Pieces(init) + [c.choices[0].text];
        assert ps[..|ps| - 1] == Pieces(init);
        assert Concat(ps) == Concat(Pieces(init)) + c.choices[0].text;
      } else {
        assert WalkChunks(cs, chatId) == WalkChunks(init, chatId);
        assert Pieces(cs) == Pieces(init) + [];
        assert Pieces(cs) == Pieces(init);
      }
    }
  }

  /** The data of the pushed "stream" events concatenates to `full_response`. */
  lemma {:induction false} WalkStreamData(cs: seq<Chunk>, chatId: string)
    ensures StreamData(WalkChunks(cs, chatId).events) == WalkChunks(cs, chatId).text
  {
    if cs != [] {
      var init := cs[..|cs| - 1];
      WalkStreamData(init, chatId);
      var w := WalkChunks(init, chatId);
      var c := cs[|cs| - 1];
      if !w.raised && c.choices != [] && c.choices[0].Content? && c.choices[0].text != "" {
        var e := StreamEvent(chatId, c.choices[0].text);
        EventFields(chatId, c.choices[0].text);
        var es := w.events + [e];
        assert es[..|es| - 1] == w.events && es[|es| - 1] == e;
        assert StreamData(es) == StreamData(w.events) + c.choices[0].text;
      } else {
        assert WalkChunks(cs, chatId).events == w.events;
      }
    }
  }

  /** The loop pushes only "stream" events. */
  lemma {:induction false} WalkCounts(cs: seq<Chunk>, chatId: string)
    ensures CountType(WalkChunks(cs, chatId).events, "ended") == 0
    ensures CountType(WalkChunks(cs, chatId).events, "error") == 0
  {
    if cs != [] {
      var init := cs[..|cs| - 1];
      WalkCounts(init, chatId);
      var w := WalkChunks(init, chatId);
      var c := cs[|cs| - 1];
      if !w.raised && c.choices != [] && c.choices[0].Content? && c.choices[0].text != "" {
        var e := StreamEvent(chatId, c.choices[0].text);
        EventFields(chatId, c.choices[0].text);
        assert WalkChunks(cs, chatId).events == w.events + [e];
        CountTypeSnoc(w.events, e, "ended");
        CountTypeSnoc(w.events, e, "error");
      } else {
        assert WalkChunks(cs, chatId).events == w.events;
      }
    }
  }

  lemma CountTypeSnoc(es: seq<Dict>, e: Dict, kind: string)
    ensures CountType(es + [e], kind) == CountType(es, kind) + if TypeOf(e) == kind then 1 else 0
  {
    var s := es + [e];
    assert s[..|s| - 1] == es;
  }

  /** On success the response is the concatenated data of the stream events. */
  lemma RelayResponseIsStreamData(source: Source, chatId: string)
    ensures RelayResult(source, chatId).status == "success" ==>
      RelayResult(source, chatId).response == StreamData(RelayEvents(source, chatId))
  {
    if source.Stream? {
      var w := WalkChunks(source.chunks, chatId);
      WalkStreamData(source.chunks, chatId);
      if !w.raised && !source.raisesAtEnd {
        EventFields(chatId, "");
        assert (w.events + [EndedEvent(chatId)])[..|w.events|] == w.events;
      }
    }
  }

  /** A successful relay ends with exactly one "ended" event, after all stream
      events; a failed one pushes none; no relay pushes an "error" event. */
  lemma RelayEndsOnce(source: Source, chatId: string)
    ensures var events := RelayEvents(source, chatId);
      && CountType(events, "error") == 0
      && (RelayResult(source, chatId).status == "success" ==>
            CountType(events, "ended") == 1 && TypeOf(events[|events| - 1]) == "ended")
      && (RelayResult(source, chatId).status != "success" ==>
            CountType(events, "ended") == 0 && RelayResult(source, chatId).response == "")
  {
    if source.Stream? {
      var w := WalkChunks(source.chunks, chatId);
      WalkCounts(source.chunks, chatId);
      if !w.raised && !source.raisesAtEnd {
        EventFields(chatId, "");
        assert "ended" != "error";
        CountTypeSnoc(w.events, EndedEvent(chatId), "ended");
        CountTypeSnoc(w.events, EndedEvent(chatId), "error");
      }
    }
  }

  /** When chunk `k` is the first without choices, the relay fails, but the
      events of the chunks before it stay pushed. */
  lemma FailureKeepsEarlierEvents(cs: seq<Chunk>, raisesAtEnd: bool, k: nat, chatId: string)
    requires k < |cs| && cs[k].choices == [] && forall i | 0 <= i < k :: cs[i].choices != []
    ensures RelayResult(Stream(cs, raisesAtEnd), chatId) == Failed
    ensures RelayEvents(Stream(cs, raisesAtEnd), chatId) == WalkChunks(cs[..k], chatId).events
  {
    WalkPushesPieces(cs[..k], chatId);
    assert cs[..k + 1][..k] == cs[..k];
    WalkRaisedStays(cs, k + 1, chatId);
  }

  /** Every event carries the chat id, so all of them land on that chat's
      response stream. */
  lemma {:induction false} RelayEventsOneChat(source: Source, chatId: string)
    ensures forall i | 0 <= i < |RelayEvents(source, chatId)| ::
      "chat_id" in DictMap(RelayEvents(source, chatId)[i]) && DictMap(RelayEvents(source, chatId)[i])["chat_id"] == chatId
  {
    if source.Stream? {
      var w := WalkChunks(source.chunks, chatId);
      WalkOneChat(source.chunks, chatId);
      EventFields(chatId, "");
      var es := w.events + [EndedEvent(chatId)];
      assert forall i | 0 <= i < |w.events| :: es[i] == w.events[i];
    }
  }

  lemma {:induction false} WalkOneChat(cs: seq<Chunk>, chatId: string)
    ensures forall i | 0 <= i < |WalkChunks(cs, chatId).events| ::
      "chat_id" in DictMap(WalkChunks(cs, chatId).events[i]) && DictMap(WalkChunks(cs, chatId).events[i])["chat_id"] == chatId
  {
    if cs != [] {
      var init := cs[..|cs| - 1];
      WalkOneChat(init, chatId);
      var w := WalkChunks(init, chatId);
      var c := cs[|cs| - 1];
      if !w.raised && c.choices != [] && c.choices[0].Content? && c.choices[0].text != "" {
        EventFields(chatId, c.choices[0].text);
        var es := w.events + [StreamEvent(chatId, c.choices[0].text)];
        assert forall i | 0 <= i < |w.events| :: es[i] == w.events[i];
      }
    }
  }

  /** The relay's effect on Redis: when the server is up, the chat's response
      stream grows by exactly the encoded events, in order; nothing else changes. */
  lemma RelayStoreEffect(streams: map<string, seq<seq<string>>>, prefix: string, up: bool, source: Source, chatId: string)
    ensures forall n :: (Log(PushedAll(streams, prefix, up, RelayEvents(source, chatId)), n)
      == if up && n == StreamName(prefix, chatId) then Log(streams, n) + Encoded(RelayEvents(source, chatId)) else Log(streams, n))
  {
    RelayEventsOneChat(source, chatId);
    PushedAllOneChat(streams, prefix, up, chatId, RelayEvents(source, chatId));
  }
}
