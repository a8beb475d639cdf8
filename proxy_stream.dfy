/** The message-block event stream the proxy synthesises for replies that do not come
    straight from Ollama (`start_stream`, `send_chunk`, `end_stream`), and the one-shot
    JSON reply (`non_stream_response`). Events are values; their JSON text is not
    modelled. */
module ProxyStream {
  import opened Seqs
  import opened Text
  import opened Wire
  import opened Outcomes
  import Sse

  /** `input_tokens` reported in every synthetic reply. */
  const InputTokens: nat := 10
  /** The only `stop_reason` the proxy writes. */
  const EndTurn := "end_turn"

  /** One message-block event. */
  datatype Event =
    | MessageStart(id: string, model: string, inputTokens: nat, outputTokens: nat)
    | BlockStart(index: nat)
    | BlockDelta(index: nat, text: string)
    | BlockStop(index: nat)
    | MessageDelta(stopReason: string, outputTokens: nat)
    | MessageStop
  {
    /** The SSE event name the event is written under. */
    function Name(): string {
      match this
      case MessageStart(_, _, _, _) => "message_start"
      case BlockStart(_) => "content_block_start"
      case BlockDelta(_, _) => "content_block_delta"
      case BlockStop(_) => "content_block_stop"
      case MessageDelta(_, _) => "message_delta"
      case MessageStop => "message_stop"
    }
  }

  /** A complete, non-streamed reply message (one text block). */
  datatype Reply = Reply(id: string, model: string, text: string, stopReason: string,
                         inputTokens: nat, outputTokens: nat)

  /** What the proxy writes to its client: an SSE event, bytes forwarded verbatim from
      Ollama, or a JSON reply body. */
  datatype Frame = Sse(event: Event) | Raw(bytes: seq<Byte>) | Json(reply: Reply)

  /** `non_stream_response(model, text)`, with `id` the freshly drawn message id. */
  function NonStreamResponse(id: string, model: string, text: string): (r: Reply)
    ensures r.text == text && r.model == model && r.id == id
    ensures r.stopReason == EndTurn && r.inputTokens == InputTokens
    ensures r.outputTokens == WordCount(text)
  {
    Reply(id, model, text, EndTurn, InputTokens, WordCount(text))
  }

  /** An all-whitespace text (in particular the empty one) counts as zero words. */
  lemma {:induction false} BlankHasNoWords(s: string)
    requires IsBlank(s)
    ensures Split(s) == [] && WordCount(s) == 0
  {
    if s != [] {
      assert IsSpace(s[0]);
      BlankHasNoWords(s[1..]);
    }
  }

  /** The two events `start_stream` writes. */
  function StartEnvelope(id: string, model: string): seq<Event> {
    [MessageStart(id, model, InputTokens, 0), BlockStart(0)]
  }

  /** The three events `end_stream(output_tokens)` writes. */
  function EndEnvelope(outputTokens: nat): seq<Event> {
    [BlockStop(0), MessageDelta(EndTurn, outputTokens), MessageStop]
  }

  /** One `send_chunk` event per text, in order. */
  function Deltas(texts: seq<string>): (es: seq<Event>)
    ensures |es| == |texts|
  {
    seq(|texts|, i requires 0 <= i < |texts| => BlockDelta(0, texts[i]))
  }

  /** A whole synthetic stream: the start envelope, the chunks, the end envelope. */
  function Synthetic(id: string, model: string, texts: seq<string>, outputTokens: nat): seq<Event> {
    StartEnvelope(id, model) + Deltas(texts) + EndEnvelope(outputTokens)
  }

  function AsFrames(es: seq<Event>): (fs: seq<Frame>)
    ensures |fs| == |es|
  {
    seq(|es|, i requires 0 <= i < |es| => Sse(es[i]))
  }

  lemma AsFramesAppend(a: seq<Event>, b: seq<Event>)
    ensures AsFrames(a + b) == AsFrames(a) + AsFrames(b)
  {
  }

  /** The frames of a synthetic stream, envelope by envelope. */
  lemma SyntheticFrames(id: string, model: string, texts: seq<string>, outputTokens: nat)
    ensures AsFrames(Synthetic(id, model, texts, outputTokens))
      == AsFrames(StartEnvelope(id, model)) + AsFrames(Deltas(texts)) + AsFrames(EndEnvelope(outputTokens))
  {
  }

  /** One more chunk adds one more delta frame. */
  lemma DeltaFramesSnoc(texts: seq<string>, text: string)
    ensures AsFrames(Deltas(texts + [text])) == AsFrames(Deltas(texts)) + [Sse(BlockDelta(0, text))]
  {
  }

  /** The message-block protocol a client expects, stated position by position:
      `message_start` first and `content_block_start` second, each exactly once; then
      only `content_block_delta` events; then `content_block_stop`, `message_delta` and
      `message_stop`, each exactly once and in that order; every block event is on
      block 0, and the stream stops with reason `end_turn`. */
  predicate WellFormed(es: seq<Event>) {
    && |es| >= 5
    && (forall i :: 0 <= i < |es| ==> (es[i].Name() == "message_start" <==> i == 0))
    && (forall i :: 0 <= i < |es| ==> (es[i].Name() == "content_block_start" <==> i == 1))
    && (forall i :: 0 <= i < |es| ==> (es[i].Name() == "content_block_delta" <==> 2 <= i < |es| - 3))
    && (forall i :: 0 <= i < |es| ==> (es[i].Name() == "content_block_stop" <==> i == |es| - 3))
    && (forall i :: 0 <= i < |es| ==> (es[i].Name() == "message_delta" <==> i == |es| - 2))
    && (forall i :: 0 <= i < |es| ==> (es[i].Name() == "message_stop" <==> i == |es| - 1))
    && (forall i :: 0 <= i < |es| ==> es[i].BlockStart? || es[i].BlockDelta? || es[i].BlockStop? ==> es[i].index == 0)
    && es[|es| - 2].MessageDelta? && es[|es| - 2].stopReason == EndTurn
  }

  /** The texts of the deltas of a stream, in order. */
  function DeltaTexts(es: seq<Event>): seq<string> {
    if es == [] then []
    else (if es[0].BlockDelta? then [es[0].text] else []) + DeltaTexts(es[1..])
  }

  lemma {:induction false} DeltaTextsAppend(a: seq<Event>, b: seq<Event>)
    ensures DeltaTexts(a + b) == DeltaTexts(a) + DeltaTexts(b)
  {
    if a == [] {
      assert a + b == b;
    } else {
      assert (a + b)[1..] == a[1..] + b;
      DeltaTextsAppend(a[1..], b);
    }
  }

  lemma {:induction false} DeltaTextsNone(es: seq<Event>)
    requires forall i :: 0 <= i < |es| ==> !es[i].BlockDelta?
    ensures DeltaTexts(es) == []
  {
    if es != [] {
      DeltaTextsNone(es[1..]);
    }
  }

  lemma {:induction false} DeltaTextsOfDeltas(texts: seq<string>)
    ensures DeltaTexts(Deltas(texts)) == texts
  {
    if texts != [] {
      assert Deltas(texts)[1..] == Deltas(texts[1..]);
      DeltaTextsOfDeltas(texts[1..]);
    }
  }

  /** The protocol, read off a stream laid out as envelope, deltas, envelope. */
  lemma WellFormedOfLayout(es: seq<Event>)
    requires |es| >= 5 && es[0].MessageStart? && es[1] == BlockStart(0)
    requires forall i :: 2 <= i < |es| - 3 ==> es[i].BlockDelta? && es[i].index == 0
    requires es[|es| - 3] == BlockStop(0) && es[|es| - 1] == MessageStop
    requires es[|es| - 2].MessageDelta? && es[|es| - 2].stopReason == EndTurn
    ensures WellFormed(es)
  {
    forall i | 0 <= i < |es|
      ensures es[i].Name() == "message_start" <==> i == 0
      ensures es[i].Name() == "content_block_start" <==> i == 1
      ensures es[i].Name() == "content_block_delta" <==> 2 <= i < |es| - 3
      ensures es[i].Name() == "content_block_stop" <==> i == |es| - 3
      ensures es[i].Name() == "message_delta" <==> i == |es| - 2
      ensures es[i].Name() == "message_stop" <==> i == |es| - 1
    {
      if i == 0 {
      } else if i == 1 {
      } else if i < |es| - 3 {
        assert es[i].BlockDelta?;
      } else if i == |es| - 3 {
      } else if i == |es| - 2 {
      } else {
        assert es[i] == MessageStop;
      }
    }
  }

  /** Every synthetic stream obeys the protocol, carries exactly the chunk texts it was
      given as its deltas, names the model and id it was started with and reports the
      token count it was ended with. */
  lemma SyntheticWellFormed(id: string, model: string, texts: seq<string>, outputTokens: nat)
    ensures var es := Synthetic(id, model, texts, outputTokens);
      && WellFormed(es)
      && |es| == |texts| + 5
      && DeltaTexts(es) == texts
      && es[0] == MessageStart(id, model, InputTokens, 0)
      && es[|es| - 2].outputTokens == outputTokens
  {
    var es := Synthetic(id, model, texts, outputTokens);
    SyntheticTexts(id, model, texts, outputTokens);
    assert forall i :: 2 <= i < |es| - 3 ==> es[i] == Deltas(texts)[i - 2];
    WellFormedOfLayout(es);
  }

  lemma SyntheticTexts(id: string, model: string, texts: seq<string>, outputTokens: nat)
    ensures DeltaTexts(Synthetic(id, model, texts, outputTokens)) == texts
  {
    var es := Synthetic(id, model, texts, outputTokens);
    assert es == StartEnvelope(id, model) + (Deltas(texts) + EndEnvelope(outputTokens));
    DeltaTextsAppend(StartEnvelope(id, model), Deltas(texts) + EndEnvelope(outputTokens));
    DeltaTextsAppend(Deltas(texts), EndEnvelope(outputTokens));
    DeltaTextsOfDeltas(texts);
    DeltaTextsNone(StartEnvelope(id, model));
    DeltaTextsNone(EndEnvelope(outputTokens));
  }

  // ----- the events on the wire -----

  /** Each event as `sse(event, data)` writes it: its name, then its payload as
      `encode` renders it (`json.dumps`, whose text is not modelled). */
  function OnWire(es: seq<Event>, encode: Event -> string): string {
    Sse.EventStream(seq(|es|, i requires 0 <= i < |es| => (es[i].Name(), encode(es[i]))))
  }

  lemma NameOneLine(e: Event)
    ensures '\n' !in e.Name()
  {
    match e
    case MessageStart(_, _, _, _) =>
    case BlockStart(_) =>
    case BlockDelta(_, _) =>
    case BlockStop(_) =>
    case MessageDelta(_, _) =>
    case MessageStop =>
  }

  /** A client reading the written bytes recovers every event's name and payload, in
      order, as long as the payloads are single lines (as `json.dumps` without an
      indent writes them). */
  lemma ReadBack(es: seq<Event>, encode: Event -> string)
    requires forall e :: '\n' !in encode(e)
    ensures var r := Sse.ReadEvents(OnWire(es, encode));
      && r.Some? && |r.value| == |es|
      && (forall i :: 0 <= i < |es| ==> r.value[i] == (es[i].Name(), encode(es[i])))
  {
    var pairs := seq(|es|, i requires 0 <= i < |es| => (es[i].Name(), encode(es[i])));
    forall i | 0 <= i < |pairs|
      ensures '\n' !in pairs[i].0 && '\n' !in pairs[i].1
    {
      NameOneLine(es[i]);
    }
    Sse.EventStreamRoundTrip(pairs);
  }

  /** What a client reads from a synthetic stream: `message_start`,
      `content_block_start`, one `content_block_delta` per chunk whose payload is that
      chunk's event, then `content_block_stop`, `message_delta` and `message_stop`. */
  lemma SyntheticReadBack(id: string, model: string, texts: seq<string>, outputTokens: nat,
                          encode: Event -> string)
    requires forall e :: '\n' !in encode(e)
    ensures var r := Sse.ReadEvents(OnWire(Synthetic(id, model, texts, outputTokens), encode));
      && r.Some? && |r.value| == |texts| + 5
      && r.value[0] == ("message_start", encode(MessageStart(id, model, InputTokens, 0)))
      && r.value[1].0 == "content_block_start"
      && (forall i :: 0 <= i < |texts| ==> r.value[2 + i] == ("content_block_delta", encode(BlockDelta(0, texts[i]))))
      && r.value[|texts| + 2].0 == "content_block_stop"
      && r.value[|texts| + 3] == ("message_delta", encode(MessageDelta(EndTurn, outputTokens)))
      && r.value[|texts| + 4].0 == "message_stop"
  {
    var es := Synthetic(id, model, texts, outputTokens);
    SyntheticAt(id, model, texts, outputTokens);
    ReadBack(es, encode);
  }

  /** The events of a synthetic stream, position by position. */
  lemma SyntheticAt(id: string, model: string, texts: seq<string>, outputTokens: nat)
    ensures var es := Synthetic(id, model, texts, outputTokens);
      && |es| == |texts| + 5
      && es[0] == MessageStart(id, model, InputTokens, 0) && es[1] == BlockStart(0)
      && (forall i :: 0 <= i < |texts| ==> es[2 + i] == BlockDelta(0, texts[i]))
      && es[|texts| + 2] == BlockStop(0)
      && es[|texts| + 3] == MessageDelta(EndTurn, outputTokens)
      && es[|texts| + 4] == MessageStop
  {
    var es := Synthetic(id, model, texts, outputTokens);
    var ds := Deltas(texts);
    assert es == StartEnvelope(id, model) + ds + EndEnvelope(outputTokens);
    forall i | 0 <= i < |texts|
      ensures es[2 + i] == BlockDelta(0, texts[i])
    {
      assert es[2 + i] == ds[i];
    }
  }

  /** `start_stream(wfile, model)`: writes the start envelope and flushes. */
  method StartStream(w: Sink<Frame>, id: string, model: string) returns (msgId: string)
    requires w.Valid()
    modifies w
    ensures w.Valid() && msgId == id
    ensures w.written == old(w.written) + AsFrames(StartEnvelope(id, model))
    ensures w.flushed == |w.written|
  {
    w.Write(Sse(MessageStart(id, model, InputTokens, 0)));
    w.Write(Sse(BlockStart(0)));
    w.Flush();
    msgId := id;
  }

  /** `send_chunk(wfile, text)`: writes one delta and flushes. */
  method SendChunk(w: Sink<Frame>, text: string)
    requires w.Valid()
    modifies w
    ensures w.Valid()
    ensures w.written == old(w.written) + [Sse(BlockDelta(0, text))]
    ensures w.flushed == |w.written|
  {
    w.Write(Sse(BlockDelta(0, text)));
    w.Flush();
  }

  /** `end_stream(wfile, output_tokens)`: writes the end envelope and flushes. */
  method EndStream(w: Sink<Frame>, outputTokens: nat)
    requires w.Valid()
    modifies w
    ensures w.Valid()
    ensures w.written == old(w.written) + AsFrames(EndEnvelope(outputTokens))
    ensures w.flushed == |w.written|
  {
    w.Write(Sse(BlockStop(0)));
    w.Write(Sse(MessageDelta(EndTurn, outputTokens)));
    w.Write(Sse(MessageStop));
    w.Flush();
  }
}
