/** The Gemini bridge: an OpenAI-style chat endpoint in front of the Gemini CLI. It
    maps the requested model, flattens the messages into one prompt, runs the CLI and
    answers with a chat completion, streamed as chunks or in one piece. */
module GeminiBridge {
  import opened Wrappers
  import opened Seqs
  import opened Text
  import opened Wire
  import opened Messages
  import GeminiCli

  const DefaultModel := "gemini-2.5-pro"

  /** The model names the bridge knows and the CLI model each one runs. */
  const ModelTable: map<string, string> := map[
    "gemini-2.5-pro" := "gemini-2.5-pro",
    "gemini-2.5-flash" := "gemini-2.5-flash",
    "gemini-2.0-flash" := "gemini-2.0-flash",
    "gemini-3-flash-preview" := "gemini-3-flash-preview",
    "gemini-3-pro-preview" := "gemini-3-pro-preview",
    "gemini-proxy" := "gemini-2.5-pro"
  ]

  /** Characters per streamed content chunk. */
  const StreamChunk: nat := 20

  /** `GEMINI_MODELS.get(model, DEFAULT_MODEL)`. */
  function MapModel(name: string): string {
    if name in ModelTable then ModelTable[name] else DefaultModel
  }

  /** The mapping: every known name but `gemini-proxy` runs itself, `gemini-proxy`
      runs the default model, an unknown name runs the default model; every result is
      itself a known name that maps to itself, so mapping twice changes nothing. */
  lemma MapModelFacts(name: string)
    ensures name in ModelTable && name != "gemini-proxy" ==> MapModel(name) == name
    ensures name == "gemini-proxy" ==> MapModel(name) == DefaultModel
    ensures name !in ModelTable ==> MapModel(name) == DefaultModel
    ensures MapModel(name) in ModelTable && MapModel(MapModel(name)) == MapModel(name)
  {
  }

  /** The CLI models `call_gemini` tries, in order. */
  function Candidates(model: string): seq<string> {
    [MapModel(model), DefaultModel]
  }

  /** `call_gemini(prompt, model)`. */
  method CallGemini(prompt: string, model: string, launch: GeminiCli.Launcher) returns (text: string)
    ensures text == GeminiCli.Answer(Candidates(model), prompt, launch, 0)
  {
    var launched;
    text, launched := GeminiCli.FirstAnswer(Candidates(model), prompt, launch);
  }

  /** What `call_gemini` answers: the mapped model's stripped output when it succeeds;
      the default model's when the first run failed plainly and the second succeeds;
      the timeout or error text as soon as a run times out or raises; otherwise
      "no response". */
  lemma CallGeminiCases(prompt: string, model: string, launch: GeminiCli.Launcher)
    ensures var first := launch(0, MapModel(model), prompt);
      var second := launch(1, DefaultModel, prompt);
      var answer := GeminiCli.Answer(Candidates(model), prompt, launch, 0);
      && (first.Succeeded() ==> answer == Strip(first.stdout))
      && (first.TimedOut? ==> answer == GeminiCli.TimeoutText)
      && (first.Faulted? ==> answer == GeminiCli.ErrorText(first.detail))
      && (GeminiCli.PlainFailure(first) && second.Succeeded() ==> answer == Strip(second.stdout))
      && (GeminiCli.PlainFailure(first) && second.TimedOut? ==> answer == GeminiCli.TimeoutText)
      && (GeminiCli.PlainFailure(first) && second.Faulted? ==> answer == GeminiCli.ErrorText(second.detail))
      && (GeminiCli.PlainFailure(first) && GeminiCli.PlainFailure(second) ==> answer == GeminiCli.NoResponseText)
  {
    GeminiCli.AnswerCases(Candidates(model), prompt, launch);
    var c := Candidates(model);
    assert c[0] == MapModel(model) && c[1] == DefaultModel;
  }

  // ----- extract_prompt -----

  /** The texts of the object items of a content list, `""` for one without `text`;
      items that are not objects are skipped. */
  function ItemTexts(items: seq<Item>): seq<string> {
    if items == [] then []
    else (if items[0].Dict? then [items[0].text.GetOr("")] else []) + ItemTexts(items[1..])
  }

  /** A content value after list flattening, as an f-string shows it. */
  function Shown(c: Content): string {
    match c
    case Str(s) => s
    case List(items) => Join(" ", ItemTexts(items))
    case Other(shown, _) => shown
  }

  /** A non-system message's part: its content when that is (or was flattened to) a
      string, `None` for any other value, which the final join refuses. */
  function Part(c: Content): Option<string> {
    if c.Other? then None else Some(Shown(c))
  }

  function SystemLine(c: Content): string {
    "[System: " + Shown(c) + "]"
  }

  function RoleOf(m: Message): string {
    m.role.GetOr("user")
  }

  function ContentOf(m: Message): Content {
    m.content.GetOr(Str(""))
  }

  /** The system lines, in message order. */
  function SystemLines(ms: seq<Message>): seq<string> {
    if ms == [] then []
    else
      var last := ms[|ms| - 1];
      SystemLines(ms[..|ms| - 1]) + (if RoleOf(last) == "system" then [SystemLine(ContentOf(last))] else [])
  }

  /** The other messages' parts, in message order. */
  function OtherParts(ms: seq<Message>): seq<Option<string>> {
    if ms == [] then []
    else
      var last := ms[|ms| - 1];
      OtherParts(ms[..|ms| - 1]) + (if RoleOf(last) != "system" then [Part(ContentOf(last))] else [])
  }

  /** `xs` back to front. */
  function Reverse<T>(xs: seq<T>): (r: seq<T>)
    ensures |r| == |xs|
    ensures forall i :: 0 <= i < |xs| ==> r[i] == xs[|xs| - 1 - i]
  {
    if xs == [] then [] else [xs[|xs| - 1]] + Reverse(xs[..|xs| - 1])
  }

  function Somes(xs: seq<string>): (r: seq<Option<string>>)
    ensures |r| == |xs| && forall i :: 0 <= i < |xs| ==> r[i] == Some(xs[i])
  {
    seq(|xs|, i requires 0 <= i < |xs| => Some(xs[i]))
  }

  /** The order the parts end up in: the system lines last to first, then the other
      parts in message order. */
  function Arranged(ms: seq<Message>): seq<Option<string>> {
    Somes(Reverse(SystemLines(ms))) + OtherParts(ms)
  }

  /** `"\n".join(parts)`, which raises when a part is not a string. */
  function JoinParts(parts: seq<Option<string>>): Option<string> {
    if forall i :: 0 <= i < |parts| ==> parts[i].Some? then
      Some(Join("\n", seq(|parts|, i requires 0 <= i < |parts| => parts[i].value)))
    else None
  }

  /** The decoded request body. */
  datatype BridgeRequest = BridgeRequest(model: Option<string>, stream: bool,
                                         messages: seq<Message>, prompt: Option<string>)

  /** What `extract_prompt` returns; `None` when it raises. */
  function PromptOf(req: BridgeRequest): Option<string> {
    if req.messages == [] then Some(req.prompt.GetOr(""))
    else JoinParts(Arranged(req.messages))
  }

  /** `extract_prompt(body)`: system messages are put in front with `insert(0, ...)`,
      the others are appended. */
  method ExtractPrompt(req: BridgeRequest) returns (r: Option<string>)
    ensures r == PromptOf(req)
  {
    var messages := req.messages;
    if |messages| == 0 {
      return Some(req.prompt.GetOr(""));
    }
    var parts: seq<Option<string>> := [];
    var i := 0;
    while i < |messages|
      invariant 0 <= i <= |messages|
      invariant parts == Arranged(messages[..i])
    {
      var m := messages[i];
      var role := m.role.GetOr("user");
      var content := m.content.GetOr(Str(""));
      assert messages[..i + 1] == messages[..i] + [m];
      ArrangedSnoc(messages[..i], m);
      if role == "system" {
        parts := [Some(SystemLine(content))] + parts;
      } else {
        parts := parts + [Part(content)];
      }
      i := i + 1;
    }
    assert messages[..i] == messages;
    r := JoinParts(parts);
  }

  /** A system message goes in front of the parts so far, any other message after them. */
  lemma ArrangedSnoc(ms: seq<Message>, m: Message)
    ensures RoleOf(m) == "system" ==> Arranged(ms + [m]) == [Some(SystemLine(ContentOf(m)))] + Arranged(ms)
    ensures RoleOf(m) != "system" ==> Arranged(ms + [m]) == Arranged(ms) + [Part(ContentOf(m))]
  {
    assert (ms + [m])[..|ms|] == ms;
    assert (ms + [m])[|ms|] == m;
    if RoleOf(m) == "system" {
      SystemSnoc(ms, m);
    } else {
      OtherSnoc(ms, m);
    }
  }

  lemma SystemSnoc(ms: seq<Message>, m: Message)
    requires RoleOf(m) == "system"
    requires SystemLines(ms + [m]) == SystemLines(ms) + [SystemLine(ContentOf(m))]
    requires OtherParts(ms + [m]) == OtherParts(ms)
    ensures Arranged(ms + [m]) == [Some(SystemLine(ContentOf(m)))] + Arranged(ms)
  {
    var sys := SystemLines(ms);
    var line := SystemLine(ContentOf(m));
    ReverseSnoc(sys, line);
    assert Somes([line] + Reverse(sys)) == [Some(line)] + Somes(Reverse(sys));
  }

  lemma OtherSnoc(ms: seq<Message>, m: Message)
    requires RoleOf(m) != "system"
    requires SystemLines(ms + [m]) == SystemLines(ms)
    requires OtherParts(ms + [m]) == OtherParts(ms) + [Part(ContentOf(m))]
    ensures Arranged(ms + [m]) == Arranged(ms) + [Part(ContentOf(m))]
  {
  }

  lemma ReverseSnoc<T>(xs: seq<T>, x: T)
    ensures Reverse(xs + [x]) == [x] + Reverse(xs)
  {
    assert (xs + [x])[..|xs|] == xs;
  }

  /** The prompt's parts: the system lines last to first, then the other messages'
      contents in message order; there is one part per message. */
  lemma ArrangedOrder(ms: seq<Message>)
    ensures var sys := SystemLines(ms);
      var rest := OtherParts(ms);
      && |Arranged(ms)| == |ms| == |sys| + |rest|
      && (forall i :: 0 <= i < |sys| ==> Arranged(ms)[i] == Some(sys[|sys| - 1 - i]))
      && (forall i :: 0 <= i < |rest| ==> Arranged(ms)[|sys| + i] == rest[i])
  {
    PartCounts(ms);
    var sys := SystemLines(ms);
    var front := Somes(Reverse(sys));
    assert forall i :: 0 <= i < |sys| ==> Arranged(ms)[i] == front[i];
    assert forall i :: 0 <= i < |OtherParts(ms)| ==> Arranged(ms)[|sys| + i] == OtherParts(ms)[i];
  }

  lemma {:induction false} PartCounts(ms: seq<Message>)
    ensures |SystemLines(ms)| + |OtherParts(ms)| == |ms|
  {
    if ms != [] {
      PartCounts(ms[..|ms| - 1]);
    }
  }

  /** With no system message the parts are the contents in order. */
  lemma ArrangedWithoutSystem(ms: seq<Message>)
    requires forall i :: 0 <= i < |ms| ==> RoleOf(ms[i]) != "system"
    ensures |Arranged(ms)| == |ms|
    ensures forall i :: 0 <= i < |ms| ==> Arranged(ms)[i] == Part(ContentOf(ms[i]))
  {
    NoSystemLines(ms);
  }

  lemma {:induction false} NoSystemLines(ms: seq<Message>)
    requires forall i :: 0 <= i < |ms| ==> RoleOf(ms[i]) != "system"
    ensures SystemLines(ms) == []
    ensures |OtherParts(ms)| == |ms|
    ensures forall i :: 0 <= i < |ms| ==> OtherParts(ms)[i] == Part(ContentOf(ms[i]))
  {
    if ms != [] {
      var init := ms[..|ms| - 1];
      assert forall i :: 0 <= i < |init| ==> init[i] == ms[i];
      NoSystemLines(init);
      var last := ms[|ms| - 1];
      assert RoleOf(last) != "system";
      assert SystemLines(ms) == SystemLines(init);
      assert OtherParts(ms) == OtherParts(init) + [Part(ContentOf(last))];
      forall i | 0 <= i < |init|
        ensures OtherParts(ms)[i] == Part(ContentOf(ms[i]))
      {
        assert OtherParts(ms)[i] == OtherParts(init)[i];
      }
    }
  }

  /** With only system messages the parts are their lines in reverse order. */
  lemma ArrangedAllSystem(ms: seq<Message>)
    requires forall i :: 0 <= i < |ms| ==> RoleOf(ms[i]) == "system"
    ensures |Arranged(ms)| == |ms|
    ensures forall i :: 0 <= i < |ms| ==> Arranged(ms)[i] == Some(SystemLine(ContentOf(ms[|ms| - 1 - i])))
  {
    AllSystemLines(ms);
  }

  lemma {:induction false} AllSystemLines(ms: seq<Message>)
    requires forall i :: 0 <= i < |ms| ==> RoleOf(ms[i]) == "system"
    ensures OtherParts(ms) == []
    ensures |SystemLines(ms)| == |ms|
    ensures forall i :: 0 <= i < |ms| ==> SystemLines(ms)[i] == SystemLine(ContentOf(ms[i]))
  {
    if ms != [] {
      var init := ms[..|ms| - 1];
      assert forall i :: 0 <= i < |init| ==> init[i] == ms[i];
      AllSystemLines(init);
      var last := ms[|ms| - 1];
      assert RoleOf(last) == "system";
      assert OtherParts(ms) == OtherParts(init);
      assert SystemLines(ms) == SystemLines(init) + [SystemLine(ContentOf(last))];
      forall i | 0 <= i < |init|
        ensures SystemLines(ms)[i] == SystemLine(ContentOf(ms[i]))
      {
        assert SystemLines(ms)[i] == SystemLines(init)[i];
      }
    }
  }

  /** The join fails exactly when some non-system message has content that is neither
      a string nor a list. */
  lemma {:induction false} OtherPartsFail(ms: seq<Message>)
    ensures (exists i :: 0 <= i < |OtherParts(ms)| && OtherParts(ms)[i] == None)
      <==> (exists j :: 0 <= j < |ms| && RoleOf(ms[j]) != "system" && ContentOf(ms[j]).Other?)
  {
    if ms != [] {
      var init := ms[..|ms| - 1];
      OtherPartsFail(init);
      assert forall j :: 0 <= j < |init| ==> init[j] == ms[j];
      var last := ms[|ms| - 1];
      if RoleOf(last) != "system" && ContentOf(last).Other? {
        assert OtherParts(ms)[|OtherParts(ms)| - 1] == None;
      }
      if exists j :: 0 <= j < |ms| && RoleOf(ms[j]) != "system" && ContentOf(ms[j]).Other? {
        var j :| 0 <= j < |ms| && RoleOf(ms[j]) != "system" && ContentOf(ms[j]).Other?;
        if j < |init| {
          assert init[j] == ms[j];
          var k :| 0 <= k < |OtherParts(init)| && OtherParts(init)[k] == None;
          assert OtherParts(ms)[k] == None;
        }
      }
    }
  }

  /** `extract_prompt` raises exactly when a non-system message carries content that is
      neither a string nor a list; with no messages it falls back to `prompt`. */
  lemma PromptFails(req: BridgeRequest)
    ensures req.messages == [] ==> PromptOf(req) == Some(req.prompt.GetOr(""))
    ensures req.messages != [] ==> (PromptOf(req) == None <==>
      exists j :: 0 <= j < |req.messages| && RoleOf(req.messages[j]) != "system" && ContentOf(req.messages[j]).Other?)
  {
    var ms := req.messages;
    if ms != [] {
      OtherPartsFail(ms);
      ArrangedMissing(ms);
    }
  }

  /** The arranged parts miss a string exactly where the other messages' parts do. */
  lemma ArrangedMissing(ms: seq<Message>)
    ensures (exists i :: 0 <= i < |Arranged(ms)| && Arranged(ms)[i] == None)
      <==> (exists i :: 0 <= i < |OtherParts(ms)| && OtherParts(ms)[i] == None)
  {
    var n := |SystemLines(ms)|;
    assert |Arranged(ms)| == n + |OtherParts(ms)|;
    if exists i :: 0 <= i < |OtherParts(ms)| && OtherParts(ms)[i] == None {
      var i :| 0 <= i < |OtherParts(ms)| && OtherParts(ms)[i] == None;
      assert Arranged(ms)[n + i] == OtherParts(ms)[i];
    }
    if exists i :: 0 <= i < |Arranged(ms)| && Arranged(ms)[i] == None {
      var i :| 0 <= i < |Arranged(ms)| && Arranged(ms)[i] == None;
      ArrangedAt(ms, i);
    }
  }

  /** The part at position `i`: a system line in front, another message's part after. */
  lemma ArrangedAt(ms: seq<Message>, i: nat)
    requires i < |Arranged(ms)|
    ensures i < |SystemLines(ms)| ==> Arranged(ms)[i].Some?
    ensures i >= |SystemLines(ms)| ==>
      i - |SystemLines(ms)| < |OtherParts(ms)| && Arranged(ms)[i] == OtherParts(ms)[i - |SystemLines(ms)|]
  {
  }

  /** List content becomes the space-join of its object items' texts. */
  lemma ListContent(items: seq<Item>)
    ensures Shown(List(items)) == Join(" ", ItemTexts(items))
    ensures (forall i :: 0 <= i < |items| ==> items[i].NonDict?) ==> Shown(List(items)) == ""
  {
    if forall i :: 0 <= i < |items| ==> items[i].NonDict? {
      ItemTextsSkip(items);
    }
  }

  lemma {:induction false} ItemTextsSkip(items: seq<Item>)
    requires forall i :: 0 <= i < |items| ==> items[i].NonDict?
    ensures ItemTexts(items) == []
  {
    if items != [] {
      ItemTextsSkip(items[1..]);
    }
  }

  // ----- the chat-completion stream -----

  datatype ChunkDelta = RoleDelta(role: string, content: string) | ContentDelta(content: string) | EmptyDelta

  /** One `chat.completion.chunk` with its single choice. */
  datatype Chunk = Chunk(id: string, created: int, model: string, delta: ChunkDelta, finishReason: Option<string>)

  /** One choice of a complete reply. */
  datatype Choice = Choice(index: nat, role: string, content: string, finishReason: string)

  /** A complete `chat.completion`. */
  datatype Completion = Completion(id: string, created: int, model: string, choices: seq<Choice>,
                                   promptTokens: nat, completionTokens: nat, totalTokens: nat)

  /** What the bridge writes: a `data:` event carrying a chunk, the `data: [DONE]`
      sentinel, or a JSON reply body. */
  datatype BridgeFrame = Data(chunk: Chunk) | Done | Body(completion: Completion)

  function ContentFrames(id: string, created: int, model: string, pieces: seq<string>): (fs: seq<BridgeFrame>)
    ensures |fs| == |pieces|
  {
    seq(|pieces|, i requires 0 <= i < |pieces| => Data(Chunk(id, created, model, ContentDelta(pieces[i]), None)))
  }

  /** The whole stream for `text`: the role chunk, the content chunks, the stop chunk
      and the sentinel. */
  function OpenAiStream(id: string, created: int, model: string, text: string): seq<BridgeFrame> {
    [Data(Chunk(id, created, model, RoleDelta("assistant", ""), None))]
    + ContentFrames(id, created, model, Slices(text, StreamChunk))
    + [Data(Chunk(id, created, model, EmptyDelta, Some("stop"))), Done]
  }

  /** `stream_openai_response(wfile, text, model)`, with `id` the chat id drawn and
      `created` the clock reading. */
  method StreamOpenAiResponse(w: Sink<BridgeFrame>, text: string, model: string, id: string, created: int)
    requires w.Valid()
    modifies w
    ensures w.Valid() && w.flushed == |w.written|
    ensures w.written == old(w.written) + OpenAiStream(id, created, model, text)
  {
    w.Write(Data(Chunk(id, created, model, RoleDelta("assistant", ""), None)));
    w.Flush();
    ghost var start := w.written;
    SendPieces(w, text, model, id, created);
    ghost var middle := w.written;
    w.Write(Data(Chunk(id, created, model, EmptyDelta, Some("stop"))));
    w.Write(Done);
    w.Flush();
    assert w.written == middle + [Data(Chunk(id, created, model, EmptyDelta, Some("stop"))), Done];
  }

  /** The chunk loop of `stream_openai_response`: one content chunk per 20-character
      slice, in order. */
  method SendPieces(w: Sink<BridgeFrame>, text: string, model: string, id: string, created: int)
    requires w.Valid() && w.flushed == |w.written|
    modifies w
    ensures w.Valid() && w.flushed == |w.written|
    ensures w.written == old(w.written) + ContentFrames(id, created, model, Slices(text, StreamChunk))
  {
    ghost var sent: seq<string> := [];
    var rest := text;
    while rest != []
      invariant w.Valid() && w.flushed == |w.written|
      invariant Slices(text, StreamChunk) == sent + Slices(rest, StreamChunk)
      invariant w.written == old(w.written) + ContentFrames(id, created, model, sent)
    {
      var n := Min(StreamChunk, |rest|);
      var piece := rest[..n];
      SlicesStep(sent, rest, StreamChunk);
      w.Write(Data(Chunk(id, created, model, ContentDelta(piece), None)));
      w.Flush();
      ContentFramesSnoc(id, created, model, sent, piece);
      sent := sent + [piece];
      rest := rest[n..];
    }
  }

  lemma ContentFramesSnoc(id: string, created: int, model: string, pieces: seq<string>, piece: string)
    ensures ContentFrames(id, created, model, pieces + [piece])
      == ContentFrames(id, created, model, pieces) + [Data(Chunk(id, created, model, ContentDelta(piece), None))]
  {
  }

  /** The stream opens with one role chunk, ends with one stop chunk and the sentinel,
      and in between carries ceil(L/20) content chunks of at most 20 characters that
      glue back to the text; every chunk has the same id, creation time and model. */
  lemma OpenAiStreamShape(id: string, created: int, model: string, text: string)
    ensures var fs := OpenAiStream(id, created, model, text);
      var pieces := Slices(text, StreamChunk);
      && |fs| == (|text| + StreamChunk - 1) / StreamChunk + 3
      && fs[0] == Data(Chunk(id, created, model, RoleDelta("assistant", ""), None))
      && fs[|fs| - 2] == Data(Chunk(id, created, model, EmptyDelta, Some("stop")))
      && fs[|fs| - 1] == Done
      && (forall i :: 0 <= i < |fs| - 1 ==>
            fs[i].Data? && fs[i].chunk.id == id && fs[i].chunk.created == created && fs[i].chunk.model == model)
      && (forall i :: 0 <= i < |fs| - 1 ==> (fs[i].chunk.finishReason == Some("stop") <==> i == |fs| - 2))
      && (forall i :: 0 <= i < |pieces| ==>
            fs[i + 1].chunk.delta == ContentDelta(pieces[i]) && 0 < |pieces[i]| <= StreamChunk)
      && Concat(pieces) == text
  {
    SlicesCount(text, StreamChunk);
    SlicesConcat(text, StreamChunk);
    SlicesShape(text, StreamChunk);
    var fs := OpenAiStream(id, created, model, text);
    var pieces := Slices(text, StreamChunk);
    var cs := ContentFrames(id, created, model, pieces);
    assert |fs| == |pieces| + 3;
    forall i | 0 <= i < |fs| - 1
      ensures fs[i].Data? && fs[i].chunk.id == id && fs[i].chunk.created == created && fs[i].chunk.model == model
      ensures fs[i].chunk.finishReason == Some("stop") <==> i == |fs| - 2
      ensures 1 <= i <= |pieces| ==> fs[i].chunk.delta == ContentDelta(pieces[i - 1])
    {
      if 1 <= i <= |pieces| {
        assert fs[i] == cs[i - 1];
      }
    }
  }

  /** The non-streamed reply: one choice holding the whole text, stopped with `stop`,
      its word count as completion tokens, and the fixed token figures the bridge
      reports; `idTime` and `created` are the two clock readings it takes. */
  function NonStreamCompletion(idTime: nat, created: int, model: string, text: string): (r: Completion)
    ensures |r.choices| == 1 && r.choices[0] == Choice(0, "assistant", text, "stop")
    ensures r.completionTokens == WordCount(text)
  {
    Completion("gemini-" + NatToString(idTime), created, model, [Choice(0, "assistant", text, "stop")],
               10, WordCount(text), 0)
  }

  /** Everything the handler writes for `req`: nothing when the prompt cannot be built
      (the handler raises), otherwise the stream or the reply for the CLI's answer. */
  function Response(req: BridgeRequest, launch: GeminiCli.Launcher, id: string,
                    idTime: nat, created: int): seq<BridgeFrame> {
    var model := req.model.GetOr(DefaultModel);
    match PromptOf(req)
    case None => []
    case Some(prompt) =>
      var text := GeminiCli.Answer(Candidates(model), prompt, launch, 0);
      if req.stream then OpenAiStream(id, created, model, text)
      else [Body(NonStreamCompletion(idTime, created, model, text))]
  }

  /** The handler writes nothing exactly when the prompt cannot be built; otherwise a
      stream ends with the sentinel, and a plain reply is one completion whose single
      choice carries the CLI's answer for the requested model. */
  lemma ResponseCases(req: BridgeRequest, launch: GeminiCli.Launcher, id: string, idTime: nat, created: int)
    ensures Response(req, launch, id, idTime, created) == [] <==> PromptOf(req).None?
    ensures var fs := Response(req, launch, id, idTime, created);
      PromptOf(req).Some? && req.stream ==> |fs| >= 3 && fs[|fs| - 1] == Done && fs[0].Data?
    ensures var fs := Response(req, launch, id, idTime, created);
      PromptOf(req).Some? && !req.stream ==>
        && |fs| == 1 && fs[0].Body?
        && fs[0].completion.model == req.model.GetOr(DefaultModel)
        && fs[0].completion.choices[0].content
           == GeminiCli.Answer(Candidates(req.model.GetOr(DefaultModel)), PromptOf(req).value, launch, 0)
  {
  }

  /** The request handler of the bridge. */
  class BridgeHandler {
    const wfile: Sink<BridgeFrame>

    constructor (w: Sink<BridgeFrame>)
      ensures wfile == w
    {
      wfile := w;
    }

    /** `do_POST` for a decoded request body; `id` is the chat id a stream would use,
        `idTime` and `created` the clock readings. */
    method DoPost(req: BridgeRequest, launch: GeminiCli.Launcher, id: string, idTime: nat, created: int)
      requires wfile.Valid()
      modifies wfile
      ensures wfile.Valid()
      ensures wfile.written == old(wfile.written) + Response(req, launch, id, idTime, created)
    {
      var model := req.model.GetOr(DefaultModel);
      var prompt := ExtractPrompt(req);
      if prompt.None? {
        return;
      }
      var text := CallGemini(prompt.value, model, launch);
      if req.stream {
        StreamOpenAiResponse(wfile, text, model, id, created);
      } else {
        wfile.Write(Body(NonStreamCompletion(idTime, created, model, text)));
      }
    }
  }
}
