/** The message-block proxy: which tier a request goes to, what each tier's route
    writes back, and the request handler that ties them together. */
module ProxyRoutes {
  import opened Wrappers
  import opened Seqs
  import opened Text
  import opened Outcomes
  import opened Wire
  import opened Messages
  import opened ProxyPrompt
  import opened ProxyStream
  import GeminiCli

  const T1Model := "qwen3-coder:480b-cloud"
  const T1Label := "qwen3-coder-480b"
  const T2Model := "gemini-2.5-flash"
  const T3Model := "claude-sonnet-4-6"
  /** The model a request names when it names none. */
  const DefaultModel := "claude-sonnet-4-6"

  const GeminiModels: set<string> := {
    "gemini-2.5-pro", "gemini-2.5-flash", "gemini-2.0-flash",
    "gemini-3-flash-preview", "gemini-3-pro-preview", "gemini-proxy"
  }
  const ClaudeRealModels: set<string> := {
    "claude-real", "claude-account", "claude-opus-4-6", "claude-opus"
  }

  /** Characters per synthetic chunk of a Gemini answer. */
  const GeminiChunk: nat := 30
  /** Bytes per read of the Ollama passthrough. */
  const ReadSize: nat := 4096

  /** Where a request was sent, as the access log names it. */
  datatype Tier = LoopGuard | T3Claude | T2Gemini | T1Qwen {
    function Label(): string {
      match this
      case LoopGuard => "LoopGuard"
      case T3Claude => "T3-Claude"
      case T2Gemini => "T2-Gemini"
      case T1Qwen => "T1-Qwen"
    }
  }

  /** The tier a model name selects. */
  function Classify(model: string): Tier {
    if model in ClaudeRealModels then T3Claude
    else if model in GeminiModels then T2Gemini
    else T1Qwen
  }

  /** Routing by name is exclusive: the two named sets share no model, so a model of
      either set goes to its own tier whatever order the tests are made in, and every
      other name goes to T1. */
  lemma ClassifyExclusive(model: string)
    ensures GeminiModels * ClaudeRealModels == {}
    ensures Classify(model) == T3Claude <==> model in ClaudeRealModels
    ensures Classify(model) == T2Gemini <==> model in GeminiModels
    ensures Classify(model) == T1Qwen <==> model !in GeminiModels && model !in ClaudeRealModels
    ensures Classify(model) != LoopGuard
  {
    assert GeminiModels * ClaudeRealModels == {} by {
      forall m | m in GeminiModels
        ensures m !in ClaudeRealModels
      {
        assert m[0] == 'g';
      }
    }
  }

  // ----- T2: Gemini CLI -----

  /** The models `call_gemini_cli` tries, in order. */
  function CliCandidates(): seq<string> {
    [T2Model, "gemini-2.5-flash"]
  }

  /** `call_gemini_cli(prompt)`. */
  method CallGeminiCli(prompt: string, launch: GeminiCli.Launcher) returns (text: string)
    ensures text == GeminiCli.Answer(CliCandidates(), prompt, launch, 0)
  {
    var launched;
    text, launched := GeminiCli.FirstAnswer(CliCandidates(), prompt, launch);
  }

  /** The answer `route_gemini` relays for a request. */
  function GeminiText(messages: seq<Message>, system: Content, launch: GeminiCli.Launcher): string {
    GeminiCli.Answer(CliCandidates(), MessagesToPrompt(messages, system), launch, 0)
  }

  /** `route_gemini(wfile, body, True, label)`: the answer is relayed as a synthetic
      stream of 30-character chunks, with the word count as output tokens. */
  method RouteGeminiStream(w: Sink<Frame>, messages: seq<Message>, system: Content,
                           launch: GeminiCli.Launcher, modelLabel: string, id: string)
    requires w.Valid()
    modifies w
    ensures w.Valid() && w.flushed == |w.written|
    ensures var text := GeminiText(messages, system, launch);
      w.written == old(w.written) + AsFrames(Synthetic(id, modelLabel, Slices(text, GeminiChunk), WordCount(text)))
  {
    var prompt := MessagesToPrompt(messages, system);
    var text := CallGeminiCli(prompt, launch);
    var _ := StartStream(w, id, modelLabel);
    SendSlices(w, text);
    EndStream(w, WordCount(text));
    SyntheticFrames(id, modelLabel, Slices(text, GeminiChunk), WordCount(text));
  }

  /** The chunk loop of `route_gemini`: one delta per 30-character slice, in order. */
  method SendSlices(w: Sink<Frame>, text: string)
    requires w.Valid() && w.flushed == |w.written|
    modifies w
    ensures w.Valid() && w.flushed == |w.written|
    ensures w.written == old(w.written) + AsFrames(Deltas(Slices(text, GeminiChunk)))
  {
    ghost var sent: seq<string> := [];
    var rest := text;
    while rest != []
      invariant w.Valid() && w.flushed == |w.written|
      invariant Slices(text, GeminiChunk) == sent + Slices(rest, GeminiChunk)
      invariant w.written == old(w.written) + AsFrames(Deltas(sent))
    {
      var n := Min(GeminiChunk, |rest|);
      var piece := rest[..n];
      SlicesStep(sent, rest, GeminiChunk);
      SendChunk(w, piece);
      DeltaFramesSnoc(sent, piece);
      sent := sent + [piece];
      rest := rest[n..];
    }
  }

  /** What a client of a streamed Gemini answer sees: a well-formed stream with
      ceil(L/30) deltas, each 30 characters long except possibly the last, which glue
      back to the answer, and an output token count equal to its word count. */
  lemma GeminiStreamShape(id: string, modelLabel: string, text: string)
    ensures var es := Synthetic(id, modelLabel, Slices(text, GeminiChunk), WordCount(text));
      && WellFormed(es)
      && |DeltaTexts(es)| == (|text| + GeminiChunk - 1) / GeminiChunk
      && Concat(DeltaTexts(es)) == text
      && (forall i :: 0 <= i < |DeltaTexts(es)| ==> 0 < |DeltaTexts(es)[i]| <= GeminiChunk)
      && (forall i :: 0 <= i < |DeltaTexts(es)| - 1 ==> |DeltaTexts(es)[i]| == GeminiChunk)
      && es[|es| - 2].outputTokens == WordCount(text)
  {
    SyntheticWellFormed(id, modelLabel, Slices(text, GeminiChunk), WordCount(text));
    SlicesCount(text, GeminiChunk);
    SlicesConcat(text, GeminiChunk);
    SlicesShape(text, GeminiChunk);
  }

  // ----- T3: Claude CLI -----

  /** The outcome of launching `claude -p PROMPT` with piped output: it exited with a
      code after writing its output; or the launch itself raised; or something raised
      after the lines of `partial` were read (decoding the output, waiting for the
      process, reading its error output). */
  datatype Spawn =
    | Exited(code: int, stdout: string, stderr: string)
    | SpawnFailed(detail: string)
    | Broke(partial: string, detail: string)

  function ClaudeErrorNote(err: string): string {
    "\n[Claude error: " + err + "]"
  }

  function ClaudeLaunchNote(detail: string): string {
    "\n[Claude launch error: " + detail + "]"
  }

  /** The chunks a streamed Claude reply carries: every output line as it arrives,
      then an error note when the exit code is not 0; or only a launch-error note; or
      the lines read before a later exception, then the launch-error note. */
  function ClaudeChunks(sp: Spawn): seq<string> {
    match sp
    case Exited(code, out, err) => Lines(out) + (if code != 0 then [ClaudeErrorNote(Strip(err))] else [])
    case SpawnFailed(detail) => [ClaudeLaunchNote(detail)]
    case Broke(partial, detail) => Lines(partial) + [ClaudeLaunchNote(detail)]
  }

  /** The output tokens reported: the whitespace word count of the standard output
      relayed before the stream was closed. */
  function ClaudeTokens(sp: Spawn): nat {
    match sp
    case Exited(_, out, _) => WordCount(out)
    case SpawnFailed(_) => 0
    case Broke(partial, _) => WordCount(partial)
  }

  /** `route_claude_real(wfile, body, True, ...)`: relays the output line by line and
      counts words per line. */
  method RouteClaudeStream(w: Sink<Frame>, messages: seq<Message>, system: Content,
                           spawn: string -> Spawn, id: string)
    requires w.Valid()
    modifies w
    ensures w.Valid() && w.flushed == |w.written|
    ensures var sp := spawn(MessagesToPrompt(messages, system));
      w.written == old(w.written) + AsFrames(Synthetic(id, T3Model, ClaudeChunks(sp), ClaudeTokens(sp)))
  {
    var prompt := MessagesToPrompt(messages, system);
    RelayClaude(w, spawn(prompt), id);
  }

  /** The streamed reply for the outcome of the Claude process. */
  method RelayClaude(w: Sink<Frame>, sp: Spawn, id: string)
    requires w.Valid()
    modifies w
    ensures w.Valid() && w.flushed == |w.written|
    ensures w.written == old(w.written) + AsFrames(Synthetic(id, T3Model, ClaudeChunks(sp), ClaudeTokens(sp)))
  {
    var _ := StartStream(w, id, T3Model);
    var tokens := RelayOutput(w, sp);
    EndStream(w, tokens);
    SyntheticFrames(id, T3Model, ClaudeChunks(sp), tokens);
    Assoc4(old(w.written), AsFrames(StartEnvelope(id, T3Model)), AsFrames(Deltas(ClaudeChunks(sp))), AsFrames(EndEnvelope(tokens)));
  }

  /** Between the envelopes: the output lines, then the error note if the exit code is
      not 0; or only the launch-error note; or the lines read before the exception,
      then the launch-error note. */
  method RelayOutput(w: Sink<Frame>, sp: Spawn) returns (tokens: nat)
    requires w.Valid() && w.flushed == |w.written|
    modifies w
    ensures w.Valid() && w.flushed == |w.written|
    ensures w.written == old(w.written) + AsFrames(Deltas(ClaudeChunks(sp)))
    ensures tokens == ClaudeTokens(sp)
  {
    if sp.SpawnFailed? {
      tokens := 0;
      SendChunk(w, ClaudeLaunchNote(sp.detail));
      DeltaFramesSnoc([], ClaudeLaunchNote(sp.detail));
    } else if sp.Broke? {
      var lines := Lines(sp.partial);
      tokens := RelayLines(w, lines);
      LineWordsTotal(sp.partial);
      var note := ClaudeLaunchNote(sp.detail);
      SendChunk(w, note);
      DeltaFramesSnoc(lines, note);
    } else {
      var lines := Lines(sp.stdout);
      tokens := RelayLines(w, lines);
      LineWordsTotal(sp.stdout);
      if sp.code != 0 {
        var note := ClaudeErrorNote(Strip(sp.stderr));
        SendChunk(w, note);
        DeltaFramesSnoc(lines, note);
      }
    }
  }

  lemma Assoc4<T>(a: seq<T>, b: seq<T>, c: seq<T>, d: seq<T>)
    ensures a + b + c + d == a + (b + c + d)
  {
  }

  /** `for line in proc.stdout`: each line is sent as a chunk as it arrives, and its
      words are added to the token count. */
  method RelayLines(w: Sink<Frame>, lines: seq<string>) returns (tokens: nat)
    requires w.Valid() && w.flushed == |w.written|
    modifies w
    ensures w.Valid() && w.flushed == |w.written|
    ensures w.written == old(w.written) + AsFrames(Deltas(lines))
    ensures tokens == LineWords(lines)
  {
    tokens := 0;
    var j := 0;
    while j < |lines|
      invariant 0 <= j <= |lines| && w.Valid() && w.flushed == |w.written|
      invariant tokens == LineWords(lines[..j])
      invariant w.written == old(w.written) + AsFrames(Deltas(lines[..j]))
    {
      SendChunk(w, lines[j]);
      assert lines[..j + 1] == lines[..j] + [lines[j]];
      LineWordsAppend(lines[..j], [lines[j]]);
      assert LineWords([lines[j]]) == WordCount(lines[j]) + LineWords([]);
      DeltaFramesSnoc(lines[..j], lines[j]);
      tokens := tokens + WordCount(lines[j]);
      j := j + 1;
    }
    assert lines[..j] == lines;
  }

  /** A streamed Claude reply is well formed; its line chunks glue back to the process
      output, each line but the last ending in a newline, and the error note is there
      exactly when the exit code is not 0. */
  lemma ClaudeStreamShape(id: string, sp: Spawn)
    ensures WellFormed(Synthetic(id, T3Model, ClaudeChunks(sp), ClaudeTokens(sp)))
    ensures sp.Exited? ==> var lines := Lines(sp.stdout);
      && ClaudeChunks(sp)[..|lines|] == lines
      && Concat(lines) == sp.stdout
      && (forall i :: 0 <= i < |lines| - 1 ==> lines[i][|lines[i]| - 1] == '\n')
      && (|ClaudeChunks(sp)| == |lines| + 1 <==> sp.code != 0)
    ensures sp.SpawnFailed? ==> ClaudeChunks(sp) == [ClaudeLaunchNote(sp.detail)] && ClaudeTokens(sp) == 0
    ensures sp.Broke? ==> var lines := Lines(sp.partial);
      && ClaudeChunks(sp) == lines + [ClaudeLaunchNote(sp.detail)]
      && Concat(lines) == sp.partial
      && ClaudeTokens(sp) == LineWords(lines)
  {
    SyntheticWellFormed(id, T3Model, ClaudeChunks(sp), ClaudeTokens(sp));
    if sp.Exited? {
      LinesShape(sp.stdout);
    } else if sp.Broke? {
      LinesShape(sp.partial);
      LineWordsTotal(sp.partial);
    }
  }

  /** `route_claude_real(wfile, body, False, ...)` for the outcome of the one-shot run. */
  function ClaudeText(o: RunOutcome): string {
    match o
    case Completed(code, out, err) => if code == 0 then Strip(out) else "[Claude error: " + Strip(err) + "]"
    case TimedOut(detail) => "[Claude error: " + detail + "]"
    case Faulted(detail) => "[Claude error: " + detail + "]"
  }

  /** A clean exit hands back the trimmed output; every other outcome becomes a
      bracketed `[Claude error: ...]` note, so a failure is never empty. */
  lemma ClaudeTextCases(o: RunOutcome)
    ensures o.Completed? && o.code == 0 ==> ClaudeText(o) == Strip(o.stdout)
    ensures !(o.Completed? && o.code == 0) ==>
      && IsPrefix("[Claude error: ", ClaudeText(o))
      && ClaudeText(o)[|ClaudeText(o)| - 1] == ']'
    ensures o.Completed? && o.code != 0 ==> ClaudeText(o)[15..|ClaudeText(o)| - 1] == Strip(o.stderr)
    ensures !o.Completed? ==> ClaudeText(o)[15..|ClaudeText(o)| - 1] == o.detail
  {
  }

  // ----- T1: Ollama passthrough -----

  /** What Ollama's `/v1/messages` endpoint does with the forwarded request: it
      answers with `body` (reading may break off with an error after `body`), or
      answers with an HTTP error status, or cannot be reached at all. */
  datatype HttpOutcome =
    | Answered(body: seq<Byte>, broken: Option<string>)
    | HttpError(code: nat, errBody: string)
    | Unreachable(detail: string)

  function QwenStatusNote(code: nat, body: string): string {
    "[Qwen3 error " + NatToString(code) + ": " + body + "]"
  }

  function QwenErrorNote(detail: string): string {
    "[Qwen3 error: " + detail + "]"
  }

  function RawFrames(chunks: seq<seq<Byte>>): (fs: seq<Frame>)
    ensures |fs| == |chunks|
  {
    seq(|chunks|, i requires 0 <= i < |chunks| => Raw(chunks[i]))
  }

  /** The bytes forwarded by a sequence of frames. */
  function Forwarded(fs: seq<Frame>): seq<Byte> {
    if fs == [] then [] else (if fs[0].Raw? then fs[0].bytes else []) + Forwarded(fs[1..])
  }

  /** The synthetic error note for a failed Ollama call, if any. */
  function OllamaFailure(o: HttpOutcome): Option<string> {
    match o
    case Answered(_, broken) => if broken.Some? then Some(QwenErrorNote(broken.value)) else None
    case HttpError(code, body) => Some(QwenStatusNote(code, body))
    case Unreachable(detail) => Some(QwenErrorNote(detail))
  }

  /** What `route_ollama_native(wfile, body, True)` writes: the received bytes in reads
      of at most 4096, then, when the call failed, a one-chunk error stream under the
      T1 modelLabel with one output token. */
  function OllamaStreamFrames(o: HttpOutcome, id: string): seq<Frame> {
    (if o.Answered? then RawFrames(Slices(o.body, ReadSize)) else [])
    + (match OllamaFailure(o)
       case Some(note) => AsFrames(Synthetic(id, T1Label, [note], 1))
       case None => [])
  }

  /** What `route_ollama_native(None, body, False)` returns: the received bytes as they
      are, or a synthetic reply carrying the error note. */
  function OllamaReply(o: HttpOutcome, id: string): Frame {
    match OllamaFailure(o)
    case Some(note) => Json(NonStreamResponse(id, T1Label, note))
    case None => Raw(o.body)
  }

  /** `route_ollama_native(wfile, body, True)`. */
  method RouteOllamaStream(w: Sink<Frame>, o: HttpOutcome, id: string)
    requires w.Valid()
    modifies w
    ensures w.Valid() && (w.written != old(w.written) ==> w.flushed == |w.written|)
    ensures w.written == old(w.written) + OllamaStreamFrames(o, id)
  {
    if o.Answered? {
      Passthrough(w, o.body);
    }
    assert w.written == old(w.written) + (if o.Answered? then RawFrames(Slices(o.body, ReadSize)) else []);
    var failure := OllamaFailure(o);
    if failure.Some? {
      SendNote(w, id, failure.value);
    }
  }

  /** The error stream `route_ollama_native` writes after a failed call: the note as a
      single chunk, counted as one output token. */
  method SendNote(w: Sink<Frame>, id: string, note: string)
    requires w.Valid()
    modifies w
    ensures w.Valid() && w.flushed == |w.written|
    ensures w.written == old(w.written) + AsFrames(Synthetic(id, T1Label, [note], 1))
  {
    var _ := StartStream(w, id, T1Label);
    SendChunk(w, note);
    DeltaFramesSnoc([], note);
    EndStream(w, 1);
    SyntheticFrames(id, T1Label, [note], 1);
    Assoc4(old(w.written), AsFrames(StartEnvelope(id, T1Label)), AsFrames(Deltas([note])), AsFrames(EndEnvelope(1)));
  }

  /** The read loop: each read of at most 4096 bytes is written on and flushed. */
  method Passthrough(w: Sink<Frame>, body: seq<Byte>)
    requires w.Valid()
    modifies w
    ensures w.Valid() && (body != [] ==> w.flushed == |w.written|)
    ensures body == [] ==> w.flushed == old(w.flushed)
    ensures w.written == old(w.written) + RawFrames(Slices(body, ReadSize))
  {
    ghost var sent: seq<seq<Byte>> := [];
    var rest := body;
    while rest != []
      invariant w.Valid() && w.flushed == if sent == [] then old(w.flushed) else |w.written|
      invariant sent == [] ==> rest == body
      invariant Slices(body, ReadSize) == sent + Slices(rest, ReadSize)
      invariant w.written == old(w.written) + RawFrames(sent)
    {
      var n := Min(ReadSize, |rest|);
      var chunk := rest[..n];
      SlicesStep(sent, rest, ReadSize);
      w.Write(Raw(chunk));
      w.Flush();
      RawFramesSnoc(sent, chunk);
      sent := sent + [chunk];
      rest := rest[n..];
    }
  }

  lemma RawFramesSnoc(chunks: seq<seq<Byte>>, chunk: seq<Byte>)
    ensures RawFrames(chunks + [chunk]) == RawFrames(chunks) + [Raw(chunk)]
  {
  }

  lemma {:induction false} ForwardedAppend(a: seq<Frame>, b: seq<Frame>)
    ensures Forwarded(a + b) == Forwarded(a) + Forwarded(b)
  {
    if a == [] {
      assert a + b == b;
    } else {
      assert (a + b)[1..] == a[1..] + b;
      ForwardedAppend(a[1..], b);
    }
  }

  lemma {:induction false} ForwardedRaw(chunks: seq<seq<Byte>>)
    ensures Forwarded(RawFrames(chunks)) == Concat(chunks)
  {
    if chunks != [] {
      assert RawFrames(chunks)[1..] == RawFrames(chunks[1..]);
      ForwardedRaw(chunks[1..]);
    }
  }

  lemma {:induction false} ForwardedNone(es: seq<Event>)
    ensures Forwarded(AsFrames(es)) == []
  {
    if es != [] {
      assert AsFrames(es)[1..] == AsFrames(es[1..]);
      ForwardedNone(es[1..]);
    }
  }

  /** The passthrough forwards exactly the bytes received, in reads of at most 4096
      bytes, and nothing else. */
  lemma OllamaStreamShape(o: HttpOutcome, id: string)
    ensures Forwarded(OllamaStreamFrames(o, id)) == (if o.Answered? then o.body else [])
    ensures o.Answered? ==> forall i :: 0 <= i < |Slices(o.body, ReadSize)| ==> 0 < |Slices(o.body, ReadSize)[i]| <= ReadSize
    ensures o.Answered? && o.broken == None ==> OllamaStreamFrames(o, id) == RawFrames(Slices(o.body, ReadSize))
  {
    var raw := if o.Answered? then RawFrames(Slices(o.body, ReadSize)) else [];
    var tail := match OllamaFailure(o) case Some(note) => AsFrames(Synthetic(id, T1Label, [note], 1)) case None => [];
    assert OllamaStreamFrames(o, id) == raw + tail;
    ForwardedAppend(raw, tail);
    if o.Answered? {
      ForwardedRaw(Slices(o.body, ReadSize));
      SlicesConcat(o.body, ReadSize);
      SlicesShape(o.body, ReadSize);
    }
    if OllamaFailure(o).Some? {
      ForwardedNone(Synthetic(id, T1Label, [OllamaFailure(o).value], 1));
    }
  }

  /** A failed call ends the stream with a well-formed error stream (after the bytes
      already forwarded, when reading broke off midway). */
  lemma OllamaErrorStream(o: HttpOutcome, id: string)
    requires OllamaFailure(o).Some?
    ensures var fs := OllamaStreamFrames(o, id);
      var es := Synthetic(id, T1Label, [OllamaFailure(o).value], 1);
      fs[|fs| - |es|..] == AsFrames(es) && WellFormed(es)
  {
    var es := Synthetic(id, T1Label, [OllamaFailure(o).value], 1);
    var raw := if o.Answered? then RawFrames(Slices(o.body, ReadSize)) else [];
    assert OllamaStreamFrames(o, id) == raw + AsFrames(es);
    SyntheticWellFormed(id, T1Label, [OllamaFailure(o).value], 1);
  }

  /** A non-streamed T1 call always yields bytes to send: the body received, or the
      encoded error reply; never nothing. */
  lemma OllamaReplyCases(o: HttpOutcome, id: string)
    ensures o.Answered? && o.broken == None ==> OllamaReply(o, id) == Raw(o.body)
    ensures o.HttpError? ==> OllamaReply(o, id) == Json(NonStreamResponse(id, T1Label, QwenStatusNote(o.code, o.errBody)))
    ensures o.Unreachable? ==> OllamaReply(o, id) == Json(NonStreamResponse(id, T1Label, QwenErrorNote(o.detail)))
    ensures o.Answered? && o.broken.Some? ==> OllamaReply(o, id) == Json(NonStreamResponse(id, T1Label, QwenErrorNote(o.broken.value)))
    ensures OllamaReply(o, id).Raw? || OllamaReply(o, id).Json?
  {
  }

  // ----- the request handler -----

  /** The parts of a decoded request body the handler reads; a missing `system` is
      `None`, a missing `messages` the empty list. */
  datatype ProxyRequest = ProxyRequest(model: Option<string>, stream: bool,
                                       messages: seq<Message>, system: Option<Content>)

  /** What the three backends answer for this request. */
  datatype Backends = Backends(gemini: GeminiCli.Launcher, claudeSpawn: string -> Spawn,
                               claudeRun: string -> RunOutcome, ollama: HttpOutcome)

  function ModelOf(req: ProxyRequest): string {
    req.model.GetOr(DefaultModel)
  }

  /** A follow-up call after the assistant's own turn: the last message's role is
      `assistant`. */
  predicate Guarded(req: ProxyRequest) {
    req.messages != [] && req.messages[|req.messages| - 1].role == Some("assistant")
  }

  function TierOf(req: ProxyRequest): Tier {
    if Guarded(req) then LoopGuard else Classify(ModelOf(req))
  }

  /** Everything the handler writes in answer to `req`. */
  function Response(req: ProxyRequest, b: Backends, id: string): seq<Frame> {
    var model := ModelOf(req);
    var system := req.system.GetOr(Str(""));
    var prompt := MessagesToPrompt(req.messages, system);
    match TierOf(req)
    case LoopGuard =>
      if req.stream then AsFrames(Synthetic(id, model, [], 0))
      else [Json(NonStreamResponse(id, model, ""))]
    case T3Claude =>
      if req.stream then
        var sp := b.claudeSpawn(prompt);
        AsFrames(Synthetic(id, T3Model, ClaudeChunks(sp), ClaudeTokens(sp)))
      else [Json(NonStreamResponse(id, model, ClaudeText(b.claudeRun(prompt))))]
    case T2Gemini =>
      var text := GeminiText(req.messages, system, b.gemini);
      if req.stream then AsFrames(Synthetic(id, model, Slices(text, GeminiChunk), WordCount(text)))
      else [Json(NonStreamResponse(id, model, text))]
    case T1Qwen =>
      if req.stream then OllamaStreamFrames(b.ollama, id)
      else [OllamaReply(b.ollama, id)]
  }

  /** The loop guard answers without consulting any backend: the reply is the same
      whatever the backends would say, a stream of exactly the two envelopes with no
      delta and zero output tokens, or a reply with empty text and zero output tokens. */
  lemma LoopGuardReply(req: ProxyRequest, b1: Backends, b2: Backends, id: string)
    requires Guarded(req)
    ensures Response(req, b1, id) == Response(req, b2, id)
    ensures req.stream ==> var es := Synthetic(id, ModelOf(req), [], 0);
      && Response(req, b1, id) == AsFrames(es)
      && WellFormed(es) && |es| == 5 && DeltaTexts(es) == [] && es[3].outputTokens == 0
    ensures !req.stream ==> Response(req, b1, id) == [Json(Reply(id, ModelOf(req), "", EndTurn, InputTokens, 0))]
  {
    SyntheticWellFormed(id, ModelOf(req), [], 0);
    BlankHasNoWords("");
  }

  /** A request that is not a follow-up goes by its model name alone. */
  lemma RoutedByModel(req: ProxyRequest)
    requires !Guarded(req)
    ensures TierOf(req) == Classify(ModelOf(req))
    ensures req.model == None ==> TierOf(req) == T1Qwen
  {
    assert DefaultModel !in ClaudeRealModels;
    assert DefaultModel !in GeminiModels;
  }

  /** Every stream the handler synthesises for the loop guard, T2 and T3 obeys the
      message-block protocol. */
  lemma SyntheticRepliesWellFormed(req: ProxyRequest, b: Backends, id: string)
    requires req.stream && TierOf(req) != T1Qwen
    ensures exists es :: Response(req, b, id) == AsFrames(es) && WellFormed(es)
  {
    var model := ModelOf(req);
    var system := req.system.GetOr(Str(""));
    var prompt := MessagesToPrompt(req.messages, system);
    match TierOf(req)
    case LoopGuard =>
      SyntheticWellFormed(id, model, [], 0);
    case T3Claude =>
      var sp := b.claudeSpawn(prompt);
      SyntheticWellFormed(id, T3Model, ClaudeChunks(sp), ClaudeTokens(sp));
    case T2Gemini =>
      var text := GeminiText(req.messages, system, b.gemini);
      SyntheticWellFormed(id, model, Slices(text, GeminiChunk), WordCount(text));
  }

  /** The request handler, with the tier and model it records for the access log. */
  class ProxyHandler {
    var tier: string
    var model: string
    const wfile: Sink<Frame>

    constructor (w: Sink<Frame>)
      ensures wfile == w && tier == "?" && model == "?"
    {
      wfile := w;
      tier := "?";
      model := "?";
    }

    /** `do_POST` for a decoded request body, with `id` the message id drawn for any
        reply the proxy synthesises. */
    method DoPost(req: ProxyRequest, b: Backends, id: string)
      requires wfile.Valid()
      modifies this, wfile
      ensures wfile.Valid() && wfile.flushed <= |wfile.written|
      ensures model == ModelOf(req) && tier == TierOf(req).Label()
      ensures wfile.written == old(wfile.written) + Response(req, b, id)
    {
      var m := req.model.GetOr(DefaultModel);
      model := m;
      tier := "?";
      if |req.messages| > 0 && req.messages[|req.messages| - 1].role == Some("assistant") {
        tier := "LoopGuard";
        AnswerGuarded(req, b, id);
        return;
      }
      if m in ClaudeRealModels {
        tier := "T3-Claude";
        AnswerClaude(req, b, id);
      } else if m in GeminiModels {
        tier := "T2-Gemini";
        AnswerGemini(req, b, id);
      } else {
        tier := "T1-Qwen";
        AnswerOllama(req, b, id);
      }
    }

    /** The loop guard's reply: an empty answer, streamed or not, whatever the
        backends would say. */
    method AnswerGuarded(req: ProxyRequest, b: Backends, id: string)
      requires wfile.Valid() && TierOf(req) == LoopGuard
      modifies wfile
      ensures wfile.Valid() && wfile.flushed <= |wfile.written|
      ensures wfile.written == old(wfile.written) + Response(req, b, id)
    {
      var m := ModelOf(req);
      if req.stream {
        var _ := StartStream(wfile, id, m);
        EndStream(wfile, 0);
        AsFramesAppend(StartEnvelope(id, m), EndEnvelope(0));
        assert StartEnvelope(id, m) + Deltas([]) + EndEnvelope(0) == StartEnvelope(id, m) + EndEnvelope(0);
      } else {
        wfile.Write(Json(NonStreamResponse(id, m, "")));
      }
    }

    /** A request for one of the Claude models goes to the Claude CLI. */
    method AnswerClaude(req: ProxyRequest, b: Backends, id: string)
      requires wfile.Valid() && TierOf(req) == T3Claude
      modifies wfile
      ensures wfile.Valid() && wfile.flushed <= |wfile.written|
      ensures wfile.written == old(wfile.written) + Response(req, b, id)
    {
      var system := req.system.GetOr(Str(""));
      if req.stream {
        RouteClaudeStream(wfile, req.messages, system, b.claudeSpawn, id);
      } else {
        var text := ClaudeText(b.claudeRun(MessagesToPrompt(req.messages, system)));
        wfile.Write(Json(NonStreamResponse(id, ModelOf(req), text)));
      }
    }

    /** A request for one of the Gemini models goes to the Gemini CLI. */
    method AnswerGemini(req: ProxyRequest, b: Backends, id: string)
      requires wfile.Valid() && TierOf(req) == T2Gemini
      modifies wfile
      ensures wfile.Valid() && wfile.flushed <= |wfile.written|
      ensures wfile.written == old(wfile.written) + Response(req, b, id)
    {
      var system := req.system.GetOr(Str(""));
      if req.stream {
        RouteGeminiStream(wfile, req.messages, system, b.gemini, ModelOf(req), id);
      } else {
        var text := CallGeminiCli(MessagesToPrompt(req.messages, system), b.gemini);
        wfile.Write(Json(NonStreamResponse(id, ModelOf(req), text)));
      }
    }

    /** Any other request goes to the local Ollama model. */
    method AnswerOllama(req: ProxyRequest, b: Backends, id: string)
      requires wfile.Valid() && TierOf(req) == T1Qwen
      modifies wfile
      ensures wfile.Valid() && wfile.flushed <= |wfile.written|
      ensures wfile.written == old(wfile.written) + Response(req, b, id)
    {
      if req.stream {
        RouteOllamaStream(wfile, b.ollama, id);
      } else {
        wfile.Write(OllamaReply(b.ollama, id));
      }
    }
  }
}
