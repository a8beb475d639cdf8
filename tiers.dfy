/** The three tiers of the command-line router and what one run of each answers:
    Ollama (model selection and the NDJSON read loop), the Gemini CLI (a candidate
    loop that stops on an authentication complaint) and the Claude CLI. */
module Tiers {
  import opened Wrappers
  import opened Seqs
  import opened Text
  import opened Outcomes

  /** What a tier's `run` returns: whether it succeeded and its output or complaint. */
  datatype Reply = Reply(ok: bool, out: string)

  // ----- T1: Ollama -----

  datatype OllamaConfig = OllamaConfig(model: string, fallbackModels: seq<string>)

  const DefaultOllama := OllamaConfig("qwen3-coder:480b", ["qwen3-coder:32b", "qwen2.5-coder:32b", "qwen3:30b"])

  /** The installed models whose name contains `base`, in listing order. */
  function Matches(base: string, installed: seq<string>): (r: seq<string>)
    ensures forall i :: 0 <= i < |r| ==> r[i] in installed && Contains(r[i], base)
  {
    if installed == [] then []
    else (if Contains(installed[0], base) then [installed[0]] else []) + Matches(base, installed[1..])
  }

  /** No installed model matches exactly when no installed name contains `base`. */
  lemma {:induction false} MatchesEmpty(base: string, installed: seq<string>)
    ensures Matches(base, installed) == [] <==> forall m :: m in installed ==> !Contains(m, base)
  {
    if installed != [] {
      MatchesEmpty(base, installed[1..]);
      if Contains(installed[0], base) {
        assert Matches(base, installed)[0] == installed[0];
      } else {
        assert Matches(base, installed) == Matches(base, installed[1..]);
        forall m | m in installed
          ensures m == installed[0] || m in installed[1..]
        {
          var k :| 0 <= k < |installed| && installed[k] == m;
          if k > 0 {
            assert installed[1..][k - 1] == m;
          }
        }
      }
    }
  }

  /** The first installed model matching the first candidate that has a match. */
  function FirstInstalled(candidates: seq<string>, installed: seq<string>): Option<string> {
    if candidates == [] then None
    else
      var matches := Matches(BeforeColon(candidates[0]), installed);
      if matches != [] then Some(matches[0]) else FirstInstalled(candidates[1..], installed)
  }

  /** `get_available_model()` for the model listing `tags` (`None` when the listing
      could not be fetched or decoded). */
  method GetAvailableModel(cfg: OllamaConfig, tags: Option<seq<string>>) returns (r: Option<string>)
    ensures tags.None? ==> r.None?
    ensures tags.Some? ==> r == FirstInstalled([cfg.model] + cfg.fallbackModels, tags.value)
  {
    if tags.None? {
      return None;
    }
    var installed := tags.value;
    var candidates := [cfg.model] + cfg.fallbackModels;
    var i := 0;
    while i < |candidates|
      invariant 0 <= i <= |candidates|
      invariant FirstInstalled(candidates, installed) == FirstInstalled(candidates[i..], installed)
    {
      var base := BeforeColon(candidates[i]);
      var matches := Matches(base, installed);
      assert candidates[i..][1..] == candidates[i + 1..];
      if |matches| > 0 {
        return Some(matches[0]);
      }
      i := i + 1;
    }
    return None;
  }

  /** No model is chosen exactly when no candidate's base (its part before `:`)
      occurs in any installed name. */
  lemma {:induction false} FirstInstalledNone(candidates: seq<string>, installed: seq<string>)
    ensures FirstInstalled(candidates, installed).None? <==>
      forall i :: 0 <= i < |candidates| ==> Matches(BeforeColon(candidates[i]), installed) == []
  {
    if candidates != [] {
      FirstInstalledNone(candidates[1..], installed);
      assert forall i :: 1 <= i < |candidates| ==> candidates[i] == candidates[1..][i - 1];
    }
  }

  /** When candidate `k` is the first whose base occurs in an installed name, the
      choice is the first such installed name in listing order. */
  lemma {:induction false} FirstInstalledAt(candidates: seq<string>, installed: seq<string>, k: nat)
    requires k < |candidates|
    requires forall j :: 0 <= j < k ==> Matches(BeforeColon(candidates[j]), installed) == []
    requires Matches(BeforeColon(candidates[k]), installed) != []
    ensures FirstInstalled(candidates, installed) == Some(Matches(BeforeColon(candidates[k]), installed)[0])
    ensures FirstInstalled(candidates, installed).value in installed
    ensures Contains(FirstInstalled(candidates, installed).value, BeforeColon(candidates[k]))
  {
    if k > 0 {
      assert forall j :: 0 <= j < k - 1 ==> candidates[1..][j] == candidates[j + 1];
      FirstInstalledAt(candidates[1..], installed, k - 1);
    }
  }

  /** A step that may raise: its value, or the text of the exception (`str(e)`, taken
      as given) that the outer `except Exception` of `OllamaTier.run` catches. */
  datatype Attempt<T> = Ok(value: T) | Raised(detail: string)

  /** The `response` field of a record: a string, or some other JSON value, of which
      the loop uses only its truthiness, and `"".join` the `TypeError` it raises. */
  datatype Field = Text(text: string) | NonText(truthy: bool, detail: string)
  {
    predicate Truthy() {
      if Text? then text != [] else truthy
    }
  }

  /** What `json.loads` makes of a stripped line: not JSON at all (`JSONDecodeError`);
      a JSON value that is not an object, so `data.get` raises; or an object with its
      `response` (default `""`) and whether its `done` is truthy. */
  datatype Parsed = NotJson | NotObject(detail: string) | Record(response: Field, done: bool)

  /** One line of the process output as text-mode iteration yields it, or the decoding
      error its bytes raise instead. */
  datatype NdLine = NdLine(raw: string, parsed: Parsed) | BadBytes(detail: string)

  /** A line the loop passes over: blank after stripping, or not JSON. */
  predicate Skipped(line: NdLine) {
    line.NdLine? && (IsBlank(line.raw) || line.parsed.NotJson?)
  }

  /** A line on which the loop raises: its bytes do not decode, or it is JSON but not
      an object. */
  predicate Raises(line: NdLine) {
    line.BadBytes? || (!Skipped(line) && line.parsed.NotObject?)
  }

  function RaisedText(line: NdLine): string
    requires Raises(line)
  {
    if line.BadBytes? then line.detail else line.parsed.detail
  }

  /** A line that ends the loop: a record whose `done` is truthy. */
  predicate Ends(line: NdLine) {
    !Skipped(line) && !Raises(line) && line.parsed.done
  }

  /** `parts` in front of whatever the rest of the loop collects. */
  function Prepend(parts: seq<Field>, rest: Attempt<seq<Field>>): Attempt<seq<Field>> {
    match rest
    case Ok(more) => Ok(parts + more)
    case Raised(detail) => Raised(detail)
  }

  /** The truthy `response` values collected from the lines, in order, up to and
      including the first `done` record; or the exception of the first line that
      raises before that. */
  function Collect(lines: seq<NdLine>): Attempt<seq<Field>> {
    if lines == [] then Ok([])
    else if Skipped(lines[0]) then Collect(lines[1..])
    else if Raises(lines[0]) then Raised(RaisedText(lines[0]))
    else
      var rec := lines[0].parsed;
      var head := if rec.response.Truthy() then [rec.response] else [];
      if rec.done then Ok(head) else Prepend(head, Collect(lines[1..]))
  }

  /** `"".join(parts)`: the texts glued together, or the `TypeError` raised at the
      first part that is not a string. */
  function JoinParts(parts: seq<Field>): Attempt<string> {
    if parts == [] then Ok("")
    else if parts[0].NonText? then Raised(parts[0].detail)
    else
      match JoinParts(parts[1..])
      case Ok(rest) => Ok(parts[0].text + rest)
      case Raised(detail) => Raised(detail)
  }

  /** The text of a part, `""` for one that is not a string. */
  function TextOf(f: Field): string {
    if f.Text? then f.text else ""
  }

  /** The texts of the parts, in order. */
  function Texts(parts: seq<Field>): seq<string> {
    seq(|parts|, i requires 0 <= i < |parts| => TextOf(parts[i]))
  }

  /** Where the loop stands at a line: skipped lines contribute nothing wherever they
      are, a `done` record makes every later line irrelevant, and a line that raises
      decides the outcome, when no earlier line ended the loop or raised. */
  lemma {:induction false} CollectFacts(before: seq<NdLine>, line: NdLine, after: seq<NdLine>)
    requires forall i :: 0 <= i < |before| ==> !Ends(before[i]) && !Raises(before[i])
    ensures Skipped(line) ==> Collect(before + [line] + after) == Collect(before + after)
    ensures Ends(line) ==> Collect(before + [line] + after) == Collect(before + [line])
    ensures Raises(line) ==> Collect(before + [line] + after) == Raised(RaisedText(line))
  {
    if before == [] {
      assert before + [line] + after == [line] + after;
      assert before + after == after;
      assert before + [line] == [line];
      assert ([line] + after)[1..] == after;
      assert [line][1..] == [];
    } else {
      CollectFacts(before[1..], line, after);
      assert (before + [line] + after)[1..] == before[1..] + [line] + after;
      assert (before + after)[1..] == before[1..] + after;
      assert (before + [line])[1..] == before[1..] + [line];
      assert (before + [line] + after)[0] == before[0] && (before + after)[0] == before[0] && (before + [line])[0] == before[0];
    }
  }

  /** Every part collected is truthy: empty responses are never kept. */
  lemma {:induction false} CollectKept(lines: seq<NdLine>)
    ensures Collect(lines).Ok? ==> forall i :: 0 <= i < |Collect(lines).value| ==> Collect(lines).value[i].Truthy()
  {
    if lines != [] && !Skipped(lines[0]) && !Raises(lines[0]) {
      CollectKept(lines[1..]);
    } else if lines != [] && Skipped(lines[0]) {
      CollectKept(lines[1..]);
    }
  }

  /** Joining parts that are all strings glues their texts together. */
  lemma {:induction false} JoinAllText(parts: seq<Field>)
    requires forall i :: 0 <= i < |parts| ==> parts[i].Text?
    ensures JoinParts(parts) == Ok(Concat(Texts(parts)))
  {
    if parts != [] {
      JoinAllText(parts[1..]);
      assert Texts(parts)[1..] == Texts(parts[1..]);
    }
  }

  /** The first part that is not a string makes the join raise with its error. */
  lemma {:induction false} JoinFirstNonText(parts: seq<Field>, k: nat)
    requires k < |parts| && parts[k].NonText?
    requires forall j :: 0 <= j < k ==> parts[j].Text?
    ensures JoinParts(parts) == Raised(parts[k].detail)
  {
    if k > 0 {
      assert parts[1..][k - 1] == parts[k];
      assert forall j :: 0 <= j < k - 1 ==> parts[1..][j] == parts[j + 1];
      JoinFirstNonText(parts[1..], k - 1);
    }
  }

  /** What the `curl` stream process did: it wrote `lines` and exited with `code`, or
      the final `wait` timed out; or the launch raised. */
  datatype StreamProc =
    | Streamed(lines: seq<NdLine>, code: int, waitTimedOut: bool)
    | LaunchFailed(detail: string)

  const NotAvailableText := "Model not available, pull initiated"

  /** `OllamaTier.run(prompt)` in its (default) streaming mode, for the model
      `get_available_model` chose and the outcome of the stream process. */
  function OllamaReply(model: Option<string>, proc: StreamProc): Reply {
    if model.None? || model.value == "" then Reply(false, NotAvailableText)
    else
      match proc
      case LaunchFailed(detail) => Reply(false, detail)
      case Streamed(lines, code, waitTimedOut) =>
        match Collect(lines)
        case Raised(detail) => Reply(false, detail)
        case Ok(parts) =>
          if waitTimedOut then Reply(false, "Timeout")
          else
            match JoinParts(parts)
            case Raised(detail) => Reply(false, detail)
            case Ok(full) =>
              if code == 0 && !IsBlank(full) then Reply(true, full) else Reply(false, "Empty or failed response")
  }

  /** A line that raises in the read loop, before any `done` record, makes the run
      fail with that exception's text, whatever the later lines, the exit code or the
      final wait. */
  lemma OllamaReadRaises(model: string, before: seq<NdLine>, line: NdLine, after: seq<NdLine>,
                         code: int, waitTimedOut: bool)
    requires model != ""
    requires forall i :: 0 <= i < |before| ==> !Ends(before[i]) && !Raises(before[i])
    requires Raises(line)
    ensures OllamaReply(Some(model), Streamed(before + [line] + after, code, waitTimedOut)) == Reply(false, RaisedText(line))
  {
    CollectFacts(before, line, after);
  }

  /** A successful run read no line that raises, its process exited with 0 within the
      wait, every part collected was a string, and it answers those texts glued
      together, which are not blank. */
  lemma OllamaReplyOk(model: Option<string>, proc: StreamProc)
    ensures var r := OllamaReply(model, proc);
      r.ok ==>
        && proc.Streamed? && proc.code == 0 && !proc.waitTimedOut
        && Collect(proc.lines).Ok?
        && (forall i :: 0 <= i < |Collect(proc.lines).value| ==> Collect(proc.lines).value[i].Text?)
        && r.out == Concat(Texts(Collect(proc.lines).value))
        && !IsBlank(r.out)
  {
    if OllamaReply(model, proc).ok {
      if exists k :: 0 <= k < |Collect(proc.lines).value| && Collect(proc.lines).value[k].NonText? {
        var k := FirstNonText(Collect(proc.lines).value);
        JoinFirstNonText(Collect(proc.lines).value, k);
        assert false;
      }
      JoinAllText(Collect(proc.lines).value);
    }
  }

  /** The index of the first part that is not a string. */
  lemma FirstNonText(parts: seq<Field>) returns (k: nat)
    requires exists k :: 0 <= k < |parts| && parts[k].NonText?
    ensures k < |parts| && parts[k].NonText? && forall j :: 0 <= j < k ==> parts[j].Text?
  {
    k := 0;
    while !parts[k].NonText?
      invariant k < |parts| && forall j :: 0 <= j < k ==> parts[j].Text?
      invariant exists m :: k <= m < |parts| && parts[m].NonText?
      decreases |parts| - k
    {
      k := k + 1;
    }
  }

  /** The read loop of `OllamaTier.run`: takes the lines as the process writes them,
      passes over blank and non-JSON ones, collects truthy `response` values, stops at
      `done`, and raises on a line that does not decode or is not an object. */
  method ReadFragments(lines: seq<NdLine>) returns (r: Attempt<seq<Field>>)
    ensures r == Collect(lines)
  {
    var parts: seq<Field> := [];
    var rest := lines;
    PrependNil(Collect(lines));
    while rest != []
      invariant Collect(lines) == Prepend(parts, Collect(rest))
    {
      var line := rest[0];
      if line.BadBytes? {
        return Raised(line.detail);
      }
      // The stripped line is empty exactly when the line is blank (`SkipTest`).
      if !IsBlank(line.raw) && !line.parsed.NotJson? {
        if line.parsed.NotObject? {
          return Raised(line.parsed.detail);
        }
        var rec := line.parsed;
        var piece := if rec.response.Truthy() then [rec.response] else [];
        PrependAssoc(parts, piece, Collect(rest[1..]));
        parts := parts + piece;
        if rec.done {
          return Ok(parts);
        }
      }
      rest := rest[1..];
    }
    assert parts + [] == parts;
    return Ok(parts);
  }

  lemma PrependNil(rest: Attempt<seq<Field>>)
    ensures Prepend([], rest) == rest
  {
    if rest.Ok? {
      assert [] + rest.value == rest.value;
    }
  }

  lemma PrependAssoc(a: seq<Field>, b: seq<Field>, rest: Attempt<seq<Field>>)
    ensures Prepend(a, Prepend(b, rest)) == Prepend(a + b, rest)
  {
    if rest.Ok? {
      assert a + (b + rest.value) == (a + b) + rest.value;
    }
  }

  /** The loop's test for a line to pass over, made on the stripped line, is `Skipped`. */
  lemma SkipTest(line: NdLine)
    ensures (line.NdLine? && (Strip(line.raw) == [] || line.parsed.NotJson?)) <==> Skipped(line)
  {
    if line.NdLine? {
      StripEmptyIffBlank(line.raw);
    }
  }

  /** `OllamaTier.run(prompt)`. */
  method OllamaRun(model: Option<string>, proc: StreamProc) returns (r: Reply)
    ensures r == OllamaReply(model, proc)
    ensures r.ok ==> !IsBlank(r.out)
  {
    if model.None? || model.value == "" {
      return Reply(false, NotAvailableText);
    }
    if proc.LaunchFailed? {
      return Reply(false, proc.detail);
    }
    var parts := ReadFragments(proc.lines);
    if parts.Raised? {
      return Reply(false, parts.detail);
    }
    if proc.waitTimedOut {
      return Reply(false, "Timeout");
    }
    var joined := JoinParts(parts.value);
    if joined.Raised? {
      return Reply(false, joined.detail);
    }
    var full := joined.value;
    StripEmptyIffBlank(full);
    if proc.code == 0 && Strip(full) != [] {
      return Reply(true, full);
    }
    return Reply(false, "Empty or failed response");
  }

  // ----- T2: Gemini CLI -----

  datatype GeminiConfig = GeminiConfig(defaultModel: string, models: seq<string>)

  const DefaultGemini := GeminiConfig("gemini-2.5-pro",
    ["gemini-2.5-pro", "gemini-2.5-flash", "gemini-2.0-flash", "gemini-2.0-pro", "gemini-3.0-preview"])

  const AuthText := "Auth required"
  const AllGeminiFailedText := "All Gemini models failed"

  /** `models` without `model`, in order. */
  function Without(models: seq<string>, model: string): (r: seq<string>)
    ensures forall x :: x in r <==> x in models && x != model
  {
    if models == [] then []
    else (if models[0] != model then [models[0]] else []) + Without(models[1..], model)
  }

  /** The requested model (or the default, when none or an empty name is given) first,
      then every other configured model in configuration order. */
  function GeminiCandidates(cfg: GeminiConfig, model: Option<string>): (r: seq<string>)
    ensures |r| >= 1 && r[0] == (if model.Some? && model.value != "" then model.value else cfg.defaultModel)
    ensures r[0] !in r[1..]
    ensures forall x :: x in cfg.models && x != r[0] ==> x in r[1..]
    ensures r[1..] == Without(cfg.models, r[0])
  {
    var first := if model.Some? && model.value != "" then model.value else cfg.defaultModel;
    [first] + Without(cfg.models, first)
  }

  /** Filtering distributes over concatenation: the kept models stay in their
      configured order, each occurrence kept or dropped on its own. */
  lemma {:induction false} WithoutAppend(a: seq<string>, b: seq<string>, model: string)
    ensures Without(a + b, model) == Without(a, model) + Without(b, model)
  {
    if a == [] {
      assert a + b == b;
    } else {
      assert (a + b)[1..] == a[1..] + b;
      WithoutAppend(a[1..], b, model);
    }
  }

  /** A list that does not name the model is kept whole, duplicates and order included. */
  lemma {:induction false} WithoutAbsent(models: seq<string>, model: string)
    requires model !in models
    ensures Without(models, model) == models
  {
    if models != [] {
      WithoutAbsent(models[1..], model);
    }
  }

  /** The CLI's complaint mentions authentication or logging in. */
  predicate AuthComplaint(stderr: string) {
    Contains(Lower(stderr), "auth") || Contains(Lower(stderr), "login")
  }

  /** A run the loop moves on from: a timeout, any other exception, or a run without a
      usable answer whose complaint is not about authentication. */
  predicate PassedOver(o: RunOutcome) {
    o.TimedOut? || o.Faulted? || (!o.Succeeded() && !AuthComplaint(o.stderr))
  }

  /** What the loop answers when it starts at candidate `i`. */
  function GeminiAnswer(candidates: seq<string>, prompt: string, launch: (nat, string, string) -> RunOutcome, i: nat): Reply
    decreases |candidates| - i
  {
    if i >= |candidates| then Reply(false, AllGeminiFailedText)
    else
      var o := launch(i, candidates[i], prompt);
      if o.Succeeded() then Reply(true, Strip(o.stdout))
      else if o.Completed? && AuthComplaint(o.stderr) then Reply(false, AuthText)
      else GeminiAnswer(candidates, prompt, launch, i + 1)
  }

  /** `GeminiTier.run(prompt, model)`; `launch(n, m, p)` is what the `n`-th process,
      run on model `m` with prompt `p`, does. */
  method GeminiRun(cfg: GeminiConfig, prompt: string, model: Option<string>,
                   launch: (nat, string, string) -> RunOutcome) returns (r: Reply)
    ensures r == GeminiAnswer(GeminiCandidates(cfg, model), prompt, launch, 0)
  {
    var candidates := GeminiCandidates(cfg, model);
    var i := 0;
    while i < |candidates|
      invariant 0 <= i <= |candidates|
      invariant GeminiAnswer(candidates, prompt, launch, 0) == GeminiAnswer(candidates, prompt, launch, i)
    {
      var o := launch(i, candidates[i], prompt);
      if o.Completed? {
        var out := Strip(o.stdout);
        StripEmptyIffBlank(o.stdout);
        if o.code == 0 && out != [] {
          return Reply(true, out);
        }
        if Contains(Lower(o.stderr), "auth") || Contains(Lower(o.stderr), "login") {
          return Reply(false, AuthText);
        }
      }
      i := i + 1;
    }
    return Reply(false, AllGeminiFailedText);
  }

  lemma {:induction false} GeminiSkips(candidates: seq<string>, prompt: string,
                                       launch: (nat, string, string) -> RunOutcome, i: nat, k: nat)
    requires i <= k <= |candidates|
    requires forall j :: i <= j < k ==> PassedOver(launch(j, candidates[j], prompt))
    ensures GeminiAnswer(candidates, prompt, launch, i) == GeminiAnswer(candidates, prompt, launch, k)
    decreases k - i
  {
    if i < k {
      GeminiSkips(candidates, prompt, launch, i + 1, k);
    }
  }

  /** By the first candidate the loop does not pass over: its stripped output when it
      succeeded, otherwise "Auth required" at once, without trying later candidates;
      and "All Gemini models failed" when every candidate was passed over. */
  lemma GeminiCases(candidates: seq<string>, prompt: string, launch: (nat, string, string) -> RunOutcome)
    ensures forall k :: 0 <= k < |candidates| && (forall j :: 0 <= j < k ==> PassedOver(launch(j, candidates[j], prompt))) ==>
      var o := launch(k, candidates[k], prompt);
      && (o.Succeeded() ==> GeminiAnswer(candidates, prompt, launch, 0) == Reply(true, Strip(o.stdout)))
      && (!PassedOver(o) && !o.Succeeded() ==> GeminiAnswer(candidates, prompt, launch, 0) == Reply(false, AuthText))
    ensures (forall j :: 0 <= j < |candidates| ==> PassedOver(launch(j, candidates[j], prompt))) ==>
      GeminiAnswer(candidates, prompt, launch, 0) == Reply(false, AllGeminiFailedText)
  {
    forall k | 0 <= k < |candidates| && (forall j :: 0 <= j < k ==> PassedOver(launch(j, candidates[j], prompt)))
      ensures var o := launch(k, candidates[k], prompt);
        && (o.Succeeded() ==> GeminiAnswer(candidates, prompt, launch, 0) == Reply(true, Strip(o.stdout)))
        && (!PassedOver(o) && !o.Succeeded() ==> GeminiAnswer(candidates, prompt, launch, 0) == Reply(false, AuthText))
    {
      GeminiSkips(candidates, prompt, launch, 0, k);
    }
    if forall j :: 0 <= j < |candidates| ==> PassedOver(launch(j, candidates[j], prompt)) {
      GeminiSkips(candidates, prompt, launch, 0, |candidates|);
    }
  }

  // ----- T3: Claude CLI -----

  /** `ClaudeTier.run(prompt)` for the outcome of the one `claude --print` process. */
  function ClaudeReply(o: RunOutcome): (r: Reply)
    ensures r.ok <==> o.Succeeded()
    ensures r.ok ==> !IsBlank(r.out)
    ensures o.Completed? && !r.ok ==> r.out == o.stderr
  {
    match o
    case Completed(code, out, err) =>
      if code == 0 && !IsBlank(out) then StripOfNonBlank(out); Reply(true, Strip(out)) else Reply(false, err)
    case TimedOut(_) => Reply(false, "Claude timeout")
    case Faulted(detail) => Reply(false, detail)
  }

  /** A successful Gemini reply carries text that is not all whitespace. */
  lemma {:induction false} GeminiOkNonBlank(candidates: seq<string>, prompt: string,
                                           launch: (nat, string, string) -> RunOutcome, i: nat)
    ensures GeminiAnswer(candidates, prompt, launch, i).ok ==> !IsBlank(GeminiAnswer(candidates, prompt, launch, i).out)
    decreases |candidates| - i
  {
    if i < |candidates| {
      var o := launch(i, candidates[i], prompt);
      if o.Succeeded() {
        StripOfNonBlank(o.stdout);
      } else {
        GeminiOkNonBlank(candidates, prompt, launch, i + 1);
      }
    }
  }
}
