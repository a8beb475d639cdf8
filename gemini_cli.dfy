/** The candidate loop shared by the proxy's `call_gemini_cli` and the bridge's
    `call_gemini`: run the Gemini CLI on each candidate model in turn and return the
    first usable answer, giving up at once on a timeout or any other fault. */
module GeminiCli {
  import opened Text
  import opened Outcomes

  const TimeoutText := "Gemini timeout"
  const NoResponseText := "Gemini: no response"

  function ErrorText(detail: string): string {
    "Gemini error: " + detail
  }

  /** The outcome of `gemini --model MODEL -p PROMPT` on its `n`-th launch. */
  type Launcher = (nat, string, string) -> RunOutcome

  /** A run that exited normally without a usable answer: the loop moves on. */
  predicate PlainFailure(o: RunOutcome) {
    o.Completed? && !o.Succeeded()
  }

  /** The text the loop returns when it starts at candidate `i`. */
  function Answer(candidates: seq<string>, prompt: string, launch: Launcher, i: nat): string
    decreases |candidates| - i
  {
    if i >= |candidates| then NoResponseText
    else
      match launch(i, candidates[i], prompt)
      case Completed(code, out, _) =>
        if code == 0 && !IsBlank(out) then Strip(out) else Answer(candidates, prompt, launch, i + 1)
      case TimedOut(_) => TimeoutText
      case Faulted(detail) => ErrorText(detail)
  }

  /** Plain failures are passed over. */
  lemma {:induction false} AnswerSkips(candidates: seq<string>, prompt: string, launch: Launcher, i: nat, k: nat)
    requires i <= k <= |candidates|
    requires forall j :: i <= j < k ==> PlainFailure(launch(j, candidates[j], prompt))
    ensures Answer(candidates, prompt, launch, i) == Answer(candidates, prompt, launch, k)
    decreases k - i
  {
    if i < k {
      var o := launch(i, candidates[i], prompt);
      assert o.Completed? && !(o.code == 0 && !IsBlank(o.stdout));
      assert Answer(candidates, prompt, launch, i) == Answer(candidates, prompt, launch, i + 1);
      AnswerSkips(candidates, prompt, launch, i + 1, k);
    }
  }

  /** What the loop returns, by the first candidate that is not a plain failure: its
      stripped output when it succeeded, the timeout text when it timed out, the error
      text when it raised; and "no response" when every candidate failed plainly. */
  lemma AnswerCases(candidates: seq<string>, prompt: string, launch: Launcher)
    ensures forall k :: 0 <= k < |candidates| && (forall j :: 0 <= j < k ==> PlainFailure(launch(j, candidates[j], prompt))) ==>
      var o := launch(k, candidates[k], prompt);
      && (o.Succeeded() ==> Answer(candidates, prompt, launch, 0) == Strip(o.stdout))
      && (o.TimedOut? ==> Answer(candidates, prompt, launch, 0) == TimeoutText)
      && (o.Faulted? ==> Answer(candidates, prompt, launch, 0) == ErrorText(o.detail))
    ensures (forall j :: 0 <= j < |candidates| ==> PlainFailure(launch(j, candidates[j], prompt))) ==>
      Answer(candidates, prompt, launch, 0) == NoResponseText
  {
    forall k | 0 <= k < |candidates| && (forall j :: 0 <= j < k ==> PlainFailure(launch(j, candidates[j], prompt)))
      ensures var o := launch(k, candidates[k], prompt);
        && (o.Succeeded() ==> Answer(candidates, prompt, launch, 0) == Strip(o.stdout))
        && (o.TimedOut? ==> Answer(candidates, prompt, launch, 0) == TimeoutText)
        && (o.Faulted? ==> Answer(candidates, prompt, launch, 0) == ErrorText(o.detail))
    {
      AnswerSkips(candidates, prompt, launch, 0, k);
    }
    if forall j :: 0 <= j < |candidates| ==> PlainFailure(launch(j, candidates[j], prompt)) {
      AnswerSkips(candidates, prompt, launch, 0, |candidates|);
    }
  }

  /** The candidate loop. `launched` is how many processes were started: every one
      before the last was a plain failure, and the loop stops early only at a success,
      a timeout or a fault. */
  method FirstAnswer(candidates: seq<string>, prompt: string, launch: Launcher)
    returns (text: string, launched: nat)
    ensures text == Answer(candidates, prompt, launch, 0)
    ensures launched <= |candidates|
    ensures forall j :: 0 <= j < launched - 1 ==> PlainFailure(launch(j, candidates[j], prompt))
    ensures launched < |candidates| ==> launched > 0 && !PlainFailure(launch(launched - 1, candidates[launched - 1], prompt))
  {
    var i := 0;
    while i < |candidates|
      invariant 0 <= i <= |candidates|
      invariant forall j :: 0 <= j < i ==> PlainFailure(launch(j, candidates[j], prompt))
      invariant Answer(candidates, prompt, launch, 0) == Answer(candidates, prompt, launch, i)
    {
      var o := launch(i, candidates[i], prompt);
      launched := i + 1;
      if o.TimedOut? {
        return TimeoutText, launched;
      } else if o.Faulted? {
        return ErrorText(o.detail), launched;
      }
      var out := Strip(o.stdout);
      StripEmptyIffBlank(o.stdout);
      if o.code == 0 && out != [] {
        return out, launched;
      }
      AnswerSkips(candidates, prompt, launch, 0, i + 1);
      i := i + 1;
    }
    return NoResponseText, i;
  }
}
