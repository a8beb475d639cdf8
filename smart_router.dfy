/** The command-line router: a forced tier answers alone; otherwise the tiers are
    tried in the fixed order Ollama, Gemini, Claude, each of the first two up to the
    configured number of times, and the first accepted answer is returned and logged. */
module SmartRouting {
  import opened Wrappers
  import opened Text
  import opened TaskAnalysis
  import opened Tiers

  /** The `routing` section of the configuration that `route` reads. */
  datatype RoutingConfig = RoutingConfig(alwaysTryT1First: bool, maxRetriesPerTier: int, escalateOnFailure: bool)

  const DefaultRouting := RoutingConfig(true, 2, true)

  datatype TierName = T1 | T2 | T3 {
    /** The name written to the routing history. */
    function LogName(): string {
      match this
      case T1 => "T1_OLLAMA_QWEN"
      case T2 => "T2_GEMINI"
      case T3 => "T3_CLAUDE_LAST_RESORT"
    }

    function Rank(): nat {
      match this
      case T1 => 1
      case T2 => 2
      case T3 => 3
    }
  }

  /** The `k`-th run of a tier within one routing. */
  datatype Attempt = Attempt(tier: TierName, k: nat)

  /** What each run answers: the `k`-th run of T1 and of T2, and the single run of T3. */
  datatype Replies = Replies(t1: nat -> Reply, t2: nat -> Reply, t3: Reply)

  /** One line of the routing history. */
  datatype LogEntry = LogEntry(ts: string, tier: string, taskType: string, success: bool)

  const AllFailedText := "❌ All tiers failed. Check: ollama serve | gemini auth login | ANTHROPIC_API_KEY"

  function ReplyOf(a: Attempt, replies: Replies): Reply {
    match a.tier
    case T1 => replies.t1(a.k)
    case T2 => replies.t2(a.k)
    case T3 => replies.t3
  }

  /** The number of runs of each of T1 and T2: `range` of a negative count is empty. */
  function Retries(cfg: RoutingConfig): nat {
    if cfg.maxRetriesPerTier > 0 then cfg.maxRetriesPerTier else 0
  }

  /** How many runs of T1 and of T2 the automatic routing makes at most. */
  function T1Runs(cfg: RoutingConfig, t1Up: bool): nat {
    if cfg.alwaysTryT1First && t1Up then Retries(cfg) else 0
  }

  function T2Runs(cfg: RoutingConfig, t2Up: bool): nat {
    if t2Up then Retries(cfg) else 0
  }

  /** Every run the automatic routing may make, in the order it makes them. */
  function Plan(cfg: RoutingConfig, t1Up: bool, t2Up: bool): (p: seq<Attempt>)
    ensures |p| == T1Runs(cfg, t1Up) + T2Runs(cfg, t2Up) + (if cfg.escalateOnFailure then 1 else 0)
  {
    var n1 := T1Runs(cfg, t1Up);
    var n2 := T2Runs(cfg, t2Up);
    var n := n1 + n2 + (if cfg.escalateOnFailure then 1 else 0);
    seq(n, i requires 0 <= i < n =>
      if i < n1 then Attempt(T1, i) else if i < n1 + n2 then Attempt(T2, i - n1) else Attempt(T3, 0))
  }

  /** Where the Ollama runs sit in the plan. */
  lemma OllamaRuns(cfg: RoutingConfig, t1Up: bool, t2Up: bool)
    ensures T1Runs(cfg, t1Up) <= |Plan(cfg, t1Up, t2Up)|
    ensures forall j :: 0 <= j < T1Runs(cfg, t1Up) ==> Plan(cfg, t1Up, t2Up)[0 + j] == Attempt(T1, j)
  {
  }

  /** Where the Gemini runs sit in the plan. */
  lemma GeminiRuns(cfg: RoutingConfig, t1Up: bool, t2Up: bool)
    ensures T1Runs(cfg, t1Up) + T2Runs(cfg, t2Up) <= |Plan(cfg, t1Up, t2Up)|
    ensures forall j :: 0 <= j < T2Runs(cfg, t2Up) ==>
      Plan(cfg, t1Up, t2Up)[T1Runs(cfg, t1Up) + j] == Attempt(T2, j)
  {
  }

  /** Where Claude's run sits in the plan. */
  lemma ClaudeRun(cfg: RoutingConfig, t1Up: bool, t2Up: bool)
    requires cfg.escalateOnFailure
    ensures |Plan(cfg, t1Up, t2Up)| == T1Runs(cfg, t1Up) + T2Runs(cfg, t2Up) + 1
    ensures Plan(cfg, t1Up, t2Up)[T1Runs(cfg, t1Up) + T2Runs(cfg, t2Up)] == Attempt(T3, 0)
  {
  }

  /** The tiers come in escalation order, Claude at most once and only as the last
      run, and neither of the first two more often than the configured retries. */
  lemma PlanOrder(cfg: RoutingConfig, t1Up: bool, t2Up: bool)
    ensures var p := Plan(cfg, t1Up, t2Up);
      forall i, j :: 0 <= i < j < |p| ==> p[i].tier.Rank() <= p[j].tier.Rank()
    ensures var p := Plan(cfg, t1Up, t2Up);
      forall i :: 0 <= i < |p| && p[i].tier == T3 ==> i == |p| - 1 && cfg.escalateOnFailure
    ensures var p := Plan(cfg, t1Up, t2Up);
      forall i :: 0 <= i < |p| && p[i].tier != T3 ==> p[i].k < Retries(cfg)
    ensures var p := Plan(cfg, t1Up, t2Up);
      forall i :: 0 <= i < |p| && p[i].tier == T1 ==> cfg.alwaysTryT1First && t1Up
    ensures var p := Plan(cfg, t1Up, t2Up);
      forall i :: 0 <= i < |p| && p[i].tier == T2 ==> t2Up
  {
    var p := Plan(cfg, t1Up, t2Up);
    var n1 := T1Runs(cfg, t1Up);
    var n2 := T2Runs(cfg, t2Up);
    assert forall i :: 0 <= i < |p| ==>
      p[i] == if i < n1 then Attempt(T1, i) else if i < n1 + n2 then Attempt(T2, i - n1) else Attempt(T3, 0);
  }

  /** A run whose answer `route` takes: Claude's when it reports success, the others'
      only when their output is also not all whitespace. */
  predicate Accepted(a: Attempt, r: Reply) {
    if a.tier == T3 then r.ok else r.ok && !IsBlank(r.out)
  }

  /** The position of the first accepted run at or after `i`, or `None`. */
  function Choice(plan: seq<Attempt>, replies: Replies, i: nat): Option<nat>
    decreases |plan| - i
  {
    if i >= |plan| then None
    else if Accepted(plan[i], ReplyOf(plan[i], replies)) then Some(i)
    else Choice(plan, replies, i + 1)
  }

  /** `Choice` finds the first accepted run, and `None` means that no run is accepted. */
  lemma {:induction false} ChoiceFacts(plan: seq<Attempt>, replies: Replies, i: nat)
    ensures var c := Choice(plan, replies, i);
      c.Some? ==>
        i <= c.value < |plan| && Accepted(plan[c.value], ReplyOf(plan[c.value], replies))
        && forall j :: i <= j < c.value ==> !Accepted(plan[j], ReplyOf(plan[j], replies))
    ensures Choice(plan, replies, i).None? <==>
      forall j :: i <= j < |plan| ==> !Accepted(plan[j], ReplyOf(plan[j], replies))
    decreases |plan| - i
  {
    if i < |plan| && !Accepted(plan[i], ReplyOf(plan[i], replies)) {
      ChoiceFacts(plan, replies, i + 1);
    }
  }

  /** The runs the automatic routing makes: up to and including the accepted one. */
  function Made(plan: seq<Attempt>, replies: Replies): seq<Attempt> {
    var c := Choice(plan, replies, 0);
    if c.Some? && c.value < |plan| then plan[..c.value + 1] else plan
  }

  /** What the automatic routing answers. */
  function AutoAnswer(plan: seq<Attempt>, replies: Replies): string {
    var c := Choice(plan, replies, 0);
    if c.Some? && c.value < |plan| then ReplyOf(plan[c.value], replies).out else AllFailedText
  }

  /** The history line written for an accepted run. */
  function Logged(plan: seq<Attempt>, replies: Replies, ts: string, taskType: string): seq<LogEntry> {
    var c := Choice(plan, replies, 0);
    if c.Some? && c.value < |plan| then [LogEntry(ts, plan[c.value].tier.LogName(), taskType, true)] else []
  }

  /** What a forced run of tier `n` answers. */
  function ForcedAnswer(n: int, replies: Replies): string
    requires 1 <= n <= 3
  {
    var r := ReplyOf(Attempt(ForcedTier(n), 0), replies);
    if r.ok then r.out else if n == 1 then "T1 failed" else if n == 2 then "T2 failed" else "T3 failed"
  }

  function ForcedTier(n: int): TierName
    requires 1 <= n <= 3
  {
    if n == 1 then T1 else if n == 2 then T2 else T3
  }

  predicate Forced(forceTier: Option<int>) {
    forceTier.Some? && 1 <= forceTier.value <= 3
  }

  /** Escalation: the runs made are a prefix of the plan, each made only after every
      earlier one was turned down; when one is accepted it is the last made, its output
      is the answer and its tier is logged; when none is, every planned run was made,
      the answer is the all-failed text and nothing is logged. */
  lemma Escalation(cfg: RoutingConfig, t1Up: bool, t2Up: bool, replies: Replies, ts: string, taskType: string)
    ensures var p := Plan(cfg, t1Up, t2Up); var m := Made(p, replies);
      && IsPrefixOf(m, p)
      && forall j :: 0 <= j < |m| - 1 ==> !Accepted(m[j], ReplyOf(m[j], replies))
    ensures var p := Plan(cfg, t1Up, t2Up);
      Choice(p, replies, 0).None? <==> forall j :: 0 <= j < |p| ==> !Accepted(p[j], ReplyOf(p[j], replies))
    ensures var p := Plan(cfg, t1Up, t2Up);
      Choice(p, replies, 0).None? ==>
        Made(p, replies) == p && AutoAnswer(p, replies) == AllFailedText && Logged(p, replies, ts, taskType) == []
    ensures var p := Plan(cfg, t1Up, t2Up); var m := Made(p, replies);
      Choice(p, replies, 0).Some? ==>
        && m != [] && Accepted(m[|m| - 1], ReplyOf(m[|m| - 1], replies))
        && AutoAnswer(p, replies) == ReplyOf(m[|m| - 1], replies).out
        && Logged(p, replies, ts, taskType) == [LogEntry(ts, m[|m| - 1].tier.LogName(), taskType, true)]
  {
    var p := Plan(cfg, t1Up, t2Up);
    ChoiceFacts(p, replies, 0);
  }

  /** Claude is the last resort: it runs only when escalation is on, as the last run,
      after every Ollama and Gemini run the configuration allows was made and turned
      down. */
  lemma LastResort(cfg: RoutingConfig, t1Up: bool, t2Up: bool, replies: Replies)
    ensures var m := Made(Plan(cfg, t1Up, t2Up), replies);
      forall i :: 0 <= i < |m| && m[i].tier == T3 ==>
        && cfg.escalateOnFailure && i == |m| - 1
        && |m| == T1Runs(cfg, t1Up) + T2Runs(cfg, t2Up) + 1
        && forall j :: 0 <= j < i ==> m[j].tier != T3 && !Accepted(m[j], ReplyOf(m[j], replies))
  {
    var p := Plan(cfg, t1Up, t2Up);
    ChoiceFacts(p, replies, 0);
    PlanOrder(cfg, t1Up, t2Up);
    var m := Made(p, replies);
    assert forall j :: 0 <= j < |m| ==> m[j] == p[j];
  }

  /** What the routing makes, answers and logs once it is known which run is chosen. */
  lemma ChosenAt(p: seq<Attempt>, replies: Replies, c: nat, ts: string, taskType: string)
    requires Choice(p, replies, 0) == Some(c) && c < |p|
    ensures Made(p, replies) == p[..c + 1]
    ensures AutoAnswer(p, replies) == ReplyOf(p[c], replies).out
    ensures Logged(p, replies, ts, taskType) == [LogEntry(ts, p[c].tier.LogName(), taskType, true)]
  {
  }

  /** The automatic routing along `plan` answered `answer` after making the runs `made`,
      and its history went from `before` to `after`. */
  predicate AutoOutcome(plan: seq<Attempt>, replies: Replies, ts: string, taskType: string,
                        answer: string, made: seq<Attempt>, before: seq<LogEntry>, after: seq<LogEntry>)
  {
    && made == Made(plan, replies) && answer == AutoAnswer(plan, replies)
    && after == before + Logged(plan, replies, ts, taskType)
  }

  predicate IsPrefixOf(a: seq<Attempt>, b: seq<Attempt>) {
    |a| <= |b| && b[..|a|] == a
  }

  /** The router; `history` stands for the lines of `routing_history.jsonl`. */
  class SmartRouter {
    const routing: RoutingConfig
    const keywords: Keywords
    var history: seq<LogEntry>

    constructor(routing: RoutingConfig, keywords: Keywords, history: seq<LogEntry>)
      ensures this.routing == routing && this.keywords == keywords && this.history == history
    {
      this.routing := routing;
      this.keywords := keywords;
      this.history := history;
    }

    /** `route(prompt, force_tier)`: `t1Up` and `t2Up` are the availability probes,
        `replies` what each tier's runs answer and `now` the clock reading for the
        history line. `made` lists the runs in the order they were made. */
    method Route(prompt: string, forceTier: Option<int>, t1Up: bool, t2Up: bool, replies: Replies, now: string)
      returns (answer: string, made: seq<Attempt>)
      modifies this
      ensures Forced(forceTier) ==>
        answer == ForcedAnswer(forceTier.value, replies) && made == [Attempt(ForcedTier(forceTier.value), 0)]
        && history == old(history)
      ensures !Forced(forceTier) ==>
        var p := Plan(routing, t1Up, t2Up);
        && made == Made(p, replies) && answer == AutoAnswer(p, replies)
        && history == old(history) + Logged(p, replies, now, AnalyzeTask(prompt, keywords).kind)
    {
      var task := AnalyzeTask(prompt, keywords);
      if forceTier == Some(1) {
        var r := replies.t1(0);
        answer := if r.ok then r.out else "T1 failed";
        return answer, [Attempt(T1, 0)];
      } else if forceTier == Some(2) {
        var r := replies.t2(0);
        answer := if r.ok then r.out else "T2 failed";
        return answer, [Attempt(T2, 0)];
      } else if forceTier == Some(3) {
        var r := replies.t3;
        answer := if r.ok then r.out else "T3 failed";
        return answer, [Attempt(T3, 0)];
      }
      answer, made := AutoRoute(task.kind, t1Up, t2Up, replies, now);
    }

    /** The automatic routing of `route`, for a prompt of task type `kind`: first the
        Ollama runs. */
    method AutoRoute(kind: string, t1Up: bool, t2Up: bool, replies: Replies, now: string)
      returns (answer: string, made: seq<Attempt>)
      modifies this
      ensures AutoOutcome(Plan(routing, t1Up, t2Up), replies, now, kind, answer, made, old(history), history)
    {
      var p := Plan(routing, t1Up, t2Up);
      var n1 := T1Runs(routing, t1Up);
      // n1 is 0 unless Ollama goes first and is up: then no Ollama run is made
      OllamaRuns(routing, t1Up, t2Up);
      var k, accepted := TryRuns(p, replies, T1, 0, n1);
      if accepted {
        answer, made := Accept(kind, t1Up, t2Up, replies, now, k);
        return;
      }
      answer, made := FromGemini(kind, t1Up, t2Up, replies, now);
    }

    /** The rest of the automatic routing once every Ollama run was turned down: the
        Gemini runs. */
    method FromGemini(kind: string, t1Up: bool, t2Up: bool, replies: Replies, now: string)
      returns (answer: string, made: seq<Attempt>)
      requires var p := Plan(routing, t1Up, t2Up); Choice(p, replies, 0) == Choice(p, replies, T1Runs(routing, t1Up))
      modifies this
      ensures AutoOutcome(Plan(routing, t1Up, t2Up), replies, now, kind, answer, made, old(history), history)
    {
      var p := Plan(routing, t1Up, t2Up);
      var n1 := T1Runs(routing, t1Up);
      var n2 := T2Runs(routing, t2Up);
      // n2 is 0 when Gemini is down: then no Gemini run is made
      GeminiRuns(routing, t1Up, t2Up);
      var k, accepted := TryRuns(p, replies, T2, n1, n2);
      if accepted {
        answer, made := Accept(kind, t1Up, t2Up, replies, now, n1 + k);
        return;
      }
      answer, made := FromClaude(kind, t1Up, t2Up, replies, now);
    }

    /** Ends the automatic routing at the accepted run at position `c` of the plan: its
        output is the answer and its tier is logged. */
    method Accept(kind: string, t1Up: bool, t2Up: bool, replies: Replies, now: string, c: nat)
      returns (answer: string, made: seq<Attempt>)
      requires var p := Plan(routing, t1Up, t2Up); Choice(p, replies, 0) == Some(c) && c < |p|
      modifies this
      ensures AutoOutcome(Plan(routing, t1Up, t2Up), replies, now, kind, answer, made, old(history), history)
    {
      var p := Plan(routing, t1Up, t2Up);
      ChosenAt(p, replies, c, now, kind);
      history := history + [LogEntry(now, p[c].tier.LogName(), kind, true)];
      return ReplyOf(p[c], replies).out, p[..c + 1];
    }

    /** The last step of the automatic routing once every earlier run was turned down:
        Claude, when escalation is on. */
    method FromClaude(kind: string, t1Up: bool, t2Up: bool, replies: Replies, now: string)
      returns (answer: string, made: seq<Attempt>)
      requires var p := Plan(routing, t1Up, t2Up);
        Choice(p, replies, 0) == Choice(p, replies, T1Runs(routing, t1Up) + T2Runs(routing, t2Up))
      modifies this
      ensures AutoOutcome(Plan(routing, t1Up, t2Up), replies, now, kind, answer, made, old(history), history)
    {
      var p := Plan(routing, t1Up, t2Up);
      var n := T1Runs(routing, t1Up) + T2Runs(routing, t2Up);
      if routing.escalateOnFailure {
        var r := replies.t3;
        ClaudeRun(routing, t1Up, t2Up);
        if r.ok {
          history := history + [LogEntry(now, T3.LogName(), kind, true)];
          return r.out, p;
        }
        assert Choice(p, replies, 0) == Choice(p, replies, n + 1);
      }
      return AllFailedText, p;
    }
  }

  /** The runs of one of the first two tiers, which occupy positions `from` up to
      `from + n` of the plan: stops at the first accepted run, the `k`-th of the tier. */
  method TryRuns(p: seq<Attempt>, replies: Replies, tier: TierName, from: nat, n: nat)
    returns (k: nat, accepted: bool)
    requires tier != T3 && from + n <= |p|
    requires forall j :: 0 <= j < n ==> p[from + j] == Attempt(tier, j)
    ensures accepted ==> k < n && Choice(p, replies, from) == Some(from + k)
    ensures !accepted ==> Choice(p, replies, from) == Choice(p, replies, from + n)
  {
    k := 0;
    while k < n
      invariant k <= n
      invariant Choice(p, replies, from) == Choice(p, replies, from + k)
    {
      var r := if tier == T1 then replies.t1(k) else replies.t2(k);
      assert p[from + k] == Attempt(tier, k);
      assert r == ReplyOf(p[from + k], replies);
      if r.ok && !IsBlank(r.out) {
        return k, true;
      }
      k := k + 1;
    }
    return k, false;
  }
}
