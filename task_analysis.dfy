/** Keyword scoring of a prompt (`analyze_task`): per category, how many of its
    keywords occur in the lower-cased prompt; the dominant category; and the flags
    derived from the scores and the word count. */
module TaskAnalysis {
  import opened Text

  /** The keyword lists of the four categories. */
  datatype Keywords = Keywords(coding: seq<string>, analysis: seq<string>,
                               creative: seq<string>, complex: seq<string>)

  const DefaultKeywords := Keywords(
    ["code", "function", "debug", "fix", "implement", "script",
     "python", "javascript", "typescript", "bash", "rust", "go",
     "class", "algorithm", "api", "refactor", "test", "unittest"],
    ["analyze", "explain", "review", "compare", "evaluate",
     "architecture", "design", "plan", "strategy"],
    ["write", "draft", "creative", "story", "blog", "essay",
     "poem", "content", "generate"],
    ["complex", "advanced", "difficult", "sophisticated",
     "enterprise", "production", "optimize"])

  /** Prompts longer than this many words are complex. */
  const ComplexWords: nat := 500

  /** The number of entries of `keywords` that occur in `text`. */
  function Score(keywords: seq<string>, text: string): (n: nat)
    ensures n <= |keywords|
  {
    if keywords == [] then 0
    else (if Contains(text, keywords[0]) then 1 else 0) + Score(keywords[1..], text)
  }

  /** A score is zero exactly when no keyword occurs, and full exactly when all do. */
  lemma {:induction false} ScoreExtremes(keywords: seq<string>, text: string)
    ensures Score(keywords, text) == 0 <==> forall i :: 0 <= i < |keywords| ==> !Contains(text, keywords[i])
    ensures Score(keywords, text) == |keywords| <==> forall i :: 0 <= i < |keywords| ==> Contains(text, keywords[i])
  {
    if keywords != [] {
      ScoreExtremes(keywords[1..], text);
      assert forall i :: 1 <= i < |keywords| ==> keywords[i] == keywords[1..][i - 1];
    }
  }

  /** Splitting the keyword list splits the score. */
  lemma {:induction false} ScoreAppend(a: seq<string>, b: seq<string>, text: string)
    ensures Score(a + b, text) == Score(a, text) + Score(b, text)
  {
    if a == [] {
      assert a + b == b;
    } else {
      assert (a + b)[1..] == a[1..] + b;
      ScoreAppend(a[1..], b, text);
    }
  }

  /** Adding text never lowers a score: a keyword found stays found. */
  lemma {:induction false} ScoreGrows(keywords: seq<string>, text: string, more: string)
    ensures Score(keywords, text) <= Score(keywords, text + more)
  {
    if keywords != [] {
      if Contains(text, keywords[0]) {
        ContainsExtend(text, more, keywords[0]);
      }
      ScoreGrows(keywords[1..], text, more);
    }
  }

  datatype Scores = Scores(coding: nat, analysis: nat, creative: nat, complex: nat) {
    /** The scores in the dictionary's key order. */
    function Values(): seq<nat> {
      [coding, analysis, creative, complex]
    }
  }

  /** The category names in the dictionary's key order. */
  const CategoryNames: seq<string> := ["coding", "analysis", "creative", "complex"]

  /** The index `max(..., key=...)` settles on: scanning left to right from `best`, a
      later value replaces the best only when strictly greater. */
  function ArgMax(vs: seq<nat>, best: nat, i: nat): (k: nat)
    requires best < |vs|
    ensures k < |vs|
    decreases |vs| - i
  {
    if i >= |vs| then best
    else ArgMax(vs, if vs[i] > vs[best] then i else best, i + 1)
  }

  /** The scan finds a maximal value, and the first one: every earlier value is
      strictly smaller. */
  lemma {:induction false} ArgMaxFirst(vs: seq<nat>, best: nat, i: nat)
    requires best < |vs| && best < i <= |vs|
    requires forall j :: 0 <= j < i ==> vs[j] <= vs[best]
    requires forall j :: 0 <= j < best ==> vs[j] < vs[best]
    ensures var k := ArgMax(vs, best, i);
      k < |vs| && (forall j :: 0 <= j < |vs| ==> vs[j] <= vs[k]) && (forall j :: 0 <= j < k ==> vs[j] < vs[k])
    decreases |vs| - i
  {
    if i < |vs| {
      var next := if vs[i] > vs[best] then i else best;
      ArgMaxFirst(vs, next, i + 1);
    }
  }

  /** `type`: the first category with the highest score, or `general` when every
      score is 0. */
  function Dominant(s: Scores): string {
    var vs := s.Values();
    if vs[ArgMax(vs, 0, 1)] > 0 then CategoryNames[ArgMax(vs, 0, 1)] else "general"
  }

  /** The dominant category is `general` exactly when all scores are 0; otherwise it
      names a category whose score is the highest, and every category before it in key
      order scores strictly less. */
  lemma DominantFacts(s: Scores)
    ensures Dominant(s) == "general" <==> s.coding == 0 && s.analysis == 0 && s.creative == 0 && s.complex == 0
    ensures Dominant(s) != "general" ==>
      exists k :: 0 <= k < 4 && Dominant(s) == CategoryNames[k]
        && (forall j :: 0 <= j < 4 ==> s.Values()[j] <= s.Values()[k])
        && (forall j :: 0 <= j < k ==> s.Values()[j] < s.Values()[k])
  {
    var vs := s.Values();
    ArgMaxFirst(vs, 0, 1);
    var k := ArgMax(vs, 0, 1);
    assert CategoryNames[k] != "general";
  }

  /** What `analyze_task` returns. */
  datatype Analysis = Analysis(kind: string, scores: Scores, wordCount: nat,
                               isComplex: bool, prefersLocal: bool)

  function ScoresOf(prompt: string, kw: Keywords): Scores {
    var lowered := Lower(prompt);
    Scores(Score(kw.coding, lowered), Score(kw.analysis, lowered),
           Score(kw.creative, lowered), Score(kw.complex, lowered))
  }

  /** `analyze_task(prompt)` under the keyword lists `kw`. */
  function AnalyzeTask(prompt: string, kw: Keywords): (a: Analysis)
    ensures a.scores.coding <= |kw.coding| && a.scores.analysis <= |kw.analysis|
    ensures a.scores.creative <= |kw.creative| && a.scores.complex <= |kw.complex|
  {
    var scores := ScoresOf(prompt, kw);
    var words := WordCount(prompt);
    Analysis(Dominant(scores), scores, words, scores.complex > 0 || words > ComplexWords, scores.coding > 0)
  }

  /** The flags: complex exactly when a complexity keyword occurs or the prompt has
      more than 500 words; local-first exactly when a coding keyword occurs. */
  lemma AnalysisFlags(prompt: string, kw: Keywords)
    ensures var a := AnalyzeTask(prompt, kw);
      && (a.isComplex <==> (exists i :: 0 <= i < |kw.complex| && Contains(Lower(prompt), kw.complex[i])) || a.wordCount > ComplexWords)
      && (a.prefersLocal <==> exists i :: 0 <= i < |kw.coding| && Contains(Lower(prompt), kw.coding[i]))
      && a.wordCount == |Split(prompt)|
  {
    ScoreExtremes(kw.complex, Lower(prompt));
    ScoreExtremes(kw.coding, Lower(prompt));
  }
}
