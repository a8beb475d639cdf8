/** Python string behaviour the router relies on: `isspace`, `strip()`, `split()`,
    `"sep".join`, ASCII `lower()`, the substring test `k in s`, and line iteration. */
module Text {
  import opened Seqs

  /** Python's `str.isspace` for one code point: what `split()` and `strip()` without
      arguments treat as whitespace. */
  predicate IsSpace(c: char) {
    ('\t' <= c <= '\r') || ('\U{1c}' <= c <= '\U{1f}') || c == ' ' || c == '\U{85}' || c == '\U{a0}'
    || c == '\U{1680}' || ('\U{2000}' <= c <= '\U{200a}') || c == '\U{2028}' || c == '\U{2029}'
    || c == '\U{202f}' || c == '\U{205f}' || c == '\U{3000}'
  }

  /** Every character is whitespace (`s.strip()` is falsy). */
  predicate IsBlank(s: string) {
    forall i :: 0 <= i < |s| ==> IsSpace(s[i])
  }

  /** `s.lstrip()`. */
  function TrimLeft(s: string): string {
    if s != [] && IsSpace(s[0]) then TrimLeft(s[1..]) else s
  }

  /** `s.lstrip()` removes exactly the leading whitespace: what remains is a suffix
      that is empty or starts with a non-space, after a blank prefix. */
  lemma {:induction false} TrimLeftFacts(s: string)
    ensures var r := TrimLeft(s);
      && |r| <= |s| && r == s[|s| - |r|..]
      && (r == [] || !IsSpace(r[0]))
      && IsBlank(s[..|s| - |r|])
  {
    if s != [] && IsSpace(s[0]) {
      TrimLeftFacts(s[1..]);
      var r := TrimLeft(s);
      assert s[..|s| - |r|] == [s[0]] + s[1..][..|s| - 1 - |r|];
    }
  }

  /** `s.rstrip()`. */
  function TrimRight(s: string): string {
    if s != [] && IsSpace(s[|s| - 1]) then TrimRight(s[..|s| - 1]) else s
  }

  /** `s.rstrip()` removes exactly the trailing whitespace. */
  lemma {:induction false} TrimRightFacts(s: string)
    ensures var r := TrimRight(s);
      && |r| <= |s| && r == s[..|r|]
      && (r == [] || !IsSpace(r[|r| - 1]))
      && IsBlank(s[|r|..])
  {
    if s != [] && IsSpace(s[|s| - 1]) {
      TrimRightFacts(s[..|s| - 1]);
      var r := TrimRight(s);
      assert s[|r|..] == s[..|s| - 1][|r|..] + [s[|s| - 1]];
    }
  }

  /** `s.strip()`. */
  function Strip(s: string): string {
    TrimRight(TrimLeft(s))
  }

  /** `s.strip()` is empty exactly when `s` is all whitespace. */
  lemma StripEmptyIffBlank(s: string)
    ensures Strip(s) == [] <==> IsBlank(s)
  {
    var t := TrimLeft(s);
    var r := TrimRight(t);
    TrimLeftFacts(s);
    TrimRightFacts(t);
    assert s[..|s| - |t|] + t == s;
    assert t == [] ==> s[..|s|] == s;
    assert t != [] ==> s[|s| - |t|] == t[0];
    assert r == [] ==> t[|r|..] == t;
  }

  /** Non-blank text strips to a non-blank string. */
  lemma StripOfNonBlank(s: string)
    requires !IsBlank(s)
    ensures !IsBlank(Strip(s))
  {
    StripEmptyIffBlank(s);
    TrimLeftFacts(s);
    TrimRightFacts(TrimLeft(s));
    var r := Strip(s);
    assert !IsSpace(r[0]);
  }

  /** Index of the first whitespace character, or `|s|`. */
  function FirstSpace(s: string): (k: nat)
    ensures k <= |s|
    ensures k < |s| ==> IsSpace(s[k])
    ensures forall i :: 0 <= i < k ==> !IsSpace(s[i])
  {
    if s == [] || IsSpace(s[0]) then 0 else 1 + FirstSpace(s[1..])
  }

  /** A word of `split()`: non-empty and free of whitespace. */
  predicate IsWord(w: string) {
    w != [] && forall i :: 0 <= i < |w| ==> !IsSpace(w[i])
  }

  /** `s.split()`: the maximal runs of non-whitespace characters, in order. */
  function Split(s: string): seq<string>
    decreases |s|
  {
    if s == [] then []
    else if IsSpace(s[0]) then Split(s[1..])
    else
      var k := FirstSpace(s);
      [s[..k]] + Split(s[k..])
  }

  /** Every word of `split()` is non-empty and free of whitespace. */
  lemma {:induction false} SplitWords(s: string)
    ensures forall i :: 0 <= i < |Split(s)| ==> IsWord(Split(s)[i])
    decreases |s|
  {
    if s != [] {
      if IsSpace(s[0]) {
        SplitWords(s[1..]);
      } else {
        var k := FirstSpace(s);
        SplitWords(s[k..]);
        assert Split(s) == [s[..k]] + Split(s[k..]);
      }
    }
  }

  /** `len(s.split())`: the whitespace word count the router reports as token usage. */
  function WordCount(s: string): nat {
    |Split(s)|
  }

  /** `s` with every whitespace character removed. */
  function NonSpace(s: string): string {
    if s == [] then [] else (if IsSpace(s[0]) then [] else [s[0]]) + NonSpace(s[1..])
  }

  lemma {:induction false} NonSpaceAppend(a: string, b: string)
    ensures NonSpace(a + b) == NonSpace(a) + NonSpace(b)
  {
    if a == [] {
      assert a + b == b;
    } else {
      assert (a + b)[1..] == a[1..] + b;
      NonSpaceAppend(a[1..], b);
    }
  }

  lemma {:induction false} NonSpaceOfBlank(s: string)
    requires IsBlank(s)
    ensures NonSpace(s) == []
  {
    if s != [] {
      NonSpaceOfBlank(s[1..]);
    }
  }

  lemma {:induction false} NonSpaceOfWord(s: string)
    requires forall i :: 0 <= i < |s| ==> !IsSpace(s[i])
    ensures NonSpace(s) == s
  {
    if s != [] {
      NonSpaceOfWord(s[1..]);
    }
  }

  /** The words of `split()` hold exactly the non-whitespace characters of `s`, in order:
      splitting loses only whitespace. */
  lemma {:induction false} SplitKeepsText(s: string)
    ensures Concat(Split(s)) == NonSpace(s)
    decreases |s|
  {
    if s != [] {
      if IsSpace(s[0]) {
        SplitKeepsText(s[1..]);
      } else {
        var k := FirstSpace(s);
        assert s == s[..k] + s[k..];
        NonSpaceAppend(s[..k], s[k..]);
        NonSpaceOfWord(s[..k]);
        SplitKeepsText(s[k..]);
      }
    }
  }

  lemma FirstSpaceOfPrefix(a: string, b: string)
    requires FirstSpace(a) < |a|
    ensures FirstSpace(a + b) == FirstSpace(a)
    decreases |a|
  {
    if !IsSpace(a[0]) {
      assert (a + b)[1..] == a[1..] + b;
      FirstSpaceOfPrefix(a[1..], b);
    }
  }

  lemma {:induction false} FirstSpaceFound(a: string)
    requires a != [] && IsSpace(a[|a| - 1])
    ensures FirstSpace(a) < |a|
  {
    if !IsSpace(a[0]) {
      FirstSpaceFound(a[1..]);
    }
  }

  /** Words never run across whitespace: when `a` is empty or ends in whitespace, the
      words of `a + b` are the words of `a` followed by the words of `b`. */
  lemma {:induction false} SplitAppend(a: string, b: string)
    requires a == [] || IsSpace(a[|a| - 1])
    ensures Split(a + b) == Split(a) + Split(b)
    decreases |a|
  {
    if a == [] {
      assert a + b == b;
    } else if IsSpace(a[0]) {
      assert (a + b)[1..] == a[1..] + b;
      SplitAppend(a[1..], b);
    } else {
      var k := FirstSpace(a);
      FirstSpaceFound(a);
      FirstSpaceOfPrefix(a, b);
      assert (a + b)[..k] == a[..k];
      assert (a + b)[k..] == a[k..] + b;
      SplitAppend(a[k..], b);
    }
  }

  /** `sep.join(parts)`. */
  function Join(sep: string, parts: seq<string>): string {
    if parts == [] then ""
    else if |parts| == 1 then parts[0]
    else parts[0] + sep + Join(sep, parts[1..])
  }

  /** Position of the first `c` in `s`, or `|s|`. */
  function IndexOf(s: string, c: char): (k: nat)
    ensures k <= |s| && (k < |s| ==> s[k] == c)
    ensures forall i :: 0 <= i < k ==> s[i] != c
  {
    if s == [] || s[0] == c then 0 else 1 + IndexOf(s[1..], c)
  }

  /** `s.split(c)` for a one-character separator. */
  function SplitOn(s: string, c: char): (r: seq<string>)
    ensures |r| >= 1
    decreases |s|
  {
    var k := IndexOf(s, c);
    if k == |s| then [s] else [s[..k]] + SplitOn(s[k + 1..], c)
  }

  /** Joining with a one-character separator that no part contains can be undone by
      splitting on it: the parts are recovered exactly, in order. */
  lemma {:induction false} JoinSplitRoundTrip(parts: seq<string>, c: char)
    requires parts != []
    requires forall i :: 0 <= i < |parts| ==> c !in parts[i]
    ensures SplitOn(Join([c], parts), c) == parts
  {
    var p := parts[0];
    assert forall i :: 0 <= i < |p| ==> p[i] != c;
    if |parts| > 1 {
      var rest := Join([c], parts[1..]);
      var s := p + [c] + rest;
      assert IndexOf(s, c) == |p| by {
        IndexOfPrefix(p, [c] + rest, c);
        assert s == p + ([c] + rest);
      }
      assert s[..|p|] == p;
      assert s[|p| + 1..] == rest;
      JoinSplitRoundTrip(parts[1..], c);
    }
  }

  lemma IndexOfPrefix(a: string, b: string, c: char)
    requires IndexOf(a, c) == |a| && b != [] && b[0] == c
    ensures IndexOf(a + b, c) == |a|
    decreases |a|
  {
    if a != [] {
      assert (a + b)[1..] == a[1..] + b;
      IndexOfPrefix(a[1..], b, c);
    }
  }

  /** Lines as Python's text-mode file iteration yields them: each keeps its `'\n'`. */
  function Lines(s: string): (lines: seq<string>)
    ensures forall i :: 0 <= i < |lines| ==> lines[i] != []
    decreases |s|
  {
    if s == [] then []
    else
      var k := IndexOf(s, '\n');
      var end := if k < |s| then k + 1 else |s|;
      [s[..end]] + Lines(s[end..])
  }

  /** The lines glue back to the whole text, and every line but the last ends in a newline. */
  lemma {:induction false} LinesShape(s: string)
    ensures Concat(Lines(s)) == s
    ensures forall i :: 0 <= i < |Lines(s)| - 1 ==> Lines(s)[i][|Lines(s)[i]| - 1] == '\n'
    decreases |s|
  {
    if s != [] {
      var k := IndexOf(s, '\n');
      var end := if k < |s| then k + 1 else |s|;
      LinesShape(s[end..]);
      assert s == s[..end] + s[end..];
      if end == |s| {
        assert s[end..] == [];
      }
    }
  }

  /** Sum of the per-line word counts. */
  function LineWords(lines: seq<string>): nat {
    if lines == [] then 0 else WordCount(lines[0]) + LineWords(lines[1..])
  }

  lemma LineWordsAppend(a: seq<string>, b: seq<string>)
    ensures LineWords(a + b) == LineWords(a) + LineWords(b)
  {
    if a == [] {
      assert a + b == b;
    } else {
      assert (a + b)[1..] == a[1..] + b;
      LineWordsAppend(a[1..], b);
    }
  }

  /** Counting words line by line gives the word count of the whole text. */
  lemma {:induction false} LineWordsTotal(s: string)
    ensures LineWords(Lines(s)) == WordCount(s)
    decreases |s|
  {
    if s != [] {
      var k := IndexOf(s, '\n');
      var end := if k < |s| then k + 1 else |s|;
      LineWordsTotal(s[end..]);
      assert s == s[..end] + s[end..];
      if k < |s| {
        SplitAppend(s[..end], s[end..]);
      } else {
        assert s[end..] == [] && s[..end] == s;
        assert Lines(s) == [s];
        assert LineWords([s]) == WordCount(s) + LineWords([]);
      }
    }
  }

  /** ASCII case folding of one character, as `str.lower()` does for ASCII. */
  function LowerChar(c: char): char {
    if 'A' <= c <= 'Z' then (c as int + 32) as char else c
  }

  /** `s.lower()` on ASCII letters. */
  function Lower(s: string): (r: string)
    ensures |r| == |s|
    ensures forall i :: 0 <= i < |s| ==> r[i] == LowerChar(s[i])
  {
    seq(|s|, i requires 0 <= i < |s| => LowerChar(s[i]))
  }

  predicate IsPrefix(p: string, s: string) {
    |p| <= |s| && s[..|p|] == p
  }

  /** Python's `needle in s` for strings. */
  predicate Contains(s: string, needle: string)
    decreases |s|
  {
    IsPrefix(needle, s) || (s != [] && Contains(s[1..], needle))
  }

  /** Text appended after `s` never removes a substring occurrence. */
  lemma {:induction false} ContainsExtend(s: string, t: string, needle: string)
    requires Contains(s, needle)
    ensures Contains(s + t, needle)
    decreases |s|
  {
    if IsPrefix(needle, s) {
      assert (s + t)[..|needle|] == s[..|needle|];
    } else {
      assert (s + t)[1..] == s[1..] + t;
      ContainsExtend(s[1..], t, needle);
    }
  }

  /** The part before the first `':'` (`s.split(":")[0]`). */
  function BeforeColon(s: string): (r: string)
    ensures IsPrefix(r, s) && ':' !in r
  {
    var k := IndexOf(s, ':');
    assert forall c :: c in s[..k] ==> c != ':';
    s[..k]
  }

  /** Decimal digits of a natural number (`str(n)`). */
  function NatToString(n: nat): (r: string)
    ensures r != []
    ensures forall i :: 0 <= i < |r| ==> '0' <= r[i] <= '9'
  {
    var d := ['0', '1', '2', '3', '4', '5', '6', '7', '8', '9'][n % 10];
    if n < 10 then [d] else NatToString(n / 10) + [d]
  }
}
