/** Generic sequence helpers: concatenation of pieces and fixed-size slicing. */
module Seqs {

  function Min(a: int, b: int): int {
    if a <= b then a else b
  }

  /** All pieces glued together, in order (Python's `"".join(parts)` / `b"".join(chunks)`). */
  function Concat<T>(ss: seq<seq<T>>): seq<T> {
    if ss == [] then [] else ss[0] + Concat(ss[1..])
  }

  lemma {:induction false} ConcatAppend<T>(a: seq<seq<T>>, b: seq<seq<T>>)
    ensures Concat(a + b) == Concat(a) + Concat(b)
  {
    if a == [] {
      assert a + b == b;
    } else {
      assert (a + b)[1..] == a[1..] + b;
      ConcatAppend(a[1..], b);
    }
  }

  /** The pieces `s[i:i+n]` for `i` in `range(0, len(s), n)`, as Python's slicing yields them. */
  function Slices<T>(s: seq<T>, n: nat): seq<seq<T>>
    requires n > 0
    decreases |s|
  {
    if s == [] then [] else [s[..Min(n, |s|)]] + Slices(s[Min(n, |s|)..], n)
  }

  /** Gluing the slices back together gives the original sequence. */
  lemma {:induction false} SlicesConcat<T>(s: seq<T>, n: nat)
    requires n > 0
    ensures Concat(Slices(s, n)) == s
  {
    if s != [] {
      var m := Min(n, |s|);
      SlicesConcat(s[m..], n);
      assert s == s[..m] + s[m..];
    }
  }

  /** `d * n` grows with `d`: the one fact about products the division lemmas need. */
  lemma {:induction false} MulAtLeast(d: nat, n: nat)
    requires d >= 1
    ensures d * n >= n
  {
    if d > 1 {
      MulAtLeast(d - 1, n);
      assert d * n == (d - 1) * n + n;
    }
  }

  /** Euclidean division is determined by the quotient's bracket. */
  lemma DivUnique(y: nat, n: nat, q: nat)
    requires n > 0 && q * n <= y < q * n + n
    ensures y / n == q
  {
    var q', r' := y / n, y % n;
    assert y == q' * n + r' && 0 <= r' < n;
    if q' > q {
      assert q' * n == (q' - q) * n + q * n;
      MulAtLeast(q' - q, n);
      assert false;
    } else if q' < q {
      assert q * n == (q - q') * n + q' * n;
      MulAtLeast(q - q', n);
      assert false;
    }
  }

  /** Taking `n` off a length above `n` takes one off its ceiling quotient. */
  lemma CeilStep(len: nat, n: nat)
    requires 0 < n < len
    ensures (len + n - 1) / n == (len - n + n - 1) / n + 1
  {
    var q := (len - n + n - 1) / n;
    assert q * n <= len - n + n - 1 < q * n + n;
    assert (q + 1) * n == q * n + n;
    DivUnique(len + n - 1, n, q + 1);
  }

  /** There are ceil(|s| / n) slices. */
  lemma {:induction false} SlicesCount<T>(s: seq<T>, n: nat)
    requires n > 0
    ensures |Slices(s, n)| == (|s| + n - 1) / n
  {
    if s == [] {
      DivUnique(n - 1, n, 0);
    } else if |s| <= n {
      assert s[Min(n, |s|)..] == [];
      DivUnique(|s| + n - 1, n, 1);
    } else {
      SlicesCount(s[n..], n);
      CeilStep(|s|, n);
    }
  }

  /** Every slice is non-empty and at most `n` long, and all but the last are exactly `n` long. */
  lemma {:induction false} SlicesShape<T>(s: seq<T>, n: nat)
    requires n > 0
    ensures forall i :: 0 <= i < |Slices(s, n)| ==> 0 < |Slices(s, n)[i]| <= n
    ensures forall i :: 0 <= i < |Slices(s, n)| - 1 ==> |Slices(s, n)[i]| == n
  {
    if s != [] {
      var m := Min(n, |s|);
      SlicesShape(s[m..], n);
      var r := Slices(s, n);
      assert r == [s[..m]] + Slices(s[m..], n);
      forall i | 0 <= i < |r|
        ensures 0 < |r[i]| <= n
        ensures i < |r| - 1 ==> |r[i]| == n
      {
        if i > 0 {
          assert r[i] == Slices(s[m..], n)[i - 1];
        } else if |r| > 1 {
          assert s[m..] != [];
        }
      }
    }
  }

  /** One step of a loop that consumes `rest` piece by piece: the piece at the front
      moves from what is left to what was sent. */
  lemma SlicesStep<T>(sent: seq<seq<T>>, rest: seq<T>, n: nat)
    requires n > 0 && rest != []
    ensures sent + Slices(rest, n) == (sent + [rest[..Min(n, |rest|)]]) + Slices(rest[Min(n, |rest|)..], n)
  {
    var m := Min(n, |rest|);
    var head, tail := [rest[..m]], Slices(rest[m..], n);
    assert Slices(rest, n) == head + tail;
    assert sent + (head + tail) == (sent + head) + tail;
  }
}
