/** Sequences built by conditional `push` calls, and space-joined token lists.

    The default markup builder and the listener wiring each run a series of
    `if (flag) list.push(token)` statements; `Select` is what such a run
    leaves behind. Attribute lists are rendered with `list.join(' ')`: `Join`
    is that rendering and `Split` reads a rendered list back into its tokens. */
module Tokens {

  /** `if (b) list.push(x)`. */
  function Push<T>(list: seq<T>, b: bool, x: T): seq<T> {
    if b then list + [x] else list
  }

  /** What a run of conditional pushes leaves behind: the candidates whose
      flag is set, in candidate order. */
  function Select<T>(cands: seq<T>, keep: seq<bool>): (r: seq<T>)
    requires |cands| == |keep|
    ensures |r| <= |cands|
  {
    if cands == [] then []
    else Push(Select(Front(cands), Front(keep)), Last(keep), Last(cands))
  }

  function Front<T>(s: seq<T>): seq<T>
    requires s != []
  {
    s[..|s| - 1]
  }

  function Last<T>(s: seq<T>): T
    requires s != []
  {
    s[|s| - 1]
  }

  /** No element occurs twice. */
  ghost predicate Distinct<T>(s: seq<T>) {
    forall i, j :: 0 <= i < j < |s| ==> s[i] != s[j]
  }

  /** `a` can be obtained from `b` by deleting elements: `a` keeps `b`'s order. */
  ghost predicate IsSubsequence<T>(a: seq<T>, b: seq<T>)
    decreases |b|
  {
    a == [] ||
    (b != [] && ((Last(a) == Last(b) && IsSubsequence(Front(a), Front(b))) || IsSubsequence(a, Front(b))))
  }

  /** One more conditional push appends the candidate exactly when its flag is set. */
  lemma SelectSnoc<T>(cands: seq<T>, keep: seq<bool>, x: T, b: bool)
    requires |cands| == |keep|
    ensures Select(cands + [x], keep + [b]) == Push(Select(cands, keep), b, x)
  {
    assert Front(cands + [x]) == cands && Front(keep + [b]) == keep;
  }

  /** The first n pushes of a run, in terms of the first n - 1. */
  lemma SelectStep<T>(cands: seq<T>, keep: seq<bool>, n: nat)
    requires |cands| == |keep| && 0 < n <= |cands|
    ensures Select(cands[..n], keep[..n]) == Push(Select(cands[..n - 1], keep[..n - 1]), keep[n - 1], cands[n - 1])
  {
    assert Front(cands[..n]) == cands[..n - 1];
    assert Front(keep[..n]) == keep[..n - 1];
  }

  /** A run of four pushes. */
  lemma SelectFour<T>(x: seq<T>, k: seq<bool>)
    requires |x| == |k| == 4
    ensures Select(x, k) == Push(Push(Push(Push([], k[0], x[0]), k[1], x[1]), k[2], x[2]), k[3], x[3])
  {
    assert x[..4] == x && k[..4] == k;
    SelectStep(x, k, 4); SelectStep(x, k, 3); SelectStep(x, k, 2); SelectStep(x, k, 1);
    assert x[..0] == [] && k[..0] == [];
  }

  /** A run of eight pushes. */
  lemma SelectEight<T>(x: seq<T>, k: seq<bool>)
    requires |x| == |k| == 8
    ensures Select(x, k) ==
      Push(Push(Push(Push(Push(Push(Push(Push([], k[0], x[0]), k[1], x[1]), k[2], x[2]),
        k[3], x[3]), k[4], x[4]), k[5], x[5]), k[6], x[6]), k[7], x[7])
  {
    assert x[..8] == x && k[..8] == k;
    SelectStep(x, k, 8); SelectStep(x, k, 7); SelectStep(x, k, 6); SelectStep(x, k, 5);
    SelectStep(x, k, 4); SelectStep(x, k, 3); SelectStep(x, k, 2); SelectStep(x, k, 1);
    assert x[..0] == [] && k[..0] == [];
  }

  /** A run of nine pushes. */
  lemma SelectNine<T>(x: seq<T>, k: seq<bool>)
    requires |x| == |k| == 9
    ensures Select(x, k) ==
      Push(Push(Push(Push(Push(Push(Push(Push(Push([], k[0], x[0]), k[1], x[1]), k[2], x[2]),
        k[3], x[3]), k[4], x[4]), k[5], x[5]), k[6], x[6]), k[7], x[7]), k[8], x[8])
  {
    assert x[..9] == x && k[..9] == k;
    SelectStep(x, k, 9); SelectStep(x, k, 8); SelectStep(x, k, 7); SelectStep(x, k, 6); SelectStep(x, k, 5);
    SelectStep(x, k, 4); SelectStep(x, k, 3); SelectStep(x, k, 2); SelectStep(x, k, 1);
    assert x[..0] == [] && k[..0] == [];
  }

  /** A value is selected iff some candidate equal to it has its flag set. */
  lemma {:induction false} SelectContains<T>(cands: seq<T>, keep: seq<bool>, x: T)
    requires |cands| == |keep|
    ensures x in Select(cands, keep) <==> exists i :: 0 <= i < |cands| && cands[i] == x && keep[i]
  {
    if cands != [] {
      var n := |cands| - 1;
      var fc, fk := Front(cands), Front(keep);
      SelectContains(fc, fk, x);
      if x in Select(fc, fk) {
        var i :| 0 <= i < n && fc[i] == x && fk[i];
        assert cands[i] == x && keep[i];
      }
      if exists i :: 0 <= i < |cands| && cands[i] == x && keep[i] {
        var i :| 0 <= i < |cands| && cands[i] == x && keep[i];
        if i < n {
          assert fc[i] == x && fk[i];
        }
      }
    }
  }

  /** With distinct candidates, candidate i is present iff flag i is set. */
  lemma SelectMember<T>(cands: seq<T>, keep: seq<bool>, i: nat)
    requires |cands| == |keep| && i < |cands| && Distinct(cands)
    ensures cands[i] in Select(cands, keep) <==> keep[i]
  {
    SelectContains(cands, keep, cands[i]);
  }

  /** The selection lists its elements in candidate order. */
  lemma {:induction false} SelectIsSubsequence<T>(cands: seq<T>, keep: seq<bool>)
    requires |cands| == |keep|
    ensures IsSubsequence(Select(cands, keep), cands)
  {
    if cands != [] {
      var r, front := Select(cands, keep), Select(Front(cands), Front(keep));
      SelectIsSubsequence(Front(cands), Front(keep));
      if Last(keep) {
        assert Last(r) == Last(cands) && Front(r) == front;
      } else {
        assert r == front;
      }
    }
  }

  /** `tokens.join(' ')`. */
  function Join(tokens: seq<string>): string {
    if tokens == [] then ""
    else if |tokens| == 1 then tokens[0]
    else tokens[0] + " " + Join(tokens[1..])
  }

  /** A token that can be read back from a space-joined list: non-empty, no space. */
  predicate IsWord(t: string) {
    t != "" && ' ' !in t
  }

  /** The longest prefix of s without a space. */
  function FirstWord(s: string): (w: string)
    ensures |w| <= |s| && w == s[..|w|]
    ensures |w| < |s| ==> s[|w|] == ' '
    ensures ' ' !in w
  {
    if s == "" || s[0] == ' ' then "" else [s[0]] + FirstWord(s[1..])
  }

  /** The space-separated words of s, left to right. */
  function Split(s: string): seq<string>
    decreases |s|
  {
    if s == "" then []
    else
      var w := FirstWord(s);
      if |w| == |s| then [w] else [w] + Split(s[|w| + 1..])
  }

  lemma {:induction false} FirstWordOfWord(t: string, rest: string)
    requires ' ' !in t
    ensures FirstWord(t) == t
    ensures FirstWord(t + " " + rest) == t
  {
    if t != "" {
      assert (t + " " + rest)[1..] == t[1..] + " " + rest;
      FirstWordOfWord(t[1..], rest);
    } else {
      assert (t + " " + rest)[0] == ' ';
    }
  }

  /** Reading a joined list of words back gives the same words. */
  lemma {:induction false} SplitJoin(tokens: seq<string>)
    requires forall k :: 0 <= k < |tokens| ==> IsWord(tokens[k])
    ensures Split(Join(tokens)) == tokens
  {
    if |tokens| == 1 {
      FirstWordOfWord(tokens[0], "");
    } else if |tokens| > 1 {
      var t, rest := tokens[0], Join(tokens[1..]);
      FirstWordOfWord(t, rest);
      var s := t + " " + rest;
      assert s[|t| + 1..] == rest;
      SplitJoin(tokens[1..]);
    }
  }
}
