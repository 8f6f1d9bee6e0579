/** Small facts about strings used by the installer model: suffixes,
    occurrence of a substring, splitting at a character. */
module Text {
  import opened Wrappers

  /** `suffix` is a suffix of `s`. (A prefix is written `p <= s`.) */
  predicate EndsWith(s: string, suffix: string) {
    |suffix| <= |s| && s[|s| - |suffix|..] == suffix
  }

  /** `sub` occurs in `s` as a contiguous piece. */
  predicate Contains(s: string, sub: string)
    decreases |s|
  {
    sub <= s || (|s| > 0 && Contains(s[1..], sub))
  }

  lemma {:induction false} ContainsMiddle(pre: string, sub: string, post: string)
    ensures Contains(pre + sub + post, sub)
  {
    if pre == [] {
      assert pre + sub + post == sub + post;
    } else {
      assert (pre + sub + post)[1..] == pre[1..] + sub + post;
      ContainsMiddle(pre[1..], sub, post);
    }
  }

  /** Splits `s` at the first occurrence of `c`: the text before it and the
      text after it, or None when `c` does not occur. */
  function SplitFirst(s: string, c: char): (r: Option<(string, string)>)
    ensures r.None? <==> c !in s
    ensures r.Some? ==> s == r.value.0 + ([c] + r.value.1) && c !in r.value.0
  {
    if s == [] then None
    else if s[0] == c then Some(([], s[1..]))
    else match SplitFirst(s[1..], c)
      case None => None
      case Some((before, after)) => Some(([s[0]] + before, after))
  }

  /** Splitting a text built as `before + ([c] + after)` finds exactly that
      split when `before` does not contain `c`. */
  lemma {:induction false} SplitFirstOfJoin(before: string, c: char, after: string)
    requires c !in before
    ensures SplitFirst(before + ([c] + after), c) == Some((before, after))
  {
    var s := before + ([c] + after);
    var r := SplitFirst(s, c);
    assert s[|before|] == c;
    var b, a := r.value.0, r.value.1;
    assert forall i :: 0 <= i < |before| ==> s[i] != c;
    assert s[|b|] == c;
    if |b| < |before| {
      assert false;
    } else if |b| > |before| {
      assert false;
    }
    assert b == s[..|b|] == before;
    assert a == s[|b| + 1..] == after;
  }

  /** A suffix of `s` stays a suffix when text is put in front of `s`. */
  lemma EndsWithPrepend(x: string, s: string, suffix: string)
    requires EndsWith(s, suffix)
    ensures EndsWith(x + s, suffix)
  {
    assert (x + s)[|x + s| - |suffix|..] == s[|s| - |suffix|..];
  }

  /** Of two suffixes of `s`, the shorter is a suffix of the longer. */
  lemma EndsWithOfSuffix(s: string, longer: string, shorter: string)
    requires EndsWith(s, longer) && |shorter| <= |longer|
    ensures EndsWith(s, shorter) <==> EndsWith(longer, shorter)
  {
    assert s[|s| - |shorter|..] == longer[|longer| - |shorter|..];
  }

  /** The text after the last occurrence of `c` in `s`: the longest suffix
      of `s` free of `c` (the last segment of a `/`-separated path). */
  function AfterLast(s: string, c: char): (r: string)
    ensures c !in r && EndsWith(s, r)
    ensures |r| < |s| ==> s[|s| - |r| - 1] == c
  {
    if s == [] then []
    else if s[|s| - 1] == c then []
    else AfterLast(s[..|s| - 1], c) + [s[|s| - 1]]
  }

  lemma {:induction false} AfterLastOfJoin(before: string, c: char, after: string)
    requires c !in after
    ensures AfterLast(before + ([c] + after), c) == after
  {
    var s := before + ([c] + after);
    if after != [] {
      assert s[..|s| - 1] == before + ([c] + after[..|after| - 1]);
      AfterLastOfJoin(before, c, after[..|after| - 1]);
    }
  }
}
