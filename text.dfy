/**
 * The few Python `str` operations the core relies on, over ASCII:
 * `lower()`, `strip()`, `replace(" ", "")`, the substring test `in`,
 * `isdigit()` and the negative slice `s[-n:]`.
 */
module Text {

  predicate IsDigit(c: char) {
    '0' <= c <= '9'
  }

  predicate AllDigits(s: string) {
    forall i :: 0 <= i < |s| ==> IsDigit(s[i])
  }

  /** The characters `str.isspace()` accepts in the ASCII range. */
  predicate IsSpace(c: char) {
    c == ' ' || '\t' <= c <= '\r' || '\U{1c}' <= c <= '\U{1f}'
  }

  predicate AllSpace(s: string) {
    forall i :: 0 <= i < |s| ==> IsSpace(s[i])
  }

  function LowerChar(c: char): (r: char)
    ensures 'A' <= c <= 'Z' ==> 'a' <= r <= 'z'
    ensures !('A' <= c <= 'Z') ==> r == c
    ensures IsSpace(r) == IsSpace(c)
  {
    if 'A' <= c <= 'Z' then (c as int - 'A' as int + 'a' as int) as char else c
  }

  /** `s.lower()` */
  function Lower(s: string): (r: string)
    ensures |r| == |s|
    ensures forall i :: 0 <= i < |s| ==> r[i] == LowerChar(s[i])
  {
    seq(|s|, i requires 0 <= i < |s| => LowerChar(s[i]))
  }

  /** A string with no upper-case letter is its own `lower()`. */
  lemma LowerNoUpper(s: string)
    requires forall i :: 0 <= i < |s| ==> !('A' <= s[i] <= 'Z')
    ensures Lower(s) == s
  {
  }

  /** `s.replace(" ", "")` */
  function RemoveSpaces(s: string): (r: string)
    ensures ' ' !in r
    ensures |r| <= |s|
  {
    if s == [] then []
    else (if s[0] == ' ' then [] else [s[0]]) + RemoveSpaces(s[1..])
  }

  /** `needle in hay` for strings: some contiguous slice of `hay` is `needle`. */
  predicate Contains(hay: string, needle: string)
    decreases |hay|
  {
    needle <= hay || (hay != [] && Contains(hay[1..], needle))
  }

  /** `"".join(ch for ch in s if ch.isdigit())` */
  function Digits(s: string): (r: string)
    ensures AllDigits(r)
    ensures |r| <= |s|
  {
    if s == [] then []
    else (if IsDigit(s[0]) then [s[0]] else []) + Digits(s[1..])
  }

  /** `s[-n:]`: the last `n` characters, or all of `s` when it is shorter. */
  function Last(s: string, n: nat): (r: string)
    ensures |r| == Min(n, |s|)
    ensures r == s[|s| - |r|..]
  {
    if |s| >= n then s[|s| - n..] else s
  }

  function Min(a: nat, b: nat): (r: nat) {
    if a <= b then a else b
  }

  function TrimLeft(s: string): (r: string)
    ensures r == [] || !IsSpace(r[0])
    ensures |r| <= |s| && r == s[|s| - |r|..]
  {
    if s != [] && IsSpace(s[0]) then TrimLeft(s[1..]) else s
  }

  function TrimRight(s: string): (r: string)
    ensures r == [] || !IsSpace(r[|r| - 1])
    ensures |r| <= |s| && r == s[..|r|]
  {
    if s != [] && IsSpace(s[|s| - 1]) then TrimRight(s[..|s| - 1]) else s
  }

  /** `s.strip()`: leading and trailing whitespace removed. */
  function Strip(s: string): (r: string) {
    TrimRight(TrimLeft(s))
  }

  /** `s.startswith(p)` */
  predicate StartsWith(s: string, p: string) {
    p <= s
  }

  lemma {:induction false} TrimLeftPadded(pre: string, s: string)
    requires AllSpace(pre)
    ensures TrimLeft(pre + s) == TrimLeft(s)
    decreases |pre|
  {
    if pre == [] {
      assert pre + s == s;
    } else {
      assert IsSpace((pre + s)[0]);
      assert (pre + s)[1..] == pre[1..] + s;
      assert AllSpace(pre[1..]) by {
        forall i | 0 <= i < |pre[1..]| ensures IsSpace(pre[1..][i]) {
          assert pre[1..][i] == pre[i + 1];
        }
      }
      TrimLeftPadded(pre[1..], s);
      assert TrimLeft(pre + s) == TrimLeft((pre + s)[1..]);
    }
  }

  lemma {:induction false} TrimRightPadded(s: string, post: string)
    requires AllSpace(post)
    ensures TrimRight(s + post) == TrimRight(s)
    decreases |post|
  {
    if post == [] {
      assert s + post == s;
    } else {
      assert IsSpace((s + post)[|s + post| - 1]);
      assert (s + post)[..|s + post| - 1] == s + post[..|post| - 1];
      assert AllSpace(post[..|post| - 1]) by {
        var q := post[..|post| - 1];
        forall i | 0 <= i < |q| ensures IsSpace(q[i]) {
          assert q[i] == post[i];
        }
      }
      TrimRightPadded(s, post[..|post| - 1]);
      assert TrimRight(s + post) == TrimRight((s + post)[..|s + post| - 1]);
    }
  }

  /** Whitespace around a string does not change what `strip()` leaves. */
  lemma StripPadded(pre: string, s: string, post: string)
    requires AllSpace(pre) && AllSpace(post)
    ensures Strip(pre + s + post) == Strip(s)
  {
    assert pre + s + post == pre + (s + post);
    TrimLeftPadded(pre, s + post);
    if TrimLeft(s) == [] {
      TrimLeftEmpty(s);
      assert s + post == (s + post) + [];
      TrimLeftPadded(s + post, []);
    } else {
      TrimLeftSuffix(s, post);
      TrimRightPadded(TrimLeft(s), post);
    }
  }

  /** Only an all-whitespace string trims to nothing. */
  lemma {:induction false} TrimLeftEmpty(s: string)
    requires TrimLeft(s) == []
    ensures AllSpace(s)
    decreases |s|
  {
    if s != [] {
      assert IsSpace(s[0]);
      TrimLeftEmpty(s[1..]);
      forall i | 0 <= i < |s| ensures IsSpace(s[i]) {
        if i > 0 { assert s[i] == s[1..][i - 1]; }
      }
    }
  }

  /** Text after the first non-space character does not change where `TrimLeft` stops. */
  lemma {:induction false} TrimLeftSuffix(s: string, post: string)
    requires TrimLeft(s) != []
    ensures TrimLeft(s + post) == TrimLeft(s) + post
    decreases |s|
  {
    if IsSpace(s[0]) {
      TrimLeftSkip(s, post);
      TrimLeftSuffix(s[1..], post);
    } else {
      TrimLeftStop(s, post);
    }
  }

  lemma TrimLeftSkip(s: string, post: string)
    requires s != [] && IsSpace(s[0])
    ensures TrimLeft(s) == TrimLeft(s[1..])
    ensures TrimLeft(s + post) == TrimLeft(s[1..] + post)
  {
    assert (s + post)[1..] == s[1..] + post;
  }

  lemma TrimLeftStop(s: string, post: string)
    requires s != [] && !IsSpace(s[0])
    ensures TrimLeft(s) == s && TrimLeft(s + post) == s + post
  {
    assert (s + post)[0] == s[0];
  }

  lemma {:induction false} LowerTrimLeft(s: string)
    ensures Lower(TrimLeft(s)) == TrimLeft(Lower(s))
    decreases |s|
  {
    if s != [] && IsSpace(s[0]) {
      assert Lower(s)[1..] == Lower(s[1..]);
      LowerTrimLeft(s[1..]);
    }
  }

  lemma {:induction false} LowerTrimRight(s: string)
    ensures Lower(TrimRight(s)) == TrimRight(Lower(s))
    decreases |s|
  {
    if s != [] && IsSpace(s[|s| - 1]) {
      assert Lower(s)[..|s| - 1] == Lower(s[..|s| - 1]);
      LowerTrimRight(s[..|s| - 1]);
    }
  }

  /** Lower-casing and stripping commute: no whitespace character has a case. */
  lemma LowerStrip(s: string)
    ensures Lower(Strip(s)) == Strip(Lower(s))
  {
    LowerTrimRight(TrimLeft(s));
    LowerTrimLeft(s);
  }

  /** A string with no whitespace at either end is its own `strip()`. */
  lemma StripUnpadded(s: string)
    requires s == [] || (!IsSpace(s[0]) && !IsSpace(s[|s| - 1]))
    ensures Strip(s) == s
  {
  }
}
