/** The few Python string and list operations the gateway depends on. */
module Text {
  import opened Wrappers

  /** The characters for which Python's `str.isspace()` holds; `str.strip()` removes exactly these. */
  predicate IsSpace(c: char) {
    || ('\t' <= c <= '\r')
    || ('\U{1c}' <= c <= '\U{1f}')
    || c == ' ' || c == '\U{85}' || c == '\U{a0}' || c == '\U{1680}'
    || ('\U{2000}' <= c <= '\U{200a}')
    || c == '\U{2028}' || c == '\U{2029}' || c == '\U{202f}' || c == '\U{205f}' || c == '\U{3000}'
  }

  predicate AllSpace(s: string) {
    forall k :: 0 <= k < |s| ==> IsSpace(s[k])
  }

  /** Neither the first nor the last character is whitespace. */
  predicate Trimmed(s: string) {
    s == [] || (!IsSpace(s[0]) && !IsSpace(s[|s| - 1]))
  }

  /** How many whitespace characters `s` starts with. */
  function LeadingSpace(s: string): (n: nat)
    ensures n <= |s| && AllSpace(s[..n])
    ensures n < |s| ==> !IsSpace(s[n])
  {
    if s != [] && IsSpace(s[0]) then
      var n := 1 + LeadingSpace(s[1..]);
      PrefixOfTail(s, n);
      n
    else
      0
  }

  /** How many whitespace characters `s` ends with. */
  function TrailingSpace(s: string): (n: nat)
    ensures n <= |s| && AllSpace(s[|s| - n..])
    ensures n < |s| ==> !IsSpace(s[|s| - n - 1])
  {
    if s != [] && IsSpace(s[|s| - 1]) then
      var n := 1 + TrailingSpace(s[..|s| - 1]);
      SuffixOfInit(s, n);
      n
    else
      0
  }

  /**
   * Python's `s.strip()`: the slice of `s` left once its leading and its trailing whitespace
   * are removed, which neither starts nor ends with whitespace.
   */
  function Strip(s: string): (r: string)
    ensures |r| <= |s|
    ensures exists i :: 0 <= i <= |s| - |r| && r == s[i..i + |r|] && AllSpace(s[..i]) && AllSpace(s[i + |r|..])
    ensures Trimmed(r)
  {
    var i := LeadingSpace(s);
    var j := TrailingSpace(s[i..]);
    StripParts(s, i, j);
    s[i..|s| - j]
  }

  /** Cutting a whitespace run of length `i` from the front and one of length `j` from the back. */
  lemma StripParts(s: string, i: nat, j: nat)
    requires i + j <= |s|
    requires AllSpace(s[..i]) && (i < |s| ==> !IsSpace(s[i]))
    requires AllSpace(s[i..][|s| - i - j..]) && (j < |s| - i ==> !IsSpace(s[i..][|s| - i - j - 1]))
    ensures var r := s[i..|s| - j];
      r == s[i..i + |r|] && AllSpace(s[..i]) && AllSpace(s[i + |r|..]) && Trimmed(r)
  {
    SuffixOfDrop(s, i, j);
  }

  lemma PrefixOfTail<T>(s: seq<T>, n: int)
    requires 1 <= n <= |s|
    ensures s[..n] == [s[0]] + s[1..][..n - 1]
  {
  }

  lemma SuffixOfInit<T>(s: seq<T>, n: int)
    requires 1 <= n <= |s|
    ensures s[|s| - n..] == s[..|s| - 1][|s| - n..] + [s[|s| - 1]]
  {
  }

  lemma SuffixOfDrop<T>(s: seq<T>, i: int, j: int)
    requires 0 <= i && 0 <= j && i + j <= |s|
    ensures s[i..][|s| - i - j..] == s[|s| - j..]
    ensures s[i..|s| - j] == s[i..][..|s| - i - j]
  {
  }

  /** A string without whitespace at its ends is left alone. */
  lemma StripTrimmed(s: string)
    requires Trimmed(s)
    ensures Strip(s) == s
  {
    assert LeadingSpace(s) == 0;
    assert s[0..] == s;
    assert TrailingSpace(s) == 0;
  }

  /** Whitespace around a word that itself has none at its ends is exactly what `strip` removes. */
  lemma StripOfPadded(before: string, t: string, after: string)
    requires AllSpace(before) && AllSpace(after)
    requires t != [] && Trimmed(t)
    ensures Strip(before + t + after) == t
  {
    var s := before + t + after;
    LeadingOfPadded(before, t + after);
    assert s == before + (t + after) && s[|before|..] == t + after;
    TrailingOfPadded(t, after);
    assert s[|before|..|s| - |after|] == t;
  }

  /** A whitespace prefix followed by a non-whitespace character is counted exactly. */
  lemma {:induction false} LeadingOfPadded(pad: string, t: string)
    requires AllSpace(pad) && (t == [] || !IsSpace(t[0]))
    ensures LeadingSpace(pad + t) == |pad|
    decreases |pad|
  {
    if pad == [] {
      assert pad + t == t;
    } else {
      assert (pad + t)[0] == pad[0] && (pad + t)[1..] == pad[1..] + t;
      LeadingOfPadded(pad[1..], t);
    }
  }

  /** A whitespace suffix after a non-whitespace character is counted exactly. */
  lemma {:induction false} TrailingOfPadded(t: string, pad: string)
    requires AllSpace(pad) && (t == [] || !IsSpace(t[|t| - 1]))
    ensures TrailingSpace(t + pad) == |pad|
    decreases |pad|
  {
    if pad == [] {
      assert t + pad == t;
    } else {
      var init := pad[..|pad| - 1];
      assert (t + pad)[|t + pad| - 1] == pad[|pad| - 1] && (t + pad)[..|t + pad| - 1] == t + init;
      TrailingOfPadded(t, init);
    }
  }

  /** A string strips to nothing exactly when it is all whitespace. */
  lemma StripEmpty(s: string)
    ensures Strip(s) == [] <==> AllSpace(s)
  {
    var i := LeadingSpace(s);
    var j := TrailingSpace(s[i..]);
    if AllSpace(s) {
      assert i == |s|;
      assert s[i..] == [];
    }
    if Strip(s) == [] {
      assert s[i..][|s| - i - j..] == s[i..];
      AllSpaceConcat(s[..i], s[i..]);
      assert s[..i] + s[i..] == s;
    }
  }

  lemma AllSpaceConcat(a: string, b: string)
    requires AllSpace(a) && AllSpace(b)
    ensures AllSpace(a + b)
  {
    forall k | 0 <= k < |a + b|
      ensures IsSpace((a + b)[k])
    {
      if k < |a| {
        assert (a + b)[k] == a[k];
      } else {
        assert (a + b)[k] == b[k - |a|];
      }
    }
  }

  /** Python's `s.startswith(prefix)`: `s` agrees with `prefix` at each of its positions. */
  function StartsWith(s: string, prefix: string): (b: bool)
    ensures b <==> |prefix| <= |s| && forall k :: 0 <= k < |prefix| ==> s[k] == prefix[k]
    ensures b ==> s == prefix + s[|prefix|..]
  {
    |prefix| <= |s| && s[..|prefix|] == prefix
  }

  /**
   * Python's `"".join(parts)`. With `JoinAppend` this pins it down: nothing for no parts, the
   * part itself for one, and the joins of two lists side by side for their concatenation.
   */
  function Join(parts: seq<string>): (r: string)
    ensures parts == [] ==> r == ""
    ensures |parts| == 1 ==> r == parts[0]
  {
    if parts == [] then "" else parts[0] + Join(parts[1..])
  }

  /** Joining a concatenation of lists is concatenating their joins. */
  lemma {:induction false} JoinAppend(a: seq<string>, b: seq<string>)
    ensures Join(a + b) == Join(a) + Join(b)
  {
    if a == [] {
      assert a + b == b;
    } else {
      assert (a + b)[1..] == a[1..] + b;
      JoinAppend(a[1..], b);
    }
  }

  /** Every part is a contiguous piece of the joined string, so the joined string is at least as long. */
  lemma {:induction false} JoinLongerThanPart(parts: seq<string>, i: int)
    requires 0 <= i < |parts|
    ensures |Join(parts)| >= |parts[i]|
  {
    if i > 0 {
      JoinLongerThanPart(parts[1..], i - 1);
    }
  }

  /** Python's `xs[i]` for a list: negative indices count from the end; anything else raises IndexError. */
  function PyIndex<T>(xs: seq<T>, i: int): (r: Option<T>)
    ensures r.Some? <==> -|xs| <= i < |xs|
  {
    if 0 <= i < |xs| then Some(xs[i])
    else if -|xs| <= i < 0 then Some(xs[|xs| + i])
    else None
  }
}
