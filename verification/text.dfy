/** The string operations the scraper applies to page text and form input:
    `strip()` and `upper()` restricted to ASCII, and substring search. */
module Text {

  /** The ASCII characters Python's `str.strip()` removes: space, tab, line
      feed, vertical tab, form feed, carriage return, and the four separators
      0x1C to 0x1F. */
  predicate IsSpace(c: char) {
    || c == ' ' || c == '\t' || c == '\n' || c == '\U{B}' || c == '\U{C}' || c == '\r'
    || c == '\U{1C}' || c == '\U{1D}' || c == '\U{1E}' || c == '\U{1F}'
  }

  predicate AllSpace(s: string) {
    forall k | 0 <= k < |s| :: IsSpace(s[k])
  }

  /** Neither end of `t` is whitespace. */
  predicate Trimmed(t: string) {
    t == [] || (!IsSpace(t[0]) && !IsSpace(t[|t| - 1]))
  }

  predicate IsLower(c: char) {
    'a' <= c <= 'z'
  }

  /** Drops the leading whitespace: the result does not start with whitespace
      (TrimStartSplits shows that only whitespace was dropped). */
  function TrimStart(s: string): (r: string)
    ensures |r| <= |s|
    ensures r == [] || !IsSpace(r[0])
  {
    if |s| > 0 && IsSpace(s[0]) then TrimStart(s[1..]) else s
  }

  /** Drops the trailing whitespace: the result is a prefix that does not end
      with whitespace (TrimEndSplits shows that only whitespace was dropped). */
  function TrimEnd(s: string): (r: string)
    ensures |r| <= |s| && r == s[..|r|]
    ensures r == [] || !IsSpace(r[|r| - 1])
  {
    if |s| > 0 && IsSpace(s[|s| - 1]) then TrimEnd(s[..|s| - 1]) else s
  }

  /** `str.strip()`. */
  function Strip(s: string): (r: string)
    ensures Trimmed(r)
    ensures |r| <= |s|
  {
    var t := TrimStart(s);
    var r := TrimEnd(t);
    assert r == [] || r[0] == t[0];
    r
  }

  lemma {:induction false} AllSpaceConcat(a: string, b: string)
    requires AllSpace(a) && AllSpace(b)
    ensures AllSpace(a + b)
  {
    assert forall k | |a| <= k < |a + b| :: (a + b)[k] == b[k - |a|];
  }

  /** TrimStart drops only whitespace: `pre` is what it dropped. */
  lemma {:induction false} TrimStartSplits(s: string) returns (pre: string)
    ensures s == pre + TrimStart(s) && AllSpace(pre)
    decreases |s|
  {
    if |s| > 0 && IsSpace(s[0]) {
      var tail := s[1..];
      var p := TrimStartSplits(tail);
      pre := [s[0]] + p;
      assert AllSpace(pre) by {
        AllSpaceConcat([s[0]], p);
      }
      assert s == pre + TrimStart(s) by {
        assert TrimStart(s) == TrimStart(tail);
        assert s == [s[0]] + tail;
        assert pre + TrimStart(tail) == [s[0]] + (p + TrimStart(tail));
      }
    } else {
      pre := [];
      assert TrimStart(s) == s;
    }
  }

  /** TrimEnd drops only whitespace: `post` is what it dropped. */
  lemma {:induction false} TrimEndSplits(s: string) returns (post: string)
    ensures s == TrimEnd(s) + post && AllSpace(post)
    decreases |s|
  {
    if |s| > 0 && IsSpace(s[|s| - 1]) {
      var n := |s| - 1;
      var init := s[..n];
      var p := TrimEndSplits(init);
      post := p + [s[n]];
      assert AllSpace(post) by {
        AllSpaceConcat(p, [s[n]]);
      }
      assert s == TrimEnd(s) + post by {
        assert TrimEnd(s) == TrimEnd(init);
        assert s == init + [s[n]];
        assert TrimEnd(init) + post == (TrimEnd(init) + p) + [s[n]];
      }
    } else {
      post := [];
      assert TrimEnd(s) == s;
    }
  }

  /** Strip keeps a middle part of its input and drops only whitespace around
      it: `pre` and `post` are the dropped parts. */
  lemma {:induction false} StripSplits(s: string) returns (pre: string, post: string)
    ensures s == pre + Strip(s) + post
    ensures AllSpace(pre) && AllSpace(post)
  {
    var t := TrimStart(s);
    pre := TrimStartSplits(s);
    post := TrimEndSplits(t);
  }

  /** Strip is determined by its result's shape: whatever whitespace padding
      surrounds a trimmed string, stripping recovers exactly that string. */
  lemma {:induction false} StripOfPadded(pre: string, t: string, post: string)
    requires AllSpace(pre) && AllSpace(post) && Trimmed(t)
    ensures Strip(pre + t + post) == t
  {
    if t == [] {
      var blank := pre + post;
      assert pre + t + post == blank + [];
      AllSpaceConcat(pre, post);
      TrimStartOfPadded(blank, []);
    } else {
      assert pre + t + post == pre + (t + post);
      TrimStartOfPadded(pre, t + post);
      TrimEndOfPadded(t, post);
    }
  }

  lemma {:induction false} TrimStartOfPadded(pre: string, rest: string)
    requires AllSpace(pre)
    requires rest == [] || !IsSpace(rest[0])
    ensures TrimStart(pre + rest) == rest
    decreases |pre|
  {
    if pre != [] {
      assert (pre + rest)[1..] == pre[1..] + rest;
      TrimStartOfPadded(pre[1..], rest);
    }
  }

  lemma {:induction false} TrimEndOfPadded(t: string, post: string)
    requires AllSpace(post)
    requires t == [] || !IsSpace(t[|t| - 1])
    ensures TrimEnd(t + post) == t
    decreases |post|
  {
    if post != [] {
      var n := |post| - 1;
      assert (t + post)[..|t + post| - 1] == t + post[..n];
      TrimEndOfPadded(t, post[..n]);
    }
  }

  /** Stripping twice is stripping once. */
  lemma {:induction false} StripIdempotent(s: string)
    ensures Strip(Strip(s)) == Strip(s)
  {
    var t := Strip(s);
    assert [] + t + [] == t;
    StripOfPadded([], t, []);
  }

  /** `str.upper()` on one character, ASCII letters only. */
  function UpperChar(c: char): char {
    if IsLower(c) then (c as int - 32) as char else c
  }

  /** `str.upper()`. */
  function Upper(s: string): (r: string)
    ensures |r| == |s|
    ensures forall i | 0 <= i < |s| ::
              if IsLower(s[i]) then 'A' <= r[i] <= 'Z' && r[i] as int - 'A' as int == s[i] as int - 'a' as int
              else r[i] == s[i]
  {
    seq(|s|, i requires 0 <= i < |s| => UpperChar(s[i]))
  }

  /** The form a directly typed vehicle number is stored in. */
  predicate IsNormal(t: string) {
    Trimmed(t) && forall k | 0 <= k < |t| :: !IsLower(t[k])
  }

  /** `s.strip().upper()`: the normalisation of a typed vehicle number. */
  function Normalize(s: string): (r: string)
    ensures IsNormal(r)
    ensures |r| <= |s|
    ensures r == [] <==> AllSpace(s)
  {
    var t := Strip(s);
    UpperKeepsTrimmed(t);
    StripEmptyIffBlank(s);
    Upper(t)
  }

  /** Upper-casing a trimmed string gives a normal one. */
  lemma UpperKeepsTrimmed(t: string)
    requires Trimmed(t)
    ensures IsNormal(Upper(t))
  {
    var r := Upper(t);
    if t != [] {
      assert !IsSpace(r[0]) && !IsSpace(r[|r| - 1]);
    }
  }

  /** Stripping leaves nothing exactly when there was nothing but whitespace. */
  lemma {:induction false} StripEmptyIffBlank(s: string)
    ensures Strip(s) == [] <==> AllSpace(s)
  {
    var t := Strip(s);
    var pre, post := StripSplits(s);
    if t == [] {
      assert s == pre + post;
      AllSpaceConcat(pre, post);
    } else {
      assert s[|pre|] == t[0];
    }
  }

  /** Normalisation leaves an already normal string alone. */
  lemma {:induction false} NormalizeFixesNormal(t: string)
    requires IsNormal(t)
    ensures Normalize(t) == t
  {
    assert [] + t + [] == t;
    StripOfPadded([], t, []);
  }

  /** Normalising twice is normalising once. */
  lemma {:induction false} NormalizeIdempotent(s: string)
    ensures Normalize(Normalize(s)) == Normalize(s)
  {
    NormalizeFixesNormal(Normalize(s));
  }

  /** Stripping does not look at surrounding whitespace. */
  lemma {:induction false} StripIgnoresPadding(pre: string, s: string, post: string)
    requires AllSpace(pre) && AllSpace(post)
    ensures Strip(pre + s + post) == Strip(s)
  {
    var t := Strip(s);
    var p, q := StripSplits(s);
    var u, w := pre + p, q + post;
    assert pre + s + post == u + t + w;
    AllSpaceConcat(pre, p);
    AllSpaceConcat(q, post);
    StripOfPadded(u, t, w);
  }

  /** Normalisation does not look at surrounding whitespace. */
  lemma {:induction false} NormalizeIgnoresPadding(pre: string, s: string, post: string)
    requires AllSpace(pre) && AllSpace(post)
    ensures Normalize(pre + s + post) == Normalize(s)
  {
    StripIgnoresPadding(pre, s, post);
  }

  /** `needle` occurs in `s` starting at position `i`. */
  predicate OccursAt(s: string, needle: string, i: int) {
    0 <= i && i + |needle| <= |s| && s[i..i + |needle|] == needle
  }

  /** XPath `contains(text, needle)` and Python `needle in text`. */
  function Contains(s: string, needle: string): (r: bool)
    ensures r <==> exists i :: OccursAt(s, needle, i)
    decreases |s|
  {
    if |s| < |needle| then false
    else if s[..|needle|] == needle then
      assert OccursAt(s, needle, 0);
      true
    else
      var r := Contains(s[1..], needle);
      assert forall i :: OccursAt(s[1..], needle, i) <==> OccursAt(s, needle, i + 1);
      assert !OccursAt(s, needle, 0);
      assert forall i :: OccursAt(s, needle, i) ==> OccursAt(s[1..], needle, i - 1);
      r
  }
}
