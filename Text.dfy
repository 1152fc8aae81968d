/**
 * The string operations the data function relies on: Python's `str.strip()`
 * and `str.join`, together with a splitting function that undoes `join`.
 */
module Text {

  /**
   * The characters for which Python's `str.isspace()` holds: the ASCII
   * controls TAB..CR and FS..US, SPACE, NEL, NO-BREAK SPACE, and the Unicode
   * separators OGHAM SPACE MARK, EN QUAD..HAIR SPACE, LINE and PARAGRAPH
   * SEPARATOR, NARROW NO-BREAK SPACE, MEDIUM MATHEMATICAL SPACE and
   * IDEOGRAPHIC SPACE.
   */
  predicate IsSpace(c: char): (b: bool)
    ensures c < '\U{80}' ==>
      (b <==> (c == ' ' || c == '\t' || c == '\n' || c == '\r' || c == '\U{B}' || c == '\U{C}'
               || c == '\U{1C}' || c == '\U{1D}' || c == '\U{1E}' || c == '\U{1F}'))
    ensures b ==> c <= '\U{3000}'
  {
    ('\t' <= c <= '\r') || ('\U{1C}' <= c <= '\U{1F}') || c == ' '
    || c == '\U{85}' || c == '\U{A0}' || c == '\U{1680}'
    || ('\U{2000}' <= c <= '\U{200A}') || c == '\U{2028}' || c == '\U{2029}'
    || c == '\U{202F}' || c == '\U{205F}' || c == '\U{3000}'
  }

  predicate AllSpace(s: string) {
    forall i :: 0 <= i < |s| ==> IsSpace(s[i])
  }

  /** Neither end of `s` is whitespace (true of the empty string). */
  predicate Trimmed(s: string) {
    s == [] || (!IsSpace(s[0]) && !IsSpace(s[|s| - 1]))
  }

  /** `str.lstrip()`: drops the leading whitespace (characterised by `LStripSpec`). */
  function LStrip(s: string): string
    decreases |s|
  {
    if |s| > 0 && IsSpace(s[0]) then LStrip(s[1..]) else s
  }

  /** `str.rstrip()`: drops the trailing whitespace (characterised by `RStripSpec`). */
  function RStrip(s: string): string
    decreases |s|
  {
    if |s| > 0 && IsSpace(s[|s| - 1]) then RStrip(s[..|s| - 1]) else s
  }

  /** `str.strip()`: drops whitespace at both ends (characterised by `StripSpec`). */
  function Strip(s: string): (r: string)
    ensures |r| <= |s|
    ensures Trimmed(r)
  {
    StripSpec(s);
    RStrip(LStrip(s))
  }

  /** `lstrip` removes exactly the longest all-whitespace prefix. */
  lemma {:induction false} LStripSpec(s: string)
    ensures var r := LStrip(s);
      && |r| <= |s| && r == s[|s| - |r|..]
      && AllSpace(s[..|s| - |r|])
      && (r == [] || !IsSpace(r[0]))
    decreases |s|
  {
    if |s| > 0 && IsSpace(s[0]) {
      LStripSpec(s[1..]);
      var r := LStrip(s);
      assert s[1..][|s| - 1 - |r|..] == s[|s| - |r|..];
      assert s[..|s| - |r|] == [s[0]] + s[1..][..|s| - 1 - |r|];
    }
  }

  /** `rstrip` removes exactly the longest all-whitespace suffix. */
  lemma {:induction false} RStripSpec(s: string)
    ensures var r := RStrip(s);
      && |r| <= |s| && r == s[..|r|]
      && AllSpace(s[|r|..])
      && (r == [] || !IsSpace(r[|r| - 1]))
    decreases |s|
  {
    if |s| > 0 && IsSpace(s[|s| - 1]) {
      RStripSpec(s[..|s| - 1]);
      var r := RStrip(s);
      assert s[..|s| - 1][..|r|] == s[..|r|];
      assert s[|r|..] == s[..|s| - 1][|r|..] + [s[|s| - 1]];
    }
  }

  /**
   * `strip` returns a contiguous slice of `s`; everything before and after
   * the slice is whitespace, and neither end of the slice is.
   */
  lemma StripSpec(s: string)
    ensures |LStrip(s)| <= |s| && |RStrip(LStrip(s))| <= |LStrip(s)|
    ensures var r := RStrip(LStrip(s)); var lead := |s| - |LStrip(s)|;
      && lead + |r| <= |s| && r == s[lead..lead + |r|]
      && AllSpace(s[..lead]) && AllSpace(s[lead + |r|..])
      && Trimmed(r)
  {
    var l := LStrip(s);
    LStripSpec(s);
    RStripSpec(l);
    var r := RStrip(l);
    var lead := |s| - |l|;
    assert r == s[lead..lead + |r|] by {
      assert l == s[lead..];
    }
    assert AllSpace(s[lead + |r|..]) by {
      assert l[|r|..] == s[lead + |r|..];
    }
    assert Trimmed(r) by {
      assert r != [] ==> r[0] == l[0];
    }
  }

  lemma {:induction false} LStripSpacePrefix(a: string, m: string)
    requires AllSpace(a)
    requires m == [] || !IsSpace(m[0])
    ensures LStrip(a + m) == m
    decreases |a|
  {
    if a == [] {
      assert a + m == m;
    } else {
      assert (a + m)[1..] == a[1..] + m;
      LStripSpacePrefix(a[1..], m);
    }
  }

  lemma {:induction false} RStripSpaceSuffix(m: string, b: string)
    requires AllSpace(b)
    requires m == [] || !IsSpace(m[|m| - 1])
    ensures RStrip(m + b) == m
    decreases |b|
  {
    if b == [] {
      assert m + b == m;
    } else {
      assert (m + b)[..|m + b| - 1] == m + b[..|b| - 1];
      RStripSpaceSuffix(m, b[..|b| - 1]);
    }
  }

  /**
   * An independent characterisation of `Strip`: whenever `s` is a
   * whitespace margin, a trimmed middle and a whitespace margin, `Strip`
   * returns that middle.
   */
  lemma StripOfPadded(a: string, m: string, b: string)
    requires AllSpace(a) && AllSpace(b) && Trimmed(m)
    ensures Strip(a + m + b) == m
  {
    if m == [] {
      assert AllSpace(a + m + b);
      LStripSpacePrefix(a + m + b, []);
      assert a + m + b + [] == a + m + b;
    } else {
      assert a + m + b == a + (m + b);
      LStripSpacePrefix(a, m + b);
      RStripSpaceSuffix(m, b);
    }
  }

  /** Stripping twice is stripping once. */
  lemma StripIdempotent(s: string)
    ensures Strip(Strip(s)) == Strip(s)
  {
    var m := Strip(s);
    StripOfPadded([], m, []);
    assert [] + m + [] == m;
  }

  /** A string strips to nothing exactly when it is all whitespace. */
  lemma StripEmptyIff(s: string)
    ensures Strip(s) == [] <==> AllSpace(s)
  {
    StripSpec(s);
    if AllSpace(s) {
      StripOfPadded(s, [], []);
      assert s + [] + [] == s;
    }
  }

  /** Python's `sep.join(parts)`: starts with the first part and ends with the last. */
  function Join(parts: seq<string>, sep: string): (r: string)
    ensures parts == [] ==> r == ""
    ensures parts != [] ==> parts[0] <= r
    ensures parts != [] ==> |parts[|parts| - 1]| <= |r| && r[|r| - |parts[|parts| - 1]|..] == parts[|parts| - 1]
    decreases |parts|
  {
    if |parts| == 0 then ""
    else if |parts| == 1 then parts[0]
    else parts[0] + sep + Join(parts[1..], sep)
  }

  /**
   * Python's `s.split(sep)` for a non-empty separator: the pieces between
   * the leftmost non-overlapping occurrences of `sep`.
   */
  function Split(s: string, sep: string): (parts: seq<string>)
    requires sep != []
    ensures |parts| > 0
    decreases |s|
  {
    if s == [] then [""]
    else if sep <= s then [""] + Split(s[|sep|..], sep)
    else
      var rest := Split(s[1..], sep);
      [[s[0]] + rest[0]] + rest[1..]
  }

  lemma {:induction false} SplitAfterPlain(x: string, t: string, sep: string)
    requires sep != [] && sep[0] !in x
    ensures Split(x + t, sep) == [x + Split(t, sep)[0]] + Split(t, sep)[1..]
    decreases |x|
  {
    if x == [] {
      assert x + t == t;
      var p := Split(t, sep);
      assert x + p[0] == p[0];
      assert [p[0]] + p[1..] == p;
    } else {
      assert (x + t)[0] == x[0] != sep[0];
      assert (x + t)[1..] == x[1..] + t;
      SplitAfterPlain(x[1..], t, sep);
      assert [x[0]] + (x[1..] + Split(t, sep)[0]) == x + Split(t, sep)[0];
    }
  }

  /**
   * `split` undoes `join` when no part contains the separator's first
   * character, so the joined string determines the parts.
   */
  lemma {:induction false} SplitJoin(parts: seq<string>, sep: string)
    requires sep != [] && |parts| > 0
    requires forall i :: 0 <= i < |parts| ==> sep[0] !in parts[i]
    ensures Split(Join(parts, sep), sep) == parts
    decreases |parts|
  {
    if |parts| == 1 {
      SplitAfterPlain(parts[0], "", sep);
      assert parts[0] + "" == parts[0];
    } else {
      var rest := Join(parts[1..], sep);
      assert Join(parts, sep) == parts[0] + (sep + rest);
      SplitAfterPlain(parts[0], sep + rest, sep);
      assert (sep + rest)[|sep|..] == rest;
      SplitJoin(parts[1..], sep);
      assert Split(sep + rest, sep) == [""] + parts[1..];
      assert parts[0] + "" == parts[0];
      assert [parts[0]] + parts[1..] == parts;
    }
  }

  /** `t` occurs in `s` as a contiguous piece. */
  predicate Contains(s: string, t: string) {
    exists k :: 0 <= k <= |s| && t <= s[k..]
  }

  lemma ContainsFront(t: string, b: string)
    ensures Contains(t + b, t)
  {
    assert (t + b)[0..] == t + b;
  }

  lemma ContainsBehind(a: string, s: string, t: string)
    requires Contains(s, t)
    ensures Contains(a + s, t)
  {
    var k :| 0 <= k <= |s| && t <= s[k..];
    assert (a + s)[|a| + k..] == s[k..];
  }

  /** A string followed by anything and preceded by anything occurs in the whole. */
  lemma ContainsAfter(a: string, t: string, b: string)
    ensures Contains(a + (t + b), t)
  {
    ContainsFront(t, b);
    ContainsBehind(a, t + b, t);
  }

  /** A string placed between two others is found at the end of the first. */
  lemma ContainsBetween(a: string, t: string, b: string)
    ensures (a + t + b)[|a|..] == t + b
    ensures Contains(a + t + b, t)
  {
    assert (a + t + b)[|a|..] == t + b;
    assert t <= (a + t + b)[|a|..];
  }
}
