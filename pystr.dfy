/** The Python string operations the story service relies on: `str(int)`,
    `startswith`, `split('\n')`, `'\n'.join`, `replace(p, '')` and `strip()`. */
module PyStr {

  predicate StartsWith(s: string, p: string) {
    |p| <= |s| && s[..|p|] == p
  }

  predicate EndsWith(s: string, p: string) {
    |p| <= |s| && s[|s| - |p|..] == p
  }

  /** `t` occurs in `s` starting at index `i`. */
  predicate OccursAt(s: string, t: string, i: int) {
    0 <= i <= |s| - |t| && s[i..i + |t|] == t
  }

  /** `t in s` for strings. */
  predicate Contains(s: string, t: string) {
    exists i :: 0 <= i <= |s| - |t| && OccursAt(s, t, i)
  }

  /** `t` sits between `x` and `y`. */
  lemma ContainsMiddle(x: string, t: string, y: string)
    ensures Contains(x + t + y, t)
  {
    assert (x + t + y)[|x|..|x| + |t|] == t;
    assert OccursAt(x + t + y, t, |x|);
  }

  /** Containment is transitive. */
  lemma ContainsWithin(s: string, u: string, w: string)
    requires Contains(s, u) && Contains(u, w)
    ensures Contains(s, w)
  {
    var i :| 0 <= i <= |s| - |u| && OccursAt(s, u, i);
    var j :| 0 <= j <= |u| - |w| && OccursAt(u, w, j);
    var su := s[i..i + |u|];
    assert su == u;
    assert u[j..j + |w|] == w;
    forall k | 0 <= k < |w| ensures s[i + j + k] == w[k] {
      assert s[i + j + k] == su[j + k] == u[j + k] == w[k];
    }
    assert s[i + j..i + j + |w|] == w;
    assert OccursAt(s, w, i + j);
  }

  // ---------------------------------------------------------------- str(int)

  function DigitChar(d: nat): (c: char)
    requires d < 10
    ensures c as int == '0' as int + d
  {
    "0123456789"[d]
  }

  predicate IsDigit(c: char) {
    '0' <= c <= '9'
  }

  /** Decimal digits of a natural number, most significant first, as Python's
      `str` writes them. */
  function NatToString(n: nat): (r: string)
    ensures |r| > 0
    ensures forall i :: 0 <= i < |r| ==> IsDigit(r[i])
    ensures r[0] == '0' <==> n == 0
    decreases n
  {
    if n < 10 then [DigitChar(n)] else NatToString(n / 10) + [DigitChar(n % 10)]
  }

  /** `str(i)` (the f-string `{i}`) for any integer. */
  function IntToString(i: int): (r: string)
    ensures |r| > 0 && IsDigit(r[|r| - 1])
    ensures i >= 0 <==> r[0] != '-'
    ensures i >= 0 ==> (r[0] == '0' <==> i == 0)
    ensures i < 0 ==> |r| > 1 && r[1] != '0'
  {
    if i >= 0 then NatToString(i) else "-" + NatToString(-i)
  }

  /** The value a string of decimal digits denotes. */
  function DigitsValue(s: string): int
    requires forall i :: 0 <= i < |s| ==> IsDigit(s[i])
  {
    if s == [] then 0 else 10 * DigitsValue(s[..|s| - 1]) + (s[|s| - 1] as int - '0' as int)
  }

  /** Reading the digits back gives the number: the rendering loses nothing. */
  lemma {:induction false} NatToStringValue(n: nat)
    ensures DigitsValue(NatToString(n)) == n
    decreases n
  {
    var r := NatToString(n);
    if n < 10 {
      assert r[..|r| - 1] == [];
    } else {
      NatToStringValue(n / 10);
      assert r[..|r| - 1] == NatToString(n / 10);
    }
  }

  lemma IntToStringInjective(i: int, j: int)
    requires IntToString(i) == IntToString(j)
    ensures i == j
  {
    if i >= 0 {
      NatToStringValue(i);
      NatToStringValue(j);
    } else {
      var a, b := NatToString(-i), NatToString(-j);
      assert IntToString(i)[1..] == a && IntToString(j)[1..] == b;
      NatToStringValue(-i);
      NatToStringValue(-j);
    }
  }

  // ------------------------------------------------------ split / join on '\n'

  /** Index of the first '\n', or |s| if there is none. */
  function LineEnd(s: string): (k: nat)
    ensures k <= |s|
    ensures k < |s| ==> s[k] == '\n'
    ensures forall i :: 0 <= i < k ==> s[i] != '\n'
  {
    if s == [] then 0 else if s[0] == '\n' then 0 else 1 + LineEnd(s[1..])
  }

  /** The first line of `h + "\n" + t`, when `h` has no newline, is `h`. */
  lemma {:induction false} LineEndAfter(h: string, t: string)
    requires '\n' !in h
    ensures LineEnd(h + "\n" + t) == |h|
    decreases |h|
  {
    var s := h + "\n" + t;
    if h != [] {
      assert s[1..] == h[1..] + "\n" + t;
      LineEndAfter(h[1..], t);
    }
  }

  /** In `p + line + "\n" + rest`, with no newline in `p` or `line`, the first
      line is `p + line`: it starts with `p`, `line` follows `p`, and `rest`
      follows the newline. */
  lemma FirstLineOf(p: string, line: string, rest: string)
    requires '\n' !in p && '\n' !in line
    ensures var text := p + line + "\n" + rest;
      LineEnd(text) == |p| + |line| < |text|
      && StartsWith(text[..LineEnd(text)], p)
      && text[|p|..LineEnd(text)] == line
      && text[LineEnd(text) + 1..] == rest
  {
    var head := p + line;
    var text := head + "\n" + rest;
    LineEndAfter(head, rest);
    assert text[..|head|] == head;
    assert head[..|p|] == p;
    assert text[|p|..|head|] == line;
    assert text[|head| + 1..] == rest;
  }

  /** `s.split('\n')`: never empty, one more part than there are newlines. */
  function Split(s: string): (parts: seq<string>)
    ensures |parts| > 0
    ensures forall i :: 0 <= i < |parts| ==> '\n' !in parts[i]
    decreases |s|
  {
    var k := LineEnd(s);
    if k == |s| then [s] else [s[..k]] + Split(s[k + 1..])
  }

  /** `'\n'.join(parts)`. */
  function Join(parts: seq<string>): string {
    if parts == [] then ""
    else if |parts| == 1 then parts[0]
    else parts[0] + "\n" + Join(parts[1..])
  }

  /** Joining the parts of a split gives back the string. */
  lemma {:induction false} JoinSplit(s: string)
    ensures Join(Split(s)) == s
    decreases |s|
  {
    var k := LineEnd(s);
    if k < |s| {
      var rest := s[k + 1..];
      JoinSplit(rest);
      JoinCons(s[..k], Split(rest));
      assert s == s[..k] + "\n" + rest by {
        assert s == s[..k] + [s[k]] + s[k + 1..];
      }
    }
  }

  /** Joining a first part onto more parts puts one newline between them. */
  lemma JoinCons(x: string, parts: seq<string>)
    requires |parts| > 0
    ensures Join([x] + parts) == x + "\n" + Join(parts)
  {
    assert ([x] + parts)[1..] == parts;
  }

  /** The first part of a split is the first line, and the other parts rejoined
      are everything after the first '\n' (nothing when there is none). */
  lemma FirstLineAndRest(s: string)
    ensures Split(s)[0] == s[..LineEnd(s)]
    ensures Join(Split(s)[1..]) == if LineEnd(s) < |s| then s[LineEnd(s) + 1..] else ""
  {
    var k := LineEnd(s);
    if k < |s| {
      assert Split(s)[1..] == Split(s[k + 1..]);
      JoinSplit(s[k + 1..]);
    }
  }

  /** For a prefix without a newline, the first line starts with it exactly
      when the whole text does. */
  lemma FirstLineStartsWith(s: string, p: string)
    requires '\n' !in p
    ensures StartsWith(s[..LineEnd(s)], p) <==> StartsWith(s, p)
  {
    var k := LineEnd(s);
    if StartsWith(s, p) {
      assert s[..k][..|p|] == s[..|p|];
    }
    if StartsWith(s[..k], p) {
      assert s[..|p|] == s[..k][..|p|];
    }
  }

  // --------------------------------------------------------- replace(p, "")

  /** `s.replace(p, "")`: every non-overlapping occurrence of `p`, scanning left
      to right, is removed. */
  function RemoveAll(s: string, p: string): (r: string)
    requires |p| > 0
    ensures |r| <= |s|
    decreases |s|
  {
    if |s| < |p| then s
    else if s[..|p|] == p then RemoveAll(s[|p|..], p)
    else [s[0]] + RemoveAll(s[1..], p)
  }

  /** Without an occurrence there is nothing to remove. */
  lemma {:induction false} RemoveAllAbsent(s: string, p: string)
    requires |p| > 0 && !Contains(s, p)
    ensures RemoveAll(s, p) == s
    decreases |s|
  {
    if |s| >= |p| {
      assert !OccursAt(s, p, 0);
      var t := s[1..];
      if Contains(t, p) {
        var i :| 0 <= i <= |t| - |p| && OccursAt(t, p, i);
        assert s[i + 1..i + 1 + |p|] == t[i..i + |p|];
        assert OccursAt(s, p, i + 1);
      }
      RemoveAllAbsent(t, p);
    }
  }

  // ------------------------------------------------------------------ strip()

  /** The ASCII characters `str.strip()` removes: space, tab, newline,
      carriage return, vertical tab, form feed, and the four separators
      U+001C to U+001F. */
  predicate IsSpace(c: char) {
    c == ' ' || '\t' <= c <= '\r' || '\U{001C}' <= c <= '\U{001F}'
  }

  /** `s.lstrip()`: the longest suffix of `s` not starting with whitespace. */
  function TrimStart(s: string): (r: string)
    ensures |r| <= |s| && r == s[|s| - |r|..]
    ensures forall i :: 0 <= i < |s| - |r| ==> IsSpace(s[i])
    ensures r != [] ==> !IsSpace(r[0])
    decreases |s|
  {
    if s != [] && IsSpace(s[0]) then TrimStart(s[1..]) else s
  }

  /** `s.rstrip()`: the longest prefix of `s` not ending in whitespace. */
  function TrimEnd(s: string): (r: string)
    ensures |r| <= |s| && r == s[..|r|]
    ensures forall i :: |r| <= i < |s| ==> IsSpace(s[i])
    ensures r != [] ==> !IsSpace(r[|r| - 1])
    decreases |s|
  {
    if s != [] && IsSpace(s[|s| - 1]) then TrimEnd(s[..|s| - 1]) else s
  }

  /** `r` is `s` with `i` characters of whitespace cut from the front and only
      whitespace cut from the back. */
  predicate CutsSpaceTo(s: string, r: string, i: int) {
    OccursAt(s, r, i)
    && (forall j :: 0 <= j < i ==> IsSpace(s[j]))
    && (forall j :: i + |r| <= j < |s| ==> IsSpace(s[j]))
  }

  /** No whitespace at either end. */
  predicate Trimmed(s: string) {
    s == [] || (!IsSpace(s[0]) && !IsSpace(s[|s| - 1]))
  }

  /** `s.strip()`: `s` with its leading and trailing whitespace removed, and only
      that. */
  function Strip(s: string): (r: string)
    ensures Trimmed(r)
    ensures exists i :: CutsSpaceTo(s, r, i)
  {
    TrimsCut(s);
    TrimEnd(TrimStart(s))
  }

  /** Trimming the front and then the back cuts only whitespace. */
  lemma TrimsCut(s: string)
    ensures CutsSpaceTo(s, TrimEnd(TrimStart(s)), |s| - |TrimStart(s)|)
  {
    var a := TrimStart(s);
    var r := TrimEnd(a);
    var i := |s| - |a|;
    assert a == s[i..];
    assert s[i..i + |r|] == a[..|r|] == r;
    forall j | i + |r| <= j < |s| ensures IsSpace(s[j]) {
      assert s[j] == a[j - i];
    }
  }

  /** A string without surrounding whitespace is its own strip. */
  lemma {:induction false} StripUnchanged(s: string)
    requires Trimmed(s)
    ensures Strip(s) == s
  {
  }

  /** One whitespace character before a text without surrounding whitespace
      is all that `strip()` removes. */
  lemma StripSpaceThen(c: char, t: string)
    requires IsSpace(c)
    requires Trimmed(t)
    ensures Strip([c] + t) == t
  {
    assert ([c] + t)[1..] == t;
    assert TrimStart([c] + t) == TrimStart(t);
    StripUnchanged(t);
  }

  /** Stripping twice is stripping once. */
  lemma StripIdempotent(s: string)
    ensures Strip(Strip(s)) == Strip(s)
  {
    StripUnchanged(Strip(s));
  }
}
