/** The JavaScript string built-ins the validators use: white space as `\s` and
    `trim()` see it, `trim()` itself, and `length`, which counts UTF-16 code units. */
module Text {

  /** The characters of ECMAScript's WhiteSpace and LineTerminator productions. */
  predicate IsWhitespace(c: char) {
    c == ' ' || c == '\t' || c == '\n' || c == '\r' || c == '\U{000B}' || c == '\U{000C}' ||
    c == '\U{00A0}' || c == '\U{1680}' || ('\U{2000}' <= c <= '\U{200A}') ||
    c == '\U{2028}' || c == '\U{2029}' || c == '\U{202F}' || c == '\U{205F}' ||
    c == '\U{3000}' || c == '\U{FEFF}'
  }

  /** `s` is empty or white space only. */
  predicate Blank(s: string) {
    forall i :: 0 <= i < |s| ==> IsWhitespace(s[i])
  }

  /** `s` with its leading white space removed. */
  function TrimStart(s: string): (r: string)
    ensures |r| <= |s| && r == s[|s| - |r|..]
    ensures r == [] || !IsWhitespace(r[0])
    ensures forall i :: 0 <= i < |s| - |r| ==> IsWhitespace(s[i])
  {
    if s != [] && IsWhitespace(s[0]) then TrimStart(s[1..]) else s
  }

  /** `s` with its trailing white space removed. */
  function TrimEnd(s: string): (r: string)
    ensures |r| <= |s| && r == s[..|r|]
    ensures r == [] || !IsWhitespace(r[|r| - 1])
    ensures forall i :: |r| <= i < |s| ==> IsWhitespace(s[i])
  {
    if s != [] && IsWhitespace(s[|s| - 1]) then TrimEnd(s[..|s| - 1]) else s
  }

  /** `s.trim()`: a slice of `s` that neither starts nor ends with white space and
      that is empty exactly when `s` is white space only. */
  function Trim(s: string): (r: string)
    ensures r == [] <==> Blank(s)
    ensures r == [] || (!IsWhitespace(r[0]) && !IsWhitespace(r[|r| - 1]))
    ensures |r| <= |s|
    ensures exists i, j :: 0 <= i <= j <= |s| && r == s[i..j] && Blank(s[..i]) && Blank(s[j..])
  {
    var head := TrimStart(s);
    var r := TrimEnd(head);
    assert r != [] ==> r[0] == head[0];
    var i := |s| - |head|;
    var j := i + |r|;
    assert r == s[i..j];
    assert Blank(s[..i]);
    assert s[j..] == head[|r|..];
    assert Blank(head[|r|..]);
    r
  }

  /** `s.length`: characters outside the Basic Multilingual Plane take two UTF-16
      code units, all others one. */
  function Utf16Length(s: string): (n: nat)
    ensures |s| <= n <= 2 * |s|
    ensures n == 0 <==> s == []
  {
    if s == [] then 0
    else (if s[0] as int > 0xFFFF then 2 else 1) + Utf16Length(s[1..])
  }

  lemma {:induction false} Utf16Append(a: string, b: string)
    ensures Utf16Length(a + b) == Utf16Length(a) + Utf16Length(b)
  {
    if a == [] {
      assert a + b == b;
    } else {
      assert (a + b)[1..] == a[1..] + b;
      Utf16Append(a[1..], b);
    }
  }

  /** A slice is never longer than the whole in UTF-16 code units. */
  lemma {:induction false} Utf16Slice(s: string, i: nat, j: nat)
    requires i <= j <= |s|
    ensures Utf16Length(s[i..j]) <= Utf16Length(s)
  {
    var front, middle, back := s[..i], s[i..j], s[j..];
    assert front + middle == s[..j];
    assert s[..j] + back == s;
    Utf16Append(front + middle, back);
    Utf16Append(front, middle);
  }

  /** Trimming never makes a string longer in UTF-16 code units. */
  lemma TrimShortens(s: string)
    ensures Utf16Length(Trim(s)) <= Utf16Length(s)
  {
    var head := TrimStart(s);
    var r := TrimEnd(head);
    assert Trim(s) == r;
    assert head == s[|s| - |head|..|s|];
    Utf16Slice(s, |s| - |head|, |s|);
    assert r == head[0..|r|];
    Utf16Slice(head, 0, |r|);
  }
}
