/** The JavaScript string operations the core relies on: `trim`, `startsWith`,
    `includes`, a global regular-expression delete, and the decimal rendering
    of a number inside a template literal. Strings are sequences of UTF-16
    code units in JavaScript; here they are `seq<char>`. */
module Text {

  /** The code points `String.prototype.trim` removes: ECMAScript WhiteSpace
      (tab, vertical tab, form feed, space, no-break space, the byte-order
      mark and the Unicode space separators) and LineTerminator. */
  predicate IsWhitespace(c: char) {
    || c == '\t' || c == '\U{000B}' || c == '\U{000C}' || c == ' '
    || c == '\U{00A0}' || c == '\U{FEFF}' || c == '\U{1680}'
    || ('\U{2000}' <= c <= '\U{200A}')
    || c == '\U{202F}' || c == '\U{205F}' || c == '\U{3000}'
    || c == '\n' || c == '\r' || c == '\U{2028}' || c == '\U{2029}'
  }

  predicate AllWhitespace(s: string) {
    forall i :: 0 <= i < |s| ==> IsWhitespace(s[i])
  }

  /** Drops leading whitespace; the result is a suffix of `s`, and all that
      it drops is whitespace. */
  function TrimStart(s: string): (r: string)
    ensures |r| <= |s| && r == s[|s| - |r|..]
    ensures r == [] || !IsWhitespace(r[0])
    ensures AllWhitespace(s[..|s| - |r|])
  {
    if |s| > 0 && IsWhitespace(s[0]) then
      var r := TrimStart(s[1..]);
      assert s[..|s| - |r|] == [s[0]] + s[1..][..|s| - 1 - |r|];
      r
    else s
  }

  /** Drops trailing whitespace; the result is a prefix of `s`, and all that
      it drops is whitespace. */
  function TrimEnd(s: string): (r: string)
    ensures |r| <= |s| && r == s[..|r|]
    ensures r == [] || !IsWhitespace(r[|r| - 1])
    ensures forall i :: |r| <= i < |s| ==> IsWhitespace(s[i])
  {
    if |s| > 0 && IsWhitespace(s[|s| - 1]) then TrimEnd(s[..|s| - 1]) else s
  }

  /** `s.trim()`: no whitespace left at either end. */
  function Trim(s: string): (r: string)
    ensures |r| <= |s|
    ensures r == [] || (!IsWhitespace(r[0]) && !IsWhitespace(r[|r| - 1]))
  {
    TrimStart(TrimEnd(s))
  }

  /** What `trim` returns is a slice of its input, and all it cuts from
      either end is whitespace. */
  lemma TrimCutsOnlyWhitespace(s: string)
    ensures exists i, j :: 0 <= i <= j <= |s| && Trim(s) == s[i..j] && AllWhitespace(s[..i]) && AllWhitespace(s[j..])
  {
    var e := TrimEnd(s);
    var r := TrimStart(e);
    var i := |e| - |r|;
    assert r == s[i..|e|];
    assert s[..i] == e[..i];
    assert AllWhitespace(s[|e|..]);
  }

  /** A string is trimmed to nothing exactly when it is all whitespace. */
  lemma TrimEmptyIffWhitespace(s: string)
    ensures Trim(s) == [] <==> AllWhitespace(s)
  {
    var e := TrimEnd(s);
    if Trim(s) == [] {
      assert e[..|e|] == e;
    }
  }

  /** Trimming twice is trimming once. */
  lemma TrimIdempotent(s: string)
    ensures Trim(Trim(s)) == Trim(s)
  {
    TrimUnchanged(Trim(s));
  }

  /** A string with no whitespace at either end is its own trim. */
  lemma TrimUnchanged(s: string)
    requires s == [] || (!IsWhitespace(s[0]) && !IsWhitespace(s[|s| - 1]))
    ensures Trim(s) == s
  {
  }

  /** A trailing line feed does not survive the trim. */
  lemma TrimDropsFinalNewline(s: string)
    ensures Trim(s + "\n") == Trim(s)
  {
    var t := s + "\n";
    assert t[|t| - 1] == '\n' && t[..|t| - 1] == s;
    assert TrimEnd(t) == TrimEnd(s);
  }

  /** Whatever `Trim` returns is made of characters of its input. */
  lemma TrimKeepsCharacters(s: string, c: char)
    requires c !in s
    ensures c !in Trim(s)
  {
    var e := TrimEnd(s);
    assert e == s[..|e|];
    assert c !in e;
    var r := TrimStart(e);
    assert r == e[|e| - |r|..];
  }

  /** `s.startsWith(p)`. */
  predicate StartsWith(s: string, p: string) {
    |p| <= |s| && s[..|p|] == p
  }

  /** `s.includes(sub)`. */
  predicate Contains(s: string, sub: string) {
    exists i :: 0 <= i <= |s| - |sub| && StartsWith(s[i..], sub)
  }

  /** Whatever sits between two strings is included in their concatenation. */
  lemma ContainsMiddle(a: string, b: string, c: string)
    ensures Contains(a + b + c, b)
  {
    var s := a + b + c;
    assert s[|a|..][..|b|] == b;
    assert StartsWith(s[|a|..], b);
  }

  /** Inclusion is transitive: a string that includes `mid` includes what
      `mid` includes. */
  lemma ContainsTransitive(s: string, mid: string, sub: string)
    requires Contains(s, mid) && Contains(mid, sub)
    ensures Contains(s, sub)
  {
    var i :| 0 <= i <= |s| - |mid| && StartsWith(s[i..], mid);
    var j :| 0 <= j <= |mid| - |sub| && StartsWith(mid[j..], sub);
    assert forall k :: 0 <= k < |mid| ==> s[i + k] == mid[k] by {
      assert s[i..][..|mid|] == mid;
    }
    assert forall k :: 0 <= k < |sub| ==> mid[j + k] == sub[k] by {
      assert mid[j..][..|sub|] == sub;
    }
    assert s[i + j..][..|sub|] == sub;
    assert StartsWith(s[i + j..], sub);
  }

  /** `s.replace(/tag\n?/g, '')`: every occurrence of `tag`, scanning left to
      right without overlap, is deleted together with one line feed right
      after it, if there is one. */
  function DeleteTag(s: string, tag: string): (r: string)
    requires |tag| > 0
    ensures |r| <= |s|
    decreases |s|
  {
    if s == [] then s
    else if StartsWith(s, tag) then
      var rest := s[|tag|..];
      if |rest| > 0 && rest[0] == '\n' then DeleteTag(rest[1..], tag) else DeleteTag(rest, tag)
    else [s[0]] + DeleteTag(s[1..], tag)
  }

  /** A prefix that cannot start an occurrence of `tag` (it lacks the tag's
      first character) passes through the deletion untouched. */
  lemma {:induction false} DeleteTagSkips(a: string, b: string, tag: string)
    requires |tag| > 0 && tag[0] !in a
    ensures DeleteTag(a + b, tag) == a + DeleteTag(b, tag)
  {
    if a != [] {
      var s := a + b;
      assert !StartsWith(s, tag) by { assert s[0] == a[0]; }
      assert s[1..] == a[1..] + b;
      calc {
        DeleteTag(s, tag);
        [s[0]] + DeleteTag(s[1..], tag);
        { DeleteTagSkips(a[1..], b, tag); }
        [a[0]] + (a[1..] + DeleteTag(b, tag));
        { assert [a[0]] + a[1..] == a; }
        a + DeleteTag(b, tag);
      }
    } else {
      assert a + b == b;
    }
  }

  /** The decimal digit for `d`. */
  function Digit(d: nat): char
    requires d < 10
  {
    "0123456789"[d]
  }

  predicate IsDigits(s: string) {
    forall i :: 0 <= i < |s| ==> '0' <= s[i] <= '9'
  }

  /** The number a string of decimal digits denotes. */
  function DecimalValue(s: string): nat
    requires IsDigits(s)
  {
    if s == [] then 0
    else DecimalValue(s[..|s| - 1]) * 10 + (s[|s| - 1] as int - '0' as int)
  }

  /** How `${n}` renders a non-negative integer: decimal digits with no
      leading zero. */
  function NatToString(n: nat): (r: string)
    ensures |r| > 0 && IsDigits(r)
    ensures r[0] == '0' ==> n == 0
  {
    if n < 10 then [Digit(n)] else NatToString(n / 10) + [Digit(n % 10)]
  }

  /** The rendering reads back as the number it renders. */
  lemma {:induction false} NatToStringRoundTrip(n: nat)
    ensures DecimalValue(NatToString(n)) == n
  {
    var r := NatToString(n);
    if n >= 10 {
      NatToStringRoundTrip(n / 10);
      assert r[..|r| - 1] == NatToString(n / 10);
    }
  }
}
