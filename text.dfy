/** The Python string built-ins the program relies on: `sep.join(parts)` and
    `str.strip()` with no argument. */
module Text {

  /** Python's `sep.join(parts)`: empty for no parts, and otherwise as
      long as the parts together with one separator between neighbours. */
  function Join(parts: seq<string>, sep: string): (r: string)
    ensures |parts| == 0 ==> r == ""
    ensures |parts| > 0 ==> |r| == Offset(parts, sep, |parts| - 1) + |parts[|parts| - 1]|
  {
    if |parts| == 0 then ""
    else if |parts| == 1 then parts[0]
    else parts[0] + sep + Join(parts[1..], sep)
  }

  /** The index at which parts[i] begins inside Join(parts, sep): the lengths
      of the parts before it, each followed by one separator. */
  function Offset(parts: seq<string>, sep: string, i: nat): nat
    requires i < |parts|
  {
    if i == 0 then 0 else |parts[0]| + |sep| + Offset(parts[1..], sep, i - 1)
  }

  /** Join keeps every part verbatim, at its place in the original order. */
  lemma {:induction false} JoinPartAt(parts: seq<string>, sep: string, i: nat)
    requires i < |parts|
    ensures Offset(parts, sep, i) + |parts[i]| <= |Join(parts, sep)|
    ensures Join(parts, sep)[Offset(parts, sep, i)..Offset(parts, sep, i) + |parts[i]|] == parts[i]
    ensures i + 1 == |parts| ==> Offset(parts, sep, i) + |parts[i]| == |Join(parts, sep)|
  {
    if |parts| > 1 {
      var rest := Join(parts[1..], sep);
      var k := |parts[0]| + |sep|;
      assert Join(parts, sep) == parts[0] + sep + rest;
      if i > 0 {
        JoinPartAt(parts[1..], sep, i - 1);
        assert parts[1..][i - 1] == parts[i];
        var o := Offset(parts[1..], sep, i - 1);
        assert Join(parts, sep)[k..] == rest;
        assert Join(parts, sep)[k + o..k + o + |parts[i]|] == Join(parts, sep)[k..][o..o + |parts[i]|];
      }
    }
  }

  /** Between neighbouring parts Join puts exactly one separator. */
  lemma {:induction false} JoinSepAfter(parts: seq<string>, sep: string, i: nat)
    requires i + 1 < |parts|
    ensures Offset(parts, sep, i + 1) == Offset(parts, sep, i) + |parts[i]| + |sep|
    ensures Offset(parts, sep, i + 1) <= |Join(parts, sep)|
    ensures Join(parts, sep)[Offset(parts, sep, i) + |parts[i]|..Offset(parts, sep, i + 1)] == sep
  {
    var rest := Join(parts[1..], sep);
    var k := |parts[0]| + |sep|;
    assert Join(parts, sep) == parts[0] + sep + rest;
    if i > 0 {
      JoinSepAfter(parts[1..], sep, i - 1);
      assert parts[1..][i - 1] == parts[i];
      var o := Offset(parts[1..], sep, i - 1) + |parts[i]|;
      assert Join(parts, sep)[k..] == rest;
      assert Join(parts, sep)[k + o..k + o + |sep|] == Join(parts, sep)[k..][o..o + |sep|];
    }
  }

  /** The 29 characters for which Python's `str.isspace()` holds: the ASCII
      controls U+0009..U+000D and U+001C..U+001F, the space, and the other
      Unicode characters of category Zs or of bidirectional class B, S or WS. */
  const PythonWhitespace: set<char> := {
    '\t', '\n', '\U{0B}', '\U{0C}', '\r', '\U{1C}', '\U{1D}', '\U{1E}', '\U{1F}', ' ',
    '\U{85}', '\U{A0}', '\U{1680}',
    '\U{2000}', '\U{2001}', '\U{2002}', '\U{2003}', '\U{2004}', '\U{2005}',
    '\U{2006}', '\U{2007}', '\U{2008}', '\U{2009}', '\U{200A}',
    '\U{2028}', '\U{2029}', '\U{202F}', '\U{205F}', '\U{3000}'
  }

  /** `c.isspace()`, decided by code-point ranges; it holds exactly for the
      characters listed in PythonWhitespace. */
  predicate IsSpace(c: char)
    ensures IsSpace(c) <==> c in PythonWhitespace
  {
    ('\t' <= c <= '\r') || ('\U{1C}' <= c <= ' ')
    || c == '\U{85}' || c == '\U{A0}' || c == '\U{1680}'
    || ('\U{2000}' <= c <= '\U{200A}') || c == '\U{2028}' || c == '\U{2029}'
    || c == '\U{202F}' || c == '\U{205F}' || c == '\U{3000}'
  }

  /** Drops the leading whitespace: what remains is a suffix of `s` that is
      empty or starts with a non-space, and everything dropped was space. */
  function TrimStart(s: string): (r: string)
    ensures |r| <= |s| && r == s[|s| - |r|..]
    ensures forall k :: 0 <= k < |s| - |r| ==> IsSpace(s[k])
    ensures r != [] ==> !IsSpace(r[0])
  {
    if s != [] && IsSpace(s[0]) then TrimStart(s[1..]) else s
  }

  /** Drops the trailing whitespace: what remains is a prefix of `s` that is
      empty or ends with a non-space, and everything dropped was space. */
  function TrimEnd(s: string): (r: string)
    ensures |r| <= |s| && r == s[..|r|]
    ensures forall k :: |r| <= k < |s| ==> IsSpace(s[k])
    ensures r != [] ==> !IsSpace(r[|r| - 1])
  {
    if s != [] && IsSpace(s[|s| - 1]) then TrimEnd(s[..|s| - 1]) else s
  }

  /** `s[i..j]` is what `s.strip()` must give: only whitespace lies outside
      it, and unless it is empty it starts and ends with a non-space. */
  predicate StrippedAt(s: string, i: nat, j: nat)
  {
    i <= j <= |s|
    && (forall k :: 0 <= k < i ==> IsSpace(s[k]))
    && (forall k :: j <= k < |s| ==> IsSpace(s[k]))
    && (i < j ==> !IsSpace(s[i]) && !IsSpace(s[j - 1]))
  }

  /** How many leading whitespace characters `s.strip()` removes. */
  function Lead(s: string): (n: nat)
    ensures n <= |s|
  {
    |s| - |TrimStart(s)|
  }

  /** Python's `s.strip()`. */
  function Strip(s: string): (r: string)
    ensures Lead(s) + |r| <= |s| && r == s[Lead(s)..Lead(s) + |r|]
    ensures StrippedAt(s, Lead(s), Lead(s) + |r|)
  {
    TrimEnd(TrimStart(s))
  }

  /** StrippedAt pins the result down: Strip is the only slice it admits. */
  lemma StripUnique(s: string, i: nat, j: nat)
    requires StrippedAt(s, i, j)
    ensures Strip(s) == s[i..j]
  {
    var i', j' := Lead(s), Lead(s) + |Strip(s)|;
    assert StrippedAt(s, i', j');
    if i < j {
      assert !IsSpace(s[i]) && !IsSpace(s[j - 1]);
      assert i' < j';
      assert i == i' && j == j';
    } else {
      assert i' == j';
    }
  }

  /** Stripping twice is the same as stripping once. */
  lemma StripIdempotent(s: string)
    ensures Strip(Strip(s)) == Strip(s)
  {
  }
}
