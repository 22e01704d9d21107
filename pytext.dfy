/** The Python `str` operations the form applies to its free-text inputs:
    `isspace`, `strip`, `lower` and the first field of `split()`, and how
    stripping and lowering bear on the substring test of `Substrings`. A
    Python string is a Dafny `string`. */
module PyText {
  import opened Wrappers
  import opened Substrings

  /** The 29 characters for which Python 3's `str.isspace` holds, one by one. */
  const PythonWhitespace: set<char> := {
    '\t', '\n', '\U{0B}', '\U{0C}', '\r', '\U{1C}', '\U{1D}', '\U{1E}', '\U{1F}', ' ',
    '\U{85}', '\U{A0}', '\U{1680}',
    '\U{2000}', '\U{2001}', '\U{2002}', '\U{2003}', '\U{2004}', '\U{2005}',
    '\U{2006}', '\U{2007}', '\U{2008}', '\U{2009}', '\U{200A}',
    '\U{2028}', '\U{2029}', '\U{202F}', '\U{205F}', '\U{3000}'
  }

  /** `c.isspace()`, tested by code-point ranges. */
  predicate IsSpace(c: char): (b: bool)
    ensures b <==> c in PythonWhitespace
  {
    || '\t' <= c <= '\r'
    || '\U{1C}' <= c <= '\U{1F}'
    || c == ' ' || c == '\U{85}' || c == '\U{A0}' || c == '\U{1680}'
    || '\U{2000}' <= c <= '\U{200A}'
    || c == '\U{2028}' || c == '\U{2029}' || c == '\U{202F}' || c == '\U{205F}'
    || c == '\U{3000}'
  }

  predicate AllSpace(s: string) {
    forall k :: 0 <= k < |s| ==> IsSpace(s[k])
  }

  /** The first index at or after `i` that does not hold whitespace, or
      `|s|` when there is none. */
  function SkipSpace(s: string, i: nat): (j: nat)
    requires i <= |s|
    ensures i <= j <= |s|
    ensures forall k :: i <= k < j ==> IsSpace(s[k])
    ensures j < |s| ==> !IsSpace(s[j])
    decreases |s| - i
  {
    if i == |s| || !IsSpace(s[i]) then i else SkipSpace(s, i + 1)
  }

  /** The index just past the last character before `j` that is not
      whitespace, or 0 when there is none. */
  function SkipSpaceBack(s: string, j: nat): (i: nat)
    requires j <= |s|
    ensures i <= j
    ensures forall k :: i <= k < j ==> IsSpace(s[k])
    ensures 0 < i ==> !IsSpace(s[i - 1])
  {
    if j == 0 || !IsSpace(s[j - 1]) then j else SkipSpaceBack(s, j - 1)
  }

  /** The number of whitespace characters `s` starts with. */
  function LeadingSpace(s: string): (n: nat)
    ensures n <= |s|
    ensures forall k :: 0 <= k < n ==> IsSpace(s[k])
    ensures n < |s| ==> !IsSpace(s[n])
  {
    SkipSpace(s, 0)
  }

  /** `s.strip()`: the part of `s` between its leading and its trailing
      whitespace; everything outside that part is whitespace, and the part
      itself neither starts nor ends with whitespace. */
  function Strip(s: string): (r: string)
    ensures r == [] <==> AllSpace(s)
    ensures r != [] ==> !IsSpace(r[0]) && !IsSpace(r[|r| - 1])
    ensures LeadingSpace(s) + |r| <= |s|
    ensures r == s[LeadingSpace(s)..LeadingSpace(s) + |r|]
    ensures forall k :: LeadingSpace(s) + |r| <= k < |s| ==> IsSpace(s[k])
  {
    var lead := LeadingSpace(s);
    if lead == |s| then [] else s[lead..SkipSpaceBack(s, |s|)]
  }

  /** `c.lower()` on ASCII: capitals map to small letters, all else is kept. */
  function LowerChar(c: char): (d: char)
    ensures 'A' <= c <= 'Z' ==> 'a' <= d <= 'z' && d as int - c as int == 32
    ensures !('A' <= c <= 'Z') ==> d == c
  {
    if 'A' <= c <= 'Z' then (c as int + 32) as char else c
  }

  /** `s.lower()`, character by character. */
  function Lower(s: string): (r: string)
    ensures |r| == |s|
    ensures forall k :: 0 <= k < |s| ==> r[k] == LowerChar(s[k])
  {
    seq(|s|, k requires 0 <= k < |s| => LowerChar(s[k]))
  }

  /** The first index at or after `i` that holds whitespace, or `|s|`
      when there is none. */
  function WordEnd(s: string, i: nat): (j: nat)
    requires i <= |s|
    ensures i <= j <= |s|
    ensures forall k :: i <= k < j ==> !IsSpace(s[k])
    ensures j < |s| ==> IsSpace(s[j])
    decreases |s| - i
  {
    if i == |s| || IsSpace(s[i]) then i else WordEnd(s, i + 1)
  }

  /** `s.split()[0]`: the first maximal run of non-whitespace characters,
      or None where Python raises IndexError because there is none. */
  function FirstField(s: string): (r: Option<string>)
    ensures r.None? <==> AllSpace(s)
    ensures r.Some? ==>
      var lead := LeadingSpace(s);
      && r.value != []
      && r.value <= s[lead..]
      && (forall k :: 0 <= k < |r.value| ==> !IsSpace(r.value[k]))
      && (lead + |r.value| < |s| ==> IsSpace(s[lead + |r.value|]))
  {
    var lead := LeadingSpace(s);
    if lead == |s| then None else Some(s[lead..WordEnd(s, lead)])
  }

  /** Whitespace is never lowered into something else. */
  lemma LowerKeepsSpace(c: char)
    requires IsSpace(c)
    ensures LowerChar(c) == c && IsSpace(LowerChar(c))
  {
  }

  /** Lowering a slice is slicing the lowered text. */
  lemma LowerSlice(s: string, i: int, j: int)
    requires 0 <= i <= j <= |s|
    ensures Lower(s[i..j]) == Lower(s)[i..j]
  {
    var a := Lower(s[i..j]);
    var b := Lower(s)[i..j];
    forall k | 0 <= k < j - i
      ensures a[k] == b[k]
    {
      assert s[i..j][k] == s[i + k];
    }
    assert a == b;
  }

  /** The stripped, lowered text is the lowered text between the padding. */
  lemma StrippedLower(s: string)
    ensures Lower(Strip(s)) == Lower(s)[LeadingSpace(s)..LeadingSpace(s) + |Strip(s)|]
  {
    var lead := LeadingSpace(s);
    var r := Strip(s);
    LowerSlice(s, lead, lead + |r|);
  }

  /** A pattern with non-space ends can only occur in the lowered text
      between its leading and its trailing whitespace. */
  lemma MatchAvoidsPadding(s: string, sub: string)
    requires sub != [] && !IsSpace(sub[0]) && !IsSpace(sub[|sub| - 1])
    ensures forall q :: OccursAt(Lower(s), sub, q) ==>
              LeadingSpace(s) <= q && q + |sub| <= LeadingSpace(s) + |Strip(s)|
  {
    var lowered := Lower(s);
    var n := |sub|;
    forall q | OccursAt(lowered, sub, q)
      ensures LeadingSpace(s) <= q && q + n <= LeadingSpace(s) + |Strip(s)|
    {
      assert lowered[q] == sub[0] && lowered[q + n - 1] == sub[n - 1];
      if IsSpace(s[q]) {
        LowerKeepsSpace(s[q]);
      }
      if IsSpace(s[q + n - 1]) {
        LowerKeepsSpace(s[q + n - 1]);
      }
    }
  }

  /** Stripping before lowering never changes whether a pattern that starts
      and ends with a non-space character occurs. */
  lemma {:induction false} MatchIgnoresPadding(s: string, sub: string)
    requires sub != [] && !IsSpace(sub[0]) && !IsSpace(sub[|sub| - 1])
    ensures Contains(Lower(Strip(s)), sub) <==> Contains(Lower(s), sub)
  {
    var lead := LeadingSpace(s);
    StrippedLower(s);
    MatchAvoidsPadding(s, sub);
    WindowMatch(Lower(Strip(s)), Lower(s), lead, lead + |Strip(s)|, sub);
  }
}
