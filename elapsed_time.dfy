/** The elapsed-time parse of the decontamination section (main.py:74-78):
    the first whitespace-separated field read as a float, unless the text is
    "unknown", and None wherever Python would raise. */
module ElapsedTime {
  import opened Wrappers
  import opened PyText

  predicate IsDigit(c: char) {
    '0' <= c <= '9'
  }

  predicate AllDigits(s: string) {
    forall k :: 0 <= k < |s| ==> IsDigit(s[k])
  }

  /** The characters a numeral accepted by `float` may contain here. */
  predicate NumeralChar(c: char) {
    IsDigit(c) || c == '.' || c == '+' || c == '-'
  }

  /** The grammar of an unsigned numeral `float` accepts here: digits, then
      optionally one point and more digits, with at least one digit in all
      ("1", "2.5", "1.", ".5"; not ".", "1.2.3" or "1-2"). */
  ghost predicate UnsignedNumeral(t: string) {
    exists whole, frac ::
      AllDigits(whole) && AllDigits(frac) && |whole| + |frac| > 0 &&
      (t == whole + "." + frac || (frac == [] && t == whole))
  }

  /** An unsigned numeral with at most one leading sign ("+1", "-.5"; not
      "+-1"). */
  ghost predicate Numeral(t: string) {
    UnsignedNumeral(t) || (t != [] && (t[0] == '+' || t[0] == '-') && UnsignedNumeral(t[1..]))
  }

  /** The value of a string of decimal digits (0 for the empty string). */
  function DigitsValue(s: string): nat
    requires AllDigits(s)
  {
    if s == [] then 0 else 10 * DigitsValue(s[..|s| - 1]) + (s[|s| - 1] as int - '0' as int)
  }

  function Pow10(n: nat): (p: nat)
    ensures p >= 1
  {
    if n == 0 then 1 else 10 * Pow10(n - 1)
  }

  /** The index of the first '.' in `s`, or `|s|` when there is none. */
  function PointIndex(s: string): (i: nat)
    ensures i <= |s|
    ensures forall k :: 0 <= k < i ==> s[k] != '.'
    ensures i < |s| ==> s[i] == '.'
  {
    if s == [] || s[0] == '.' then 0 else 1 + PointIndex(s[1..])
  }

  /** An unsigned decimal numeral: digits, optionally a point and more
      digits, with at least one digit in all ("1", "2.5", "1.", ".5"). */
  function ParseUnsigned(s: string): (r: Option<real>)
    ensures r.Some? ==> r.value >= 0.0
    ensures r.Some? ==> (exists k :: 0 <= k < |s| && IsDigit(s[k]))
    ensures r.Some? ==> forall k :: 0 <= k < |s| ==> IsDigit(s[k]) || s[k] == '.'
    ensures r.Some? ==> UnsignedNumeral(s)
  {
    var p := PointIndex(s);
    var whole := s[..p];
    var frac := if p < |s| then s[p + 1..] else [];
    if AllDigits(whole) && AllDigits(frac) && |whole| + |frac| > 0 then
      assert |whole| > 0 ==> IsDigit(s[0]);
      assert |whole| == 0 ==> IsDigit(s[p + 1]);
      assert forall k :: p < k < |s| ==> s[k] == frac[k - p - 1];
      assert p < |s| ==> s == whole + "." + frac;
      assert p == |s| ==> s == whole;
      Some(DecimalValue(whole, frac))
    else
      None
  }

  /** The value of the numeral `whole.frac`. */
  function DecimalValue(whole: string, frac: string): (v: real)
    requires AllDigits(whole) && AllDigits(frac)
    ensures v >= 0.0
  {
    DigitsValue(whole) as real + FractionValue(frac)
  }

  /** The value of the fraction digits after a point: ".25" is 25/100. */
  function FractionValue(frac: string): (v: real)
    requires AllDigits(frac)
    ensures v >= 0.0
  {
    DigitsValue(frac) as real / Pow10(|frac|) as real
  }

  /** `float(token)` for a plain decimal numeral with an optional sign; None
      where Python raises ValueError. */
  function ParseFloat(token: string): (r: Option<real>)
    ensures r.Some? ==> exists k :: 0 <= k < |token| && IsDigit(token[k])
    ensures r.Some? ==> forall k :: 0 <= k < |token| ==> NumeralChar(token[k])
    ensures r.Some? && r.value < 0.0 ==> token[0] == '-'
    ensures r.Some? ==> Numeral(token)
  {
    if token != [] && (token[0] == '+' || token[0] == '-') then
      match ParseUnsigned(token[1..])
      case None => None
      case Some(v) =>
        assert forall k :: 1 <= k < |token| ==> token[k] == token[1..][k - 1];
        Some(if token[0] == '-' then -v else v)
    else
      ParseUnsigned(token)
  }

  /** The hours since exposure, or None: for the literal "unknown", for text
      with no field at all, and for a first field that is not a numeral. */
  function ParseHours(timeText: string): (hours: Option<real>)
    ensures timeText == "unknown" ==> hours.None?
    ensures AllSpace(timeText) ==> hours.None?
    ensures hours.Some? ==>
      LeadingSpace(timeText) < |timeText| && NumeralChar(timeText[LeadingSpace(timeText)])
  {
    if timeText == "unknown" then None
    else
      match FirstField(timeText)
      case None => None
      case Some(field) => ParseFloat(field)
  }

  /** The decimal rendering of a natural number. */
  function NatText(n: nat): (s: string)
    ensures s != [] && AllDigits(s)
  {
    if n < 10 then [('0' as int + n) as char] else NatText(n / 10) + [('0' as int + n % 10) as char]
  }

  lemma {:induction false} NatTextValue(n: nat)
    ensures DigitsValue(NatText(n)) == n
  {
    if n >= 10 {
      NatTextValue(n / 10);
      var s := NatText(n);
      assert s[..|s| - 1] == NatText(n / 10);
    }
  }

  /** `float` reads back every whole number written in decimal. */
  lemma WholeNumberRoundTrip(n: nat)
    ensures ParseFloat(NatText(n)) == Some(n as real)
    ensures ParseFloat("-" + NatText(n)) == Some(-(n as real))
  {
    var s := NatText(n);
    NatTextValue(n);
    UnsignedDigits(s);
    assert ParseFloat(s) == ParseUnsigned(s) by {
      assert IsDigit(s[0]);
    }
    SignedNumeral(s);
  }

  /** `float` reads back a whole number followed by a point and fraction digits. */
  lemma DecimalRoundTrip(n: nat, frac: string)
    requires AllDigits(frac)
    ensures ParseFloat(NatText(n) + "." + frac)
         == Some(n as real + FractionValue(frac))
  {
    var s := NatText(n);
    var t := s + "." + frac;
    assert ParseFloat(t) == ParseUnsigned(t) by {
      assert t[0] == s[0] && IsDigit(t[0]);
    }
    assert ParseUnsigned(t) == Some(DecimalValue(s, frac)) by {
      UnsignedWithPoint(s, frac);
    }
    assert DecimalValue(s, frac) == n as real + FractionValue(frac) by {
      NatTextValue(n);
    }
  }

  /** Digits, a point and digits read as the whole part plus the fraction;
      either part may be empty, but not both ("1.", ".5", "01.50"). */
  lemma UnsignedWithPoint(whole: string, frac: string)
    requires AllDigits(whole) && AllDigits(frac) && |whole| + |frac| > 0
    ensures ParseUnsigned(whole + "." + frac) == Some(DecimalValue(whole, frac))
  {
    var t := whole + "." + frac;
    var p := PointIndex(t);
    assert p == |whole| by {
      PointAfterDigits(whole, frac);
    }
    var w := t[..p];
    var f := t[p + 1..];
    assert w == whole;
    assert f == frac;
    assert AllDigits(w) && AllDigits(f) && |w| + |f| > 0;
  }

  /** Digits without a point read as their value ("01" is 1). */
  lemma UnsignedDigits(digits: string)
    requires digits != [] && AllDigits(digits)
    ensures ParseUnsigned(digits) == Some(DigitsValue(digits) as real)
  {
    NoPointInDigits(digits);
    assert digits[..|digits|] == digits;
    assert FractionValue([]) == 0.0;
  }

  /** A sign in front of an unsigned numeral: '+' keeps its value and '-'
      negates it ("+1", "-1.5"); a sign before anything else fails. */
  lemma SignedNumeral(body: string)
    ensures ParseFloat("+" + body) == ParseUnsigned(body)
    ensures ParseFloat("-" + body)
         == match ParseUnsigned(body) case None => None case Some(v) => Some(-v)
  {
    assert ("+" + body)[1..] == body;
    assert ("-" + body)[1..] == body;
  }

  /** `float` accepts an unsigned numeral exactly when it follows the
      grammar: "1.2.3", "." and "1-2" are all rejected. */
  lemma UnsignedAcceptsExactlyNumerals(t: string)
    ensures ParseUnsigned(t).Some? <==> UnsignedNumeral(t)
  {
    if UnsignedNumeral(t) {
      var whole, frac :|
        AllDigits(whole) && AllDigits(frac) && |whole| + |frac| > 0 &&
        (t == whole + "." + frac || (frac == [] && t == whole));
      if t == whole + "." + frac {
        UnsignedWithPoint(whole, frac);
      } else {
        UnsignedDigits(whole);
      }
    }
  }

  /** `float` succeeds exactly on a numeral with at most one leading sign:
      "+-1", "1.2.3" and "-" are all rejected. */
  lemma FloatAcceptsExactlyNumerals(token: string)
    ensures ParseFloat(token).Some? <==> Numeral(token)
  {
    UnsignedAcceptsExactlyNumerals(token);
    if token != [] && (token[0] == '+' || token[0] == '-') {
      UnsignedAcceptsExactlyNumerals(token[1..]);
      assert !UnsignedNumeral(token);
    }
  }

  lemma NoPointInDigits(s: string)
    requires AllDigits(s)
    ensures PointIndex(s) == |s|
  {
    if PointIndex(s) < |s| {
      assert s[PointIndex(s)] == '.';
    }
  }

  lemma PointAfterDigits(s: string, frac: string)
    requires AllDigits(s)
    ensures PointIndex(s + "." + frac) == |s|
  {
    var t := s + "." + frac;
    assert t[|s|] == '.';
  }

  /** The comparison with "unknown" is redundant: "unknown" is itself a
      single field that is not a numeral, so the parse is always just
      `float` of the first field. */
  lemma UnknownIsJustANonNumeral(timeText: string)
    ensures ParseHours(timeText)
         == match FirstField(timeText) case None => None case Some(field) => ParseFloat(field)
  {
    if timeText == "unknown" {
      assert !IsSpace(timeText[0]);
      assert LeadingSpace(timeText) == 0;
      var field := FirstField(timeText).value;
      assert field[0] == timeText[0] == 'u';
      assert !NumeralChar(field[0]);
      assert ParseFloat(field).None?;
    }
  }

  /** A numeral followed by whitespace (and anything after it) parses as
      that numeral: the rest of the text is never read. */
  lemma {:induction false} LeadingNumeralDecides(token: string, rest: string)
    requires token != [] && forall k :: 0 <= k < |token| ==> !IsSpace(token[k])
    requires rest == [] || IsSpace(rest[0])
    ensures FirstField(token + rest) == Some(token)
    ensures ParseHours(token + rest) == ParseFloat(token)
  {
    var s := token + rest;
    assert LeadingSpace(s) == 0;
    var w := FirstField(s).value;
    assert s[0..] == s;
    assert w == s[..|token|] == token;
    UnknownIsJustANonNumeral(s);
  }

  /** "1 hour", "3 hrs" and the like: a whole number of hours before a space. */
  lemma WholeHours(n: nat, rest: string)
    ensures ParseHours(NatText(n) + " " + rest) == Some(n as real)
  {
    var token := NatText(n);
    assert token + " " + rest == token + (" " + rest);
    LeadingNumeralDecides(token, " " + rest);
    WholeNumberRoundTrip(n);
  }
}
