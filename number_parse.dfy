/**
 * The part of JavaScript's `parseFloat` the application depends on: leading
 * whitespace is skipped, an optional sign, decimal digits with an optional
 * fraction are read as far as they go, and whatever follows is ignored
 * ("12abc" gives 12). Input without a leading number gives no value, which
 * stands for `NaN`. Exponents and `Infinity` are not part of this model.
 */
module NumberParse {
  import opened Wrappers
  import opened Text

  predicate IsDigit(c: char) {
    '0' <= c <= '9'
  }

  predicate AllDigits(s: string) {
    forall i :: 0 <= i < |s| ==> IsDigit(s[i])
  }

  function DigitValue(c: char): (d: nat)
    requires IsDigit(c)
    ensures d <= 9
  {
    c as int - '0' as int
  }

  /** The length of the run of digits at the start of `s`. */
  function DigitRun(s: string): (n: nat)
    ensures n <= |s|
    ensures AllDigits(s[..n])
    ensures n < |s| ==> !IsDigit(s[n])
  {
    if |s| == 0 || !IsDigit(s[0]) then 0
    else
      var n := 1 + DigitRun(s[1..]);
      assert s[..n] == [s[0]] + s[1..][..n - 1];
      n
  }

  /** The value of a string of decimal digits, most significant first. */
  function NatValue(s: string): nat
    requires AllDigits(s)
  {
    if |s| == 0 then 0 else 10 * NatValue(s[..|s| - 1]) + DigitValue(s[|s| - 1])
  }

  /** The value of the digits after a decimal point. */
  function FractionValue(s: string): (r: real)
    requires AllDigits(s)
    ensures 0.0 <= r < 1.0
  {
    if |s| == 0 then 0.0 else (DigitValue(s[0]) as real + FractionValue(s[1..])) / 10.0
  }

  /** `t` begins with a number: a digit, or a decimal point followed by a digit. */
  predicate StartsWithNumber(t: string) {
    (|t| > 0 && IsDigit(t[0])) || (|t| > 1 && t[0] == '.' && IsDigit(t[1]))
  }

  /** Reads an unsigned decimal number at the start of `t`. */
  function ParseUnsigned(t: string): (r: Option<real>)
    ensures r.Some? <==> StartsWithNumber(t)
    ensures r.Some? ==> r.value >= 0.0
  {
    var i := DigitRun(t);
    if i < |t| && t[i] == '.' then WithFraction(t[..i], LeadingDigits(t[i + 1..]))
    else if i == 0 then None
    else Some(NatValue(t[..i]) as real)
  }

  /** The run of digits at the start of `f`. */
  function LeadingDigits(f: string): (d: string)
    ensures AllDigits(d)
  {
    f[..DigitRun(f)]
  }

  /** A number written with a decimal point: at least one of its two digit runs must be non-empty. */
  function WithFraction(whole: string, frac: string): (r: Option<real>)
    requires AllDigits(whole) && AllDigits(frac)
    ensures r.Some? <==> whole != [] || frac != []
    ensures r.Some? ==> r.value >= 0.0
  {
    if whole == [] && frac == [] then None
    else Some(NatValue(whole) as real + FractionValue(frac))
  }

  /** `t` without one leading sign character. */
  function Unsigned(t: string): string {
    if |t| > 0 && (t[0] == '-' || t[0] == '+') then t[1..] else t
  }

  /** `t` begins with a minus sign. */
  predicate Negative(t: string) {
    |t| > 0 && t[0] == '-'
  }

  /** `parseFloat(s)`; `None` stands for `NaN`. */
  function ParseFloat(s: string): (r: Option<real>)
    ensures r.Some? <==> StartsWithNumber(Unsigned(TrimStart(s)))
    ensures r.Some? && !Negative(TrimStart(s)) ==> r.value >= 0.0
    ensures r.Some? && Negative(TrimStart(s)) ==> r.value <= 0.0
  {
    ParseSigned(TrimStart(s))
  }

  /** A number with an optional sign at the start of `t`. */
  function ParseSigned(t: string): (r: Option<real>)
    ensures r.Some? <==> StartsWithNumber(Unsigned(t))
    ensures r.Some? && !Negative(t) ==> r.value >= 0.0
    ensures r.Some? && Negative(t) ==> r.value <= 0.0
  {
    var u := ParseUnsigned(Unsigned(t));
    if Negative(t) && u.Some? then Some(-u.value) else u
  }

  /** In a string of digits the digit run is the whole string. */
  lemma {:induction false} DigitRunOfDigits(s: string)
    requires AllDigits(s)
    ensures DigitRun(s) == |s|
  {
    if |s| > 0 {
      DigitRunOfDigits(s[1..]);
    }
  }

  /** A plain string of digits parses to its decimal value. */
  lemma ParseDigits(s: string)
    requires |s| > 0 && AllDigits(s)
    ensures ParseFloat(s) == Some(NatValue(s) as real)
  {
    assert !IsWhitespace(s[0]) && !Negative(s);
    assert TrimStart(s) == s && Unsigned(s) == s;
    DigitRunOfDigits(s);
    assert s[..|s|] == s;
  }

  /** Digits go on after a digit run only if `w` starts with one. */
  lemma {:induction false} DigitRunAppend(t: string, w: string)
    requires w == [] || !IsDigit(w[0])
    ensures DigitRun(t + w) == DigitRun(t)
  {
    if |t| > 0 && IsDigit(t[0]) {
      assert (t + w)[1..] == t[1..] + w;
      DigitRunAppend(t[1..], w);
    }
  }

  /**
   * Text after the number is ignored: appending anything that starts with
   * neither a digit nor a decimal point leaves the parsed value unchanged.
   */
  lemma LeadingDigitsAppend(f: string, w: string)
    requires w == [] || !IsDigit(w[0])
    ensures LeadingDigits(f + w) == LeadingDigits(f)
  {
    DigitRunAppend(f, w);
    assert (f + w)[..DigitRun(f)] == f[..DigitRun(f)];
  }

  lemma {:induction false} ParseUnsignedAppend(t: string, w: string)
    requires w == [] || (!IsDigit(w[0]) && w[0] != '.')
    ensures ParseUnsigned(t + w) == ParseUnsigned(t)
  {
    var tw := t + w;
    var i := DigitRun(t);
    DigitRunAppend(t, w);
    assert tw[..i] == t[..i];
    if i < |t| {
      assert tw[i] == t[i];
      if t[i] == '.' {
        assert tw[i + 1..] == t[i + 1..] + w;
        LeadingDigitsAppend(t[i + 1..], w);
      }
    } else if w != [] {
      assert tw[i] == w[0];
    }
  }

  /** Whitespace after a number-like text is ignored by `parseFloat`. */
  lemma {:induction false} ParseFloatAppendWhitespace(u: string, w: string)
    requires u != [] && !IsWhitespace(u[0])
    requires AllWhitespace(w)
    ensures ParseFloat(u + w) == ParseFloat(u)
  {
    assert (u + w)[0] == u[0];
    assert TrimStart(u + w) == u + w;
    assert TrimStart(u) == u;
    assert w == [] || (!IsDigit(w[0]) && w[0] != '.');
    if u[0] == '-' || u[0] == '+' {
      assert (u + w)[1..] == u[1..] + w;
      ParseUnsignedAppend(u[1..], w);
    } else {
      ParseUnsignedAppend(u, w);
    }
  }

  /** `TrimStart` of a field is its trimmed value followed by the trailing whitespace. */
  lemma TrimStartSplit(s: string)
    requires Trim(s) != []
    ensures TrimStart(s) == Trim(s) + s[|TrimEnd(s)|..]
    ensures AllWhitespace(s[|TrimEnd(s)|..])
  {
    var e := TrimEnd(s);
    assert s == e + s[|e|..];
    TrimStartAppend(e, s[|e|..]);
  }

  /**
   * `parseFloat` of the raw field equals `parseFloat` of the trimmed field:
   * leading whitespace is skipped and trailing whitespace is never part of a number.
   */
  lemma ParseFloatOfTrim(s: string)
    ensures ParseFloat(s) == ParseFloat(Trim(s))
  {
    var t := Trim(s);
    ParseFloatSkipsLeading(s);
    if t == [] {
      TrimEmptyIff(s);
      assert TrimStart(s) == [] by {
        assert s[..|s| - |TrimStart(s)|] == s[..|s|];
      }
    } else {
      TrimStartSplit(s);
      ParseFloatAppendWhitespace(t, s[|TrimEnd(s)|..]);
    }
  }

  /** Leading whitespace is skipped before anything else. */
  lemma ParseFloatSkipsLeading(s: string)
    ensures ParseFloat(s) == ParseFloat(TrimStart(s))
  {
    TrimStartIdempotent(s);
    assert ParseFloat(TrimStart(s)) == ParseSigned(TrimStart(TrimStart(s)));
  }
}
