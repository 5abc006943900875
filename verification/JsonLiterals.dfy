/** The numbers and literals of JSON, by their parts, and that the parser's tests accept exactly them. */
module JsonLiterals {
  import opened JsonLexer
  import opened JsonGrammar

  predicate AllDigits(t: string) {
    forall i :: 0 <= i < |t| ==> '0' <= t[i] <= '9'
  }

  /** A whole part has no needless zero in front. */
  predicate IsWhole(t: string) {
    t != "" && AllDigits(t) && (t[0] == '0' ==> |t| == 1)
  }

  predicate IsFraction(t: string) {
    t == "" || (|t| >= 2 && t[0] == '.' && AllDigits(t[1..]))
  }

  predicate IsPower(t: string) {
    || t == ""
    || (|t| >= 2 && (t[0] == 'e' || t[0] == 'E') && AllDigits(t[1..]))
    || (|t| >= 3 && (t[0] == 'e' || t[0] == 'E') && (t[1] == '+' || t[1] == '-') && AllDigits(t[2..]))
  }

  /** The parts behind the minus. */
  predicate ArePartsOf(u: string, whole: string, fraction: string, power: string) {
    IsWhole(whole) && IsFraction(fraction) && IsPower(power) && u == whole + (fraction + power)
  }

  /** RFC 8259 section 6: an optional minus, a whole part, a fraction and an exponent. */
  ghost predicate IsNumeral(t: string) {
    exists minus, u, whole, fraction, power ::
      (minus == "" || minus == "-") && t == minus + u && ArePartsOf(u, whole, fraction, power)
  }

  lemma {:induction false} SkipDigitsIs(t: string) returns (d: string)
    ensures AllDigits(d) && t == d + SkipDigits(t)
    ensures SkipDigits(t) == "" || !('0' <= SkipDigits(t)[0] <= '9')
  {
    d := "";
    if t != "" && '0' <= t[0] <= '9' {
      var more := SkipDigitsIs(t[1..]);
      d := [t[0]] + more;
      assert t == [t[0]] + t[1..];
    }
  }

  lemma {:induction false} SkipDigitsPast(d: string, r: string)
    requires AllDigits(d) && (r == "" || !('0' <= r[0] <= '9'))
    ensures SkipDigits(d + r) == r
  {
    if d == "" {
      assert d + r == r;
    } else {
      assert (d + r)[1..] == d[1..] + r;
      SkipDigitsPast(d[1..], r);
    }
  }

  lemma DigitsOnly(t: string)
    ensures SkipDigits(t) == "" <==> AllDigits(t)
  {
    var d := SkipDigitsIs(t);
    if AllDigits(t) {
      SkipDigitsPast(t, "");
      assert t + "" == t;
    } else {
      assert d + "" == d;
    }
  }

  lemma PowerIff(t: string)
    ensures t == "" || (t[0] in "eE" && IsExponent(t[1..])) <==> IsPower(t)
  {
    if t != "" {
      var u := t[1..];
      var d := if u != "" && u[0] in "+-" then u[1..] else u;
      DigitsOnly(d);
      if u != "" && u[0] in "+-" {
        assert d == t[2..] && t[1] == u[0];
      }
    }
  }

  /** What the parser's test asks of the text behind the whole part. */
  predicate IsRest(f: string) {
    && (f == "" || f[0] != '.' || (|f| >= 2 && IsDigit(f[1])))
    && var e := if f != "" && f[0] == '.' then SkipDigits(f[1..]) else f;
    (e == "" || (e[0] in "eE" && IsExponent(e[1..])))
  }

  lemma RestIs(f: string) returns (fraction: string, power: string)
    requires IsRest(f)
    ensures IsFraction(fraction) && IsPower(power) && f == fraction + power
  {
    if f != "" && f[0] == '.' {
      var g := SkipDigitsIs(f[1..]);
      fraction, power := "." + g, SkipDigits(f[1..]);
      assert f == "." + f[1..] && fraction[1..] == g;
      assert |g| >= 1;
    } else {
      fraction, power := "", f;
      assert "" + f == f;
    }
    PowerIff(power);
  }

  lemma RestOf(fraction: string, power: string)
    requires IsFraction(fraction) && IsPower(power)
    ensures var f := fraction + power; IsRest(f) && (f == "" || !('0' <= f[0] <= '9'))
  {
    PowerIff(power);
    if fraction != "" {
      assert (fraction + power)[1..] == fraction[1..] + power;
      SkipDigitsPast(fraction[1..], power);
    } else {
      assert fraction + power == power;
    }
  }

  lemma UnsignedIs(u: string) returns (whole: string, fraction: string, power: string)
    requires u != "" && IsDigit(u[0]) && IsRest(if u[0] == '0' then u[1..] else SkipDigits(u))
    ensures ArePartsOf(u, whole, fraction, power)
  {
    var d := SkipDigitsIs(u);
    fraction, power := RestIs(if u[0] == '0' then u[1..] else SkipDigits(u));
    whole := if u[0] == '0' then "0" else d;
  }

  lemma UnsignedOf(u: string, whole: string, fraction: string, power: string)
    requires ArePartsOf(u, whole, fraction, power)
    ensures u != "" && IsDigit(u[0]) && IsRest(if u[0] == '0' then u[1..] else SkipDigits(u))
  {
    RestOf(fraction, power);
    SkipDigitsPast(whole, fraction + power);
    if whole[0] == '0' {
      assert u[1..] == fraction + power;
    }
  }

  lemma NumberIff(t: string)
    ensures IsNumber(t) <==> IsNumeral(t)
  {
    var minus := if t != "" && t[0] == '-' then "-" else "";
    var u := if t != "" && t[0] == '-' then t[1..] else t;
    assert t == minus + u;
    if IsNumber(t) {
      var whole, fraction, power := UnsignedIs(u);
    }
    if m, v, whole, fraction, power :| (m == "" || m == "-") && t == m + v && ArePartsOf(v, whole, fraction, power) {
      UnsignedOf(v, whole, fraction, power);
      assert v == u;
    }
  }

  predicate AllAtomChars(t: string) {
    forall i :: 0 <= i < |t| ==> IsAtomChar(t[i])
  }

  lemma PartsAtomic(whole: string, fraction: string, power: string)
    requires IsWhole(whole) && IsFraction(fraction) && IsPower(power)
    ensures AllAtomChars(whole + (fraction + power))
  {
    assert AllAtomChars(fraction) by {
      forall i | 0 <= i < |fraction| ensures IsAtomChar(fraction[i]) {
        assert i > 0 ==> fraction[1..][i - 1] == fraction[i];
      }
    }
    assert AllAtomChars(power) by {
      forall i | 0 <= i < |power| ensures IsAtomChar(power[i]) {
        assert i > 0 ==> power[1..][i - 1] == power[i];
        assert i > 1 ==> power[2..][i - 2] == power[i];
      }
    }
  }

  lemma NumeralAtomic(t: string)
    requires IsNumeral(t)
    ensures t != "" && AllAtomChars(t)
  {
    var minus, u, whole, fraction, power :|
      (minus == "" || minus == "-") && t == minus + u && ArePartsOf(u, whole, fraction, power);
    PartsAtomic(whole, fraction, power);
  }

  predicate IsWord(t: string) {
    t == "true" || t == "false" || t == "null" || t == "NaN" || t == "Infinity" || t == "-Infinity"
  }

  /** A bare literal is one of three words, one of the three constants Python adds, or a number. */
  lemma LiteralIff(t: string)
    ensures IsLiteral(t) <==> IsWord(t) || IsNumeral(t)
  {
    NumberIff(t);
    if IsNumeral(t) {
      NumeralAtomic(t);
      assert forall i :: 0 <= i < |t| ==> IsAtomChar(t[i]);
    } else if IsWord(t) {
      assert forall i :: 0 <= i < |t| ==> IsAtomChar(t[i]);
    }
  }
}
