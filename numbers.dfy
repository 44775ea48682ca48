// The parts of Go's strconv package the service calls: ParseInt (base 10,
// 64 bits), ParseFloat (64 bits, decimal syntax) and ParseBool.
module Numbers {
  import opened Common

  predicate IsDigit(c: char) { '0' <= c <= '9' }

  predicate Digits(s: string) { |s| > 0 && forall i :: 0 <= i < |s| ==> IsDigit(s[i]) }

  /** The value of a string of decimal digits. */
  function DigitsValue(s: string): (v: nat)
    requires forall i :: 0 <= i < |s| ==> IsDigit(s[i])
    ensures |s| > 0 && s[0] == '0' && |s| == 1 ==> v == 0
  {
    if |s| == 0 then 0
    else
      var last := s[|s| - 1];
      assert IsDigit(last);
      10 * DigitsValue(s[..|s| - 1]) + (last as int - '0' as int)
  }

  function Unsigned(s: string): string
  {
    if |s| > 0 && (s[0] == '+' || s[0] == '-') then s[1..] else s
  }

  /**
   * strconv.ParseInt(s, 10, 64): one optional sign, at least one digit, no
   * underscores (they are allowed only with base 0), and the value must fit
   * in an int64; otherwise a syntax or range error (None).
   */
  function ParseInt64(s: string): (r: Option<Int64>)
    ensures r.Some? <==> Digits(Unsigned(s)) && MinInt64 <= SignedValue(s) <= MaxInt64
    ensures r.Some? ==> r.value == SignedValue(s)
    ensures s == "" ==> r.None?
  {
    var body := Unsigned(s);
    if !Digits(body) then None
    else
      var v := SignedValue(s);
      if MinInt64 <= v <= MaxInt64 then Some(v) else None
  }

  function SignedValue(s: string): int
    requires Digits(Unsigned(s))
  {
    var v: int := DigitsValue(Unsigned(s));
    if s[0] == '-' then -v else v
  }

  /** strconv.ParseBool */
  function ParseBool(s: string): (r: Option<bool>)
    ensures r == Some(true) <==> s in {"1", "t", "T", "TRUE", "true", "True"}
    ensures r == Some(false) <==> s in {"0", "f", "F", "FALSE", "false", "False"}
  {
    if s == "1" || s == "t" || s == "T" || s == "TRUE" || s == "true" || s == "True" then Some(true)
    else if s == "0" || s == "f" || s == "F" || s == "FALSE" || s == "false" || s == "False" then Some(false)
    else None
  }

  // ---------------------------------------------------------------- floats

  /**
   * How many characters from position i on are digits or '_' separators:
   * ParseFloat's digit loops skip an underscore and leave its placement to
   * UnderscoresBetweenDigits.
   */
  function DigitRun(s: string, i: nat): (n: nat)
    requires i <= |s|
    ensures i + n <= |s|
    ensures forall k :: i <= k < i + n ==> IsDigit(s[k]) || s[k] == '_'
    ensures i + n == |s| || !(IsDigit(s[i + n]) || s[i + n] == '_')
    decreases |s| - i
  {
    if i < |s| && (IsDigit(s[i]) || s[i] == '_') then 1 + DigitRun(s, i + 1) else 0
  }

  /**
   * strconv's underscoreOK for a decimal text: every '_' sits between two
   * digits, so none leads, trails, doubles or touches a sign, point or 'e'.
   */
  predicate UnderscoresBetweenDigits(s: string)
  {
    forall k :: 0 <= k < |s| && s[k] == '_' ==> 0 < k < |s| - 1 && IsDigit(s[k - 1]) && IsDigit(s[k + 1])
  }

  function Lower(c: char): char
  {
    if 'A' <= c <= 'Z' then (c as int + 32) as char else c
  }

  /** Equality ignoring ASCII case, against a lower-case word. */
  predicate EqualFold(s: string, word: string)
  {
    |s| == |word| && forall i :: 0 <= i < |s| ==> Lower(s[i]) == word[i]
  }

  /** "inf" and "infinity" with an optional sign, or "nan" without one, in any case. */
  predicate SpecialFloat(s: string)
  {
    EqualFold(Unsigned(s), "inf") || EqualFold(Unsigned(s), "infinity") || EqualFold(s, "nan")
  }

  /** An exponent body from position i to the end: an optional sign and at least one digit. */
  predicate ExponentTail(s: string, i: nat)
    requires i <= |s|
  {
    var j := if i < |s| && (s[i] == '+' || s[i] == '-') then i + 1 else i;
    DigitRun(s, j) > 0 && j + DigitRun(s, j) == |s|
  }

  /**
   * Decimal float syntax: an optional sign, digits with at most one point
   * and at least one digit in all, then an optional exponent, with '_'
   * allowed only between two digits (Go's digit separator).
   */
  predicate DecimalFloat(s: string)
  {
    var i := if |s| > 0 && (s[0] == '+' || s[0] == '-') then 1 else 0;
    var whole := DigitRun(s, i);
    var j := i + whole;
    var point := j < |s| && s[j] == '.';
    var fraction := if point then DigitRun(s, j + 1) else 0;
    var k := if point then j + 1 + fraction else j;
    && whole + fraction > 0
    && (k == |s| || ((s[k] == 'e' || s[k] == 'E') && ExponentTail(s, k + 1)))
    && UnderscoresBetweenDigits(s)
  }

  /** Whether strconv.ParseFloat(s, 64) accepts the syntax of s. */
  predicate ParsesAsNumber(s: string)
  {
    DecimalFloat(s) || SpecialFloat(s)
  }

  /** A float64 read from text, or the 0 that ParseFloat returns beside a syntax error. */
  datatype Float = FromText(text: string) | Zero

  /** ParseFloat whose error is only logged: the value is 0 when the syntax is wrong. */
  function FloatOrZero(s: string): (f: Float)
    ensures f.FromText? <==> ParsesAsNumber(s)
    ensures f.FromText? ==> f.text == s
  {
    if ParsesAsNumber(s) then FromText(s) else Zero
  }

  /** Fields of the data files that strconv.ParseFloat reads. */
  lemma ExampleNumbers()
    ensures ParsesAsNumber("7.6") && ParsesAsNumber("-999")
  {
    var a, b := "7.6", "-999";
    assert a[0] == '7' && a[1] == '.' && a[2] == '6';
    assert DigitRun(a, 3) == 0 && DigitRun(a, 2) == 1;
    assert DigitRun(a, 1) == 0 && DigitRun(a, 0) == 1;
    assert UnderscoresBetweenDigits(a);
    assert DecimalFloat(a);
    assert b[0] == '-' && b[1] == '9' && b[2] == '9' && b[3] == '9';
    assert DigitRun(b, 4) == 0 && DigitRun(b, 3) == 1;
    assert DigitRun(b, 2) == 2 && DigitRun(b, 1) == 3;
    assert UnderscoresBetweenDigits(b);
    assert DecimalFloat(b);
  }

  /** An empty field and the end-of-record marker are not numbers. */
  lemma ExampleNonNumbers()
    ensures !ParsesAsNumber("") && !ParsesAsNumber("eor")
  {
    assert DigitRun("eor", 0) == 0;
    assert !EqualFold("eor", "nan") by { assert Lower('e') != 'n'; }
  }

  /** Underscores separate digits, as in Go's literal syntax. */
  lemma ExampleUnderscores()
    ensures ParsesAsNumber("1_0")
  {
    assert DigitRun("1_0", 0) == 3;
  }

  /** The mantissa and the exponent may both carry separators. */
  lemma ExampleSeparatedExponent()
    ensures ParsesAsNumber("1_2.5_0e+1_2")
  {
    var s := "1_2.5_0e+1_2";
    assert s[0] == '1' && s[1] == '_' && s[2] == '2' && s[3] == '.' && s[4] == '5' && s[5] == '_';
    assert s[6] == '0' && s[7] == 'e' && s[8] == '+' && s[9] == '1' && s[10] == '_' && s[11] == '2';
    assert DigitRun(s, 12) == 0;
    assert DigitRun(s, 11) == 1;
    assert DigitRun(s, 10) == 2;
    assert DigitRun(s, 9) == 3;
    assert ExponentTail(s, 8);
    assert DigitRun(s, 7) == 0;
    assert DigitRun(s, 6) == 1;
    assert DigitRun(s, 5) == 2;
    assert DigitRun(s, 4) == 3;
    assert DigitRun(s, 3) == 0;
    assert DigitRun(s, 2) == 1;
    assert DigitRun(s, 1) == 2;
    assert DigitRun(s, 0) == 3;
    assert UnderscoresBetweenDigits(s) by {
      forall k | 0 <= k < |s| && s[k] == '_'
        ensures 0 < k < |s| - 1 && IsDigit(s[k - 1]) && IsDigit(s[k + 1])
      {
        assert k == 1 || k == 5 || k == 10;
      }
    }
    assert DecimalFloat(s);
  }

  /** A text with an underscore that is not between two digits is no number. */
  lemma MisplacedUnderscore(s: string, k: nat)
    requires k < |s| && s[k] == '_'
    requires !(0 < k < |s| - 1 && IsDigit(s[k - 1]) && IsDigit(s[k + 1]))
    ensures !ParsesAsNumber(s)
  {
    assert !UnderscoresBetweenDigits(s);
    var u := Unsigned(s);
    var j := if u == s then k else k - 1;
    assert 0 <= j < |u| && u[j] == '_' && Lower(u[j]) == '_';
    assert Lower(s[k]) == '_';
    assert !EqualFold(u, "inf") && !EqualFold(u, "infinity") && !EqualFold(s, "nan");
  }

  /** Doubled, leading, trailing and point-touching underscores are refused. */
  lemma ExampleMisplacedUnderscores()
    ensures !ParsesAsNumber("1__0") && !ParsesAsNumber("_1") && !ParsesAsNumber("1_.5") && !ParsesAsNumber("1_")
  {
    MisplacedUnderscore("1__0", 1);
    MisplacedUnderscore("_1", 0);
    MisplacedUnderscore("1_.5", 1);
    MisplacedUnderscore("1_", 1);
  }

  lemma ExampleInts()
    ensures ParseInt64("42") == Some(42) && ParseInt64("-7") == Some(-7)
    ensures ParseInt64("") == None && ParseInt64("+") == None && ParseInt64("1.0") == None
  {
    assert DigitsValue("4") == 4;
    assert DigitsValue("7") == 7;
    assert Unsigned("-7") == "7";
    assert !Digits(Unsigned("1.0")) by { assert !IsDigit("1.0"[1]); }
  }
}
