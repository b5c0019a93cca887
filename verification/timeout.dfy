/** Resolution of the send timeout from `SIGNALFX_SEND_TIMEOUT` (MetricWrapper.java:61-81):
    `Integer.valueOf` of the variable, 300 when it throws, applied to both receiver factories
    only when it is greater than -1. */
module SendTimeout {
  import opened Options

  /** The fallback when the variable does not parse. */
  const DefaultTimeoutMs := 300

  /** The range of a Java `int`. */
  const MinInt := -0x8000_0000
  const MaxInt := 0x7FFF_FFFF

  predicate IsDigit(c: char) {
    '0' <= c <= '9'
  }

  predicate AllDigits(s: string) {
    forall i :: 0 <= i < |s| ==> IsDigit(s[i])
  }

  function DigitValue(c: char): nat
    requires IsDigit(c)
  {
    c as int - '0' as int
  }

  /** The number a non-empty run of decimal digits denotes, most significant digit first. */
  function DigitsValue(s: string): nat
    requires AllDigits(s)
  {
    if |s| == 0 then 0 else DigitsValue(s[..|s| - 1]) * 10 + DigitValue(s[|s| - 1])
  }

  /** `Integer.valueOf(String)`: an optional `+` or `-`, then one or more decimal digits, with
      a value in the range of an `int`; `None` where Java throws `NumberFormatException`
      (a null or empty string, a lone sign, any other character, an overflow). */
  function ParseInt(s: Option<string>): (r: Option<int>)
    ensures r.Some? ==> MinInt <= r.value <= MaxInt
    ensures r.Some? ==> s.Some? && s.value != "" && s.value != "-" && s.value != "+"
  {
    match s
    case None => None
    case Some(t) =>
      if |t| == 0 then None
      else
        var signed := t[0] == '-' || t[0] == '+';
        var digits := if signed then t[1..] else t;
        if |digits| == 0 || !AllDigits(digits) then None
        else
          var v := if t[0] == '-' then -(DigitsValue(digits) as int) else DigitsValue(digits) as int;
          if MinInt <= v <= MaxInt then Some(v) else None
  }

  /** The timeout the wrapper uses: the parsed variable, or 300 when parsing throws. */
  function ResolveTimeout(env: Option<string>): (t: int)
    ensures MinInt <= t <= MaxInt
    ensures ParseInt(env).Some? ==> t == ParseInt(env).value
    ensures ParseInt(env).None? ==> t == DefaultTimeoutMs
  {
    match ParseInt(env)
    case Some(v) => v
    case None => DefaultTimeoutMs
  }

  /** The timeouts set on the datapoint and the event receiver factory; `None` leaves a
      factory at the library's own default. */
  datatype Factories = Factories(dataPointTimeoutMs: Option<int>, eventTimeoutMs: Option<int>)

  /** Both factories get the timeout when it is greater than -1; otherwise neither changes. */
  function ConfigureFactories(timeoutMs: int): (f: Factories)
    ensures f.dataPointTimeoutMs == f.eventTimeoutMs
    ensures f.dataPointTimeoutMs.Some? <==> timeoutMs >= 0
    ensures f.dataPointTimeoutMs.Some? ==> f.dataPointTimeoutMs.value == timeoutMs
  {
    if timeoutMs > -1 then Factories(Some(timeoutMs), Some(timeoutMs)) else Factories(None, None)
  }

  /** Decimal digits of a natural number, without leading zeros. */
  function Digits(n: nat): (s: string)
    ensures |s| > 0 && AllDigits(s)
  {
    if n < 10 then [('0' as int + n) as char]
    else Digits(n / 10) + [('0' as int + n % 10) as char]
  }

  /** `Integer.toString`: a `-` before the digits of a negative number. */
  function Decimal(n: int): string {
    if n < 0 then "-" + Digits(-n) else Digits(n)
  }

  lemma {:induction false} DigitsValueOfDigits(n: nat)
    ensures DigitsValue(Digits(n)) == n
  {
    if n >= 10 {
      var s := Digits(n);
      assert s[..|s| - 1] == Digits(n / 10);
      DigitsValueOfDigits(n / 10);
    }
  }

  /** Parsing inverts printing: every `int` written in decimal parses back to itself. */
  lemma DecimalRoundTrip(n: int)
    requires MinInt <= n <= MaxInt
    ensures ParseInt(Some(Decimal(n))) == Some(n)
  {
    if n < 0 {
      assert Decimal(n)[1..] == Digits(-n);
      DigitsValueOfDigits(-n);
    } else {
      DigitsValueOfDigits(n);
    }
  }

  /** A number outside the `int` range does not parse, so the timeout falls back to 300. */
  lemma OverflowFallsBack(n: int)
    requires n < MinInt || MaxInt < n
    ensures ParseInt(Some(Decimal(n))) == None
    ensures ResolveTimeout(Some(Decimal(n))) == DefaultTimeoutMs
  {
    if n < 0 {
      DigitsValueOfDigits(-n);
      SignedDigitsParse("-", Digits(-n));
    } else {
      DigitsValueOfDigits(n);
      assert Decimal(n) == "" + Digits(n);
      SignedDigitsParse("", Digits(n));
    }
  }

  /** A timeout written in decimal within the `int` range is used as written. */
  lemma TimeoutAsWritten(n: int)
    requires MinInt <= n <= MaxInt
    ensures ResolveTimeout(Some(Decimal(n))) == n
  {
    DecimalRoundTrip(n);
  }

  /** An absent variable (`Integer.valueOf(null)` throws), an empty one and a lone sign all
      fall back to 300. */
  lemma MissingTimeoutFallsBack()
    ensures ResolveTimeout(None) == DefaultTimeoutMs
    ensures ResolveTimeout(Some("")) == DefaultTimeoutMs
    ensures ResolveTimeout(Some("-")) == DefaultTimeoutMs
    ensures ResolveTimeout(Some("+")) == DefaultTimeoutMs
  {
  }

  /** A character that is neither a digit nor a leading sign anywhere in the variable (a space,
      a unit such as "ms", a decimal point) makes it fall back to 300. */
  lemma StrayCharacterFallsBack(s: string, i: nat)
    requires i < |s| && !IsDigit(s[i])
    requires i > 0 || (s[0] != '-' && s[0] != '+')
    ensures ResolveTimeout(Some(s)) == DefaultTimeoutMs
  {
    if s[0] == '-' || s[0] == '+' {
      assert !IsDigit(s[1..][i - 1]);
    } else {
      assert !IsDigit(s[i]);
    }
  }

  /** A negative timeout, -1 included, leaves both factories at their own default. */
  lemma NegativeTimeoutLeavesFactories(t: int)
    requires t < 0
    ensures ConfigureFactories(t) == Factories(None, None)
  {
  }

  /** Every spelling Java accepts parses to its value: an optional `+` or `-` followed by one
      or more digits, leading zeros allowed, gives the signed value of the digits when that is
      an `int`, and nothing otherwise. */
  lemma SignedDigitsParse(sign: string, digits: string)
    requires sign == "" || sign == "+" || sign == "-"
    requires |digits| > 0 && AllDigits(digits)
    ensures var v := if sign == "-" then -(DigitsValue(digits) as int) else DigitsValue(digits) as int;
      ParseInt(Some(sign + digits)) == if MinInt <= v <= MaxInt then Some(v) else None
  {
    var t := sign + digits;
    if sign == "" {
      assert t == digits;
    } else {
      assert t[0] == sign[0] && t[1..] == digits;
    }
  }

  /** Non-canonical spellings: a plus sign, leading zeros and a negative zero. */
  lemma NonCanonicalSpellings()
    ensures ParseInt(Some("+300")) == Some(300)
    ensures ParseInt(Some("007")) == Some(7)
    ensures ParseInt(Some("-0")) == Some(0)
  {
    SignedDigitsParse("+", "300");
    SignedDigitsParse("", "007");
    SignedDigitsParse("-", "0");
  }

  /** With the variable unset both factories are configured with the 300 ms fallback; with an
      `int` written in decimal they get that value exactly when it is not negative. */
  lemma ResolvedTimeoutConfiguresFactories(n: int)
    requires MinInt <= n <= MaxInt
    ensures ConfigureFactories(ResolveTimeout(None)) == Factories(Some(DefaultTimeoutMs), Some(DefaultTimeoutMs))
    ensures n >= 0 ==> ConfigureFactories(ResolveTimeout(Some(Decimal(n)))) == Factories(Some(n), Some(n))
    ensures n < 0 ==> ConfigureFactories(ResolveTimeout(Some(Decimal(n)))) == Factories(None, None)
  {
    TimeoutAsWritten(n);
  }
}
