/**
 * `int.TryParse(string, out int)` in its invariant decimal form
 * (`NumberStyles.Integer`): optional leading and trailing white space, an
 * optional `+` or `-`, then one or more decimal digits, and a value that fits
 * in a 32-bit signed integer. Anything else, overflow included, is a failure.
 */
module Int32Parse {
  import opened Wrappers

  const Int32Min: int := -0x8000_0000
  const Int32Max: int := 0x7FFF_FFFF

  predicate InInt32Range(n: int)
  {
    Int32Min <= n <= Int32Max
  }

  /** The white space `NumberStyles.AllowLeadingWhite` and `AllowTrailingWhite` accept: U+0009 to U+000D and U+0020. */
  predicate IsNumberWhite(c: char)
  {
    0x09 <= c as int <= 0x0D || c == ' '
  }

  predicate AllNumberWhite(s: string)
  {
    forall i :: 0 <= i < |s| ==> IsNumberWhite(s[i])
  }

  predicate IsDigit(c: char)
  {
    '0' <= c <= '9'
  }

  predicate AllDigits(s: string)
  {
    forall i :: 0 <= i < |s| ==> IsDigit(s[i])
  }

  predicate IsSign(s: string)
  {
    s == "" || s == "+" || s == "-"
  }

  function DigitValue(c: char): (d: nat)
    requires IsDigit(c)
    ensures d < 10
  {
    c as int - '0' as int
  }

  function DigitChar(d: nat): (c: char)
    requires d < 10
    ensures IsDigit(c) && DigitValue(c) == d
  {
    ('0' as int + d) as char
  }

  /** The value of a string of decimal digits, most significant digit first. */
  function DigitsValue(s: string): nat
    requires AllDigits(s)
  {
    if s == [] then 0 else 10 * DigitsValue(s[..|s| - 1]) + DigitValue(s[|s| - 1])
  }

  /** The value the sign and the digits denote together. */
  function SignedValue(sign: string, digits: string): int
    requires AllDigits(digits)
  {
    if sign == "-" then -(DigitsValue(digits) as int) else DigitsValue(digits)
  }

  /** Drops the leading number white space. */
  function TrimStartWhite(s: string): (r: string)
    ensures |r| <= |s| && r == s[|s| - |r|..]
    ensures AllNumberWhite(s[..|s| - |r|])
    ensures r == [] || !IsNumberWhite(r[0])
  {
    if s != [] && IsNumberWhite(s[0]) then TrimStartWhite(s[1..]) else s
  }

  /** Drops the trailing number white space. */
  function TrimEndWhite(s: string): (r: string)
    ensures |r| <= |s| && r == s[..|r|]
    ensures AllNumberWhite(s[|r|..])
    ensures r == [] || !IsNumberWhite(r[|r| - 1])
  {
    if s != [] && IsNumberWhite(s[|s| - 1]) then TrimEndWhite(s[..|s| - 1]) else s
  }

  /** The sign and digits that remain once the white space is trimmed. */
  function ParseSignedDigits(t: string): (r: Option<int>)
  {
    var sign := if |t| > 0 && (t[0] == '+' || t[0] == '-') then t[..1] else "";
    var digits := t[|sign|..];
    if digits == [] || !AllDigits(digits) then None
    else if InInt32Range(SignedValue(sign, digits)) then Some(SignedValue(sign, digits))
    else None
  }

  /** `int.TryParse`: `Some(n)` where .NET returns true with `n`, `None` where it returns false. */
  function TryParseInt32(s: string): (r: Option<int>)
    ensures r.Some? ==> InInt32Range(r.value)
  {
    ParseSignedDigits(TrimEndWhite(TrimStartWhite(s)))
  }

  /** The accepted shape: white space, a sign, a non-empty run of digits, white space. */
  predicate WellFormed(lead: string, sign: string, digits: string, trail: string)
  {
    AllNumberWhite(lead) && IsSign(sign) && digits != [] && AllDigits(digits) && AllNumberWhite(trail)
  }

  lemma {:induction false} TrimStartOfWhitePrefix(lead: string, core: string)
    requires AllNumberWhite(lead)
    requires core == [] || !IsNumberWhite(core[0])
    ensures TrimStartWhite(lead + core) == core
  {
    if lead != [] {
      assert (lead + core)[1..] == lead[1..] + core;
      TrimStartOfWhitePrefix(lead[1..], core);
    } else {
      assert lead + core == core;
    }
  }

  lemma {:induction false} TrimEndOfWhiteSuffix(core: string, trail: string)
    requires AllNumberWhite(trail)
    requires core == [] || !IsNumberWhite(core[|core| - 1])
    ensures TrimEndWhite(core + trail) == core
  {
    if trail != [] {
      assert (core + trail)[..|core + trail| - 1] == core + trail[..|trail| - 1];
      TrimEndOfWhiteSuffix(core, trail[..|trail| - 1]);
    } else {
      assert core + trail == core;
    }
  }

  lemma SignedDigitsParse(sign: string, digits: string)
    requires IsSign(sign) && digits != [] && AllDigits(digits)
    ensures ParseSignedDigits(sign + digits)
         == if InInt32Range(SignedValue(sign, digits)) then Some(SignedValue(sign, digits)) else None
  {
    var t := sign + digits;
    assert |t| > 0 && (t[0] == '+' || t[0] == '-') <==> sign != "";
    assert t[|sign|..] == digits;
    if sign != "" {
      assert t[..1] == sign;
    }
  }

  /** Every string of the accepted shape parses, to its value when that fits in 32 bits. */
  lemma ParseComplete(lead: string, sign: string, digits: string, trail: string)
    requires WellFormed(lead, sign, digits, trail)
    ensures TryParseInt32(lead + sign + digits + trail)
         == if InInt32Range(SignedValue(sign, digits)) then Some(SignedValue(sign, digits)) else None
  {
    var core := sign + digits;
    assert lead + sign + digits + trail == lead + (core + trail);
    assert (core + trail)[0] == core[0];
    TrimStartOfWhitePrefix(lead, core + trail);
    assert core[|core| - 1] == digits[|digits| - 1];
    TrimEndOfWhiteSuffix(core, trail);
    SignedDigitsParse(sign, digits);
  }

  lemma SignedDigitsSound(t: string) returns (sign: string, digits: string)
    requires ParseSignedDigits(t).Some?
    ensures t == sign + digits && IsSign(sign) && digits != [] && AllDigits(digits)
    ensures ParseSignedDigits(t) == Some(SignedValue(sign, digits))
  {
    sign := if |t| > 0 && (t[0] == '+' || t[0] == '-') then t[..1] else "";
    digits := t[|sign|..];
    assert t == sign + digits;
  }

  lemma Reassemble(s: string, lead: string, sign: string, digits: string, trail: string)
    requires s == lead + (sign + digits) + trail
    ensures s == lead + sign + digits + trail
  {
  }

  lemma Join(s: string, lead: string, u: string, t: string, trail: string)
    requires |u| <= |s| && u == s[|s| - |u|..] && lead == s[..|s| - |u|]
    requires |t| <= |u| && t == u[..|t|] && trail == u[|t|..]
    ensures s == lead + t + trail
  {
    assert u == t + trail;
    assert s == lead + u;
  }

  /** Splits a string into its leading white space, its trimmed core, and its trailing white space. */
  lemma TrimSplit(s: string) returns (lead: string, trail: string)
    ensures s == lead + TrimEndWhite(TrimStartWhite(s)) + trail
    ensures AllNumberWhite(lead) && AllNumberWhite(trail)
  {
    var u := TrimStartWhite(s);
    var t := TrimEndWhite(u);
    lead, trail := s[..|s| - |u|], u[|t|..];
    Join(s, lead, u, t, trail);
  }

  /** Every string that parses has the accepted shape, and its value is what the shape denotes. */
  lemma ParseSound(s: string) returns (lead: string, sign: string, digits: string, trail: string)
    requires TryParseInt32(s).Some?
    ensures s == lead + sign + digits + trail
    ensures WellFormed(lead, sign, digits, trail)
    ensures TryParseInt32(s) == Some(SignedValue(sign, digits))
  {
    lead, trail := TrimSplit(s);
    sign, digits := SignedDigitsSound(TrimEndWhite(TrimStartWhite(s)));
    Reassemble(s, lead, sign, digits, trail);
  }

  /** Whatever parses holds a digit, at the position `ParseSound` names. */
  lemma ParsedHasDigit(s: string) returns (k: nat)
    requires TryParseInt32(s).Some?
    ensures k < |s| && IsDigit(s[k])
  {
    var lead, sign, digits, trail := ParseSound(s);
    k := |lead| + |sign|;
    assert s[k] == digits[0];
  }

  /** The decimal digits of a natural number, with no leading zero. */
  function NatDigits(n: nat): (s: string)
    ensures s != [] && AllDigits(s)
    decreases n
  {
    if n < 10 then [DigitChar(n)] else NatDigits(n / 10) + [DigitChar(n % 10)]
  }

  /** The decimal form `int.ToString()` gives in the invariant culture. */
  function DecimalString(n: int): (s: string)
  {
    if n < 0 then "-" + NatDigits(-n) else NatDigits(n)
  }

  lemma {:induction false} NatDigitsValue(n: nat)
    ensures DigitsValue(NatDigits(n)) == n
    decreases n
  {
    if n >= 10 {
      var s := NatDigits(n);
      assert s[..|s| - 1] == NatDigits(n / 10);
      NatDigitsValue(n / 10);
    }
  }

  /**
   * Parsing the decimal form of any integer gives it back when it fits in 32
   * bits, and fails when it does not: overflow is a failure, never a wrap-around.
   */
  lemma DecimalStringParse(n: int)
    ensures TryParseInt32(DecimalString(n)) == if InInt32Range(n) then Some(n) else None
  {
    var m: nat := if n < 0 then -n else n;
    var sign := if n < 0 then "-" else "";
    var digits := NatDigits(m);
    NatDigitsValue(m);
    assert SignedValue(sign, digits) == n;
    assert DecimalString(n) == sign + digits;
    Reassemble(sign + digits, "", sign, digits, "");
    ParseComplete("", sign, digits, "");
  }
}
