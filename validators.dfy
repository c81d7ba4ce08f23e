/**
 * The answer validators and the cakeshop-answer transform of the interactive questions
 * (validators.js). JavaScript's parseInt with radix 10 is modelled by ParseInt.
 */
module Validators {
  import opened Wrappers
  import opened Text

  // ---------------------------------------------------------------------------
  // parseInt(input, 10)

  /** The characters JavaScript's parseInt skips at the start: white space and line terminators. */
  predicate IsJsWhitespace(c: char)
  {
    if c <= ' ' then
      c == '\t' || c == '\n' || c == '\U{000B}' || c == '\U{000C}' || c == '\r' || c == ' '
    else
      '\U{00A0}' <= c
      && (c == '\U{00A0}' || c == '\U{FEFF}' || c == '\U{2028}' || c == '\U{2029}' || c == '\U{1680}'
          || ('\U{2000}' <= c <= '\U{200A}') || c == '\U{202F}' || c == '\U{205F}' || c == '\U{3000}')
  }

  /** s without its leading white space. */
  function TrimStart(s: string): (r: string)
    ensures |r| <= |s|
    ensures r == [] || !IsJsWhitespace(r[0])
  {
    if s != [] && IsJsWhitespace(s[0]) then TrimStart(s[1..]) else s
  }

  /** The value of the run of decimal digits at the start of s; None when the run is empty. */
  function ReadDigits(s: string): Option<nat>
  {
    var k := DigitRun(s);
    if k == 0 then None else Some(DigitsValue(s[..k]))
  }

  /**
   * parseInt(s, 10): skip leading white space, read an optional sign, then the longest run of decimal
   * digits; anything after the run is ignored. None stands for NaN, the result when the run is empty.
   */
  function ParseInt(s: string): (r: Option<int>)
    ensures TrimStart(s) == [] ==> r.None?
    ensures r.Some? && r.value < 0 ==> TrimStart(s)[0] == '-'
  {
    ParseSigned(TrimStart(s))
  }

  /** What parseInt reads once the white space is skipped: an optional sign, then the digit run. */
  function ParseSigned(t: string): Option<int>
  {
    var negative := t != [] && t[0] == '-';
    var magnitude := ReadDigits(if t != [] && (t[0] == '-' || t[0] == '+') then t[1..] else t);
    if magnitude.None? then None
    else Some(if negative then -(magnitude.value as int) else magnitude.value as int)
  }

  /** A digit string followed by a non-digit (or nothing) reads as that digit string's value. */
  lemma ReadDigitsThen(digits: string, rest: string)
    requires digits != [] && AllDigits(digits)
    requires rest == [] || !IsDigit(rest[0])
    ensures ReadDigits(digits + rest) == Some(DigitsValue(digits))
  {
    DigitRunOfDigitsThen(digits, rest);
    assert (digits + rest)[..|digits|] == digits;
  }

  /** Text that starts with a digit: parseInt reads its digit run. */
  lemma ParseIntOfDigitStart(s: string)
    requires s != [] && IsDigit(s[0])
    ensures ReadDigits(s).Some? && ParseInt(s) == Some(ReadDigits(s).value as int)
  {
    assert TrimStart(s) == s by {
      assert !IsJsWhitespace(s[0]);
    }
  }

  /** A minus sign, then text with a digit run: parseInt negates that run. */
  lemma ParseIntOfMinus(body: string, v: nat)
    requires ReadDigits(body) == Some(v)
    ensures ParseInt(['-'] + body) == Some(-(v as int))
  {
    var s := ['-'] + body;
    assert s[0] == '-' && s[1..] == body;
    assert TrimStart(s) == s by {
      assert !IsJsWhitespace(s[0]);
    }
  }

  /** The decimal text of m, then a non-digit (or nothing), reads as m. */
  lemma ReadDigitsOfNatToString(m: nat, rest: string)
    requires rest == [] || !IsDigit(rest[0])
    ensures ReadDigits(NatToString(m) + rest) == Some(m)
  {
    ReadDigitsThen(NatToString(m), rest);
    DigitsValueOfNatToString(m);
  }

  /** parseInt reads back the text of any integer, whatever non-digit text follows it. */
  lemma ParseIntOfIntToString(n: int, rest: string)
    requires rest == [] || !IsDigit(rest[0])
    ensures ParseInt(IntToString(n) + rest) == Some(n)
  {
    if n < 0 {
      var m: nat := -n;
      var body := NatToString(m) + rest;
      assert IntToString(n) + rest == ['-'] + body by {
        assert IntToString(n) == "-" + NatToString(m);
      }
      ReadDigitsOfNatToString(m, rest);
      ParseIntOfMinus(body, m);
    } else {
      var body := NatToString(n) + rest;
      assert IntToString(n) + rest == body && body != [] && IsDigit(body[0]) by {
        assert body[0] == NatToString(n)[0];
      }
      ReadDigitsOfNatToString(n, rest);
      ParseIntOfDigitStart(body);
    }
  }

  /** Leading white space is skipped whole. */
  lemma {:induction false} TrimStartSkipsWhitespace(w: string, s: string)
    requires forall k :: 0 <= k < |w| ==> IsJsWhitespace(w[k])
    ensures TrimStart(w + s) == TrimStart(s)
  {
    if w != [] {
      assert (w + s)[0] == w[0];
      assert (w + s)[1..] == w[1..] + s;
      TrimStartSkipsWhitespace(w[1..], s);
    } else {
      assert w + s == s;
    }
  }

  /** TrimStart only removes characters from the front. */
  lemma {:induction false} TrimStartIsSuffix(s: string)
    ensures TrimStart(s) == s[|s| - |TrimStart(s)|..]
  {
    if s != [] && IsJsWhitespace(s[0]) {
      TrimStartIsSuffix(s[1..]);
    }
  }

  /** What TrimStart removes is white space only. */
  lemma {:induction false} TrimStartSkipsOnlyWhitespace(s: string)
    ensures forall k :: 0 <= k < |s| - |TrimStart(s)| ==> IsJsWhitespace(s[k])
  {
    if s != [] && IsJsWhitespace(s[0]) {
      TrimStartSkipsOnlyWhitespace(s[1..]);
      assert forall k :: 1 <= k < |s| - |TrimStart(s)| ==> s[k] == s[1..][k - 1];
    }
  }

  /** Leading white space does not change what parseInt reads. */
  lemma ParseIntSkipsWhitespace(w: string, s: string)
    requires forall k :: 0 <= k < |w| ==> IsJsWhitespace(w[k])
    ensures ParseInt(w + s) == ParseInt(s)
  {
    TrimStartSkipsWhitespace(w, s);
  }

  /** Text without a single digit is NaN to parseInt. */
  lemma ParseIntWithoutDigits(s: string)
    requires forall k :: 0 <= k < |s| ==> !IsDigit(s[k])
    ensures ParseInt(s) == None
  {
    var t := TrimStart(s);
    TrimStartIsSuffix(s);
    assert forall k :: 0 <= k < |t| ==> t[k] == s[|s| - |t| + k];
  }

  // ---------------------------------------------------------------------------
  // Validators

  /** What an inquirer validator returns: true, or the message to show. */
  datatype Validation = Valid | Invalid(message: string)

  function RangeMessage(low: int, high: int): string
  {
    "Number must be between " + IntToString(low) + " and " + IntToString(high) + " (inclusive)"
  }

  /**
   * validateNumberStringInRange: true exactly when the parsed number lies in [low, high]; NaN fails
   * both comparisons and so gets the message.
   */
  function ValidateNumberStringInRange(input: string, low: int, high: int): (r: Validation)
    ensures r == Valid <==> ParseInt(input).Some? && low <= ParseInt(input).value <= high
    ensures r != Valid ==> r == Invalid(RangeMessage(low, high))
  {
    var number := ParseInt(input);
    if number.Some? && number.value >= low && number.value <= high then Valid
    else Invalid(RangeMessage(low, high))
  }

  /** For the text of a number, the range check is the inclusive interval test. */
  lemma RangeOfNumeral(n: int, low: int, high: int)
    ensures ValidateNumberStringInRange(IntToString(n), low, high) == Valid <==> low <= n <= high
  {
    ParseIntOfIntToString(n, "");
    assert IntToString(n) + "" == IntToString(n);
  }

  const MainnetMessage := "Ethereum Mainnet has a network id of 1. Please choose another id"
  const NegativeMessage := "Network ID must be positive"

  /**
   * validateNetworkId as written: the mainnet guard compares the raw text with "1"; the sign test
   * parses it. Zero and unparsable input are accepted.
   */
  function ValidateNetworkId(input: string): (r: Validation)
    ensures input == "1" ==> r == Invalid(MainnetMessage)
    ensures input != "1" && ParseInt(input).Some? && ParseInt(input).value < 0 ==> r == Invalid(NegativeMessage)
    ensures r == Valid <==> input != "1" && (ParseInt(input).None? || ParseInt(input).value >= 0)
  {
    if input == "1" then Invalid(MainnetMessage)
    else
      var number := ParseInt(input);
      if number.Some? && number.value < 0 then Invalid(NegativeMessage)
      else Valid
  }

  /** On the text of a number, validateNetworkId accepts exactly the non-negative ids other than 1. */
  lemma NetworkIdOfNumeral(n: int)
    ensures ValidateNetworkId(IntToString(n)) == Valid <==> n >= 0 && n != 1
  {
    ParseIntOfIntToString(n, "");
    assert IntToString(n) + "" == IntToString(n);
    assert IntToString(1) == "1";
    if n >= 0 {
      NatToStringInjective(n, 1);
    }
  }

  /** The mainnet guard misses "01": it parses to 1 and is accepted. */
  lemma NetworkIdAcceptsPaddedMainnet()
    ensures ParseInt("01") == Some(1)
    ensures ValidateNetworkId("01") == Valid
  {
    assert DigitsValue("01") == 1 by {
      assert "01"[..1] == "0";
      assert "0"[..0] == "";
    }
    ReadDigitsThen("01", "");
    assert "01" + "" == "01";
    ParseIntOfDigitStart("01");
    assert "01" != "1";
  }

  /** validateNetworkId as intended: every input that parses to 1 is mainnet. */
  function ValidateNetworkIdIntended(input: string): (r: Validation)
    ensures ParseInt(input) == Some(1) ==> r == Invalid(MainnetMessage)
    ensures r == Valid <==> ParseInt(input).None? || (ParseInt(input).value >= 0 && ParseInt(input).value != 1)
  {
    var number := ParseInt(input);
    if number == Some(1) then Invalid(MainnetMessage)
    else if number.Some? && number.value < 0 then Invalid(NegativeMessage)
    else Valid
  }

  /** The two versions differ exactly on inputs other than "1" that parse to 1. */
  lemma IntendedDiffersOnlyOnMainnetSpellings(input: string)
    ensures ValidateNetworkIdIntended(input) != ValidateNetworkId(input)
            <==> input != "1" && ParseInt(input) == Some(1)
  {
    if input == "1" {
      ParseIntOfIntToString(1, "");
      assert IntToString(1) + "" == "1";
    }
  }

  // ---------------------------------------------------------------------------
  // transformCakeshopAnswer

  const CakeshopJ11 := "0.11.0-RC2-J11"
  const CakeshopPlain := "0.11.0-RC2"

  /** transformCakeshopAnswer: the cakeshop version for "Yes", chosen by the Java 11 check, else "none". */
  function TransformCakeshopAnswer(answer: string, java11Plus: bool): (r: string)
    ensures r == "none" <==> answer != "Yes"
    ensures answer == "Yes" ==> (r == CakeshopJ11 <==> java11Plus) && (r == CakeshopPlain <==> !java11Plus)
  {
    if answer == "Yes" then (if java11Plus then CakeshopJ11 else CakeshopPlain)
    else "none"
  }
}
