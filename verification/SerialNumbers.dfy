/**
  Which texts the serial commands read as which number: a printed number with any
  leading zeros, white space and a sign before it, or `0x` and hexadecimal digits.
 */
module SerialNumbers {
  import opened Common
  import opened SerialDispatch

  const DIGITS := "0123456789abcdef"

  /** A number in decimal or, with lower-case letters, in hexadecimal. */
  function Printed(n: nat, base: nat): (s: string)
    requires base == 10 || base == 16
    ensures s != ""
    decreases n
  {
    if n < base then [DIGITS[n]] else Printed(n / base, base) + [DIGITS[n % base]]
  }

  function ZeroDigits(k: nat): string {
    seq(k, _ => '0')
  }

  function LowerChar(c: char): char {
    if 'A' <= c <= 'F' then (c as int - 'A' as int + 'a' as int) as char else c
  }

  function Lower(s: string): string {
    seq(|s|, i requires 0 <= i < |s| => LowerChar(s[i]))
  }

  /** `s` is the number, printed in either case, after any number of zeros. */
  ghost predicate Spelled(s: string, base: nat, n: nat)
    requires base == 10 || base == 16
  {
    exists k :: PrintedAfter(s, base, n, k)
  }

  predicate PrintedAfter(s: string, base: nat, n: nat, k: nat)
    requires base == 10 || base == 16
  {
    Lower(s) == ZeroDigits(k) + Printed(n, base)
  }

  predicate IsWhite(c: char) {
    c == ' ' || 9 <= c as int <= 13
  }

  /** A decimal number after white space and a sign; only zero may be negative. */
  ghost predicate DecimalText(w: string, n: nat) {
    exists lead, sign, digits :: SignedText(w, lead, sign, digits, n)
  }

  ghost predicate SignedText(w: string, lead: string, sign: string, digits: string, n: nat) {
    && w == lead + sign + digits && (forall i :: 0 <= i < |lead| ==> IsWhite(lead[i]))
    && (sign == "" || sign == "+" || (sign == "-" && n == 0))
    && Spelled(digits, 10, n)
  }

  ghost predicate HexText(w: string, n: nat) {
    |w| > 2 && w[0] == '0' && (w[1] == 'x' || w[1] == 'X') && Spelled(w[2..], 16, n)
  }

  // ----- digits -----

  lemma DigitOf(d: nat, base: nat)
    requires (base == 10 || base == 16) && d < base
    ensures DigitValue(DIGITS[d]) == d && LowerChar(DIGITS[d]) == DIGITS[d]
  {
  }

  lemma DigitBack(c: char, base: nat)
    requires (base == 10 || base == 16) && DigitValue(c) < base
    ensures LowerChar(c) == DIGITS[DigitValue(c)]
  {
  }

  lemma LowerDigit(c: char)
    ensures DigitValue(LowerChar(c)) == DigitValue(c)
  {
  }

  lemma LowerConcat(s: string, c: char)
    ensures Lower(s + [c]) == Lower(s) + [LowerChar(c)]
  {
  }

  lemma {:induction false} DigitsLower(s: string, base: nat)
    ensures Digits(Lower(s), base) == Digits(s, base)
    decreases |s|
  {
    if s != "" {
      var init := s[..|s| - 1];
      assert s == init + [s[|s| - 1]];
      LowerConcat(init, s[|s| - 1]);
      LowerDigit(s[|s| - 1]);
      assert Lower(s)[..|s| - 1] == Lower(init);
      DigitsLower(init, base);
    }
  }

  /** One more digit. */
  lemma DigitsMore(s: string, c: char, base: nat, high: nat)
    requires Digits(s, base) == Some(high) && DigitValue(c) < base
    ensures Digits(s + [c], base) == Some(high * base + DigitValue(c))
  {
    assert (s + [c])[..|s|] == s;
  }

  lemma {:induction false} ZerosValue(k: nat)
    requires k > 0
    ensures Digits(ZeroDigits(k), 10) == Some(0) && Digits(ZeroDigits(k), 16) == Some(0)
  {
    if k > 1 {
      ZerosValue(k - 1);
      assert ZeroDigits(k) == ZeroDigits(k - 1) + ['0'];
      DigitsMore(ZeroDigits(k - 1), '0', 10, 0);
      DigitsMore(ZeroDigits(k - 1), '0', 16, 0);
    }
  }

  lemma DivMod(n: nat, base: nat)
    requires base == 10 || base == 16
    ensures n / base * base + n % base == n && n % base < base
  {
  }

  lemma {:induction false} PrintedValue(n: nat, base: nat, k: nat)
    requires base == 10 || base == 16
    ensures Digits(ZeroDigits(k) + Printed(n, base), base) == Some(n)
    decreases n
  {
    var zeros := ZeroDigits(k);
    if n < base {
      DigitOf(n, base);
      if k > 0 {
        ZerosValue(k);
        DigitsMore(zeros, DIGITS[n], base, 0);
      } else {
        assert zeros + [DIGITS[n]] == [DIGITS[n]];
      }
    } else {
      PrintedValue(n / base, base, k);
      DivMod(n, base);
      DigitOf(n % base, base);
      DigitsMore(zeros + Printed(n / base, base), DIGITS[n % base], base, n / base);
      Assoc(zeros, Printed(n / base, base), [DIGITS[n % base]]);
    }
  }

  lemma MorePrinted(high: nat, base: nat, d: nat)
    requires (base == 10 || base == 16) && high > 0 && d < base
    ensures Printed(high * base + d, base) == Printed(high, base) + [DIGITS[d]]
  {
    assert (high * base + d) / base == high && (high * base + d) % base == d;
  }

  lemma OneMorePrinted(s: string, c: char, base: nat, high: nat, j: nat) returns (k: nat)
    requires (base == 10 || base == 16) && PrintedAfter(s, base, high, j) && DigitValue(c) < base
    ensures PrintedAfter(s + [c], base, high * base + DigitValue(c), k)
  {
    LowerConcat(s, c);
    DigitBack(c, base);
    if high == 0 {
      k := j + 1;
      assert ZeroDigits(j) + "0" == ZeroDigits(j + 1);
    } else {
      k := j;
      MorePrinted(high, base, DigitValue(c));
      Assoc(ZeroDigits(j), Printed(high, base), [LowerChar(c)]);
    }
  }

  lemma OneDigitPrinted(c: char, base: nat)
    requires (base == 10 || base == 16) && DigitValue(c) < base
    ensures PrintedAfter([c], base, DigitValue(c), 0)
  {
    DigitBack(c, base);
    assert Lower([c]) == [LowerChar(c)];
    assert ZeroDigits(0) + [LowerChar(c)] == [LowerChar(c)];
  }

  /** Digits that have a value are that value, printed after zeros. */
  lemma {:induction false} ValuePrinted(s: string, base: nat, n: nat) returns (k: nat)
    requires (base == 10 || base == 16) && Digits(s, base) == Some(n)
    ensures PrintedAfter(s, base, n, k)
    decreases |s|
  {
    var init, c := s[..|s| - 1], s[|s| - 1];
    if |s| == 1 {
      OneDigitPrinted(c, base);
      assert s == [c];
      k := 0;
    } else {
      var high := Digits(init, base).value;
      var j := ValuePrinted(init, base, high);
      k := OneMorePrinted(init, c, base, high, j);
      assert s == init + [c];
    }
  }

  lemma DigitsIff(s: string, base: nat, n: nat)
    requires base == 10 || base == 16
    ensures Digits(s, base) == Some(n) <==> Spelled(s, base, n)
  {
    if Digits(s, base).Some? {
      var k := ValuePrinted(s, base, Digits(s, base).value);
    }
    forall k | PrintedAfter(s, base, n, k)
      ensures Digits(s, base) == Some(n)
    {
      PrintedValue(n, base, k);
      DigitsLower(s, base);
    }
  }

  lemma {:induction false} AllDigits(s: string, base: nat)
    requires Digits(s, base).Some?
    ensures forall i :: 0 <= i < |s| ==> DigitValue(s[i]) < base
    decreases |s|
  {
    if |s| > 1 {
      AllDigits(s[..|s| - 1], base);
    }
  }

  // ----- the whole token -----

  lemma {:induction false} SkippedWhite(w: string) returns (lead: string)
    ensures w == lead + SkipSpace(w) && forall i :: 0 <= i < |lead| ==> IsWhite(lead[i])
  {
    if w != "" && IsWhite(w[0]) {
      var rest := SkippedWhite(w[1..]);
      lead := [w[0]] + rest;
    } else {
      lead := "";
    }
  }

  lemma {:induction false} SkipsWhite(lead: string, rest: string)
    requires (forall i :: 0 <= i < |lead| ==> IsWhite(lead[i])) && rest != "" && !IsWhite(rest[0])
    ensures SkipSpace(lead + rest) == rest
  {
    if lead == "" {
      assert lead + rest == rest;
    } else {
      assert (lead + rest)[1..] == lead[1..] + rest;
      SkipsWhite(lead[1..], rest);
    }
  }

  predicate HexPrefix(w: string) {
    |w| >= 2 && w[0] == '0' && (w[1] == 'x' || w[1] == 'X')
  }

  lemma HexRead(w: string, max: nat, n: nat)
    requires HexPrefix(w)
    ensures ParseUint(w, max) == Some(n) <==> n <= max && HexText(w, n)
  {
    DigitsIff(w[2..], 16, n);
  }

  function SignOf(body: string): string {
    if body != "" && (body[0] == '-' || body[0] == '+') then body[..1] else ""
  }

  /** Taking the sign off. */
  lemma Unsigned(sign: string, digits: string)
    requires digits != "" && DigitValue(digits[0]) < 10 && sign in {"", "+", "-"}
    ensures var body := sign + digits;
            && !IsWhite(body[0]) && body[|sign|..] == digits && SignOf(body) == sign
  {
  }

  /** What a signed text is read as: the white space and the sign are taken off. */
  lemma SignedRead(w: string, max: nat, lead: string, sign: string, digits: string, n: nat)
    requires SignedText(w, lead, sign, digits, n)
    ensures !HexPrefix(w) && ParseUint(w, max) == if n <= max then Some(n) else None
  {
    DigitsIff(digits, 10, n);
    AllDigits(digits, 10);
    Unsigned(sign, digits);
    Assoc(lead, sign, digits);
    SkipsWhite(lead, sign + digits);
    assert w == lead + (sign + digits);
    NotHex(lead, sign, digits);
    assert SkipSpace(w)[0..] == SkipSpace(w);
  }

  lemma NotHex(lead: string, sign: string, digits: string)
    requires (forall i :: 0 <= i < |lead| ==> IsWhite(lead[i])) && sign in {"", "+", "-"}
    requires forall i :: 0 <= i < |digits| ==> DigitValue(digits[i]) < 10
    ensures !HexPrefix(lead + (sign + digits))
  {
    var w := lead + (sign + digits);
    assert lead == "" && sign == "" ==> w == digits;
    assert lead == "" && sign != "" ==> w[0] == sign[0];
  }

  lemma TakenApart(w: string, max: nat, n: nat)
    requires !HexPrefix(w) && ParseUint(w, max) == Some(n)
    ensures var body := SkipSpace(w);
            var sign := SignOf(body);
            && body == sign + body[|sign|..] && Digits(body[|sign|..], 10) == Some(n) && n <= max
            && (sign == "-" ==> n == 0)
  {
    assert SkipSpace(w)[0..] == SkipSpace(w);
  }

  lemma ReadSigned(w: string, max: nat, n: nat)
    requires !HexPrefix(w) && ParseUint(w, max) == Some(n)
    ensures n <= max && DecimalText(w, n)
  {
    TakenApart(w, max, n);
    var lead := SkippedWhite(w);
    var sign := SignOf(SkipSpace(w));
    var digits := SkipSpace(w)[|sign|..];
    DigitsIff(digits, 10, n);
    Assoc(lead, sign, digits);
    assert SignedText(w, lead, sign, digits, n);
  }

  ghost predicate NumberText(w: string, n: nat) {
    DecimalText(w, n) || HexText(w, n)
  }

  /** A token is read as a number up to `max` exactly when it is a text of that number. */
  lemma NumberRead(w: string, max: nat, n: nat)
    ensures ParseUint(w, max) == Some(n) <==> n <= max && NumberText(w, n)
  {
    forall lead, sign, digits | SignedText(w, lead, sign, digits, n)
      ensures !HexPrefix(w) && ParseUint(w, max) == if n <= max then Some(n) else None
    {
      SignedRead(w, max, lead, sign, digits, n);
    }
    if HexPrefix(w) {
      HexRead(w, max, n);
    } else if ParseUint(w, max) == Some(n) {
      ReadSigned(w, max, n);
    }
  }

  /** Every number that fits is read back from its decimal and its hexadecimal print. */
  lemma PrintedRead(n: nat, max: nat)
    requires n <= max
    ensures ParseUint(Printed(n, 10), max) == Some(n) && ParseUint("0x" + Printed(n, 16), max) == Some(n)
  {
    PrintedDigitsSpelled(n, 10);
    PrintedDigitsSpelled(n, 16);
    assert SignedText(Printed(n, 10), "", "", Printed(n, 10), n) by {
      assert "" + "" + Printed(n, 10) == Printed(n, 10);
    }
    assert ("0x" + Printed(n, 16))[2..] == Printed(n, 16);
    NumberRead(Printed(n, 10), max, n);
    NumberRead("0x" + Printed(n, 16), max, n);
  }

  lemma PrintedDigitsSpelled(n: nat, base: nat)
    requires base == 10 || base == 16
    ensures Spelled(Printed(n, base), base, n)
  {
    PrintedValue(n, base, 0);
    assert ZeroDigits(0) + Printed(n, base) == Printed(n, base);
    DigitsIff(Printed(n, base), base, n);
  }
}
