/** Decimal integers as Go's strconv prints and reads them, for 64-bit integers. */
module Decimal {
  import opened Wrappers

  type Int64 = x: int | -0x8000_0000_0000_0000 <= x < 0x8000_0000_0000_0000

  predicate IsDigit(c: char) {
    '0' <= c <= '9'
  }

  function DigitChar(d: nat): (c: char)
    requires d < 10
    ensures IsDigit(c) && DigitValue(c) == d
  {
    '0' + d as char
  }

  function DigitValue(c: char): (d: nat)
    requires IsDigit(c)
    ensures d < 10
  {
    (c - '0') as nat
  }

  const DIGITS: string := "0123456789"

  lemma DigitsInOrder(d: nat)
    requires d < 10
    ensures DigitChar(d) == DIGITS[d]
  {
  }

  function FormatNat(n: nat): (s: string)
    ensures |s| > 0 && forall i :: 0 <= i < |s| ==> IsDigit(s[i])
  {
    if n < 10 then [DigitChar(n)] else FormatNat(n / 10) + [DigitChar(n % 10)]
  }

  function FormatInt(n: int): (s: string)
    ensures |s| > 0 && forall i :: 0 <= i < |s| ==> IsDigit(s[i]) || s[i] == '-'
  {
    if n < 0 then "-" + FormatNat(-n) else FormatNat(n)
  }

  // The value of a string of digits, read left to right.
  function Value(s: string): Option<nat> {
    if s == [] then Some(0) else
      var last := s[|s| - 1];
      match Value(s[..|s| - 1])
      case Some(v) => if IsDigit(last) then Some(10 * v + DigitValue(last)) else None
      case None => None
  }

  predicate InRange(n: int) {
    -0x8000_0000_0000_0000 <= n < 0x8000_0000_0000_0000
  }

  // An optional sign, at least one digit, and a value that fits 64 bits.
  function ParseInt(s: string): Option<int> {
    var signed := s != [] && (s[0] == '-' || s[0] == '+');
    var digits := if signed then s[1..] else s;
    if digits == [] then None else
      match Value(digits)
      case None => None
      case Some(v) =>
        var n := if s[0] == '-' then 0 - v else v + 0;
        if InRange(n) then Some(n) else None
  }

  lemma {:induction false} ValueOfFormat(n: nat)
    ensures Value(FormatNat(n)) == Some(n)
    decreases n
  {
    var s := FormatNat(n);
    if n < 10 {
      assert s[..0] == [];
    } else {
      ValueOfFormat(n / 10);
      assert s[..|s| - 1] == FormatNat(n / 10);
    }
  }

  // Reading back what was printed, negatives included.
  lemma ParseOfFormat(n: Int64)
    ensures ParseInt(FormatInt(n)) == Some(n)
  {
    if n < 0 {
      var magnitude: nat := -(n as int);
      ValueOfFormat(magnitude);
      assert FormatInt(n)[1..] == FormatNat(magnitude);
    } else {
      ValueOfFormat(n);
      assert IsDigit(FormatInt(n)[0]);
    }
  }

  lemma {:induction false} ValueIsDigits(s: string)
    requires Value(s).Some?
    ensures forall i :: 0 <= i < |s| ==> IsDigit(s[i])
  {
    if s != [] {
      ValueIsDigits(s[..|s| - 1]);
    }
  }

  // Nothing but signs and digits is accepted.
  lemma ParseRejects(s: string)
    requires s != [] && !IsDigit(s[0]) && s[0] != '-' && s[0] != '+'
    ensures ParseInt(s) == None
  {
    if Value(s).Some? {
      ValueIsDigits(s);
    }
  }

  function Zeros(k: nat): (s: string)
    ensures |s| == k
  {
    if k == 0 then "" else Zeros(k - 1) + "0"
  }

  lemma {:induction false} ValueOfZeros(k: nat)
    ensures Value(Zeros(k)) == Some(0)
  {
    if k > 0 {
      ValueOfZeros(k - 1);
      assert Zeros(k)[..k - 1] == Zeros(k - 1);
    }
  }

  // Leading zeros change nothing.
  lemma {:induction false} ValueOfPadded(k: nat, n: nat)
    ensures Value(Zeros(k) + FormatNat(n)) == Some(n)
    decreases n
  {
    var s, z := FormatNat(n), Zeros(k);
    if n < 10 {
      ValueOfZeros(k);
      assert (z + s)[..k] == z;
    } else {
      ValueOfPadded(k, n / 10);
      assert (z + s)[..|z + s| - 1] == z + FormatNat(n / 10);
    }
  }

  lemma {:induction false} DigitsArePadded(s: string) returns (k: nat)
    requires s != [] && Value(s).Some?
    ensures s == Zeros(k) + FormatNat(Value(s).value)
  {
    var init, last := s[..|s| - 1], s[|s| - 1];
    assert s == init + [last];
    if init == [] {
      k := 0;
      assert s == Zeros(0) + [DigitChar(DigitValue(last))];
    } else {
      var j := DigitsArePadded(init);
      if Value(init).value == 0 {
        k := j + 1;
        assert init == Zeros(j) + "0" == Zeros(k);
      } else {
        k := j;
        PaddedPush(j, Value(init).value, last);
      }
    }
  }

  lemma PaddedPush(j: nat, n: nat, last: char)
    requires n > 0 && IsDigit(last)
    ensures Zeros(j) + FormatNat(n) + [last] == Zeros(j) + FormatNat(10 * n + DigitValue(last))
  {
    assert FormatNat(10 * n + DigitValue(last)) == FormatNat(n) + [last];
  }

  predicate IsSign(sign: string, n: int) {
    if n < 0 then sign == "-" else if n == 0 then sign in {"", "+", "-"} else sign in {"", "+"}
  }

  // A string reads as `n` if and only if it is a sign that fits, where one is needed, any number of zeros, and the
  // digits of the magnitude of `n`, and `n` fits 64 bits.
  lemma ParseIntIff(s: string, n: int)
    ensures ParseInt(s) == Some(n) <==>
            && InRange(n)
            && exists sign, k: nat ::
                 IsSign(sign, n) && s == sign + (Zeros(k) + FormatNat(if n < 0 then -n else n))
  {
    var m: nat := if n < 0 then -n else n;
    if ParseInt(s) == Some(n) {
      var sign, k := ParsedIsPadded(s, n, m);
      assert IsSign(sign, n) && s == sign + (Zeros(k) + FormatNat(m));
    }
    if sign, k: nat :| IsSign(sign, n) && s == sign + (Zeros(k) + FormatNat(m)) {
      ParsePadded(sign, k, n, m);
    }
  }

  lemma ParsedIsPadded(s: string, n: int, m: nat) returns (sign: string, k: nat)
    requires ParseInt(s) == Some(n) && m == if n < 0 then -n else n
    ensures IsSign(sign, n) && s == sign + (Zeros(k) + FormatNat(m))
  {
    if s[0] == '-' || s[0] == '+' {
      sign := [s[0]];
      assert s == sign + s[1..];
      k := DigitsArePadded(s[1..]);
    } else {
      sign := "";
      assert s == sign + s;
      k := DigitsArePadded(s);
    }
  }

  lemma PaddedIsDigits(k: nat, m: nat)
    ensures Value(Zeros(k) + FormatNat(m)) == Some(m)
    ensures IsDigit((Zeros(k) + FormatNat(m))[0])
  {
    ValueOfPadded(k, m);
    ValueIsDigits(Zeros(k) + FormatNat(m));
  }

  lemma ParseSigned(sign: string, digits: string, v: nat)
    requires sign in {"", "+", "-"} && digits != "" && IsDigit(digits[0]) && Value(digits) == Some(v)
    ensures var n := if sign == "-" then 0 - v else v + 0;
            ParseInt(sign + digits) == if InRange(n) then Some(n) else None
  {
    var s := sign + digits;
    if sign == "" {
      assert s == digits;
    } else {
      assert s[0] == sign[0];
      assert s[1..] == digits;
    }
  }

  lemma ParsePadded(sign: string, k: nat, n: int, m: nat)
    requires IsSign(sign, n) && m == if n < 0 then -n else n
    ensures ParseInt(sign + (Zeros(k) + FormatNat(m))) == if InRange(n) then Some(n) else None
  {
    PaddedIsDigits(k, m);
    ParseSigned(sign, Zeros(k) + FormatNat(m), m);
  }

  /******* Comma-separated fields *******/

  // Splits at the first n - 1 separators.
  function SplitN(s: string, sep: char, n: nat): (parts: seq<string>)
    requires n > 0
    ensures 1 <= |parts| <= n
    decreases n
  {
    match IndexOf(s, sep)
    case Some(i) => if n > 1 then [s[..i]] + SplitN(s[i + 1..], sep, n - 1) else [s]
    case None => [s]
  }

  function IndexOf(s: string, c: char): (r: Option<nat>)
    ensures r.Some? ==> r.value < |s| && s[r.value] == c && c !in s[..r.value]
    ensures r.None? ==> c !in s
  {
    if s == [] then None
    else if s[0] == c then Some(0)
    else
      match IndexOf(s[1..], c)
      case Some(i) => Some(i + 1)
      case None => None
  }

  lemma {:induction false} IndexOfFirst(a: string, c: char, b: string)
    requires c !in a
    ensures IndexOf(a + [c] + b, c) == Some(|a|)
  {
    var s := a + [c] + b;
    if a == [] {
      assert s[0] == c;
    } else {
      assert s[0] == a[0] && s[1..] == a[1..] + [c] + b;
      IndexOfFirst(a[1..], c, b);
    }
  }

  // A field without the separator in front of the rest.
  lemma SplitFirst(a: string, sep: char, b: string, n: nat)
    requires sep !in a && n > 1
    ensures SplitN(a + [sep] + b, sep, n) == [a] + SplitN(b, sep, n - 1)
  {
    var s := a + [sep] + b;
    IndexOfFirst(a, sep, b);
    assert s[..|a|] == a && s[|a| + 1..] == b;
  }

  lemma NoCommaInInt(n: int)
    ensures ',' !in FormatInt(n)
  {
  }
}
