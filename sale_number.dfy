/** Sale numbers `V-nnnn`: the next number is the latest number of the
    inventory plus one, zero-padded to at least four digits. */
module SaleNumber {
  import opened Common

  predicate IsDigit(c: char) {
    '0' <= c <= '9'
  }

  function DigitChar(d: nat): char
    requires d < 10
  {
    (48 + d) as char
  }

  /** `String(n)` for a non-negative integer: its decimal digits, no leading zero. */
  function Digits(n: nat): (s: string)
    ensures |s| >= 1 && forall i :: 0 <= i < |s| ==> IsDigit(s[i])
  {
    if n < 10 then [DigitChar(n)] else Digits(n / 10) + [DigitChar(n % 10)]
  }

  /** The value of a string of decimal digits. */
  function Value(s: string): nat
    requires forall i :: 0 <= i < |s| ==> IsDigit(s[i])
  {
    if s == [] then 0
    else
      var c := s[|s| - 1];
      assert IsDigit(c);
      10 * Value(s[..|s| - 1]) + (c as int - 48)
  }

  /** The longest prefix of `s` made of digits. */
  function LeadingDigits(s: string): (p: string)
    ensures |p| <= |s| && p == s[..|p|]
    ensures forall i :: 0 <= i < |p| ==> IsDigit(p[i])
    ensures |p| < |s| ==> !IsDigit(s[|p|])
  {
    if s == [] || !IsDigit(s[0]) then [] else [s[0]] + LeadingDigits(s[1..])
  }

  /** `parseInt` of text that starts with a digit, or absent (NaN) when it
      does not. */
  function ParseInt(s: string): Option<nat> {
    var p := LeadingDigits(s);
    if p == [] then None else Some(Value(p))
  }

  function Zeros(n: nat): (s: string)
    ensures |s| == n && forall i :: 0 <= i < n ==> s[i] == '0'
  {
    if n == 0 then [] else Zeros(n - 1) + ['0']
  }

  /** `s.padStart(width, '0')`. */
  function PadStart(s: string, width: nat): (r: string)
    ensures |r| == if |s| >= width then |s| else width
  {
    if |s| >= width then s else Zeros(width - |s|) + s
  }

  /** The sale number with numeric part `n`. */
  function Format(n: nat): string {
    "V-" + PadStart(Digits(n), 4)
  }

  /** `parseInt(number.split('-')[1])`. */
  function Parse(number: string): Option<nat> {
    match SecondField(number, '-')
    case None => None
    case Some(field) => ParseInt(field)
  }

  /** The number given to a new sale, from the number of the inventory's
      latest sale, if there is one. A latest number whose numeric part does
      not parse yields NaN, which `String` and `padStart` render as `0NaN`. */
  function Next(latest: Option<string>): string {
    match latest
    case None => "V-0001"
    case Some(number) =>
      match Parse(number)
      case None => "V-0NaN"
      case Some(n) => Format(n + 1)
  }

  // ---------------------------------------------------------------------

  lemma {:induction false} ValueOfDigits(n: nat)
    ensures Value(Digits(n)) == n
  {
    if n >= 10 {
      var s := Digits(n);
      assert s[..|s| - 1] == Digits(n / 10);
      ValueOfDigits(n / 10);
    }
  }

  lemma {:induction false} ValueIgnoresLeadingZero(s: string)
    requires forall i :: 0 <= i < |s| ==> IsDigit(s[i])
    ensures Value(['0'] + s) == Value(s)
  {
    if s != [] {
      var t := ['0'] + s;
      assert t[..|t| - 1] == ['0'] + s[..|s| - 1];
      ValueIgnoresLeadingZero(s[..|s| - 1]);
    }
  }

  lemma {:induction false} ValueIgnoresZeros(k: nat, s: string)
    requires forall i :: 0 <= i < |s| ==> IsDigit(s[i])
    ensures forall i :: 0 <= i < |Zeros(k) + s| ==> IsDigit((Zeros(k) + s)[i])
    ensures Value(Zeros(k) + s) == Value(s)
  {
    if k > 0 {
      ValueIgnoresZeros(k - 1, s);
      var z := Zeros(k - 1) + s;
      assert Zeros(k) + s == ['0'] + z by {
        ZerosCommute(k - 1);
        assert Zeros(k) == ['0'] + Zeros(k - 1);
        assert (['0'] + Zeros(k - 1)) + s == ['0'] + (Zeros(k - 1) + s);
      }
      ValueIgnoresLeadingZero(z);
    } else {
      assert Zeros(k) + s == s;
    }
  }

  lemma ZerosCommute(k: nat)
    ensures Zeros(k) + ['0'] == ['0'] + Zeros(k)
  {
  }

  lemma {:induction false} LeadingDigitsOfDigits(s: string)
    requires forall i :: 0 <= i < |s| ==> IsDigit(s[i])
    ensures LeadingDigits(s) == s
  {
    if s != [] {
      LeadingDigitsOfDigits(s[1..]);
    }
  }

  /** Round trip: a formatted sale number parses back to its numeric part,
      padded or not. */
  lemma ParseFormat(n: nat)
    ensures Parse(Format(n)) == Some(n)
  {
    var d := Digits(n);
    var field := PadStart(d, 4);
    if |d| < 4 {
      ValueIgnoresZeros(4 - |d|, d);
    }
    assert forall i :: 0 <= i < |field| ==> IsDigit(field[i]);
    assert Format(n) == "V" + ['-'] + field;
    SecondFieldOfJoin("V", field, '-');
    LeadingDigitsOfDigits(field);
    ValueOfDigits(n);
  }

  /** The first sale of an inventory is `V-0001`, and each later one follows
      its predecessor: V-0001, V-0002, ... */
  lemma NextFollows(n: nat)
    ensures Next(None) == Format(1)
    ensures Next(Some(Format(n))) == Format(n + 1)
  {
    ParseFormat(n);
    assert Digits(1) == "1";
    assert Zeros(3) == "000";
  }
}
