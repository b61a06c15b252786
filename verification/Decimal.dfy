/** Decimal integers, as `%d` and `strconv` write and read them. */
module Decimal {
  import opened Wrappers

  /** Go's `int` and `int64`. */
  type Int64 = z: int | InInt64(z)

  predicate InInt64(z: int) {
    -0x8000_0000_0000_0000 <= z <= 0x7FFF_FFFF_FFFF_FFFF
  }

  predicate IsDigit(c: char) {
    '0' <= c <= '9'
  }

  predicate AllDigits(s: string) {
    forall i :: 0 <= i < |s| ==> IsDigit(s[i])
  }

  function DigitChar(d: nat): (c: char)
    requires d < 10
    ensures IsDigit(c) && DigitValue(c) == d
  {
    ('0' as int + d) as char
  }

  function DigitValue(c: char): nat
    requires IsDigit(c)
  {
    c as int - '0' as int
  }

  function FormatNat(n: nat): (s: string)
    ensures s != "" && AllDigits(s)
  {
    if n < 10 then [DigitChar(n)] else FormatNat(n / 10) + [DigitChar(n % 10)]
  }

  function NatValue(s: string): nat
    requires AllDigits(s)
  {
    if s == "" then 0 else NatValue(s[..|s| - 1]) * 10 + DigitValue(s[|s| - 1])
  }

  lemma {:induction false} NatValueOfFormat(n: nat)
    ensures NatValue(FormatNat(n)) == n
  {
    var s := FormatNat(n);
    if n < 10 {
      assert s[..0] == "";
    } else {
      assert s[..|s| - 1] == FormatNat(n / 10);
      NatValueOfFormat(n / 10);
    }
  }

  function Pow10(n: nat): nat {
    if n == 0 then 1 else 10 * Pow10(n - 1)
  }

  /** The positional value, read from the left. */
  function Positional(s: string): int
    requires AllDigits(s)
  {
    if s == "" then 0 else (s[0] as int - '0' as int) * Pow10(|s| - 1) + Positional(s[1..])
  }

  lemma {:induction false} PositionalSnoc(s: string, c: char)
    requires AllDigits(s) && IsDigit(c)
    ensures Positional(s + [c]) == 10 * Positional(s) + (c as int - '0' as int)
  {
    if s == "" {
      assert (s + [c])[1..] == "";
    } else {
      assert (s + [c])[1..] == s[1..] + [c];
      PositionalSnoc(s[1..], c);
      assert Pow10(|s|) == 10 * Pow10(|s| - 1);
      TimesTen(s[0] as int - '0' as int, Pow10(|s| - 1));
    }
  }

  lemma TimesTen(d: int, p: int)
    ensures d * (10 * p) == 10 * (d * p)
  {
  }

  lemma {:induction false} NatValueIsPositional(s: string)
    requires AllDigits(s)
    ensures NatValue(s) == Positional(s)
  {
    if s != "" {
      NatValueIsPositional(s[..|s| - 1]);
      PositionalSnoc(s[..|s| - 1], s[|s| - 1]);
      assert s == s[..|s| - 1] + [s[|s| - 1]];
    }
  }

  /** No leading zero, so the text is also a JSON number. */
  lemma {:induction false} FormatNatLeads(n: nat)
    ensures FormatNat(n)[0] == '0' ==> n == 0
  {
    if n >= 10 {
      FormatNatLeads(n / 10);
    }
  }

  function FormatInt(z: int): (s: string)
    ensures s != ""
  {
    if z < 0 then "-" + FormatNat(-z) else FormatNat(z)
  }

  /** `strconv.ParseInt(s, 10, 64)`: an optional sign, digits, and a range check. */
  function ParseInt(s: string): Option<Int64> {
    var signed := s != "" && (s[0] == '-' || s[0] == '+');
    var digits := if signed then s[1..] else s;
    if digits == "" || !AllDigits(digits) then None
    else
      var n: int := NatValue(digits);
      var z: int := if signed && s[0] == '-' then -n else n;
      if InInt64(z) then Some(z) else None
  }

  lemma ParseIntOfFormat(z: int)
    ensures -0x8000_0000_0000_0000 <= z <= 0x7FFF_FFFF_FFFF_FFFF ==> ParseInt(FormatInt(z)) == Some(z)
    ensures !(-0x8000_0000_0000_0000 <= z <= 0x7FFF_FFFF_FFFF_FFFF) ==> ParseInt(FormatInt(z)) == None
  {
    var s := FormatInt(z);
    if z < 0 {
      NatValueOfFormat(-z);
      assert s[1..] == FormatNat(-z);
    } else {
      NatValueOfFormat(z);
      assert IsDigit(s[0]);
    }
  }

  lemma FormatIntSays(n: nat)
    ensures AllDigits(FormatInt(n)) && Positional(FormatInt(n)) == n
  {
    NatValueOfFormat(n);
    NatValueIsPositional(FormatInt(n));
  }

  /** `s` is a sign or nothing, then digits, and these say `z` in base ten. */
  ghost predicate Says(s: string, sign: string, digits: string, z: int) {
    && s == sign + digits && sign in {"", "+", "-"}
    && digits != "" && AllDigits(digits) && z == if sign == "-" then -Positional(digits) else Positional(digits)
  }

  /** A text parses exactly if it says an integer of 64 bits, and then as that integer. */
  lemma ParseIntExactly(s: string, z: int)
    ensures ParseInt(s) == Some(z) <==>
      && (exists sign, digits :: Says(s, sign, digits, z))
      && -0x8000_0000_0000_0000 <= z <= 0x7FFF_FFFF_FFFF_FFFF
  {
    if ParseInt(s) == Some(z) {
      ParsedSays(s, z);
    }
    if sign, digits :| Says(s, sign, digits, z) {
      SaidParses(s, sign, digits, z);
    }
  }

  lemma ParsedSays(s: string, z: int)
    requires ParseInt(s) == Some(z)
    ensures exists sign, digits :: Says(s, sign, digits, z)
  {
    hide NatValue, Positional;
    if s[0] == '-' || s[0] == '+' {
      NatValueIsPositional(s[1..]);
      var sign := if s[0] == '-' then "-" else "+";
      assert s == sign + s[1..];
      assert Says(s, sign, s[1..], z);
    } else {
      NatValueIsPositional(s);
      assert Says(s, "", s, z);
    }
  }

  lemma SaidParses(s: string, sign: string, digits: string, z: int)
    requires Says(s, sign, digits, z)
    ensures ParseInt(s) == if InInt64(z) then Some(z) else None
  {
    hide NatValue, Positional;
    NatValueIsPositional(digits);
    assert IsDigit(digits[0]) && s[|sign|] == digits[0];
    if sign == "" {
      assert s == digits;
    } else {
      assert s[0] == sign[0] && s[1..] == digits;
    }
  }

  lemma FormatIntInjective(a: int, b: int)
    requires FormatInt(a) == FormatInt(b)
    ensures a == b
  {
    var s := FormatInt(a);
    NatValueOfFormat(if a < 0 then -a else a);
    NatValueOfFormat(if b < 0 then -b else b);
    assert a < 0 ==> s[1..] == FormatNat(-a) && s[0] == '-';
    assert b < 0 ==> s[1..] == FormatNat(-b) && s[0] == '-';
    assert a >= 0 ==> IsDigit(s[0]);
    assert b >= 0 ==> IsDigit(s[0]);
  }

  lemma FormatIntHasNo(z: int, c: char)
    requires !IsDigit(c) && c != '-'
    ensures c !in FormatInt(z)
  {
  }

  /** Text up to the first separator and text after it determine both parts. */
  lemma SplitUnique(a: string, b: string, c: string, d: string, sep: char)
    requires sep !in a && sep !in c
    requires a + [sep] + b == c + [sep] + d
    ensures a == c && b == d
  {
    var s := a + [sep] + b;
    assert s[|a|] == sep && s[|c|] == sep;
    assert forall k :: 0 <= k < |a| ==> s[k] == a[k] != sep;
    assert forall k :: 0 <= k < |c| ==> s[k] == c[k] != sep;
    assert |a| == |c|;
    assert a == s[..|a|] && c == s[..|c|];
    assert b == s[|a| + 1..] && d == s[|c| + 1..];
  }
}
