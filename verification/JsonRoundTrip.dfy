/** Reading what was written gives the same value back. */
module JsonRoundTrip {
  import opened Wrappers
  import opened Decimal
  import opened Json

  lemma Hex4Reads(n: nat, rest: string)
    requires n < 0x10000
    ensures ReadHex4(Hex4(n) + rest) == Some(n)
  {
    hide HexValue, HexChar;
    var high := n / 16;
    var higher := high / 16;
    var s := Hex4(n) + rest;
    assert s[0] == HexChar(higher / 16) && s[1] == HexChar(higher % 16);
    assert s[2] == HexChar(high % 16) && s[3] == HexChar(n % 16);
    assert n == high * 16 + n % 16 && high == higher * 16 + high % 16;
    assert higher == higher / 16 * 16 + higher % 16;
  }

  lemma Assoc(a: string, b: string, c: string)
    ensures (a + b) + c == a + (b + c)
  {
  }

  /** Every character is read back from its escape, and nothing more is consumed. */
  lemma EscapeReads(c: char, rest: string)
    ensures ReadChar(Escape(c) + rest) == Some(Parsed(c, rest))
  {
    hide Hex4, ReadHex4;
    var s, n := Escape(c) + rest, if c as int < 0x10000 then c as int else 0;
    Hex4Length(n);
    if |Escape(c)| == 1 {
      assert s[1..] == rest;
    } else if |Escape(c)| == 2 {
      assert s[1..][1..] == rest;
    } else {
      assert Escape(c) == "\\u" + Hex4(n);
      Hex4Reads(n, rest);
      assert s[1..][1..] == Hex4(n) + rest;
      assert (Hex4(n) + rest)[4..] == rest;
    }
  }

  /** What a hexadecimal digit stands for. */
  predicate IsHex(c: char, n: nat) {
    c as int == if n < 10 then '0' as int + n else 'a' as int + n - 10
  }

  /** The escapes of section 7 of RFC 8259, by their letters: quotes, backslashes and control
      characters never stand for themselves, and every other character does, but for the
      five that HTML and JavaScript would mistake. */
  lemma EscapeText(c: char)
    ensures c == '"' ==> Escape(c) == ['\\', '"']
    ensures c == '\\' ==> Escape(c) == ['\\', '\\']
    ensures c as int == 8 ==> Escape(c) == ['\\', 'b']
    ensures c as int == 9 ==> Escape(c) == ['\\', 't']
    ensures c as int == 10 ==> Escape(c) == ['\\', 'n']
    ensures c as int == 12 ==> Escape(c) == ['\\', 'f']
    ensures c as int == 13 ==> Escape(c) == ['\\', 'r']
    ensures var n := c as int;
      if n in {8, 9, 10, 12, 13} || c == '"' || c == '\\' then |Escape(c)| == 2
      else if n < 32 || c in "<>&" || n == 0x2028 || n == 0x2029 then
        |Escape(c)| == 6 && Escape(c)[..2] == ['\\', 'u'] && forall i :: 0 <= i < 4 ==> IsHex(Escape(c)[2 + i], Nibble(n, i))
      else Escape(c) == [c]
  {
    if |Escape(c)| == 6 {
      HexText(c as int);
    }
  }

  /** The four hexadecimal digits of a number, the highest first. */
  function Nibble(n: nat, i: nat): nat
    requires i < 4
  {
    if i == 0 then n / 4096 % 16 else if i == 1 then n / 256 % 16 else if i == 2 then n / 16 % 16 else n % 16
  }

  lemma HexText(n: nat)
    requires n < 0x10000
    ensures |Hex4(n)| == 4 && forall i :: 0 <= i < 4 ==> IsHex(Hex4(n)[i], Nibble(n, i))
  {
    assert n / 16 / 16 == n / 256 && n / 256 / 16 == n / 4096;
  }

  lemma Hex4Length(n: nat)
    requires n < 0x10000
    ensures |Hex4(n)| == 4
  {
  }

  /** A character beyond the basic plane may also come as two escapes, a surrogate pair
      (section 7 of RFC 8259). */
  lemma PairReads(c: char, rest: string)
    requires c as int >= 0x10000
    ensures var n := c as int - 0x10000;
      ReadChar("\\u" + (Hex4(0xD800 + n / 1024) + ("\\u" + (Hex4(0xDC00 + n % 1024) + rest)))) == Some(Parsed(c, rest))
  {
    hide Hex4, ReadHex4;
    var n := c as int - 0x10000;
    var high, low := Hex4(0xD800 + n / 1024), Hex4(0xDC00 + n % 1024);
    var tail := "\\u" + (low + rest);
    Hex4Length(0xD800 + n / 1024);
    Hex4Length(0xDC00 + n % 1024);
    Hex4Reads(0xD800 + n / 1024, tail);
    Hex4Reads(0xDC00 + n % 1024, rest);
    assert ("\\u" + (high + tail))[1..][1..] == high + tail;
    assert (high + tail)[4..] == tail && tail[2..] == low + rest && tail[6..] == rest && tail[..2] == "\\u";
  }

  /** The four blanks, and no other character, may stand before a value. */
  lemma BlankSkipped(c: char, text: string, depth: nat)
    ensures c == ' ' || c == '\t' || c == '\r' || c == '\n' ==> ReadValue([c] + text, depth) == ReadValue(text, depth)
    ensures c as int < 32 && c != '\t' && c != '\r' && c != '\n' ==> ReadValue([c] + text, depth) == None
  {
    hide ReadString, ReadObject, ReadArray;
    assert ([c] + text)[1..] == text;
  }

  /** Nesting is refused beyond 10000, and not before. */
  lemma DepthLimit(text: string)
    ensures ReadObject(text, 10001) == None && ReadArray(text, 10001) == None
    ensures ReadObject("}", 10000).Some? && ReadArray("]", 10000).Some?
  {
  }

  lemma {:induction false} StringReads(t: string, rest: string)
    ensures ReadString((EscapeAll(t) + "\"") + rest) == Some(Parsed(t, rest))
  {
    hide Escape, ReadChar;
    var s := (EscapeAll(t) + "\"") + rest;
    if t == "" {
      assert EscapeAll(t) + "\"" == "\"";
      assert s[1..] == rest;
    } else {
      var tail := EscapeAll(t[1..]) + "\"";
      Assoc(Escape(t[0]), EscapeAll(t[1..]), "\"");
      Assoc(Escape(t[0]), tail, rest);
      assert s == Escape(t[0]) + (tail + rest);
      EscapeReads(t[0], tail + rest);
      StringReads(t[1..], rest);
      assert t == [t[0]] + t[1..];
    }
  }

  lemma QuoteReads(t: string, rest: string, depth: nat)
    ensures ReadValue(Quote(t) + rest, depth) == Some(Parsed(String(t), rest))
    ensures (Quote(t) + rest)[0] == '"' && ReadString((Quote(t) + rest)[1..]) == Some(Parsed(t, rest))
  {
    hide EscapeAll, ReadString, ReadObject, ReadArray, ReadNumber, ReadLiteral;
    StringReads(t, rest);
    var body := EscapeAll(t) + "\"";
    assert Quote(t) + rest == "\"" + (body + rest) by { Assoc("\"", body, rest); }
    assert ("\"" + (body + rest))[1..] == body + rest;
  }

  lemma {:induction false} DigitsOf(d: string, rest: string)
    requires AllDigits(d) && (rest != "" ==> !IsDigit(rest[0]))
    ensures Digits(d + rest) == |d|
  {
    if d != "" {
      DigitsOf(d[1..], rest);
      assert (d + rest)[1..] == d[1..] + rest;
    } else {
      assert d + rest == rest;
    }
  }

  predicate EndsNumber(rest: string) {
    rest != "" ==> !IsDigit(rest[0]) && rest[0] !in ".eE"
  }

  lemma NumberReads(minus: bool, d: string, rest: string)
    requires EndsNumber(rest) && d != "" && AllDigits(d) && (d[0] == '0' ==> |d| == 1)
    ensures ReadNumber((if minus then "-" + d else d) + rest) == Some(Parsed(Number(if minus then "-" + d else d), rest))
  {
    hide Digits;
    var text := if minus then "-" + d else d;
    var s, sign := text + rest, if minus then 1 else 0;
    assert s[0] == if minus then '-' else d[0];
    assert s[sign..] == d + rest;
    DigitsOf(d, rest);
    assert s[sign] == d[0];
    assert s[..|text|] == text && s[|text|..] == rest;
    assert Fraction(rest) == Some(0) && Exponent(rest) == Some(0);
  }

  ghost predicate IsFraction(t: string) {
    t == "" || (t[0] == '.' && |t| > 1 && AllDigits(t[1..]))
  }

  ghost predicate IsExponent(t: string) {
    || t == ""
    || (t[0] in "eE" && |t| > 1 && AllDigits(t[1..]))
    || (t[0] in "eE" && |t| > 2 && t[1] in "+-" && AllDigits(t[2..]))
  }

  /** The number grammar of section 6 of RFC 8259: no leading zero before further digits. */
  ghost predicate IsNumber(t: string, i: nat, j: nat, k: nat) {
    && i <= j <= k <= |t| && (t[..i] == "" || t[..i] == "-")
    && i < j && AllDigits(t[i..j]) && (t[i] == '0' ==> j == i + 1)
    && IsFraction(t[j..k]) && IsExponent(t[k..])
  }

  lemma FractionReads(s: string)
    ensures Fraction(s).Some? ==> IsFraction(s[..Fraction(s).value])
  {
    if Fraction(s).Some? && Fraction(s).value > 0 {
      assert s[..Fraction(s).value][1..] == s[1..][..Digits(s[1..])];
    }
  }

  lemma ExponentReads(s: string)
    ensures Exponent(s).Some? ==> IsExponent(s[..Exponent(s).value])
  {
    if Exponent(s).Some? && Exponent(s).value > 0 {
      var sign := if |s| > 1 && s[1] in "+-" then 1 else 0;
      assert s[..Exponent(s).value][1 + sign..] == s[1 + sign..][..Digits(s[1 + sign..])];
    }
  }

  lemma Slices(s: string, i: nat, j: nat, k: nat, n: nat)
    requires i < j <= k <= n <= |s|
    ensures s[..n][..i] == s[..i] && s[..n][i] == s[i] && s[..n][i..j] == s[i..][..j - i]
    ensures s[..n][j..k] == s[j..][..k - j] && s[..n][k..] == s[k..][..n - k]
  {
  }

  lemma WholeReads(s: string, i: nat, j: nat)
    requires i < |s| && Digits(s[i..]) > 0 && j == i + if s[i] == '0' then 1 else Digits(s[i..])
    ensures i < j <= |s| && AllDigits(s[i..][..j - i]) && (s[i] == '0' ==> j == i + 1)
  {
    assert AllDigits(s[i..][..Digits(s[i..])]);
  }

  /** What is read as a number is one, and nothing of the text is lost. */
  lemma NumberIsNumber(s: string)
    ensures ReadNumber(s).Some? ==> var p := ReadNumber(s).value;
      && p.result.Number? && p.result.text + p.rest == s && exists i, j, k :: IsNumber(p.result.text, i, j, k)
  {
    hide Digits, Fraction, Exponent, IsFraction, IsExponent, AllDigits;
    if ReadNumber(s).Some? {
      var i := if s != "" && s[0] == '-' then 1 else 0;
      var j := i + if s[i] == '0' then 1 else Digits(s[i..]);
      WholeReads(s, i, j);
      var k := j + Fraction(s[j..]).value;
      var n := k + Exponent(s[k..]).value;
      FractionReads(s[j..]);
      ExponentReads(s[k..]);
      Slices(s, i, j, k, n);
      assert s[..i] == if i == 1 then "-" else "";
      assert IsNumber(s[..n], i, j, k);
    }
  }

  /** An integer's decimal text is a JSON number: it has no leading zero. */
  lemma IntReads(z: int, rest: string, depth: nat)
    requires EndsNumber(rest)
    ensures ReadValue(FormatInt(z) + rest, depth) == Some(Parsed(Number(FormatInt(z)), rest))
  {
    hide ReadNumber, ReadObject, ReadArray, ReadString, ReadLiteral;
    var n := if z < 0 then -z else z;
    FormatNatLeads(n);
    NumberReads(z < 0, FormatNat(n), rest);
    var s := FormatInt(z) + rest;
    assert s[0] == if z < 0 then '-' else FormatNat(n)[0];
    assert s[0] == '-' || IsDigit(s[0]);
    assert s[0] !in " \t\r\n";
  }

  lemma ScalarReads(j: Json, rest: string, depth: nat)
    requires Scalar(j) && EndsNumber(rest)
    ensures ReadValue(WriteScalar(j) + rest, depth) == Some(Parsed(j, rest))
  {
    if j.String? {
      QuoteReads(j.chars, rest, depth);
    } else {
      var z: int :| j.text == FormatInt(z);
      IntReads(z, rest, depth);
    }
  }

  lemma MemberReads(m: Member, rest: string, depth: nat)
    requires Scalar(m.json) && EndsNumber(rest)
    ensures (WriteMember(m) + rest)[0] == '"'
    ensures ReadMember(WriteMember(m) + rest, depth) == Some(Parsed(m, rest))
  {
    hide Quote, ReadString, ReadValue, WriteScalar;
    var value := WriteScalar(m.json) + rest;
    Assoc(Quote(m.name), ":" + WriteScalar(m.json), rest);
    Assoc(":", WriteScalar(m.json), rest);
    QuoteReads(m.name, ":" + value, depth);
    assert (":" + value)[1..] == value;
    ScalarReads(m.json, rest, depth);
  }

  lemma {:induction false} MembersRead(ms: seq<Member>, rest: string, depth: nat)
    requires ms != [] && forall m :: m in ms ==> Scalar(m.json)
    ensures (WriteMembers(ms) + rest)[0] == '"'
    ensures ReadMembers(WriteMembers(ms) + rest, depth) == Some(Parsed(ms, rest))
  {
    hide WriteMember, ReadMember;
    var end := if |ms| == 1 then "}" + rest else "," + (WriteMembers(ms[1..]) + rest);
    FirstMember(ms, rest);
    MemberReads(ms[0], end, depth);
    if |ms| == 1 {
      assert end[1..] == rest && ms == [ms[0]];
    } else {
      assert end[0] == ',' && Skip(end) == end;
      assert end[1..] == WriteMembers(ms[1..]) + rest;
      MembersRead(ms[1..], rest, depth);
      assert ms == [ms[0]] + ms[1..];
    }
  }

  lemma FirstMember(ms: seq<Member>, rest: string)
    requires ms != []
    ensures WriteMembers(ms) + rest ==
      WriteMember(ms[0]) + if |ms| == 1 then "}" + rest else "," + (WriteMembers(ms[1..]) + rest)
  {
    hide WriteMember;
    if |ms| > 1 {
      Assoc(WriteMember(ms[0]), "," + WriteMembers(ms[1..]), rest);
      Assoc(",", WriteMembers(ms[1..]), rest);
    } else {
      Assoc(WriteMember(ms[0]), "}", rest);
    }
  }

  /** A flat object of strings and integers comes back member by member. */
  lemma ObjectReads(ms: seq<Member>)
    requires forall m :: m in ms ==> Scalar(m.json)
    ensures Read(WriteObject(ms)) == Some(Object(ms))
  {
    hide ReadMembers, WriteMembers, ReadArray, ReadString, ReadNumber, ReadLiteral;
    var s := WriteObject(ms);
    assert s[0] == '{' && Skip(s) == s;
    if ms == [] {
      assert s[1..] == "}";
      assert s[1..][1..] == "";
      assert ReadObject(s[1..], 1) == Some(Parsed(Object([]), ""));
    } else {
      MembersRead(ms, "", 1);
      assert WriteMembers(ms) + "" == WriteMembers(ms);
      assert s[1..] == WriteMembers(ms);
      assert ReadObject(s[1..], 1) == Some(Parsed(Object(ms), ""));
    }
    assert Skip("") == "";
  }
}
