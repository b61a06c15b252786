/** JSON text (sections 2 to 7 of RFC 8259) as Go's encoding/json reads it, and the
    compact form in which it writes flat objects of strings and integers. Text is a
    sequence of Unicode scalar values. */
module Json {
  import opened Wrappers
  import opened Decimal

  datatype Json =
    | Null
    | Bool(value: bool)
    | Number(text: string)
    | String(chars: string)
    | Array(elements: seq<Json>)
    | Object(members: seq<Member>)

  datatype Member = Member(name: string, json: Json)

  datatype Parsed<+T> = Parsed(result: T, rest: string)

  const MAX_DEPTH: nat := 10000

  // ----- writing ---------------------------------------------------------------

  function HexChar(d: nat): (c: char)
    requires d < 16
    ensures HexValue(c) == Some(d)
  {
    if d < 10 then ('0' as int + d) as char else ('a' as int + d - 10) as char
  }

  function Hex4(n: nat): string
    requires n < 0x10000
  {
    [HexChar(n / 16 / 16 / 16), HexChar(n / 16 / 16 % 16), HexChar(n / 16 % 16), HexChar(n % 16)]
  }

  /** Control characters, quotes and backslashes are escaped, and so are the characters
      that matter to HTML and the two line separators JavaScript would break at. */
  function Escape(c: char): (r: string)
    ensures r != "" && r[0] != '"'
  {
    if c == '"' || c == '\\' then ['\\', c]
    else if c == '\U{8}' then "\\b"
    else if c == '\U{c}' then "\\f"
    else if c == '\n' then "\\n"
    else if c == '\r' then "\\r"
    else if c == '\t' then "\\t"
    else if c < ' ' || c == '<' || c == '>' || c == '&' || c == '\U{2028}' || c == '\U{2029}' then "\\u" + Hex4(c as int)
    else [c]
  }

  function EscapeAll(s: string): string {
    if s == "" then "" else Escape(s[0]) + EscapeAll(s[1..])
  }

  function Quote(s: string): string {
    "\"" + (EscapeAll(s) + "\"")
  }

  ghost predicate Scalar(j: Json) {
    j.String? || (j.Number? && exists z: int :: j.text == FormatInt(z))
  }

  function WriteScalar(j: Json): string {
    match j
    case String(s) => Quote(s)
    case Number(t) => t
    case _ => "null"
  }

  function WriteMember(m: Member): string {
    Quote(m.name) + (":" + WriteScalar(m.json))
  }

  function WriteMembers(ms: seq<Member>): string
    requires ms != []
  {
    WriteMember(ms[0]) + if |ms| == 1 then "}" else "," + WriteMembers(ms[1..])
  }

  function WriteObject(ms: seq<Member>): string {
    if ms == [] then "{}" else "{" + WriteMembers(ms)
  }

  // ----- reading ---------------------------------------------------------------

  function Skip(s: string): (r: string)
    ensures |r| <= |s|
    ensures s != "" && s[0] !in " \t\r\n" ==> r == s
  {
    if s != "" && s[0] in " \t\r\n" then Skip(s[1..]) else s
  }

  function HexValue(c: char): Option<nat> {
    if '0' <= c <= '9' then Some(c as int - '0' as int)
    else if 'a' <= c <= 'f' then Some(c as int - 'a' as int + 10)
    else if 'A' <= c <= 'F' then Some(c as int - 'A' as int + 10)
    else None
  }

  function ReadHex4(s: string): (n: Option<nat>)
    ensures n.Some? ==> n.value < 0x10000 && |s| >= 4
  {
    if |s| < 4 then None
    else
      match (HexValue(s[0]), HexValue(s[1]), HexValue(s[2]), HexValue(s[3]))
      case (Some(a), Some(b), Some(c), Some(d)) =>
        if a < 16 && b < 16 && c < 16 && d < 16 then Some(a * 0x1000 + b * 0x100 + c * 16 + d) else None
      case _ => None
  }

  /** A \u escape, given what follows the u: surrogate pairs are joined, and a lone
      surrogate becomes the replacement character. */
  function ReadUnicode(s: string): (r: Option<Parsed<char>>)
    ensures r.Some? ==> |r.value.rest| < |s|
  {
    match ReadHex4(s)
    case None => None
    case Some(n) =>
      var rest := s[4..];
      if n < 0xD800 || 0xE000 <= n then Some(Parsed(n as char, rest))
      else if n < 0xDC00 && |rest| >= 2 && rest[..2] == "\\u" then
        (match ReadHex4(rest[2..])
         case Some(m) =>
           if 0xDC00 <= m < 0xE000 then
             Some(Parsed((0x10000 + (n - 0xD800) * 0x400 + (m - 0xDC00)) as char, rest[6..]))
           else Some(Parsed('\U{FFFD}', rest))
         case None => Some(Parsed('\U{FFFD}', rest)))
      else Some(Parsed('\U{FFFD}', rest))
  }

  /** One escape, given what follows the backslash. */
  function ReadEscape(s: string): (r: Option<Parsed<char>>)
    ensures r.Some? ==> |r.value.rest| < |s|
  {
    if s == "" then None
    else if s[0] in "\"\\/" then Some(Parsed(s[0], s[1..]))
    else if s[0] == 'b' then Some(Parsed('\U{8}', s[1..]))
    else if s[0] == 'f' then Some(Parsed('\U{c}', s[1..]))
    else if s[0] == 'n' then Some(Parsed('\n', s[1..]))
    else if s[0] == 'r' then Some(Parsed('\r', s[1..]))
    else if s[0] == 't' then Some(Parsed('\t', s[1..]))
    else if s[0] == 'u' then ReadUnicode(s[1..])
    else None
  }

  function ReadChar(s: string): (r: Option<Parsed<char>>)
    ensures r.Some? ==> |r.value.rest| < |s|
  {
    if s == "" || s[0] == '"' || s[0] < ' ' then None
    else if s[0] == '\\' then ReadEscape(s[1..])
    else Some(Parsed(s[0], s[1..]))
  }

  /** The rest of a string, its opening quote being read. */
  function ReadString(s: string): (r: Option<Parsed<string>>)
    ensures r.Some? ==> |r.value.rest| < |s|
    decreases |s|
  {
    if s == "" then None
    else if s[0] == '"' then Some(Parsed("", s[1..]))
    else
      match ReadChar(s)
      case None => None
      case Some(c) =>
        match ReadString(c.rest)
        case None => None
        case Some(t) => Some(Parsed([c.result] + t.result, t.rest))
  }

  /** How many digits the text starts with. */
  function Digits(s: string): (n: nat)
    ensures n <= |s| && AllDigits(s[..n]) && (n < |s| ==> !IsDigit(s[n]))
  {
    if s == "" || !IsDigit(s[0]) then 0 else
      var n := 1 + Digits(s[1..]);
      assert s[..n] == [s[0]] + s[1..][..n - 1];
      n
  }

  /** How many characters of a fraction, or of an exponent, the text starts with. */
  function Fraction(s: string): (n: Option<nat>)
    ensures n.Some? ==> n.value <= |s|
  {
    if s == "" || s[0] != '.' then Some(0)
    else if Digits(s[1..]) == 0 then None
    else Some(1 + Digits(s[1..]))
  }

  function Exponent(s: string): (n: Option<nat>)
    ensures n.Some? ==> n.value <= |s|
  {
    if s == "" || s[0] !in "eE" then Some(0)
    else
      var sign := if |s| > 1 && s[1] in "+-" then 1 else 0;
      if Digits(s[1 + sign..]) == 0 then None else Some(1 + sign + Digits(s[1 + sign..]))
  }

  function ReadNumber(s: string): (r: Option<Parsed<Json>>)
    ensures r.Some? ==> |r.value.rest| < |s|
  {
    var sign := if s != "" && s[0] == '-' then 1 else 0;
    var n := Digits(s[sign..]);
    if n == 0 then None
    else
      var whole := sign + if s[sign] == '0' then 1 else n;
      match Fraction(s[whole..])
      case None => None
      case Some(f) =>
        match Exponent(s[whole + f..])
        case None => None
        case Some(e) => Some(Parsed(Number(s[..whole + f + e]), s[whole + f + e..]))
  }

  function ReadLiteral(s: string, word: string, j: Json): (r: Option<Parsed<Json>>)
    requires word != ""
    ensures r.Some? ==> |r.value.rest| < |s|
  {
    if word <= s then Some(Parsed(j, s[|word|..])) else None
  }

  function ReadValue(text: string, depth: nat): (r: Option<Parsed<Json>>)
    ensures r.Some? ==> |r.value.rest| < |text|
    decreases |text|, 0
  {
    var s := Skip(text);
    if s == "" then None
    else
      var c := s[0];
      if c == '"' then
        (match ReadString(s[1..])
         case None => None
         case Some(t) => Some(Parsed(String(t.result), t.rest)))
      else if c == '{' then ReadObject(s[1..], depth + 1)
      else if c == '[' then ReadArray(s[1..], depth + 1)
      else if c == 't' then ReadLiteral(s, "true", Bool(true))
      else if c == 'f' then ReadLiteral(s, "false", Bool(false))
      else if c == 'n' then ReadLiteral(s, "null", Null)
      else ReadNumber(s)
  }

  /** The rest of an object, its opening brace being read. */
  function ReadObject(text: string, depth: nat): (r: Option<Parsed<Json>>)
    ensures r.Some? ==> |r.value.rest| < |text|
    decreases |text|, 2
  {
    var s := Skip(text);
    if depth > MAX_DEPTH then None
    else if s != "" && s[0] == '}' then Some(Parsed(Object([]), s[1..]))
    else
      match ReadMembers(s, depth)
      case None => None
      case Some(ms) => Some(Parsed(Object(ms.result), ms.rest))
  }

  function ReadMembers(text: string, depth: nat): (r: Option<Parsed<seq<Member>>>)
    ensures r.Some? ==> |r.value.rest| < |text|
    decreases |text|, 1
  {
    match ReadMember(text, depth)
    case None => None
    case Some(m) =>
      var s := Skip(m.rest);
      if s == "" then None
      else if s[0] == '}' then Some(Parsed([m.result], s[1..]))
      else if s[0] != ',' then None
      else
        match ReadMembers(s[1..], depth)
        case None => None
        case Some(ms) => Some(Parsed([m.result] + ms.result, ms.rest))
  }

  function ReadMember(text: string, depth: nat): (r: Option<Parsed<Member>>)
    ensures r.Some? ==> |r.value.rest| < |text|
    decreases |text|, 0
  {
    var s := Skip(text);
    if s == "" || s[0] != '"' then None
    else
      match ReadString(s[1..])
      case None => None
      case Some(name) =>
        var t := Skip(name.rest);
        if t == "" || t[0] != ':' then None
        else
          match ReadValue(t[1..], depth)
          case None => None
          case Some(v) => Some(Parsed(Member(name.result, v.result), v.rest))
  }

  function ReadArray(text: string, depth: nat): (r: Option<Parsed<Json>>)
    ensures r.Some? ==> |r.value.rest| < |text|
    decreases |text|, 2
  {
    var s := Skip(text);
    if depth > MAX_DEPTH then None
    else if s != "" && s[0] == ']' then Some(Parsed(Array([]), s[1..]))
    else
      match ReadElements(s, depth)
      case None => None
      case Some(es) => Some(Parsed(Array(es.result), es.rest))
  }

  function ReadElements(text: string, depth: nat): (r: Option<Parsed<seq<Json>>>)
    ensures r.Some? ==> |r.value.rest| < |text|
    decreases |text|, 1
  {
    match ReadValue(text, depth)
    case None => None
    case Some(v) =>
      var s := Skip(v.rest);
      if s == "" then None
      else if s[0] == ']' then Some(Parsed([v.result], s[1..]))
      else if s[0] != ',' then None
      else
        match ReadElements(s[1..], depth)
        case None => None
        case Some(es) => Some(Parsed([v.result] + es.result, es.rest))
  }

  /** A whole text: one value, and nothing but blanks around it. */
  function Read(text: string): Option<Json> {
    match ReadValue(text, 0)
    case None => None
    case Some(v) => if Skip(v.rest) == "" then Some(v.result) else None
  }
}
