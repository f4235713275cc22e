/** A recursive-descent reading of RFC 8259: the meaning of a published document.
    Each parser returns what it read and the text that follows it. */
module JsonParser {
  import opened Options
  import opened Json

  type Parsed<T> = Option<(T, string)>

  // ---- Section 2: white space

  predicate Space(c: char) {
    c == ' ' || c == '\t' || c == '\n' || c == '\r'
  }

  function SkipSpace(s: string): (r: string)
    ensures |r| <= |s|
  {
    if s != "" && Space(s[0]) then SkipSpace(s[1..]) else s
  }

  // ---- Section 7: strings

  function HexValue(c: char): (r: Option<nat>)
    ensures r.Some? ==> r.value < 0x10
  {
    if '0' <= c <= '9' then Some(c as int - '0' as int)
    else if 'a' <= c <= 'f' then Some(c as int - 'a' as int + 10)
    else if 'A' <= c <= 'F' then Some(c as int - 'A' as int + 10)
    else None
  }

  /** The bytes of the code unit `n` in UTF-8. */
  function Utf8(n: nat): (r: string)
    requires n < 0x10000
    ensures 1 <= |r| <= 3
  {
    if n < 0x80 then [n as char]
    else if n < 0x800 then [(0xC0 + n / 0x40) as char, (0x80 + n % 0x40) as char]
    else [(0xE0 + n / 0x1000) as char, (0x80 + n / 0x40 % 0x40) as char, (0x80 + n % 0x40) as char]
  }

  /** What follows a backslash. */
  function ParseEscape(s: string): (r: Parsed<string>)
    ensures r.Some? ==> |r.value.1| < |s| && |r.value.0| + |r.value.1| <= |s|
  {
    if s == "" then None
    else if s[0] == '"' || s[0] == '\\' || s[0] == '/' then Some(([s[0]], s[1..]))
    else if s[0] == 'b' then Some(([8 as char], s[1..]))
    else if s[0] == 'f' then Some(([12 as char], s[1..]))
    else if s[0] == 'n' then Some(("\n", s[1..]))
    else if s[0] == 'r' then Some(("\r", s[1..]))
    else if s[0] == 't' then Some(("\t", s[1..]))
    else if s[0] == 'u' && |s| >= 5 then
      var a :- HexValue(s[1]);
      var b :- HexValue(s[2]);
      var c :- HexValue(s[3]);
      var d :- HexValue(s[4]);
      Some((Utf8(a * 0x1000 + b * 0x100 + c * 0x10 + d), s[5..]))
    else None
  }

  /** The characters of a string, up to and including its closing quote. */
  function ParseChars(s: string): (r: Parsed<string>)
    ensures r.Some? ==> |r.value.0| + |r.value.1| < |s|
  {
    if s == "" then None
    else if s[0] == '"' then Some(("", s[1..]))
    else if s[0] == '\\' then
      var (piece, rest) :- ParseEscape(s[1..]);
      Prefixed(piece, ParseChars(rest))
    else if s[0] as int < 0x20 then None
    else Prefixed([s[0]], ParseChars(s[1..]))
  }

  function Prefixed(piece: string, tail: Parsed<string>): Parsed<string> {
    var (chars, rest) :- tail;
    Some((piece + chars, rest))
  }

  function ParseString(s: string): (r: Parsed<string>)
    ensures r.Some? ==> |r.value.1| < |s|
  {
    if s != "" && s[0] == '"' then ParseChars(s[1..]) else None
  }

  // ---- Section 6: numbers

  predicate IsDigit(c: char) {
    '0' <= c <= '9'
  }

  /** The longest run of digits, and the rest. */
  function Digits(s: string): (r: (string, string))
    ensures s == r.0 + r.1
  {
    if s != "" && IsDigit(s[0]) then
      var (ds, rest) := Digits(s[1..]);
      ([s[0]] + ds, rest)
    else ("", s)
  }

  function DecimalValue(ds: string): nat {
    if ds == "" || !IsDigit(ds[|ds| - 1]) then 0
    else DecimalValue(ds[..|ds| - 1]) * 10 + (ds[|ds| - 1] as int - '0' as int)
  }

  /** [ "." 1*DIGIT ] */
  function SkipFraction(s: string): (r: Option<string>)
    ensures r.Some? ==> |r.value| <= |s|
  {
    if s != "" && s[0] == '.' then
      var (ds, rest) := Digits(s[1..]);
      if ds == "" then None else Some(rest)
    else Some(s)
  }

  /** [ ("e" / "E") [ "+" / "-" ] 1*DIGIT ] */
  function SkipExponent(s: string): (r: Option<string>)
    ensures r.Some? ==> |r.value| <= |s|
  {
    if s != "" && (s[0] == 'e' || s[0] == 'E') then
      var t := if |s| > 1 && (s[1] == '+' || s[1] == '-') then s[2..] else s[1..];
      var (ds, rest) := Digits(t);
      if ds == "" then None else Some(rest)
    else Some(s)
  }

  function ParseNumber(s: string): (r: Parsed<Num>)
    ensures r.Some? ==> |r.value.1| < |s|
  {
    var unsigned := if s != "" && s[0] == '-' then s[1..] else s;
    var (ds, afterInt) := Digits(unsigned);
    if ds == "" || (|ds| > 1 && ds[0] == '0') then None
    else
      var afterFraction :- SkipFraction(afterInt);
      var rest :- SkipExponent(afterFraction);
      if unsigned == s && rest == afterInt then Some((Nat(DecimalValue(ds)), rest))
      else Some((Lexeme(s[..|s| - |rest|]), rest))
  }

  // ---- Sections 3 to 5: values, objects, arrays

  predicate StartsWith(s: string, c: char) {
    s != "" && s[0] == c
  }

  function ParseValue(s: string): (r: Parsed<Value>)
    ensures r.Some? ==> |r.value.1| < |s|
    decreases |s|, 0
  {
    if StartsWith(s, '{') then
      var t := SkipSpace(s[1..]);
      if StartsWith(t, '}') then Some((Object([]), t[1..]))
      else
        var (members, rest) :- ParseMembers(t);
        Some((Object(members), rest))
    else if StartsWith(s, '[') then
      var t := SkipSpace(s[1..]);
      if StartsWith(t, ']') then Some((Array([]), t[1..]))
      else
        var (items, rest) :- ParseItems(t);
        Some((Array(items), rest))
    else if StartsWith(s, '"') then
      var (chars, rest) :- ParseString(s);
      Some((String(chars), rest))
    else if "null" <= s then Some((Null, s[4..]))
    else if "true" <= s then Some((Bool(true), s[4..]))
    else if "false" <= s then Some((Bool(false), s[5..]))
    else
      var (num, rest) :- ParseNumber(s);
      Some((Number(num), rest))
  }

  /** One member with the white space after it. */
  function ParseMember(s: string): (r: Parsed<Member>)
    ensures r.Some? ==> |r.value.1| < |s|
    decreases |s|, 1
  {
    var (key, afterKey) :- ParseString(s);
    var colon := SkipSpace(afterKey);
    if !StartsWith(colon, ':') then None
    else
      var (value, rest) :- ParseValue(SkipSpace(colon[1..]));
      Some((Member(key, value), SkipSpace(rest)))
  }

  /** One or more members and the closing brace. */
  function ParseMembers(s: string): (r: Parsed<seq<Member>>)
    ensures r.Some? ==> |r.value.1| < |s|
    decreases |s|, 2
  {
    var (m, rest) :- ParseMember(s);
    if StartsWith(rest, '}') then Some(([m], rest[1..]))
    else if StartsWith(rest, ',') then
      var (ms, end) :- ParseMembers(SkipSpace(rest[1..]));
      Some(([m] + ms, end))
    else None
  }

  /** One or more values and the closing bracket. */
  function ParseItems(s: string): (r: Parsed<seq<Value>>)
    ensures r.Some? ==> |r.value.1| < |s|
    decreases |s|, 2
  {
    var (x, afterItem) :- ParseValue(s);
    var rest := SkipSpace(afterItem);
    if StartsWith(rest, ']') then Some(([x], rest[1..]))
    else if StartsWith(rest, ',') then
      var (xs, end) :- ParseItems(SkipSpace(rest[1..]));
      Some(([x] + xs, end))
    else None
  }

  /** The value of a whole document, or None when the text is not JSON. */
  function Parse(s: string): Option<Value> {
    var (v, rest) :- ParseValue(SkipSpace(s));
    if SkipSpace(rest) == "" then Some(v) else None
  }
}
