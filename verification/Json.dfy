/** JSON values and the compact text the plugin publishes (RFC 8259, sections 3 to 7).
    A document is a sequence of bytes, one `char` per byte. */
module Json {
  /** A NUL-terminated C string, without its terminator. */
  type CString = s: string | forall c | c in s :: 0 < c as int < 256 witness ""

  /** A byte that stands for itself between the quotes of a JSON string. */
  predicate PlainChar(c: char) {
    c as int >= 0x20 && c != '"' && c != '\\'
  }

  predicate Plain(s: string) {
    forall c | c in s :: PlainChar(c)
  }

  /** A C string that needs no escaping: the event names and the ISO 8601 dates. */
  type PlainName = s: CString | Plain(s) witness ""

  type uint32 = n: int | 0 <= n < 0x1_0000_0000

  /** Numbers the plugin prints are naturals; every other RFC 8259 number is kept as its text. */
  datatype Num = Nat(n: nat) | Lexeme(text: string)

  /** Members form a list, not a map: their order is kept and keys may repeat. */
  datatype Member = Member(key: string, value: Value)

  datatype Value =
    | Null
    | Bool(b: bool)
    | Number(num: Num)
    | String(s: string)
    | Array(items: seq<Value>)
    | Object(members: seq<Member>)

  function HexDigit(d: nat): char
    requires d < 16
  {
    if d < 10 then ('0' as int + d) as char else ('a' as int + d - 10) as char
  }

  /** What `json_append_escaped` writes for one byte (RFC 8259, section 7). */
  function EscapeChar(c: char): string {
    if c == '"' then "\\\""
    else if c == '\\' then "\\\\"
    else if c as int == 0x08 then "\\b"
    else if c as int == 0x0C then "\\f"
    else if c == '\n' then "\\n"
    else if c == '\r' then "\\r"
    else if c == '\t' then "\\t"
    else if c as int < 0x20 then "\\u00" + [HexDigit(c as int / 16), HexDigit(c as int % 16)]
    else [c]
  }

  function Escape(s: string): string {
    if s == "" then "" else EscapeChar(s[0]) + Escape(s[1..])
  }

  /** The digits of `%u`. */
  function Decimal(n: nat): string {
    if n < 10 then [HexDigit(n)] else Decimal(n / 10) + [HexDigit(n % 10)]
  }

  function Quoted(s: string): string {
    "\"" + Escape(s) + "\""
  }

  function Text(v: Value): string
    decreases v, 0
  {
    match v
    case Null => "null"
    case Bool(b) => if b then "true" else "false"
    case Number(Nat(n)) => Decimal(n)
    case Number(Lexeme(t)) => t
    case String(s) => Quoted(s)
    case Array(items) => "[" + ItemsText(items) + "]"
    case Object(members) => "{" + MembersText(members) + "}"
  }

  function ItemsText(items: seq<Value>): string
    decreases items, 1
  {
    if items == [] then ""
    else if |items| == 1 then Text(items[0])
    else Text(items[0]) + "," + ItemsText(items[1..])
  }

  function MemberText(m: Member): string
    decreases m, 1
  {
    Quoted(m.key) + ":" + Text(m.value)
  }

  function MembersText(members: seq<Member>): string
    decreases members, 1
  {
    if members == [] then ""
    else if |members| == 1 then MemberText(members[0])
    else MemberText(members[0]) + "," + MembersText(members[1..])
  }

  /** The values the plugin can publish: every number is a natural. */
  ghost predicate Printable(v: Value)
    decreases v
  {
    match v
    case Number(num) => num.Nat?
    case Array(items) => forall x | x in items :: Printable(x)
    case Object(members) => forall m: Member | m in members :: Printable(m.value)
    case _ => true
  }

  ghost predicate PrintableMembers(members: seq<Member>) {
    forall m | m in members :: Printable(m.value)
  }

  function Strings(ss: seq<string>): (r: seq<Value>)
    ensures |r| == |ss| && forall i | 0 <= i < |ss| :: r[i] == String(ss[i])
  {
    seq(|ss|, i requires 0 <= i < |ss| => String(ss[i]))
  }

  // ---- How a document grows at its right end

  lemma {:induction false} ItemsTextSnoc(items: seq<Value>, x: Value)
    ensures ItemsText(items + [x]) == if items == [] then Text(x) else ItemsText(items) + "," + Text(x)
  {
    if items == [] {
      assert items + [x] == [x];
    } else {
      assert (items + [x])[1..] == items[1..] + [x];
      ItemsTextSnoc(items[1..], x);
    }
  }

  lemma {:induction false} MembersTextConcat(a: seq<Member>, b: seq<Member>)
    requires a != [] && b != []
    ensures MembersText(a + b) == MembersText(a) + "," + MembersText(b)
  {
    assert (a + b)[1..] == a[1..] + b;
    if |a| > 1 {
      MembersTextConcat(a[1..], b);
    } else {
      assert a[1..] + b == b;
    }
  }

  lemma {:induction false} EscapeConcat(a: string, b: string)
    ensures Escape(a + b) == Escape(a) + Escape(b)
  {
    if a == "" {
      assert a + b == b;
    } else {
      assert (a + b)[1..] == a[1..] + b;
      EscapeConcat(a[1..], b);
    }
  }

  lemma {:induction false} EscapePlain(s: string)
    requires Plain(s)
    ensures Escape(s) == s
  {
    if s != "" {
      assert s[0] in s;
      EscapePlain(s[1..]);
      assert s == [s[0]] + s[1..];
    }
  }
}
