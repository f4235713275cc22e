/** The parser undoes the printer, and rejects a document whose last string is never closed. */
module JsonRoundTrip {
  import opened Options
  import opened Json
  import opened JsonParser

  // ---- Regrouping concatenations

  lemma Assoc(a: string, b: string, c: string)
    ensures a + b + c == a + (b + c)
  {
  }

  lemma DropFirst(c: char, s: string)
    ensures ([c] + s)[0] == c && ([c] + s)[1..] == s
  {
  }

  lemma Bracketed(open: string, inner: string, close: string, rest: string)
    ensures open + inner + close + rest == open + (inner + (close + rest))
  {
  }

  /** One more member at the end of the document. */
  lemma AddMember(front: string, members: seq<Member>, m: Member)
    requires members != []
    ensures front + MembersText(members) + "," + MemberText(m) == front + MembersText(members + [m])
  {
    MembersTextConcat(members, [m]);
    Assoc(front, MembersText(members), ",");
    Assoc(front, MembersText(members) + ",", MemberText(m));
  }

  // ---- Strings

  lemma ParseEscapedChar(c: char, rest: string)
    ensures ParseChars(EscapeChar(c) + rest) == Prefixed([c], ParseChars(rest))
  {
    var s := EscapeChar(c) + rest;
    assert s[|EscapeChar(c)|..] == rest;
    if c as int < 0x20 && |EscapeChar(c)| == 6 {
      var hi, lo := c as int / 16, c as int % 16;
      assert EscapeChar(c) == "\\u00" + [HexDigit(hi), HexDigit(lo)];
      assert s[2] == '0' && s[3] == '0' && s[4] == HexDigit(hi) && s[5] == HexDigit(lo);
      assert HexValue(HexDigit(hi)) == Some(hi) && HexValue(HexDigit(lo)) == Some(lo);
      assert s[1..][5..] == rest;
      assert ParseEscape(s[1..]) == Some(([c], rest));
    } else if |EscapeChar(c)| == 2 {
      assert s[1..][1..] == rest;
      assert ParseEscape(s[1..]) == Some(([c], rest));
    }
  }

  lemma {:induction false} ParseEscaped(s: string, rest: string)
    ensures ParseChars(Escape(s) + "\"" + rest) == Some((s, rest))
  {
    var tail := "\"" + rest;
    assert Escape(s) + "\"" + rest == Escape(s) + tail;
    if s == "" {
      assert Escape(s) + tail == tail && tail[1..] == rest;
    } else {
      assert Escape(s) + tail == EscapeChar(s[0]) + (Escape(s[1..]) + "\"" + rest);
      ParseEscapedChar(s[0], Escape(s[1..]) + "\"" + rest);
      ParseEscaped(s[1..], rest);
      assert [s[0]] + s[1..] == s;
    }
  }

  lemma ParseQuoted(s: string, rest: string)
    ensures ParseString(Quoted(s) + rest) == Some((s, rest))
  {
    assert (Quoted(s) + rest)[1..] == Escape(s) + "\"" + rest;
    ParseEscaped(s, rest);
  }

  // ---- Numbers

  predicate AllDigits(ds: string) {
    forall i | 0 <= i < |ds| :: IsDigit(ds[i])
  }

  lemma {:induction false} DigitsOf(ds: string, rest: string)
    requires AllDigits(ds)
    requires rest != "" ==> !IsDigit(rest[0])
    ensures Digits(ds + rest) == (ds, rest)
  {
    if ds == "" {
      assert ds + rest == rest;
    } else {
      assert (ds + rest)[1..] == ds[1..] + rest;
      DigitsOf(ds[1..], rest);
      assert [ds[0]] + ds[1..] == ds;
    }
  }

  lemma {:induction false} DecimalDigits(n: nat)
    ensures Decimal(n) != "" && AllDigits(Decimal(n))
    ensures DecimalValue(Decimal(n)) == n
    ensures n != 0 ==> Decimal(n)[0] != '0'
  {
    if n >= 10 {
      DecimalDigits(n / 10);
      assert Decimal(n)[..|Decimal(n)| - 1] == Decimal(n / 10);
    } else {
      assert Decimal(n)[..0] == "";
    }
  }

  /** Text after which a number has certainly ended. */
  predicate Delimited(rest: string) {
    rest == "" || rest[0] == ',' || rest[0] == '}' || rest[0] == ']'
  }

  lemma ParseNumberText(ds: string, rest: string)
    requires ds != "" && AllDigits(ds) && (|ds| > 1 ==> ds[0] != '0')
    requires Delimited(rest)
    ensures ParseNumber(ds + rest) == Some((Nat(DecimalValue(ds)), rest))
  {
    DigitsOf(ds, rest);
    assert (ds + rest)[0] == ds[0] && IsDigit(ds[0]);
    NothingAfterDigits(rest);
  }

  lemma NothingAfterDigits(rest: string)
    requires Delimited(rest)
    ensures SkipFraction(rest) == Some(rest) && SkipExponent(rest) == Some(rest)
  {
  }

  lemma ParseDecimal(n: nat, rest: string)
    requires Delimited(rest)
    ensures ParseValue(Decimal(n) + rest) == Some((Number(Nat(n)), rest))
  {
    DecimalDigits(n);
    var ds := Decimal(n);
    assert |ds| > 1 ==> n != 0;
    ParseNumberText(ds, rest);
    ParseDigitFirst(ds + rest);
  }

  lemma ParseDigitFirst(s: string)
    requires s != "" && IsDigit(s[0])
    ensures ParseValue(s) == (var (num, rest) :- ParseNumber(s); Some((Number(num), rest)))
  {
    assert "null"[0] != s[0] && "true"[0] != s[0] && "false"[0] != s[0];
  }

  // ---- Values

  lemma {:induction false} ParseText(v: Value, rest: string)
    requires Printable(v) && Delimited(rest)
    ensures ParseValue(Text(v) + rest) == Some((v, rest))
    decreases v, 0
  {
    var s := Text(v) + rest;
    match v
    case Null =>
      assert s[..4] == "null" && s[4..] == rest;
    case Bool(b) =>
      if b {
        assert s[..4] == "true" && s[4..] == rest;
      } else {
        assert s[..5] == "false" && s[5..] == rest;
      }
    case Number(num) =>
      ParseDecimal(num.n, rest);
    case String(t) =>
      ParseQuoted(t, rest);
    case Array(items) =>
      ParseArrayText(items, rest);
      Bracketed("[", ItemsText(items), "]", rest);
    case Object(members) =>
      ParseObjectText(members, rest);
      Bracketed("{", MembersText(members), "}", rest);
  }

  /** A printed value starts with a byte that is neither white space nor a closing bracket. */
  lemma TextStart(v: Value)
    requires Printable(v)
    ensures Text(v) != "" && !Space(Text(v)[0]) && Text(v)[0] != ']'
  {
    if v.Number? {
      DecimalDigits(v.num.n);
      assert IsDigit(Decimal(v.num.n)[0]);
    }
  }

  lemma ParseEmptyArray(text: string)
    requires text != "" && text[0] == ']'
    ensures ParseValue("[" + text) == Some((Array([]), text[1..]))
  {
    DropFirst('[', text);
  }

  lemma NoItems(rest: string)
    ensures ItemsText([]) + ("]" + rest) == "]" + rest
  {
  }

  lemma {:induction false} ParseArrayText(items: seq<Value>, rest: string)
    requires forall x | x in items :: Printable(x)
    ensures ParseValue("[" + (ItemsText(items) + ("]" + rest))) == Some((Array(items), rest))
    decreases items, 1
  {
    var inner := ItemsText(items) + ("]" + rest);
    DropFirst('[', inner);
    if items == [] {
      NoItems(rest);
      DropFirst(']', rest);
      ParseEmptyArray("]" + rest);
    } else {
      assert items[0] in items;
      ItemsTextStart(items);
      assert inner[0] == ItemsText(items)[0];
      ParseItemsText(items, rest);
    }
  }

  /** One item read in front of the rest of an array; `text` is any reading of `x`. */
  lemma ParseItemsStep(text: string, x: Value, tail: string)
    requires tail != "" && Delimited(tail) && ParseValue(text + tail) == Some((x, tail))
    ensures tail[0] == ']' ==> ParseItems(text + tail) == Some(([x], tail[1..]))
    ensures tail[0] == ',' && |tail| > 1 && !Space(tail[1]) ==>
              ParseItems(text + tail) == (var (xs, end) :- ParseItems(tail[1..]); Some(([x] + xs, end)))
  {
  }

  lemma {:induction false} ParseItemsText(items: seq<Value>, rest: string)
    requires items != [] && forall x | x in items :: Printable(x)
    ensures ParseItems(ItemsText(items) + ("]" + rest)) == Some((items, rest))
    decreases items, 0
  {
    var first := items[0];
    assert first in items;
    var end := "]" + rest;
    DropFirst(']', rest);
    if |items| == 1 {
      ParseText(first, end);
      ParseItemsStep(Text(first), first, end);
      assert [first] == items;
    } else {
      var more := ItemsText(items[1..]) + end;
      ItemsTextRegroup(items, end);
      DropFirst(',', more);
      ParseText(first, "," + more);
      ItemsTextStart(items[1..]);
      ParseItemsStep(Text(first), first, "," + more);
      ParseItemsText(items[1..], rest);
      assert [first] + items[1..] == items;
    }
  }

  lemma ItemsTextRegroup(items: seq<Value>, tail: string)
    requires |items| > 1
    ensures ItemsText(items) + tail == Text(items[0]) + ("," + (ItemsText(items[1..]) + tail))
  {
    Assoc(Text(items[0]) + ",", ItemsText(items[1..]), tail);
    Assoc(Text(items[0]), ",", ItemsText(items[1..]) + tail);
  }

  lemma ItemsTextStart(items: seq<Value>)
    requires items != [] && Printable(items[0])
    ensures ItemsText(items) != "" && !Space(ItemsText(items)[0]) && ItemsText(items)[0] != ']'
  {
    TextStart(items[0]);
  }

  /** A key, a colon and `text`, any reading of `v`. */
  lemma ParseMemberStep(key: string, text: string, v: Value, rest: string)
    requires text != "" && !Space(text[0]) && Delimited(rest)
    requires ParseValue(text + rest) == Some((v, rest))
    ensures ParseMember(Quoted(key) + (":" + (text + rest))) == Some((Member(key, v), rest))
  {
    var tail := ":" + (text + rest);
    ParseQuoted(key, tail);
    DropFirst(':', text + rest);
  }

  lemma {:induction false} ParseMemberText(m: Member, rest: string)
    requires Printable(m.value) && Delimited(rest)
    ensures ParseMember(MemberText(m) + rest) == Some((m, rest))
    decreases m, 0
  {
    TextStart(m.value);
    ParseText(m.value, rest);
    ParseMemberStep(m.key, Text(m.value), m.value, rest);
    Assoc(Quoted(m.key) + ":", Text(m.value), rest);
    Assoc(Quoted(m.key), ":", Text(m.value) + rest);
  }

  lemma MembersTextStart(members: seq<Member>)
    requires members != []
    ensures MembersText(members) != "" && MembersText(members)[0] == '"'
  {
  }

  function PrefixMembers(members: seq<Member>, tail: Parsed<seq<Member>>): Parsed<seq<Member>> {
    var (more, end) :- tail;
    Some((members + more, end))
  }

  /** A member in front of a closing brace, or of more members. */
  lemma ParseMembersStep(text: string, m: Member, tail: string)
    requires tail != "" && ParseMember(text + tail) == Some((m, tail))
    ensures tail[0] == '}' ==> ParseMembers(text + tail) == Some(([m], tail[1..]))
    ensures tail[0] == ',' && |tail| > 1 && tail[1] == '"' ==>
              ParseMembers(text + tail) == PrefixMembers([m], ParseMembers(tail[1..]))
  {
  }

  lemma {:induction false} ParseMembersText(members: seq<Member>, rest: string)
    requires members != [] && PrintableMembers(members)
    ensures ParseMembers(MembersText(members) + ("}" + rest)) == Some((members, rest))
    decreases members, 1
  {
    var first := members[0];
    assert first in members;
    var end := "}" + rest;
    DropFirst('}', rest);
    if |members| == 1 {
      ParseMemberText(first, end);
      ParseMembersStep(MemberText(first), first, end);
      assert [first] == members;
    } else {
      var more := MembersText(members[1..]) + end;
      MembersTextRegroup(members, end);
      DropFirst(',', more);
      ParseMemberText(first, "," + more);
      MembersTextStart(members[1..]);
      ParseMembersStep(MemberText(first), first, "," + more);
      ParseMembersText(members[1..], rest);
      assert [first] + members[1..] == members;
    }
  }

  lemma MembersTextRegroup(members: seq<Member>, tail: string)
    requires |members| > 1
    ensures MembersText(members) + tail == MemberText(members[0]) + ("," + (MembersText(members[1..]) + tail))
  {
    Assoc(MemberText(members[0]) + ",", MembersText(members[1..]), tail);
    Assoc(MemberText(members[0]), ",", MembersText(members[1..]) + tail);
  }

  lemma {:induction false} ParseObjectText(members: seq<Member>, rest: string)
    requires PrintableMembers(members)
    ensures ParseValue("{" + (MembersText(members) + ("}" + rest))) == Some((Object(members), rest))
    decreases members, 2
  {
    var inner := MembersText(members) + ("}" + rest);
    DropFirst('{', inner);
    if members == [] {
      assert inner == "}" + rest;
      DropFirst('}', rest);
    } else {
      MembersTextStart(members);
      assert inner[0] == '"';
      ParseMembersText(members, rest);
    }
  }

  /** Printing then parsing gives back the value, with its members in order. */
  lemma RoundTrip(v: Value)
    requires Printable(v)
    ensures Parse(Text(v)) == Some(v)
  {
    TextStart(v);
    assert Text(v) + "" == Text(v);
    ParseText(v, "");
  }

  /** Two printed values with the same text are the same value. */
  lemma TextInjective(v: Value, w: Value)
    requires Printable(v) && Printable(w) && Text(v) == Text(w)
    ensures v == w
  {
    RoundTrip(v);
    RoundTrip(w);
  }

  // ---- One line, no space to spare

  /** No control byte, and no space either unless `spaces`. */
  predicate Tight(s: string, spaces: bool) {
    forall c | c in s :: c as int >= 0x20 && (c == ' ' ==> spaces)
  }

  lemma TightConcat(a: string, b: string, spaces: bool)
    ensures Tight(a + b, spaces) <==> Tight(a, spaces) && Tight(b, spaces)
  {
    assert forall c :: c in a + b <==> c in a || c in b;
  }

  /** Escaping leaves no control byte, and adds no space. */
  lemma {:induction false} EscapeTight(s: string, spaces: bool)
    requires ' ' in s ==> spaces
    ensures Tight(Escape(s), spaces)
  {
    if s != "" {
      assert s[0] in s;
      EscapeCharTight(s[0], spaces);
      EscapeTight(s[1..], spaces);
      TightConcat(EscapeChar(s[0]), Escape(s[1..]), spaces);
    }
  }

  lemma HexDigitTight(d: nat)
    requires d < 16
    ensures HexDigit(d) as int > 0x20
  {
  }

  lemma EscapeCharTight(c: char, spaces: bool)
    requires c == ' ' ==> spaces
    ensures Tight(EscapeChar(c), spaces)
  {
    var e := EscapeChar(c);
    if c as int < 0x20 && |e| == 6 {
      HexDigitTight(c as int / 16);
      HexDigitTight(c as int % 16);
      assert e == ['\\', 'u', '0', '0', HexDigit(c as int / 16), HexDigit(c as int % 16)];
    } else {
      assert |e| == 1 || e == ['\\', e[1]];
      assert |e| == 1 ==> e == [c];
    }
  }

  lemma {:induction false} DecimalTight(n: nat)
    ensures Tight(Decimal(n), false)
  {
    if n >= 10 {
      DecimalTight(n / 10);
    }
  }

  /** Does no string in the value, key or other, hold a space? */
  ghost predicate Spaceless(v: Value)
    decreases v
  {
    match v
    case String(s) => ' ' !in s
    case Array(items) => forall x | x in items :: Spaceless(x)
    case Object(members) => forall m: Member | m in members :: ' ' !in m.key && Spaceless(m.value)
    case _ => true
  }

  lemma QuotedTight(s: string, spaces: bool)
    requires ' ' in s ==> spaces
    ensures Tight(Quoted(s), spaces)
  {
    EscapeTight(s, spaces);
    TightConcat("\"" + Escape(s), "\"", spaces);
    TightConcat("\"", Escape(s), spaces);
  }

  /** The published text is one line without a control byte, and every space in it is the content of a string. */
  lemma {:induction false} TextTight(v: Value, spaces: bool)
    requires Printable(v) && (spaces || Spaceless(v))
    ensures Tight(Text(v), spaces)
    decreases v, 0
  {
    match v
    case Null =>
    case Bool(_) =>
    case Number(num) => DecimalTight(num.n);
    case String(s) => QuotedTight(s, spaces);
    case Array(items) =>
      ItemsTight(items, spaces);
      TightConcat("[" + ItemsText(items), "]", spaces);
      TightConcat("[", ItemsText(items), spaces);
    case Object(members) =>
      MembersTight(members, spaces);
      TightConcat("{" + MembersText(members), "}", spaces);
      TightConcat("{", MembersText(members), spaces);
  }

  lemma {:induction false} ItemsTight(items: seq<Value>, spaces: bool)
    requires forall x | x in items :: Printable(x) && (spaces || Spaceless(x))
    ensures Tight(ItemsText(items), spaces)
    decreases items, 1
  {
    if items != [] {
      TextTight(items[0], spaces);
      ItemsTight(items[1..], spaces);
      TightConcat(Text(items[0]), ",", spaces);
      TightConcat(Text(items[0]) + ",", ItemsText(items[1..]), spaces);
    }
  }

  lemma {:induction false} MembersTight(members: seq<Member>, spaces: bool)
    requires PrintableMembers(members)
    requires spaces || forall m | m in members :: ' ' !in m.key && Spaceless(m.value)
    ensures Tight(MembersText(members), spaces)
    decreases members, 1
  {
    if members != [] {
      var m := members[0];
      assert m in members;
      QuotedTight(m.key, spaces);
      TextTight(m.value, spaces);
      MembersTight(members[1..], spaces);
      TightConcat(Quoted(m.key), ":", spaces);
      TightConcat(Quoted(m.key) + ":", Text(m.value), spaces);
      TightConcat(MemberText(m), ",", spaces);
      TightConcat(MemberText(m) + ",", MembersText(members[1..]), spaces);
    }
  }

  // ---- Documents that are not JSON

  /** A string without a closing quote has no reading, whatever its escapes. */
  lemma {:induction false} UnclosedString(s: string)
    requires '"' !in s
    ensures ParseChars(s).None?
    decreases |s|
  {
    if s != "" {
      UnclosedString(s[1..]);
      var escape := ParseEscape(s[1..]);
      if s[0] == '\\' && escape.Some? {
        UnclosedString(escape.value.1);
      }
    }
  }

  /** Members in front of a tail add themselves to whatever it reads as; they never repair it. */
  lemma {:induction false} MembersBeforeTail(members: seq<Member>, tail: string)
    requires members != [] && PrintableMembers(members)
    requires tail != "" && tail[0] == '"'
    ensures ParseMembers(MembersText(members) + "," + tail) == PrefixMembers(members, ParseMembers(tail))
  {
    var first := members[0];
    assert first in members;
    if |members| == 1 {
      Assoc(MemberText(first), ",", tail);
      MemberBeforeMore(first, tail);
      assert [first] == members;
    } else {
      var more := MembersText(members[1..]) + "," + tail;
      Assoc(MembersText(members), ",", tail);
      MembersTextRegroup(members, "," + tail);
      Assoc(MembersText(members[1..]), ",", tail);
      MembersTextStart(members[1..]);
      MemberBeforeMore(first, more);
      MembersBeforeTail(members[1..], tail);
      PrefixTwice([first], members[1..], ParseMembers(tail));
      assert [first] + members[1..] == members;
    }
  }

  lemma MemberBeforeMore(m: Member, more: string)
    requires Printable(m.value) && more != "" && more[0] == '"'
    ensures ParseMembers(MemberText(m) + ("," + more)) == PrefixMembers([m], ParseMembers(more))
  {
    DropFirst(',', more);
    ParseMemberText(m, "," + more);
    ParseMembersStep(MemberText(m), m, "," + more);
  }

  lemma PrefixTwice(a: seq<Member>, b: seq<Member>, tail: Parsed<seq<Member>>)
    ensures PrefixMembers(a, PrefixMembers(b, tail)) == PrefixMembers(a + b, tail)
  {
    if tail.Some? {
      assert a + (b + tail.value.0) == a + b + tail.value.0;
    }
  }

  /** How a string `x` copied without escaping, with a further member after it, may be read as `t`: as
      something shorter, unless it is plain; or past its closing quote, up to the next one. */
  predicate CopiedAs(x: string, t: string) {
    || (|t| <= |x| && (|t| == |x| ==> Plain(x)))
    || (x != "" && x[|x| - 1] == '\\' && t != "" && t[|t| - 1] == ',')
  }

  lemma CopiedPlain(c: char, x: string, t: string)
    requires PlainChar(c) && CopiedAs(x, t)
    ensures CopiedAs([c] + x, [c] + t)
  {
  }

  lemma CopiedEscape(escape: string, x: string, piece: string, t: string)
    requires |piece| < |escape| && CopiedAs(x, t)
    ensures CopiedAs(escape + x, piece + t)
  {
  }

  lemma DropOfConcat(x: string, after: string)
    requires x != ""
    ensures (x + after)[0] == x[0] && (x + after)[1..] == x[1..] + after
  {
  }

  lemma ParseCharsEscape(s: string)
    requires s != "" && s[0] == '\\' && ParseEscape(s[1..]).Some?
    ensures ParseChars(s) == Prefixed(ParseEscape(s[1..]).value.0, ParseChars(ParseEscape(s[1..]).value.1))
  {
  }

  lemma DropTwice(x: string, k: nat)
    requires 1 <= k <= |x|
    ensures x[1..][k - 1..] == x[k..]
  {
  }

  /** One escape of a copied string is read, and stays inside the string. */
  lemma EscapeStep(x: string, after: string)
    requires |x| > 1 && x[0] == '\\' && after != "" && after[0] == '"' && ParseEscape(x[1..] + after).Some?
    ensures var (piece, rest) := ParseEscape(x[1..] + after).value;
            var k := |x + after| - |rest|;
            |piece| < k <= |x| && ParseChars(x + after) == Prefixed(piece, ParseChars(x[k..] + after))
  {
    DropOfConcat(x, after);
    ParseCharsEscape(x + after);
    EscapeInside(x[1..], after);
    DropTwice(x, |x + after| - |ParseEscape(x[1..] + after).value.1|);
  }

  lemma TakeDrop(x: string, k: nat)
    requires k <= |x|
    ensures x[..k] + x[k..] == x
  {
  }

  /** What holds of the text after an escape holds of the text before it. */
  lemma CopiedAfterEscape(x: string, k: nat, piece: string, tail: Parsed<string>)
    requires |piece| < k <= |x| && (tail.Some? ==> CopiedAs(x[k..], tail.value.0))
    ensures var r := Prefixed(piece, tail); r.Some? ==> CopiedAs(x, r.value.0)
  {
    if tail.Some? {
      CopiedEscape(x[..k], x[k..], piece, tail.value.0);
      TakeDrop(x, k);
    }
  }

  lemma {:induction false} CopiedStringRead(x: string, z: string)
    ensures var r := ParseChars(x + ("\",\"" + z)); r.Some? ==> CopiedAs(x, r.value.0)
  {
    var after := "\",\"" + z;
    var text := x + after;
    if x == "" {
      assert text[0] == '"';
    } else {
      var more := x[1..] + after;
      assert text[0] == x[0] && text[1..] == more;
      assert x == [x[0]] + x[1..];
      if x[0] == '\\' && ParseEscape(more).Some? {
        var (piece, rest) := ParseEscape(more).value;
        if x[1..] == "" {
          QuoteEaten(z);
        } else {
          EscapeStep(x, after);
          var k := |text| - |rest|;
          CopiedStringRead(x[k..], z);
          CopiedAfterEscape(x, k, piece, ParseChars(x[k..] + after));
        }
      } else if PlainChar(x[0]) {
        CopiedStringRead(x[1..], z);
        if ParseChars(more).Some? {
          CopiedPlain(x[0], x[1..], ParseChars(more).value.0);
        }
      }
    }
  }

  /** A backslash at the very end escapes the closing quote; the string then ends at the next one. */
  lemma QuoteEaten(z: string)
    ensures ParseChars("\\" + ("\",\"" + z)) == Some(("\",", z))
  {
    var s := "\\" + ("\",\"" + z);
    assert s[1..][0] == '"' && s[1..][1..][0] == ',' && s[1..][1..][1..][0] == '"';
    assert s[1..][1..][1..][1..] == z;
    assert ParseChars(s[1..][1..][1..]) == Some(("", z));
    assert ParseChars(s[1..][1..]) == Some((",", z)) by {
      assert [','] + "" == ",";
    }
    assert ParseEscape(s[1..]) == Some((['"'], s[1..][1..]));
    assert ['"'] + "," == "\",";
  }

  /** An escape that starts inside a string ends inside it: a quote is no hexadecimal digit. */
  lemma EscapeInside(x: string, after: string)
    requires x != "" && after != "" && after[0] == '"' && ParseEscape(x + after).Some?
    ensures var (piece, rest) := ParseEscape(x + after).value;
            var n := |x + after| - |rest|;
            n <= |x| && |piece| <= n && rest == x[n..] + after
  {
    var s := x + after;
    var (piece, rest) := ParseEscape(s).value;
    assert s[0] == x[0];
    if |x| < 5 {
      assert s[|x|] == '"';
    }
    if s[0] == 'u' {
      assert rest == s[5..] && |x| >= 5;
      assert s[5..] == x[5..] + after;
    } else {
      assert rest == s[1..] && s[1..] == x[1..] + after;
    }
  }

  /** Followed by a further member, a copied string is read as itself only if it is plain. */
  lemma CopiedStringReadBack(x: string, z: string)
    requires ParseChars(x + ("\",\"" + z)).Some? && ParseChars(x + ("\",\"" + z)).value.0 == x
    ensures Plain(x)
  {
    CopiedStringRead(x, z);
  }
}
