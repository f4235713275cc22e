/** What a consumer of the topic can rely on: every message event is JSON that reads back as its
    member list, and a mailbox event is JSON exactly when it is a creation or a rename. */
module EventTheorems {
  import opened Options
  import opened Json
  import opened JsonParser
  import opened JsonRoundTrip
  import opened Events

  lemma PrintableConcat(a: seq<Member>, b: seq<Member>)
    requires PrintableMembers(a) && PrintableMembers(b)
    ensures PrintableMembers(a + b)
  {
  }

  lemma PrintableStrings(key: string, ss: seq<string>)
    ensures PrintableMembers([Member(key, Array(Strings(ss)))])
  {
  }

  lemma HeaderMembersPrintable(h: Headers)
    ensures PrintableMembers(HeaderMembers(h))
  {
  }

  lemma FlagsEventMembersPrintable(rc: RenderContext, flags: bv32, keywords: Option<seq<CString>>,
                                   flagsOld: bv32, keywordsOld: Option<seq<CString>>)
    ensures PrintableMembers(FlagsEventMembers(rc, flags, keywords, flagsOld, keywordsOld))
  {
    var a := FlagMembers(KEY_FLAGS, rc, flags);
    var b := FlagMembers(KEY_OLD_FLAGS, rc, flagsOld);
    var c := KeywordMembers(KEY_KEYWORDS, rc, keywords);
    var d := KeywordMembers(KEY_OLD_KEYWORDS, rc, keywordsOld);
    PrintableStrings(KEY_FLAGS, FlagNames(flags));
    PrintableStrings(KEY_OLD_FLAGS, FlagNames(flagsOld));
    if keywords.Some? { PrintableStrings(KEY_KEYWORDS, Matching(keywords.value, rc.keywordPrefix)); }
    if keywordsOld.Some? { PrintableStrings(KEY_OLD_KEYWORDS, Matching(keywordsOld.value, rc.keywordPrefix)); }
    PrintableConcat(a, b);
    PrintableConcat(a + b, c);
    PrintableConcat(a + b + c, d);
  }

  lemma DataMembersPrintable(rc: RenderContext, data: MsgData)
    ensures PrintableMembers(DataMembers(rc, data))
  {
    match data
    case FlagsSetData(flags, keywords) => FlagsEventMembersPrintable(rc, flags, keywords, 0, None);
    case FlagsClearData(flags, keywords, flagsOld, keywordsOld) =>
      FlagsEventMembersPrintable(rc, flags, keywords, flagsOld, keywordsOld);
    case MessageNewData(date, dateText, headers) => HeaderMembersPrintable(headers);
    case MessageAppendData(headers) => HeaderMembersPrintable(headers);
    case NoMsgData =>
  }

  lemma MsgMembersPrintable(rc: RenderContext, userdb: seq<Member>, user: CString, msg: Message, ev: MsgEvent)
    requires PrintableMembers(userdb)
    ensures PrintableMembers(MsgMembers(rc, userdb, user, msg, ev))
  {
    var front := [UserMember(user)] + UserdbMember(userdb);
    DataMembersPrintable(rc, ev.data);
    PrintableConcat(UidMembers(msg), DataMembers(rc, ev.data));
    PrintableConcat(HeadMembers(msg.mailbox, ev.name), TailMembers(rc, msg, ev.data));
    PrintableConcat(front, HeadMembers(msg.mailbox, ev.name) + TailMembers(rc, msg, ev.data));
  }

  // ---- Suppression

  /** Every array among the members is empty. */
  ghost predicate SaysNothing(members: seq<Member>) {
    forall m | m in members :: m.value == Array([])
  }

  lemma SaysNothingConcat(a: seq<Member>, b: seq<Member>)
    ensures SaysNothing(a + b) <==> SaysNothing(a) && SaysNothing(b)
  {
  }

  lemma SaysNothingArray(key: string, ss: seq<string>)
    ensures SaysNothing([Member(key, Array(Strings(ss)))]) <==> ss == []
  {
  }

  lemma FlagMembersSilent(key: string, rc: RenderContext, flags: bv32)
    ensures SaysNothing(FlagMembers(key, rc, flags)) <==> !(rc.sendFlags && KnownFlags(flags))
  {
  }

  lemma KeywordMembersSilent(key: string, rc: RenderContext, keywords: Option<seq<CString>>)
    ensures SaysNothing(KeywordMembers(key, rc, keywords)) <==> !AnyMatching(keywords, rc.keywordPrefix)
  {
    if keywords.Some? {
      MatchingNonEmpty(keywords.value, rc.keywordPrefix);
      SaysNothingArray(key, Matching(keywords.value, rc.keywordPrefix));
    }
  }

  lemma FlagsEventSilent(rc: RenderContext, flags: bv32, keywords: Option<seq<CString>>,
                         flagsOld: bv32, keywordsOld: Option<seq<CString>>)
    ensures SaysNothing(FlagsEventMembers(rc, flags, keywords, flagsOld, keywordsOld))
       <==> !PublishesFlags(rc, flags, keywords, flagsOld, keywordsOld)
  {
    var a := FlagMembers(KEY_FLAGS, rc, flags);
    var b := FlagMembers(KEY_OLD_FLAGS, rc, flagsOld);
    var c := KeywordMembers(KEY_KEYWORDS, rc, keywords);
    var d := KeywordMembers(KEY_OLD_KEYWORDS, rc, keywordsOld);
    FlagMembersSilent(KEY_FLAGS, rc, flags);
    FlagMembersSilent(KEY_OLD_FLAGS, rc, flagsOld);
    KeywordMembersSilent(KEY_KEYWORDS, rc, keywords);
    KeywordMembersSilent(KEY_OLD_KEYWORDS, rc, keywordsOld);
    SaysNothingConcat(a, b);
    SaysNothingConcat(a + b, c);
    SaysNothingConcat(a + b + c, d);
  }

  /** An event is suppressed exactly when it is about flags and every array it would publish is empty:
      unknown flag bits and keywords without the prefix never cause a message. */
  lemma SuppressedExactly(rc: RenderContext, userdbJson: Option<string>, user: CString, msg: Message, ev: MsgEvent)
    ensures MsgText(rc, userdbJson, user, msg, ev).None? <==>
            (ev.data.FlagsSetData? || ev.data.FlagsClearData?) && SaysNothing(DataMembers(rc, ev.data))
  {
    match ev.data
    case FlagsSetData(flags, keywords) => FlagsEventSilent(rc, flags, keywords, 0, None);
    case FlagsClearData(flags, keywords, flagsOld, keywordsOld) =>
      FlagsEventSilent(rc, flags, keywords, flagsOld, keywordsOld);
    case _ =>
  }

  // ---- The splice and the round trip

  /** The document opened, the fragment, and the remaining members, as one list of members. */
  lemma SpliceText(first: Member, userdb: seq<Member>, rest: seq<Member>)
    requires rest != []
    ensures "{" + MemberText(first) + "," + UserdbFragment(userdb).GetOr("") + MembersText(rest)
         == "{" + MembersText([first] + UserdbMember(userdb) + rest)
  {
    var open := "{" + MemberText(first) + ",";
    var middle := UserdbMember(userdb);
    assert [first] + middle + rest == [first] + (middle + rest);
    MembersTextConcat([first], middle + rest);
    Assoc("{", MemberText(first), ",");
    Assoc("{", MemberText(first) + ",", MembersText(middle + rest));
    if userdb == [] {
      assert middle + rest == rest && open + "" == open;
    } else {
      MembersTextConcat(middle, rest);
      Assoc(open, MemberText(middle[0]) + ",", MembersText(rest));
    }
  }

  /** A copied event name is the member it should be when it needs no escaping. */
  lemma PlainHead(front: string, mailbox: CString, name: CString, tail: seq<Member>)
    requires Plain(name) && tail != []
    ensures front + MemberText(Member(KEY_MAILBOX, String(mailbox))) + "," + CopiedMember(KEY_EVENT, name) + ","
              + MembersText(tail)
         == front + MembersText(HeadMembers(mailbox, name) + tail)
  {
    PlainMember(KEY_EVENT, name);
    var head := HeadMembers(mailbox, name);
    var m, e := MemberText(head[0]), CopiedMember(KEY_EVENT, name);
    assert head[1..] == [head[1]];
    assert MembersText(head) == m + "," + e;
    MembersTextConcat(head, tail);
    FrontAndRest(front, m, e, MembersText(tail));
  }

  lemma PlainMember(key: PlainName, name: CString)
    requires Plain(name)
    ensures MemberText(Member(key, String(name))) == CopiedMember(key, name)
  {
    EscapePlain(name);
  }

  lemma FrontAndRest(front: string, m: string, e: string, t: string)
    ensures front + m + "," + e + "," + t == front + (m + "," + e + "," + t)
  {
  }

  lemma SpliceDocument(user: CString, userdb: seq<Member>, rest: seq<Member>)
    requires rest != []
    ensures Front(user, UserdbFragment(userdb)) + MembersText(rest) + "}"
         == Text(Object([UserMember(user)] + UserdbMember(userdb) + rest))
  {
    SpliceText(UserMember(user), userdb, rest);
  }

  /** Splicing the fragment after the user adds one member, in second place. */
  lemma SpliceUserdb(rc: RenderContext, userdb: seq<Member>, user: CString, msg: Message, ev: MsgEvent)
    requires Published(rc, ev.data) && Plain(ev.name)
    ensures MsgText(rc, UserdbFragment(userdb), user, msg, ev) ==
            Some(Text(Object(MsgMembers(rc, userdb, user, msg, ev))))
  {
    var tail := TailMembers(rc, msg, ev.data);
    PlainHead(Front(user, UserdbFragment(userdb)), msg.mailbox, ev.name, tail);
    SpliceDocument(user, userdb, HeadMembers(msg.mailbox, ev.name) + tail);
  }

  /** Round trip: a published message event parses to its member list. */
  lemma MsgRoundTrip(rc: RenderContext, userdb: seq<Member>, user: CString, msg: Message, ev: MsgEvent)
    requires PrintableMembers(userdb) && Published(rc, ev.data) && Plain(ev.name)
    ensures MsgText(rc, UserdbFragment(userdb), user, msg, ev).Some?
    ensures Parse(MsgText(rc, UserdbFragment(userdb), user, msg, ev).value)
         == Some(Object(MsgMembers(rc, userdb, user, msg, ev)))
  {
    SpliceUserdb(rc, userdb, user, msg, ev);
    MsgMembersPrintable(rc, userdb, user, msg, ev);
    RoundTrip(Object(MsgMembers(rc, userdb, user, msg, ev)));
  }

  /** Since the event name is copied without escaping, a published message event reads back as its
      member list exactly when the name needs no escaping. */
  lemma MsgParsesExactly(rc: RenderContext, userdb: seq<Member>, user: CString, msg: Message, ev: MsgEvent)
    requires PrintableMembers(userdb) && Published(rc, ev.data)
    ensures MsgText(rc, UserdbFragment(userdb), user, msg, ev).Some?
    ensures Parse(MsgText(rc, UserdbFragment(userdb), user, msg, ev).value)
              == Some(Object(MsgMembers(rc, userdb, user, msg, ev)))
       <==> Plain(ev.name)
  {
    if Plain(ev.name) {
      MsgRoundTrip(rc, userdb, user, msg, ev);
    } else {
      var tail := TailMembers(rc, msg, ev.data);
      DocumentShape(user, userdb, msg.mailbox, ev.name, tail);
      OddNameLost(user, userdb, msg.mailbox, ev.name, tail);
    }
  }

  lemma OddNameLost(user: CString, userdb: seq<Member>, mailbox: CString, name: CString, tail: seq<Member>)
    requires PrintableMembers(userdb) && tail != [] && !Plain(name)
    ensures Parse(Shape(BeforeEvent(user, userdb, mailbox), name, tail))
         != Some(Object([UserMember(user)] + UserdbMember(userdb) + (HeadMembers(mailbox, name) + tail)))
  {
    var before := BeforeEvent(user, userdb, mailbox);
    var members := [UserMember(user)] + UserdbMember(userdb) + (HeadMembers(mailbox, name) + tail);
    assert members[|before|] == Member(KEY_EVENT, String(name));
    if Parse(Shape(before, name, tail)) == Some(Object(members)) {
      NameReadBack(before, name, tail);
    }
  }

  function BeforeEvent(user: CString, userdb: seq<Member>, mailbox: CString): seq<Member> {
    [UserMember(user)] + UserdbMember(userdb) + [Member(KEY_MAILBOX, String(mailbox))]
  }

  /** A document made of members, a copied event name, and further members. */
  function Shape(before: seq<Member>, name: CString, tail: seq<Member>): string {
    "{" + (MembersText(before) + "," + (CopiedMember(KEY_EVENT, name) + ("," + (MembersText(tail) + "}"))))
  }

  lemma DocumentShape(user: CString, userdb: seq<Member>, mailbox: CString, name: CString, tail: seq<Member>)
    ensures Head(user, UserdbFragment(userdb), mailbox, name) + MembersText(tail) + "}"
         == Shape(BeforeEvent(user, userdb, mailbox), name, tail)
  {
    var m := Member(KEY_MAILBOX, String(mailbox));
    SpliceText(UserMember(user), userdb, [m]);
    assert MembersText([m]) == MemberText(m);
    Regroup(MembersText(BeforeEvent(user, userdb, mailbox)), CopiedMember(KEY_EVENT, name), MembersText(tail));
  }

  lemma Regroup(before: string, event: string, tail: string)
    ensures "{" + before + "," + event + "," + tail + "}" == "{" + (before + "," + (event + ("," + (tail + "}"))))
  {
  }

  /** If the member after `before` is read as the event name, the name was plain. */
  lemma NameReadBack(before: seq<Member>, name: CString, tail: seq<Member>)
    requires before != [] && PrintableMembers(before) && tail != []
    requires var v := Parse(Shape(before, name, tail));
             v.Some? && v.value.Object? && |v.value.members| > |before|
             && v.value.members[|before|] == Member(KEY_EVENT, String(name))
    ensures Plain(name)
  {
    var after := MembersText(tail) + "}";
    var rest := CopiedMember(KEY_EVENT, name) + ("," + after);
    MembersTextStart(tail);
    MembersBeforeTail(before, rest);
    MembersTextStart(before);
    ObjectRead(MembersText(before) + "," + rest);
    EventReadBack(name, after);
  }

  lemma EventReadBack(name: CString, after: string)
    requires after != "" && after[0] == '"'
    requires var members := ParseMembers(CopiedMember(KEY_EVENT, name) + ("," + after));
             members.Some? && members.value.0 != [] && members.value.0[0] == Member(KEY_EVENT, String(name))
    ensures Plain(name)
  {
    CopiedTail(KEY_EVENT, name, after);
    StringMemberRead(KEY_EVENT, name + ("\",\"" + after[1..]));
    CopiedStringReadBack(name, after[1..]);
  }

  /** Is the text a whole object without its first brace? */
  predicate Completes(p: Parsed<seq<Member>>) {
    p.Some? && SkipSpace(p.value.1) == ""
  }

  /** A document that starts with a member is read as its members. */
  lemma ObjectRead(inner: string)
    requires inner != "" && inner[0] == '"'
    ensures Parse("{" + inner)
         == if Completes(ParseMembers(inner)) then Some(Object(ParseMembers(inner).value.0)) else None
  {
    DropFirst('{', inner);
  }

  lemma CopiedTail(key: PlainName, name: string, after: string)
    requires after != "" && after[0] == '"'
    ensures CopiedMember(key, name) + ("," + after)
         == Quoted(key) + (":" + ("\"" + (name + ("\",\"" + after[1..]))))
  {
    assert "\"" + ("," + after) == "\",\"" + after[1..];
    Assoc(Quoted(key) + ":", "\"" + name + "\"", "," + after);
    Assoc("\"" + name, "\"", "," + after);
    Assoc("\"", name, "\"" + ("," + after));
    Assoc(Quoted(key), ":", "\"" + (name + ("\"" + ("," + after))));
  }

  /** How members go on after the first one and the white space that follows it. */
  function AfterMember(m: Member, t: string): Parsed<seq<Member>> {
    if StartsWith(t, '}') then Some(([m], t[1..]))
    else if StartsWith(t, ',') then PrefixMembers([m], ParseMembers(SkipSpace(t[1..])))
    else None
  }

  /** Members whose first value is a string, with everything that may follow it. */
  lemma StringMemberRead(key: string, chars: string)
    ensures ParseMembers(Quoted(key) + (":" + ("\"" + chars)))
         == match ParseChars(chars) {
              case None => None
              case Some((c, rest)) => AfterMember(Member(key, String(c)), SkipSpace(rest))
            }
  {
    var value := "\"" + chars;
    DropFirst('"', chars);
    DropFirst(':', value);
    ParseQuoted(key, ":" + value);
    FirstMember(key, value);
  }

  lemma FirstMember(key: string, text: string)
    requires text != "" && !Space(text[0])
    ensures ParseMember(Quoted(key) + (":" + text))
         == match ParseValue(text) {
              case None => None
              case Some((v, rest)) => Some((Member(key, v), SkipSpace(rest)))
            }
  {
    ParseQuoted(key, ":" + text);
    DropFirst(':', text);
  }

  lemma SamePrefix<T>(p: seq<T>, q: seq<T>, x: seq<T>, y: seq<T>)
    requires |p| == |q| && p + x == q + y
    ensures p == q && x == y
  {
    assert p == (p + x)[..|p|] && x == (p + x)[|p|..];
    assert q == (q + y)[..|q|] && y == (q + y)[|q|..];
  }

  /** The member list determines everything that was published. */
  lemma MsgMembersInjective(rc: RenderContext, userdb: seq<Member>, user: CString, msg: Message, ev: MsgEvent,
                            rc': RenderContext, userdb': seq<Member>, user': CString, msg': Message, ev': MsgEvent)
    requires MsgMembers(rc, userdb, user, msg, ev) == MsgMembers(rc', userdb', user', msg', ev')
    ensures user == user' && userdb == userdb' && msg == msg' && ev.name == ev'.name
    ensures DataMembers(rc, ev.data) == DataMembers(rc', ev'.data)
  {
    var p, q := [UserMember(user)] + UserdbMember(userdb), [UserMember(user')] + UserdbMember(userdb');
    var h, h' := HeadMembers(msg.mailbox, ev.name), HeadMembers(msg'.mailbox, ev'.name);
    var t, t' := TailMembers(rc, msg, ev.data), TailMembers(rc', msg', ev'.data);
    SecondKey(userdb, UserMember(user), h + t);
    SecondKey(userdb', UserMember(user'), h' + t');
    SamePrefix(p, q, h + t, h' + t');
    SamePrefix(h, h', t, t');
    SamePrefix(UidMembers(msg), UidMembers(msg'), DataMembers(rc, ev.data), DataMembers(rc', ev'.data));
    assert p[0] == q[0] && h[0] == h'[0] && h[1] == h'[1];
    assert UidMembers(msg)[0] == UidMembers(msg')[0] && UidMembers(msg)[1] == UidMembers(msg')[1];
    if userdb != [] {
      assert p[1] == q[1];
    }
  }

  lemma SecondKey(userdb: seq<Member>, first: Member, tail: seq<Member>)
    requires tail != [] && tail[0].key == KEY_MAILBOX
    ensures |([first] + UserdbMember(userdb) + tail)[1].key| == 7 <==> userdb == []
  {
  }

  /** Equal bytes were published for equal content. */
  lemma EqualTextsEqualContent(rc: RenderContext, userdb: seq<Member>, user: CString, msg: Message, ev: MsgEvent,
                               rc': RenderContext, userdb': seq<Member>, user': CString, msg': Message, ev': MsgEvent)
    requires PrintableMembers(userdb) && Published(rc, ev.data) && Plain(ev.name)
    requires PrintableMembers(userdb') && Published(rc', ev'.data) && Plain(ev'.name)
    requires MsgText(rc, UserdbFragment(userdb), user, msg, ev)
          == MsgText(rc', UserdbFragment(userdb'), user', msg', ev')
    ensures user == user' && userdb == userdb' && msg == msg' && ev.name == ev'.name
    ensures DataMembers(rc, ev.data) == DataMembers(rc', ev'.data)
  {
    MsgRoundTrip(rc, userdb, user, msg, ev);
    MsgRoundTrip(rc', userdb', user', msg', ev');
    MsgMembersInjective(rc, userdb, user, msg, ev, rc', userdb', user', msg', ev');
  }

  lemma OptionalHead(key: string, a: Option<CString>, b: Option<CString>, x: seq<Member>, y: seq<Member>)
    requires Optional(key, a) + x == Optional(key, b) + y
    requires x != [] ==> x[0].key != key
    requires y != [] ==> y[0].key != key
    ensures a == b && x == y
  {
    var l := Optional(key, a) + x;
    assert a.Some? <==> l != [] && l[0].key == key;
    assert b.Some? <==> l != [] && l[0].key == key;
    SamePrefix(Optional(key, a), Optional(key, b), x, y);
    if a.Some? {
      assert Optional(key, a)[0] == Optional(key, b)[0];
    }
  }

  /** Each header is recovered from the members: an absent header leaves no member. */
  lemma HeadersRecovered(h: Headers, h': Headers)
    requires HeaderMembers(h) == HeaderMembers(h')
    ensures h == h'
  {
    var c, c' := Optional(KEY_SUBJECT, h.subject) + Optional(KEY_TO, h.to),
                 Optional(KEY_SUBJECT, h'.subject) + Optional(KEY_TO, h'.to);
    var b, b' := Optional(KEY_SNIPPET, h.snippet) + c, Optional(KEY_SNIPPET, h'.snippet) + c';
    assert KEY_SNIPPET[1] != KEY_SUBJECT[1];
    OptionalHead(KEY_FROM, h.from, h'.from, b, b');
    OptionalHead(KEY_SNIPPET, h.snippet, h'.snippet, c, c');
    OptionalHead(KEY_SUBJECT, h.subject, h'.subject, Optional(KEY_TO, h.to), Optional(KEY_TO, h'.to));
    if h.to.Some? || h'.to.Some? {
      assert Optional(KEY_TO, h.to)[0] == Optional(KEY_TO, h'.to)[0];
    }
  }

  // ---- Mailbox events

  /** Whatever its name, a mailbox event reads back as what it should say exactly when it is a creation
      or a rename; without a quote in the name, every other event is no JSON at all. */
  lemma MboxParsesExactly(user: CString, mailbox: CString, ev: MboxEvent)
    requires MboxWellTyped(ev)
    ensures Parse(MboxText(user, mailbox, ev)) == Some(Object(MboxMembers(user, mailbox, ev))) <==>
            ev.name == MAILBOX_CREATE || ev.name == MAILBOX_RENAME
    ensures '"' !in ev.name ==>
              (Parse(MboxText(user, mailbox, ev)).Some? <==> ev.name == MAILBOX_CREATE || ev.name == MAILBOX_RENAME)
  {
    if ev.data.NoMboxData? {
      MboxUnclosed(user, mailbox, ev.name);
    } else {
      RoundTrip(Object(MboxMembers(user, mailbox, ev)));
    }
  }

  /** The document of a mailbox event whose name is left open. */
  function UnclosedText(user: CString, mailbox: CString, name: CString): string {
    "{" + MembersText(MboxHead(user, mailbox)) + "," + UnclosedEvent(name)
  }

  /** Such a document reads as its last member decides. */
  lemma UnclosedParse(user: CString, mailbox: CString, name: CString)
    ensures var last := ParseMembers(UnclosedEvent(name));
            Parse(UnclosedText(user, mailbox, name))
              == if Completes(last) then Some(Object(MboxHead(user, mailbox) + last.value.0)) else None
  {
    var text, tail := MembersText(MboxHead(user, mailbox)), UnclosedEvent(name);
    MembersBeforeTail(MboxHead(user, mailbox), tail);
    MembersTextStart(MboxHead(user, mailbox));
    AfterBrace(text, tail);
    ObjectRead(text + "," + tail);
  }

  lemma AfterBrace(text: string, tail: string)
    ensures "{" + text + "," + tail == "{" + (text + "," + tail)
  {
  }

  /** No user name and no mailbox name can repair the missing quote; only a quote in the event name can,
      and then the name is not read as it is. */
  lemma MboxUnclosed(user: CString, mailbox: CString, name: CString)
    ensures '"' !in name ==> Parse(UnclosedText(user, mailbox, name)).None?
    ensures Parse(UnclosedText(user, mailbox, name))
         != Some(Object(MboxHead(user, mailbox) + [Member(KEY_EVENT, String(name))] + []))
  {
    var event := Member(KEY_EVENT, String(name));
    if '"' !in name {
      UnclosedEventMember(name);
    }
    NameNotReadBack(name);
    UnclosedParse(user, mailbox, name);
    assert (MboxHead(user, mailbox) + [event] + [])[2] == event;
  }

  lemma UnclosedEventPieces(name: CString)
    ensures UnclosedEvent(name) == Quoted(KEY_EVENT) + (":" + ("\"" + (name + "}")))
  {
    var key := Quoted(KEY_EVENT);
    Assoc(key + ":" + "\"", name, "}");
    Assoc(key + ":", "\"", name + "}");
    Assoc(key, ":", "\"" + (name + "}"));
  }

  lemma UnclosedEventRead(name: CString)
    ensures ParseMembers(UnclosedEvent(name))
         == match ParseChars(name + "}") {
              case None => None
              case Some((c, rest)) => AfterMember(Member(KEY_EVENT, String(c)), SkipSpace(rest))
            }
  {
    UnclosedEventPieces(name);
    StringMemberRead(KEY_EVENT, name + "}");
  }

  lemma UnclosedEventMember(name: CString)
    requires '"' !in name
    ensures ParseMembers(UnclosedEvent(name)).None?
  {
    UnclosedEventRead(name);
    UnclosedString(name + "}");
  }

  /** A string as long as the open name would leave no text to close the object. */
  lemma NameNotReadBack(name: CString)
    ensures var members := ParseMembers(UnclosedEvent(name));
            members.Some? ==> members.value.0 != [] && members.value.0[0] != Member(KEY_EVENT, String(name))
  {
    UnclosedEventRead(name);
  }

  /** The text ends an object of which one member has been read. */
  predicate EndsObject(t: string) {
    || (StartsWith(t, '}') && SkipSpace(t[1..]) == "")
    || (StartsWith(t, ',') && Completes(ParseMembers(SkipSpace(t[1..]))))
  }

  /** The name has a quote of its own, and what follows that quote ends the object. */
  predicate NameClosesObject(name: CString) {
    var chars := ParseChars(name + "}");
    chars.Some? && EndsObject(SkipSpace(chars.value.1))
  }

  /** The open event is JSON exactly when its name does the closing; user and mailbox have no part in it. */
  lemma UnclosedParsesExactly(user: CString, mailbox: CString, name: CString)
    ensures Parse(UnclosedText(user, mailbox, name)).Some? <==> NameClosesObject(name)
    ensures NameClosesObject(name) ==> '"' in name
  {
    UnclosedParse(user, mailbox, name);
    UnclosedEventRead(name);
    if '"' !in name {
      UnclosedString(name + "}");
    }
  }

  /** A name that ends with a quote closes itself: the event is JSON, with a shorter name. */
  lemma QuoteInNameParses(user: CString, mailbox: CString, name: PlainName)
    ensures Parse(MboxText(user, mailbox, MboxEvent(name + "\"", NoMboxData)))
         == Some(Object(MboxHead(user, mailbox) + [Member(KEY_EVENT, String(name))]))
  {
    var head, event := MboxHead(user, mailbox), Member(KEY_EVENT, String(name));
    var open := "{" + MembersText(head) + ",";
    ClosedByName(open, name);
    AddMember("{", head, event);
    RoundTrip(Object(head + [event]));
  }

  lemma ClosedByName(open: string, name: PlainName)
    ensures open + UnclosedEvent(name + "\"") == open + MemberText(Member(KEY_EVENT, String(name))) + "}"
  {
    EscapePlain(name);
    ClosedPieces(open, Quoted(KEY_EVENT) + ":", name);
  }

  lemma ClosedPieces(open: string, key: string, name: string)
    ensures open + (key + "\"" + (name + "\"") + "}") == open + (key + ("\"" + name + "\"")) + "}"
  {
  }

  // ---- The documented prefix

  /** The members the documentation promises at the front of all events: user, userdb if a configured
      field has a value, mailbox, event. */
  function DocumentedPrefix(user: CString, userdb: seq<Member>, mailbox: CString, name: CString): seq<Member> {
    [UserMember(user)] + UserdbMember(userdb) + HeadMembers(mailbox, name)
  }

  /** The text is a JSON object that starts with these members. */
  ghost predicate ReadsWithPrefix(text: string, prefix: seq<Member>) {
    exists members: seq<Member> :: Parse(text) == Some(Object(members)) && prefix <= members
  }

  /** A published message event keeps the promise exactly when its name needs no escaping. */
  lemma MsgPrefixExactly(rc: RenderContext, userdb: seq<Member>, user: CString, msg: Message, ev: MsgEvent)
    requires PrintableMembers(userdb) && Published(rc, ev.data)
    ensures var text := MsgText(rc, UserdbFragment(userdb), user, msg, ev).value;
            ReadsWithPrefix(text, DocumentedPrefix(user, userdb, msg.mailbox, ev.name)) <==> Plain(ev.name)
  {
    var text := MsgText(rc, UserdbFragment(userdb), user, msg, ev).value;
    var prefix := DocumentedPrefix(user, userdb, msg.mailbox, ev.name);
    if Plain(ev.name) {
      MsgRoundTrip(rc, userdb, user, msg, ev);
      assert prefix <= MsgMembers(rc, userdb, user, msg, ev);
    }
    if ReadsWithPrefix(text, prefix) {
      var before, tail := BeforeEvent(user, userdb, msg.mailbox), TailMembers(rc, msg, ev.data);
      DocumentShape(user, userdb, msg.mailbox, ev.name, tail);
      BeforeEventPrintable(user, userdb, msg.mailbox);
      assert prefix[|before|] == Member(KEY_EVENT, String(ev.name));
      NameReadBack(before, ev.name, tail);
    }
  }

  lemma BeforeEventPrintable(user: CString, userdb: seq<Member>, mailbox: CString)
    requires PrintableMembers(userdb)
    ensures PrintableMembers(BeforeEvent(user, userdb, mailbox))
  {
  }

  /** Which members the prefix asks for where a mailbox event has its mailbox and its name. */
  lemma PrefixPositions(user: CString, userdb: seq<Member>, mailbox: CString, name: CString)
    ensures var prefix := DocumentedPrefix(user, userdb, mailbox, name);
            && |prefix| >= 3
            && (userdb != [] ==> prefix[1] != Member(KEY_MAILBOX, String(mailbox)))
            && (userdb == [] ==> prefix[2] == Member(KEY_EVENT, String(name)))
  {
    if userdb != [] {
      assert |DocumentedPrefix(user, userdb, mailbox, name)[1].key| == 6 && |KEY_MAILBOX| == 7;
    }
  }

  /** An event with an open name never keeps the promise: its name is not read as it is. */
  lemma UnclosedPrefix(user: CString, userdb: seq<Member>, mailbox: CString, name: CString)
    ensures !ReadsWithPrefix(UnclosedText(user, mailbox, name), DocumentedPrefix(user, userdb, mailbox, name))
  {
    var head, last := MboxHead(user, mailbox), ParseMembers(UnclosedEvent(name));
    UnclosedParse(user, mailbox, name);
    NameNotReadBack(name);
    PrefixPositions(user, userdb, mailbox, name);
    if last.Some? {
      assert (head + last.value.0)[1] == head[1] && (head + last.value.0)[2] == last.value.0[0];
    }
  }

  lemma ClosedPrefix(user: CString, userdb: seq<Member>, mailbox: CString, ev: MboxEvent)
    requires !ev.data.NoMboxData?
    ensures var prefix := DocumentedPrefix(user, userdb, mailbox, ev.name);
            ReadsWithPrefix(MboxText(user, mailbox, ev), prefix) <==> userdb == []
  {
    var members := MboxMembers(user, mailbox, ev);
    RoundTrip(Object(members));
    PrefixPositions(user, userdb, mailbox, ev.name);
    assert members[1] == Member(KEY_MAILBOX, String(mailbox));
    if userdb == [] {
      assert DocumentedPrefix(user, userdb, mailbox, ev.name) <= members;
    }
  }

  /** A mailbox event keeps it exactly when it is a creation or a rename and no configured field has a
      value: it never carries the userdb. */
  lemma MboxPrefixExactly(fields: seq<CString>, lookup: CString -> Option<CString>,
                          user: CString, mailbox: CString, ev: MboxEvent)
    requires MboxWellTyped(ev)
    ensures var prefix := DocumentedPrefix(user, UserdbMembers(fields, lookup), mailbox, ev.name);
            ReadsWithPrefix(MboxText(user, mailbox, ev), prefix) <==>
            (ev.name == MAILBOX_CREATE || ev.name == MAILBOX_RENAME) && forall f | f in fields :: lookup(f).None?
  {
    UserdbMembersPresent(fields, lookup);
    if ev.data.NoMboxData? {
      UnclosedPrefix(user, UserdbMembers(fields, lookup), mailbox, ev.name);
    } else {
      ClosedPrefix(user, UserdbMembers(fields, lookup), mailbox, ev);
    }
  }
}
