/** The renderer: each writer appends to a growable string in place, and leaves in it exactly the
    text that module `Events` asks for. */
module EventWriters {
  import opened Options
  import opened Json
  import opened Events
  import opened JsonRoundTrip

  /** Dovecot's `string_t`. */
  class StrBuf {
    var data: string

    constructor ()
      ensures data == ""
    {
      data := "";
    }

    method Append(s: string)
      modifies this
      ensures data == old(data) + s
    {
      data := data + s;
    }
  }

  // ---- Members

  /** `"key":` */
  method WriteKey(str: StrBuf, key: PlainName)
    modifies str
    ensures str.data == old(str.data) + (Quoted(key) + ":")
  {
    str.Append("\"");
    str.Append(key);
    str.Append("\":");
    EscapePlain(key);
    KeyPieces(old(str.data), key);
  }

  lemma KeyPieces(front: string, key: string)
    ensures front + "\"" + key + "\":" == front + ("\"" + key + "\"" + ":")
  {
  }

  /** `"key":"value"`, the value escaped. */
  method WriteString(str: StrBuf, key: PlainName, value: CString)
    modifies str
    ensures str.data == old(str.data) + MemberText(Member(key, String(value)))
  {
    WriteKey(str, key);
    str.Append("\"");
    str.Append(Escape(value));
    str.Append("\"");
    StringPieces(old(str.data), Quoted(key) + ":", Escape(value));
  }

  /** `"key":"name"`, the name copied as it is. */
  method WriteCopied(str: StrBuf, key: PlainName, name: CString)
    modifies str
    ensures str.data == old(str.data) + CopiedMember(key, name)
  {
    WriteKey(str, key);
    str.Append("\"");
    str.Append(name);
    str.Append("\"");
    StringPieces(old(str.data), Quoted(key) + ":", name);
  }

  lemma StringPieces(front: string, key: string, chars: string)
    ensures front + key + "\"" + chars + "\"" == front + (key + ("\"" + chars + "\""))
  {
  }

  /** `"key":n` */
  method WriteNumber(str: StrBuf, key: PlainName, n: uint32)
    modifies str
    ensures str.data == old(str.data) + MemberText(Member(key, Number(Nat(n))))
  {
    WriteKey(str, key);
    str.Append(Decimal(n));
    Assoc(old(str.data), Quoted(key) + ":", Decimal(n));
  }

  // ---- Further members, each after its comma

  method NextString(str: StrBuf, key: PlainName, value: CString, ghost front: string, ghost members: seq<Member>)
    requires members != [] && str.data == front + MembersText(members)
    modifies str
    ensures str.data == front + MembersText(members + [Member(key, String(value))])
  {
    str.Append(",");
    WriteString(str, key, value);
    AddMember(front, members, Member(key, String(value)));
  }

  method NextName(str: StrBuf, key: PlainName, name: PlainName, ghost front: string, ghost members: seq<Member>)
    requires members != [] && str.data == front + MembersText(members)
    modifies str
    ensures str.data == front + MembersText(members + [Member(key, String(name))])
  {
    str.Append(",");
    WriteCopied(str, key, name);
    EscapePlain(name);
    AddMember(front, members, Member(key, String(name)));
  }

  method NextNumber(str: StrBuf, key: PlainName, n: uint32, ghost front: string, ghost members: seq<Member>)
    requires members != [] && str.data == front + MembersText(members)
    modifies str
    ensures str.data == front + MembersText(members + [Member(key, Number(Nat(n)))])
  {
    str.Append(",");
    WriteNumber(str, key, n);
    AddMember(front, members, Member(key, Number(Nat(n))));
  }

  method NextOptional(str: StrBuf, key: PlainName, value: Option<CString>,
                      ghost front: string, ghost members: seq<Member>)
    requires members != [] && str.data == front + MembersText(members)
    modifies str
    ensures str.data == front + MembersText(members + Optional(key, value))
  {
    if value.Some? {
      NextString(str, key, value.value, front, members);
    } else {
      assert members + [] == members;
    }
  }

  /** `,"key":[` and the items written so far, then `]`. */
  lemma NextArray(front: string, members: seq<Member>, key: PlainName, items: seq<Value>)
    requires members != []
    ensures front + MembersText(members) + "," + (Quoted(key) + ":") + "[" + ItemsText(items) + "]"
         == front + MembersText(members + [Member(key, Array(items))])
  {
    var before := front + MembersText(members) + ",";
    ArrayPieces(before, Quoted(key) + ":", ItemsText(items));
    AddMember(front, members, Member(key, Array(items)));
  }

  lemma ArrayPieces(front: string, key: string, items: string)
    ensures front + key + "[" + items + "]" == front + (key + ("[" + items + "]"))
  {
  }

  /** One more string at the end of an array of strings. */
  lemma AddString(front: string, ss: seq<string>, s: string)
    ensures front + ItemsText(Strings(ss)) + (if ss == [] then "" else ",") + Quoted(s)
         == front + ItemsText(Strings(ss + [s]))
  {
    assert Strings(ss + [s]) == Strings(ss) + [String(s)];
    ItemsTextSnoc(Strings(ss), String(s));
    if ss == [] {
      assert front + "" + "" + Quoted(s) == front + Quoted(s);
    } else {
      Assoc(front, ItemsText(Strings(ss)), ",");
      Assoc(front, ItemsText(Strings(ss)) + ",", Quoted(s));
    }
  }

  lemma BackslashEscaped()
    ensures Escape("\\") == "\\\\"
  {
  }

  lemma FlagLiteral(name: string)
    requires Plain(name)
    ensures Quoted(SystemFlag(name)) == "\"\\\\" + name + "\""
  {
    EscapeConcat("\\", name);
    EscapePlain(name);
    BackslashEscaped();
    FlagPieces(name);
  }

  lemma FlagPieces(name: string)
    ensures "\"" + ("\\\\" + name) + "\"" == "\"\\\\" + name + "\""
  {
  }

  /** A string as the keyword loop spells it, after its comma if it has one. */
  lemma QuotedLiteral(front: string, s: string)
    ensures front + ",\"" + Escape(s) + "\"" == front + "," + Quoted(s)
    ensures front + "\"" + Escape(s) + "\"" == front + "" + Quoted(s)
  {
  }

  // ---- str_starts_with

  /** The byte a C pointer sees at offset `i`: the terminator follows the last one. */
  function ByteAt(s: CString, i: nat): (b: char)
    requires i <= |s|
    ensures b == '\0' <==> i == |s|
  {
    assert i < |s| ==> s[i] in s;
    if i < |s| then s[i] else '\0'
  }

  method StrStartsWith(str: Option<CString>, prefix: Option<CString>) returns (r: bool)
    ensures r == HasPrefix(str, prefix)
  {
    if str.None? || prefix.None? {
      return false;
    }
    var s, p := str.value, prefix.value;
    var i := 0;
    while true
      invariant 0 <= i <= |s| && i <= |p|
      invariant s[..i] == p[..i]
      decreases |p| - i
    {
      if ByteAt(p, i) == '\0' {
        return true;
      } else if ByteAt(s, i) != ByteAt(p, i) {
        return false;
      }
      assert i < |s|;
      i := i + 1;
    }
  }

  // ---- write_flags

  /** One flag of the array, after a comma unless it is the first. */
  method WriteFlag(present: bool, name: string, flagWritten: bool, str: StrBuf,
                   ghost front: string, ghost names: seq<string>)
    returns (written: bool)
    requires Plain(name) && flagWritten == (names != [])
    requires str.data == front + ItemsText(Strings(names))
    modifies str
    ensures str.data == front + ItemsText(Strings(AddFlag(names, present, name)))
    ensures written == (AddFlag(names, present, name) != [])
  {
    written := flagWritten;
    if present {
      if flagWritten {
        str.Append(",");
      }
      str.Append("\"\\\\" + name + "\"");
      written := true;
      FlagLiteral(name);
      AddString(front, names, SystemFlag(name));
    }
  }

  method WriteFlags(flags: bv32, str: StrBuf?) returns (flagWritten: bool)
    modifies if str == null then {} else {str}
    ensures str != null ==> str.data == old(str.data) + ItemsText(Strings(FlagNames(flags)))
    ensures flagWritten == (str != null && KnownFlags(flags))
  {
    if str == null {
      return false;
    }
    ghost var front := str.data;
    ghost var names: seq<string> := [];
    assert front + ItemsText(Strings(names)) == front;
    flagWritten := false;
    flagWritten := WriteFlag(flags & MAIL_ANSWERED != 0, "Answered", flagWritten, str, front, names);
    names := AddFlag(names, flags & MAIL_ANSWERED != 0, "Answered");
    flagWritten := WriteFlag(flags & MAIL_FLAGGED != 0, "Flagged", flagWritten, str, front, names);
    names := AddFlag(names, flags & MAIL_FLAGGED != 0, "Flagged");
    flagWritten := WriteFlag(flags & MAIL_DELETED != 0, "Deleted", flagWritten, str, front, names);
    names := AddFlag(names, flags & MAIL_DELETED != 0, "Deleted");
    flagWritten := WriteFlag(flags & MAIL_SEEN != 0, "Seen", flagWritten, str, front, names);
    names := AddFlag(names, flags & MAIL_SEEN != 0, "Seen");
    flagWritten := WriteFlag(flags & MAIL_DRAFT != 0, "Draft", flagWritten, str, front, names);
    names := AddFlag(names, flags & MAIL_DRAFT != 0, "Draft");
    FlagNamesNonEmpty(flags);
  }

  // ---- Keyword arrays

  /** The body of a keyword array; both arrays count their elements from zero. */
  method WriteKeywords(keywords: seq<CString>, prefix: Option<CString>, str: StrBuf) returns (keywordWritten: bool)
    modifies str
    ensures str.data == old(str.data) + ItemsText(Strings(Matching(keywords, prefix)))
    ensures keywordWritten == AnyMatching(Some(keywords), prefix)
  {
    ghost var front := str.data;
    assert front + ItemsText(Strings([])) == front;
    keywordWritten := false;
    var i := 0;
    for k := 0 to |keywords|
      invariant str.data == front + ItemsText(Strings(Matching(keywords[..k], prefix)))
      invariant i == |Matching(keywords[..k], prefix)|
      invariant keywordWritten == (i > 0)
    {
      assert keywords[..k + 1][..k] == keywords[..k];
      var matches := StrStartsWith(Some(keywords[k]), prefix);
      if matches {
        AddString(front, Matching(keywords[..k], prefix), keywords[k]);
        QuotedLiteral(str.data, keywords[k]);
        if i > 0 {
          str.Append(",\"");
        } else {
          str.Append("\"");
        }
        str.Append(Escape(keywords[k]));
        str.Append("\"");
        i := i + 1;
        keywordWritten := true;
        assert Matching(keywords[..k + 1], prefix) == Matching(keywords[..k], prefix) + [keywords[k]];
      } else {
        assert Matching(keywords[..k + 1], prefix) == Matching(keywords[..k], prefix);
      }
    }
    assert keywords[..|keywords|] == keywords;
    MatchingNonEmpty(keywords, prefix);
  }

  // ---- write_msg_prefix

  method WriteFront(user: CString, userdbJson: Option<string>) returns (str: StrBuf)
    ensures fresh(str) && str.data == Front(user, userdbJson)
  {
    str := new StrBuf();
    str.Append("{");
    assert str.data == "{";
    WriteString(str, KEY_USER, user);
    str.Append(",");
    ghost var open := str.data;
    if userdbJson.Some? {
      str.Append(userdbJson.value);
    } else {
      assert open + "" == open;
    }
  }

  /** The document up to the comma after the event name. */
  method WriteHead(user: CString, userdbJson: Option<string>, name: CString, mailbox: CString)
    returns (str: StrBuf)
    ensures fresh(str) && str.data == Head(user, userdbJson, mailbox, name)
  {
    str := WriteFront(user, userdbJson);
    WriteString(str, KEY_MAILBOX, mailbox);
    str.Append(",");
    WriteCopied(str, KEY_EVENT, name);
    str.Append(",");
  }

  method WriteMsgPrefix(user: CString, userdbJson: Option<string>, name: CString, msg: Message)
    returns (str: StrBuf)
    ensures fresh(str)
    ensures str.data == Head(user, userdbJson, msg.mailbox, name) + MembersText(UidMembers(msg))
  {
    str := WriteHead(user, userdbJson, name, msg.mailbox);
    WriteUids(str, msg);
  }

  method WriteUids(str: StrBuf, msg: Message)
    modifies str
    ensures str.data == old(str.data) + MembersText(UidMembers(msg))
  {
    ghost var front := str.data;
    ghost var validity := Member(KEY_UIDVALIDITY, Number(Nat(msg.uidValidity)));
    WriteNumber(str, KEY_UIDVALIDITY, msg.uidValidity);
    OneMember(validity);
    NextNumber(str, KEY_UID, msg.uid, front, [validity]);
    TwoMembers(validity, Member(KEY_UID, Number(Nat(msg.uid))));
  }

  lemma OneMember(m: Member)
    ensures MembersText([m]) == MemberText(m)
  {
  }

  lemma TwoMembers(a: Member, b: Member)
    ensures [a] + [b] == [a, b]
  {
  }

  // ---- write_flags_event

  method WriteFlagArray(str: StrBuf, key: PlainName, rc: RenderContext, flags: bv32,
                        ghost front: string, ghost members: seq<Member>)
    returns (flagWritten: bool)
    requires members != [] && str.data == front + MembersText(members)
    modifies str
    ensures str.data == front + MembersText(members + FlagMembers(key, rc, flags))
    ensures flagWritten == (rc.sendFlags && KnownFlags(flags))
  {
    flagWritten := false;
    if rc.sendFlags && flags != 0 {
      str.Append(",");
      WriteKey(str, key);
      str.Append("[");
      flagWritten := WriteFlags(flags, str);
      str.Append("]");
      NextArray(front, members, key, Strings(FlagNames(flags)));
    } else {
      assert members + [] == members;
    }
  }

  method WriteKeywordArray(str: StrBuf, key: PlainName, rc: RenderContext, keywords: Option<seq<CString>>,
                           ghost front: string, ghost members: seq<Member>)
    returns (keywordWritten: bool)
    requires members != [] && str.data == front + MembersText(members)
    modifies str
    ensures str.data == front + MembersText(members + KeywordMembers(key, rc, keywords))
    ensures keywordWritten == AnyMatching(keywords, rc.keywordPrefix)
  {
    keywordWritten := false;
    if keywords.Some? && keywords.value != [] {
      str.Append(",");
      WriteKey(str, key);
      str.Append("[");
      keywordWritten := WriteKeywords(keywords.value, rc.keywordPrefix, str);
      str.Append("]");
      NextArray(front, members, key, Strings(Matching(keywords.value, rc.keywordPrefix)));
    } else {
      assert members + [] == members;
    }
  }

  /** NULL stands for an event that is not sent. */
  method WriteFlagsEvent(user: CString, userdbJson: Option<string>, rc: RenderContext, name: CString, msg: Message,
                         flags: bv32, keywords: Option<seq<CString>>,
                         flagsOld: bv32, keywordsOld: Option<seq<CString>>)
    returns (r: StrBuf?)
    ensures r != null <==> PublishesFlags(rc, flags, keywords, flagsOld, keywordsOld)
    ensures r != null ==> fresh(r)
    ensures r != null ==>
      r.data == Head(user, userdbJson, msg.mailbox, name)
        + MembersText(UidMembers(msg) + FlagsEventMembers(rc, flags, keywords, flagsOld, keywordsOld)) + "}"
  {
    ghost var front := Head(user, userdbJson, msg.mailbox, name);
    ghost var members := UidMembers(msg);
    var str := WriteMsgPrefix(user, userdbJson, name, msg);
    var newFlag := WriteFlagArray(str, KEY_FLAGS, rc, flags, front, members);
    members := members + FlagMembers(KEY_FLAGS, rc, flags);
    var oldFlag := WriteFlagArray(str, KEY_OLD_FLAGS, rc, flagsOld, front, members);
    members := members + FlagMembers(KEY_OLD_FLAGS, rc, flagsOld);
    var newKeyword := WriteKeywordArray(str, KEY_KEYWORDS, rc, keywords, front, members);
    members := members + KeywordMembers(KEY_KEYWORDS, rc, keywords);
    var oldKeyword := WriteKeywordArray(str, KEY_OLD_KEYWORDS, rc, keywordsOld, front, members);
    members := members + KeywordMembers(KEY_OLD_KEYWORDS, rc, keywordsOld);
    str.Append("}");
    FourParts(UidMembers(msg), FlagMembers(KEY_FLAGS, rc, flags), FlagMembers(KEY_OLD_FLAGS, rc, flagsOld),
              KeywordMembers(KEY_KEYWORDS, rc, keywords), KeywordMembers(KEY_OLD_KEYWORDS, rc, keywordsOld));
    if newFlag || oldFlag || newKeyword || oldKeyword {
      return str;
    }
    return null;
  }

  lemma FourParts(head: seq<Member>, a: seq<Member>, b: seq<Member>, c: seq<Member>, d: seq<Member>)
    ensures head + a + b + c + d == head + (a + b + c + d)
    ensures head + a + b + c + d == head + (a + (b + (c + d)))
  {
  }

  // ---- write_event_messagenew, write_event_messageappend

  method WriteHeaders(str: StrBuf, h: Headers, ghost front: string, ghost members: seq<Member>)
    requires members != [] && str.data == front + MembersText(members)
    modifies str
    ensures str.data == front + MembersText(members + HeaderMembers(h)) + "}"
  {
    NextOptional(str, KEY_FROM, h.from, front, members);
    ghost var a := members + Optional(KEY_FROM, h.from);
    NextOptional(str, KEY_SNIPPET, h.snippet, front, a);
    ghost var b := a + Optional(KEY_SNIPPET, h.snippet);
    NextOptional(str, KEY_SUBJECT, h.subject, front, b);
    ghost var c := b + Optional(KEY_SUBJECT, h.subject);
    NextOptional(str, KEY_TO, h.to, front, c);
    str.Append("}");
    FourParts(members, Optional(KEY_FROM, h.from), Optional(KEY_SNIPPET, h.snippet),
              Optional(KEY_SUBJECT, h.subject), Optional(KEY_TO, h.to));
  }

  method WriteEventMessageNew(user: CString, userdbJson: Option<string>, name: CString, msg: Message,
                              date: int, dateText: PlainName, headers: Headers)
    returns (str: StrBuf)
    ensures fresh(str)
    ensures str.data == Head(user, userdbJson, msg.mailbox, name)
      + MembersText(UidMembers(msg) + (DateMembers(date, dateText) + HeaderMembers(headers))) + "}"
  {
    ghost var front := Head(user, userdbJson, msg.mailbox, name);
    ghost var head := UidMembers(msg);
    str := WriteMsgPrefix(user, userdbJson, name, msg);
    if date != -1 {
      NextName(str, KEY_DATE, dateText, front, head);
    } else {
      assert head + [] == head;
    }
    WriteHeaders(str, headers, front, head + DateMembers(date, dateText));
    ThreeParts(head, DateMembers(date, dateText), HeaderMembers(headers));
  }

  lemma ThreeParts(a: seq<Member>, b: seq<Member>, c: seq<Member>)
    ensures a + b + c == a + (b + c)
  {
  }

  method WriteEventMessageAppend(user: CString, userdbJson: Option<string>, name: CString, msg: Message,
                                 headers: Headers)
    returns (str: StrBuf)
    ensures fresh(str)
    ensures str.data == Head(user, userdbJson, msg.mailbox, name) + MembersText(UidMembers(msg) + HeaderMembers(headers)) + "}"
  {
    str := WriteMsgPrefix(user, userdbJson, name, msg);
    WriteHeaders(str, headers, Head(user, userdbJson, msg.mailbox, name), UidMembers(msg));
  }

  // ---- push_notification_driver_kafka_render_msg

  method RenderMsg(user: CString, userdbJson: Option<string>, rc: RenderContext, msg: Message, ev: MsgEvent)
    returns (str: StrBuf?)
    requires MsgWellTyped(ev)
    ensures str != null ==> fresh(str)
    ensures MsgText(rc, userdbJson, user, msg, ev) == if str == null then None else Some(str.data)
  {
    if ev.name == FLAGS_SET {
      str := WriteFlagsEvent(user, userdbJson, rc, ev.name, msg, ev.data.flags, ev.data.keywords, 0, None);
    } else if ev.name == FLAGS_CLEAR {
      str := WriteFlagsEvent(user, userdbJson, rc, ev.name, msg, ev.data.flags, ev.data.keywords,
                             ev.data.flagsOld, ev.data.keywordsOld);
    } else if ev.name == MESSAGE_NEW {
      str := WriteEventMessageNew(user, userdbJson, ev.name, msg, ev.data.date, ev.data.dateText, ev.data.headers);
    } else if ev.name == MESSAGE_APPEND {
      str := WriteEventMessageAppend(user, userdbJson, ev.name, msg, ev.data.headers);
    } else {
      str := WriteOther(user, userdbJson, ev.name, msg);
    }
  }

  lemma NoMore(members: seq<Member>)
    ensures members + [] == members
  {
  }

  /** Any other event is its prefix and the closing brace. */
  method WriteOther(user: CString, userdbJson: Option<string>, name: CString, msg: Message) returns (str: StrBuf)
    ensures fresh(str)
    ensures str.data == Head(user, userdbJson, msg.mailbox, name) + MembersText(UidMembers(msg) + []) + "}"
  {
    str := WriteMsgPrefix(user, userdbJson, name, msg);
    str.Append("}");
    NoMore(UidMembers(msg));
  }

  // ---- push_notification_driver_kafka_render_mbox

  method WriteMboxHead(user: CString, mailbox: CString) returns (str: StrBuf)
    ensures fresh(str) && str.data == "{" + MembersText(MboxHead(user, mailbox))
  {
    str := new StrBuf();
    str.Append("{");
    assert str.data == "{";
    WriteString(str, KEY_USER, user);
    ghost var first := [UserMember(user)];
    NextString(str, KEY_MAILBOX, mailbox, "{", first);
    assert first + [Member(KEY_MAILBOX, String(mailbox))] == MboxHead(user, mailbox);
  }

  /** The document up to the event name, whose quote is still open. */
  method WriteMboxPrefix(user: CString, mailbox: CString, name: CString) returns (str: StrBuf)
    ensures fresh(str)
    ensures str.data == "{" + MembersText(MboxHead(user, mailbox)) + "," + (Quoted(KEY_EVENT) + ":") + "\"" + name
  {
    str := WriteMboxHead(user, mailbox);
    str.Append(",");
    WriteKey(str, KEY_EVENT);
    str.Append("\"");
    str.Append(name);
  }

  /** The event name is left open: each branch below closes its quote, or does not. */
  method RenderMbox(user: CString, mailbox: CString, ev: MboxEvent) returns (str: StrBuf)
    requires MboxWellTyped(ev)
    ensures fresh(str) && str.data == MboxText(user, mailbox, ev)
  {
    ghost var head := MboxHead(user, mailbox);
    ghost var event := [Member(KEY_EVENT, String(ev.name))];
    str := WriteMboxPrefix(user, mailbox, ev.name);
    if ev.name == MAILBOX_CREATE {
      str.Append("\"");
      CloseEvent(head, ev.name);
      NextNumber(str, KEY_UIDVALIDITY, ev.data.uidValidity, "{", head + event);
    } else if ev.name == MAILBOX_RENAME {
      str.Append("\"");
      CloseEvent(head, ev.name);
      NextString(str, KEY_OLD_MAILBOX, ev.data.oldMbox, "{", head + event);
    } else {
      LeaveEventOpen("{" + MembersText(head) + ",", ev.name);
    }
    str.Append("}");
  }

  /** Both branches that know the event close the quote of its name first. */
  lemma CloseEvent(head: seq<Member>, name: PlainName)
    requires head != []
    ensures "{" + MembersText(head) + "," + (Quoted(KEY_EVENT) + ":") + "\"" + name + "\""
         == "{" + MembersText(head + [Member(KEY_EVENT, String(name))])
  {
    EscapePlain(name);
    StringPieces("{" + MembersText(head) + ",", Quoted(KEY_EVENT) + ":", name);
    AddMember("{", head, Member(KEY_EVENT, String(name)));
  }

  lemma LeaveEventOpen(before: string, name: CString)
    ensures before + (Quoted(KEY_EVENT) + ":") + "\"" + name + "}" == before + UnclosedEvent(name)
  {
  }

  // ---- The userdb fragment of push_notification_driver_kafka_init

  method BuildUserdbJson(fields: seq<CString>, lookup: CString -> Option<CString>) returns (json: Option<string>)
    ensures json == UserdbFragment(UserdbMembers(fields, lookup))
  {
    var str := new StrBuf();
    WriteKey(str, KEY_USERDB);
    str.Append("{");
    var i := WriteFields(fields, lookup, str);
    str.Append("}");
    str.Append(",");
    if i > 0 {
      ghost var members := UserdbMembers(fields, lookup);
      FragmentPieces(Quoted(KEY_USERDB) + ":", MembersText(members));
      assert Text(Object(members)) == "{" + MembersText(members) + "}";
      assert str.data == MemberText(Member(KEY_USERDB, Object(members))) + ",";
      return Some(str.data);
    }
    return None;
  }

  /** The fields that have a value; `i` counts them and places the commas. */
  method WriteFields(fields: seq<CString>, lookup: CString -> Option<CString>, str: StrBuf) returns (i: nat)
    modifies str
    ensures str.data == old(str.data) + MembersText(UserdbMembers(fields, lookup))
    ensures i == |UserdbMembers(fields, lookup)|
  {
    i := 0;
    ghost var front := str.data;
    assert front + MembersText([]) == front;
    for k := 0 to |fields|
      invariant str.data == front + MembersText(UserdbMembers(fields[..k], lookup))
      invariant i == |UserdbMembers(fields[..k], lookup)|
    {
      ghost var members := UserdbMembers(fields[..k], lookup);
      assert fields[..k + 1][..k] == fields[..k];
      var value := lookup(fields[k]);
      if value.Some? {
        WriteField(str, i > 0, fields[k], value.value, front, members);
        i := i + 1;
        assert UserdbMembers(fields[..k + 1], lookup) == members + [Member(fields[k], String(value.value))];
      } else {
        assert UserdbMembers(fields[..k + 1], lookup) == members;
      }
    }
    assert fields[..|fields|] == fields;
  }

  /** `"field":"value"`, both escaped, after a comma unless it is the first. */
  method WriteField(str: StrBuf, further: bool, field: CString, value: CString,
                    ghost front: string, ghost members: seq<Member>)
    requires further == (members != []) && str.data == front + MembersText(members)
    modifies str
    ensures str.data == front + MembersText(members + [Member(field, String(value))])
  {
    if further {
      str.Append(",");
      AddMember(front, members, Member(field, String(value)));
    } else {
      assert members + [Member(field, String(value))] == [Member(field, String(value))];
      assert front + "" == front;
    }
    WriteEscapedPair(str, field, value);
  }

  method WriteEscapedPair(str: StrBuf, field: CString, value: CString)
    modifies str
    ensures str.data == old(str.data) + MemberText(Member(field, String(value)))
  {
    str.Append("\"");
    str.Append(Escape(field));
    str.Append("\":");
    KeyPieces(old(str.data), Escape(field));
    str.Append("\"");
    str.Append(Escape(value));
    str.Append("\"");
    StringPieces(old(str.data), Quoted(field) + ":", Escape(value));
  }

  lemma FragmentPieces(key: string, inner: string)
    ensures "" + key + "{" + inner + "}" + "," == key + ("{" + inner + "}") + ","
  {
  }
}
