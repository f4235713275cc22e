/** What a consumer finds in a published document: for each kind of event, every member by its place,
    its key and the field of the event it comes from. */
module EventDocuments {
  import opened Options
  import opened Json
  import opened JsonParser
  import opened Events
  import opened EventTheorems

  function Shown(present: bool, key: string, value: Value): seq<Member> {
    if present then [Member(key, value)] else []
  }

  function FlagsValue(flags: bv32): Value {
    Array(Strings(FlagNames(flags)))
  }

  function KeywordsValue(keywords: Option<seq<CString>>, prefix: Option<CString>): Value {
    Array(Strings(Matching(keywords.GetOr([]), prefix)))
  }

  predicate Given(keywords: Option<seq<CString>>) {
    keywords.Some? && keywords.value != []
  }

  /** Some keyword of the list has the configured prefix. */
  predicate Chosen(keywords: Option<seq<CString>>, prefix: Option<CString>) {
    exists k | k in keywords.GetOr([]) :: prefix.Some? && prefix.value <= k
  }

  function Header(key: string, value: Option<CString>): seq<Member> {
    Shown(value.Some?, key, String(value.GetOr("")))
  }

  /** The members every message event starts with. */
  function Opening(userdb: seq<Member>, user: CString, msg: Message, name: CString): seq<Member> {
    [Member("user", String(user))] + Shown(userdb != [], "userdb", Object(userdb))
    + [Member("mailbox", String(msg.mailbox)), Member("event", String(name)),
       Member("uidvalidity", Number(Nat(msg.uidValidity))), Member("uid", Number(Nat(msg.uid)))]
  }

  lemma OpeningMembers(rc: RenderContext, userdb: seq<Member>, user: CString, msg: Message, ev: MsgEvent)
    ensures MsgMembers(rc, userdb, user, msg, ev) == Opening(userdb, user, msg, ev.name) + DataMembers(rc, ev.data)
  {
    var head, uids := HeadMembers(msg.mailbox, ev.name), UidMembers(msg);
    Pieces([UserMember(user)] + UserdbMember(userdb), head, uids, DataMembers(rc, ev.data));
    assert head + uids == [head[0], head[1], uids[0], uids[1]];
  }

  lemma Pieces(front: seq<Member>, head: seq<Member>, uids: seq<Member>, payload: seq<Member>)
    ensures front + (head + (uids + payload)) == front + (head + uids) + payload
  {
  }

  /** Where user, userdb, mailbox, event name and the two numbers are found. */
  lemma MsgOpening(rc: RenderContext, userdb: seq<Member>, user: CString, msg: Message, ev: MsgEvent)
    requires Plain(ev.name) && PrintableMembers(userdb) && Published(rc, ev.data)
    ensures Parse(MsgText(rc, UserdbFragment(userdb), user, msg, ev).value) ==
            Some(Object([Member("user", String(user))]
                        + (if userdb == [] then [] else [Member("userdb", Object(userdb))])
                        + [Member("mailbox", String(msg.mailbox)), Member("event", String(ev.name)),
                           Member("uidvalidity", Number(Nat(msg.uidValidity))), Member("uid", Number(Nat(msg.uid)))]
                        + DataMembers(rc, ev.data)))
  {
    MsgRoundTrip(rc, userdb, user, msg, ev);
    OpeningMembers(rc, userdb, user, msg, ev);
  }

  lemma ReadsAs(rc: RenderContext, userdb: seq<Member>, user: CString, msg: Message, ev: MsgEvent, payload: seq<Member>)
    requires Plain(ev.name) && PrintableMembers(userdb) && Published(rc, ev.data) && DataMembers(rc, ev.data) == payload
    ensures Parse(MsgText(rc, UserdbFragment(userdb), user, msg, ev).value)
         == Some(Object(Opening(userdb, user, msg, ev.name) + payload))
  {
    MsgRoundTrip(rc, userdb, user, msg, ev);
    OpeningMembers(rc, userdb, user, msg, ev);
  }

  lemma ChosenIsMatching(keywords: Option<seq<CString>>, prefix: Option<CString>)
    ensures Chosen(keywords, prefix) <==> AnyMatching(keywords, prefix)
  {
  }

  lemma FlagsSetMembers(rc: RenderContext, d: MsgData)
    requires d.FlagsSetData?
    ensures DataMembers(rc, d)
         == Shown(rc.sendFlags && d.flags != 0, "flags", FlagsValue(d.flags))
            + Shown(Given(d.keywords), "keywords", KeywordsValue(d.keywords, rc.keywordPrefix))
  {
  }

  lemma NothingOld(prefix: Option<CString>)
    ensures !KnownFlags(0) && !AnyMatching(None, prefix)
  {
  }

  /** When a FlagsSet event is published. */
  lemma FlagsSetPublished(rc: RenderContext, userdb: seq<Member>, user: CString, msg: Message, ev: MsgEvent)
    requires ev.data.FlagsSetData?
    ensures MsgText(rc, UserdbFragment(userdb), user, msg, ev).Some? <==>
            (rc.sendFlags && ev.data.flags & 0x1F != 0) || Chosen(ev.data.keywords, rc.keywordPrefix)
  {
    NothingOld(rc.keywordPrefix);
    ChosenIsMatching(ev.data.keywords, rc.keywordPrefix);
  }

  /** What is read after the opening of a FlagsSet event. */
  lemma FlagsSetDocument(rc: RenderContext, userdb: seq<Member>, user: CString, msg: Message, ev: MsgEvent)
    requires MsgWellTyped(ev) && ev.name == "FlagsSet" && PrintableMembers(userdb) && Published(rc, ev.data)
    ensures ev.data.FlagsSetData?
    ensures var d, text := ev.data, MsgText(rc, UserdbFragment(userdb), user, msg, ev).value;
            Parse(text) == Some(Object(Opening(userdb, user, msg, ev.name)
              + (Shown(rc.sendFlags && d.flags != 0, "flags", FlagsValue(d.flags))
                 + Shown(Given(d.keywords), "keywords", KeywordsValue(d.keywords, rc.keywordPrefix)))))
  {
    FlagsSetMembers(rc, ev.data);
    ReadsAs(rc, userdb, user, msg, ev, DataMembers(rc, ev.data));
  }

  lemma FlagsClearMembers(rc: RenderContext, d: MsgData)
    requires d.FlagsClearData?
    ensures DataMembers(rc, d)
         == Shown(rc.sendFlags && d.flags != 0, "flags", FlagsValue(d.flags))
            + Shown(rc.sendFlags && d.flagsOld != 0, "oldFlags", FlagsValue(d.flagsOld))
            + Shown(Given(d.keywords), "keywords", KeywordsValue(d.keywords, rc.keywordPrefix))
            + Shown(Given(d.keywordsOld), "oldKeywords", KeywordsValue(d.keywordsOld, rc.keywordPrefix))
  {
  }

  /** When a FlagsClear event is published. */
  lemma FlagsClearPublished(rc: RenderContext, userdb: seq<Member>, user: CString, msg: Message, ev: MsgEvent)
    requires ev.data.FlagsClearData?
    ensures MsgText(rc, UserdbFragment(userdb), user, msg, ev).Some? <==>
            || (rc.sendFlags && (ev.data.flags & 0x1F != 0 || ev.data.flagsOld & 0x1F != 0))
            || Chosen(ev.data.keywords, rc.keywordPrefix) || Chosen(ev.data.keywordsOld, rc.keywordPrefix)
  {
    ChosenIsMatching(ev.data.keywords, rc.keywordPrefix);
    ChosenIsMatching(ev.data.keywordsOld, rc.keywordPrefix);
  }

  /** A FlagsClear event: the cleared flags and keywords come first, each followed by the old ones. */
  lemma FlagsClearDocument(rc: RenderContext, userdb: seq<Member>, user: CString, msg: Message, ev: MsgEvent)
    requires MsgWellTyped(ev) && ev.name == "FlagsClear" && PrintableMembers(userdb) && Published(rc, ev.data)
    ensures ev.data.FlagsClearData?
    ensures var d, text := ev.data, MsgText(rc, UserdbFragment(userdb), user, msg, ev).value;
            Parse(text) == Some(Object(Opening(userdb, user, msg, ev.name)
              + (Shown(rc.sendFlags && d.flags != 0, "flags", FlagsValue(d.flags))
                 + Shown(rc.sendFlags && d.flagsOld != 0, "oldFlags", FlagsValue(d.flagsOld))
                 + Shown(Given(d.keywords), "keywords", KeywordsValue(d.keywords, rc.keywordPrefix))
                 + Shown(Given(d.keywordsOld), "oldKeywords", KeywordsValue(d.keywordsOld, rc.keywordPrefix)))))
  {
    FlagsClearMembers(rc, ev.data);
    ReadsAs(rc, userdb, user, msg, ev, DataMembers(rc, ev.data));
  }

  lemma HeaderFields(h: Headers)
    ensures HeaderMembers(h)
         == Header("from", h.from) + (Header("snippet", h.snippet) + (Header("subject", h.subject) + Header("to", h.to)))
  {
  }

  /** A MessageNew event: its date unless that is -1, and the headers it has. */
  lemma MessageNewDocument(rc: RenderContext, userdb: seq<Member>, user: CString, msg: Message, ev: MsgEvent)
    requires MsgWellTyped(ev) && ev.name == "MessageNew" && PrintableMembers(userdb)
    ensures ev.data.MessageNewData?
    ensures var h, text := ev.data.headers, MsgText(rc, UserdbFragment(userdb), user, msg, ev);
            text.Some? && Parse(text.value) == Some(Object(Opening(userdb, user, msg, ev.name)
              + (Shown(ev.data.date != -1, "date", String(ev.data.dateText))
                 + (Header("from", h.from)
                    + (Header("snippet", h.snippet) + (Header("subject", h.subject) + Header("to", h.to)))))))
  {
    HeaderFields(ev.data.headers);
    ReadsAs(rc, userdb, user, msg, ev, DataMembers(rc, ev.data));
  }

  /** A MessageAppend event: the headers it has. */
  lemma MessageAppendDocument(rc: RenderContext, userdb: seq<Member>, user: CString, msg: Message, ev: MsgEvent)
    requires MsgWellTyped(ev) && ev.name == "MessageAppend" && PrintableMembers(userdb)
    ensures ev.data.MessageAppendData?
    ensures var h, text := ev.data.headers, MsgText(rc, UserdbFragment(userdb), user, msg, ev);
            text.Some? && Parse(text.value) == Some(Object(Opening(userdb, user, msg, ev.name)
              + (Header("from", h.from)
                 + (Header("snippet", h.snippet) + (Header("subject", h.subject) + Header("to", h.to))))))
  {
    HeaderFields(ev.data.headers);
    ReadsAs(rc, userdb, user, msg, ev, DataMembers(rc, ev.data));
  }

  /** Any other message event is its opening. */
  lemma OtherDocument(rc: RenderContext, userdb: seq<Member>, user: CString, msg: Message, ev: MsgEvent)
    requires MsgWellTyped(ev) && Plain(ev.name) && PrintableMembers(userdb)
    requires ev.name != "FlagsSet" && ev.name != "FlagsClear" && ev.name != "MessageNew" && ev.name != "MessageAppend"
    ensures var text := MsgText(rc, UserdbFragment(userdb), user, msg, ev);
            text.Some? && Parse(text.value) == Some(Object(Opening(userdb, user, msg, ev.name)))
  {
    ReadsAs(rc, userdb, user, msg, ev, []);
    assert Opening(userdb, user, msg, ev.name) + [] == Opening(userdb, user, msg, ev.name);
  }

  /** The two mailbox events that are JSON. */
  lemma MboxDocument(user: CString, mailbox: CString, ev: MboxEvent)
    requires MboxWellTyped(ev)
    ensures ev.name == "MailboxCreate" ==>
              ev.data.MailboxCreateData? && Parse(MboxText(user, mailbox, ev)) ==
              Some(Object([Member("user", String(user)), Member("mailbox", String(mailbox)),
                           Member("event", String(ev.name)),
                           Member("uidvalidity", Number(Nat(ev.data.uidValidity)))]))
    ensures ev.name == "MailboxRename" ==>
              ev.data.MailboxRenameData? && Parse(MboxText(user, mailbox, ev)) ==
              Some(Object([Member("user", String(user)), Member("mailbox", String(mailbox)),
                           Member("event", String(ev.name)), Member("oldMailbox", String(ev.data.oldMbox))]))
  {
    MboxParsesExactly(user, mailbox, ev);
    var members := MboxMembers(user, mailbox, ev);
    assert ev.data.MailboxCreateData? || ev.data.MailboxRenameData? ==>
             members == [members[0], members[1], members[2], members[3]];
  }
}
