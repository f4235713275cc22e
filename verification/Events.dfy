/** What the plugin means to publish: the member list of each event, and when it stays silent. */
module Events {
  import opened Options
  import opened Json

  const FLAGS_SET: PlainName := "FlagsSet"
  const FLAGS_CLEAR: PlainName := "FlagsClear"
  const MESSAGE_NEW: PlainName := "MessageNew"
  const MESSAGE_APPEND: PlainName := "MessageAppend"
  const MAILBOX_CREATE: PlainName := "MailboxCreate"
  const MAILBOX_RENAME: PlainName := "MailboxRename"

  // ---- Keys of the published members

  const KEY_USER: PlainName := "user"
  const KEY_USERDB: PlainName := "userdb"
  const KEY_MAILBOX: PlainName := "mailbox"
  const KEY_EVENT: PlainName := "event"
  const KEY_UIDVALIDITY: PlainName := "uidvalidity"
  const KEY_UID: PlainName := "uid"
  const KEY_OLD_MAILBOX: PlainName := "oldMailbox"
  const KEY_FLAGS: PlainName := "flags"
  const KEY_OLD_FLAGS: PlainName := "oldFlags"
  const KEY_KEYWORDS: PlainName := "keywords"
  const KEY_OLD_KEYWORDS: PlainName := "oldKeywords"
  const KEY_DATE: PlainName := "date"
  const KEY_FROM: PlainName := "from"
  const KEY_SNIPPET: PlainName := "snippet"
  const KEY_SUBJECT: PlainName := "subject"
  const KEY_TO: PlainName := "to"

  // ---- Events as the notification framework hands them over

  datatype RenderContext = RenderContext(sendFlags: bool, keywordPrefix: Option<CString>)

  /** The payload behind `event->data`; an absent keyword array is a NULL or uncreated one. */
  datatype MsgData =
    | FlagsSetData(flags: bv32, keywords: Option<seq<CString>>)
    | FlagsClearData(flags: bv32, keywords: Option<seq<CString>>,
                     flagsOld: bv32, keywordsOld: Option<seq<CString>>)
    | MessageNewData(date: int, dateText: PlainName, headers: Headers)
    | MessageAppendData(headers: Headers)
    | NoMsgData

  datatype Headers = Headers(from: Option<CString>, snippet: Option<CString>,
                             subject: Option<CString>, to: Option<CString>)

  datatype MsgEvent = MsgEvent(name: CString, data: MsgData)

  datatype Message = Message(mailbox: CString, uidValidity: uint32, uid: uint32)

  /** The name decides how the source casts `event->data`. */
  predicate MsgWellTyped(ev: MsgEvent) {
    && (ev.name == FLAGS_SET <==> ev.data.FlagsSetData?)
    && (ev.name == FLAGS_CLEAR <==> ev.data.FlagsClearData?)
    && (ev.name == MESSAGE_NEW <==> ev.data.MessageNewData?)
    && (ev.name == MESSAGE_APPEND <==> ev.data.MessageAppendData?)
  }

  datatype MboxData = MailboxCreateData(uidValidity: uint32) | MailboxRenameData(oldMbox: CString) | NoMboxData

  datatype MboxEvent = MboxEvent(name: CString, data: MboxData)

  predicate MboxWellTyped(ev: MboxEvent) {
    && (ev.name == MAILBOX_CREATE <==> ev.data.MailboxCreateData?)
    && (ev.name == MAILBOX_RENAME <==> ev.data.MailboxRenameData?)
  }

  // ---- System flags

  const MAIL_ANSWERED: bv32 := 0x01
  const MAIL_FLAGGED: bv32 := 0x02
  const MAIL_DELETED: bv32 := 0x04
  const MAIL_SEEN: bv32 := 0x08
  const MAIL_DRAFT: bv32 := 0x10

  /** Does the word hold any flag the plugin knows how to name? */
  predicate KnownFlags(flags: bv32) {
    flags & 0x1F != 0
  }

  function SystemFlag(name: string): string {
    "\\" + name
  }

  function AddFlag(names: seq<string>, present: bool, name: string): seq<string> {
    if present then names + [SystemFlag(name)] else names
  }

  /** The names of the known flags of the word, in the order they are published. */
  function FlagNames(flags: bv32): seq<string> {
    var answered := AddFlag([], flags & MAIL_ANSWERED != 0, "Answered");
    var flagged := AddFlag(answered, flags & MAIL_FLAGGED != 0, "Flagged");
    var deleted := AddFlag(flagged, flags & MAIL_DELETED != 0, "Deleted");
    var seen := AddFlag(deleted, flags & MAIL_SEEN != 0, "Seen");
    AddFlag(seen, flags & MAIL_DRAFT != 0, "Draft")
  }

  lemma FlagNamesNonEmpty(flags: bv32)
    ensures FlagNames(flags) != [] <==> KnownFlags(flags)
  {
  }

  function Pick(present: bool, name: string): seq<string> {
    if present then [name] else []
  }

  lemma SystemFlagNames()
    ensures SystemFlag("Answered") == "\\Answered" && SystemFlag("Flagged") == "\\Flagged"
    ensures SystemFlag("Deleted") == "\\Deleted" && SystemFlag("Seen") == "\\Seen"
    ensures SystemFlag("Draft") == "\\Draft"
  {
  }

  /** Each bit has its name, and the names come in this order. */
  lemma FlagNamesInOrder(flags: bv32)
    ensures FlagNames(flags) ==
            Pick(flags & 0x01 != 0, "\\Answered") + Pick(flags & 0x02 != 0, "\\Flagged")
            + Pick(flags & 0x04 != 0, "\\Deleted") + Pick(flags & 0x08 != 0, "\\Seen")
            + Pick(flags & 0x10 != 0, "\\Draft")
  {
    SystemFlagNames();
  }

  lemma PickedMore(names: seq<string>, present: bool, name: string)
    requires name !in names && forall i, j | 0 <= i < j < |names| :: names[i] != names[j]
    ensures var all := names + Pick(present, name);
            && (forall i, j | 0 <= i < j < |all| :: all[i] != all[j])
            && forall n :: n in all <==> n in names || (present && n == name)
  {
  }

  predicate Distinct(a: string, b: string, c: string, d: string, e: string) {
    a != b && a != c && a != d && a != e && b != c && b != d && b != e && c != d && c != e && d != e
  }

  /** Five different names, each picked or not. */
  lemma PickedFive(pa: bool, pb: bool, pc: bool, pd: bool, pe: bool,
                   a: string, b: string, c: string, d: string, e: string)
    requires Distinct(a, b, c, d, e)
    ensures var all := Pick(pa, a) + Pick(pb, b) + Pick(pc, c) + Pick(pd, d) + Pick(pe, e);
            && (forall i, j | 0 <= i < j < |all| :: all[i] != all[j])
            && forall n :: n in all <==>
                 (pa && n == a) || (pb && n == b) || (pc && n == c) || (pd && n == d) || (pe && n == e)
  {
    var one := Pick(pa, a);
    PickedMore(one, pb, b);
    PickedMore(one + Pick(pb, b), pc, c);
    PickedMore(one + Pick(pb, b) + Pick(pc, c), pd, d);
    PickedMore(one + Pick(pb, b) + Pick(pc, c) + Pick(pd, d), pe, e);
  }

  lemma FlagNamesDiffer()
    ensures Distinct("\\Answered", "\\Flagged", "\\Deleted", "\\Seen", "\\Draft")
  {
    assert "\\Answered"[1] == 'A' && "\\Flagged"[1] == 'F' && "\\Seen"[1] == 'S';
    assert |"\\Deleted"| != |"\\Draft"|;
  }

  /** A name is published exactly when its bit is set, and only once; no other name is. */
  lemma FlagNamesExactly(flags: bv32)
    ensures forall n :: n in FlagNames(flags) <==>
              || (flags & 0x01 != 0 && n == "\\Answered") || (flags & 0x02 != 0 && n == "\\Flagged")
              || (flags & 0x04 != 0 && n == "\\Deleted") || (flags & 0x08 != 0 && n == "\\Seen")
              || (flags & 0x10 != 0 && n == "\\Draft")
    ensures forall i, j | 0 <= i < j < |FlagNames(flags)| :: FlagNames(flags)[i] != FlagNames(flags)[j]
  {
    FlagNamesInOrder(flags);
    FlagNamesDiffer();
    PickedFive(flags & 0x01 != 0, flags & 0x02 != 0, flags & 0x04 != 0, flags & 0x08 != 0, flags & 0x10 != 0,
               "\\Answered", "\\Flagged", "\\Deleted", "\\Seen", "\\Draft");
  }

  lemma FlagByFlag(flags: bv32)
    ensures "\\Answered" in FlagNames(flags) <==> flags & 0x01 != 0
    ensures "\\Flagged" in FlagNames(flags) <==> flags & 0x02 != 0
    ensures "\\Deleted" in FlagNames(flags) <==> flags & 0x04 != 0
    ensures "\\Seen" in FlagNames(flags) <==> flags & 0x08 != 0
    ensures "\\Draft" in FlagNames(flags) <==> flags & 0x10 != 0
  {
    FlagNamesExactly(flags);
    FlagNamesDiffer();
  }

  // ---- Keywords

  predicate HasPrefix(s: Option<CString>, prefix: Option<CString>) {
    s.Some? && prefix.Some? && prefix.value <= s.value
  }

  /** The keywords with the configured prefix, in order. */
  function Matching(keywords: seq<CString>, prefix: Option<CString>): seq<string> {
    if keywords == [] then []
    else
      var last := keywords[|keywords| - 1];
      Matching(keywords[..|keywords| - 1], prefix) + (if HasPrefix(Some(last), prefix) then [last] else [])
  }

  predicate AnyMatching(keywords: Option<seq<CString>>, prefix: Option<CString>) {
    keywords.Some? && exists k | k in keywords.value :: HasPrefix(Some(k), prefix)
  }

  lemma {:induction false} MatchingNonEmpty(keywords: seq<CString>, prefix: Option<CString>)
    ensures Matching(keywords, prefix) != [] <==> AnyMatching(Some(keywords), prefix)
  {
    if keywords != [] {
      var n := |keywords| - 1;
      MatchingNonEmpty(keywords[..n], prefix);
      assert keywords == keywords[..n] + [keywords[n]];
    }
  }

  /** The filter keeps the order of the list: on one keyword it is the prefix test, and it
      distributes over concatenation. */
  lemma {:induction false} MatchingIsFilter(a: seq<CString>, b: seq<CString>, k: CString, prefix: Option<CString>)
    ensures Matching(a + b, prefix) == Matching(a, prefix) + Matching(b, prefix)
    ensures Matching([k], prefix) == if prefix.Some? && prefix.value <= k then [k] else []
  {
    if b == [] {
      assert a + b == a;
    } else {
      var n := |b| - 1;
      assert (a + b)[..|a + b| - 1] == a + b[..n];
      MatchingIsFilter(a, b[..n], k, prefix);
    }
  }

  // ---- Message events

  function Optional(key: string, value: Option<CString>): seq<Member> {
    if value.None? then [] else [Member(key, String(value.value))]
  }

  function HeaderMembers(h: Headers): seq<Member> {
    Optional(KEY_FROM, h.from)
    + (Optional(KEY_SNIPPET, h.snippet) + (Optional(KEY_SUBJECT, h.subject) + Optional(KEY_TO, h.to)))
  }

  /** A date of -1 means that there is none. */
  function DateMembers(date: int, dateText: PlainName): seq<Member> {
    if date != -1 then [Member(KEY_DATE, String(dateText))] else []
  }

  function FlagMembers(key: string, rc: RenderContext, flags: bv32): seq<Member> {
    if rc.sendFlags && flags != 0 then [Member(key, Array(Strings(FlagNames(flags))))] else []
  }

  function KeywordMembers(key: string, rc: RenderContext, keywords: Option<seq<CString>>): seq<Member> {
    if keywords.Some? && keywords.value != []
    then [Member(key, Array(Strings(Matching(keywords.value, rc.keywordPrefix))))]
    else []
  }

  function FlagsEventMembers(rc: RenderContext, flags: bv32, keywords: Option<seq<CString>>,
                             flagsOld: bv32, keywordsOld: Option<seq<CString>>): seq<Member> {
    FlagMembers(KEY_FLAGS, rc, flags) + FlagMembers(KEY_OLD_FLAGS, rc, flagsOld)
    + KeywordMembers(KEY_KEYWORDS, rc, keywords) + KeywordMembers(KEY_OLD_KEYWORDS, rc, keywordsOld)
  }

  function DataMembers(rc: RenderContext, data: MsgData): seq<Member> {
    match data
    case FlagsSetData(flags, keywords) => FlagsEventMembers(rc, flags, keywords, 0, None)
    case FlagsClearData(flags, keywords, flagsOld, keywordsOld) =>
      FlagsEventMembers(rc, flags, keywords, flagsOld, keywordsOld)
    case MessageNewData(date, dateText, headers) =>
      DateMembers(date, dateText) + HeaderMembers(headers)
    case MessageAppendData(headers) => HeaderMembers(headers)
    case NoMsgData => []
  }

  function HeadMembers(mailbox: CString, name: CString): seq<Member> {
    [Member(KEY_MAILBOX, String(mailbox)), Member(KEY_EVENT, String(name))]
  }

  function UidMembers(msg: Message): seq<Member> {
    [Member(KEY_UIDVALIDITY, Number(Nat(msg.uidValidity))), Member(KEY_UID, Number(Nat(msg.uid)))]
  }

  /** Everything after the event name. */
  function TailMembers(rc: RenderContext, msg: Message, data: MsgData): seq<Member> {
    UidMembers(msg) + DataMembers(rc, data)
  }

  function UserMember(user: CString): Member {
    Member(KEY_USER, String(user))
  }

  function UserdbMember(userdb: seq<Member>): seq<Member> {
    if userdb == [] then [] else [Member(KEY_USERDB, Object(userdb))]
  }

  /** The members of a published message event, in order. */
  function MsgMembers(rc: RenderContext, userdb: seq<Member>, user: CString, msg: Message, ev: MsgEvent)
    : seq<Member>
  {
    [UserMember(user)] + UserdbMember(userdb) + (HeadMembers(msg.mailbox, ev.name) + TailMembers(rc, msg, ev.data))
  }

  predicate PublishesFlags(rc: RenderContext, flags: bv32, keywords: Option<seq<CString>>,
                           flagsOld: bv32, keywordsOld: Option<seq<CString>>) {
    || (rc.sendFlags && (KnownFlags(flags) || KnownFlags(flagsOld)))
    || AnyMatching(keywords, rc.keywordPrefix)
    || AnyMatching(keywordsOld, rc.keywordPrefix)
  }

  /** Only an event about flags can be suppressed, and only when it has nothing to say. */
  predicate Published(rc: RenderContext, data: MsgData) {
    match data
    case FlagsSetData(flags, keywords) => PublishesFlags(rc, flags, keywords, 0, None)
    case FlagsClearData(flags, keywords, flagsOld, keywordsOld) =>
      PublishesFlags(rc, flags, keywords, flagsOld, keywordsOld)
    case _ => true
  }

  // ---- The userdb fragment

  /** The fields that have a value, with it, in the configured order. */
  function UserdbMembers(fields: seq<CString>, lookup: CString -> Option<CString>): seq<Member> {
    if fields == [] then []
    else
      var n := |fields| - 1;
      UserdbMembers(fields[..n], lookup) + Optional(fields[n], lookup(fields[n]))
  }

  /** The text kept in `ctx->userdb_json`: a whole member and the comma after it. */
  function UserdbFragment(userdb: seq<Member>): Option<string> {
    if userdb == [] then None else Some(MemberText(Member(KEY_USERDB, Object(userdb))) + ",")
  }

  /** The members follow the order of the fields: one field gives its value or nothing, and lists of
      fields may be split anywhere. */
  lemma {:induction false} UserdbMembersInOrder(a: seq<CString>, b: seq<CString>, f: CString,
                                                lookup: CString -> Option<CString>)
    ensures UserdbMembers(a + b, lookup) == UserdbMembers(a, lookup) + UserdbMembers(b, lookup)
    ensures UserdbMembers([f], lookup)
         == match lookup(f) { case None => [] case Some(value) => [Member(f, String(value))] }
  {
    if b == [] {
      assert a + b == a;
    } else {
      var n := |b| - 1;
      assert (a + b)[..|a + b| - 1] == a + b[..n];
      UserdbMembersInOrder(a, b[..n], f, lookup);
    }
  }

  /** No field has a value exactly when there is nothing to keep. */
  lemma {:induction false} UserdbMembersPresent(fields: seq<CString>, lookup: CString -> Option<CString>)
    ensures UserdbMembers(fields, lookup) == [] <==> forall f | f in fields :: lookup(f).None?
    ensures PrintableMembers(UserdbMembers(fields, lookup))
  {
    if fields != [] {
      var n := |fields| - 1;
      var last := Optional(fields[n], lookup(fields[n]));
      UserdbMembersPresent(fields[..n], lookup);
      assert forall f :: f in fields <==> f in fields[..n] || f == fields[n];
      assert last == [] <==> lookup(fields[n]).None?;
      assert PrintableMembers(last);
      assert UserdbMembers(fields, lookup) == UserdbMembers(fields[..n], lookup) + last;
    }
  }

  // ---- The bytes of a message event

  /** The opening of the document, with the fragment spliced in as it is. */
  function Front(user: CString, userdbJson: Option<string>): string {
    "{" + MemberText(UserMember(user)) + "," + userdbJson.GetOr("")
  }

  /** A string copied between quotes without escaping. */
  function CopiedMember(key: PlainName, chars: string): string {
    Quoted(key) + ":" + ("\"" + chars + "\"")
  }

  /** The document up to the comma after the event name, which the source does not escape. */
  function Head(user: CString, userdbJson: Option<string>, mailbox: CString, name: CString): string {
    Front(user, userdbJson) + MemberText(Member(KEY_MAILBOX, String(mailbox))) + ","
    + CopiedMember(KEY_EVENT, name) + ","
  }

  function MsgText(rc: RenderContext, userdbJson: Option<string>, user: CString, msg: Message, ev: MsgEvent)
    : Option<string>
  {
    if Published(rc, ev.data)
    then Some(Head(user, userdbJson, msg.mailbox, ev.name) + MembersText(TailMembers(rc, msg, ev.data)) + "}")
    else None
  }

  // ---- Mailbox events

  function MboxHead(user: CString, mailbox: CString): seq<Member> {
    [UserMember(user), Member(KEY_MAILBOX, String(mailbox))]
  }

  /** The members a mailbox event should have; only two kinds have a payload. */
  function MboxMembers(user: CString, mailbox: CString, ev: MboxEvent): seq<Member> {
    MboxHead(user, mailbox) + [Member(KEY_EVENT, String(ev.name))]
    + match ev.data {
        case MailboxCreateData(uidValidity) => [Member(KEY_UIDVALIDITY, Number(Nat(uidValidity)))]
        case MailboxRenameData(oldMbox) => [Member(KEY_OLD_MAILBOX, String(oldMbox))]
        case NoMboxData => []
      }
  }

  function UnclosedEvent(name: CString): string {
    Quoted(KEY_EVENT) + ":" + "\"" + name + "}"
  }

  /** The bytes of a mailbox event. Without a payload the event name is left without its closing quote. */
  function MboxText(user: CString, mailbox: CString, ev: MboxEvent): string {
    if ev.data.NoMboxData?
    then "{" + MembersText(MboxHead(user, mailbox)) + "," + UnclosedEvent(ev.name)
    else Text(Object(MboxMembers(user, mailbox, ev)))
  }
}
