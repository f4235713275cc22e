/** From the arguments of init to what is sent: the topic, the rendering, the userdb and the bound on
    retries are those the contexts were initialised with, over whole runs. */
module DriverConfig {
  import opened Options
  import opened Json
  import opened Events
  import opened EventTheorems
  import opened Kafka
  import opened DriverSpec
  import opened DriverInvariant
  import opened DriverSend
  import opened DriverTheorems

  // ---- The arguments of a context

  /** What each live context was initialised with. */
  function InitArgsOf(ops: seq<Op>): (r: map<nat, InitArgs>)
    ensures r.Keys == Live(ops)
  {
    if ops == [] then map[]
    else
      var before := InitArgsOf(ops[..|ops| - 1]);
      match ops[|ops| - 1]
      case OpInit(id, args) => before[id := args]
      case OpDeinit(id) => before - {id}
      case _ => before
  }

  /** The configured userdb fields that have a value. */
  function UserdbOf(args: InitArgs): seq<Member> {
    UserdbMembers(args.userdbFields.GetOr([]), args.lookup)
  }

  lemma {:induction false} ConfigsAsGiven(ops: seq<Op>)
    requires Legal(ops)
    ensures forall c | c in Configs(ops) ::
              var config, args := Configs(ops)[c], InitArgsOf(ops)[c];
              && config.topic == args.topic && config.enabled == args.enabled
              && config.rc == RenderContext(args.sendFlags, Some(args.keywordPrefix))
              && config.userdbJson == UserdbFragment(UserdbOf(args))
  {
    if ops != [] {
      ConfigsAsGiven(ops[..|ops| - 1]);
    }
  }

  /** A live context has the configuration of its init, and its topic object bears that topic's name. */
  lemma ContextAsGiven(o: Oracle, ops: seq<Op>, id: nat)
    requires Legal(ops) && id in InitArgsOf(ops)
    ensures id in Run(o, ops).contexts
    ensures var w, args := Run(o, ops), InitArgsOf(ops)[id];
            var config := w.contexts[id].config;
            && config.topic == args.topic && config.enabled == args.enabled
            && config.rc == RenderContext(args.sendFlags, Some(args.keywordPrefix))
            && config.userdbJson == UserdbFragment(UserdbOf(args))
            && (w.contexts[id].rkt.Some? ==>
                  LiveTopic(w.lib, w.contexts[id].rkt.value) && w.lib.topics[w.contexts[id].rkt.value].name == args.topic)
  {
    ConfigsAgree(o, ops);
    ConfigsAsGiven(ops);
    RunInv(o, ops);
    assert OwnsTopic(Run(o, ops), id);
  }

  // ---- What is accepted

  /** The message is one of those the operation asks to send, for a context with these arguments. */
  ghost predicate SentFor(args: InitArgs, op: Op, r: Record)
    requires Sends(op)
  {
    && r.topic == args.topic && r.key == op.user
    && match op
       case OpMbox(_, user, mailbox, events) =>
         exists ev | ev in events.GetOr([]) :: r.payload == MboxText(user, mailbox, ev)
       case OpMsg(_, user, msg, events) =>
         exists ev | ev in events.GetOr([]) ::
           MsgText(RenderContext(args.sendFlags, Some(args.keywordPrefix)), UserdbFragment(UserdbOf(args)), user, msg, ev)
             == Some(r.payload)
  }

  /** Operation `k` sends it, for the context as it was initialised last before. */
  ghost predicate SentAt(ops: seq<Op>, k: nat, r: Record) {
    && k < |ops| && Sends(ops[k]) && ops[k].id in InitArgsOf(ops[..k])
    && SentFor(InitArgsOf(ops[..k])[ops[k].id], ops[k], r)
  }

  lemma {:induction false} RecordsFrom(topic: CString, key: CString, payloads: seq<Option<string>>, r: Record)
    requires r in Records(topic, key, payloads)
    ensures r.topic == topic && r.key == key && Some(r.payload) in payloads
  {
    var n := |payloads| - 1;
    if r in Records(topic, key, payloads[..n]) {
      RecordsFrom(topic, key, payloads[..n], r);
    }
  }

  lemma OpRecordSent(ops: seq<Op>, op: Op, r: Record)
    requires Legal(ops) && LegalOp(FrameOf(ops), op) && r in OpRecords(Configs(ops), op)
    ensures Sends(op) && op.id in InitArgsOf(ops) && SentFor(InitArgsOf(ops)[op.id], op, r)
  {
    var config := Configs(ops)[op.id];
    var payloads := Payloads(config, op);
    ConfigsAsGiven(ops);
    RecordsFrom(config.topic, op.user, payloads, r);
    var i :| 0 <= i < |payloads| && payloads[i] == Some(r.payload);
    match op
    case OpMbox(_, _, _, events) => assert events.value[i] in events.GetOr([]);
    case OpMsg(_, _, _, events) => assert events.value[i] in events.GetOr([]);
  }

  lemma SentLater(before: seq<Op>, op: Op, k: nat, r: Record)
    requires SentAt(before, k, r)
    ensures SentAt(before + [op], k, r)
  {
    assert (before + [op])[..k] == before[..k];
  }

  lemma SentLast(before: seq<Op>, op: Op, r: Record)
    requires Legal(before) && LegalOp(FrameOf(before), op) && r in OpRecords(Configs(before), op)
    ensures SentAt(before + [op], |before|, r)
  {
    OpRecordSent(before, op, r);
    assert (before + [op])[..|before|] == before;
  }

  lemma AttemptsGrow(before: seq<Op>, op: Op)
    requires Legal(before) && LegalOp(FrameOf(before), op)
    ensures Legal(before + [op]) && Attempts(before + [op]) == Attempts(before) + OpRecords(Configs(before), op)
  {
    assert (before + [op])[..|before|] == before;
  }

  lemma {:induction false} AttemptSent(ops: seq<Op>, r: Record) returns (k: nat)
    requires Legal(ops) && r in Attempts(ops)
    ensures SentAt(ops, k, r)
  {
    var before, op := ops[..|ops| - 1], ops[|ops| - 1];
    assert ops == before + [op];
    AttemptsGrow(before, op);
    if r in Attempts(before) {
      k := AttemptSent(before, r);
      SentLater(before, op, k, r);
    } else {
      k := |before|;
      SentLast(before, op, r);
    }
  }

  /** Whatever the library does: each accepted message went to the topic its context was initialised
      with, keyed by the user, and is an event rendered under that context's switches and userdb. */
  lemma AcceptedAsConfigured(o: Oracle, ops: seq<Op>, r: Record)
    requires Legal(ops) && r in Run(o, ops).lib.accepted
    ensures exists k :: SentAt(ops, k, r)
  {
    AcceptedLog(o, ops);
    SelectSubset(Attempts(ops), RunVerdicts(o, ops));
    var k := AttemptSent(ops, r);
  }

  /** As a consumer reads it: a message event with plain names shows the userdb of its context. */
  lemma SentShowsUserdb(args: InitArgs, op: Op, r: Record)
    requires op.OpMsg? && SentFor(args, op, r) && forall ev | ev in op.events.GetOr([]) :: Plain(ev.name)
    ensures exists ev | ev in op.events.GetOr([]) ::
              ReadsWithPrefix(r.payload, DocumentedPrefix(op.user, UserdbOf(args), op.msg.mailbox, ev.name))
  {
    var rc := RenderContext(args.sendFlags, Some(args.keywordPrefix));
    var ev :| ev in op.events.GetOr([])
              && MsgText(rc, UserdbFragment(UserdbOf(args)), op.user, op.msg, ev) == Some(r.payload);
    UserdbMembersPresent(args.userdbFields.GetOr([]), args.lookup);
    MsgPrefixExactly(rc, UserdbOf(args), op.user, op.msg, ev);
  }

  // ---- The global

  function GlobalArgsAfter(live: set<nat>, before: Option<InitArgs>, op: Op): Option<InitArgs> {
    match op
    case OpInit(_, args) => if before.Some? then before else Some(args)
    case OpCleanup => if live == {} then None else before
    case _ => before
  }

  /** The arguments of the init that set the current global up. */
  function GlobalArgs(ops: seq<Op>): Option<InitArgs> {
    if ops == [] then None
    else GlobalArgsAfter(Live(ops[..|ops| - 1]), GlobalArgs(ops[..|ops| - 1]), ops[|ops| - 1])
  }

  /** The retry bound for a setting that may be missing, no number, or negative. */
  function Bound(args: InitArgs): nat {
    match args.maxRetries
    case None => 0
    case Some(n) => if n < 0 then 0 else n
  }

  ghost predicate GlobalFrom(global: Option<Global>, args: Option<InitArgs>) {
    match args
    case None => global.None?
    case Some(a) =>
      global.Some? && global.value.brokers == a.brokers && global.value.debug == a.debug
      && global.value.user == a.user && global.value.maxRetries == Bound(a)
  }

  /** The settings of a global, apart from what changes with its producer. */
  predicate SameSettings(w: World, w': World) {
    && w.global.Some? && w'.global.Some?
    && w'.global.value == w.global.value.(rk := w'.global.value.rk, rkc := w'.global.value.rkc)
  }

  lemma SendKeepsSettings(w: World, o: Oracle, id: nat, payload: string, key: CString)
    requires Inv(w) && id in w.contexts
    ensures SameSettings(w, Send(w, o, id, payload, key))
  {
    SendEffect(w, o, id, payload, key);
  }

  lemma {:induction false} SendAllKeepsSettings(w: World, o: Oracle, id: nat, key: CString, payloads: seq<Option<string>>)
    requires Inv(w) && id in w.contexts
    ensures SameSettings(w, SendAll(w, o, id, key, payloads))
  {
    if payloads != [] {
      var n := |payloads| - 1;
      SendAllKeepsSettings(w, o, id, key, payloads[..n]);
      SendAllInv(w, o, id, key, payloads[..n]);
      if payloads[n].Some? {
        SendKeepsSettings(SendAll(w, o, id, key, payloads[..n]), o, id, payloads[n].value, key);
      }
    }
  }

  lemma QuietGlobal(w: World, o: Oracle, op: Op, args: Option<InitArgs>)
    requires Inv(w) && Applicable(w.contexts.Keys, op) && !Sends(op) && GlobalFrom(w.global, args)
    ensures GlobalFrom(Step(w, o, op).global, GlobalArgsAfter(w.contexts.Keys, args, op))
  {
    match op
    case OpDeinit(id) => DeinitTopicInv(w, id);
    case OpCleanup =>
      if w.global.Some? {
        assert w.global.value.refcount <= 0 <==> w.contexts.Keys == {};
      }
    case _ =>
  }

  lemma StepGlobal(w: World, o: Oracle, op: Op, args: Option<InitArgs>)
    requires Inv(w) && Applicable(w.contexts.Keys, op) && GlobalFrom(w.global, args)
    ensures GlobalFrom(Step(w, o, op).global, GlobalArgsAfter(w.contexts.Keys, args, op))
  {
    if Sends(op) {
      StepSends(w, o, op);
      SendAllKeepsSettings(w, o, op.id, op.user, Payloads(w.contexts[op.id].config, op));
    } else {
      QuietGlobal(w, o, op, args);
    }
  }

  lemma {:induction false} RunGlobal(o: Oracle, ops: seq<Op>)
    requires Legal(ops)
    ensures GlobalFrom(Run(o, ops).global, GlobalArgs(ops))
  {
    if ops != [] {
      var n := |ops| - 1;
      RunGlobal(o, ops[..n]);
      RunInv(o, ops[..n]);
      StepGlobal(Run(o, ops[..n]), o, ops[n], GlobalArgs(ops[..n]));
    }
  }

  /** Brokers, debug level, user and retry bound are those of the first init since the last cleanup that
      found no context; later contexts change none of them. */
  lemma GlobalAsGiven(o: Oracle, ops: seq<Op>)
    requires Legal(ops)
    ensures Run(o, ops).global.Some? <==> GlobalArgs(ops).Some?
    ensures GlobalArgs(ops).Some? ==>
              var g, args := Run(o, ops).global.value, GlobalArgs(ops).value;
              && g.brokers == args.brokers && g.debug == args.debug && g.user == args.user
              && g.maxRetries
                   == (if args.maxRetries.Some? && args.maxRetries.value >= 0 then args.maxRetries.value else 0)
  {
    RunGlobal(o, ops);
  }

  /** A send after a run tries once more than the configured bound at most, exactly that often while the
      queue stays full, and succeeds if and only if an attempt within the bound does. */
  lemma RetriesAsConfigured(o: Oracle, ops: seq<Op>, id: nat, payload: string, key: CString)
    requires Legal(ops) && id in Live(ops) && InitTopic(Run(o, ops), o, id).contexts[id].rkt.Some?
    ensures GlobalArgs(ops).Some?
    ensures var bound := Bound(GlobalArgs(ops).value);
            var l, l' := InitTopic(Run(o, ops), o, id).lib, Send(Run(o, ops), o, id, payload, key).lib;
            && l.clock < l'.clock <= l.clock + bound + 1
            && ((forall j | 0 <= j <= bound :: Answer(o, l.clock, j).QueueFull?) ==>
                  l'.clock == l.clock + bound + 1 && l'.polls == l.polls + bound + 2)
            && (|l'.accepted| > |l.accepted| <==> Enqueues(o, l.clock, bound))
  {
    var w := Run(o, ops);
    RunInv(o, ops);
    GlobalAsGiven(o, ops);
    SendExact(w, o, id, payload, key);
    InitTopicAccepted(w, o, id);
    BoundUsed(w, o, id);
  }

  lemma BoundUsed(w: World, o: Oracle, id: nat)
    requires Inv(w) && id in w.contexts
    ensures w.global.Some? && MaxRetries(InitTopic(w, o, id)) == w.global.value.maxRetries
  {
    if w.global.value.rk.None? {
      InitGlobalEffect(w, o);
    }
  }
}
