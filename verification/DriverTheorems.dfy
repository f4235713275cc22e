/** Properties of whole runs of the driver. */
module DriverTheorems {
  import opened Options
  import opened Json
  import opened JsonParser
  import opened Events
  import opened EventTheorems
  import opened Kafka
  import opened DriverSpec
  import opened DriverInvariant
  import opened DriverHistory
  import opened DriverSend

  // ---- Safety

  /** In every run: no dead handle, NULL global or failed assertion is ever reached, the reference
      count is the number of live contexts, and at most one producer is live. Of the two faults the code
      does reach, one takes a failing rd_kafka_new, the other a user who is gone. */
  lemma RunIsSafe(o: Oracle, ops: seq<Op>)
    requires Legal(ops)
    ensures var w := Run(o, ops);
            && w.lib.faults <= {NullLogLevel, DanglingUser}
            && (NullLogLevel in w.lib.faults <==> exists s :: s in w.setUps && Outcome(o, s.time).Destroyed?)
            && (DanglingUser in w.lib.faults <==> exists s :: s in w.setUps && !s.userLive)
            && (Live(ops) != {} ==> w.global.Some?)
            && (w.global.Some? ==> w.global.value.refcount == |Live(ops)|)
            && (forall p, q :: LiveProducer(w.lib, p) && LiveProducer(w.lib, q) ==> p == q)
            && (forall c | c in w.contexts && w.contexts[c].rkt.Some? ::
                  LiveTopic(w.lib, w.contexts[c].rkt.value)
                  && LiveProducer(w.lib, w.lib.topics[w.contexts[c].rkt.value].producer))
  {
    RunInv(o, ops);
    RunHistory(o, ops);
    var w := Run(o, ops);
    forall c | c in w.contexts && w.contexts[c].rkt.Some?
      ensures LiveTopic(w.lib, w.contexts[c].rkt.value)
           && LiveProducer(w.lib, w.lib.topics[w.contexts[c].rkt.value].producer)
    {
      assert OwnsTopic(w, c);
    }
  }

  /** Once every context is gone and cleanup has run, every topic and every producer that was ever
      created has been destroyed exactly once, and the next init starts from nothing. */
  lemma EverythingDestroyedOnce(o: Oracle, ops: seq<Op>)
    requires Legal(ops) && Live(ops) == {}
    ensures var w := Cleanup(Run(o, ops));
            && w.global.None?
            && (forall p | 0 <= p < |w.lib.producers| :: w.lib.producers[p].destroyed == 1)
            && (forall t | 0 <= t < |w.lib.topics| :: w.lib.topics[t].destroyed == 1)
  {
    RunInv(o, ops);
    assert Run(o, ops).contexts.Keys == {};
    assert Run(o, ops).contexts == map[];
    CleanupInv(Run(o, ops));
    assert forall t :: !Held(Cleanup(Run(o, ops)), t);
  }

  // ---- The log

  function Configs(ops: seq<Op>): (r: map<nat, Config>)
    ensures r.Keys == Live(ops)
  {
    if ops == [] then map[]
    else
      var before := Configs(ops[..|ops| - 1]);
      match ops[|ops| - 1]
      case OpInit(id, args) => before[id := ConfigOf(args)]
      case OpDeinit(id) => before - {id}
      case _ => before
  }

  function Records(topic: CString, key: CString, payloads: seq<Option<string>>): seq<Record> {
    if payloads == [] then []
    else
      var n := |payloads| - 1;
      Records(topic, key, payloads[..n]) + if payloads[n].Some? then [Record(topic, payloads[n].value, key)] else []
  }

  /** The messages an operation asks to send: its non-NULL renderings, under the topic of its context
      and the user name of its transaction. */
  function OpRecords(configs: map<nat, Config>, op: Op): seq<Record>
    requires Applicable(configs.Keys, op)
  {
    if Sends(op) then Records(configs[op.id].topic, op.user, Payloads(configs[op.id], op)) else []
  }

  /** Everything a run asks to send, in order. The library has no say in it. */
  function Attempts(ops: seq<Op>): seq<Record>
    requires Legal(ops)
  {
    if ops == [] then []
    else Attempts(ops[..|ops| - 1]) + OpRecords(Configs(ops[..|ops| - 1]), ops[|ops| - 1])
  }

  /** Which of the messages of one operation are taken. */
  ghost function Verdicts(w: World, o: Oracle, id: nat, key: CString, payloads: seq<Option<string>>): seq<bool>
    requires id in w.contexts
  {
    if payloads == [] then []
    else
      var n := |payloads| - 1;
      Verdicts(w, o, id, key, payloads[..n])
      + if payloads[n].Some? then [Sendable(SendAll(w, o, id, key, payloads[..n]), o, id)] else []
  }

  ghost function OpVerdicts(w: World, o: Oracle, op: Op): seq<bool>
    requires Applicable(w.contexts.Keys, op)
  {
    if Sends(op) then Verdicts(w, o, op.id, op.user, Payloads(w.contexts[op.id].config, op)) else []
  }

  ghost function RunVerdicts(o: Oracle, ops: seq<Op>): seq<bool>
    requires Legal(ops)
  {
    if ops == [] then []
    else RunVerdicts(o, ops[..|ops| - 1]) + OpVerdicts(Run(o, ops[..|ops| - 1]), o, ops[|ops| - 1])
  }

  /** The records with a positive verdict, in order. */
  function Select(records: seq<Record>, verdicts: seq<bool>): seq<Record>
    requires |records| == |verdicts|
  {
    if records == [] then []
    else
      var n := |records| - 1;
      Select(records[..n], verdicts[..n]) + if verdicts[n] then [records[n]] else []
  }

  lemma {:induction false} SelectConcat(a: seq<Record>, b: seq<Record>, va: seq<bool>, vb: seq<bool>)
    requires |a| == |va| && |b| == |vb|
    ensures Select(a + b, va + vb) == Select(a, va) + Select(b, vb)
  {
    if b == [] {
      assert a + b == a && va + vb == va;
    } else {
      var n := |b| - 1;
      assert (a + b)[..|a + b| - 1] == a + b[..n];
      assert (va + vb)[..|a + b| - 1] == va + vb[..n];
      SelectConcat(a, b[..n], va, vb[..n]);
    }
  }

  lemma {:induction false} SendAllKeepsConfigs(w: World, o: Oracle, id: nat, key: CString, payloads: seq<Option<string>>)
    requires Inv(w) && id in w.contexts
    ensures forall c | c in w.contexts :: SendAll(w, o, id, key, payloads).contexts[c].config == w.contexts[c].config
  {
    if payloads != [] {
      var n := |payloads| - 1;
      SendAllKeepsConfigs(w, o, id, key, payloads[..n]);
      SendAllInv(w, o, id, key, payloads[..n]);
      if payloads[n].Some? {
        SendLogs(SendAll(w, o, id, key, payloads[..n]), o, id, payloads[n].value, key);
      }
    }
  }

  lemma {:induction false} SendAllLogs(w: World, o: Oracle, id: nat, key: CString, payloads: seq<Option<string>>)
    requires Inv(w) && id in w.contexts
    ensures var records := Records(w.contexts[id].config.topic, key, payloads);
            var verdicts := Verdicts(w, o, id, key, payloads);
            var w' := SendAll(w, o, id, key, payloads);
            && |records| == |verdicts|
            && w'.lib.accepted == w.lib.accepted + Select(records, verdicts)
  {
    if payloads != [] {
      var n := |payloads| - 1;
      var w1 := SendAll(w, o, id, key, payloads[..n]);
      SendAllKeepsConfigs(w, o, id, key, payloads[..n]);
      SendAllLogs(w, o, id, key, payloads[..n]);
      SendAllInv(w, o, id, key, payloads[..n]);
      var topic := w.contexts[id].config.topic;
      var rs, vs := Records(topic, key, payloads[..n]), Verdicts(w, o, id, key, payloads[..n]);
      if payloads[n].Some? {
        var r, v := Record(topic, payloads[n].value, key), Sendable(w1, o, id);
        SendLogs(w1, o, id, payloads[n].value, key);
        SelectSnoc(rs, vs, r, v);
        Append3(w.lib.accepted, Select(rs, vs), if v then [r] else []);
      } else {
        assert Records(topic, key, payloads) == rs && Verdicts(w, o, id, key, payloads) == vs;
      }
    }
  }

  lemma SelectSnoc(rs: seq<Record>, vs: seq<bool>, r: Record, v: bool)
    requires |rs| == |vs|
    ensures Select(rs + [r], vs + [v]) == Select(rs, vs) + if v then [r] else []
  {
  }

  lemma Append3(a: seq<Record>, b: seq<Record>, c: seq<Record>)
    ensures a + b + c == a + (b + c)
  {
  }

  lemma StepLogs(w: World, o: Oracle, op: Op, configs: map<nat, Config>)
    requires Inv(w) && Applicable(w.contexts.Keys, op)
    requires configs.Keys == w.contexts.Keys && forall c | c in configs :: w.contexts[c].config == configs[c]
    ensures |OpRecords(configs, op)| == |OpVerdicts(w, o, op)|
    ensures Step(w, o, op).lib.accepted == w.lib.accepted + Select(OpRecords(configs, op), OpVerdicts(w, o, op))
  {
    if Sends(op) {
      StepSends(w, o, op);
      SendAllLogs(w, o, op.id, op.user, Payloads(configs[op.id], op));
    } else {
      QuietStep(w, o, op);
    }
  }

  lemma QuietStep(w: World, o: Oracle, op: Op)
    requires Applicable(w.contexts.Keys, op) && !Sends(op)
    ensures Step(w, o, op).lib.accepted == w.lib.accepted + []
  {
    assert w.lib.accepted + [] == w.lib.accepted;
    if op.OpDeinit? {
      assert DeinitTopic(w, op.id).lib.accepted == w.lib.accepted;
    }
  }

  lemma QuietKeepsConfigs(w: World, o: Oracle, op: Op)
    requires Applicable(w.contexts.Keys, op) && !Sends(op)
    ensures forall c | c in w.contexts && c in Step(w, o, op).contexts ::
              Step(w, o, op).contexts[c].config == w.contexts[c].config
  {
    if op.OpDeinit? {
      assert forall c | c in w.contexts :: DeinitTopic(w, op.id).contexts[c].config == w.contexts[c].config;
    }
  }

  lemma StepKeepsConfigs(w: World, o: Oracle, op: Op)
    requires Inv(w) && Applicable(w.contexts.Keys, op)
    ensures forall c | c in w.contexts && c in Step(w, o, op).contexts ::
              Step(w, o, op).contexts[c].config == w.contexts[c].config
  {
    if Sends(op) {
      StepSends(w, o, op);
      SendAllKeepsConfigs(w, o, op.id, op.user, Payloads(w.contexts[op.id].config, op));
    } else {
      QuietKeepsConfigs(w, o, op);
    }
  }

  lemma {:induction false} ConfigsAgree(o: Oracle, ops: seq<Op>)
    requires Legal(ops)
    ensures forall c | c in Run(o, ops).contexts ::
              c in Configs(ops) && Run(o, ops).contexts[c].config == Configs(ops)[c]
  {
    if ops != [] {
      ConfigsAgree(o, ops[..|ops| - 1]);
      RunInv(o, ops[..|ops| - 1]);
      StepKeepsConfigs(Run(o, ops[..|ops| - 1]), o, ops[|ops| - 1]);
    }
  }

  /** End to end: what the producer accepted over a run is what the run asked to send, in order, minus
      the messages whose send gave up; nothing is accepted twice. */
  lemma {:induction false} AcceptedLog(o: Oracle, ops: seq<Op>)
    requires Legal(ops)
    ensures |Attempts(ops)| == |RunVerdicts(o, ops)|
    ensures Run(o, ops).lib.accepted == Select(Attempts(ops), RunVerdicts(o, ops))
    ensures forall c | c in Run(o, ops).contexts :: Run(o, ops).contexts[c].config == Configs(ops)[c]
  {
    ConfigsAgree(o, ops);
    if ops != [] {
      var n := |ops| - 1;
      var w, configs := Run(o, ops[..n]), Configs(ops[..n]);
      AcceptedLog(o, ops[..n]);
      RunInv(o, ops[..n]);
      StepLogs(w, o, ops[n], configs);
      SelectConcat(Attempts(ops[..n]), OpRecords(configs, ops[n]), RunVerdicts(o, ops[..n]), OpVerdicts(w, o, ops[n]));
    }
  }

  /** The part of a log that belongs to one topic. */
  function OnTopic(records: seq<Record>, topic: CString): seq<Record> {
    if records == [] then []
    else
      var n := |records| - 1;
      OnTopic(records[..n], topic) + if records[n].topic == topic then [records[n]] else []
  }

  function VerdictsOnTopic(records: seq<Record>, verdicts: seq<bool>, topic: CString): (r: seq<bool>)
    requires |records| == |verdicts|
    ensures |r| == |OnTopic(records, topic)|
  {
    if records == [] then []
    else
      var n := |records| - 1;
      VerdictsOnTopic(records[..n], verdicts[..n], topic) + if records[n].topic == topic then [verdicts[n]] else []
  }

  lemma {:induction false} OnTopicSnoc(records: seq<Record>, r: Record, topic: CString)
    ensures OnTopic(records + [r], topic) == OnTopic(records, topic) + if r.topic == topic then [r] else []
  {
  }

  /** Selecting and looking at one topic commute: each topic sees its own messages in their order. */
  lemma {:induction false} TopicLog(records: seq<Record>, verdicts: seq<bool>, topic: CString)
    requires |records| == |verdicts|
    ensures OnTopic(Select(records, verdicts), topic)
         == Select(OnTopic(records, topic), VerdictsOnTopic(records, verdicts, topic))
  {
    if records != [] {
      var n := |records| - 1;
      var r, v := records[n], verdicts[n];
      var rs, vs := OnTopic(records[..n], topic), VerdictsOnTopic(records[..n], verdicts[..n], topic);
      TopicLog(records[..n], verdicts[..n], topic);
      if v {
        OnTopicSnoc(Select(records[..n], verdicts[..n]), r, topic);
      } else {
        assert Select(records, verdicts) == Select(records[..n], verdicts[..n]);
      }
      if r.topic == topic {
        SelectSnoc(rs, vs, r, v);
      } else {
        assert OnTopic(records, topic) == rs && VerdictsOnTopic(records, verdicts, topic) == vs;
      }
    }
  }

  /** The log of one topic over a run: its own messages, in order, minus those given up. */
  lemma AcceptedOnTopic(o: Oracle, ops: seq<Op>, topic: CString)
    requires Legal(ops)
    ensures |Attempts(ops)| == |RunVerdicts(o, ops)|
    ensures OnTopic(Run(o, ops).lib.accepted, topic)
         == Select(OnTopic(Attempts(ops), topic), VerdictsOnTopic(Attempts(ops), RunVerdicts(o, ops), topic))
  {
    AcceptedLog(o, ops);
    TopicLog(Attempts(ops), RunVerdicts(o, ops), topic);
  }

  lemma {:induction false} SelectSubset(records: seq<Record>, verdicts: seq<bool>)
    requires |records| == |verdicts|
    ensures forall r | r in Select(records, verdicts) :: r in records
    ensures (forall i | 0 <= i < |verdicts| :: verdicts[i]) ==> Select(records, verdicts) == records
  {
    if records != [] {
      var n := |records| - 1;
      SelectSubset(records[..n], verdicts[..n]);
      assert records == records[..n] + [records[n]];
    }
  }

  // ---- A library that never fails

  ghost predicate Reliable(o: Oracle) {
    forall t: nat :: o(t).confAccepts && o(t).newSucceeds && o(t).topicSucceeds && o(t).produce.Enqueued?
  }

  lemma ReliableSend(w: World, o: Oracle, id: nat)
    requires Inv(w) && id in w.contexts && Reliable(o)
    ensures Sendable(w, o, id)
  {
    ReliableProducer(w, o);
    InitGlobalInv(w, o);
    if w.global.value.rk.None? {
      InitGlobalEffect(w, o);
    }
    var w1 := InitTopic(w, o, id);
    assert w1.contexts[id].rkt.Some?;
    assert Answer(o, w1.lib.clock, 0).Enqueued?;
  }

  lemma ReliableProducer(w: World, o: Oracle)
    requires Inv(w) && w.global.Some? && Reliable(o)
    ensures Rk(InitGlobal(w, o)).Some?
  {
    if w.global.value.rk.None? {
      InitGlobalEffect(w, o);
    }
  }

  lemma {:induction false} ReliableVerdicts(w: World, o: Oracle, id: nat, key: CString, payloads: seq<Option<string>>)
    requires Inv(w) && id in w.contexts && Reliable(o)
    ensures forall i | 0 <= i < |Verdicts(w, o, id, key, payloads)| :: Verdicts(w, o, id, key, payloads)[i]
  {
    if payloads != [] {
      var n := |payloads| - 1;
      ReliableVerdicts(w, o, id, key, payloads[..n]);
      SendAllInv(w, o, id, key, payloads[..n]);
      ReliableSend(SendAll(w, o, id, key, payloads[..n]), o, id);
    }
  }

  /** With a library that never fails, everything a run asks to send is accepted. */
  lemma {:induction false} ReliableRunVerdicts(o: Oracle, ops: seq<Op>)
    requires Legal(ops) && Reliable(o)
    ensures forall i | 0 <= i < |RunVerdicts(o, ops)| :: RunVerdicts(o, ops)[i]
  {
    if ops != [] {
      var n := |ops| - 1;
      ReliableRunVerdicts(o, ops[..n]);
      RunInv(o, ops[..n]);
      if Sends(ops[n]) {
        var w := Run(o, ops[..n]);
        ReliableVerdicts(w, o, ops[n].id, ops[n].user, Payloads(w.contexts[ops[n].id].config, ops[n]));
      }
    }
  }

  lemma NothingLost(o: Oracle, ops: seq<Op>)
    requires Legal(ops) && Reliable(o)
    ensures Run(o, ops).lib.accepted == Attempts(ops)
  {
    AcceptedLog(o, ops);
    ReliableRunVerdicts(o, ops);
    SelectSubset(Attempts(ops), RunVerdicts(o, ops));
  }

  // ---- What is on the topic

  /** A JSON object whose first member is the user the message is keyed by. */
  ghost predicate KeyedJson(r: Record) {
    exists members: seq<Member> | members != [] ::
      Parse(r.payload) == Some(Object(members)) && members[0] == UserMember(r.key)
  }

  /** Every message event has a name that needs no escaping, every mailbox event is a creation or a rename. */
  predicate ReadableEvents(op: Op) {
    match op
    case OpMsg(_, _, _, Some(events)) => forall ev | ev in events :: Plain(ev.name)
    case OpMbox(_, _, _, Some(events)) =>
      forall ev | ev in events :: MboxWellTyped(ev) && (ev.name == MAILBOX_CREATE || ev.name == MAILBOX_RENAME)
    case _ => true
  }

  ghost predicate GoodFragment(json: Option<string>) {
    exists userdb: seq<Member> | PrintableMembers(userdb) :: json == UserdbFragment(userdb)
  }

  lemma {:induction false} ConfigsGood(ops: seq<Op>)
    requires Legal(ops)
    ensures forall c | c in Configs(ops) :: GoodFragment(Configs(ops)[c].userdbJson)
  {
    if ops != [] {
      ConfigsGood(ops[..|ops| - 1]);
      var op := ops[|ops| - 1];
      if op.OpInit? {
        if op.args.userdbFields.Some? {
          UserdbMembersPresent(op.args.userdbFields.value, op.args.lookup);
        } else {
          assert UserdbFragment([]) == None;
        }
      }
    }
  }

  lemma PayloadsKeyed(config: Config, op: Op, i: nat, topic: CString)
    requires Sends(op) && ReadableEvents(op) && GoodFragment(config.userdbJson)
    requires i < |Payloads(config, op)| && Payloads(config, op)[i].Some?
    ensures KeyedJson(Record(topic, Payloads(config, op)[i].value, op.user))
  {
    match op
    case OpMsg(_, user, msg, events) =>
      var userdb: seq<Member> :| PrintableMembers(userdb) && config.userdbJson == UserdbFragment(userdb);
      var ev := events.value[i];
      MsgRoundTrip(config.rc, userdb, user, msg, ev);
      assert MsgMembers(config.rc, userdb, user, msg, ev)[0] == UserMember(user);
    case OpMbox(_, user, mailbox, events) =>
      var ev := events.value[i];
      MboxParsesExactly(user, mailbox, ev);
      assert MboxMembers(user, mailbox, ev)[0] == UserMember(user);
  }

  lemma {:induction false} RecordsKeyed(topic: CString, key: CString, payloads: seq<Option<string>>)
    requires forall i | 0 <= i < |payloads| :: payloads[i].Some? ==> KeyedJson(Record(topic, payloads[i].value, key))
    ensures forall r | r in Records(topic, key, payloads) :: KeyedJson(r)
  {
    if payloads != [] {
      RecordsKeyed(topic, key, payloads[..|payloads| - 1]);
    }
  }

  lemma {:induction false} AttemptsKeyed(ops: seq<Op>)
    requires Legal(ops) && forall op | op in ops :: ReadableEvents(op)
    ensures forall r | r in Attempts(ops) :: KeyedJson(r)
  {
    if ops != [] {
      var n := |ops| - 1;
      var op, configs := ops[n], Configs(ops[..n]);
      AttemptsKeyed(ops[..n]);
      ConfigsGood(ops[..n]);
      if Sends(op) {
        var topic, payloads := configs[op.id].topic, Payloads(configs[op.id], op);
        forall i | 0 <= i < |payloads| && payloads[i].Some?
          ensures KeyedJson(Record(topic, payloads[i].value, op.user))
        {
          PayloadsKeyed(configs[op.id], op, i, topic);
        }
        RecordsKeyed(topic, op.user, payloads);
      }
    }
  }

  /** Whatever the library does, a consumer only ever sees JSON objects whose user is the message key,
      as long as event names need no escaping and mailbox events are creations and renames. */
  lemma AcceptedIsKeyedJson(o: Oracle, ops: seq<Op>)
    requires Legal(ops) && forall op | op in ops :: ReadableEvents(op)
    ensures forall r | r in Run(o, ops).lib.accepted :: KeyedJson(r)
  {
    AcceptedLog(o, ops);
    AttemptsKeyed(ops);
    SelectSubset(Attempts(ops), RunVerdicts(o, ops));
  }

  /** Message event names that need no escaping, mailbox event names without a quote. */
  predicate OrdinaryNames(op: Op) {
    match op
    case OpMsg(_, _, _, Some(events)) => forall ev | ev in events :: Plain(ev.name)
    case OpMbox(_, _, _, Some(events)) => forall ev | ev in events :: MboxWellTyped(ev) && '"' !in ev.name
    case _ => true
  }

  lemma {:induction false} RecordsInclude(topic: CString, key: CString, payloads: seq<Option<string>>, i: nat)
    requires i < |payloads| && payloads[i].Some?
    ensures Record(topic, payloads[i].value, key) in Records(topic, key, payloads)
  {
    if i < |payloads| - 1 {
      RecordsInclude(topic, key, payloads[..|payloads| - 1], i);
    }
  }

  /** Every mailbox event of a run is among the messages the run asks to send. */
  lemma {:induction false} AttemptsInclude(ops: seq<Op>, k: nat, i: nat)
    requires Legal(ops) && k < |ops| && ops[k].OpMbox? && ops[k].mboxEvents.Some? && i < |ops[k].mboxEvents.value|
    ensures exists r :: r in Attempts(ops) && r.payload == MboxText(ops[k].user, ops[k].mailbox, ops[k].mboxEvents.value[i])
  {
    var n := |ops| - 1;
    if k < n {
      AttemptsInclude(ops[..n], k, i);
    } else {
      var op, configs := ops[k], Configs(ops[..k]);
      var topic, payloads := configs[op.id].topic, Payloads(configs[op.id], op);
      RecordsInclude(topic, op.user, payloads, i);
      assert Record(topic, payloads[i].value, op.user) in Attempts(ops);
    }
  }

  lemma UnreadableAttempt(ops: seq<Op>, op: Op)
    requires Legal(ops) && op in ops && OrdinaryNames(op) && !ReadableEvents(op)
    ensures exists r :: r in Attempts(ops) && !KeyedJson(r)
  {
    var k :| 0 <= k < |ops| && ops[k] == op;
    var events := op.mboxEvents.value;
    var i :| 0 <= i < |events| && events[i].name != MAILBOX_CREATE && events[i].name != MAILBOX_RENAME;
    MboxParsesExactly(op.user, op.mailbox, events[i]);
    AttemptsInclude(ops, k, i);
  }

  /** With a library that never fails the condition is exact: every accepted message is such a JSON
      object if and only if every mailbox event of the run is a creation or a rename. */
  lemma KeyedJsonExactly(o: Oracle, ops: seq<Op>)
    requires Legal(ops) && Reliable(o) && forall op | op in ops :: OrdinaryNames(op)
    ensures (forall r | r in Run(o, ops).lib.accepted :: KeyedJson(r)) <==> forall op | op in ops :: ReadableEvents(op)
  {
    NothingLost(o, ops);
    if forall op | op in ops :: ReadableEvents(op) {
      AcceptedIsKeyedJson(o, ops);
    } else {
      var op :| op in ops && !ReadableEvents(op);
      UnreadableAttempt(ops, op);
    }
  }

  // ---- User references

  function Begun(ops: seq<Op>, user: CString): nat {
    if ops == [] then 0
    else
      var op := ops[|ops| - 1];
      Begun(ops[..|ops| - 1], user) + if op.OpBegin? && op.user == user then 1 else 0
  }

  function Ended(ops: seq<Op>, user: CString): nat {
    if ops == [] then 0
    else
      var op := ops[|ops| - 1];
      Ended(ops[..|ops| - 1], user) + if op.OpEnd? && op.user == user then 1 else 0
  }

  /** Sending takes no user reference. */
  lemma {:induction false} SendAllKeepsRefs(w: World, o: Oracle, id: nat, key: CString, payloads: seq<Option<string>>)
    requires Inv(w) && id in w.contexts
    ensures SendAll(w, o, id, key, payloads).userRefs == w.userRefs
  {
    if payloads != [] {
      var n := |payloads| - 1;
      var w1 := SendAll(w, o, id, key, payloads[..n]);
      SendAllKeepsRefs(w, o, id, key, payloads[..n]);
      SendAllInv(w, o, id, key, payloads[..n]);
      if payloads[n].Some? {
        SendEffect(w1, o, id, payloads[n].value, key);
      }
    }
  }

  function RefChange(op: Op, user: CString): int {
    (if op.OpBegin? && op.user == user then 1 else 0) - (if op.OpEnd? && op.user == user then 1 else 0)
  }

  lemma QuietRefs(w: World, o: Oracle, op: Op, user: CString)
    requires Applicable(w.contexts.Keys, op) && !Sends(op)
    ensures Refs(Step(w, o, op), user) == Refs(w, user) + RefChange(op, user)
  {
    if op.OpDeinit? {
      assert DeinitTopic(w, op.id).userRefs == w.userRefs;
    }
  }

  lemma StepRefs(w: World, o: Oracle, op: Op, user: CString)
    requires Inv(w) && Applicable(w.contexts.Keys, op)
    ensures Refs(Step(w, o, op), user) == Refs(w, user) + RefChange(op, user)
  {
    if Sends(op) {
      StepSends(w, o, op);
      SendAllKeepsRefs(w, o, op.id, op.user, Payloads(w.contexts[op.id].config, op));
    } else {
      QuietRefs(w, o, op, user);
    }
  }

  /** The references a user has left are its begun minus its ended transactions; a begin in a disabled
      context counts too. */
  lemma {:induction false} RefsBalance(o: Oracle, ops: seq<Op>, user: CString)
    requires Legal(ops)
    ensures Refs(Run(o, ops), user) == Begun(ops, user) - Ended(ops, user)
  {
    if ops != [] {
      var n := |ops| - 1;
      RefsBalance(o, ops[..n], user);
      RunInv(o, ops[..n]);
      StepRefs(Run(o, ops[..n]), o, ops[n], user);
    }
  }

  /** Begins of the user in contexts whose driver is switched on, or off. */
  function BegunWhen(ops: seq<Op>, user: CString, enabled: bool): nat
    requires Legal(ops)
  {
    if ops == [] then 0
    else
      var op, configs := ops[|ops| - 1], Configs(ops[..|ops| - 1]);
      BegunWhen(ops[..|ops| - 1], user, enabled)
      + if op.OpBegin? && op.user == user && configs[op.id].enabled == enabled then 1 else 0
  }

  lemma {:induction false} BegunSplit(ops: seq<Op>, user: CString)
    requires Legal(ops)
    ensures Begun(ops, user) == BegunWhen(ops, user, true) + BegunWhen(ops, user, false)
  {
    if ops != [] {
      BegunSplit(ops[..|ops| - 1], user);
    }
  }

  /** A begin in a disabled context takes a reference and then says FALSE. If only the transactions begun
      in enabled contexts are ended, each begin in a disabled one leaves a reference behind. */
  lemma DisabledBeginsLeak(o: Oracle, ops: seq<Op>, user: CString)
    requires Legal(ops) && Ended(ops, user) == BegunWhen(ops, user, true)
    ensures Refs(Run(o, ops), user) == BegunWhen(ops, user, false)
  {
    RefsBalance(o, ops, user);
    BegunSplit(ops, user);
  }
}
