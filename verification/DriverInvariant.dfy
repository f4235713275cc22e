/** What every reachable state of the driver satisfies, whatever the library answers: no fault, one
    producer at most, every topic and producer destroyed exactly once, no configuration lost. */
module DriverInvariant {
  import opened Options
  import opened Json
  import opened Kafka
  import opened DriverSpec

  // ---- The invariant

  /** The reference count is the number of contexts, and contexts keep the global alive. */
  ghost predicate CountedRefs(w: World) {
    match w.global
    case None => w.contexts == map[]
    case Some(g) => g.refcount == |w.contexts.Keys|
  }

  /** The only live producer is the one the global holds. */
  ghost predicate OneProducer(w: World) {
    && (forall p | 0 <= p < |w.lib.producers| ::
          w.lib.producers[p].destroyed == if Rk(w) == Some(p) then 0 else 1)
    && (Rk(w).Some? ==> Rk(w).value < |w.lib.producers|)
  }

  /** A context's topic is live, bears its name, and belongs to the live producer. */
  ghost predicate OwnsTopic(w: World, c: nat)
    requires c in w.contexts
  {
    var rkt := w.contexts[c].rkt;
    rkt.Some? ==>
      && LiveTopic(w.lib, rkt.value)
      && w.lib.topics[rkt.value].name == w.contexts[c].config.topic
      && Some(w.lib.topics[rkt.value].producer) == Rk(w)
  }

  ghost predicate Held(w: World, t: nat) {
    exists c | c in w.contexts :: w.contexts[c].rkt == Some(t)
  }

  /** Contexts do not share topics, and every topic is either held by a context or destroyed once. */
  ghost predicate OwnedTopics(w: World) {
    && (forall c | c in w.contexts :: OwnsTopic(w, c))
    && (forall c, d | c in w.contexts && d in w.contexts && c != d ::
          w.contexts[c].rkt.Some? ==> w.contexts[c].rkt != w.contexts[d].rkt)
    && (forall t | 0 <= t < |w.lib.topics| :: w.lib.topics[t].destroyed == if Held(w, t) then 0 else 1)
  }

  function Count(confs: seq<Conf>, s: ConfStatus): nat {
    if confs == [] then 0
    else Count(confs[..|confs| - 1], s) + if confs[|confs| - 1].status == s then 1 else 0
  }

  /** No handle is misused, no NULL global reached, no assertion violated. */
  ghost predicate NoMisuse(l: Lib) {
    l.faults <= {NullLogLevel, DanglingUser}
  }

  ghost predicate Inv(w: World) {
    && NoMisuse(w.lib) && CountedRefs(w) && OneProducer(w) && OwnedTopics(w)
    && Count(w.lib.confs, Consumed) == |w.lib.producers|
  }

  // ---- Configuration

  /** Only the clock and configuration `h`, still open, may differ. */
  predicate ConfOnly(l: Lib, l': Lib, h: nat) {
    && OpenConf(l, h) && OpenConf(l', h)
    && |l'.confs| == |l.confs|
    && (forall i | 0 <= i < |l.confs| && i != h :: l'.confs[i] == l.confs[i])
    && l' == l.(clock := l'.clock, confs := l'.confs)
  }

  /** Each offered setting costs one call, accepted or not. */
  lemma {:induction false} ReadSettingsConfOnly(l: Lib, o: Oracle, conf: nat, envs: seq<CString>, prefix: CString, n: nat)
    requires 2 * n <= |envs| && OpenConf(l, conf)
    ensures ConfOnly(l, ReadSettings(l, o, conf, envs, prefix, n), conf)
    ensures ReadSettings(l, o, conf, envs, prefix, n).clock == l.clock + Offered(envs, prefix, n)
  {
    if n > 0 {
      ReadSettingsConfOnly(l, o, conf, envs, prefix, n - 1);
    }
  }

  /** How many settings are offered when a producer is set up. */
  function AllOffered(envs: Option<Envs>): nat {
    match envs
    case None => 0
    case Some(es) => Offered(es, SETTINGS_PREFIX, |es| / 2)
  }

  /** When the broker list is offered; the debug level and rd_kafka_new come next. */
  function SetUpAt(w: World): nat {
    w.lib.clock + AllOffered(GlobalEnvs(w))
  }

  /** The library with a new configuration, the user found alive or not. */
  function NewConf(w: World): Lib {
    var l := ConfNew(w.lib);
    if w.global.Some? && !LiveUser(w.users, w.global.value.user) then Blame(l, DanglingUser) else l
  }

  lemma ConfWithSettingsOnly(w: World, o: Oracle)
    ensures ConfOnly(NewConf(w), ConfWithSettings(w, o), |w.lib.confs|)
    ensures ConfWithSettings(w, o).clock == SetUpAt(w)
  {
    if GlobalEnvs(w).Some? {
      var envs := GlobalEnvs(w).value;
      ReadSettingsConfOnly(NewConf(w), o, |w.lib.confs|, envs, SETTINGS_PREFIX, |envs| / 2);
    }
  }

  /** What becomes of a configuration whose broker list is offered at time `t`: the library must take
      two more settings and then make a producer of it. */
  function Outcome(o: Oracle, t: nat): ConfStatus {
    if !o(t).confAccepts || !o(t + 1).confAccepts then Open
    else if o(t + 2).newSucceeds then Consumed
    else Destroyed
  }

  /** What each outcome leaves behind. */
  lemma CreateProducerEffect(l: Lib, o: Oracle, conf: nat, brokers: CString)
    requires OpenConf(l, conf)
    ensures var (l', rkc, rk) := CreateProducer(l, o, conf, brokers);
            var outcome := Outcome(o, l.clock);
            && |l'.confs| == |l.confs| && l'.confs[conf].status == outcome
            && (forall i | 0 <= i < |l.confs| && i != conf :: l'.confs[i] == l.confs[i])
            && l'.topics == l.topics && l'.accepted == l.accepted && l'.polls == l.polls
            && l'.faults == l.faults + (if outcome.Destroyed? then {NullLogLevel} else {})
            && l'.producers == l.producers
                 + (if outcome.Consumed? then [Kafka.Producer(l'.confs[conf].settings, 0)] else [])
            && rk == (if outcome.Consumed? then Some(|l.producers|) else None)
            && rkc == (if outcome.Destroyed? then None else Some(conf))
            && l'.clock == l.clock + (if !o(l.clock).confAccepts then 1 else if outcome.Open? then 2 else 3)
            && l'.confs[conf].settings ==
                 (if !o(l.clock).confAccepts then l.confs[conf].settings
                  else if outcome.Open? then l.confs[conf].settings["bootstrap.servers" := brokers]
                  else l.confs[conf].settings["bootstrap.servers" := brokers]["debug" := "all"])
  {
    var l1 := ConfSet(l, o, conf, BOOTSTRAP_SERVERS, brokers).0;
    assert ConfOnly(l, l1, conf) && l1.clock == l.clock + 1;
    var l2 := ConfSet(l1, o, conf, DEBUG, ALL).0;
    assert ConfOnly(l1, l2, conf) && l2.clock == l.clock + 2;
  }

  lemma CountSnoc(confs: seq<Conf>, confs': seq<Conf>, c: Conf, s: ConfStatus)
    requires confs' == confs + [c]
    ensures Count(confs', s) == Count(confs, s) + if c.status == s then 1 else 0
  {
  }

  /** init_global adds one configuration, and its fate is what the library answers to three calls. */
  lemma InitGlobalEffect(w: World, o: Oracle)
    requires w.global.Some? && w.global.value.rk.None?
    ensures var w' := InitGlobal(w, o);
            var outcome := Outcome(o, SetUpAt(w));
            var live := LiveUser(w.users, w.global.value.user);
            && w' == w.(global := w'.global, lib := w'.lib, setUps := w.setUps + [SetUp(SetUpAt(w), live)])
            && w'.lib.topics == w.lib.topics && w'.lib.accepted == w.lib.accepted && w'.lib.polls == w.lib.polls
            && w'.lib.faults == w.lib.faults + (if live then {} else {DanglingUser})
                                + (if outcome.Destroyed? then {NullLogLevel} else {})
            && w'.global.Some? && w'.global.value == w.global.value.(rk := Rk(w'), rkc := w'.global.value.rkc)
            && Rk(w') == (if outcome.Consumed? then Some(|w.lib.producers|) else None)
            && |w'.lib.confs| == |w.lib.confs| + 1 && w'.lib.confs[..|w.lib.confs|] == w.lib.confs
            && w'.lib.confs[|w.lib.confs|].status == outcome
            && w'.lib.producers == w.lib.producers
                 + (if outcome.Consumed? then [Kafka.Producer(w'.lib.confs[|w.lib.confs|].settings, 0)] else [])
  {
    ConfWithSettingsOnly(w, o);
    CreateProducerEffect(ConfWithSettings(w, o), o, |w.lib.confs|, w.global.value.brokers);
  }

  /** The objects that are stranded, consumed and destroyed by one set-up. */
  lemma SetUpExactly(w: World, o: Oracle, s: ConfStatus)
    requires w.global.Some? && w.global.value.rk.None?
    ensures Count(InitGlobal(w, o).lib.confs, s)
         == Count(w.lib.confs, s) + if Outcome(o, SetUpAt(w)) == s then 1 else 0
    ensures Count(InitGlobal(w, o).lib.confs, Open) == Count(w.lib.confs, Open) <==>
            o(SetUpAt(w)).confAccepts && o(SetUpAt(w) + 1).confAccepts
  {
    InitGlobalEffect(w, o);
    var n, confs := |w.lib.confs|, InitGlobal(w, o).lib.confs;
    assert confs == w.lib.confs + [confs[n]];
    CountSnoc(w.lib.confs, confs, confs[n], s);
    CountSnoc(w.lib.confs, confs, confs[n], Open);
  }

  /** While the global holds no producer, none is live, so one more is the only one. */
  lemma FirstProducer(w: World, w': World, settings: Settings)
    requires OneProducer(w) && Rk(w).None?
    requires || (w'.lib.producers == w.lib.producers && Rk(w').None?)
             || (w'.lib.producers == w.lib.producers + [Kafka.Producer(settings, 0)]
                 && Rk(w') == Some(|w.lib.producers|))
    ensures OneProducer(w')
  {
  }

  lemma InitGlobalInv(w: World, o: Oracle)
    requires Inv(w) && w.global.Some?
    ensures Inv(InitGlobal(w, o))
  {
    if w.global.value.rk.None? {
      InitGlobalOwned(w, o);
      InitGlobalEffect(w, o);
      SetUpExactly(w, o, Consumed);
    }
  }

  lemma InitGlobalOwned(w: World, o: Oracle)
    requires OneProducer(w) && OwnedTopics(w) && w.global.Some? && Rk(w).None?
    ensures OneProducer(InitGlobal(w, o)) && OwnedTopics(InitGlobal(w, o))
  {
    InitGlobalEffect(w, o);
    var w' := InitGlobal(w, o);
    FirstProducer(w, w', w'.lib.confs[|w.lib.confs|].settings);
    SameTopics(w, w');
  }

  /** Topics held as before by a producer that is still the same. */
  lemma SameTopics(w: World, w': World)
    requires OwnedTopics(w) && OneProducer(w)
    requires w'.contexts == w.contexts && w'.lib.topics == w.lib.topics
    requires Rk(w).Some? ==> Rk(w') == Rk(w)
    ensures OwnedTopics(w')
  {
  }

  // ---- Topics

  lemma InitTopicInv(w: World, o: Oracle, id: nat)
    requires Inv(w) && id in w.contexts
    ensures Inv(InitTopic(w, o, id))
  {
    InitGlobalInv(w, o);
    if w.global.value.rk.None? {
      InitGlobalEffect(w, o);
    }
    var w1 := InitGlobal(w, o);
    if Rk(w1).Some? && w1.contexts[id].rkt.None? {
      NewTopicInv(w1, o, id);
    }
  }

  /** A context without a topic creates one with the live producer. */
  lemma NewTopicInv(w: World, o: Oracle, id: nat)
    requires Inv(w) && id in w.contexts && Rk(w).Some? && w.contexts[id].rkt.None?
    ensures var ctx := w.contexts[id];
            var (l, rkt) := TopicNew(w.lib, o, Rk(w).value, ctx.config.topic);
            Inv(w.(lib := l, contexts := w.contexts[id := ctx.(rkt := rkt)]))
  {
    var ctx := w.contexts[id];
    var (l, rkt) := TopicNew(w.lib, o, Rk(w).value, ctx.config.topic);
    var w' := w.(lib := l, contexts := w.contexts[id := ctx.(rkt := rkt)]);
    assert w'.contexts.Keys == w.contexts.Keys;
    if rkt.Some? {
      NewTopicOwned(w, w', id);
    } else {
      assert w'.contexts == w.contexts;
      SameTopics(w, w');
    }
  }

  lemma NewTopicOwned(w: World, w': World, id: nat)
    requires OwnedTopics(w) && id in w.contexts && w.contexts[id].rkt.None? && Rk(w).Some?
    requires w'.global == w.global
    requires w'.lib.topics == w.lib.topics + [Topic(Rk(w).value, w.contexts[id].config.topic, 0)]
    requires w'.contexts == w.contexts[id := w.contexts[id].(rkt := Some(|w.lib.topics|))]
    ensures OwnedTopics(w')
  {
    forall c | c in w'.contexts
      ensures OwnsTopic(w', c)
    {
      assert OwnsTopic(w, c);
    }
    forall c, d | c in w'.contexts && d in w'.contexts && c != d && w'.contexts[c].rkt.Some?
      ensures w'.contexts[c].rkt != w'.contexts[d].rkt
    {
      assert OwnsTopic(w, c) && OwnsTopic(w, d);
    }
    assert w'.contexts[id].rkt == Some(|w.lib.topics|);
    forall t | 0 <= t < |w.lib.topics|
      ensures Held(w', t) <==> Held(w, t)
    {
      HeldElsewhere(w, w', id, t);
    }
  }

  /** Changing the context `id`, which neither did nor does hold `t`, does not change who holds `t`. */
  lemma HeldElsewhere(w: World, w': World, id: nat, t: nat)
    requires forall c | c != id :: (c in w.contexts <==> c in w'.contexts)
                                && (c in w.contexts ==> w.contexts[c].rkt == w'.contexts[c].rkt)
    requires id in w.contexts ==> w.contexts[id].rkt != Some(t)
    requires id in w'.contexts ==> w'.contexts[id].rkt != Some(t)
    ensures Held(w', t) <==> Held(w, t)
  {
  }

  lemma DeinitTopicInv(w: World, id: nat)
    requires Inv(w) && id in w.contexts
    ensures Inv(DeinitTopic(w, id)) && DeinitTopic(w, id).contexts[id].rkt.None?
    ensures DeinitTopic(w, id).global == w.global && DeinitTopic(w, id).contexts.Keys == w.contexts.Keys
  {
    var w' := DeinitTopic(w, id);
    assert w'.contexts.Keys == w.contexts.Keys;
    assert OwnsTopic(w, id);
    if w.contexts[id].rkt.Some? {
      FreeTopicOwned(w, w', id, w.contexts[id].rkt.value);
    } else {
      SameTopics(w, w');
    }
  }

  /** A context that destroys its topic leaves everyone else's alone. */
  lemma FreeTopicOwned(w: World, w': World, id: nat, t: nat)
    requires OwnedTopics(w) && id in w.contexts && w.contexts[id].rkt == Some(t) && LiveTopic(w.lib, t)
    requires w'.global == w.global
    requires w'.lib.topics == w.lib.topics[t := w.lib.topics[t].(destroyed := 1)]
    requires w'.contexts == w.contexts[id := w.contexts[id].(rkt := None)]
    ensures OwnedTopics(w')
  {
    forall c | c in w'.contexts
      ensures OwnsTopic(w', c)
    {
      assert OwnsTopic(w, c);
    }
    assert Held(w, t) && !Held(w', t);
    forall u | 0 <= u < |w.lib.topics| && u != t
      ensures Held(w', u) <==> Held(w, u)
    {
      HeldElsewhere(w, w', id, u);
    }
  }

  // ---- Sending

  /** Producing on a live topic touches nothing but the clock, the log and the poll count. */
  predicate SendOnly(l: Lib, l': Lib) {
    l'.confs == l.confs && l'.producers == l.producers && l'.topics == l.topics && l'.faults == l.faults
  }

  lemma {:induction false} RetrySendOnly(l: Lib, o: Oracle, rk: Option<nat>, t: nat, payload: string, key: CString,
                                         counter: nat, maxRetries: nat)
    requires LiveTopic(l, t) && rk == Some(l.topics[t].producer) && LiveProducer(l, l.topics[t].producer)
    ensures SendOnly(l, Retry(l, o, rk, t, payload, key, counter, maxRetries))
    decreases maxRetries - counter
  {
    var (l1, result) := Produce(l, o, t, payload, key);
    if result.QueueFull? && counter < maxRetries {
      RetrySendOnly(Poll(l1, rk), o, rk, t, payload, key, counter + 1, maxRetries);
    }
  }

  lemma SendEffect(w: World, o: Oracle, id: nat, payload: string, key: CString)
    requires Inv(w) && id in w.contexts
    ensures var w1, w' := InitTopic(w, o, id), Send(w, o, id, payload, key);
            SendOnly(w1.lib, w'.lib) && w' == w1.(lib := w'.lib)
  {
    InitTopicInv(w, o, id);
    var w1 := InitTopic(w, o, id);
    assert OwnsTopic(w1, id);
    if w1.contexts[id].rkt.Some? {
      RetrySendOnly(w1.lib, o, Rk(w1), w1.contexts[id].rkt.value, payload, key, 0, w1.global.value.maxRetries);
    }
  }

  lemma SendInv(w: World, o: Oracle, id: nat, payload: string, key: CString)
    requires Inv(w) && id in w.contexts
    ensures Inv(Send(w, o, id, payload, key))
  {
    InitTopicInv(w, o, id);
    SendEffect(w, o, id, payload, key);
    SameTopics(InitTopic(w, o, id), Send(w, o, id, payload, key));
  }

  lemma {:induction false} SendAllInv(w: World, o: Oracle, id: nat, key: CString, payloads: seq<Option<string>>)
    requires Inv(w) && id in w.contexts
    ensures Inv(SendAll(w, o, id, key, payloads))
  {
    if payloads != [] {
      var n := |payloads| - 1;
      SendAllInv(w, o, id, key, payloads[..n]);
      if payloads[n].Some? {
        SendInv(SendAll(w, o, id, key, payloads[..n]), o, id, payloads[n].value, key);
      }
    }
  }

  // ---- Contexts come and go

  /** A context that holds no topic may be added or removed. */
  lemma ChangeContext(w: World, w': World, id: nat)
    requires OwnedTopics(w) && w'.lib.topics == w.lib.topics && Rk(w') == Rk(w)
    requires forall c | c != id :: (c in w.contexts <==> c in w'.contexts)
                                && (c in w.contexts ==> w.contexts[c] == w'.contexts[c])
    requires id in w.contexts ==> w.contexts[id].rkt.None?
    requires id in w'.contexts ==> w'.contexts[id].rkt.None?
    ensures OwnedTopics(w')
  {
  }

  lemma InitInv(w: World, id: nat, args: InitArgs)
    requires Inv(w) && id !in w.contexts
    ensures Inv(Init(w, id, args))
  {
    var w' := Init(w, id, args);
    assert w'.contexts.Keys == w.contexts.Keys + {id};
    ChangeContext(w, w', id);
  }

  lemma DeinitInv(w: World, id: nat)
    requires Inv(w) && id in w.contexts
    ensures Inv(Deinit(w, id))
  {
    DeinitTopicInv(w, id);
    var w1 := DeinitTopic(w, id);
    var w' := Deinit(w, id);
    assert id in w1.contexts.Keys && w'.contexts.Keys == w1.contexts.Keys - {id};
    ChangeContext(w1, w', id);
  }

  /** The global is freed only when no context is left, so its producer is not in use. */
  lemma CleanupInv(w: World)
    requires Inv(w)
    ensures Inv(Cleanup(w))
    ensures w.contexts == map[] ==> Cleanup(w).global.None?
  {
    if w.global.Some? && w.global.value.refcount <= 0 {
      assert w.contexts.Keys == {};
      assert w.contexts == map[];
      assert forall t :: !Held(w, t);
    }
  }

  // ---- Runs

  predicate Sends(op: Op) {
    op.OpMsg? || op.OpMbox?
  }

  /** The renderings of the events of an operation, NULL ones included. */
  function Payloads(config: Config, op: Op): seq<Option<string>>
    requires Sends(op)
  {
    match op
    case OpMsg(_, user, msg, events) =>
      if events.None? then [] else MsgPayloads(config, user, msg, events.value)
    case OpMbox(_, user, mailbox, events) =>
      if events.None? then [] else MboxPayloads(user, mailbox, events.value)
  }

  /** Both processing loops are one sequence of sends. */
  lemma StepSends(w: World, o: Oracle, op: Op)
    requires Applicable(w.contexts.Keys, op) && Sends(op)
    ensures Step(w, o, op) == SendAll(w, o, op.id, op.user, Payloads(w.contexts[op.id].config, op))
  {
  }

  lemma SendingStepInv(w: World, o: Oracle, op: Op)
    requires Inv(w) && Applicable(w.contexts.Keys, op) && Sends(op)
    ensures Inv(Step(w, o, op))
  {
    StepSends(w, o, op);
    SendAllInv(w, o, op.id, op.user, Payloads(w.contexts[op.id].config, op));
  }

  lemma StepInv(w: World, o: Oracle, op: Op)
    requires Inv(w) && Applicable(w.contexts.Keys, op)
    ensures Inv(Step(w, o, op))
  {
    match op
    case OpMsg(_, _, _, _) => SendingStepInv(w, o, op);
    case OpMbox(_, _, _, _) => SendingStepInv(w, o, op);
    case OpLogin(_, _) => SameTopics(w, Step(w, o, op));
    case OpInit(id, args) => InitInv(w, id, args);
    case OpBegin(_, user) => SameTopics(w, BeginTxn(w, user));
    case OpEnd(user) => SameTopics(w, EndTxn(w, user));
    case OpDeinit(id) => DeinitInv(w, id);
    case OpCleanup => CleanupInv(w);
    case OpLogout(_) => SameTopics(w, Step(w, o, op));
  }

  /** No run, with any library behaviour, leaves the invariant. */
  lemma {:induction false} RunInv(o: Oracle, ops: seq<Op>)
    requires Legal(ops)
    ensures Inv(Run(o, ops))
  {
    if ops == [] {
      assert Run(o, ops) == IDLE;
      assert forall t :: !Held(IDLE, t);
    } else {
      RunInv(o, ops[..|ops| - 1]);
      StepInv(Run(o, ops[..|ops| - 1]), o, ops[|ops| - 1]);
    }
  }
}
