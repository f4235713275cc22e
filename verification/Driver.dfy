/** The driver itself: methods that update the shared global, the contexts and the library in place,
    each proved to take the step that `DriverSpec` defines. */
module DriverImplementation {
  import opened Options
  import opened Json
  import opened Events
  import opened EventWriters
  import opened Kafka
  import opened DriverSpec

  /** One turn of a processing loop extends the prefix that has been sent. */
  lemma SendAllNext(w: World, o: Oracle, id: nat, key: CString, payloads: seq<Option<string>>, k: nat)
    requires id in w.contexts && k < |payloads|
    ensures var w1 := SendAll(w, o, id, key, payloads[..k]);
            SendAll(w, o, id, key, payloads[..k + 1]) ==
            if payloads[k].Some? then Send(w1, o, id, payloads[k].value, key) else w1
  {
    assert payloads[..k + 1][..k] == payloads[..k];
  }

  class Driver {
    var kafkaGlobal: Option<Global>
    var contexts: map<nat, Context>
    var lib: Lib
    var userRefs: map<CString, int>
    var users: Users
    ghost var setUps: seq<SetUp>
    const oracle: Oracle

    ghost function State(): World
      reads this
    {
      World(kafkaGlobal, contexts, lib, userRefs, users, setUps)
    }

    constructor (o: Oracle)
      ensures State() == IDLE && oracle == o
    {
      kafkaGlobal, contexts, lib := None, map[], NO_LIB;
      userRefs, users, setUps := map[], map[], [];
      oracle := o;
    }

    /** The global has a user, but nothing says that it is still there. */
    method ReadPluginKafkaSettings(prefix: CString)
      requires kafkaGlobal.Some? && kafkaGlobal.value.rkc.Some?
      modifies this`lib
      ensures lib ==
              if !LiveUser(users, kafkaGlobal.value.user) then Blame(old(lib), DanglingUser)
              else match users[kafkaGlobal.value.user].envs
                   case None => old(lib)
                   case Some(envs) =>
                     ReadSettings(old(lib), oracle, kafkaGlobal.value.rkc.value, envs, prefix, |envs| / 2)
    {
      var user := kafkaGlobal.value.user;
      if user !in users || users[user].freed {
        lib := Blame(lib, DanglingUser);
        return;
      }
      if users[user].envs.None? {
        return;
      }
      var envs := users[user].envs.value;
      var rkc := kafkaGlobal.value.rkc.value;
      var count := |envs|;
      var i := 0;
      while i < count
        invariant 0 <= i <= count && i % 2 == 0
        invariant lib == ReadSettings(old(lib), oracle, rkc, envs, prefix, i / 2)
      {
        if |envs[i]| > |prefix| {
          if prefix <= envs[i] {
            var s := envs[i][|prefix| + 1..];
            var (l, _) := ConfSet(lib, oracle, rkc, s, envs[i + 1]);
            lib := l;
          }
        }
        i := i + 2;
      }
    }

    method InitGlobal()
      modifies this`kafkaGlobal, this`lib, this`setUps
      ensures State() == DriverSpec.InitGlobal(old(State()), oracle)
    {
      if kafkaGlobal.None? {
        lib := Blame(lib, NullGlobal);
        return;
      }
      if kafkaGlobal.value.rk.None? {
        var conf := |lib.confs|;
        lib := ConfNew(lib);
        kafkaGlobal := Some(kafkaGlobal.value.(rkc := Some(conf)));
        ReadPluginKafkaSettings(SETTINGS_PREFIX);
        setUps := setUps + [SetUp(lib.clock, LiveUser(users, kafkaGlobal.value.user))];
        StartProducer(conf);
      }
    }

    /** The rest of init_global, from the broker list on. */
    method StartProducer(conf: nat)
      requires kafkaGlobal.Some? && kafkaGlobal.value.rk.None? && kafkaGlobal.value.rkc == Some(conf)
      modifies this`kafkaGlobal, this`lib
      ensures var (l, rkc, rk) := CreateProducer(old(lib), oracle, conf, old(kafkaGlobal).value.brokers);
              lib == l && kafkaGlobal == Some(old(kafkaGlobal).value.(rkc := rkc, rk := rk))
    {
      var (l1, brokersSet) := ConfSet(lib, oracle, conf, BOOTSTRAP_SERVERS, kafkaGlobal.value.brokers);
      lib := l1;
      if !brokersSet {
        return;
      }
      var (l2, debugSet) := ConfSet(lib, oracle, conf, DEBUG, ALL);
      lib := l2;
      if !debugSet {
        return;
      }
      var (l3, rk) := ProducerNew(lib, oracle, conf);
      lib := l3;
      kafkaGlobal := Some(kafkaGlobal.value.(rk := rk));
      if rk.None? {
        lib := ConfDestroy(lib, conf);
        kafkaGlobal := Some(kafkaGlobal.value.(rkc := None));
      }
      // rd_kafka_set_log_level takes the producer as it is
      if kafkaGlobal.value.rk.None? {
        lib := Blame(lib, NullLogLevel);
      }
    }

    method DeinitGlobal()
      requires kafkaGlobal.Some?
      modifies this`kafkaGlobal, this`lib
      ensures kafkaGlobal == Some(old(kafkaGlobal).value.(rk := None))
      ensures lib == match Rk(old(State()))
                     case None => old(lib)
                     case Some(rk) => ProducerDestroy(Poll(old(lib), Some(rk)), rk)
    {
      if kafkaGlobal.value.rk.Some? {
        lib := Poll(lib, kafkaGlobal.value.rk);
        lib := ProducerDestroy(lib, kafkaGlobal.value.rk.value);
        kafkaGlobal := Some(kafkaGlobal.value.(rk := None));
      }
    }

    method InitTopic(id: nat)
      requires id in contexts
      modifies this`kafkaGlobal, this`contexts, this`lib, this`setUps
      ensures State() == DriverSpec.InitTopic(old(State()), oracle, id)
    {
      InitGlobal();
      if kafkaGlobal.Some? && kafkaGlobal.value.rk.Some? {
        var ctx := contexts[id];
        if ctx.rkt.None? {
          var (l, rkt) := TopicNew(lib, oracle, kafkaGlobal.value.rk.value, ctx.config.topic);
          lib := l;
          contexts := contexts[id := ctx.(rkt := rkt)];
        }
      }
    }

    method DeinitTopic(id: nat)
      requires id in contexts
      modifies this`contexts, this`lib
      ensures State() == DriverSpec.DeinitTopic(old(State()), id)
    {
      if kafkaGlobal.None? {
        lib := Blame(lib, NullGlobal);
        return;
      }
      if kafkaGlobal.value.rk.Some? {
        lib := Poll(lib, kafkaGlobal.value.rk);
      }
      var ctx := contexts[id];
      if ctx.rkt.Some? {
        lib := TopicDestroy(lib, ctx.rkt.value);
        contexts := contexts[id := ctx.(rkt := None)];
      }
    }

    /** The loop behind the label `retry`. */
    method ProduceWithRetries(rkt: nat, rk: Option<nat>, payload: string, username: CString, maxRetries: nat)
      modifies this`lib
      ensures lib == Retry(old(lib), oracle, rk, rkt, payload, username, 0, maxRetries)
    {
      var retryCounter := 0;
      var retry := true;
      while retry
        invariant retry ==> retryCounter <= maxRetries
        invariant Retry(old(lib), oracle, rk, rkt, payload, username, 0, maxRetries)
               == if retry then Retry(lib, oracle, rk, rkt, payload, username, retryCounter, maxRetries) else lib
        decreases retry, maxRetries - retryCounter
      {
        retry := false;
        var (l, result) := Produce(lib, oracle, rkt, payload, username);
        lib := l;
        if result.QueueFull? {
          lib := Poll(lib, rk);
          retry := retryCounter < maxRetries;
          retryCounter := retryCounter + 1;
        }
      }
    }

    method SendToKafka(id: nat, payload: string, username: CString)
      requires id in contexts
      modifies this`kafkaGlobal, this`contexts, this`lib, this`setUps
      ensures State() == Send(old(State()), oracle, id, payload, username)
    {
      InitTopic(id);
      if contexts[id].rkt.Some? {
        var rk := if kafkaGlobal.Some? then kafkaGlobal.value.rk else None;
        var maxRetries := if kafkaGlobal.Some? then kafkaGlobal.value.maxRetries else 0;
        ProduceWithRetries(contexts[id].rkt.value, rk, payload, username, maxRetries);
        lib := Poll(lib, rk);
      }
    }

    method BeginTxn(id: nat, user: CString) returns (subscribed: bool)
      requires id in contexts
      modifies this`userRefs
      ensures State() == DriverSpec.BeginTxn(old(State()), user)
      ensures subscribed == contexts[id].config.enabled
    {
      userRefs := userRefs[user := (if user in userRefs then userRefs[user] else 0) + 1];
      subscribed := contexts[id].config.enabled;
    }

    method EndTxn(user: CString)
      modifies this`userRefs
      ensures State() == DriverSpec.EndTxn(old(State()), user)
    {
      userRefs := userRefs[user := (if user in userRefs then userRefs[user] else 0) - 1];
    }

    /** One turn of the loop in process_msg: a NULL rendering is not sent. */
    method RenderAndSend(id: nat, user: CString, config: Config, msg: Message, ev: MsgEvent)
      requires id in contexts && MsgWellTyped(ev)
      modifies this`kafkaGlobal, this`contexts, this`lib, this`setUps
      ensures State() == match MsgText(config.rc, config.userdbJson, user, msg, ev)
                         case None => old(State())
                         case Some(payload) => Send(old(State()), oracle, id, payload, user)
    {
      var str := RenderMsg(user, config.userdbJson, config.rc, msg, ev);
      if str != null {
        SendToKafka(id, str.data, user);
      }
    }

    method ProcessMsg(id: nat, user: CString, msg: Message, events: Option<seq<MsgEvent>>)
      requires id in contexts
      requires events.Some? ==> forall ev | ev in events.value :: MsgWellTyped(ev)
      modifies this`kafkaGlobal, this`contexts, this`lib, this`setUps
      ensures State() == DriverSpec.ProcessMsg(old(State()), oracle, id, user, msg, events)
    {
      if events.Some? {
        var config := contexts[id].config;
        ghost var payloads := MsgPayloads(config, user, msg, events.value);
        for k := 0 to |events.value|
          invariant id in contexts
          invariant State() == SendAll(old(State()), oracle, id, user, payloads[..k])
        {
          SendAllNext(old(State()), oracle, id, user, payloads, k);
          assert events.value[k] in events.value;
          RenderAndSend(id, user, config, msg, events.value[k]);
        }
        assert payloads[..|events.value|] == payloads;
      }
    }

    /** One turn of the loop in process_mbox. */
    method RenderAndSendMbox(id: nat, user: CString, mailbox: CString, ev: MboxEvent)
      requires id in contexts && MboxWellTyped(ev)
      modifies this`kafkaGlobal, this`contexts, this`lib, this`setUps
      ensures State() == Send(old(State()), oracle, id, MboxText(user, mailbox, ev), user)
    {
      var str := RenderMbox(user, mailbox, ev);
      SendToKafka(id, str.data, user);
    }

    method ProcessMbox(id: nat, user: CString, mailbox: CString, events: Option<seq<MboxEvent>>)
      requires id in contexts
      requires events.Some? ==> forall ev | ev in events.value :: MboxWellTyped(ev)
      modifies this`kafkaGlobal, this`contexts, this`lib, this`setUps
      ensures State() == DriverSpec.ProcessMbox(old(State()), oracle, id, user, mailbox, events)
    {
      if events.Some? {
        ghost var payloads := MboxPayloads(user, mailbox, events.value);
        for k := 0 to |events.value|
          invariant id in contexts
          invariant State() == SendAll(old(State()), oracle, id, user, payloads[..k])
        {
          SendAllNext(old(State()), oracle, id, user, payloads, k);
          assert events.value[k] in events.value;
          RenderAndSendMbox(id, user, mailbox, events.value[k]);
        }
        assert payloads[..|events.value|] == payloads;
      }
    }

    /** The part of init that reads the driver configuration. */
    method ReadConfig(args: InitArgs) returns (config: Config)
      ensures config == ConfigOf(args)
    {
      var userdbJson: Option<string> := None;
      if args.userdbFields.Some? {
        userdbJson := BuildUserdbJson(args.userdbFields.value, args.lookup);
      }
      config := Config(args.topic, userdbJson, RenderContext(args.sendFlags, Some(args.keywordPrefix)), args.enabled);
    }

    method Init(id: nat, args: InitArgs)
      modifies this`kafkaGlobal, this`contexts
      ensures State() == DriverSpec.Init(old(State()), id, args)
    {
      var config := ReadConfig(args);
      if kafkaGlobal.None? {
        var maxRetries := 0;
        if args.maxRetries.Some? && args.maxRetries.value >= 0 {
          maxRetries := args.maxRetries.value;
        }
        kafkaGlobal := Some(Global(0, None, None, args.brokers, args.debug, maxRetries, args.user));
      }
      kafkaGlobal := Some(kafkaGlobal.value.(refcount := kafkaGlobal.value.refcount + 1));
      contexts := contexts[id := Context(config, None)];
    }

    method Deinit(id: nat)
      requires id in contexts
      modifies this`kafkaGlobal, this`contexts, this`lib
      ensures State() == DriverSpec.Deinit(old(State()), id)
    {
      DeinitTopic(id);
      if kafkaGlobal.Some? {
        if kafkaGlobal.value.refcount > 0 {
          kafkaGlobal := Some(kafkaGlobal.value.(refcount := kafkaGlobal.value.refcount - 1));
        } else {
          lib := Blame(lib, RefcountAssertion);
        }
      }
      contexts := contexts - {id};
    }

    method Login(owner: nat, envs: Option<Envs>)
      modifies this`users
      ensures State() == old(State()).(users := old(users)[owner := MailUser(envs, false)])
    {
      users := users[owner := MailUser(envs, false)];
    }

    method Logout(owner: nat)
      modifies this`users
      ensures State() == old(State()).(users := Free(old(users), owner))
    {
      if owner in users {
        users := users[owner := users[owner].(freed := true)];
      }
    }

    method Cleanup()
      modifies this`kafkaGlobal, this`lib
      ensures State() == DriverSpec.Cleanup(old(State()))
    {
      if kafkaGlobal.Some? && kafkaGlobal.value.refcount <= 0 {
        DeinitGlobal();
        kafkaGlobal := None;
      }
    }
  }

  // ---- Whole runs

  predicate WellTypedOp(op: Op) {
    match op
    case OpMsg(_, _, _, Some(events)) => forall ev | ev in events :: MsgWellTyped(ev)
    case OpMbox(_, _, _, Some(events)) => forall ev | ev in events :: MboxWellTyped(ev)
    case _ => true
  }

  method Perform(d: Driver, op: Op)
    requires Applicable(d.contexts.Keys, op) && WellTypedOp(op)
    modifies d
    ensures d.State() == Step(old(d.State()), d.oracle, op)
  {
    match op
    case OpLogin(owner, envs) => d.Login(owner, envs);
    case OpInit(id, args) => d.Init(id, args);
    case OpBegin(id, user) => var _ := d.BeginTxn(id, user);
    case OpMsg(id, user, msg, events) => d.ProcessMsg(id, user, msg, events);
    case OpMbox(id, user, mailbox, events) => d.ProcessMbox(id, user, mailbox, events);
    case OpEnd(user) => d.EndTxn(user);
    case OpDeinit(id) => d.Deinit(id);
    case OpCleanup => d.Cleanup();
    case OpLogout(owner) => d.Logout(owner);
  }

  /** A program that uses the driver as the framework does reaches the state of the step system; the
      result is what its library holds in the end. */
  method RunDriver(o: Oracle, ops: seq<Op>) returns (lib: Lib)
    requires Legal(ops) && forall op | op in ops :: WellTypedOp(op)
    ensures lib == Run(o, ops).lib
  {
    var d := new Driver(o);
    LegalPrefixes(ops, 0);
    for k := 0 to |ops|
      invariant Legal(ops[..k]) && d.oracle == o && fresh(d)
      invariant d.State() == Run(o, ops[..k])
    {
      LegalPrefixes(ops, k + 1);
      assert ops[..k + 1][..k] == ops[..k] && ops[k] in ops;
      Perform(d, ops[k]);
    }
    assert ops[..|ops|] == ops;
    lib := d.lib;
  }

  lemma {:induction false} LegalPrefixes(ops: seq<Op>, k: nat)
    requires Legal(ops) && k <= |ops|
    ensures Legal(ops[..k])
  {
    if k < |ops| {
      var n := |ops| - 1;
      LegalPrefixes(ops[..n], k);
      assert ops[..n][..k] == ops[..k];
    } else {
      assert ops[..k] == ops;
    }
  }
}
