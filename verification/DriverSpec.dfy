/** The driver as a step system: the global shared by all contexts, the contexts, and one step for
    each entry point of the driver. */
module DriverSpec {
  import opened Options
  import opened Json
  import opened Events
  import opened Kafka

  /** Plugin settings come in pairs of a name and a value. */
  type Envs = envs: seq<CString> | |envs| % 2 == 0 witness []

  // ---- State

  /** A `mail_user` object with its plugin settings; absent when the set or the array is missing. */
  datatype MailUser = MailUser(envs: Option<Envs>, freed: bool)

  /** Users are named by number, and like the objects of the library they are never forgotten. */
  type Users = map<nat, MailUser>

  predicate LiveUser(users: Users, u: nat) {
    u in users && !users[u].freed
  }

  /** `struct push_notification_driver_kafka_global`; `user` is a pointer to the user of the context
      that set the global up, and no reference is taken for it. */
  datatype Global = Global(refcount: int, rk: Option<nat>, rkc: Option<nat>,
                           brokers: CString, debug: CString, maxRetries: nat, user: nat)

  /** What a context is given once, in init. */
  datatype Config = Config(topic: CString, userdbJson: Option<string>, rc: RenderContext, enabled: bool)

  /** `struct push_notification_driver_kafka_context` */
  datatype Context = Context(config: Config, rkt: Option<nat>)

  /** One attempt to set up a producer: when the library was asked to take the broker list, and
      whether the user whose settings were read was still there. */
  datatype SetUp = SetUp(time: nat, userLive: bool)

  /** The state, with the history of all attempts to set up a producer. */
  datatype World = World(global: Option<Global>, contexts: map<nat, Context>, lib: Lib,
                         userRefs: map<CString, int>, users: Users, setUps: seq<SetUp>)

  const IDLE := World(None, map[], NO_LIB, map[], map[], [])

  function BlameDriver(w: World, f: Fault): World {
    w.(lib := Blame(w.lib, f))
  }

  // ---- read_plugin_kafka_settings

  const SETTINGS_PREFIX: CString := "kafka.notification.settings"
  const BOOTSTRAP_SERVERS := "bootstrap.servers"
  const DEBUG := "debug"
  const ALL := "all"

  /** Does the k-th name of the environment extend the prefix? */
  predicate IsSetting(envs: seq<CString>, prefix: CString, k: nat)
    requires 2 * k < |envs|
  {
    |envs[2 * k]| > |prefix| && prefix <= envs[2 * k]
  }

  /** The name after the prefix and one separator, whatever byte that is. */
  function SettingName(envs: seq<CString>, prefix: CString, k: nat): string
    requires 2 * k < |envs| && IsSetting(envs, prefix, k)
  {
    envs[2 * k][|prefix| + 1..]
  }

  /** The library after the first `n` pairs have been offered to configuration `conf`. */
  function ReadSettings(l: Lib, o: Oracle, conf: nat, envs: seq<CString>, prefix: CString, n: nat): Lib
    requires 2 * n <= |envs|
  {
    if n == 0 then l
    else
      var l' := ReadSettings(l, o, conf, envs, prefix, n - 1);
      if IsSetting(envs, prefix, n - 1)
      then ConfSet(l', o, conf, SettingName(envs, prefix, n - 1), envs[2 * n - 1]).0
      else l'
  }

  /** How many of the first `n` pairs are offered to the library. */
  function Offered(envs: seq<CString>, prefix: CString, n: nat): nat
    requires 2 * n <= |envs|
  {
    if n == 0 then 0
    else Offered(envs, prefix, n - 1) + if IsSetting(envs, prefix, n - 1) then 1 else 0
  }

  // ---- Producer and topic

  function SetUpConf(l: Lib, o: Oracle, conf: nat, envs: Option<Envs>): Lib {
    match envs
    case None => l
    case Some(es) => ReadSettings(l, o, conf, es, SETTINGS_PREFIX, |es| / 2)
  }

  /** The settings of the user in the global; of a freed user nothing is known. */
  function GlobalEnvs(w: World): Option<Envs> {
    if w.global.Some? && LiveUser(w.users, w.global.value.user) then w.users[w.global.value.user].envs else None
  }

  /** A new configuration with the plugin settings in it. */
  function ConfWithSettings(w: World, o: Oracle): Lib {
    var l := ConfNew(w.lib);
    var l' := if w.global.Some? && !LiveUser(w.users, w.global.value.user) then Blame(l, DanglingUser) else l;
    SetUpConf(l', o, |w.lib.confs|, GlobalEnvs(w))
  }

  /** The rest of init_global: the broker list, the debug level, the producer. It yields the library,
      `rkc` and `rk`. The log level is set without a test of `rk`. */
  function CreateProducer(l: Lib, o: Oracle, conf: nat, brokers: CString): (Lib, Option<nat>, Option<nat>) {
    var (l1, brokersSet) := ConfSet(l, o, conf, BOOTSTRAP_SERVERS, brokers);
    if !brokersSet then (l1, Some(conf), None)
    else
      var (l2, debugSet) := ConfSet(l1, o, conf, DEBUG, ALL);
      if !debugSet then (l2, Some(conf), None)
      else
        var (l3, rk) := ProducerNew(l2, o, conf);
        if rk.None? then (Blame(ConfDestroy(l3, conf), NullLogLevel), None, None) else (l3, Some(conf), rk)
  }

  /** push_notification_driver_kafka_init_global; it returns the producer it leaves in the global. */
  function InitGlobal(w: World, o: Oracle): World {
    match w.global
    case None => BlameDriver(w, NullGlobal)
    case Some(g) =>
      if g.rk.Some? then w
      else
        var l := ConfWithSettings(w, o);
        var (l', rkc, rk) := CreateProducer(l, o, |w.lib.confs|, g.brokers);
        w.(lib := l', global := Some(g.(rkc := rkc, rk := rk)),
           setUps := w.setUps + [SetUp(l.clock, LiveUser(w.users, g.user))])
  }

  /** The producer the global holds. */
  function Rk(w: World): Option<nat> {
    match w.global
    case None => None
    case Some(g) => g.rk
  }

  /** push_notification_driver_kafka_init_topic */
  function InitTopic(w: World, o: Oracle, id: nat): World
    requires id in w.contexts
  {
    var w1 := InitGlobal(w, o);
    var ctx := w.contexts[id];
    if Rk(w1).Some? && ctx.rkt.None? then
      var (l, rkt) := TopicNew(w1.lib, o, Rk(w1).value, ctx.config.topic);
      w1.(lib := l, contexts := w1.contexts[id := ctx.(rkt := rkt)])
    else w1
  }

  /** push_notification_driver_kafka_deinit_topic: the global is dereferenced without a test. */
  function DeinitTopic(w: World, id: nat): World
    requires id in w.contexts
  {
    if w.global.None? then BlameDriver(w, NullGlobal)
    else
      var l := if Rk(w).Some? then Poll(w.lib, Rk(w)) else w.lib;
      var ctx := w.contexts[id];
      match ctx.rkt
      case None => w.(lib := l)
      case Some(t) => w.(lib := TopicDestroy(l, t), contexts := w.contexts[id := ctx.(rkt := None)])
  }

  // ---- push_notification_driver_kafka_send_to_kafka

  /** The loop behind the label `retry`. */
  function Retry(l: Lib, o: Oracle, rk: Option<nat>, t: nat, payload: string, key: CString,
                 counter: nat, maxRetries: nat): Lib
    decreases maxRetries - counter
  {
    var (l1, result) := Produce(l, o, t, payload, key);
    if result.QueueFull? then
      var l2 := Poll(l1, rk);
      if counter < maxRetries then Retry(l2, o, rk, t, payload, key, counter + 1, maxRetries) else l2
    else l1
  }

  function MaxRetries(w: World): nat {
    match w.global
    case None => 0
    case Some(g) => g.maxRetries
  }

  function Send(w: World, o: Oracle, id: nat, payload: string, key: CString): World
    requires id in w.contexts
  {
    var w1 := InitTopic(w, o, id);
    match w1.contexts[id].rkt
    case None => w1
    case Some(t) =>
      w1.(lib := Poll(Retry(w1.lib, o, Rk(w1), t, payload, key, 0, MaxRetries(w1)), Rk(w1)))
  }

  /** The loop over the events of a mailbox or a message; a NULL rendering is not sent. */
  function SendAll(w: World, o: Oracle, id: nat, key: CString, payloads: seq<Option<string>>): (r: World)
    requires id in w.contexts
    ensures r.contexts.Keys == w.contexts.Keys
  {
    if payloads == [] then w
    else
      var n := |payloads| - 1;
      var w1 := SendAll(w, o, id, key, payloads[..n]);
      if payloads[n].Some? then Send(w1, o, id, payloads[n].value, key) else w1
  }

  // ---- Entry points

  /** What init reads from the configuration and from the user. `maxRetries` is absent when the
      setting is missing or is not a number. */
  datatype InitArgs = InitArgs(topic: CString, keywordPrefix: CString, sendFlags: bool, enabled: bool,
                               userdbFields: Option<seq<CString>>, lookup: CString -> Option<CString>,
                               brokers: CString, debug: CString, maxRetries: Option<int>, user: nat)

  function ConfigOf(args: InitArgs): Config {
    Config(args.topic,
           if args.userdbFields.None? then None
           else UserdbFragment(UserdbMembers(args.userdbFields.value, args.lookup)),
           RenderContext(args.sendFlags, Some(args.keywordPrefix)),
           args.enabled)
  }

  function NonNegative(n: Option<int>): nat {
    if n.Some? && n.value >= 0 then n.value else 0
  }

  /** push_notification_driver_kafka_init: the first context sets up the global. */
  function Init(w: World, id: nat, args: InitArgs): World {
    var g := if w.global.Some? then w.global.value
             else Global(0, None, None, args.brokers, args.debug, NonNegative(args.maxRetries), args.user);
    w.(global := Some(g.(refcount := g.refcount + 1)),
       contexts := w.contexts[id := Context(ConfigOf(args), None)])
  }

  function Refs(w: World, user: CString): int {
    if user in w.userRefs then w.userRefs[user] else 0
  }

  /** push_notification_driver_kafka_begin_txn takes a reference even when the context is disabled. */
  function BeginTxn(w: World, user: CString): World {
    w.(userRefs := w.userRefs[user := Refs(w, user) + 1])
  }

  function EndTxn(w: World, user: CString): World {
    w.(userRefs := w.userRefs[user := Refs(w, user) - 1])
  }

  function MsgPayloads(config: Config, user: CString, msg: Message, events: seq<MsgEvent>): (r: seq<Option<string>>)
    ensures |r| == |events|
    ensures forall i | 0 <= i < |events| :: r[i] == MsgText(config.rc, config.userdbJson, user, msg, events[i])
  {
    seq(|events|, i requires 0 <= i < |events| => MsgText(config.rc, config.userdbJson, user, msg, events[i]))
  }

  function MboxPayloads(user: CString, mailbox: CString, events: seq<MboxEvent>): (r: seq<Option<string>>)
    ensures |r| == |events|
    ensures forall i | 0 <= i < |events| :: r[i] == Some(MboxText(user, mailbox, events[i]))
  {
    seq(|events|, i requires 0 <= i < |events| => Some(MboxText(user, mailbox, events[i])))
  }

  function ProcessMsg(w: World, o: Oracle, id: nat, user: CString, msg: Message, events: Option<seq<MsgEvent>>): World
    requires id in w.contexts
  {
    match events
    case None => w
    case Some(es) => SendAll(w, o, id, user, MsgPayloads(w.contexts[id].config, user, msg, es))
  }

  function ProcessMbox(w: World, o: Oracle, id: nat, user: CString, mailbox: CString,
                       events: Option<seq<MboxEvent>>): World
    requires id in w.contexts
  {
    match events
    case None => w
    case Some(es) => SendAll(w, o, id, user, MboxPayloads(user, mailbox, es))
  }

  /** push_notification_driver_kafka_deinit */
  function Deinit(w: World, id: nat): World
    requires id in w.contexts
  {
    var w1 := DeinitTopic(w, id);
    var w2 := match w1.global
      case None => w1
      case Some(g) =>
        if g.refcount > 0 then w1.(global := Some(g.(refcount := g.refcount - 1)))
        else BlameDriver(w1, RefcountAssertion);
    w2.(contexts := w2.contexts - {id})
  }

  /** push_notification_driver_kafka_cleanup: the producer is flushed and destroyed, the global freed. */
  function Cleanup(w: World): World {
    if w.global.Some? && w.global.value.refcount <= 0 then
      match Rk(w)
      case None => w.(global := None)
      case Some(rk) => w.(lib := ProducerDestroy(Poll(w.lib, Some(rk)), rk), global := None)
    else w
  }

  // ---- Runs

  /** The entry points, and the framework's own steps that matter to them: a user object comes into
      being, and it is freed. */
  datatype Op =
    | OpLogin(owner: nat, envs: Option<Envs>)
    | OpInit(id: nat, args: InitArgs)
    | OpBegin(id: nat, user: CString)
    | OpMsg(id: nat, user: CString, msg: Message, events: Option<seq<MsgEvent>>)
    | OpMbox(id: nat, user: CString, mailbox: CString, mboxEvents: Option<seq<MboxEvent>>)
    | OpEnd(user: CString)
    | OpDeinit(id: nat)
    | OpCleanup
    | OpLogout(owner: nat)

  /** A context is initialised once, then used, then deinitialised once. */
  predicate Applicable(live: set<nat>, op: Op) {
    match op
    case OpInit(id, args) => id !in live
    case OpBegin(id, _) => id in live
    case OpMsg(id, _, _, _) => id in live
    case OpMbox(id, _, _, _) => id in live
    case OpDeinit(id) => id in live
    case _ => true
  }

  function Free(users: Users, u: nat): Users {
    if u in users then users[u := users[u].(freed := true)] else users
  }

  function LiveAfter(live: set<nat>, op: Op): set<nat> {
    match op
    case OpInit(id, _) => live + {id}
    case OpDeinit(id) => live - {id}
    case _ => live
  }

  function Step(w: World, o: Oracle, op: Op): (r: World)
    requires Applicable(w.contexts.Keys, op)
    ensures r.contexts.Keys == LiveAfter(w.contexts.Keys, op)
  {
    match op
    case OpLogin(u, envs) => w.(users := w.users[u := MailUser(envs, false)])
    case OpInit(id, args) => Init(w, id, args)
    case OpBegin(_, user) => BeginTxn(w, user)
    case OpMsg(id, user, msg, events) => ProcessMsg(w, o, id, user, msg, events)
    case OpMbox(id, user, mailbox, events) => ProcessMbox(w, o, id, user, mailbox, events)
    case OpEnd(user) => EndTxn(w, user)
    case OpDeinit(id) => Deinit(w, id)
    case OpCleanup => Cleanup(w)
    case OpLogout(u) => w.(users := Free(w.users, u))
  }

  /** What the framework knows without asking the library: the owner of each live context, the users,
      and whose settings the global would read. */
  datatype Frame = Frame(owners: map<nat, nat>, users: Users, globalUser: Option<nat>)

  function FrameAfter(f: Frame, op: Op): Frame {
    match op
    case OpLogin(u, envs) => f.(users := f.users[u := MailUser(envs, false)])
    case OpInit(id, args) =>
      f.(owners := f.owners[id := args.user],
         globalUser := if f.globalUser.Some? then f.globalUser else Some(args.user))
    case OpDeinit(id) => f.(owners := f.owners - {id})
    case OpCleanup => if f.owners.Keys == {} then f.(globalUser := None) else f
    case OpLogout(u) => f.(users := Free(f.users, u))
    case _ => f
  }

  /** A context belongs to a live user, who is freed only after its contexts are gone. Cleanup and the
      end of a transaction may come at any time. */
  predicate LegalOp(f: Frame, op: Op) {
    && Applicable(f.owners.Keys, op)
    && (op.OpLogin? ==> op.owner !in f.users)
    && (op.OpInit? ==> LiveUser(f.users, op.args.user))
    && (op.OpLogout? ==> LiveUser(f.users, op.owner) && forall c | c in f.owners :: f.owners[c] != op.owner)
  }

  function FrameOf(ops: seq<Op>): Frame {
    if ops == [] then Frame(map[], map[], None) else FrameAfter(FrameOf(ops[..|ops| - 1]), ops[|ops| - 1])
  }

  function Live(ops: seq<Op>): set<nat> {
    FrameOf(ops).owners.Keys
  }

  predicate Legal(ops: seq<Op>) {
    ops == [] || (Legal(ops[..|ops| - 1]) && LegalOp(FrameOf(ops[..|ops| - 1]), ops[|ops| - 1]))
  }

  /** The state after a run that starts with nothing set up. */
  function Run(o: Oracle, ops: seq<Op>): (w: World)
    requires Legal(ops)
    ensures w.contexts.Keys == Live(ops)
  {
    if ops == [] then IDLE else Step(Run(o, ops[..|ops| - 1]), o, ops[|ops| - 1])
  }
}
