/** What a run records about its attempts to set up a producer: the fate of each configuration object
    is the library's answers to three calls, and the two faults the code does reach are told by them. */
module DriverHistory {
  import opened Options
  import opened Json
  import opened Kafka
  import opened DriverSpec
  import opened DriverInvariant

  /** One configuration for each attempt, with the fate the library gave it. The log level was set on
      NULL if some attempt failed in rd_kafka_new, a freed user was read if some attempt found it so. */
  ghost predicate History(w: World, o: Oracle) {
    && |w.lib.confs| == |w.setUps|
    && (forall i | 0 <= i < |w.setUps| :: w.lib.confs[i].status == Outcome(o, w.setUps[i].time))
    && (NullLogLevel in w.lib.faults <==> exists s :: s in w.setUps && Outcome(o, s.time).Destroyed?)
    && (DanglingUser in w.lib.faults <==> exists s :: s in w.setUps && !s.userLive)
  }

  /** Nothing happened that the history would tell. */
  predicate SameHistory(w: World, w': World) {
    w'.lib.confs == w.lib.confs && w'.lib.faults == w.lib.faults && w'.setUps == w.setUps
  }

  lemma InitGlobalHistory(w: World, o: Oracle)
    requires History(w, o) && w.global.Some?
    ensures History(InitGlobal(w, o), o)
  {
    if w.global.value.rk.None? {
      InitGlobalEffect(w, o);
      var w' := InitGlobal(w, o);
      var n, last := |w.setUps|, w'.setUps[|w.setUps|];
      assert forall s :: s in w'.setUps <==> s in w.setUps || s == last;
      assert w'.lib.confs[..n] == w.lib.confs;
    }
  }

  /** All that a send adds to the history is what init_global adds. */
  lemma SendAddsInitGlobal(w: World, o: Oracle, id: nat, payload: string, key: CString)
    requires Inv(w) && id in w.contexts
    ensures SameHistory(InitGlobal(w, o), Send(w, o, id, payload, key))
  {
    InitGlobalInv(w, o);
    SendEffect(w, o, id, payload, key);
  }

  lemma {:induction false} SendAllHistory(w: World, o: Oracle, id: nat, key: CString, payloads: seq<Option<string>>)
    requires Inv(w) && id in w.contexts && History(w, o)
    ensures History(SendAll(w, o, id, key, payloads), o)
  {
    if payloads != [] {
      var n := |payloads| - 1;
      var w1 := SendAll(w, o, id, key, payloads[..n]);
      SendAllHistory(w, o, id, key, payloads[..n]);
      SendAllInv(w, o, id, key, payloads[..n]);
      if payloads[n].Some? {
        InitGlobalHistory(w1, o);
        SendAddsInitGlobal(w1, o, id, payloads[n].value, key);
      }
    }
  }

  lemma DeinitHistory(w: World, id: nat)
    requires Inv(w) && id in w.contexts
    ensures SameHistory(w, Deinit(w, id))
  {
    assert OwnsTopic(w, id);
    assert SameHistory(w, DeinitTopic(w, id));
  }

  lemma CleanupHistory(w: World)
    requires Inv(w)
    ensures SameHistory(w, Cleanup(w))
  {
    if w.global.Some? && w.global.value.refcount <= 0 {
      assert w.contexts.Keys == {};
      assert forall t :: !Held(w, t);
    }
  }

  /** No other entry point touches what the history is about. */
  lemma QuietHistory(w: World, o: Oracle, op: Op)
    requires Inv(w) && Applicable(w.contexts.Keys, op) && !Sends(op)
    ensures SameHistory(w, Step(w, o, op))
  {
    match op
    case OpDeinit(id) => DeinitHistory(w, id);
    case OpCleanup => CleanupHistory(w);
    case _ =>
  }

  lemma StepHistory(w: World, o: Oracle, op: Op)
    requires Inv(w) && Applicable(w.contexts.Keys, op) && History(w, o)
    ensures History(Step(w, o, op), o)
  {
    if Sends(op) {
      StepSends(w, o, op);
      SendAllHistory(w, o, op.id, op.user, Payloads(w.contexts[op.id].config, op));
    } else {
      QuietHistory(w, o, op);
    }
  }

  lemma {:induction false} RunHistory(o: Oracle, ops: seq<Op>)
    requires Legal(ops)
    ensures History(Run(o, ops), o)
  {
    if ops != [] {
      var n := |ops| - 1;
      RunHistory(o, ops[..n]);
      RunInv(o, ops[..n]);
      StepHistory(Run(o, ops[..n]), o, ops[n]);
    }
  }

  // ---- Configuration objects

  /** How many attempts came to this outcome, by the library's answers alone. */
  function Outcomes(o: Oracle, setUps: seq<SetUp>, s: ConfStatus): nat {
    if setUps == [] then 0
    else Outcomes(o, setUps[..|setUps| - 1], s) + if Outcome(o, setUps[|setUps| - 1].time) == s then 1 else 0
  }

  lemma {:induction false} CountIsOutcomes(o: Oracle, setUps: seq<SetUp>, confs: seq<Conf>, s: ConfStatus)
    requires |confs| == |setUps|
    requires forall i | 0 <= i < |setUps| :: confs[i].status == Outcome(o, setUps[i].time)
    ensures Count(confs, s) == Outcomes(o, setUps, s)
  {
    if setUps != [] {
      CountIsOutcomes(o, setUps[..|setUps| - 1], confs[..|confs| - 1], s);
    }
  }

  lemma {:induction false} OutcomesZero(o: Oracle, setUps: seq<SetUp>, s: ConfStatus)
    ensures Outcomes(o, setUps, s) == 0 <==> forall u | u in setUps :: Outcome(o, u.time) != s
  {
    if setUps != [] {
      var n := |setUps| - 1;
      OutcomesZero(o, setUps[..n], s);
      assert forall u :: u in setUps <==> u in setUps[..n] || u == setUps[n];
    }
  }

  lemma {:induction false} CountPartition(confs: seq<Conf>)
    ensures |confs| == Count(confs, Open) + Count(confs, Consumed) + Count(confs, Destroyed)
  {
    if confs != [] {
      CountPartition(confs[..|confs| - 1]);
    }
  }

  /** Every configuration object ever created was consumed by a producer, destroyed after a failed
      rd_kafka_new, or stranded by an early return; the library's answers decide which. */
  lemma ConfsConserved(o: Oracle, ops: seq<Op>)
    requires Legal(ops)
    ensures var w := Run(o, ops);
            && |w.lib.confs| == |w.setUps|
            && |w.lib.confs| == |w.lib.producers| + Outcomes(o, w.setUps, Destroyed) + Outcomes(o, w.setUps, Open)
            && forall s: ConfStatus :: Count(w.lib.confs, s) == Outcomes(o, w.setUps, s)
  {
    RunInv(o, ops);
    RunHistory(o, ops);
    var w := Run(o, ops);
    CountPartition(w.lib.confs);
    forall s: ConfStatus
      ensures Count(w.lib.confs, s) == Outcomes(o, w.setUps, s)
    {
      CountIsOutcomes(o, w.setUps, w.lib.confs, s);
    }
  }

  /** A run strands nothing exactly when the library took the broker list and the debug level at every
      attempt; refused plugin settings strand nothing. */
  lemma NothingStranded(o: Oracle, ops: seq<Op>)
    requires Legal(ops)
    ensures var w := Run(o, ops);
            Count(w.lib.confs, Open) == 0 <==>
            forall s | s in w.setUps :: o(s.time).confAccepts && o(s.time + 1).confAccepts
  {
    ConfsConserved(o, ops);
    OutcomesZero(o, Run(o, ops).setUps, Open);
  }

  // ---- The setting `kafka_debug`: it is read, stored in the global, and never looked at again

  function SetDebug(w: World, debug: CString): World {
    if w.global.None? then w else w.(global := Some(w.global.value.(debug := debug)))
  }

  function OpWithDebug(op: Op, debug: CString): Op {
    match op
    case OpInit(id, args) => OpInit(id, args.(debug := debug))
    case _ => op
  }

  /** The run in which every context is configured with this debug level. */
  function WithDebug(ops: seq<Op>, debug: CString): seq<Op> {
    if ops == [] then [] else WithDebug(ops[..|ops| - 1], debug) + [OpWithDebug(ops[|ops| - 1], debug)]
  }

  lemma InitGlobalDebug(w: World, o: Oracle, debug: CString)
    ensures InitGlobal(SetDebug(w, debug), o) == SetDebug(InitGlobal(w, o), debug)
  {
    assert ConfWithSettings(SetDebug(w, debug), o) == ConfWithSettings(w, o);
  }

  lemma InitTopicDebug(w: World, o: Oracle, id: nat, debug: CString)
    requires id in w.contexts
    ensures InitTopic(SetDebug(w, debug), o, id) == SetDebug(InitTopic(w, o, id), debug)
  {
    InitGlobalDebug(w, o, debug);
  }

  lemma SendDebug(w: World, o: Oracle, id: nat, payload: string, key: CString, debug: CString)
    requires id in w.contexts
    ensures Send(SetDebug(w, debug), o, id, payload, key) == SetDebug(Send(w, o, id, payload, key), debug)
  {
    InitTopicDebug(w, o, id, debug);
  }

  lemma {:induction false} SendAllDebug(w: World, o: Oracle, id: nat, key: CString, payloads: seq<Option<string>>,
                                        debug: CString)
    requires id in w.contexts
    ensures SendAll(SetDebug(w, debug), o, id, key, payloads) == SetDebug(SendAll(w, o, id, key, payloads), debug)
  {
    if payloads != [] {
      var n := |payloads| - 1;
      SendAllDebug(w, o, id, key, payloads[..n], debug);
      if payloads[n].Some? {
        SendDebug(SendAll(w, o, id, key, payloads[..n]), o, id, payloads[n].value, key, debug);
      }
    }
  }

  lemma DeinitDebug(w: World, id: nat, debug: CString)
    requires id in w.contexts
    ensures Deinit(SetDebug(w, debug), id) == SetDebug(Deinit(w, id), debug)
  {
    assert DeinitTopic(SetDebug(w, debug), id) == SetDebug(DeinitTopic(w, id), debug);
  }

  lemma InitDebug(w: World, id: nat, args: InitArgs, debug: CString)
    ensures Init(SetDebug(w, debug), id, args.(debug := debug)) == SetDebug(Init(w, id, args), debug)
  {
  }

  lemma CleanupDebug(w: World, debug: CString)
    ensures Cleanup(SetDebug(w, debug)) == SetDebug(Cleanup(w), debug)
  {
  }

  lemma QuietDebug(w: World, o: Oracle, op: Op, debug: CString)
    requires Applicable(w.contexts.Keys, op) && !Sends(op)
    ensures Step(SetDebug(w, debug), o, OpWithDebug(op, debug)) == SetDebug(Step(w, o, op), debug)
  {
    match op
    case OpDeinit(id) => DeinitDebug(w, id, debug);
    case OpInit(id, args) => InitDebug(w, id, args, debug);
    case OpCleanup => CleanupDebug(w, debug);
    case _ =>
  }

  lemma StepDebug(w: World, o: Oracle, op: Op, debug: CString)
    requires Applicable(w.contexts.Keys, op)
    ensures Step(SetDebug(w, debug), o, OpWithDebug(op, debug)) == SetDebug(Step(w, o, op), debug)
  {
    if Sends(op) {
      StepSends(w, o, op);
      StepSends(SetDebug(w, debug), o, op);
      SendAllDebug(w, o, op.id, op.user, Payloads(w.contexts[op.id].config, op), debug);
    } else {
      QuietDebug(w, o, op, debug);
    }
  }

  /** Over a whole run the setting changes nothing but its own copy: not a single library call. */
  lemma {:induction false} KafkaDebugIgnored(o: Oracle, ops: seq<Op>, debug: CString)
    requires Legal(ops)
    ensures Legal(WithDebug(ops, debug)) && FrameOf(WithDebug(ops, debug)) == FrameOf(ops)
    ensures Run(o, WithDebug(ops, debug)) == SetDebug(Run(o, ops), debug)
    ensures Run(o, WithDebug(ops, debug)).lib == Run(o, ops).lib
  {
    if ops != [] {
      var n := |ops| - 1;
      var ops' := WithDebug(ops, debug);
      KafkaDebugIgnored(o, ops[..n], debug);
      assert ops'[..|ops'| - 1] == WithDebug(ops[..n], debug);
      StepDebug(Run(o, ops[..n]), o, ops[n], debug);
    }
  }
}
