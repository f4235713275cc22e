/** The user kept in the global: no reference is taken for it, and its settings are read whenever a
    producer is set up. When is that read safe? */
module DriverUsers {
  import opened Options
  import opened Json
  import opened Events
  import opened Kafka
  import opened DriverSpec
  import opened DriverInvariant
  import opened DriverHistory
  import opened DriverTheorems

  // ---- What the framework knows

  /** The state agrees with what can be known without the library. */
  ghost predicate Agrees(w: World, f: Frame) {
    && w.users == f.users && w.contexts.Keys == f.owners.Keys
    && f.globalUser == (if w.global.None? then None else Some(w.global.value.user))
  }

  /** The user whose settings the global would read is still there. */
  predicate UserPresent(f: Frame) {
    f.globalUser.Some? && LiveUser(f.users, f.globalUser.value)
  }

  /** What sending does to users and set-ups: each set-up finds the user as it was. */
  ghost predicate SetsUp(w: World, w': World) {
    && w'.users == w.users && w'.contexts.Keys == w.contexts.Keys
    && w.global.Some? && w'.global.Some? && w'.global.value.user == w.global.value.user
    && w.setUps <= w'.setUps
    && forall i | |w.setUps| <= i < |w'.setUps| ::
         w'.setUps[i].userLive == LiveUser(w.users, w.global.value.user)
  }

  lemma InitGlobalSetsUp(w: World, o: Oracle)
    requires w.global.Some?
    ensures SetsUp(w, InitGlobal(w, o))
    ensures Rk(w).None? ==> |InitGlobal(w, o).setUps| == |w.setUps| + 1
  {
    if w.global.value.rk.None? {
      InitGlobalEffect(w, o);
    }
  }

  lemma SendSetsUp(w: World, o: Oracle, id: nat, payload: string, key: CString)
    requires Inv(w) && id in w.contexts
    ensures SetsUp(w, Send(w, o, id, payload, key))
    ensures Rk(w).None? ==> |Send(w, o, id, payload, key).setUps| == |w.setUps| + 1
    ensures Rk(Send(w, o, id, payload, key)) == Rk(InitGlobal(w, o))
  {
    InitGlobalSetsUp(w, o);
    SendEffect(w, o, id, payload, key);
  }

  lemma SetsUpTwice(w: World, w1: World, w2: World)
    requires SetsUp(w, w1) && SetsUp(w1, w2)
    ensures SetsUp(w, w2)
  {
  }

  lemma {:induction false} SendAllSetsUp(w: World, o: Oracle, id: nat, key: CString, payloads: seq<Option<string>>)
    requires Inv(w) && id in w.contexts
    ensures SetsUp(w, SendAll(w, o, id, key, payloads))
  {
    if payloads == [] {
      assert w.global.Some?;
    } else {
      var n := |payloads| - 1;
      var w1 := SendAll(w, o, id, key, payloads[..n]);
      SendAllSetsUp(w, o, id, key, payloads[..n]);
      SendAllInv(w, o, id, key, payloads[..n]);
      if payloads[n].Some? {
        SendSetsUp(w1, o, id, payloads[n].value, key);
        SetsUpTwice(w, w1, SendAll(w, o, id, key, payloads));
      }
    }
  }

  /** Without a producer, the first text to send is an attempt to set one up. */
  lemma {:induction false} SomeTextSetsUp(w: World, o: Oracle, id: nat, key: CString, payloads: seq<Option<string>>)
    requires Inv(w) && id in w.contexts
    ensures Records(w.contexts[id].config.topic, key, payloads) == [] ==> SendAll(w, o, id, key, payloads) == w
    ensures Rk(w).None? && Records(w.contexts[id].config.topic, key, payloads) != [] ==>
              |SendAll(w, o, id, key, payloads).setUps| > |w.setUps|
  {
    if payloads != [] {
      var n := |payloads| - 1;
      var w1 := SendAll(w, o, id, key, payloads[..n]);
      SomeTextSetsUp(w, o, id, key, payloads[..n]);
      if payloads[n].Some? {
        SendAllInv(w, o, id, key, payloads[..n]);
        SendAllSetsUp(w, o, id, key, payloads[..n]);
        SendSetsUp(w1, o, id, payloads[n].value, key);
      }
    }
  }

  // ---- Runs

  lemma DeinitAgrees(w: World, id: nat, f: Frame)
    requires Inv(w) && Agrees(w, f) && id in w.contexts
    ensures Agrees(Deinit(w, id), FrameAfter(f, OpDeinit(id)))
  {
    DeinitTopicInv(w, id);
    assert DeinitTopic(w, id).users == w.users;
  }

  lemma CleanupAgrees(w: World, f: Frame)
    requires Inv(w) && Agrees(w, f)
    ensures Agrees(Cleanup(w), FrameAfter(f, OpCleanup))
  {
    if w.global.Some? {
      assert w.global.value.refcount <= 0 <==> w.contexts.Keys == {};
    }
  }

  lemma InitAgrees(w: World, id: nat, args: InitArgs, f: Frame)
    requires Agrees(w, f)
    ensures Agrees(Init(w, id, args), FrameAfter(f, OpInit(id, args)))
  {
  }

  lemma QuietAgrees(w: World, o: Oracle, op: Op, f: Frame)
    requires Inv(w) && Agrees(w, f) && LegalOp(f, op) && !Sends(op)
    ensures Agrees(Step(w, o, op), FrameAfter(f, op))
  {
    match op
    case OpInit(id, args) => InitAgrees(w, id, args, f);
    case OpDeinit(id) => DeinitAgrees(w, id, f);
    case OpCleanup => CleanupAgrees(w, f);
    case _ =>
  }

  lemma SendingAgrees(w: World, o: Oracle, op: Op, f: Frame)
    requires Inv(w) && Agrees(w, f) && LegalOp(f, op) && Sends(op)
    ensures Agrees(Step(w, o, op), FrameAfter(f, op)) && SetsUp(w, Step(w, o, op))
  {
    StepSends(w, o, op);
    SendAllSetsUp(w, o, op.id, op.user, Payloads(w.contexts[op.id].config, op));
  }

  /** Set-ups are never forgotten. */
  lemma StepAgrees(w: World, o: Oracle, op: Op, f: Frame)
    requires Inv(w) && Agrees(w, f) && LegalOp(f, op)
    ensures Agrees(Step(w, o, op), FrameAfter(f, op)) && w.setUps <= Step(w, o, op).setUps
  {
    if Sends(op) {
      SendingAgrees(w, o, op, f);
    } else {
      QuietHistory(w, o, op);
      QuietAgrees(w, o, op, f);
    }
  }

  lemma {:induction false} RunAgrees(o: Oracle, ops: seq<Op>)
    requires Legal(ops)
    ensures Agrees(Run(o, ops), FrameOf(ops))
  {
    if ops != [] {
      var n := |ops| - 1;
      RunAgrees(o, ops[..n]);
      RunInv(o, ops[..n]);
      StepAgrees(Run(o, ops[..n]), o, ops[n], FrameOf(ops[..n]));
    }
  }

  /** After the run `before`, the operation asks to send something, and the user kept in the global is gone. */
  predicate TooLate(before: seq<Op>, op: Op)
    requires Legal(before) && LegalOp(FrameOf(before), op)
  {
    OpRecords(Configs(before), op) != [] && !UserPresent(FrameOf(before))
  }

  /** Some operation of the run does. */
  predicate Dangles(ops: seq<Op>)
    requires Legal(ops)
  {
    ops != [] && (Dangles(ops[..|ops| - 1]) || TooLate(ops[..|ops| - 1], ops[|ops| - 1]))
  }

  ghost predicate AllLive(setUps: seq<SetUp>) {
    forall s | s in setUps :: s.userLive
  }

  /** A library that refuses every configuration, so that every send tries again. */
  function Refusing(t: nat): Reply {
    Reply(OtherError, false, false, false)
  }

  lemma SendingStaysLive(w: World, o: Oracle, op: Op, f: Frame)
    requires Inv(w) && Agrees(w, f) && LegalOp(f, op) && Sends(op) && AllLive(w.setUps)
    requires var config := w.contexts[op.id].config;
             UserPresent(f) || Records(config.topic, op.user, Payloads(config, op)) == []
    ensures AllLive(Step(w, o, op).setUps)
  {
    var w' := Step(w, o, op);
    if UserPresent(f) {
      SendingAgrees(w, o, op, f);
      assert forall i | 0 <= i < |w.setUps| :: w'.setUps[i] == w.setUps[i];
    } else {
      StepSends(w, o, op);
      SomeTextSetsUp(w, o, op.id, op.user, Payloads(w.contexts[op.id].config, op));
    }
  }

  /** What an operation asks to send, as its context renders it. */
  lemma RecordsAgree(o: Oracle, before: seq<Op>, op: Op)
    requires Legal(before) && LegalOp(FrameOf(before), op) && Sends(op)
    ensures var w := Run(o, before);
            OpRecords(Configs(before), op)
              == Records(w.contexts[op.id].config.topic, op.user, Payloads(w.contexts[op.id].config, op))
  {
    ConfigsAgree(o, before);
    assert op.id in Run(o, before).contexts;
  }

  /** A step adds only live set-ups, unless it comes too late. */
  lemma SafeStep(o: Oracle, before: seq<Op>, op: Op)
    requires Legal(before) && LegalOp(FrameOf(before), op)
    requires AllLive(Run(o, before).setUps) && !TooLate(before, op)
    ensures AllLive(Step(Run(o, before), o, op).setUps)
  {
    RunInv(o, before);
    RunAgrees(o, before);
    if Sends(op) {
      RecordsAgree(o, before, op);
      SendingStaysLive(Run(o, before), o, op, FrameOf(before));
    } else {
      QuietHistory(Run(o, before), o, op);
    }
  }

  lemma {:induction false} SafeWhilePresent(o: Oracle, ops: seq<Op>)
    requires Legal(ops) && !Dangles(ops)
    ensures AllLive(Run(o, ops).setUps)
  {
    if ops != [] {
      SafeWhilePresent(o, ops[..|ops| - 1]);
      SafeStep(o, ops[..|ops| - 1], ops[|ops| - 1]);
    }
  }

  // ---- A library that refuses

  lemma RefusedSend(w: World, id: nat, payload: string, key: CString)
    requires Inv(w) && id in w.contexts && Rk(w).None?
    ensures Rk(Send(w, Refusing, id, payload, key)).None?
  {
    InitGlobalEffect(w, Refusing);
    SendSetsUp(w, Refusing, id, payload, key);
  }

  lemma {:induction false} RefusedSendAll(w: World, id: nat, key: CString, payloads: seq<Option<string>>)
    requires Inv(w) && id in w.contexts && Rk(w).None?
    ensures Rk(SendAll(w, Refusing, id, key, payloads)).None?
  {
    if payloads != [] {
      var n := |payloads| - 1;
      RefusedSendAll(w, id, key, payloads[..n]);
      SendAllInv(w, Refusing, id, key, payloads[..n]);
      if payloads[n].Some? {
        RefusedSend(SendAll(w, Refusing, id, key, payloads[..n]), id, payloads[n].value, key);
      }
    }
  }

  lemma RefusedQuiet(w: World, op: Op)
    requires Inv(w) && Applicable(w.contexts.Keys, op) && !Sends(op) && Rk(w).None?
    ensures Rk(Step(w, Refusing, op)).None?
  {
    if op.OpDeinit? {
      DeinitTopicInv(w, op.id);
    }
  }

  lemma {:induction false} RefusedRun(ops: seq<Op>)
    requires Legal(ops)
    ensures Rk(Run(Refusing, ops)).None?
  {
    if ops != [] {
      var n := |ops| - 1;
      var w := Run(Refusing, ops[..n]);
      RefusedRun(ops[..n]);
      RunInv(Refusing, ops[..n]);
      if Sends(ops[n]) {
        StepSends(w, Refusing, ops[n]);
        RefusedSendAll(w, ops[n].id, ops[n].user, Payloads(w.contexts[ops[n].id].config, ops[n]));
      } else {
        RefusedQuiet(w, ops[n]);
      }
    }
  }

  lemma DanglingStep(before: seq<Op>, op: Op)
    requires Legal(before) && LegalOp(FrameOf(before), op) && TooLate(before, op)
    ensures !AllLive(Step(Run(Refusing, before), Refusing, op).setUps)
  {
    var w := Run(Refusing, before);
    var w' := Step(w, Refusing, op);
    RunInv(Refusing, before);
    RunAgrees(Refusing, before);
    RefusedRun(before);
    RecordsAgree(Refusing, before, op);
    StepSends(w, Refusing, op);
    SomeTextSetsUp(w, Refusing, op.id, op.user, Payloads(w.contexts[op.id].config, op));
    SendingAgrees(w, Refusing, op, FrameOf(before));
    assert w'.setUps[|w.setUps|] in w'.setUps;
  }

  lemma {:induction false} RefusedDangles(ops: seq<Op>)
    requires Legal(ops) && Dangles(ops)
    ensures !AllLive(Run(Refusing, ops).setUps)
  {
    var before, op := ops[..|ops| - 1], ops[|ops| - 1];
    if TooLate(before, op) {
      DanglingStep(before, op);
    } else {
      RefusedDangles(before);
      RunInv(Refusing, before);
      RunAgrees(Refusing, before);
      StepAgrees(Run(Refusing, before), Refusing, op, FrameOf(before));
    }
  }

  // ---- When the read is safe

  /** No library makes the driver read a freed user exactly when every operation that has something to
      send comes while the user of the context that set the global up is still there. */
  lemma DanglingExactly(ops: seq<Op>)
    requires Legal(ops)
    ensures (forall o: Oracle :: DanglingUser !in Run(o, ops).lib.faults) <==> !Dangles(ops)
  {
    if Dangles(ops) {
      RefusedDangles(ops);
      RunHistory(Refusing, ops);
      assert DanglingUser in Run(Refusing, ops).lib.faults;
    } else {
      forall o: Oracle
        ensures DanglingUser !in Run(o, ops).lib.faults
      {
        SafeWhilePresent(o, ops);
        RunHistory(o, ops);
      }
    }
  }

  lemma OneMore(before: seq<Op>, op: Op)
    requires Legal(before) && LegalOp(FrameOf(before), op)
    ensures Legal(before + [op]) && FrameOf(before + [op]) == FrameAfter(FrameOf(before), op)
    ensures TooLate(before, op) ==> Dangles(before + [op])
  {
    assert (before + [op])[..|before|] == before;
  }

  /** It goes wrong once the user kept in the global has left in good order, with another user's context
      still there to send. */
  lemma LeavingDangles(before: seq<Op>, id: nat, user: CString, mailbox: CString, ev: MboxEvent)
    requires Legal(before) && UserPresent(FrameOf(before)) && id in FrameOf(before).owners
    requires var f := FrameOf(before); forall c | c in f.owners :: f.owners[c] != f.globalUser.value
    ensures var ops := before + [OpLogout(FrameOf(before).globalUser.value)] + [OpMbox(id, user, mailbox, Some([ev]))];
            Legal(ops) && Dangles(ops)
  {
    var gone := before + [OpLogout(FrameOf(before).globalUser.value)];
    var op := OpMbox(id, user, mailbox, Some([ev]));
    OneMore(before, OpLogout(FrameOf(before).globalUser.value));
    assert Payloads(Configs(gone)[id], op)[0].Some?;
    RecordsInclude(Configs(gone)[id].topic, user, Payloads(Configs(gone)[id], op), 0);
    OneMore(gone, op);
  }

  /** Two users with a context each, the first of which set the global up. */
  function TwoUsers(envs: Option<Envs>, first: InitArgs, second: InitArgs): seq<Op> {
    [] + [OpLogin(first.user, envs)] + [OpLogin(second.user, envs)] + [OpInit(1, first)] + [OpInit(2, second)]
  }

  lemma TwoUsersFrame(envs: Option<Envs>, first: InitArgs, second: InitArgs)
    requires first.user != second.user
    ensures var ops, user := TwoUsers(envs, first, second), MailUser(envs, false);
            Legal(ops) && FrameOf(ops) == Frame(map[1 := first.user, 2 := second.user],
                                                map[first.user := user, second.user := user], Some(first.user))
  {
    var none: seq<Op> := [];
    OneMore(none, OpLogin(first.user, envs));
    var one := none + [OpLogin(first.user, envs)];
    OneMore(one, OpLogin(second.user, envs));
    var two := one + [OpLogin(second.user, envs)];
    OneMore(two, OpInit(1, first));
    OneMore(two + [OpInit(1, first)], OpInit(2, second));
  }

  /** Such a run exists, whatever the users are configured to do: the first context goes, with the
      cleanup that follows. */
  lemma FirstUserCanLeave(envs: Option<Envs>, first: InitArgs, second: InitArgs)
    requires first.user != second.user
    ensures var ops := TwoUsers(envs, first, second) + [OpDeinit(1)] + [OpCleanup];
            && Legal(ops) && UserPresent(FrameOf(ops)) && FrameOf(ops).globalUser == Some(first.user)
            && FrameOf(ops).owners == map[2 := second.user]
  {
    var ops := TwoUsers(envs, first, second);
    TwoUsersFrame(envs, first, second);
    OneMore(ops, OpDeinit(1));
    assert FrameOf(ops + [OpDeinit(1)]).owners == map[2 := second.user];
    OneMore(ops + [OpDeinit(1)], OpCleanup);
  }
}
