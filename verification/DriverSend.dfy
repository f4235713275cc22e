/** The bounded retry loop against an arbitrary producer queue. */
module DriverSend {
  import opened Options
  import opened Json
  import opened Kafka
  import opened DriverSpec
  import opened DriverInvariant

  const INT_MAX: int := 0x7FFF_FFFF

  /** The answer to the k-th attempt of a loop that starts at time `t0`. */
  function Answer(o: Oracle, t0: nat, k: nat): ProduceResult {
    o(t0 + k).produce
  }

  /** Attempt `k` is the last one: the first that does not find the queue full, or the last allowed. */
  ghost predicate StopsAt(o: Oracle, t0: nat, maxRetries: nat, k: nat) {
    && k <= maxRetries
    && (forall j | 0 <= j < k :: Answer(o, t0, j).QueueFull?)
    && (k < maxRetries ==> !Answer(o, t0, k).QueueFull?)
  }

  function StopIndex(o: Oracle, t0: nat, maxRetries: nat): (k: nat)
    ensures StopsAt(o, t0, maxRetries, k)
    decreases maxRetries
  {
    if maxRetries == 0 then 0
    else
      var k := StopIndex(o, t0, maxRetries - 1);
      if k < maxRetries - 1 || !Answer(o, t0, k).QueueFull? then k else maxRetries
  }

  /** Failures to enqueue because the queue was full; each of them is followed by one poll. */
  function QueueFullFailures(o: Oracle, t0: nat, maxRetries: nat): nat {
    var k := StopIndex(o, t0, maxRetries);
    k + if Answer(o, t0, k).QueueFull? then 1 else 0
  }

  /** The message is enqueued exactly when some attempt within the bound succeeds, all earlier ones
      having found the queue full. */
  ghost predicate Enqueues(o: Oracle, t0: nat, maxRetries: nat) {
    exists k: nat | k <= maxRetries ::
      Answer(o, t0, k).Enqueued? && forall j | 0 <= j < k :: Answer(o, t0, j).QueueFull?
  }

  lemma EnqueuesAtStop(o: Oracle, t0: nat, maxRetries: nat)
    ensures Enqueues(o, t0, maxRetries) <==> Answer(o, t0, StopIndex(o, t0, maxRetries)).Enqueued?
  {
  }

  /** The loop: its attempts, its polls, and what it adds to the log. */
  lemma {:induction false} RetryExact(l: Lib, o: Oracle, rk: Option<nat>, t: nat, payload: string, key: CString,
                                      counter: nat, maxRetries: nat, k: nat)
    requires LiveTopic(l, t) && rk == Some(l.topics[t].producer) && LiveProducer(l, l.topics[t].producer)
    requires counter <= maxRetries && StopsAt(o, l.clock, maxRetries - counter, k)
    ensures var l' := Retry(l, o, rk, t, payload, key, counter, maxRetries);
            var last := Answer(o, l.clock, k);
            && l'.clock == l.clock + k + 1
            && l'.polls == l.polls + k + (if last.QueueFull? then 1 else 0)
            && l'.accepted == l.accepted + (if last.Enqueued? then [Record(l.topics[t].name, payload, key)] else [])
    decreases maxRetries - counter
  {
    var (l1, result) := Produce(l, o, t, payload, key);
    assert result == Answer(o, l.clock, 0);
    if result.QueueFull? && counter < maxRetries {
      var l2 := Poll(l1, rk);
      assert k > 0;
      forall j | 0 <= j < k - 1
        ensures Answer(o, l2.clock, j).QueueFull?
      {
        assert Answer(o, l2.clock, j) == Answer(o, l.clock, j + 1);
      }
      assert Answer(o, l2.clock, k - 1) == Answer(o, l.clock, k);
      RetryExact(l2, o, rk, t, payload, key, counter + 1, maxRetries, k - 1);
    } else {
      assert k == 0;
    }
  }

  /** The retry counter is incremented once per full queue. As a C `int` it overflows only when the
      bound is INT_MAX itself and no attempt ever leaves the queue-full state. */
  lemma CounterOverflowsExactly(o: Oracle, t0: nat, maxRetries: nat)
    requires maxRetries <= INT_MAX
    ensures QueueFullFailures(o, t0, maxRetries) > INT_MAX <==>
            maxRetries == INT_MAX && forall j | 0 <= j <= INT_MAX :: Answer(o, t0, j).QueueFull?
  {
  }

  // ---- One send

  /** Will a message sent now be taken? The topic must exist, or come into being, and an attempt succeed. */
  ghost predicate Sendable(w: World, o: Oracle, id: nat)
    requires id in w.contexts
  {
    var w1 := InitTopic(w, o, id);
    w1.contexts[id].rkt.Some? && Enqueues(o, w1.lib.clock, MaxRetries(w1))
  }

  lemma InitGlobalAccepted(w: World, o: Oracle)
    requires w.global.Some?
    ensures InitGlobal(w, o).lib.accepted == w.lib.accepted && InitGlobal(w, o).contexts == w.contexts
  {
    if w.global.value.rk.None? {
      InitGlobalEffect(w, o);
    }
  }

  lemma InitTopicAccepted(w: World, o: Oracle, id: nat)
    requires Inv(w) && id in w.contexts
    ensures InitTopic(w, o, id).lib.accepted == w.lib.accepted
    ensures InitTopic(w, o, id).contexts.Keys == w.contexts.Keys
    ensures forall c | c in w.contexts :: InitTopic(w, o, id).contexts[c].config == w.contexts[c].config
  {
    InitGlobalAccepted(w, o);
  }

  /** A send logs its message once, under the topic of its context, or not at all. */
  lemma SendLogs(w: World, o: Oracle, id: nat, payload: string, key: CString)
    requires Inv(w) && id in w.contexts
    ensures var w' := Send(w, o, id, payload, key);
            && w'.lib.accepted == w.lib.accepted
                 + (if Sendable(w, o, id) then [Record(w.contexts[id].config.topic, payload, key)] else [])
            && w'.contexts.Keys == w.contexts.Keys
            && forall c | c in w.contexts :: w'.contexts[c].config == w.contexts[c].config
  {
    InitTopicInv(w, o, id);
    InitTopicAccepted(w, o, id);
    SendEffect(w, o, id, payload, key);
    var w1 := InitTopic(w, o, id);
    assert OwnsTopic(w1, id);
    if w1.contexts[id].rkt.Some? {
      var k := StopIndex(o, w1.lib.clock, MaxRetries(w1));
      EnqueuesAtStop(o, w1.lib.clock, MaxRetries(w1));
      RetryExact(w1.lib, o, Rk(w1), w1.contexts[id].rkt.value, payload, key, 0, MaxRetries(w1), k);
      RetrySendOnly(w1.lib, o, Rk(w1), w1.contexts[id].rkt.value, payload, key, 0, MaxRetries(w1));
    }
  }

  /** A send on an existing topic: attempts, polls and outcome. */
  lemma SendExact(w: World, o: Oracle, id: nat, payload: string, key: CString)
    requires Inv(w) && id in w.contexts && InitTopic(w, o, id).contexts[id].rkt.Some?
    ensures var w1 := InitTopic(w, o, id);
            var w', t0, max := Send(w, o, id, payload, key), w1.lib.clock, MaxRetries(w1);
            && w'.lib.clock == t0 + StopIndex(o, t0, max) + 1
            && w'.lib.polls == w1.lib.polls + QueueFullFailures(o, t0, max) + 1
            && (|w'.lib.accepted| > |w.lib.accepted| <==> Enqueues(o, t0, max))
  {
    InitTopicInv(w, o, id);
    InitTopicAccepted(w, o, id);
    var w1 := InitTopic(w, o, id);
    assert OwnsTopic(w1, id);
    var t0, max := w1.lib.clock, MaxRetries(w1);
    EnqueuesAtStop(o, t0, max);
    RetryExact(w1.lib, o, Rk(w1), w1.contexts[id].rkt.value, payload, key, 0, max, StopIndex(o, t0, max));
    RetrySendOnly(w1.lib, o, Rk(w1), w1.contexts[id].rkt.value, payload, key, 0, max);
  }

  // ---- Calls around the messages

  /** A context that has its topic asks the library for nothing before it sends. */
  lemma TopicReused(w: World, o: Oracle, id: nat)
    requires Inv(w) && id in w.contexts && w.contexts[id].rkt.Some?
    ensures InitTopic(w, o, id) == w
  {
    assert OwnsTopic(w, id);
  }

  /** A send without a topic gives up without a poll and without a message. */
  lemma UnsentQuietly(w: World, o: Oracle, id: nat, payload: string, key: CString)
    requires Inv(w) && id in w.contexts && InitTopic(w, o, id).contexts[id].rkt.None?
    ensures Send(w, o, id, payload, key).lib.polls == w.lib.polls
    ensures Send(w, o, id, payload, key).lib.accepted == w.lib.accepted
  {
    InitTopicAccepted(w, o, id);
    InitGlobalPolls(w, o);
  }

  lemma InitGlobalPolls(w: World, o: Oracle)
    requires w.global.Some?
    ensures InitGlobal(w, o).lib.polls == w.lib.polls
  {
    if w.global.value.rk.None? {
      InitGlobalEffect(w, o);
    }
  }

  /** Deinit polls once for a live producer, destroys the topic of its context, and calls for nothing else. */
  lemma DeinitCalls(w: World, id: nat)
    requires Inv(w) && id in w.contexts
    ensures var l, l' := w.lib, Deinit(w, id).lib;
            && l' == l.(polls := l.polls + (if Rk(w).Some? then 1 else 0), topics := l'.topics)
            && l'.topics == match w.contexts[id].rkt {
                 case None => l.topics
                 case Some(t) => if t < |l.topics| then l.topics[t := l.topics[t].(destroyed := 1)] else l.topics
               }
  {
    assert OwnsTopic(w, id);
    DeinitInv(w, id);
  }

  /** Cleanup with no context left flushes and destroys a live producer; otherwise it calls for nothing. */
  lemma CleanupCalls(w: World)
    requires Inv(w)
    ensures var l, l' := w.lib, Cleanup(w).lib;
            if w.contexts == map[] && Rk(w).Some?
            then l' == l.(polls := l.polls + 1, producers := l'.producers)
                 && Rk(w).value < |l.producers|
                 && l'.producers == l.producers[Rk(w).value := l.producers[Rk(w).value].(destroyed := 1)]
            else l' == l
  {
    if w.global.Some? && w.global.value.refcount <= 0 {
      assert w.contexts.Keys == {};
      assert w.contexts == map[];
      assert forall t :: !Held(w, t);
    }
  }
}
