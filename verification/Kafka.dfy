/** The part of librdkafka the driver uses: handles with a life span, a log of accepted messages,
    and an oracle that decides every outcome. Misuse of a handle is recorded as a fault. */
module Kafka {
  import opened Options
  import opened Json

  // ---- The oracle

  datatype ProduceResult = Enqueued | QueueFull | OtherError

  /** The answers the library would give at one moment, whatever it is asked. */
  datatype Reply = Reply(produce: ProduceResult, confAccepts: bool, newSucceeds: bool, topicSucceeds: bool)

  /** The answer to the n-th call whose outcome is open. Every adversary is one such function. */
  type Oracle = nat -> Reply

  // ---- Objects: a handle is the index of the object, and objects are never forgotten

  datatype ConfStatus = Open | Consumed | Destroyed

  type Settings = map<string, string>

  datatype Conf = Conf(settings: Settings, status: ConfStatus)

  datatype Producer = Producer(settings: Settings, destroyed: nat)

  datatype Topic = Topic(producer: nat, name: CString, destroyed: nat)

  /** A message the producer took into its queue. */
  datatype Record = Record(topic: CString, payload: string, key: CString)

  /** What must not happen: a NULL or dead object is used, a producer is destroyed under its topics,
      an assertion fails. NullLogLevel is rd_kafka_set_log_level on NULL, DanglingUser a read of the
      user kept in the global after that user was freed. */
  datatype Fault =
    | NullGlobal | NullProducer | RefcountAssertion | DeadConf | DeadProducer | ProducerInUse | DeadTopic
    | NullLogLevel | DanglingUser

  datatype Lib = Lib(clock: nat, confs: seq<Conf>, producers: seq<Producer>, topics: seq<Topic>,
                     accepted: seq<Record>, polls: nat, faults: set<Fault>)

  const NO_LIB := Lib(0, [], [], [], [], 0, {})

  predicate OpenConf(l: Lib, h: nat) {
    h < |l.confs| && l.confs[h].status == Open
  }

  predicate LiveProducer(l: Lib, h: nat) {
    h < |l.producers| && l.producers[h].destroyed == 0
  }

  /** A topic object is usable as long as it has not been destroyed. */
  predicate LiveTopic(l: Lib, h: nat) {
    h < |l.topics| && l.topics[h].destroyed == 0
  }

  function Blame(l: Lib, f: Fault): Lib {
    l.(faults := l.faults + {f})
  }

  function Tick(l: Lib): Lib {
    l.(clock := l.clock + 1)
  }

  // ---- Configuration objects

  /** `rd_kafka_conf_new`; its handle is `|l.confs|`. */
  function ConfNew(l: Lib): Lib {
    l.(confs := l.confs + [Conf(map[], Open)])
  }

  /** `rd_kafka_conf_set` */
  function ConfSet(l: Lib, o: Oracle, h: nat, key: string, value: string): (Lib, bool) {
    if !OpenConf(l, h) then (Blame(l, DeadConf), false)
    else if !o(l.clock).confAccepts then (Tick(l), false)
    else (Tick(l).(confs := l.confs[h := l.confs[h].(settings := l.confs[h].settings[key := value])]), true)
  }

  /** `rd_kafka_conf_destroy` */
  function ConfDestroy(l: Lib, h: nat): Lib {
    if !OpenConf(l, h) then Blame(l, DeadConf)
    else l.(confs := l.confs[h := l.confs[h].(status := Destroyed)])
  }

  // ---- Producers

  /** `rd_kafka_new`: on success the producer owns the configuration. */
  function ProducerNew(l: Lib, o: Oracle, conf: nat): (Lib, Option<nat>) {
    if !OpenConf(l, conf) then (Blame(l, DeadConf), None)
    else if !o(l.clock).newSucceeds then (Tick(l), None)
    else (Tick(l).(confs := l.confs[conf := l.confs[conf].(status := Consumed)],
                   producers := l.producers + [Producer(l.confs[conf].settings, 0)]),
          Some(|l.producers|))
  }

  /** `rd_kafka_poll` and `rd_kafka_flush`. */
  function Poll(l: Lib, rk: Option<nat>): Lib {
    if rk.None? then Blame(l, NullProducer)
    else if !LiveProducer(l, rk.value) then Blame(l, DeadProducer)
    else l.(polls := l.polls + 1)
  }

  /** `rd_kafka_destroy` */
  function ProducerDestroy(l: Lib, h: nat): Lib {
    if !LiveProducer(l, h) then Blame(l, DeadProducer)
    else if exists t | 0 <= t < |l.topics| :: l.topics[t].destroyed == 0 && l.topics[t].producer == h
    then Blame(l, ProducerInUse)
    else l.(producers := l.producers[h := l.producers[h].(destroyed := l.producers[h].destroyed + 1)])
  }

  // ---- Topics

  /** `rd_kafka_topic_new` */
  function TopicNew(l: Lib, o: Oracle, producer: nat, name: CString): (Lib, Option<nat>) {
    if !LiveProducer(l, producer) then (Blame(l, DeadProducer), None)
    else if !o(l.clock).topicSucceeds then (Tick(l), None)
    else (Tick(l).(topics := l.topics + [Topic(producer, name, 0)]), Some(|l.topics|))
  }

  /** `rd_kafka_topic_destroy` */
  function TopicDestroy(l: Lib, h: nat): Lib {
    if !LiveTopic(l, h) then Blame(l, DeadTopic)
    else if !LiveProducer(l, l.topics[h].producer) then Blame(l, DeadProducer)
    else l.(topics := l.topics[h := l.topics[h].(destroyed := l.topics[h].destroyed + 1)])
  }

  /** `rd_kafka_produce`: an accepted message joins the log. */
  function Produce(l: Lib, o: Oracle, t: nat, payload: string, key: CString): (Lib, ProduceResult) {
    if !LiveTopic(l, t) then (Blame(l, DeadTopic), OtherError)
    else if !LiveProducer(l, l.topics[t].producer) then (Blame(l, DeadProducer), OtherError)
    else if o(l.clock).produce.Enqueued?
    then (Tick(l).(accepted := l.accepted + [Record(l.topics[t].name, payload, key)]), Enqueued)
    else (Tick(l), o(l.clock).produce)
  }
}
