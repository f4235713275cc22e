/** The configuration a producer is made of: the accepted settings of the environment, the last one
    of each name, overridden by the broker list and the debug level. */
module DriverSettings {
  import opened Json
  import opened Kafka
  import opened DriverSpec
  import opened DriverInvariant
  import opened DriverHistory

  /** The name of pair `k` is the prefix, any one separator, and `name`. */
  ghost predicate Names(envs: seq<CString>, prefix: CString, k: nat, name: string)
    requires 2 * k < |envs|
  {
    exists c: char :: envs[2 * k] == prefix + [c] + name
  }

  /** An entry is offered exactly when something follows the prefix, and one separator is dropped. */
  lemma SettingNameExactly(envs: seq<CString>, prefix: CString, k: nat, name: string)
    requires 2 * k < |envs|
    ensures Names(envs, prefix, k, name) <==> IsSetting(envs, prefix, k) && SettingName(envs, prefix, k) == name
    ensures IsSetting(envs, prefix, k) <==> exists rest :: Names(envs, prefix, k, rest)
  {
    var s := envs[2 * k];
    if IsSetting(envs, prefix, k) {
      SplitAt(s, prefix);
      assert s == prefix + [s[|prefix|]] + SettingName(envs, prefix, k);
      assert Names(envs, prefix, k, SettingName(envs, prefix, k));
    }
    forall rest | Names(envs, prefix, k, rest)
      ensures IsSetting(envs, prefix, k) && SettingName(envs, prefix, k) == rest
    {
      var c: char :| s == prefix + [c] + rest;
      JoinAt(prefix, c, rest);
    }
  }

  lemma SplitAt(s: string, prefix: string)
    requires |s| > |prefix| && prefix <= s
    ensures s == prefix + [s[|prefix|]] + s[|prefix| + 1..]
  {
  }

  lemma JoinAt(prefix: string, c: char, rest: string)
    ensures var s := prefix + [c] + rest;
            |s| > |prefix| && prefix <= s && s[|prefix| + 1..] == rest
  {
  }

  /** The library accepts pair `k`, if it is offered; `t0` is when the first pair is. */
  predicate Accepted(o: Oracle, t0: nat, envs: seq<CString>, prefix: CString, k: nat)
    requires 2 * k < |envs|
  {
    o(t0 + Offered(envs, prefix, k)).confAccepts
  }

  /** Pair `k` is the last accepted one with this name. */
  ghost predicate Decides(o: Oracle, t0: nat, envs: seq<CString>, prefix: CString, n: nat, name: string, k: nat)
    requires 2 * n <= |envs|
  {
    && k < n && Names(envs, prefix, k, name) && Accepted(o, t0, envs, prefix, k)
    && forall j | k < j < n :: Names(envs, prefix, j, name) ==> !Accepted(o, t0, envs, prefix, j)
  }

  lemma DecidesNow(o: Oracle, t0: nat, envs: seq<CString>, prefix: CString, n: nat, name: string)
    requires 0 < 2 * n <= |envs| && Names(envs, prefix, n - 1, name) && Accepted(o, t0, envs, prefix, n - 1)
    ensures forall k :: Decides(o, t0, envs, prefix, n, name, k) <==> k == n - 1
  {
  }

  lemma DecidesAsBefore(o: Oracle, t0: nat, envs: seq<CString>, prefix: CString, n: nat, name: string)
    requires 0 < 2 * n <= |envs| && !(Names(envs, prefix, n - 1, name) && Accepted(o, t0, envs, prefix, n - 1))
    ensures forall k :: Decides(o, t0, envs, prefix, n, name, k) <==> Decides(o, t0, envs, prefix, n - 1, name, k)
  {
  }

  /** The last accepted write of each name wins, and no other name is set. */
  lemma {:induction false} LastWriteWins(l: Lib, o: Oracle, conf: nat, envs: seq<CString>, prefix: CString,
                                         n: nat, name: string)
    requires 2 * n <= |envs| && OpenConf(l, conf) && l.confs[conf].settings == map[]
    ensures OpenConf(ReadSettings(l, o, conf, envs, prefix, n), conf)
    ensures var settings := ReadSettings(l, o, conf, envs, prefix, n).confs[conf].settings;
            && (forall k | Decides(o, l.clock, envs, prefix, n, name, k) ::
                  name in settings && settings[name] == envs[2 * k + 1])
            && (name in settings ==> exists k :: Decides(o, l.clock, envs, prefix, n, name, k))
  {
    ReadSettingsConfOnly(l, o, conf, envs, prefix, n);
    if n > 0 {
      ReadSettingsConfOnly(l, o, conf, envs, prefix, n - 1);
      LastWriteWins(l, o, conf, envs, prefix, n - 1, name);
      var before := ReadSettings(l, o, conf, envs, prefix, n - 1).confs[conf].settings;
      var after := ReadSettings(l, o, conf, envs, prefix, n).confs[conf].settings;
      SettingNameExactly(envs, prefix, n - 1, name);
      if Names(envs, prefix, n - 1, name) && Accepted(o, l.clock, envs, prefix, n - 1) {
        DecidesNow(o, l.clock, envs, prefix, n, name);
        assert after[name] == envs[2 * (n - 1) + 1];
        assert Decides(o, l.clock, envs, prefix, n, name, n - 1);
      } else {
        DecidesAsBefore(o, l.clock, envs, prefix, n, name);
        assert name in after <==> name in before;
        assert name in after ==> after[name] == before[name];
        if name in after {
          var k :| Decides(o, l.clock, envs, prefix, n - 1, name, k);
          assert Decides(o, l.clock, envs, prefix, n, name, k);
        }
      }
    }
  }

  /** What rd_kafka_new is given. */
  lemma ProducerSettings(w: World, o: Oracle)
    requires w.global.Some? && w.global.value.rk.None? && Rk(InitGlobal(w, o)).Some?
    ensures var p := Rk(InitGlobal(w, o)).value;
            && p == |w.lib.producers| < |InitGlobal(w, o).lib.producers|
            && OpenConf(ConfWithSettings(w, o), |w.lib.confs|)
            && InitGlobal(w, o).lib.producers[p].settings
                 == ConfWithSettings(w, o).confs[|w.lib.confs|].settings
                    [BOOTSTRAP_SERVERS := w.global.value.brokers][DEBUG := ALL]
  {
    ConfWithSettingsOnly(w, o);
  }

  /** A setting of the user reaches the producer unless its name is one the driver sets itself. A user
      without settings, or a freed one, gives none. */
  lemma SettingReachesProducer(w: World, o: Oracle, name: string)
    requires w.global.Some? && w.global.value.rk.None? && Rk(InitGlobal(w, o)).Some?
    ensures |w.lib.producers| < |InitGlobal(w, o).lib.producers|
    ensures var envs: Envs := GlobalEnvs(w).GetOr([]);
            var settings := InitGlobal(w, o).lib.producers[|w.lib.producers|].settings;
            var prefix := "kafka.notification.settings";
            && "debug" in settings && settings["debug"] == "all"
            && "bootstrap.servers" in settings && settings["bootstrap.servers"] == w.global.value.brokers
            && (name != "debug" && name != "bootstrap.servers" ==>
                  (name in settings <==> exists k :: Decides(o, w.lib.clock, envs, prefix, |envs| / 2, name, k))
                  && forall k | Decides(o, w.lib.clock, envs, prefix, |envs| / 2, name, k) ::
                       name in settings && settings[name] == envs[2 * k + 1])
  {
    ProducerSettings(w, o);
    assert |DEBUG| != |BOOTSTRAP_SERVERS|;
    var envs: Envs := GlobalEnvs(w).GetOr([]);
    LastWriteWins(NewConf(w), o, |w.lib.confs|, envs, SETTINGS_PREFIX, |envs| / 2, name);
  }

  // ---- A producer that cannot be created

  /** Does a send now reach rd_kafka_new, and does that fail? */
  predicate NewFails(w: World, o: Oracle) {
    var t := SetUpAt(w);
    Rk(w).None? && o(t).confAccepts && o(t + 1).confAccepts && !o(t + 2).newSucceeds
  }

  /** The log level is set on the producer without a test: a send passes a NULL producer to
      rd_kafka_set_log_level exactly when the library takes both settings but makes no producer. */
  lemma NullLogLevelExactly(w: World, o: Oracle, id: nat, payload: string, key: CString)
    requires Inv(w) && id in w.contexts
    ensures var w' := Send(w, o, id, payload, key);
            && (NullLogLevel in w'.lib.faults <==> NullLogLevel in w.lib.faults || NewFails(w, o))
            && Count(w'.lib.confs, Destroyed) == Count(w.lib.confs, Destroyed) + (if NewFails(w, o) then 1 else 0)
  {
    SendAddsInitGlobal(w, o, id, payload, key);
    if Rk(w).None? {
      InitGlobalEffect(w, o);
      SetUpExactly(w, o, Destroyed);
    }
  }

  /** A send strands a configuration object exactly when the broker list or the debug level is refused. */
  lemma StrandsExactly(w: World, o: Oracle, id: nat, payload: string, key: CString)
    requires Inv(w) && id in w.contexts
    ensures Count(Send(w, o, id, payload, key).lib.confs, Open) == Count(w.lib.confs, Open) <==>
            Rk(w).Some? || (o(SetUpAt(w)).confAccepts && o(SetUpAt(w) + 1).confAccepts)
  {
    SendAddsInitGlobal(w, o, id, payload, key);
    if Rk(w).None? {
      SetUpExactly(w, o, Open);
    }
  }

  /** Without a producer, nothing is sent unless all three calls that make one succeed. */
  lemma UnsentWithoutProducer(w: World, o: Oracle, id: nat, payload: string, key: CString)
    requires Inv(w) && id in w.contexts && Rk(w).None? && !Outcome(o, SetUpAt(w)).Consumed?
    ensures Send(w, o, id, payload, key).lib.accepted == w.lib.accepted
  {
    InitGlobalEffect(w, o);
    assert OwnsTopic(w, id);
  }
}
