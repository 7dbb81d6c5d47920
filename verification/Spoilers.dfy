/** The ways the code falls short, each on one run the service can take. ExactRuns, BrokerView,
    LevelRuns, TypeSafety, LevelTypes and QueryWalk say, for all inputs, exactly when they happen. */
module Spoilers {
  import opened Wrappers
  import opened Streams
  import opened Validation
  import opened ConnectorSpec
  import opened LightdbSpec
  import opened EventsSpec
  import opened IngestSpec
  import opened RegistrySpec
  import opened Machine
  import opened RefCount
  import opened ExactRuns
  import opened Atomic
  import Backends
  import Cursor
  import Lifetime
  import LevelRuns
  import LevelTypes
  import Qos
  import QueryWalk
  import Sessions
  import StartUp
  import TypeSafety

  const YES := Reply(true, Dropped, Granted)
  const NO := Reply(false, NoUnsuback, NoSuback)

  function Typed(name: string, dataType: string): DataStream {
    DataStream(name, Source("", None, None), "", dataType, map[], Retention("", ""))
  }

  function Sensor(name: string, addr: nat, topic: string): DataStream {
    DataStream(name, Source(MQTT_TYPE, Some(MQTTSource(addr, "tcp://b", topic, 0)), None), "", FLOAT, map[], Retention("", ""))
  }

  function Reading(time: int): Record {
    Record("a", time, Some(0.0), "", None, "")
  }

  const TEXT := Record("a", 1, None, "x", None, "")

  // ---- Memory ----

  ghost function Begin(): Sys {
    Lifetime.Fresh(map[])
  }

  lemma BeginIsExact()
    ensures Begin() == Sys(map[], World(map[], EMPTY), map[], Idle, map[])
    ensures WellFormed(Begin()) && Exact(Begin())
  {
    StartUp.EmptyEncodesNothing();
  }

  /** The connection of one sensor. */
  function OneManager(topic: string): Conn {
    Conn(map["tcp://b" := ManagerState(map[topic := SubState(0, 1)], ClientState(true, false, map[]))], map[], map[])
  }

  /** One stream added, its topic subscribed once. */
  ghost function OneSensor(): Sys {
    Sys(map["a" := Sensor("a", 1, "t")], World(map["a" := []], OneManager("t")), map[], Idle, map[])
  }

  lemma OneSensorRun()
    ensures var es := [AddEnter(0, Sensor("a", 1, "t"), YES, YES), AddWrite(0)];
            Feasible(Begin(), es) && Run(Begin(), es) == OneSensor()
    ensures WellFormed(OneSensor()) && Exact(OneSensor())
  {
    var ds := Sensor("a", 1, "t");
    var e := AddEnter(0, ds, YES, YES);
    var s1 := Step(Begin(), e);
    BeginIsExact();
    ServiceFanOut(Begin().world, ds, ds, YES, YES);
    assert AcceptsCreation(ds);
    assert s1.adds == map[0 := ds];
    RunTwo(Begin(), e, AddWrite(0));
    assert Step(s1, AddWrite(0)) == OneSensor();
    StepExact(Begin(), e);
    StepWellFormed(Begin(), e);
    StepExact(s1, AddWrite(0));
    StepWellFormed(s1, AddWrite(0));
  }

  /** An Add the connector refuses leaves its series behind, and every later Add of the name
      is refused by the data store. */
  lemma RefusedAddBlocksTheName()
    ensures var es := [AddEnter(0, Sensor("a", 1, "t"), YES, NO), AddEnter(1, Sensor("a", 2, "t"), YES, YES)];
            && Feasible(Begin(), es)
            && "a" in Run(Begin(), es).world.store && Run(Begin(), es).adds == map[] && Run(Begin(), es).reg == map[]
  {
    var e, f := AddEnter(0, Sensor("a", 1, "t"), YES, NO), AddEnter(1, Sensor("a", 2, "t"), YES, YES);
    var s1 := Step(Begin(), e);
    BeginIsExact();
    assert AcceptsCreation(e.ds) && AcceptsCreation(f.ds);
    ServiceFanOut(Begin().world, e.ds, e.ds, YES, NO);
    ServiceFanOut(s1.world, f.ds, f.ds, YES, YES);
    RunTwo(Begin(), e, f);
  }

  /** An Unsubscribe that fails: the stream stays, its topic has no receivers left. */
  lemma UnansweredUnsubscribeSpoils()
    ensures Enabled(OneSensor(), DeleteEnter("a", YES, NO)) && !Exact(Step(OneSensor(), DeleteEnter("a", YES, NO)))
  {
    OneSensorRun();
    StepExact(OneSensor(), DeleteEnter("a", YES, NO));
  }

  /** A source whose replacement cannot be subscribed: the old subscription is gone, the
      stream keeps its old source and does not wait for a retry. */
  lemma FailedReplacementSpoils()
    ensures var e := UpdateEnter("a", Sensor("a", 2, "u"), YES, Reply(true, Dropped, NoSuback));
            Enabled(OneSensor(), e) && !Exact(Step(OneSensor(), e))
  {
    var e := UpdateEnter("a", Sensor("a", 2, "u"), YES, Reply(true, Dropped, NoSuback));
    OneSensorRun();
    StepExact(OneSensor(), e);
  }

  /** A cached stream moves to another topic: messages of the new topic are dropped, and
      those of the old one are still taken. */
  lemma MovedSourceStaysCached()
    ensures var message := OnMessage(0, "tcp://b", "t", [Reading(1)]);
            var update := UpdateEnter("a", Sensor("a", 2, "u"), YES, YES);
            && Feasible(OneSensor(), [message, update, WriterWrite])
            && var s := Run(OneSensor(), [message, update, WriterWrite]);
               && s.reg == map["a" := Sensor("a", 2, "u")]
               && WantedOf(s.reg, s.world.conn.cache, "tcp://b", "u", [Reading(2)]) == []
               && WantedOf(s.reg, s.world.conn.cache, "tcp://b", "t", [Reading(2)]) == [Reading(2)]
  {
    var message := OnMessage(0, "tcp://b", "t", [Reading(1)]);
    var update := UpdateEnter("a", Sensor("a", 2, "u"), YES, YES);
    MessageIsCached(OneSensor());
    SensorMoves(Step(OneSensor(), message), update);
    RunThree(OneSensor(), message, update, WriterWrite);
    var s := Step(Step(Step(OneSensor(), message), update), WriterWrite);
    assert s.reg == map["a" := Sensor("a", 2, "u")];
    OldTopicOnly(s.reg, s.world.conn.cache);
  }

  lemma OldTopicOnly(reg: Registry, cache: Registry)
    requires "a" in cache && cache["a"] == Sensor("a", 1, "t")
    ensures WantedOf(reg, cache, "tcp://b", "u", [Reading(2)]) == []
    ensures WantedOf(reg, cache, "tcp://b", "t", [Reading(2)]) == [Reading(2)]
  {
    assert [Reading(2)][1..] == [];
  }

  lemma MessageIsCached(s: Sys)
    requires s == OneSensor()
    ensures var message := OnMessage(0, "tcp://b", "t", [Reading(1)]);
            && Enabled(s, message)
            && Step(s, message).reg == s.reg && Step(s, message).adds == map[] && Step(s, message).writer == Idle
            && Step(s, message).world.conn == s.world.conn.(cache := s.reg)
  {
    var r := Reading(1);
    assert r in [r];
    assert Names([r]) == {"a"};
  }

  lemma SensorMoves(s: Sys, update: Event)
    requires update == UpdateEnter("a", Sensor("a", 2, "u"), YES, YES)
    requires s.reg == OneSensor().reg && s.adds == map[] && s.writer == Idle
    requires s.world.conn == OneManager("t").(cache := s.reg)
    ensures Enabled(s, update) && Step(s, update).reg == s.reg && Step(s, update).world.conn.cache == s.reg
    ensures Step(s, update).writer == Updating(Sensor("a", 2, "u"))
  {
    var prev, next := s.reg["a"], Modified(s.reg["a"], update.ds);
    ServiceFanOut(s.world, next, prev, YES, YES);
    TypeSafety.HandlersOnlyFlush(s.world.conn, prev, next, Dropped, Granted);
    UpdateStatus(s.world.conn, prev, next, Dropped, Granted);
  }

  // ---- Sessions ----

  const DENIED := Reply(true, Dropped, Denied)
  const OVERTAKEN := Reply(true, Overtaken({}), NoSuback)

  /** The connection of two sensors. */
  function TwoTopics(client: ClientState): Conn {
    Conn(map["tcp://b" := ManagerState(map["t" := SubState(0, 1), "u" := SubState(0, 1)], client)], map[], map[])
  }

  ghost function TwoSensors(client: ClientState): Sys {
    Sys(map["a" := Sensor("a", 1, "t"), "c" := Sensor("c", 2, "u")],
        World(map["a" := [], "c" := []], TwoTopics(client)), map[], Idle, map[])
  }

  /** The first sensor, its session as given. */
  ghost function SensorWith(client: ClientState): Sys {
    Sys(map["a" := Sensor("a", 1, "t")],
        World(map["a" := []], Conn(map["tcp://b" := ManagerState(map["t" := SubState(0, 1)], client)], map[], map[])),
        map[], Idle, map[])
  }

  /** One more sensor at the broker of the first. */
  lemma SecondSensor(client: ClientState, broker: Reply)
    requires client.connected && !broker.sub.NoSuback?
    ensures var s := SensorWith(client);
            var es := [AddEnter(1, Sensor("c", 2, "u"), YES, broker), AddWrite(1)];
            && Feasible(s, es)
            && Run(s, es) == TwoSensors(client.(session := if broker.sub.Granted? then client.session["u" := 0] else client.session))
  {
    var s := SensorWith(client);
    var ds := Sensor("c", 2, "u");
    var s1 := Step(s, AddEnter(1, ds, YES, broker));
    assert AcceptsCreation(ds);
    ServiceFanOut(s.world, ds, ds, YES, broker);
    assert s1.adds == map[1 := ds] && s1.adds - {1} == map[];
    assert s1.world.conn.managers["tcp://b"].subs == map["t" := SubState(0, 1), "u" := SubState(0, 1)];
    RunTwo(s, AddEnter(1, ds, YES, broker), AddWrite(1));
  }

  /** The broker refuses the topic of an Add in the SUBACK. The Add succeeds, and a session that
      has been restored goes on without the topic. */
  lemma DeniedSubscribeLeavesOut()
    ensures var restore := Restore("tcp://b", {});
            var add := [AddEnter(1, Sensor("c", 2, "u"), YES, DENIED), AddWrite(1)];
            && Enabled(OneSensor(), restore) && Feasible(Step(OneSensor(), restore), add)
            && var s := Run(Step(OneSensor(), restore), add);
               "c" in s.reg && Receivers(s.world.conn, "tcp://b", "u") == 1 && Sessions.Lacks(s.world.conn, "tcp://b", "u")
  {
    var client := ClientState(true, true, map["t" := 0]);
    var s1 := Step(OneSensor(), Restore("tcp://b", {}));
    assert s1.world.conn.managers["tcp://b"].client.session == client.session;
    assert s1 == SensorWith(client);
    SecondSensor(client, DENIED);
    assert Run(s1, [AddEnter(1, Sensor("c", 2, "u"), YES, DENIED), AddWrite(1)])
        == TwoSensors(client);
  }

  lemma SessionIsNew(client: ClientState)
    requires client.connected
    ensures var s := TwoSensors(client);
            && Enabled(s, Lost("tcp://b")) && Enabled(Step(s, Lost("tcp://b")), Reconnect("tcp://b"))
            && Step(Step(s, Lost("tcp://b")), Reconnect("tcp://b")) == TwoSensors(ClientState(true, false, map[]))
  {
  }

  /** The Unsubscribe of a Delete waits for a reconnect, and the on-connect handler subscribes the
      topic once more behind it. The stream goes, and the broker goes on delivering its topic. */
  lemma OvertakenUnsubscribeStrays()
    ensures var s := TwoSensors(ClientState(true, false, map["u" := 0]));
            var es := [Lost("tcp://b"), Reconnect("tcp://b"), DeleteEnter("a", YES, OVERTAKEN)];
            && Feasible(s, es)
            && View(Run(s, es)) == map["c" := Sensor("c", 2, "u")]
            && Sessions.Strays(Run(s, es).world.conn, "tcp://b", "t")
  {
    SessionIsNew(ClientState(true, false, map["u" := 0]));
    FirstIsOvertaken(TwoSensors(ClientState(true, false, map[])));
    var s := TwoSensors(ClientState(true, false, map["u" := 0]));
    RunThree(s, Lost("tcp://b"), Reconnect("tcp://b"), DeleteEnter("a", YES, OVERTAKEN));
  }

  /** That state is reached: two sensors added one after the other. */
  lemma TwoSensorsRun()
    ensures var es := [AddEnter(1, Sensor("c", 2, "u"), YES, YES), AddWrite(1)];
            Feasible(OneSensor(), es) && Run(OneSensor(), es) == TwoSensors(ClientState(true, false, map["u" := 0]))
  {
    assert OneSensor() == SensorWith(ClientState(true, false, map[]));
    SecondSensor(ClientState(true, false, map[]), YES);
  }

  /** The registered sensor is left, its Unsubscribe overtaken. */
  lemma TopicStrays(c: Conn)
    requires c == TwoTopics(ClientState(true, false, map[]))
    ensures var d := DropSource(c, Sensor("a", 1, "t"), OVERTAKEN.unsub);
            d.status == Ok && Sessions.Strays(d.conn, "tcp://b", "t")
  {
    var src := Sensor("a", 1, "t").source.mqtt.value;
    UnregisterStatus(c, src, OVERTAKEN.unsub);
    assert "u" in c.managers["tcp://b"].subs.Keys;
    Sessions.UnregisterDropsTopic(c, src, OVERTAKEN.unsub);
  }

  lemma FirstIsOvertaken(s: Sys)
    requires s == TwoSensors(ClientState(true, false, map[]))
    ensures var e := DeleteEnter("a", YES, OVERTAKEN);
            && Enabled(s, e) && View(Step(s, e)) == map["c" := Sensor("c", 2, "u")]
            && Sessions.Strays(Step(s, e).world.conn, "tcp://b", "t")
  {
    var ds := Sensor("a", 1, "t");
    ServiceFanOut(s.world, ds, ds, YES, OVERTAKEN);
    assert s.world.conn.(cache := map[]) == s.world.conn;
    TopicStrays(s.world.conn);
    assert s.reg - {"a"} == map["c" := Sensor("c", 2, "u")];
  }

  /** A second stream asks for the topic of the first at QoS 2, and is counted at QoS 0. */
  lemma JoinerKeepsQos()
    ensures var source := Source(MQTT_TYPE, Some(MQTTSource(2, "tcp://b", "t", 2)), None);
            var es := [AddEnter(1, Sensor("c", 2, "t").(source := source), YES, YES), AddWrite(1)];
            && Feasible(OneSensor(), es)
            && var s := Run(OneSensor(), es);
               && "c" in s.reg && s.reg["c"].source == source
               && Receivers(s.world.conn, "tcp://b", "t") == 2 && Qos.QosOf(s.world.conn, "tcp://b", "t") == Some(0)
  {
    var ds := Sensor("c", 2, "t").(source := Source(MQTT_TYPE, Some(MQTTSource(2, "tcp://b", "t", 2)), None));
    var e := AddEnter(1, ds, YES, YES);
    assert AcceptsCreation(ds);
    ServiceFanOut(OneSensor().world, ds, ds, YES, YES);
    RegisterEffect(OneSensor().world.conn, ds.source.mqtt.value, Granted);
    Qos.RegisterQos(OneSensor().world.conn, ds.source.mqtt.value, Granted, "tcp://b", "t");
    RunTwo(OneSensor(), e, AddWrite(1));
  }

  // ---- Late writes ----

  ghost function TextStream(store: Store, pending: map<nat, seq<Record>>): Sys {
    Sys(map["a" := Typed("a", STRING)], World(store, EMPTY), map[], Idle, pending)
  }

  /** A message is checked, its stream deleted, and the name added again with another type before
      the message is written: the stream then holds a record of the old type. */
  lemma LateWriteSpoilsTypes()
    ensures var s := TextStream(map["a" := []], map[]);
            var check := [Submit(0, [TEXT]), DeleteEnter("a", YES, YES), WriterWrite];
            var write := [AddEnter(1, Typed("a", FLOAT), YES, YES), Write(0, {"a"}), AddWrite(1)];
            && TypeSafety.Tidy(s)
            && Feasible(s, check) && Feasible(Run(s, check), write)
            && !TypeSafety.Safe(Run(Run(s, check), write))
  {
    var s := TextStream(map["a" := []], map[]);
    var s1, s2 := TextStream(map["a" := []], map[0 := [TEXT]]), Sys(map[], World(map[], EMPTY), map[], Idle, map[0 := [TEXT]]);
    var delete, add := DeleteEnter("a", YES, YES), AddEnter(1, Typed("a", FLOAT), YES, YES);
    TextIsFine();
    assert Step(s, Submit(0, [TEXT])) == s1;
    TextLeaves(s1);
    RunThree(s, Submit(0, [TEXT]), delete, WriterWrite);
    FloatComes(s2);
    RunThree(s2, add, Write(0, {"a"}), AddWrite(1));
  }

  lemma TextLeaves(s: Sys)
    requires s == TextStream(map["a" := []], map[0 := [TEXT]])
    ensures Enabled(s, DeleteEnter("a", YES, YES)) && Enabled(Step(s, DeleteEnter("a", YES, YES)), WriterWrite)
    ensures Step(Step(s, DeleteEnter("a", YES, YES)), WriterWrite)
         == Sys(map[], World(map[], EMPTY), map[], Idle, map[0 := [TEXT]])
  {
    ServiceFanOut(s.world, Typed("a", STRING), Typed("a", STRING), YES, YES);
    assert s.world.store - {"a"} == map[];
    assert s.reg - {"a"} == map[];
  }

  lemma FloatComes(s: Sys)
    requires s == Sys(map[], World(map[], EMPTY), map[], Idle, map[0 := [TEXT]])
    ensures var add := AddEnter(1, Typed("a", FLOAT), YES, YES);
            && Enabled(s, add) && Enabled(Step(s, add), Write(0, {"a"}))
            && Enabled(Step(Step(s, add), Write(0, {"a"})), AddWrite(1))
            && !TypeSafety.Safe(Step(Step(Step(s, add), Write(0, {"a"})), AddWrite(1)))
  {
    var ds := Typed("a", FLOAT);
    var add := AddEnter(1, ds, YES, YES);
    assert AcceptsCreation(ds);
    ServiceFanOut(s.world, ds, ds, YES, YES);
    assert Step(s, add) == Sys(map[], World(map["a" := []], EMPTY), map[1 := ds], Idle, map[0 := [TEXT]]);
    TextIsFine();
    var s2 := Step(Step(s, add), Write(0, {"a"}));
    assert s2.world.store == map["a" := [TEXT]] && s2.adds == map[1 := ds];
    assert TEXT in SeriesOf(s2.world.store, "a");
    assert !TypeSafety.SeriesFits(s2.world.store, ds);
    assert TypeSafety.Safe(s2) by {
      assert [TEXT][0] == TEXT;
    }
    TypeSafety.StepSafe(s2, AddWrite(1));
  }

  // ---- LevelDB ----

  const EMPTY_DB := LevelState([], 0)

  /** The service just started over an empty database. */
  ghost function LevelBegin(): LevelRuns.Service {
    LevelRuns.Service(EMPTY_DB, World(map[], EMPTY), map[], map[], map[], map[])
  }

  lemma LevelBeginIsStarted()
    ensures Listing(Contents([])) == []
    ensures LevelBegin() == LevelRuns.Started(EMPTY_DB, map[], [])
    ensures LevelRuns.Sound(LevelBegin()) && LevelRuns.Exact(LevelBegin())
  {
    StartUp.EmptyEncodesNothing();
    assert LevelRuns.View(LevelBegin()) == map[];
  }

  lemma OneContents(name: string, ds: DataStream)
    ensures Contents([Entry(name, ds)]) == map[name := ds]
  {
    assert [Entry(name, ds)][1..] == [];
  }

  /** One entry, its topic subscribed once. */
  ghost function OneEntry(): LevelRuns.Service {
    var level := LevelState([Entry("a", Sensor("a", 1, "t"))], 0);
    LevelRuns.Service(level, World(map["a" := []], OneManager("t")), map[], map[], map[], map[])
  }

  /** The entry of "a" is written, its handlers have not run. */
  ghost function OnePut(ds: DataStream): LevelRuns.Service {
    LevelRuns.Service(LevelState([Entry("a", ds)], 0), World(map[], EMPTY), map[0 := ds], map[], map[], map[])
  }

  lemma PutRun(ds: DataStream)
    requires ds.name == "a" && AcceptsCreation(ds)
    ensures LevelRuns.Enabled(LevelBegin(), LevelRuns.AddPut(0, ds))
    ensures LevelRuns.Step(LevelBegin(), LevelRuns.AddPut(0, ds)) == OnePut(ds)
    ensures LevelRuns.Sound(OnePut(ds)) && LevelRuns.Exact(OnePut(ds)) && LevelRuns.Reg(OnePut(ds)) == map["a" := ds]
    ensures LevelRuns.View(OnePut(ds)) == map[]
  {
    LevelBeginIsStarted();
    LevelRuns.StepSound(LevelBegin(), LevelRuns.AddPut(0, ds));
    LevelRuns.AddPutShows(LevelBegin(), 0, ds);
  }

  lemma OneEntryRun()
    ensures var ds := Sensor("a", 1, "t");
            && LevelRuns.Enabled(OnePut(ds), LevelRuns.AddNotify(0, YES, YES, 0))
            && LevelRuns.Step(OnePut(ds), LevelRuns.AddNotify(0, YES, YES, 0)) == OneEntry()
    ensures LevelRuns.Sound(OneEntry()) && LevelRuns.Exact(OneEntry())
    ensures LevelRuns.Reg(OneEntry()) == map["a" := Sensor("a", 1, "t")] == LevelRuns.View(OneEntry())
  {
    var ds := Sensor("a", 1, "t");
    var a := LevelRuns.AddNotify(0, YES, YES, 0);
    PutRun(ds);
    ServiceFanOut(OnePut(ds).world, ds, ds, YES, YES);
    assert map[0 := ds] - {0} == map[];
    LevelRuns.StepSound(OnePut(ds), a);
    LevelRuns.AddNotifyShows(OnePut(ds), 0);
    LevelRuns.StepExact(OnePut(ds), a);
  }

  /** An Add that the connector refuses leaves the stream registered. */
  lemma LevelAddSpoils()
    ensures var s := OnePut(Sensor("a", 1, "t"));
            var a := LevelRuns.AddNotify(0, YES, NO, 0);
            && LevelRuns.Enabled(s, a) && "a" in LevelRuns.Reg(LevelRuns.Step(s, a))
            && !LevelRuns.Exact(LevelRuns.Step(s, a))
  {
    var s := OnePut(Sensor("a", 1, "t"));
    PutRun(Sensor("a", 1, "t"));
    LevelRuns.StepExact(s, LevelRuns.AddNotify(0, YES, NO, 0));
    assert s.adds - {0} == map[];
  }

  /** Moving a stream to another topic leaves the connector where it was. */
  lemma LevelMoveSpoils()
    ensures var actions := [LevelRuns.UpdateNotify(0, "a", Sensor("a", 2, "u"), YES, YES), LevelRuns.UpdatePut(0, 1)];
            LevelRuns.Feasible(OneEntry(), actions) && !LevelRuns.Exact(LevelRuns.Run(OneEntry(), actions))
  {
    var notify, put := LevelRuns.UpdateNotify(0, "a", Sensor("a", 2, "u"), YES, YES), LevelRuns.UpdatePut(0, 1);
    var s1 := LevelRuns.Step(OneEntry(), notify);
    OneEntryRun();
    EntryMoves(OneEntry());
    LevelRuns.StepExact(OneEntry(), notify);
    LevelRuns.StepSound(OneEntry(), notify);
    LevelRuns.StepExact(s1, put);
    LevelRuns.RunTwo(OneEntry(), notify, put);
  }

  lemma EntryMoves(s: LevelRuns.Service)
    requires s.level == OneEntry().level && s.updates == map[]
    ensures var notify := LevelRuns.UpdateNotify(0, "a", Sensor("a", 2, "u"), YES, YES);
            && LevelRuns.Enabled(s, notify)
            && LevelRuns.Step(s, notify) == s.(updates := map[0 := Sensor("a", 2, "u")])
  {
    LevelRuns.UpdateHearsNothing(s, 0, "a", Sensor("a", 2, "u"), YES, YES);
  }

  /** Once the stream is cached, the connector goes on with its old topic. */
  lemma LevelCacheStaysOld()
    ensures var message := LevelRuns.Action.OnMessage(0, "tcp://b", "t", [Reading(1)]);
            var notify, put := LevelRuns.UpdateNotify(0, "a", Sensor("a", 2, "u"), YES, YES), LevelRuns.UpdatePut(0, 1);
            && LevelRuns.Enabled(OneEntry(), message)
            && LevelRuns.Feasible(LevelRuns.Step(OneEntry(), message), [notify, put])
            && !LevelTypes.FreshCache(LevelRuns.Run(LevelRuns.Step(OneEntry(), message), [notify, put]))
  {
    var message := LevelRuns.Action.OnMessage(0, "tcp://b", "t", [Reading(1)]);
    var notify, put := LevelRuns.UpdateNotify(0, "a", Sensor("a", 2, "u"), YES, YES), LevelRuns.UpdatePut(0, 1);
    OneEntryRun();
    LevelMessageIsCached(OneEntry());
    var s1 := LevelRuns.Step(OneEntry(), message);
    EntryMoves(s1);
    LevelTypes.StepKeepsSources(LevelRuns.Step(s1, notify), put);
    LevelRuns.RunTwo(s1, notify, put);
  }

  lemma LevelMessageIsCached(s: LevelRuns.Service)
    requires LevelRuns.Reg(s) == map["a" := Sensor("a", 1, "t")] && s.world.conn.cache == map[] && s.pending == map[]
    ensures var message := LevelRuns.Action.OnMessage(0, "tcp://b", "t", [Reading(1)]);
            && LevelRuns.Enabled(s, message)
            && LevelRuns.Step(s, message).level == s.level && LevelRuns.Step(s, message).updates == s.updates
            && LevelRuns.Step(s, message).world.conn.cache == LevelRuns.Reg(s)
  {
    var r := Reading(1);
    assert r in [r];
    assert Names([r]) == {"a"};
  }

  /** A Delete overtakes the Add of its stream: in the end nothing is registered, and the topic
      stays subscribed. */
  lemma DeleteOvertakesAdd()
    ensures var s := OnePut(Sensor("a", 1, "t"));
            var actions := [LevelRuns.DeleteNotify(0, "a", YES, YES), LevelRuns.AddNotify(0, YES, YES, 0)];
            && LevelRuns.Feasible(s, actions)
            && LevelRuns.Enabled(LevelRuns.Run(s, actions), LevelRuns.DeleteRemove(0, 0))
            && var s1 := LevelRuns.Step(LevelRuns.Run(s, actions), LevelRuns.DeleteRemove(0, 0));
               LevelRuns.Reg(s1) == map[] && Receivers(s1.world.conn, "tcp://b", "t") == 1
  {
    var ds := Sensor("a", 1, "t");
    var s := OnePut(ds);
    var notified := LevelRuns.DeleteNotify(0, "a", YES, YES);
    PutRun(ds);
    ServiceFanOut(s.world, ds, ds, YES, YES);
    var s1 := LevelRuns.Step(s, notified);
    assert s1.world.conn.managers == map[] && s1.adds == s.adds && s1.deletes == map[0 := "a"];
    ServiceFanOut(s1.world, ds, ds, YES, YES);
    LevelRuns.RunTwo(s, notified, LevelRuns.AddNotify(0, YES, YES, 0));
  }

  function Races(entries: Db, store: Store, deletes: map<nat, string>, pending: map<nat, seq<Record>>): LevelRuns.Service {
    LevelRuns.Service(LevelState(entries, 0), World(store, EMPTY), map[], map[], deletes, pending)
  }

  const TEXT_ENTRY := [Entry("a", Typed("a", STRING))]

  /** The stream whose Delete is raced, as its Add leaves it. */
  lemma RaceBegins()
    ensures LevelRuns.Enabled(OnePut(Typed("a", STRING)), LevelRuns.AddNotify(0, YES, YES, 0))
    ensures LevelRuns.Step(OnePut(Typed("a", STRING)), LevelRuns.AddNotify(0, YES, YES, 0))
         == Races(TEXT_ENTRY, map["a" := []], map[], map[])
  {
    var ds := Typed("a", STRING);
    PutRun(ds);
    ServiceFanOut(OnePut(ds).world, ds, ds, YES, YES);
    assert map[0 := ds] - {0} == map[];
  }

  lemma RaceNotifies()
    ensures LevelRuns.Enabled(Races(TEXT_ENTRY, map["a" := []], map[], map[]), LevelRuns.DeleteNotify(0, "a", YES, YES))
    ensures LevelRuns.Step(Races(TEXT_ENTRY, map["a" := []], map[], map[]), LevelRuns.DeleteNotify(0, "a", YES, YES))
         == Races(TEXT_ENTRY, map[], map[0 := "a"], map[])
  {
    var s := Races(TEXT_ENTRY, map["a" := []], map[], map[]);
    ServiceFanOut(s.world, Typed("a", STRING), Typed("a", STRING), YES, YES);
    assert s.world.store - {"a"} == map[];
  }

  lemma TextIsFine()
    ensures HttpVerdictAll(map["a" := Typed("a", STRING)], [TEXT]) == Fine
    ensures Groups([TEXT]) == map["a" := [TEXT]]
    ensures Overlay(map[], Groups([TEXT]), {"a"}) == map["a" := [TEXT]]
    ensures Overlay(map["a" := []], Groups([TEXT]), {"a"}) == map["a" := [TEXT]]
  {
    assert [TEXT][1..] == [];
    assert TEXT in [TEXT];
    assert OfName([TEXT], "a") == [TEXT];
    assert Groups([TEXT]).Keys == {"a"};
    assert InsertAll([], [TEXT]) == [TEXT];
  }

  lemma RaceSubmits()
    ensures var s := Races(TEXT_ENTRY, map[], map[0 := "a"], map[]);
            var t := Races(TEXT_ENTRY, map["a" := [TEXT]], map[0 := "a"], map[]);
            var submit, write := LevelRuns.Action.Submit(0, [TEXT]), LevelRuns.Action.Write(0, {"a"});
            LevelRuns.Feasible(s, [submit, write]) && LevelRuns.Run(s, [submit, write]) == t
  {
    var s := Races(TEXT_ENTRY, map[], map[0 := "a"], map[]);
    OneContents("a", Typed("a", STRING));
    TextIsFine();
    assert map[0 := [TEXT]] - {0} == map[];
    LevelRuns.RunTwo(s, LevelRuns.Action.Submit(0, [TEXT]), LevelRuns.Action.Write(0, {"a"}));
  }

  lemma RaceRemoves()
    ensures LevelRuns.Enabled(Races(TEXT_ENTRY, map["a" := [TEXT]], map[0 := "a"], map[]), LevelRuns.DeleteRemove(0, 0))
    ensures LevelRuns.Step(Races(TEXT_ENTRY, map["a" := [TEXT]], map[0 := "a"], map[]), LevelRuns.DeleteRemove(0, 0))
         == Races([], map["a" := [TEXT]], map[], map[])
  {
    assert map[0 := "a"] - {0} == map[];
  }

  /** Between the two halves of a Delete a record of the stream is still taken. It outlives the
      stream, and is found again by the next Add of the name, whatever its type. */
  lemma DeleteRaceSpoilsTypes()
    ensures var notify := LevelRuns.DeleteNotify(0, "a", YES, YES);
            var message := [LevelRuns.Action.Submit(0, [TEXT]), LevelRuns.Action.Write(0, {"a"})];
            var remove, add := LevelRuns.DeleteRemove(0, 0), LevelRuns.AddPut(0, Typed("a", FLOAT));
            var s := Races(TEXT_ENTRY, map["a" := []], map[], map[]);
            && LevelTypes.Typed(s)
            && LevelRuns.Enabled(s, notify) && LevelRuns.Feasible(LevelRuns.Step(s, notify), message)
            && var s1 := LevelRuns.Run(LevelRuns.Step(s, notify), message);
               LevelRuns.Feasible(s1, [remove, add]) && !LevelTypes.Typed(LevelRuns.Run(s1, [remove, add]))
  {
    var s3 := Races([], map["a" := [TEXT]], map[], map[]);
    RaceNotifies();
    RaceSubmits();
    RaceRemoves();
    assert TEXT in SeriesOf(s3.world.store, "a");
    LevelTypes.AddPutTyped(s3, 0, Typed("a", FLOAT));
    var s2 := Races(TEXT_ENTRY, map["a" := [TEXT]], map[0 := "a"], map[]);
    LevelRuns.RunTwo(s2, LevelRuns.DeleteRemove(0, 0), LevelRuns.AddPut(0, Typed("a", FLOAT)));
  }

  /** A Delete comes between the halves of an Update of the same stream: the Update writes the
      entry again, without a series and without a subscription. */
  lemma UpdateBringsBack()
    ensures var update := LevelRuns.UpdateNotify(0, "a", Sensor("a", 1, "t"), YES, YES);
            var delete := [LevelRuns.DeleteNotify(0, "a", YES, YES), LevelRuns.DeleteRemove(0, 1)];
            && LevelRuns.Enabled(OneEntry(), update) && LevelRuns.Feasible(LevelRuns.Step(OneEntry(), update), delete)
            && var s2 := LevelRuns.Run(LevelRuns.Step(OneEntry(), update), delete);
               && LevelRuns.Reg(s2) == map[] && LevelRuns.Enabled(s2, LevelRuns.UpdatePut(0, 2))
               && var s3 := LevelRuns.Step(s2, LevelRuns.UpdatePut(0, 2));
                  && LevelRuns.Reg(s3) == map["a" := Sensor("a", 1, "t")]
                  && s3.world == World(map[], EMPTY)
  {
    var ds := Sensor("a", 1, "t");
    OneEntryRun();
    LevelRuns.UpdateHearsNothing(OneEntry(), 0, "a", ds, YES, YES);
    var s1 := LevelRuns.Step(OneEntry(), LevelRuns.UpdateNotify(0, "a", ds, YES, YES));
    assert s1 == OneEntry().(updates := map[0 := ds]);
    SensorLeaves(s1);
    OneContents("a", ds);
  }

  lemma SensorLeaves(s: LevelRuns.Service)
    requires s.level == OneEntry().level && s.world == OneEntry().world && s.deletes == map[]
    ensures var delete := [LevelRuns.DeleteNotify(0, "a", YES, YES), LevelRuns.DeleteRemove(0, 1)];
            && LevelRuns.Feasible(s, delete)
            && LevelRuns.Run(s, delete) == s.(level := LevelState([], 1), world := World(map[], EMPTY))
  {
    var ds := Sensor("a", 1, "t");
    ServiceFanOut(s.world, ds, ds, YES, YES);
    assert s.world.store - {"a"} == map[];
    assert map[0 := "a"] - {0} == map[];
    LevelRuns.RunTwo(s, LevelRuns.DeleteNotify(0, "a", YES, YES), LevelRuns.DeleteRemove(0, 1));
  }

  // ---- Waiting streams ----

  /** A database of two streams of one broker, the first of which fails to connect while the
      service starts. */
  function TwoEntries(topic: string): LevelState {
    LevelState([Entry("a", Sensor("a", 1, "t")), Entry("w", Sensor("w", 2, topic))], 0)
  }

  ghost function OneWaits(topic: string): LevelRuns.Service {
    var conn := OneManager(topic).(failed := map["a" := Sensor("a", 1, "t").source.mqtt.value]);
    LevelRuns.Service(TwoEntries(topic), World(map[], conn), map[], map[], map[], map[])
  }

  lemma TwoContents(topic: string)
    ensures Contents(TwoEntries(topic).db) == map["a" := Sensor("a", 1, "t"), "w" := Sensor("w", 2, topic)]
    ensures Backends.SoundDb(TwoEntries(topic).db)
    ensures Listing(Contents(TwoEntries(topic).db)) == [Sensor("a", 1, "t"), Sensor("w", 2, topic)]
  {
    var db := TwoEntries(topic).db;
    assert db[1..] == [Entry("w", Sensor("w", 2, topic))];
    OneContents("w", Sensor("w", 2, topic));
    assert Backends.SoundDb(db);
    Backends.IteratesListing(db);
    assert Values(db) == [Sensor("a", 1, "t"), Sensor("w", 2, topic)];
  }

  lemma FirstFailsToStart(topic: string)
    ensures StartAll(EMPTY, [Sensor("a", 1, "t"), Sensor("w", 2, topic)], [NoSuback, Granted])
         == Outcome(OneManager(topic).(failed := map["a" := Sensor("a", 1, "t").source.mqtt.value]), Ok)
  {
    var a, w := Sensor("a", 1, "t"), Sensor("w", 2, topic);
    assert [a, w][1..] == [w] && [w][1..] == [];
    assert [NoSuback, Granted][1..] == [Granted] && [Granted][1..] == [];
    var c := EMPTY.(failed := map["a" := a.source.mqtt.value]);
    assert StartOne(EMPTY, a, NoSuback) == Outcome(c, Ok);
    var c2 := OneManager(topic).(failed := c.failed);
    assert StartOne(c, w, Granted) == Outcome(c2, Ok);
    assert StartAll(c2, [], []) == Outcome(c2, Ok);
    assert StartAll(c, [w], [Granted]) == Outcome(c2, Ok);
  }

  lemma OneWaitsAfterStart(topic: string)
    ensures var l := TwoEntries(topic);
            && Backends.SoundDb(l.db) && |Listing(Contents(l.db))| == 2
            && LevelRuns.Started(l, map[], [NoSuback, Granted]) == OneWaits(topic)
    ensures LevelRuns.Sound(OneWaits(topic)) && LevelRuns.Exact(OneWaits(topic))
    ensures LevelRuns.Reg(OneWaits(topic)) == map["a" := Sensor("a", 1, "t"), "w" := Sensor("w", 2, topic)]
    ensures LevelRuns.View(OneWaits(topic)) == LevelRuns.Reg(OneWaits(topic))
  {
    TwoContents(topic);
    FirstFailsToStart(topic);
    StartUp.StartExact(Contents(TwoEntries(topic).db), [NoSuback, Granted]);
    assert LevelRuns.View(OneWaits(topic)) == LevelRuns.Reg(OneWaits(topic));
  }

  /** Deleting it takes the receiver of the other, which asks for the same topic. */
  lemma WaitingDeleteSpoils()
    ensures var a := LevelRuns.DeleteNotify(0, "a", YES, YES);
            LevelRuns.Enabled(OneWaits("t"), a) && !LevelRuns.Exact(LevelRuns.Step(OneWaits("t"), a))
  {
    OneWaitsAfterStart("t");
    assert Counted(OneWaits("t").world.conn, Sensor("a", 1, "t").source.mqtt.value);
    LevelRuns.StepExact(OneWaits("t"), LevelRuns.DeleteNotify(0, "a", YES, YES));
  }

  /** With the other on another topic of the broker, the handler dereferences nil. */
  lemma WaitingDeletePanics()
    ensures LevelRuns.Reg(OneWaits("u"))["a"] == Sensor("a", 1, "t")
    ensures Deleted(LISTENERS, OneWaits("u").world, Sensor("a", 1, "t"), [YES, YES]).status == Panic
  {
    OneWaitsAfterStart("u");
    ServiceFanOut(OneWaits("u").world, Sensor("a", 1, "t"), Sensor("a", 1, "t"), YES, YES);
  }

  // ---- Links ----

  const SECOND := TICKS

  lemma TwoReadings(t0: int, t1: int, q: Cursor.Query)
    requires 0 <= q.from <= t0 < t1 <= q.to && !q.desc && q.limit == -1
    ensures QueryWalk.Served([Reading(t0), Reading(t1)], q) == [Reading(t0), Reading(t1)]
  {
    var s := [Reading(t0), Reading(t1)];
    Cursor.LowerIs(s, q.from, 0);
    Cursor.LowerIs(s, q.to + 1, 2);
    Cursor.PassedAt(s, q);
    assert Cursor.Passed(s, q) == [s[0], s[1]];
  }

  /** Two records in one second, one to a page: the second page starts over, and a client
      that follows the links never comes to the end. */
  lemma LinksLoopWithinASecond(fuel: nat)
    ensures var s := [Reading(SECOND), Reading(SECOND + 1)];
            var q := Cursor.Query(0, 9 * SECOND, false, -1, 1);
            QueryWalk.Walk(QueryWalk.ServiceOf(s), q, fuel) == QueryWalk.Unfinished
  {
    var s := [Reading(SECOND), Reading(SECOND + 1)];
    var q := Cursor.Query(0, 9 * SECOND, false, -1, 1);
    var service := QueryWalk.ServiceOf(s);
    assert service(q) == QueryWalk.Page([s[0]], Some(q.(from := SECOND))) by {
      TwoReadings(SECOND, SECOND + 1, q);
      QueryWalk.ResponseIsFirstPage(s, q);
    }
    if fuel > 0 {
      LinkLoops(s, q.(from := SECOND), fuel - 1);
    }
  }

  lemma {:induction false} LinkLoops(s: seq<Record>, q: Cursor.Query, fuel: nat)
    requires s == [Reading(SECOND), Reading(SECOND + 1)] && q == Cursor.Query(SECOND, 9 * SECOND, false, -1, 1)
    ensures QueryWalk.Walk(QueryWalk.ServiceOf(s), q, fuel) == QueryWalk.Unfinished
  {
    TwoReadings(SECOND, SECOND + 1, q);
    QueryWalk.ResponseIsFirstPage(s, q);
    if fuel > 0 {
      LinkLoops(s, q, fuel - 1);
    }
  }

  /** A last record exactly at the end of the range, alone on its page: its link is refused. */
  lemma LastLinkIsRefused()
    ensures var s := [Reading(SECOND), Reading(2 * SECOND)];
            var q := Cursor.Query(0, 2 * SECOND, false, -1, 1);
            QueryWalk.Walk(QueryWalk.ServiceOf(s), q, 2) == QueryWalk.Stopped
  {
    var s := [Reading(SECOND), Reading(2 * SECOND)];
    var q := Cursor.Query(0, 2 * SECOND, false, -1, 1);
    TwoReadings(SECOND, 2 * SECOND, q);
    QueryWalk.ResponseIsFirstPage(s, q);
    assert QueryWalk.Linked(s, q) == q.(from := 2 * SECOND);
  }

  /** Descending from an end between two records, the first one is beyond the end. */
  lemma EndBetweenRecords()
    ensures var s := [Reading(SECOND), Reading(3 * SECOND)];
            var q := Cursor.Query(0, 2 * SECOND, true, -1, 10);
            QueryWalk.Respond(s, q) == QueryWalk.Page([Reading(3 * SECOND), Reading(SECOND)], None)
  {
    var s := [Reading(SECOND), Reading(3 * SECOND)];
    var q := Cursor.Query(0, 2 * SECOND, true, -1, 10);
    Cursor.LowerIs(s, 0, 0);
    Cursor.LowerIs(s, 2 * SECOND, 1);
    Cursor.PassedAt(s, q);
    assert Cursor.Passed(s, q) == [s[1], s[0]];
  }

  /** A query that names no start and ends before the epoch gives every record: as an unsigned
      key its end is after them all. */
  lemma EndBeforeTheEpoch()
    ensures var s := [Reading(SECOND), Reading(3 * SECOND)];
            var q := Cursor.Query(Cursor.ZERO_TIME, -SECOND, true, -1, 10);
            && QueryWalk.Respond(s, q) == QueryWalk.Page([Reading(3 * SECOND), Reading(SECOND)], None)
            && QueryWalk.Wanted(s, q) == []
  {
    var s := [Reading(SECOND), Reading(3 * SECOND)];
    var q := Cursor.Query(Cursor.ZERO_TIME, -SECOND, true, -1, 10);
    Cursor.LowerIs(s, 0, 0);
    Cursor.LowerIs(s, Cursor.End(q), 2);
    Cursor.LowerIs(s, q.to + 1, 0);
    Cursor.PassedAt(s, q);
    assert Cursor.Passed(s, q) == [s[1], s[0]];
  }

  /** Descending over a page boundary inside a second, the cursor lands on the first record of
      the second and leaves the later ones out. */
  lemma DescendingSkips()
    ensures var s := [Reading(SECOND), Reading(SECOND + 1), Reading(2 * SECOND)];
            var q := Cursor.Query(0, 2 * SECOND, true, -1, 1);
            QueryWalk.Walk(QueryWalk.ServiceOf(s), q, 2) == QueryWalk.Done([Reading(2 * SECOND), Reading(SECOND)], 2)
  {
    var s := [Reading(SECOND), Reading(SECOND + 1), Reading(2 * SECOND)];
    var q := Cursor.Query(0, 2 * SECOND, true, -1, 1);
    ThreeReadings(s, q);
    QueryWalk.ResponseIsFirstPage(s, q);
    QueryWalk.ResponseIsFirstPage(s, q.(to := SECOND));
    assert QueryWalk.Linked(s, q) == q.(to := SECOND);
    assert QueryWalk.Walk(QueryWalk.ServiceOf(s), q.(to := SECOND), 1) == QueryWalk.Done([s[0]], 1);
  }

  lemma ThreeReadings(s: seq<Record>, q: Cursor.Query)
    requires s == [Reading(SECOND), Reading(SECOND + 1), Reading(2 * SECOND)]
    requires q == Cursor.Query(0, 2 * SECOND, true, -1, 1)
    ensures QueryWalk.Served(s, q) == [s[2], s[1], s[0]]
    ensures QueryWalk.Served(s, q.(to := SECOND)) == [s[0]]
  {
    Cursor.LowerIs(s, 0, 0);
    Cursor.LowerIs(s, 2 * SECOND, 2);
    Cursor.LowerIs(s, SECOND, 0);
    Cursor.PassedAt(s, q);
    Cursor.PassedAt(s, q.(to := SECOND));
    assert Cursor.Passed(s, q) == [s[2], s[1], s[0]];
    assert Cursor.Passed(s, q.(to := SECOND)) == [s[0]];
  }
}
