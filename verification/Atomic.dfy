/** The registry's own operations on the machine: each memory operation, listeners included,
    is one or two of the machine's steps; LevelDB's are judged against the counts directly. */
module Atomic {
  import opened Streams
  import opened Validation
  import opened ConnectorSpec
  import opened LightdbSpec
  import opened EventsSpec
  import opened IngestSpec
  import opened RegistrySpec
  import opened Machine
  import opened RefCount

  // ---- Memory ----

  lemma RunOne(s: Sys, e: Event)
    requires Enabled(s, e)
    ensures Feasible(s, [e]) && Run(s, [e]) == Step(s, e)
  {
  }

  lemma RunTwo(s: Sys, e: Event, f: Event)
    requires Enabled(s, e) && Enabled(Step(s, e), f)
    ensures Feasible(s, [e, f]) && Run(s, [e, f]) == Step(Step(s, e), f)
  {
    assert [e, f][1..] == [f];
    RunOne(Step(s, e), f);
  }

  lemma RunThree(s: Sys, e: Event, f: Event, g: Event)
    requires Enabled(s, e) && Enabled(Step(s, e), f) && Enabled(Step(Step(s, e), f), g)
    ensures Feasible(s, [e, f, g]) && Run(s, [e, f, g]) == Step(Step(Step(s, e), f), g)
  {
    RunTwo(Step(s, e), f, g);
    assert [e, f, g][1..] == [f, g];
  }

  /** What `MemoryStorage.Add` does, as its contract in Memory.dfy states it, is the handlers'
      step followed by the write. */
  lemma AddIsSteps(s: Sys, m: MemState, k: nat, ds: DataStream, store: Reply, broker: Reply, now: int)
    requires s.writer == Idle && k !in s.adds && InStep(m) && m.data == s.reg
    ensures var n := if AcceptsCreation(ds) then Created(LISTENERS, s.world, ds, [store, broker]) else Notified(s.world, Ok);
            var es := if AcceptsCreation(ds) && n.status == Ok then [AddEnter(k, ds, store, broker), AddWrite(k)]
                      else [AddEnter(k, ds, store, broker)];
            && Feasible(s, es)
            && Run(s, es) == s.(reg := MemAdd(m, ds, n.status, now).0.data, world := n.world)
  {
    var e := AddEnter(k, ds, store, broker);
    var n := Created(LISTENERS, s.world, ds, [store, broker]);
    if AcceptsCreation(ds) && n.status == Ok {
      RunTwo(s, e, AddWrite(k));
      assert s.adds[k := ds] - {k} == s.adds;
    } else {
      RunOne(s, e);
    }
  }

  lemma UpdateIsSteps(s: Sys, m: MemState, name: string, ds: DataStream, store: Reply, broker: Reply, now: int)
    requires s.writer == Idle && s.adds == map[] && InStep(m) && m.data == s.reg
    ensures var accepted := name in s.reg && AcceptsUpdate(ds, s.reg[name]);
            var n := if accepted then Updated(LISTENERS, s.world, s.reg[name], Modified(s.reg[name], ds), [store, broker])
                     else Notified(s.world, Ok);
            var es := if accepted && n.status == Ok then [UpdateEnter(name, ds, store, broker), WriterWrite]
                      else [UpdateEnter(name, ds, store, broker)];
            && Feasible(s, es)
            && Run(s, es) == s.(reg := MemUpdate(m, name, ds, n.status, now).0.data, world := n.world)
  {
    var e := UpdateEnter(name, ds, store, broker);
    if name in s.reg && AcceptsUpdate(ds, s.reg[name])
       && Updated(LISTENERS, s.world, s.reg[name], Modified(s.reg[name], ds), [store, broker]).status == Ok {
      RunTwo(s, e, WriterWrite);
    } else {
      RunOne(s, e);
    }
  }

  lemma DeleteIsSteps(s: Sys, m: MemState, name: string, store: Reply, broker: Reply, now: int)
    requires s.writer == Idle && s.adds == map[] && InStep(m) && m.data == s.reg
    ensures var n := if name in s.reg then Deleted(LISTENERS, s.world, s.reg[name], [store, broker]) else Notified(s.world, Ok);
            var es := if name in s.reg && n.status == Ok then [DeleteEnter(name, store, broker), WriterWrite]
                      else [DeleteEnter(name, store, broker)];
            && Feasible(s, es)
            && Run(s, es) == s.(reg := MemDelete(m, name, n.status, now).0.data, world := n.world)
  {
    var e := DeleteEnter(name, store, broker);
    if name in s.reg && Deleted(LISTENERS, s.world, s.reg[name], [store, broker]).status == Ok {
      RunTwo(s, e, WriterWrite);
    } else {
      RunOne(s, e);
    }
  }

  /** `Http.Submit`, as its contract states it, is its check and, for an acceptable message, the
      write of the packs the store takes; a refused message changes nothing. */
  lemma SubmitIsSteps(s: Sys, k: nat, records: seq<Record>, st1: Store, written: set<string>)
    requires s.writer == Idle && k !in s.pending
    ensures HttpVerdictAll(s.reg, records) != Fine ==> Step(s, Submit(k, records)) == s
    ensures HttpVerdictAll(s.reg, records) == Fine && Reached(s.world.store, st1, Groups(records), written) ==>
              var es := [Submit(k, records), Write(k, written)];
              Feasible(s, es) && Run(s, es) == s.(world := s.world.(store := st1))
  {
    if HttpVerdictAll(s.reg, records) == Fine && Reached(s.world.store, st1, Groups(records), written) {
      RunTwo(s, Submit(k, records), Write(k, written));
      assert s.pending[k := records] - {k} == s.pending;
    }
  }

  /** `Connector.OnMessage` likewise. */
  lemma MessageIsSteps(s: Sys, k: nat, url: string, topic: string, records: seq<Record>, st1: Store, written: set<string>)
    requires s.writer == Idle && k !in s.pending
    requires Reached(s.world.store, st1, Groups(WantedOf(s.reg, s.world.conn.cache, url, topic, records)), written)
    ensures var es := [OnMessage(k, url, topic, records), Write(k, written)];
            var c := s.world.conn;
            && Feasible(s, es)
            && Run(s, es) == s.(world := World(st1, c.(cache := CacheAfter(s.reg, c.cache, records))))
  {
    var wanted := WantedOf(s.reg, s.world.conn.cache, url, topic, records);
    RunTwo(s, OnMessage(k, url, topic, records), Write(k, written));
    assert s.pending[k := wanted] - {k} == s.pending;
  }

  // ---- LevelDB ----

  /** LevelDB's Add keeps the entry when a listener fails, so a stream with a source is then
      registered and neither counted nor waiting. */
  lemma LevelAddExact(w: World, reg: Registry, ds: DataStream, store: Reply, broker: Reply)
    requires Encodes(w.conn, reg, map[]) && ds.name !in reg
    ensures var n := Created(LISTENERS, w, ds, [store, broker]);
            Encodes(n.world.conn, reg[ds.name := ds], map[]) <==> n.status == Ok || ds.source.mqtt.None?
  {
    var n := Created(LISTENERS, w, ds, [store, broker]);
    var adds := map[0 := ds];
    ServiceFanOut(w, ds, ds, store, broker);
    CreateHandlerExact(w.conn, reg, map[], 0, ds, broker.sub);
    assert map[][0 := ds] == adds && adds - {0} == map[];
    if n.status == Ok {
      AddWriteExact(n.world.conn, reg, adds, 0);
    } else {
      UncountedExact(w.conn, reg, ds);
    }
  }

  /** A stream registered behind the connector's back. */
  lemma UncountedExact(c: Conn, reg: Registry, ds: DataStream)
    requires Encodes(c, reg, map[]) && ds.name !in reg
    ensures Encodes(c, reg[ds.name := ds], map[]) <==> ds.source.mqtt.None?
  {
    HoldersChange(reg, c.failed, reg[ds.name := ds], c.failed, ds.name);
    if ds.source.mqtt.None? {
      forall b, t ensures Receivers(c, b, t) == Expected(c, reg[ds.name := ds], map[], b, t) {
        assert Receivers(c, b, t) == Expected(c, reg, map[], b, t);
      }
    } else {
      var src := ds.source.mqtt.value;
      assert Receivers(c, src.brokerURL, src.topic) == Expected(c, reg, map[], src.brokerURL, src.topic);
      assert Receivers(c, src.brokerURL, src.topic) != Expected(c, reg[ds.name := ds], map[], src.brokerURL, src.topic);
    }
  }

  /** LevelDB's Update shows the listeners one object as both the old and the new stream, so
      the connector never moves a subscription: the counts stay exact if and only if the
      source stays on its topic. */
  lemma LevelUpdateExact(w: World, reg: Registry, name: string, ds: DataStream, store: Reply, broker: Reply)
    requires Encodes(w.conn, reg, map[]) && name in reg && reg[name].name == name && AcceptsUpdate(ds, reg[name])
    ensures var next := Modified(reg[name], ds);
            var n := Updated(LISTENERS, w, next, next, [store, broker]);
            && n == Notified(w, Ok)
            && (Encodes(n.world.conn, reg[name := next], map[]) <==> SameSource(reg[name], next))
  {
    var next := Modified(reg[name], ds);
    ServiceFanOut(w, next, next, store, broker);
    MovedExact(w.conn, reg, name, next);
  }

  lemma MovedExact(c: Conn, reg: Registry, name: string, next: DataStream)
    requires Encodes(c, reg, map[]) && name in reg
    ensures Encodes(c, reg[name := next], map[]) <==> SameSource(reg[name], next)
  {
    var reg1 := reg[name := next];
    HoldersChange(reg, c.failed, reg1, c.failed, name);
    if SameSource(reg[name], next) {
      forall b, t ensures Receivers(c, b, t) == Expected(c, reg1, map[], b, t) {
        assert Receivers(c, b, t) == Expected(c, reg, map[], b, t);
      }
    } else if name !in c.failed {
      var src := if next.source.mqtt.Some? then next.source.mqtt.value else reg[name].source.mqtt.value;
      assert Receivers(c, src.brokerURL, src.topic) == Expected(c, reg, map[], src.brokerURL, src.topic);
      assert Receivers(c, src.brokerURL, src.topic) != Expected(c, reg1, map[], src.brokerURL, src.topic);
    }
  }

  /** LevelDB's Delete, as the memory backend's: by the delete handler's guard. */
  lemma LevelDeleteExact(w: World, reg: Registry, name: string, store: Reply, broker: Reply)
    requires Encodes(w.conn, reg, map[]) && name in reg && reg[name].name == name
    ensures var n := Deleted(LISTENERS, w, reg[name], [store, broker]);
            Encodes(n.world.conn, if n.status == Ok then reg - {name} else reg, map[])
            <==> !DropSeries(w.store, name, store.stored).ok || DeleteKeeps(w.conn, reg[name], broker.unsub)
  {
    ServiceFanOut(w, reg[name], reg[name], store, broker);
    DeleteHandlerExact(w.conn, reg, reg[name], broker.unsub);
  }
}
