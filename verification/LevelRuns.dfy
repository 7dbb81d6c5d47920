/** The service over the LevelDB registry, which outlives the process: `Start` rebuilds the
    connector from it, and registrations that fail then wait for a retry. The registry has no
    lock of its own. An Add writes the entry and then notifies, an Update reads and notifies and
    then writes, a Delete notifies and then removes the entry, a message is checked and then
    written, and anything can come in between. */
module LevelRuns {
  import opened Wrappers
  import opened Streams
  import opened Validation
  import opened ConnectorSpec
  import opened LightdbSpec
  import opened EventsSpec
  import opened IngestSpec
  import opened RegistrySpec
  import opened RefCount
  import opened ExactRuns
  import opened Backends
  import Atomic
  import StartUp

  /** `adds` holds the Adds whose entry is written and whose handlers have not run, `updates` the
      Updates whose handlers have run and whose entry is not written, `deletes` the Deletes whose
      handlers have run and whose entry is not removed, and `pending` the records of the messages
      that have been checked and not written. */
  datatype Service = Service(
    level: LevelState,
    world: World,
    adds: map<nat, DataStream>,
    updates: map<nat, DataStream>,
    deletes: map<nat, string>,
    pending: map<nat, seq<Record>>)

  datatype Action =
    | AddPut(k: nat, ds: DataStream)
    | AddNotify(k: nat, store: Reply, broker: Reply, now: int)
    | UpdateNotify(k: nat, name: string, ds: DataStream, store: Reply, broker: Reply)
    | UpdatePut(k: nat, now: int)
    | DeleteNotify(k: nat, name: string, store: Reply, broker: Reply)
    | DeleteRemove(k: nat, now: int)
    | Retry(order: seq<string>, answers: seq<Suback>)
    | Lost(url: string)
    | Reconnect(url: string)
    | Restore(url: string, refused: set<string>)
    | Submit(k: nat, records: seq<Record>)
    | OnMessage(k: nat, url: string, topic: string, records: seq<Record>)
    | Write(k: nat, written: set<string>)

  function Reg(s: Service): Registry {
    Contents(s.level.db)
  }

  ghost predicate Enabled(s: Service, a: Action) {
    var c := s.world.conn;
    match a
    case AddPut(k, _) => k !in s.adds
    case AddNotify(k, _, _, _) => k in s.adds
    case UpdateNotify(k, _, _, _, _) => k !in s.updates
    case UpdatePut(k, _) => k in s.updates
    case DeleteNotify(k, _, _, _) => k !in s.deletes
    case DeleteRemove(k, _) => k in s.deletes
    case Retry(order, answers) => RetryOrder(c, order) && |order| == |answers|
    case Lost(url) => url in c.managers && c.managers[url].client.connected
    case Reconnect(url) => url in c.managers && !c.managers[url].client.connected
    case Restore(url, _) => url in c.managers && c.managers[url].client.connected
    case Submit(k, _) => k !in s.pending
    case OnMessage(k, _, _, _) => k !in s.pending
    case Write(k, written) => k in s.pending && written <= Groups(s.pending[k]).Keys
  }

  /** Sessions come and go at any moment, and every operation can begin at any moment. */
  lemma AtAnyMoment(s: Service, b: string, refused: set<string>, a: Action)
    ensures b in s.world.conn.managers && s.world.conn.managers[b].client.connected <==> Enabled(s, Lost(b))
    ensures Enabled(s, Restore(b, refused)) <==> Enabled(s, Lost(b))
    ensures b in s.world.conn.managers && !s.world.conn.managers[b].client.connected <==> Enabled(s, Reconnect(b))
    ensures a.AddPut? && a.k !in s.adds ==> Enabled(s, a)
    ensures a.UpdateNotify? && a.k !in s.updates ==> Enabled(s, a)
    ensures a.DeleteNotify? && a.k !in s.deletes ==> Enabled(s, a)
    ensures (a.Submit? || a.OnMessage?) && a.k !in s.pending ==> Enabled(s, a)
  {
  }

  function WithConn(s: Service, c: Conn): Service {
    s.(world := s.world.(conn := c))
  }

  ghost function Step(s: Service, a: Action): Service
    requires Enabled(s, a)
  {
    var l, w := s.level, s.world;
    match a
    case AddPut(k, ds) =>
      if !AcceptsCreation(ds) || DbGet(l.db, ds.name).Some? then s
      else s.(level := l.(db := DbPut(l.db, ds.name, ds)), adds := s.adds[k := ds])
    case AddNotify(k, store, broker, now) =>
      var n := Created(LISTENERS, w, s.adds[k], [store, broker]);
      s.(world := n.world, adds := s.adds - {k}, level := if n.status == Ok then l.(lastModified := now) else l)
    case UpdateNotify(k, name, ds, store, broker) =>
      var prev := DbGet(l.db, name);
      if prev.None? || !AcceptsUpdate(ds, prev.value) then s
      else
        var next := Modified(prev.value, ds);
        var n := Updated(LISTENERS, w, next, next, [store, broker]);
        s.(world := n.world, updates := if n.status == Ok then s.updates[k := next] else s.updates)
    case UpdatePut(k, now) =>
      s.(level := LevelState(DbPut(l.db, s.updates[k].name, s.updates[k]), now), updates := s.updates - {k})
    case DeleteNotify(k, name, store, broker) =>
      var prev := DbGet(l.db, name);
      if prev.None? then s
      else
        var n := Deleted(LISTENERS, w, prev.value, [store, broker]);
        s.(world := n.world, deletes := if n.status == Ok then s.deletes[k := name] else s.deletes)
    case DeleteRemove(k, now) =>
      s.(level := LevelState(DbDelete(l.db, s.deletes[k]), now), deletes := s.deletes - {k})
    case Retry(order, answers) => WithConn(s, RetryPass(w.conn, order, answers))
    case Lost(url) => WithConn(s, ConnectionLost(w.conn, url))
    case Reconnect(url) => WithConn(s, Reconnected(w.conn, url))
    case Restore(url, refused) => WithConn(s, OnConnect(w.conn, url, refused))
    case Submit(k, records) =>
      if HttpVerdictAll(Reg(s), records) != Fine then s else s.(pending := s.pending[k := records])
    case OnMessage(k, url, topic, records) =>
      WithConn(s, w.conn.(cache := CacheAfter(Reg(s), w.conn.cache, records)))
        .(pending := s.pending[k := WantedOf(Reg(s), w.conn.cache, url, topic, records)])
    case Write(k, written) =>
      s.(world := w.(store := Overlay(w.store, Groups(s.pending[k]), written)), pending := s.pending - {k})
  }

  ghost predicate Feasible(s: Service, actions: seq<Action>)
    decreases |actions|
  {
    actions == [] || (Enabled(s, actions[0]) && Feasible(Step(s, actions[0]), actions[1..]))
  }

  ghost function Run(s: Service, actions: seq<Action>): Service
    requires Feasible(s, actions)
    decreases |actions|
  {
    if actions == [] then s else Run(Step(s, actions[0]), actions[1..])
  }

  lemma RunTwo(s: Service, a: Action, b: Action)
    requires Enabled(s, a) && Enabled(Step(s, a), b)
    ensures Feasible(s, [a, b]) && Run(s, [a, b]) == Step(Step(s, a), b)
  {
    var s1 := Step(s, a);
    assert [a, b][1..] == [b] && [b][1..] == [];
    assert Feasible(Step(s1, b), []) && Feasible(s1, [b]);
    assert Run(s1, [b]) == Run(Step(s1, b), []);
  }

  /** `LevelDBStorage.Add` alone, as its contract states it, is its two actions. */
  lemma AddIsActions(s: Service, k: nat, ds: DataStream, store: Reply, broker: Reply, now: int)
    requires k !in s.adds && AcceptsCreation(ds) && DbGet(s.level.db, ds.name).None?
    ensures var n := Created(LISTENERS, s.world, ds, [store, broker]);
            var actions := [AddPut(k, ds), AddNotify(k, store, broker, now)];
            && Feasible(s, actions)
            && Run(s, actions) == s.(level := LevelAdd(s.level, ds, n.status, now).0, world := n.world)
  {
    assert s.adds[k := ds] - {k} == s.adds;
    RunTwo(s, AddPut(k, ds), AddNotify(k, store, broker, now));
  }

  /** `LevelDBStorage.Update` alone is its two actions, whatever the listeners would have
      answered to a change: they are shown none. */
  lemma UpdateIsActions(s: Service, k: nat, name: string, ds: DataStream, store: Reply, broker: Reply, now: int)
    requires Sound(s) && k !in s.updates && name in Reg(s) && AcceptsUpdate(ds, Reg(s)[name])
    ensures var next := Modified(Reg(s)[name], ds);
            var n := Updated(LISTENERS, s.world, next, next, [store, broker]);
            var actions := [UpdateNotify(k, name, ds, store, broker), UpdatePut(k, now)];
            && n == Notified(s.world, Ok)
            && Feasible(s, actions)
            && Run(s, actions) == s.(level := LevelUpdate(s.level, name, ds, n.status, now).0)
  {
    var next := Modified(Reg(s)[name], ds);
    GetReads(s.level.db, name);
    ServiceFanOut(s.world, next, next, store, broker);
    assert s.updates[k := next] - {k} == s.updates;
    RunTwo(s, UpdateNotify(k, name, ds, store, broker), UpdatePut(k, now));
  }

  /** `LevelDBStorage.Delete` alone that its listeners let through is its two actions. */
  lemma DeleteIsActions(s: Service, k: nat, name: string, store: Reply, broker: Reply, now: int)
    requires k !in s.deletes && DbGet(s.level.db, name).Some?
    requires Deleted(LISTENERS, s.world, DbGet(s.level.db, name).value, [store, broker]).status == Ok
    ensures var n := Deleted(LISTENERS, s.world, DbGet(s.level.db, name).value, [store, broker]);
            var actions := [DeleteNotify(k, name, store, broker), DeleteRemove(k, now)];
            && Feasible(s, actions)
            && Run(s, actions) == s.(level := LevelDelete(s.level, name, n.status, now).0, world := n.world)
  {
    assert s.deletes[k := name] - {k} == s.deletes;
    RunTwo(s, DeleteNotify(k, name, store, broker), DeleteRemove(k, now));
  }

  /** An Add, Update or Delete that is refused, or whose listeners fail, leaves the entries as
      they were and nothing under way. */
  lemma RefusedIsNoAction(s: Service, k: nat, name: string, ds: DataStream, store: Reply, broker: Reply)
    requires k !in s.adds && k !in s.updates && k !in s.deletes
    ensures !AcceptsCreation(ds) || DbGet(s.level.db, ds.name).Some? ==> Step(s, AddPut(k, ds)) == s
    ensures DbGet(s.level.db, name).None? || !AcceptsUpdate(ds, DbGet(s.level.db, name).value) ==>
              Step(s, UpdateNotify(k, name, ds, store, broker)) == s
    ensures DbGet(s.level.db, name).None? ==> Step(s, DeleteNotify(k, name, store, broker)) == s
    ensures DbGet(s.level.db, name).Some? ==>
              var n := Deleted(LISTENERS, s.world, DbGet(s.level.db, name).value, [store, broker]);
              n.status != Ok ==> Step(s, DeleteNotify(k, name, store, broker)) == s.(world := n.world)
  {
  }

  /** `Http.Submit`, as its contract states it, is its check and, for an acceptable message, the
      write of the packs the store takes; a refused message changes nothing. */
  lemma SubmitIsActions(s: Service, k: nat, records: seq<Record>, st1: Store, written: set<string>)
    requires k !in s.pending
    ensures HttpVerdictAll(Reg(s), records) != Fine ==> Step(s, Action.Submit(k, records)) == s
    ensures HttpVerdictAll(Reg(s), records) == Fine && Reached(s.world.store, st1, Groups(records), written) ==>
              var actions := [Action.Submit(k, records), Action.Write(k, written)];
              Feasible(s, actions) && Run(s, actions) == s.(world := s.world.(store := st1))
  {
    if HttpVerdictAll(Reg(s), records) == Fine && Reached(s.world.store, st1, Groups(records), written) {
      RunTwo(s, Action.Submit(k, records), Action.Write(k, written));
      assert s.pending[k := records] - {k} == s.pending;
    }
  }

  /** `Connector.OnMessage` likewise. */
  lemma MessageIsActions(s: Service, k: nat, url: string, topic: string, records: seq<Record>, st1: Store, written: set<string>)
    requires k !in s.pending
    requires Reached(s.world.store, st1, Groups(WantedOf(Reg(s), s.world.conn.cache, url, topic, records)), written)
    ensures var actions := [Action.OnMessage(k, url, topic, records), Action.Write(k, written)];
            var c := s.world.conn;
            && Feasible(s, actions)
            && Run(s, actions) == s.(world := World(st1, c.(cache := CacheAfter(Reg(s), c.cache, records))))
  {
    var wanted := WantedOf(Reg(s), s.world.conn.cache, url, topic, records);
    RunTwo(s, Action.OnMessage(k, url, topic, records), Action.Write(k, written));
    assert s.pending[k := wanted] - {k} == s.pending;
  }

  /** The database is ordered and keeps every stream under its own name. */
  ghost predicate Sound(s: Service) {
    SoundDb(s.level.db)
  }

  lemma StepSound(s: Service, a: Action)
    requires Sound(s) && Enabled(s, a)
    ensures Sound(Step(s, a))
  {
    var db := s.level.db;
    match a
    case AddPut(_, ds) => PutWrites(db, ds.name, ds);
    case UpdatePut(k, _) => PutWrites(db, s.updates[k].name, s.updates[k]);
    case DeleteRemove(k, _) => DeleteRemoves(db, s.deletes[k]);
    case _ =>
  }

  // ---- The counts ----

  ghost function Hidden(adds: map<nat, DataStream>, deletes: map<nat, string>): set<string> {
    (set k | k in adds :: adds[k].name) + set k | k in deletes :: deletes[k]
  }

  /** The entries that should be counted: neither written by an Add that has not notified, nor
      about to be removed by a Delete that has. */
  ghost function View(s: Service): Registry {
    Reg(s) - Hidden(s.adds, s.deletes)
  }

  ghost predicate Exact(s: Service) {
    Encodes(s.world.conn, View(s), map[])
  }

  ghost predicate SamePair(x: Option<MQTTSource>, y: Option<MQTTSource>) {
    && x.Some? == y.Some?
    && (x.Some? ==> x.value.brokerURL == y.value.brokerURL && x.value.topic == y.value.topic)
  }

  /** What the handlers of an Add count. */
  function CountedFor(w: World, ds: DataStream, store: Reply, broker: Reply): Option<MQTTSource> {
    if store.stored && ds.name !in w.store && ds.source.mqtt.Some? && RegisterSucceeds(w.conn, ds.source.mqtt.value, broker.sub)
    then ds.source.mqtt else None
  }

  /** The entry of the Add, if the Add's notification makes it visible. */
  ghost function Shown(s: Service, k: nat): Option<DataStream>
    requires k in s.adds
  {
    var name := s.adds[k].name;
    if name in Reg(s) && name !in Hidden(s.adds - {k}, s.deletes) then Some(Reg(s)[name]) else None
  }

  function SourceOf(ds: Option<DataStream>): Option<MQTTSource> {
    if ds.Some? then ds.value.source.mqtt else None
  }

  /** When an action keeps the counts exact. */
  ghost predicate Keeps(s: Service, a: Action)
    requires Enabled(s, a)
  {
    var c := s.world.conn;
    match a
    case AddNotify(k, store, broker, _) => SamePair(CountedFor(s.world, s.adds[k], store, broker), SourceOf(Shown(s, k)))
    case UpdatePut(k, _) =>
      var next := s.updates[k];
      if next.name in View(s) then SameSource(View(s)[next.name], next)
      else next.name !in Hidden(s.adds, s.deletes) ==> next.source.mqtt.None?
    case DeleteNotify(_, name, store, broker) =>
      name in Reg(s) && (store.stored || name !in s.world.store) ==>
        if name in View(s) then DeleteKeeps(c, Reg(s)[name], broker.unsub)
        else Reg(s)[name].source.mqtt.Some? ==> !Counted(c, Reg(s)[name].source.mqtt.value)
    case _ => true
  }

  /** A stream comes to be counted for one source and visible with another. */
  lemma OneJoins(c: Conn, c1: Conn, reg: Registry, n: string, joining: Option<DataStream>, counted: Option<MQTTSource>)
    requires Encodes(c, reg, map[]) && n !in reg && c1.failed == c.failed && NoDeadEntry(c1)
    requires if counted.Some? then Shifted(c, c1, counted.value, 1)
             else forall b, t :: Receivers(c1, b, t) == Receivers(c, b, t)
    ensures Encodes(c1, if joining.Some? then reg[n := joining.value] else reg, map[])
       <==> SamePair(counted, SourceOf(joining))
  {
    var reg1 := if joining.Some? then reg[n := joining.value] else reg;
    HoldersChange(reg, c.failed, reg1, c1.failed, n);
    forall b, t
      ensures Receivers(c1, b, t) - Expected(c1, reg1, map[], b, t) == Unit(IsPair(counted, b, t)) - Unit(IsPair(SourceOf(joining), b, t))
    {
      assert Receivers(c, b, t) == Expected(c, reg, map[], b, t);
    }
    SamePairs(counted, SourceOf(joining));
  }

  predicate IsPair(src: Option<MQTTSource>, b: string, t: string) {
    src.Some? && src.value.brokerURL == b && src.value.topic == t
  }

  lemma SamePairs(x: Option<MQTTSource>, y: Option<MQTTSource>)
    ensures SamePair(x, y) <==> forall b, t :: IsPair(x, b, t) == IsPair(y, b, t)
  {
    if x.Some? {
      assert IsPair(x, x.value.brokerURL, x.value.topic);
    }
    if y.Some? {
      assert IsPair(y, y.value.brokerURL, y.value.topic);
    }
  }

  lemma CreatedCounts(w: World, ds: DataStream, store: Reply, broker: Reply)
    requires NoDeadEntry(w.conn)
    ensures var c1 := Created(LISTENERS, w, ds, [store, broker]).world.conn;
            var counted := CountedFor(w, ds, store, broker);
            && c1.failed == w.conn.failed && c1.cache == w.conn.cache && NoDeadEntry(c1)
            && if counted.Some? then Shifted(w.conn, c1, counted.value, 1) else c1 == w.conn
  {
    ServiceFanOut(w, ds, ds, store, broker);
    if ds.source.mqtt.Some? {
      RegisterEffect(w.conn, ds.source.mqtt.value, broker.sub);
    }
  }

  lemma AddNotifyShows(s: Service, k: nat)
    requires k in s.adds
    ensures s.adds[k].name !in View(s)
    ensures Reg(s) - Hidden(s.adds - {k}, s.deletes)
         == if Shown(s, k).Some? then View(s)[s.adds[k].name := Shown(s, k).value] else View(s)
  {
    HiddenWithout(s.adds, s.deletes, k);
  }

  lemma AddNotifyExact(s: Service, k: nat, store: Reply, broker: Reply, now: int)
    requires Exact(s) && k in s.adds
    ensures Exact(Step(s, AddNotify(k, store, broker, now))) <==> Keeps(s, AddNotify(k, store, broker, now))
  {
    var c1 := Created(LISTENERS, s.world, s.adds[k], [store, broker]).world.conn;
    AddNotifyShows(s, k);
    CreatedCounts(s.world, s.adds[k], store, broker);
    OneJoins(s.world.conn, c1, View(s), s.adds[k].name, Shown(s, k), CountedFor(s.world, s.adds[k], store, broker));
  }

  lemma HiddenWithout(adds: map<nat, DataStream>, deletes: map<nat, string>, k: nat)
    requires k in adds
    ensures Hidden(adds, deletes) == Hidden(adds - {k}, deletes) + {adds[k].name}
  {
    assert forall j :: j in adds <==> j == k || j in adds - {k};
  }

  lemma PutHides(reg: Registry, adds: map<nat, DataStream>, deletes: map<nat, string>, k: nat, ds: DataStream)
    requires k !in adds && ds.name !in reg
    ensures reg[ds.name := ds] - Hidden(adds[k := ds], deletes) == reg - Hidden(adds, deletes)
  {
    HiddenWithout(adds[k := ds], deletes, k);
    assert adds[k := ds] - {k} == adds;
  }

  lemma AddPutShows(s: Service, k: nat, ds: DataStream)
    requires Sound(s) && k !in s.adds
    ensures View(Step(s, AddPut(k, ds))) == View(s)
  {
    GetReads(s.level.db, ds.name);
    if AcceptsCreation(ds) && ds.name !in Reg(s) {
      PutWrites(s.level.db, ds.name, ds);
      PutHides(Reg(s), s.adds, s.deletes, k, ds);
    }
  }

  /** A stream without a source comes to be visible, or one with a source that is not counted. */
  lemma UncountedJoins(c: Conn, reg: Registry, ds: DataStream)
    requires Encodes(c, reg, map[]) && ds.name !in reg
    ensures Encodes(c, reg[ds.name := ds], map[]) <==> ds.source.mqtt.None?
  {
    OneJoins(c, c, reg, ds.name, Some(ds), None);
  }

  lemma UpdatePutShows(s: Service, k: nat, now: int)
    requires Sound(s) && k in s.updates
    ensures var next := s.updates[k];
            View(Step(s, UpdatePut(k, now)))
            == if next.name in Hidden(s.adds, s.deletes) then View(s) else View(s)[next.name := next]
  {
    PutWrites(s.level.db, s.updates[k].name, s.updates[k]);
  }

  lemma UpdatePutExact(s: Service, k: nat, now: int)
    requires Sound(s) && Exact(s) && k in s.updates
    ensures Exact(Step(s, UpdatePut(k, now))) <==> Keeps(s, UpdatePut(k, now))
  {
    var next, view := s.updates[k], View(s);
    UpdatePutShows(s, k, now);
    if next.name !in Hidden(s.adds, s.deletes) {
      ShownExact(s.world.conn, view, next);
    }
  }

  /** An entry is written for a name that should be counted, or for one that is not there. */
  lemma ShownExact(c: Conn, view: Registry, next: DataStream)
    requires Encodes(c, view, map[]) && (next.name in view ==> view[next.name].name == next.name)
    ensures Encodes(c, view[next.name := next], map[])
       <==> if next.name in view then SameSource(view[next.name], next) else next.source.mqtt.None?
  {
    if next.name in view {
      Atomic.MovedExact(c, view, next.name, next);
    } else {
      UncountedJoins(c, view, next);
    }
  }

  /** The listeners of an Update are shown one object as the old and as the new stream. */
  lemma UpdateHearsNothing(s: Service, k: nat, name: string, ds: DataStream, store: Reply, broker: Reply)
    requires k !in s.updates
    ensures Step(s, UpdateNotify(k, name, ds, store, broker)).world == s.world
    ensures Step(s, UpdateNotify(k, name, ds, store, broker)).updates
         == var prev := DbGet(s.level.db, name);
            if prev.Some? && AcceptsUpdate(ds, prev.value) then s.updates[k := Modified(prev.value, ds)] else s.updates
  {
    var prev := DbGet(s.level.db, name);
    if prev.Some? {
      ServiceFanOut(s.world, Modified(prev.value, ds), Modified(prev.value, ds), store, broker);
    }
  }

  /** Leaving the source of a stream that is not counted. */
  lemma HiddenDelete(c: Conn, reg: Registry, ds: DataStream, unsub: Unsuback)
    requires Encodes(c, reg, map[]) && ds.name !in reg
    ensures Encodes(DeleteHandler(c, ds, unsub).conn, reg, map[])
       <==> ds.source.mqtt.None? || !Counted(c, ds.source.mqtt.value)
  {
    var c1 := c.(cache := map[]);
    CacheDoesNotCount(c, c1, reg, map[]);
    if ds.source.mqtt.Some? {
      var src, d := ds.source.mqtt.value, DropSource(c1, ds, unsub);
      DropSourceEffect(c1, ds, unsub);
      assert d.conn.failed == c.failed;
      assert Receivers(c1, src.brokerURL, src.topic) == Expected(c1, reg, map[], src.brokerURL, src.topic);
      if Counted(c, src) {
        assert Receivers(d.conn, src.brokerURL, src.topic) != Expected(d.conn, reg, map[], src.brokerURL, src.topic);
      } else {
        forall b, t ensures Receivers(d.conn, b, t) == Expected(d.conn, reg, map[], b, t) {
          assert Receivers(c1, b, t) == Expected(c1, reg, map[], b, t);
        }
      }
    }
  }

  lemma DeleteNotifyShows(s: Service, k: nat, name: string)
    requires k !in s.deletes
    ensures Reg(s) - Hidden(s.adds, s.deletes[k := name]) == View(s) - {name}
  {
    var more := s.deletes[k := name];
    assert forall n :: n in Hidden(s.adds, more) <==> n in Hidden(s.adds, s.deletes) || n == name by {
      assert k in more && more[k] == name;
      assert forall j :: j in s.deletes ==> j in more && more[j] == s.deletes[j];
    }
  }

  /** What the handlers of a Delete do to the counts, against the entries that should be
      counted as their answer leaves them. */
  lemma DeletedExact(w: World, view: Registry, ds: DataStream, store: Reply, broker: Reply)
    requires Encodes(w.conn, view, map[]) && (ds.name in view ==> view[ds.name] == ds)
    ensures var n := Deleted(LISTENERS, w, ds, [store, broker]);
            Encodes(n.world.conn, if n.status == Ok then view - {ds.name} else view, map[])
            <==> (store.stored || ds.name !in w.store ==>
                    if ds.name in view then DeleteKeeps(w.conn, ds, broker.unsub)
                    else ds.source.mqtt.Some? ==> !Counted(w.conn, ds.source.mqtt.value))
  {
    ServiceFanOut(w, ds, ds, store, broker);
    if ds.name in view {
      DeleteHandlerExact(w.conn, view, ds, broker.unsub);
    } else {
      HiddenDelete(w.conn, view, ds, broker.unsub);
      assert view - {ds.name} == view;
    }
  }

  lemma DeleteNotifyExact(s: Service, k: nat, name: string, store: Reply, broker: Reply)
    requires Sound(s) && Exact(s) && k !in s.deletes
    ensures Exact(Step(s, DeleteNotify(k, name, store, broker))) <==> Keeps(s, DeleteNotify(k, name, store, broker))
  {
    GetReads(s.level.db, name);
    if name in Reg(s) {
      DeleteNotifyShows(s, k, name);
      DeletedExact(s.world, View(s), Reg(s)[name], store, broker);
      var n := Deleted(LISTENERS, s.world, Reg(s)[name], [store, broker]);
      assert View(Step(s, DeleteNotify(k, name, store, broker))) == if n.status == Ok then View(s) - {name} else View(s);
    }
  }

  lemma RemoveHides(reg: Registry, adds: map<nat, DataStream>, deletes: map<nat, string>, k: nat)
    requires k in deletes
    ensures (reg - {deletes[k]}) - Hidden(adds, deletes - {k}) == reg - Hidden(adds, deletes)
  {
    var name := deletes[k];
    assert Hidden(adds, deletes) == Hidden(adds, deletes - {k}) + {name} by {
      assert forall j :: j in deletes <==> j == k || j in deletes - {k};
    }
  }

  lemma DeleteRemoveShows(s: Service, k: nat, now: int)
    requires Sound(s) && k in s.deletes
    ensures View(Step(s, DeleteRemove(k, now))) == View(s)
  {
    DeleteRemoves(s.level.db, s.deletes[k]);
    RemoveHides(Reg(s), s.adds, s.deletes, k);
  }

  lemma RetryStepExact(s: Service, order: seq<string>, answers: seq<Suback>)
    requires Exact(s) && Enabled(s, Retry(order, answers))
    ensures Exact(Step(s, Retry(order, answers)))
  {
    RetryPassExact(s.world.conn, View(s), map[], order, answers);
  }

  /** The other actions leave the entries, the managers' subscriptions and the waiting table
      as they are. */
  lemma QuietStepExact(s: Service, a: Action)
    requires Exact(s) && Enabled(s, a)
    requires a.UpdateNotify? || a.Lost? || a.Reconnect? || a.Restore? || a.Submit? || a.OnMessage? || a.Write?
    ensures Exact(Step(s, a))
  {
    var c, c1 := s.world.conn, Step(s, a).world.conn;
    if a.Lost? || a.Reconnect? || a.Restore? {
      SessionsKeepSubs(c, a.url, if a.Restore? then a.refused else {});
    } else if a.UpdateNotify? {
      UpdateHearsNothing(s, a.k, a.name, a.ds, a.store, a.broker);
    }
    assert SameSubs(c, c1);
    assert Step(s, a).level == s.level && Step(s, a).adds == s.adds && Step(s, a).deletes == s.deletes;
    SameCounts(c, c1, View(s), map[]);
  }

  lemma HideStepExact(s: Service, a: Action)
    requires Sound(s) && Exact(s) && Enabled(s, a) && (a.AddPut? || a.DeleteRemove?)
    ensures Exact(Step(s, a))
  {
    match a
    case AddPut(k, ds) => AddPutShows(s, k, ds);
    case DeleteRemove(k, now) => DeleteRemoveShows(s, k, now);
  }

  /** From an exact state, an action leads to an exact state if and only if its guard holds. */
  lemma StepExact(s: Service, a: Action)
    requires Sound(s) && Exact(s) && Enabled(s, a)
    ensures Exact(Step(s, a)) <==> Keeps(s, a)
  {
    match a
    case AddNotify(k, store, broker, now) => AddNotifyExact(s, k, store, broker, now);
    case UpdatePut(k, now) => UpdatePutExact(s, k, now);
    case DeleteNotify(k, name, store, broker) => DeleteNotifyExact(s, k, name, store, broker);
    case Retry(order, answers) => RetryStepExact(s, order, answers);
    case AddPut(_, _) => HideStepExact(s, a);
    case DeleteRemove(_, _) => HideStepExact(s, a);
    case _ => QuietStepExact(s, a);
  }

  ghost predicate KeepsAlways(s: Service, actions: seq<Action>)
    requires Feasible(s, actions)
    decreases |actions|
  {
    actions == [] || (Keeps(s, actions[0]) && KeepsAlways(Step(s, actions[0]), actions[1..]))
  }

  /** Exact after every action, not only after the last. */
  ghost predicate ExactAlways(s: Service, actions: seq<Action>)
    requires Feasible(s, actions)
    decreases |actions|
  {
    Exact(s) && (actions == [] || ExactAlways(Step(s, actions[0]), actions[1..]))
  }

  lemma {:induction false} RunExact(s: Service, actions: seq<Action>)
    requires Sound(s) && Exact(s) && Feasible(s, actions)
    ensures ExactAlways(s, actions) <==> KeepsAlways(s, actions)
    decreases |actions|
  {
    if actions != [] {
      StepExact(s, actions[0]);
      StepSound(s, actions[0]);
      if Keeps(s, actions[0]) {
        RunExact(Step(s, actions[0]), actions[1..]);
      }
    }
  }

  ghost function Started(l: LevelState, store: Store, answers: seq<Suback>): Service
    requires |answers| == |Listing(Contents(l.db))|
  {
    Service(l, World(store, StartAll(EMPTY, Listing(Contents(l.db)), answers).conn), map[], map[], map[], map[])
  }

  /** A process started over a database: whatever the brokers answer while it starts, it is
      exact then and throughout the run that follows if and only if every stream with a
      source is declared an MQTT one and every action meets its guard. */
  lemma LifetimeExact(l: LevelState, store: Store, answers: seq<Suback>, actions: seq<Action>)
    requires SoundDb(l.db) && |answers| == |Listing(Contents(l.db))|
    requires forall n :: n in Contents(l.db) ==> !StartUp.Dangling(Contents(l.db)[n])
    requires Feasible(Started(l, store, answers), actions)
    ensures var s := Started(l, store, answers);
            ExactAlways(s, actions)
            <==> (forall n :: n in Contents(l.db) ==> StartUp.Declared(Contents(l.db)[n])) && KeepsAlways(s, actions)
  {
    var s := Started(l, store, answers);
    assert View(s) == Contents(l.db);
    StartUp.StartExact(Contents(l.db), answers);
    if Exact(s) {
      RunExact(s, actions);
    }
  }
}
