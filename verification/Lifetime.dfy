/** The life of a process over the memory registry, which starts empty: what holds of every
    run, and exactly when the rest does. LevelRuns does the same for LevelDB. */
module Lifetime {
  import opened Validation
  import opened ConnectorSpec
  import opened LightdbSpec
  import opened EventsSpec
  import opened IngestSpec
  import opened RegistrySpec
  import opened Machine
  import opened RefCount
  import opened ExactRuns
  import opened BrokerView
  import opened Sessions
  import opened TypeSafety
  import opened DeadEntries
  import opened Streams
  import StartUp

  /** Nothing is registered yet, and `Start` has found nothing to subscribe; the data store is
      as an earlier process left it. */
  ghost function Fresh(store: Store): Sys {
    Sys(map[], World(store, StartAll(EMPTY, [], []).conn), map[], Idle, map[])
  }

  // ---- Names and their series ----

  /** Registered names and those of Adds under way have a series, no two Adds under way share
      a name or take a registered one, and nothing waits. */
  ghost predicate Seried(s: Sys) {
    && View(s).Keys <= s.world.store.Keys
    && (forall k :: k in s.adds ==> s.adds[k].name in s.world.store && s.adds[k].name !in s.reg)
    && (forall j, k :: j in s.adds && k in s.adds && j != k ==> s.adds[j].name != s.adds[k].name)
    && s.world.conn.failed == map[]
  }

  /** The guards of `ExactRuns.Keeps` but for the one of an Add's write. */
  ghost predicate KeepsOthers(s: Sys, e: Event)
    requires Enabled(s, e)
  {
    e.AddWrite? || Keeps(s, e)
  }

  lemma AddEnterSeried(s: Sys, k: nat, ds: DataStream, store: Reply, broker: Reply)
    requires WellFormed(s) && Seried(s) && Enabled(s, AddEnter(k, ds, store, broker))
    ensures Seried(Step(s, AddEnter(k, ds, store, broker)))
  {
    ServiceFanOut(s.world, ds, ds, store, broker);
    if ds.source.mqtt.Some? {
      RegisterEffect(s.world.conn, ds.source.mqtt.value, broker.sub);
    }
  }

  lemma UpdateEnterSeried(s: Sys, name: string, ds: DataStream, store: Reply, broker: Reply)
    requires WellFormed(s) && Seried(s) && Enabled(s, UpdateEnter(name, ds, store, broker))
    ensures Seried(Step(s, UpdateEnter(name, ds, store, broker)))
  {
    if name in s.reg && AcceptsUpdate(ds, s.reg[name]) {
      var next := Modified(s.reg[name], ds);
      ServiceFanOut(s.world, next, s.reg[name], store, broker);
      UpdateWaits(s.world.conn, s.reg[name], next, broker.unsub, broker.sub);
    }
  }

  /** Only `Start` leaves a registration waiting. */
  lemma UpdateWaits(c: Conn, prev: DataStream, next: DataStream, unsub: Unsuback, sub: Suback)
    requires c.failed == map[]
    ensures UpdateHandler(c, prev, next, unsub, sub).conn.failed == map[]
    ensures DeleteHandler(c, prev, unsub).conn.failed == map[]
  {
    var c1 := FlushForUpdate(c, prev, next);
    if prev.source.mqtt.Some? {
      DropWaits(c1, prev, unsub);
      DropWaits(c.(cache := map[]), prev, unsub);
      CreateWaits(DropSource(c1, prev, unsub).conn, next, sub);
    } else {
      CreateWaits(c1.(failed := c1.failed - {prev.name}), next, sub);
    }
  }

  lemma CreateWaits(c: Conn, ds: DataStream, sub: Suback)
    ensures CreateHandler(c, ds, sub).conn.failed == c.failed
  {
    if ds.source.mqtt.Some? {
      RegisterEffect(c, ds.source.mqtt.value, sub);
    }
  }

  lemma DropWaits(c: Conn, ds: DataStream, unsub: Unsuback)
    requires c.failed == map[] && ds.source.mqtt.Some?
    ensures DropSource(c, ds, unsub).conn.failed == map[]
  {
  }

  /** In an exact state where nothing waits, a delete that meets its guard goes through. */
  lemma DeleteGoesThrough(c: Conn, reg: Registry, name: string, unsub: Unsuback)
    requires Encodes(c, reg, map[]) && c.failed == map[]
    requires name in reg && reg[name].name == name && DeleteKeeps(c, reg[name], unsub)
    ensures DeleteHandler(c, reg[name], unsub).status == Ok
  {
    if reg[name].source.mqtt.Some? {
      var src := reg[name].source.mqtt.value;
      var c1 := c.(cache := map[]);
      assert name in Holders(reg, c.failed, src.brokerURL, src.topic);
      assert Receivers(c, src.brokerURL, src.topic) == Expected(c, reg, map[], src.brokerURL, src.topic);
      UnregisterStatus(c1, src, unsub);
    }
  }

  lemma DeleteEnterSeried(s: Sys, name: string, store: Reply, broker: Reply)
    requires WellFormed(s) && Seried(s) && Exact(s) && Enabled(s, DeleteEnter(name, store, broker))
    requires Keeps(s, DeleteEnter(name, store, broker))
    ensures Seried(Step(s, DeleteEnter(name, store, broker)))
  {
    if name in s.reg {
      ServiceFanOut(s.world, s.reg[name], s.reg[name], store, broker);
      UpdateWaits(s.world.conn, s.reg[name], s.reg[name], broker.unsub, broker.sub);
      if DropSeries(s.world.store, name, store.stored).ok {
        DeleteGoesThrough(s.world.conn, s.reg, name, broker.unsub);
      }
    }
  }

  lemma StepSeried(s: Sys, e: Event)
    requires WellFormed(s) && Seried(s) && Exact(s) && Enabled(s, e) && KeepsOthers(s, e)
    ensures Keeps(s, e) && Seried(Step(s, e))
  {
    match e
    case AddEnter(k, ds, store, broker) => AddEnterSeried(s, k, ds, store, broker);
    case UpdateEnter(name, ds, store, broker) => UpdateEnterSeried(s, name, ds, store, broker);
    case DeleteEnter(name, store, broker) => DeleteEnterSeried(s, name, store, broker);
    case Retry(order, answers) => assert forall i :: 0 <= i < |order| ==> order[i] in order;
    case _ =>
  }

  ghost predicate KeepsOthersAlways(s: Sys, es: seq<Event>)
    requires Feasible(s, es)
    decreases |es|
  {
    es == [] || (KeepsOthers(s, es[0]) && KeepsOthersAlways(Step(s, es[0]), es[1..]))
  }

  /** As long as the other guards hold, the name of an Add is still free when it is written:
      the data store refuses a second series of the name. */
  lemma {:induction false} WritesKeep(s: Sys, es: seq<Event>)
    requires WellFormed(s) && Seried(s) && Exact(s) && Feasible(s, es)
    ensures KeepsAlways(s, es) <==> KeepsOthersAlways(s, es)
    decreases |es|
  {
    if es != [] && KeepsOthers(s, es[0]) {
      StepSeried(s, es[0]);
      StepExact(s, es[0]);
      StepWellFormed(s, es[0]);
      WritesKeep(Step(s, es[0]), es[1..]);
    }
  }

  // ---- Every run ----

  /** Over every run, from any data store: the cache is coherent and no manager is without a
      subscription. The rest holds throughout a run under an exact condition on its steps: the
      records of registered streams conform to their types (no stream registered over others and
      none written for a stream registered no more, which takes a Delete between the check and
      the write of a message); every count is at least 1 (no last Unsubscribe unanswered); the
      counts are exact (each Update and Delete meets its guard); no session holds a dropped topic
      (no Unsubscribe overtaken), and restored ones are complete as well (none refused a new
      topic); and the cache makes no difference (no update leaves it stale). */
  lemma EveryRun(store: Store, es: seq<Event>)
    requires SortedStore(store) && Feasible(Fresh(store), es)
    ensures var s1 := Run(Fresh(store), es); Coherent(s1.world.conn.cache, View(s1)) && Settled(s1.world.conn)
    ensures SafeAlways(Fresh(store), es) <==> NeverSpoilsTypes(Fresh(store), es)
    ensures NeverDeletesPending(Fresh(store), es) ==> NeverSpoilsTypes(Fresh(store), es)
    ensures ExactAlways(Fresh(store), es) <==> KeepsOthersAlways(Fresh(store), es)
    ensures AliveAlways(Fresh(store), es) <==> NeverLeavesDead(Fresh(store), es)
    ensures HostedAlways(Fresh(store), es) <==> NeverOvertaken(Fresh(store), es)
    ensures AgreesAlways(Fresh(store), es) <==> SpoilsNone(Fresh(store), es)
    ensures FreshAlways(Fresh(store), es) <==> NeverStales(Fresh(store), es)
  {
    var s := Fresh(store);
    StartUp.EmptyEncodesNothing();
    RunCoherent(s, es);
    RunSafe(s, es);
    if NeverDeletesPending(s, es) {
      RunTidy(s, es);
    }
    RunSettled(s, es);
    RunExact(s, es);
    WritesKeep(s, es);
    RunAlive(s, es);
    RunHosted(s, es);
    RunAgrees(s, es);
    RunFresh(s, es);
  }

  // ---- Series without a stream ----

  /** A series that no stream is registered for and no Add is under way for. */
  ghost predicate Orphan(s: Sys, n: string) {
    n in s.world.store && n !in s.reg && forall k :: k in s.adds ==> s.adds[k].name != n
  }

  /** No message checked and not written has records of that name. */
  ghost predicate NonePending(s: Sys, n: string) {
    forall k :: k in s.pending ==> n !in Names(s.pending[k])
  }

  lemma CheckOfOthers(s: Sys, e: Event, n: string)
    requires Enabled(s, e) && (e.Submit? || e.OnMessage?)
    requires Coherent(s.world.conn.cache, View(s)) && WellFormed(s) && n !in s.reg && NonePending(s, n)
    ensures NonePending(Step(s, e), n)
  {
    if e.Submit? {
      HttpFineMeansAll(s.reg, e.records);
    } else {
      WantedOfWanted(s.reg, s.world.conn.cache, e.url, e.topic, e.records);
    }
  }

  ghost predicate KeepsOrphan(s: Sys, e: Event, n: string)
    requires Enabled(s, e) && Orphan(s, n)
  {
    && Orphan(Step(s, e), n)
    && (NonePending(s, n) ==> NonePending(Step(s, e), n) && Step(s, e).world.store[n] == s.world.store[n])
  }

  lemma HandlersKeepOrphan(s: Sys, e: Event, n: string)
    requires WellFormed(s) && Enabled(s, e) && Orphan(s, n) && (e.AddEnter? || e.UpdateEnter? || e.DeleteEnter?)
    ensures KeepsOrphan(s, e, n)
  {
    if e.AddEnter? {
      ServiceFanOut(s.world, e.ds, e.ds, e.store, e.broker);
    } else if e.name in s.reg {
      var ds := s.reg[e.name];
      ServiceFanOut(s.world, if e.UpdateEnter? then Modified(ds, e.ds) else ds, ds, e.store, e.broker);
    }
  }

  lemma MessagesKeepOrphan(s: Sys, e: Event, n: string)
    requires WellFormed(s) && Coherent(s.world.conn.cache, View(s)) && Enabled(s, e) && Orphan(s, n)
    requires e.Submit? || e.OnMessage? || e.Write?
    ensures KeepsOrphan(s, e, n)
  {
    if e.Write? {
      OverlayAt(s.world.store, Groups(s.pending[e.k]), e.written, n);
    } else if NonePending(s, n) {
      CheckOfOthers(s, e, n);
    }
  }

  lemma StepKeepsOrphan(s: Sys, e: Event, n: string)
    requires WellFormed(s) && Coherent(s.world.conn.cache, View(s)) && Enabled(s, e) && Orphan(s, n)
    ensures KeepsOrphan(s, e, n)
  {
    if e.AddEnter? || e.UpdateEnter? || e.DeleteEnter? {
      HandlersKeepOrphan(s, e, n);
    } else if e.Submit? || e.OnMessage? || e.Write? {
      MessagesKeepOrphan(s, e, n);
    }
  }

  /** Such a series is never deleted, its name can never be registered, and it is never written
      unless a message for it has been checked already. */
  lemma {:induction false} OrphanIsForGood(s: Sys, es: seq<Event>, n: string)
    requires WellFormed(s) && Coherent(s.world.conn.cache, View(s)) && Feasible(s, es) && Orphan(s, n)
    ensures Orphan(Run(s, es), n)
    ensures NonePending(s, n) ==> Run(s, es).world.store[n] == s.world.store[n]
    decreases |es|
  {
    if es != [] {
      StepKeepsOrphan(s, es[0], n);
      StepCoherent(s, es[0]);
      StepWellFormed(s, es[0]);
      OrphanIsForGood(Step(s, es[0]), es[1..], n);
    }
  }

  /** An Add of a free name that the connector refuses makes one: the data store has heard
      first. */
  lemma RefusedAddIsForGood(s: Sys, k: nat, ds: DataStream, store: Reply, broker: Reply, es: seq<Event>)
    requires WellFormed(s) && Coherent(s.world.conn.cache, View(s)) && Enabled(s, AddEnter(k, ds, store, broker))
    requires AcceptsCreation(ds) && store.stored && ds.name !in s.world.store
    requires ds.name !in s.reg && forall j :: j in s.adds ==> s.adds[j].name != ds.name
    requires ds.source.mqtt.Some? && !RegisterSucceeds(s.world.conn, ds.source.mqtt.value, broker.sub)
    requires Feasible(Step(s, AddEnter(k, ds, store, broker)), es)
    ensures ds.name !in Run(Step(s, AddEnter(k, ds, store, broker)), es).reg
  {
    var e := AddEnter(k, ds, store, broker);
    ServiceFanOut(s.world, ds, ds, store, broker);
    RegisterStatus(s.world.conn, ds.source.mqtt.value, broker.sub);
    StepCoherent(s, e);
    StepWellFormed(s, e);
    OrphanIsForGood(Step(s, e), es, ds.name);
  }

  /** A message written after the Delete of its stream makes one as well. */
  lemma LateWriteIsForGood(s: Sys, k: nat, written: set<string>, n: string, es: seq<Event>)
    requires WellFormed(s) && Coherent(s.world.conn.cache, View(s)) && Enabled(s, Write(k, written))
    requires n in written && n !in s.reg && forall j :: j in s.adds ==> s.adds[j].name != n
    requires Feasible(Step(s, Write(k, written)), es)
    ensures n !in Run(Step(s, Write(k, written)), es).reg
  {
    var e := Write(k, written);
    OverlayAt(s.world.store, Groups(s.pending[k]), written, n);
    StepCoherent(s, e);
    StepWellFormed(s, e);
    OrphanIsForGood(Step(s, e), es, n);
  }

  // ---- When an Add succeeds ----

  /** The handlers of an Add succeed exactly when the store makes the series, which no earlier
      one of the name may have survived, and the broker takes the source, if there is one. */
  lemma CreatedSucceeds(w: World, ds: DataStream, store: Reply, broker: Reply)
    ensures Created(LISTENERS, w, ds, [store, broker]).status == Ok
       <==> && store.stored && ds.name !in w.store
            && (ds.source.mqtt.None? || RegisterSucceeds(w.conn, ds.source.mqtt.value, broker.sub))
  {
    ServiceFanOut(w, ds, ds, store, broker);
    if ds.source.mqtt.Some? {
      RegisterStatus(w.conn, ds.source.mqtt.value, broker.sub);
    }
  }

  /** `MemoryStorage.Add`, as its contract states it, succeeds exactly when the name and type
      are valid, the handlers succeed, and the name is free. */
  lemma AddSucceeds(w: World, m: MemState, ds: DataStream, store: Reply, broker: Reply, now: int)
    requires InStep(m)
    ensures var n := if AcceptsCreation(ds) then Created(LISTENERS, w, ds, [store, broker]) else Notified(w, Ok);
            MemAdd(m, ds, n.status, now).1.Success?
            <==> && AcceptsCreation(ds) && store.stored && ds.name !in w.store && ds.name !in m.data
                 && (ds.source.mqtt.None? || RegisterSucceeds(w.conn, ds.source.mqtt.value, broker.sub))
  {
    CreatedSucceeds(w, ds, store, broker);
  }

  /** `LevelDBStorage.Add` likewise; it looks the name up before the handlers. */
  lemma LevelAddSucceeds(w: World, l: LevelState, ds: DataStream, store: Reply, broker: Reply, now: int)
    ensures var n := if AcceptsCreation(ds) && DbGet(l.db, ds.name).None? then Created(LISTENERS, w, ds, [store, broker])
                     else Notified(w, Ok);
            LevelAdd(l, ds, n.status, now).1.Success?
            <==> && AcceptsCreation(ds) && store.stored && ds.name !in w.store && DbGet(l.db, ds.name).None?
                 && (ds.source.mqtt.None? || RegisterSucceeds(w.conn, ds.source.mqtt.value, broker.sub))
  {
    CreatedSucceeds(w, ds, store, broker);
  }
}
