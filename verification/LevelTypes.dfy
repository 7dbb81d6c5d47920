/** The stored records and the stream cache over the LevelDB registry. */
module LevelTypes {
  import opened Streams
  import opened Validation
  import opened LightdbSpec
  import opened EventsSpec
  import opened IngestSpec
  import opened TypeSafety
  import opened Backends
  import opened LevelRuns

  /** A cached stream is registered with its present name and type. Its retention may be an
      old one: the connector never hears of a new one. */
  ghost predicate TypedCache(cache: Registry, reg: Registry) {
    forall n :: n in cache ==> n in reg && cache[n].name == n && cache[n].dataType == reg[n].dataType
  }

  ghost predicate Typed(s: Service) {
    TypedCache(s.world.conn.cache, Reg(s)) && WellTyped(s.world.store, Reg(s)) && SortedStore(s.world.store)
  }

  /** When an action keeps records and cache in line with the types. An entry must not come to
      stand over records of another type, which an Add may find in a series left over (its entry
      is there before its series) and an Update when it writes an entry that has been removed in
      the meantime, nor beside a cached stream of another type. A Delete must not find its
      stream cached again when it removes the entry, and a message must still fit the types
      when it is written. */
  ghost predicate KeepsTypes(s: Service, a: Action)
    requires Enabled(s, a)
  {
    match a
    case AddPut(_, ds) => AcceptsCreation(ds) && ds.name !in Reg(s) ==> SeriesFits(s.world.store, ds)
    case UpdatePut(k, _) =>
      var next, cache := s.updates[k], s.world.conn.cache;
      SeriesFits(s.world.store, next) && (next.name in cache ==> cache[next.name].dataType == next.dataType)
    case DeleteRemove(k, _) => s.deletes[k] !in s.world.conn.cache
    case Write(k, written) => BatchFits(Reg(s), s.pending[k], written)
    case _ => true
  }

  lemma AddPutTyped(s: Service, k: nat, ds: DataStream)
    requires Sound(s) && Typed(s) && k !in s.adds
    ensures Typed(Step(s, AddPut(k, ds))) <==> KeepsTypes(s, AddPut(k, ds))
  {
    GetReads(s.level.db, ds.name);
    if AcceptsCreation(ds) && ds.name !in Reg(s) {
      PutWrites(s.level.db, ds.name, ds);
      assert Reg(s) - {ds.name} == Reg(s);
      RegisteredTyped(s.world.store, Reg(s), ds);
    }
  }

  lemma AddNotifyTyped(s: Service, k: nat, store: Reply, broker: Reply, now: int)
    requires Typed(s) && k in s.adds
    ensures Typed(Step(s, AddNotify(k, store, broker, now)))
  {
    ServiceFanOut(s.world, s.adds[k], s.adds[k], store, broker);
    CreateKeepsCache(s.world.conn, s.adds[k], broker.sub);
    CreatedWellTyped(s.world.store, Reg(s), s.adds[k].name, store.stored);
  }

  lemma UpdateNotifyTyped(s: Service, k: nat, name: string, ds: DataStream, store: Reply, broker: Reply)
    requires Typed(s) && k !in s.updates
    ensures Typed(Step(s, UpdateNotify(k, name, ds, store, broker)))
  {
    UpdateHearsNothing(s, k, name, ds, store, broker);
  }

  lemma UpdatePutTyped(s: Service, k: nat, now: int)
    requires Sound(s) && Typed(s) && k in s.updates
    ensures Typed(Step(s, UpdatePut(k, now))) <==> KeepsTypes(s, UpdatePut(k, now))
  {
    var next, cache, reg := s.updates[k], s.world.conn.cache, Reg(s);
    PutWrites(s.level.db, next.name, next);
    FewerTyped(s.world.store, reg, next.name);
    RegisteredTyped(s.world.store, reg, next);
    assert next.name in cache ==> cache[next.name].name == next.name;
  }

  lemma DeleteNotifyTyped(s: Service, k: nat, name: string, store: Reply, broker: Reply)
    requires Sound(s) && Typed(s) && k !in s.deletes
    ensures Typed(Step(s, DeleteNotify(k, name, store, broker)))
  {
    GetReads(s.level.db, name);
    if name in Reg(s) {
      var ds := Reg(s)[name];
      ServiceFanOut(s.world, ds, ds, store, broker);
      HandlersOnlyFlush(s.world.conn, ds, ds, broker.unsub, broker.sub);
      DroppedWellTyped(s.world.store, Reg(s), name, store.stored);
    }
  }

  lemma DeleteRemoveTyped(s: Service, k: nat, now: int)
    requires Sound(s) && Typed(s) && k in s.deletes
    ensures Typed(Step(s, DeleteRemove(k, now))) <==> KeepsTypes(s, DeleteRemove(k, now))
  {
    var name, reg := s.deletes[k], Reg(s);
    DeleteRemoves(s.level.db, name);
    FewerTyped(s.world.store, reg, name);
  }

  lemma WriteTyped(s: Service, k: nat, written: set<string>)
    requires Typed(s) && Enabled(s, Action.Write(k, written))
    ensures Typed(Step(s, Action.Write(k, written))) <==> KeepsTypes(s, Action.Write(k, written))
  {
    OverlaySorted(s.world.store, Groups(s.pending[k]), written);
    OverlayWellTyped(s.world.store, Reg(s), s.pending[k], written);
  }

  /** A message that is written before anything else happens fits the types. */
  lemma FreshWriteFits(s: Service, a: Action, written: set<string>)
    requires Typed(s) && Enabled(s, a) && (a.Submit? || a.OnMessage?)
    requires var s1 := Step(s, a); a.k in s1.pending && written <= Groups(s1.pending[a.k]).Keys
    ensures KeepsTypes(Step(s, a), Action.Write(a.k, written))
  {
    var reg := Reg(s);
    if a.Submit? {
      HttpFineMeansAll(reg, a.records);
    } else {
      WantedOfWanted(reg, s.world.conn.cache, a.url, a.topic, a.records);
    }
    FittingBatch(s.world.store, reg, Step(s, a).pending[a.k], written);
  }

  /** From a typed state, an action leads to a typed state if and only if its guard holds. */
  lemma StepTyped(s: Service, a: Action)
    requires Sound(s) && Typed(s) && Enabled(s, a)
    ensures Typed(Step(s, a)) <==> KeepsTypes(s, a)
  {
    match a
    case AddPut(k, ds) => AddPutTyped(s, k, ds);
    case AddNotify(k, store, broker, now) => AddNotifyTyped(s, k, store, broker, now);
    case UpdateNotify(k, name, ds, store, broker) => UpdateNotifyTyped(s, k, name, ds, store, broker);
    case UpdatePut(k, now) => UpdatePutTyped(s, k, now);
    case DeleteNotify(k, name, store, broker) => DeleteNotifyTyped(s, k, name, store, broker);
    case DeleteRemove(k, now) => DeleteRemoveTyped(s, k, now);
    case Retry(order, answers) => RetryPassKeepsCache(s.world.conn, order, answers);
    case Write(k, written) => WriteTyped(s, k, written);
    case _ =>
  }

  ghost predicate KeepsTypesAlways(s: Service, actions: seq<Action>)
    requires Feasible(s, actions)
    decreases |actions|
  {
    actions == [] || (KeepsTypes(s, actions[0]) && KeepsTypesAlways(Step(s, actions[0]), actions[1..]))
  }

  ghost predicate TypedAlways(s: Service, actions: seq<Action>)
    requires Feasible(s, actions)
    decreases |actions|
  {
    Typed(s) && (actions == [] || TypedAlways(Step(s, actions[0]), actions[1..]))
  }

  /** Throughout a run stored records conform to the registered types and cached streams have
      their present type, if and only if every action meets its guard. */
  lemma {:induction false} RunTyped(s: Service, actions: seq<Action>)
    requires Sound(s) && Typed(s) && Feasible(s, actions)
    ensures TypedAlways(s, actions) <==> KeepsTypesAlways(s, actions)
    decreases |actions|
  {
    if actions != [] {
      StepTyped(s, actions[0]);
      StepSound(s, actions[0]);
      if KeepsTypes(s, actions[0]) {
        RunTyped(Step(s, actions[0]), actions[1..]);
      }
    }
  }

  // ---- The sources of cached streams ----

  /** When an action keeps every cached stream at its present source: the connector is never
      shown a new one, so only while the source of a cached stream is not moved. */
  ghost predicate KeepsSources(s: Service, a: Action)
    requires Enabled(s, a)
  {
    var cache := s.world.conn.cache;
    match a
    case AddPut(_, ds) =>
      AcceptsCreation(ds) && ds.name !in Reg(s) && ds.name in cache ==> SameSource(cache[ds.name], ds)
    case UpdatePut(k, _) => s.updates[k].name in cache ==> SameSource(cache[s.updates[k].name], s.updates[k])
    case _ => true
  }

  ghost predicate FreshCache(s: Service) {
    FreshSources(s.world.conn.cache, Reg(s))
  }

  lemma WritesKeepSources(s: Service, a: Action)
    requires Sound(s) && FreshCache(s) && Enabled(s, a) && (a.AddPut? || a.UpdatePut? || a.DeleteRemove?)
    ensures FreshCache(Step(s, a)) <==> KeepsSources(s, a)
  {
    if a.AddPut? {
      GetReads(s.level.db, a.ds.name);
      PutWrites(s.level.db, a.ds.name, a.ds);
    } else if a.UpdatePut? {
      PutWrites(s.level.db, s.updates[a.k].name, s.updates[a.k]);
    } else {
      DeleteRemoves(s.level.db, s.deletes[a.k]);
    }
  }

  lemma HandlersKeepSources(s: Service, a: Action)
    requires Sound(s) && FreshCache(s) && Enabled(s, a) && (a.AddNotify? || a.UpdateNotify? || a.DeleteNotify?)
    ensures FreshCache(Step(s, a))
  {
    if a.AddNotify? {
      ServiceFanOut(s.world, s.adds[a.k], s.adds[a.k], a.store, a.broker);
      CreateKeepsCache(s.world.conn, s.adds[a.k], a.broker.sub);
    } else if a.UpdateNotify? {
      UpdateHearsNothing(s, a.k, a.name, a.ds, a.store, a.broker);
    } else {
      GetReads(s.level.db, a.name);
      if a.name in Reg(s) {
        ServiceFanOut(s.world, Reg(s)[a.name], Reg(s)[a.name], a.store, a.broker);
        HandlersOnlyFlush(s.world.conn, Reg(s)[a.name], Reg(s)[a.name], a.broker.unsub, a.broker.sub);
      }
    }
  }

  lemma StepKeepsSources(s: Service, a: Action)
    requires Sound(s) && FreshCache(s) && Enabled(s, a)
    ensures FreshCache(Step(s, a)) <==> KeepsSources(s, a)
  {
    if a.AddPut? || a.UpdatePut? || a.DeleteRemove? {
      WritesKeepSources(s, a);
    } else if a.AddNotify? || a.UpdateNotify? || a.DeleteNotify? {
      HandlersKeepSources(s, a);
    } else if a.Retry? {
      RetryPassKeepsCache(s.world.conn, a.order, a.answers);
    }
  }

  ghost predicate KeepsSourcesAlways(s: Service, actions: seq<Action>)
    requires Feasible(s, actions)
    decreases |actions|
  {
    actions == [] || (KeepsSources(s, actions[0]) && KeepsSourcesAlways(Step(s, actions[0]), actions[1..]))
  }

  ghost predicate FreshCacheAlways(s: Service, actions: seq<Action>)
    requires Feasible(s, actions)
    decreases |actions|
  {
    FreshCache(s) && (actions == [] || FreshCacheAlways(Step(s, actions[0]), actions[1..]))
  }

  /** Throughout a run cached streams have their present sources, if and only if no action moves
      the source of one. */
  lemma {:induction false} RunKeepsSources(s: Service, actions: seq<Action>)
    requires Sound(s) && FreshCache(s) && Feasible(s, actions)
    ensures FreshCacheAlways(s, actions) <==> KeepsSourcesAlways(s, actions)
    decreases |actions|
  {
    if actions != [] {
      StepKeepsSources(s, actions[0]);
      StepSound(s, actions[0]);
      if KeepsSources(s, actions[0]) {
        RunKeepsSources(Step(s, actions[0]), actions[1..]);
      }
    }
  }
}
