/** The stream cache and the stored records against the registry, over whole runs. */
module TypeSafety {
  import opened Wrappers
  import opened Streams
  import opened Validation
  import opened ConnectorSpec
  import opened LightdbSpec
  import opened EventsSpec
  import opened IngestSpec
  import opened RegistrySpec
  import opened Machine
  import opened RefCount

  // ---- The cache ----

  /** A cached stream is a registered one, with its present name, type and retention. */
  ghost predicate Coherent(cache: Registry, reg: Registry) {
    forall n :: n in cache ==>
      && n in reg
      && cache[n].name == reg[n].name
      && cache[n].dataType == reg[n].dataType
      && cache[n].retention == reg[n].retention
  }

  /** A cached stream has its present source. */
  ghost predicate FreshSources(cache: Registry, reg: Registry) {
    forall n :: n in cache && n in reg ==> SameSource(cache[n], reg[n])
  }

  // ---- The stored records ----

  /** A record in the series `n` has that name and the kind of value the type of the stream
      registered under it asks for. */
  ghost predicate Fits(reg: Registry, n: string, r: Record) {
    n in reg && r.name == n && Conforms(reg[n].dataType, r)
  }

  /** Every record stored under a registered name fits it. Series that no stream is
      registered for may hold anything. */
  ghost predicate WellTyped(st: Store, reg: Registry) {
    forall n, r :: n in st && n in reg && r in st[n] ==> Fits(reg, n, r)
  }

  ghost predicate Safe(s: Sys) {
    && Coherent(s.world.conn.cache, View(s))
    && WellTyped(s.world.store, View(s))
    && SortedStore(s.world.store)
  }

  lemma DropKeepsCache(c: Conn, ds: DataStream, unsub: Unsuback)
    requires ds.source.mqtt.Some?
    ensures DropSource(c, ds, unsub).conn.cache == c.cache
  {
  }

  lemma CreateKeepsCache(c: Conn, ds: DataStream, sub: Suback)
    ensures CreateHandler(c, ds, sub).conn.cache == c.cache
  {
  }

  /** No handler of the connector touches the cache except to flush it. */
  lemma HandlersOnlyFlush(c: Conn, prev: DataStream, next: DataStream, unsub: Unsuback, sub: Suback)
    ensures CreateHandler(c, next, sub).conn.cache == c.cache
    ensures UpdateHandler(c, prev, next, unsub, sub).conn.cache
         == if prev.retention != next.retention then map[] else c.cache
    ensures DeleteHandler(c, prev, unsub).conn.cache == map[]
  {
    var c1 := FlushForUpdate(c, prev, next);
    CreateKeepsCache(c, next, sub);
    if prev.source.mqtt.Some? {
      DropKeepsCache(c1, prev, unsub);
      DropKeepsCache(c.(cache := map[]), prev, unsub);
      CreateKeepsCache(DropSource(c1, prev, unsub).conn, next, sub);
    } else {
      CreateKeepsCache(c1.(failed := c1.failed - {prev.name}), next, sub);
    }
  }

  lemma {:induction false} RetryPassKeepsCache(c: Conn, order: seq<string>, answers: seq<Suback>)
    requires |order| == |answers|
    ensures RetryPass(c, order, answers).cache == c.cache
    decreases |order|
  {
    if order != [] {
      RetryPassKeepsCache(if order[0] in c.failed then RetryOne(c, order[0], answers[0]) else c, order[1..], answers[1..]);
    }
  }

  /** What is stored under the name of a stream fits the stream. */
  ghost predicate SeriesFits(st: Store, ds: DataStream) {
    forall r :: r in SeriesOf(st, ds.name) ==> r.name == ds.name && Conforms(ds.dataType, r)
  }

  /** A stream comes to be registered: the records found under its name must fit. */
  lemma RegisteredTyped(st: Store, reg: Registry, ds: DataStream)
    requires WellTyped(st, reg - {ds.name})
    ensures WellTyped(st, reg[ds.name := ds]) <==> SeriesFits(st, ds)
  {
    var reg1 := reg[ds.name := ds];
    if SeriesFits(st, ds) {
      forall n, r | n in st && n in reg1 && r in st[n] ensures Fits(reg1, n, r) {
        if n == ds.name {
          assert r in SeriesOf(st, ds.name);
        } else {
          assert Fits(reg - {ds.name}, n, r);
        }
      }
    } else {
      var r :| r in SeriesOf(st, ds.name) && !(r.name == ds.name && Conforms(ds.dataType, r));
      assert r in st[ds.name] && !Fits(reg1, ds.name, r);
    }
  }

  lemma FewerTyped(st: Store, reg: Registry, name: string)
    requires WellTyped(st, reg)
    ensures WellTyped(st, reg - {name})
  {
    forall n, r | n in st && n in reg - {name} && r in st[n] ensures Fits(reg - {name}, n, r) {
      assert Fits(reg, n, r);
    }
  }

  /** Of the packs written, the records that stay (no later one of the pack has their timestamp)
      conform to the types registered now. */
  ghost predicate BatchFits(reg: Registry, records: seq<Record>, written: set<string>) {
    forall n, r :: n in written && n in reg && Last(OfName(records, n), r) ==> Conforms(reg[n].dataType, r)
  }

  /** One series: what of the pack stays must conform. */
  lemma PackFits(s: seq<Record>, pack: seq<Record>, n: string, t: string)
    requires Sorted(s) && forall r :: r in pack ==> r.name == n
    requires forall r :: r in s ==> r.name == n && Conforms(t, r)
    ensures (forall r :: r in InsertAll(s, pack) ==> r.name == n && Conforms(t, r)) <==> forall r :: Last(pack, r) ==> Conforms(t, r)
  {
    forall r ensures r in InsertAll(s, pack) <==> Last(pack, r) || (r in s && forall x :: x in pack ==> x.time != r.time) {
      InsertAllMembers(s, pack, r);
    }
    forall r | Last(pack, r) ensures r in pack {
      LastIsIn(pack, r);
    }
  }

  /** Writing a message keeps a well-typed store so if and only if it fits. */
  lemma OverlayWellTyped(st: Store, reg: Registry, records: seq<Record>, written: set<string>)
    requires WellTyped(st, reg) && SortedStore(st) && written <= Groups(records).Keys
    ensures WellTyped(Overlay(st, Groups(records), written), reg) <==> BatchFits(reg, records, written)
  {
    var st1 := Overlay(st, Groups(records), written);
    GroupsAreProper(records);
    forall n | n in written && n in reg
      ensures (forall r :: r in st1[n] ==> Fits(reg, n, r)) <==> forall r :: Last(OfName(records, n), r) ==> Conforms(reg[n].dataType, r)
    {
      OverlayAt(st, Groups(records), written, n);
      assert forall r :: r in Groups(records)[n] ==> r.name == n;
      assert forall r :: r in SeriesOf(st, n) ==> Fits(reg, n, r);
      PackFits(SeriesOf(st, n), OfName(records, n), n, reg[n].dataType);
    }
    forall n, r | n in st1 && n in reg && n !in written && r in st1[n] ensures Fits(reg, n, r) {
      OverlayAt(st, Groups(records), written, n);
    }
  }

  lemma {:induction false} LastIsIn(rs: seq<Record>, x: Record)
    requires Last(rs, x)
    ensures x in rs
    decreases |rs|
  {
    if Last(rs[1..], x) {
      LastIsIn(rs[1..], x);
    }
  }

  lemma CreatedWellTyped(st: Store, reg: Registry, name: string, ok: bool)
    requires WellTyped(st, reg) && SortedStore(st)
    ensures WellTyped(CreateSeries(st, name, ok).store, reg) && SortedStore(CreateSeries(st, name, ok).store)
    ensures CreateSeries(st, name, ok).ok ==> SeriesOf(CreateSeries(st, name, ok).store, name) == []
    ensures forall n :: SeriesOf(CreateSeries(st, name, ok).store, n) == SeriesOf(st, n)
  {
    var st1 := CreateSeries(st, name, ok).store;
    forall n, r | n in st1 && n in reg && r in st1[n] ensures Fits(reg, n, r) {
      assert n in st && r in st[n];
    }
  }

  lemma DroppedWellTyped(st: Store, reg: Registry, name: string, ok: bool)
    requires WellTyped(st, reg) && SortedStore(st)
    ensures var d := DropSeries(st, name, ok);
            WellTyped(d.store, reg) && WellTyped(d.store, reg - {name}) && SortedStore(d.store)
  {
    var st1 := DropSeries(st, name, ok).store;
    forall n, r | n in st1 && n in reg && r in st1[n]
      ensures Fits(reg, n, r) && (n != name ==> Fits(reg - {name}, n, r))
    {
      assert n in st && r in st[n];
    }
  }

  // ---- The cache, every step ----

  ghost predicate CoherentAfter(s: Sys, e: Event)
    requires Enabled(s, e)
  {
    Coherent(Step(s, e).world.conn.cache, View(Step(s, e)))
  }

  lemma UpdateEnterCoherent(s: Sys, name: string, ds: DataStream, store: Reply, broker: Reply)
    requires WellFormed(s) && Enabled(s, UpdateEnter(name, ds, store, broker)) && Coherent(s.world.conn.cache, View(s))
    ensures CoherentAfter(s, UpdateEnter(name, ds, store, broker))
  {
    if name in s.reg && AcceptsUpdate(ds, s.reg[name]) {
      var next := Modified(s.reg[name], ds);
      ServiceFanOut(s.world, next, s.reg[name], store, broker);
      HandlersOnlyFlush(s.world.conn, s.reg[name], next, broker.unsub, broker.sub);
    }
  }

  lemma DeleteEnterCoherent(s: Sys, name: string, store: Reply, broker: Reply)
    requires WellFormed(s) && Enabled(s, DeleteEnter(name, store, broker)) && Coherent(s.world.conn.cache, View(s))
    ensures CoherentAfter(s, DeleteEnter(name, store, broker))
  {
    if name in s.reg {
      ServiceFanOut(s.world, s.reg[name], s.reg[name], store, broker);
      HandlersOnlyFlush(s.world.conn, s.reg[name], s.reg[name], broker.unsub, broker.sub);
    }
  }

  lemma AddEnterCoherent(s: Sys, k: nat, ds: DataStream, store: Reply, broker: Reply)
    requires Enabled(s, AddEnter(k, ds, store, broker)) && Coherent(s.world.conn.cache, View(s))
    ensures CoherentAfter(s, AddEnter(k, ds, store, broker))
  {
    ServiceFanOut(s.world, ds, ds, store, broker);
    CreateKeepsCache(s.world.conn, ds, broker.sub);
  }

  lemma QuietStepCoherent(s: Sys, e: Event)
    requires WellFormed(s) && Enabled(s, e) && Coherent(s.world.conn.cache, View(s))
    requires !e.AddEnter? && !e.UpdateEnter? && !e.DeleteEnter?
    ensures CoherentAfter(s, e)
  {
    if e.Retry? {
      RetryPassKeepsCache(s.world.conn, e.order, e.answers);
    }
  }

  lemma StepCoherent(s: Sys, e: Event)
    requires WellFormed(s) && Enabled(s, e) && Coherent(s.world.conn.cache, View(s))
    ensures CoherentAfter(s, e)
  {
    if e.AddEnter? {
      AddEnterCoherent(s, e.k, e.ds, e.store, e.broker);
    } else if e.UpdateEnter? {
      UpdateEnterCoherent(s, e.name, e.ds, e.store, e.broker);
    } else if e.DeleteEnter? {
      DeleteEnterCoherent(s, e.name, e.store, e.broker);
    } else {
      QuietStepCoherent(s, e);
    }
  }

  /** Over every run, whatever fails: a cached stream is registered with its present name, type
      and retention. */
  lemma {:induction false} RunCoherent(s: Sys, es: seq<Event>)
    requires WellFormed(s) && Coherent(s.world.conn.cache, View(s)) && Feasible(s, es)
    ensures Coherent(Run(s, es).world.conn.cache, View(Run(s, es)))
    decreases |es|
  {
    if es != [] {
      StepWellFormed(s, es[0]);
      StepCoherent(s, es[0]);
      RunCoherent(Step(s, es[0]), es[1..]);
    }
  }

  // ---- The records, every step ----

  /** The steps that break the types: a stream is registered over records of another type, or
      a message is written that was checked against a stream registered no more. */
  ghost predicate SpoilsTypes(s: Sys, e: Event)
    requires Enabled(s, e)
  {
    match e
    case AddWrite(k) => s.adds[k].name !in s.reg && !SeriesFits(s.world.store, s.adds[k])
    case Write(k, written) => !BatchFits(View(s), s.pending[k], written)
    case _ => false
  }

  ghost predicate TypedAfter(s: Sys, e: Event)
    requires Enabled(s, e)
  {
    WellTyped(Step(s, e).world.store, View(Step(s, e)))
  }

  lemma AddEnterTyped(s: Sys, k: nat, ds: DataStream, store: Reply, broker: Reply)
    requires Enabled(s, AddEnter(k, ds, store, broker)) && Safe(s)
    ensures TypedAfter(s, AddEnter(k, ds, store, broker))
    ensures SortedStore(Step(s, AddEnter(k, ds, store, broker)).world.store)
  {
    ServiceFanOut(s.world, ds, ds, store, broker);
    CreatedWellTyped(s.world.store, s.reg, ds.name, store.stored);
  }

  lemma AddWriteTyped(s: Sys, k: nat)
    requires WellFormed(s) && Enabled(s, AddWrite(k)) && Safe(s)
    ensures TypedAfter(s, AddWrite(k)) <==> !SpoilsTypes(s, AddWrite(k))
  {
    var ds := s.adds[k];
    if ds.name !in s.reg {
      assert s.reg - {ds.name} == s.reg;
      RegisteredTyped(s.world.store, s.reg, ds);
    }
  }

  lemma UpdateEnterTyped(s: Sys, name: string, ds: DataStream, store: Reply, broker: Reply)
    requires WellFormed(s) && Enabled(s, UpdateEnter(name, ds, store, broker)) && Safe(s)
    ensures TypedAfter(s, UpdateEnter(name, ds, store, broker))
    ensures Step(s, UpdateEnter(name, ds, store, broker)).world.store == s.world.store
  {
    if name in s.reg && AcceptsUpdate(ds, s.reg[name]) {
      var next := Modified(s.reg[name], ds);
      ServiceFanOut(s.world, next, s.reg[name], store, broker);
      forall n, r | n in s.world.store && n in s.reg && r in s.world.store[n] ensures Fits(s.reg[name := next], n, r) {
        assert Fits(s.reg, n, r);
      }
    }
  }

  lemma DeleteEnterTyped(s: Sys, name: string, store: Reply, broker: Reply)
    requires WellFormed(s) && Enabled(s, DeleteEnter(name, store, broker)) && Safe(s)
    ensures TypedAfter(s, DeleteEnter(name, store, broker))
    ensures SortedStore(Step(s, DeleteEnter(name, store, broker)).world.store)
  {
    if name in s.reg {
      ServiceFanOut(s.world, s.reg[name], s.reg[name], store, broker);
      DroppedWellTyped(s.world.store, s.reg, name, store.stored);
    }
  }

  /** One step keeps the records typed exactly when it is not of those two kinds, whatever the
      listeners, the brokers and the store answer. */
  lemma StepSafe(s: Sys, e: Event)
    requires WellFormed(s) && Enabled(s, e) && Safe(s)
    ensures Safe(Step(s, e)) <==> !SpoilsTypes(s, e)
  {
    StepCoherent(s, e);
    match e
    case AddEnter(k, ds, store, broker) => AddEnterTyped(s, k, ds, store, broker);
    case AddWrite(k) => AddWriteTyped(s, k);
    case UpdateEnter(name, ds, store, broker) => UpdateEnterTyped(s, name, ds, store, broker);
    case DeleteEnter(name, store, broker) => DeleteEnterTyped(s, name, store, broker);
    case Write(k, written) =>
      OverlaySorted(s.world.store, Groups(s.pending[k]), written);
      OverlayWellTyped(s.world.store, View(s), s.pending[k], written);
    case _ =>
  }

  ghost predicate NeverSpoilsTypes(s: Sys, es: seq<Event>)
    requires Feasible(s, es)
    decreases |es|
  {
    es == [] || (!SpoilsTypes(s, es[0]) && NeverSpoilsTypes(Step(s, es[0]), es[1..]))
  }

  ghost predicate SafeAlways(s: Sys, es: seq<Event>)
    requires Feasible(s, es)
    decreases |es|
  {
    Safe(s) && (es == [] || SafeAlways(Step(s, es[0]), es[1..]))
  }

  /** Throughout a run, from any store, the records of registered streams conform to their types,
      if and only if no step is of those kinds. */
  lemma {:induction false} RunSafe(s: Sys, es: seq<Event>)
    requires WellFormed(s) && Safe(s) && Feasible(s, es)
    ensures SafeAlways(s, es) <==> NeverSpoilsTypes(s, es)
    decreases |es|
  {
    if es != [] {
      StepWellFormed(s, es[0]);
      StepSafe(s, es[0]);
      if !SpoilsTypes(s, es[0]) {
        RunSafe(Step(s, es[0]), es[1..]);
      }
    }
  }

  // ---- When no Delete comes between ----

  /** A stream is deleted while a message for it is checked and not written. */
  ghost predicate DeletesPending(s: Sys, e: Event) {
    e.DeleteEnter? && exists k :: k in s.pending && e.name in Names(s.pending[k])
  }

  /** What has been checked conforms to the types registered now. */
  ghost predicate PendingFits(pending: map<nat, seq<Record>>, reg: Registry) {
    forall k, r :: k in pending && r in pending[k] ==> r.name in reg && Conforms(reg[r.name].dataType, r)
  }

  /** The series made for an Add under way of a free name is empty. */
  ghost predicate AddsEmpty(st: Store, adds: map<nat, DataStream>, reg: Registry) {
    forall k :: k in adds && adds[k].name !in reg ==> SeriesOf(st, adds[k].name) == []
  }

  ghost predicate Tidy(s: Sys) {
    && Safe(s)
    && PendingFits(s.pending, View(s))
    && AddsEmpty(s.world.store, s.adds, s.reg)
  }

  lemma AddEnterTidy(s: Sys, k: nat, ds: DataStream, store: Reply, broker: Reply)
    requires WellFormed(s) && Enabled(s, AddEnter(k, ds, store, broker)) && Tidy(s)
    ensures Tidy(Step(s, AddEnter(k, ds, store, broker)))
  {
    StepSafe(s, AddEnter(k, ds, store, broker));
    ServiceFanOut(s.world, ds, ds, store, broker);
    CreatedWellTyped(s.world.store, s.reg, ds.name, store.stored);
  }

  lemma UpdateEnterTidy(s: Sys, name: string, ds: DataStream, store: Reply, broker: Reply)
    requires WellFormed(s) && Enabled(s, UpdateEnter(name, ds, store, broker)) && Tidy(s)
    ensures Tidy(Step(s, UpdateEnter(name, ds, store, broker)))
  {
    StepSafe(s, UpdateEnter(name, ds, store, broker));
    if name in s.reg {
      ServiceFanOut(s.world, Modified(s.reg[name], ds), s.reg[name], store, broker);
    }
  }

  lemma DeleteEnterTidy(s: Sys, name: string, store: Reply, broker: Reply)
    requires WellFormed(s) && Enabled(s, DeleteEnter(name, store, broker)) && Tidy(s)
    requires !DeletesPending(s, DeleteEnter(name, store, broker))
    ensures Tidy(Step(s, DeleteEnter(name, store, broker)))
  {
    StepSafe(s, DeleteEnter(name, store, broker));
    if name in s.reg {
      ServiceFanOut(s.world, s.reg[name], s.reg[name], store, broker);
      forall k, r | k in s.pending && r in s.pending[k] ensures r.name != name {
        assert r.name in Names(s.pending[k]);
      }
    }
  }

  lemma CheckTidy(s: Sys, e: Event)
    requires WellFormed(s) && Enabled(s, e) && Tidy(s) && (e.Submit? || e.OnMessage?)
    ensures Tidy(Step(s, e))
  {
    StepSafe(s, e);
    if e.Submit? {
      HttpFineMeansAll(s.reg, e.records);
    } else {
      var cache := s.world.conn.cache;
      var wanted := WantedOf(s.reg, cache, e.url, e.topic, e.records);
      WantedOfWanted(s.reg, cache, e.url, e.topic, e.records);
      forall r | r in wanted ensures r.name in View(s) && Conforms(View(s)[r.name].dataType, r) {
        assert r.name in Names(e.records);
      }
    }
  }

  /** A message that fits is written: no other series changes. */
  lemma FittingBatch(st: Store, reg: Registry, records: seq<Record>, written: set<string>)
    requires written <= Groups(records).Keys
    requires forall r :: r in records ==> r.name in reg && Conforms(reg[r.name].dataType, r)
    ensures BatchFits(reg, records, written)
    ensures forall n :: n !in reg ==>
              && (n in Overlay(st, Groups(records), written) <==> n in st)
              && SeriesOf(Overlay(st, Groups(records), written), n) == SeriesOf(st, n)
  {
    GroupsAreProper(records);
    forall n, r | n in written && n in reg && Last(OfName(records, n), r) ensures Conforms(reg[n].dataType, r) {
      LastIsIn(OfName(records, n), r);
      assert r in Groups(records)[n];
    }
    forall n | n !in reg
      ensures n in Overlay(st, Groups(records), written) <==> n in st
      ensures SeriesOf(Overlay(st, Groups(records), written), n) == SeriesOf(st, n)
    {
      OverlayAt(st, Groups(records), written, n);
    }
  }

  lemma WriteTidy(s: Sys, k: nat, written: set<string>)
    requires WellFormed(s) && Enabled(s, Write(k, written)) && Tidy(s)
    ensures !SpoilsTypes(s, Write(k, written)) && Tidy(Step(s, Write(k, written)))
  {
    FittingBatch(s.world.store, View(s), s.pending[k], written);
    StepSafe(s, Write(k, written));
  }

  lemma StepTidy(s: Sys, e: Event)
    requires WellFormed(s) && Enabled(s, e) && Tidy(s) && !DeletesPending(s, e)
    ensures !SpoilsTypes(s, e) && Tidy(Step(s, e))
  {
    if e.AddEnter? {
      AddEnterTidy(s, e.k, e.ds, e.store, e.broker);
    } else if e.UpdateEnter? {
      UpdateEnterTidy(s, e.name, e.ds, e.store, e.broker);
    } else if e.DeleteEnter? {
      DeleteEnterTidy(s, e.name, e.store, e.broker);
    } else if e.Submit? || e.OnMessage? {
      CheckTidy(s, e);
    } else if e.Write? {
      WriteTidy(s, e.k, e.written);
    } else {
      StepSafe(s, e);
    }
  }

  ghost predicate NeverDeletesPending(s: Sys, es: seq<Event>)
    requires Feasible(s, es)
    decreases |es|
  {
    es == [] || (!DeletesPending(s, es[0]) && NeverDeletesPending(Step(s, es[0]), es[1..]))
  }

  /** As long as no stream is deleted between the check and the write of a message for it, no
      step breaks the types. */
  lemma {:induction false} RunTidy(s: Sys, es: seq<Event>)
    requires WellFormed(s) && Tidy(s) && Feasible(s, es) && NeverDeletesPending(s, es)
    ensures NeverSpoilsTypes(s, es) && Tidy(Run(s, es))
    decreases |es|
  {
    if es != [] {
      StepTidy(s, es[0]);
      StepWellFormed(s, es[0]);
      RunTidy(Step(s, es[0]), es[1..]);
    }
  }

  // ---- Types are fixed from Add to Delete ----

  ghost predicate RegisteredThroughout(s: Sys, es: seq<Event>, n: string)
    requires Feasible(s, es)
    decreases |es|
  {
    n in s.reg && (es == [] || RegisteredThroughout(Step(s, es[0]), es[1..], n))
  }

  lemma {:induction false} TypeIsFixed(s: Sys, es: seq<Event>, n: string)
    requires WellFormed(s) && Feasible(s, es) && RegisteredThroughout(s, es, n)
    ensures n in Run(s, es).reg
    ensures Run(s, es).reg[n].dataType == s.reg[n].dataType
    ensures Run(s, es).reg[n].name == n
    decreases |es|
  {
    if es != [] {
      StepWellFormed(s, es[0]);
      TypeIsFixed(Step(s, es[0]), es[1..], n);
    }
  }

  // ---- When the cache makes no difference ----

  /** The update that changes a cached stream's source but not its retention, and goes
      through: the connector flushes the cache only for the retention. */
  ghost predicate StalesCache(s: Sys, e: Event) {
    && e.UpdateEnter?
    && e.name in s.reg && AcceptsUpdate(e.ds, s.reg[e.name])
    && e.name in s.world.conn.cache
    && e.ds.retention == s.reg[e.name].retention
    && !SameSource(s.reg[e.name], e.ds)
    && UpdateSucceeds(s.world.conn, s.reg[e.name].source.mqtt, e.ds.source.mqtt, e.broker.unsub, e.broker.sub)
  }

  ghost predicate Fresh(s: Sys) {
    FreshSources(s.world.conn.cache, View(s))
  }

  lemma UpdateEnterFresh(s: Sys, name: string, ds: DataStream, store: Reply, broker: Reply)
    requires WellFormed(s) && Coherent(s.world.conn.cache, View(s)) && Fresh(s) && Enabled(s, UpdateEnter(name, ds, store, broker))
    ensures Fresh(Step(s, UpdateEnter(name, ds, store, broker))) <==> !StalesCache(s, UpdateEnter(name, ds, store, broker))
  {
    if name in s.reg && AcceptsUpdate(ds, s.reg[name]) {
      var prev := s.reg[name];
      var next := Modified(prev, ds);
      ServiceFanOut(s.world, next, prev, store, broker);
      HandlersOnlyFlush(s.world.conn, prev, next, broker.unsub, broker.sub);
      UpdateStatus(s.world.conn, prev, next, broker.unsub, broker.sub);
      if StalesCache(s, UpdateEnter(name, ds, store, broker)) {
        assert SameSource(s.world.conn.cache[name], prev);
        assert View(Step(s, UpdateEnter(name, ds, store, broker)))[name] == next;
      }
    }
  }

  lemma AddOrDeleteFresh(s: Sys, e: Event)
    requires WellFormed(s) && Coherent(s.world.conn.cache, View(s)) && Fresh(s) && Enabled(s, e) && (e.AddEnter? || e.DeleteEnter?)
    ensures Fresh(Step(s, e))
  {
    match e
    case AddEnter(k, ds, store, broker) =>
      ServiceFanOut(s.world, ds, ds, store, broker);
      CreateKeepsCache(s.world.conn, ds, broker.sub);
    case DeleteEnter(name, store, broker) =>
      if name in s.reg {
        ServiceFanOut(s.world, s.reg[name], s.reg[name], store, broker);
        HandlersOnlyFlush(s.world.conn, s.reg[name], s.reg[name], broker.unsub, broker.sub);
      }
  }

  lemma StepFresh(s: Sys, e: Event)
    requires WellFormed(s) && Coherent(s.world.conn.cache, View(s)) && Fresh(s) && Enabled(s, e)
    ensures Fresh(Step(s, e)) <==> !StalesCache(s, e)
  {
    match e
    case AddEnter(_, _, _, _) => AddOrDeleteFresh(s, e);
    case UpdateEnter(name, ds, store, broker) => UpdateEnterFresh(s, name, ds, store, broker);
    case DeleteEnter(_, _, _) => AddOrDeleteFresh(s, e);
    case Retry(order, answers) => RetryPassKeepsCache(s.world.conn, order, answers);
    case _ =>
  }

  /** Every message is accepted record for record as it would be with no cache. */
  ghost predicate Transparent(cache: Registry, reg: Registry) {
    forall url, topic, records :: WantedOf(reg, cache, url, topic, records) == WantedOf(reg, map[], url, topic, records)
  }

  /** With a coherent cache, every message is accepted record for record as it would be
      without a cache if and only if no cached source is stale. */
  lemma CacheIsTransparent(cache: Registry, reg: Registry)
    requires Coherent(cache, reg)
    ensures FreshSources(cache, reg)
       <==> Transparent(cache, reg)
  {
    if FreshSources(cache, reg) {
      forall url, topic, records
        ensures WantedOf(reg, cache, url, topic, records) == WantedOf(reg, map[], url, topic, records)
      {
        FreshCacheIsTransparent(cache, reg, url, topic, records);
      }
    } else {
      var n :| n in cache && n in reg && !SameSource(cache[n], reg[n]);
      StaleCacheShows(cache, reg, n);
    }
  }

  lemma {:induction false} FreshCacheIsTransparent(cache: Registry, reg: Registry, url: string, topic: string, records: seq<Record>)
    requires Coherent(cache, reg) && FreshSources(cache, reg)
    ensures WantedOf(reg, cache, url, topic, records) == WantedOf(reg, map[], url, topic, records)
    decreases |records|
  {
    if records != [] {
      var n := records[0].name;
      assert n in cache ==> SameSource(cache[n], reg[n]);
      FreshCacheIsTransparent(cache, reg, url, topic, records[1..]);
    }
  }

  /** A stale source shows on a one-record message from whichever of the two is set. */
  lemma StaleCacheShows(cache: Registry, reg: Registry, n: string)
    requires n in cache && n in reg && !SameSource(cache[n], reg[n])
    ensures !Transparent(cache, reg)
  {
    var ds := if cache[n].source.mqtt.Some? then cache[n] else reg[n];
    var src := ds.source.mqtt.value;
    var r := Record(n, 0, Some(0.0), "x", Some(true), "");
    var b, t := src.brokerURL, src.topic;
    assert Wanted(reg, cache, b, t, r) != Wanted(reg, map[], b, t, r);
    assert WantedOf(reg, cache, b, t, [r]) == (if Wanted(reg, cache, b, t, r) then [r] else []);
    assert WantedOf(reg, map[], b, t, [r]) == (if Wanted(reg, map[], b, t, r) then [r] else []);
  }

  ghost predicate NeverStales(s: Sys, es: seq<Event>)
    requires Feasible(s, es)
    decreases |es|
  {
    es == [] || (!StalesCache(s, es[0]) && NeverStales(Step(s, es[0]), es[1..]))
  }

  /** No cached source is stale after any step of the run. */
  ghost predicate FreshAlways(s: Sys, es: seq<Event>)
    requires Feasible(s, es)
    decreases |es|
  {
    Fresh(s) && (es == [] || FreshAlways(Step(s, es[0]), es[1..]))
  }

  /** Throughout a run the connector treats every message as if it had no cache, if and only if
      the run has no such update. */
  lemma {:induction false} RunFresh(s: Sys, es: seq<Event>)
    requires WellFormed(s) && Coherent(s.world.conn.cache, View(s)) && Fresh(s) && Feasible(s, es)
    ensures FreshAlways(s, es) <==> NeverStales(s, es)
    ensures NeverStales(s, es) ==> Transparent(Run(s, es).world.conn.cache, View(Run(s, es)))
    decreases |es|
  {
    if es == [] {
      CacheIsTransparent(s.world.conn.cache, View(s));
    } else {
      StepWellFormed(s, es[0]);
      StepCoherent(s, es[0]);
      StepFresh(s, es[0]);
      if !StalesCache(s, es[0]) {
        RunFresh(Step(s, es[0]), es[1..]);
      }
    }
  }
}
