/** The running service as one state machine: the memory registry, the data store, the
    MQTT connector and its broker sessions. A registry write is two steps, the listeners'
    handlers and then the write itself, so that retry passes, messages and (under the read
    lock `Add` takes) other Adds can come in between. So is a message: its check, and the write
    of what was accepted. */
module Machine {
  import opened Streams
  import opened Validation
  import opened ConnectorSpec
  import opened LightdbSpec
  import opened EventsSpec
  import opened IngestSpec
  import opened RegistrySpec

  /** The Update or Delete that holds the registry's write lock, its handlers done. */
  datatype Writer = Idle | Updating(next: DataStream) | Deleting(name: string)

  /** `adds` holds the Adds whose handlers have run and whose write has not, `pending` the records
      of the messages that have been checked and not written. */
  datatype Sys = Sys(
    reg: Registry, world: World, adds: map<nat, DataStream>, writer: Writer, pending: map<nat, seq<Record>>)

  datatype Event =
    | AddEnter(k: nat, ds: DataStream, store: Reply, broker: Reply)
    | AddWrite(k: nat)
    | UpdateEnter(name: string, ds: DataStream, store: Reply, broker: Reply)
    | DeleteEnter(name: string, store: Reply, broker: Reply)
    | WriterWrite
    | Retry(order: seq<string>, answers: seq<Suback>)
    | Lost(url: string)
    | Reconnect(url: string)
    | Restore(url: string, refused: set<string>)
    | Submit(k: nat, records: seq<Record>)
    | OnMessage(k: nat, url: string, topic: string, records: seq<Record>)
    | Write(k: nat, written: set<string>)

  /** The registry once the pending writer is through. */
  function View(s: Sys): Registry {
    match s.writer
    case Idle => s.reg
    case Updating(next) => s.reg[next.name := next]
    case Deleting(name) => s.reg - {name}
  }

  /** What the registry's lock guarantees: a writer excludes Adds. */
  ghost predicate WellFormed(s: Sys) {
    && Keyed(s.reg)
    && (s.writer != Idle ==> s.adds == map[])
    && (s.writer.Updating? ==>
          && s.writer.next.name in s.reg
          && s.writer.next.dataType == s.reg[s.writer.next.name].dataType)
    && (s.writer.Deleting? ==> s.writer.name in s.reg)
  }

  /** When an event can happen: the locks are free and the broker library calls back in
      the order of a session's life. Registry reads wait for a pending writer. */
  ghost predicate Enabled(s: Sys, e: Event) {
    match e
    case AddEnter(k, _, _, _) => s.writer == Idle && k !in s.adds
    case AddWrite(k) => k in s.adds
    case UpdateEnter(_, _, _, _) => s.writer == Idle && s.adds == map[]
    case DeleteEnter(_, _, _) => s.writer == Idle && s.adds == map[]
    case WriterWrite => s.writer != Idle
    case Retry(order, answers) => RetryOrder(s.world.conn, order) && |order| == |answers|
    case Lost(url) => url in s.world.conn.managers && s.world.conn.managers[url].client.connected
    case Reconnect(url) => url in s.world.conn.managers && !s.world.conn.managers[url].client.connected
    case Restore(url, _) => url in s.world.conn.managers && s.world.conn.managers[url].client.connected
    case Submit(k, records) => k !in s.pending && s.writer == Idle
    case OnMessage(k, _, _, records) => k !in s.pending && (s.writer != Idle ==> Names(records) <= s.world.conn.cache.Keys)
    case Write(k, written) => k in s.pending && written <= Groups(s.pending[k]).Keys
  }

  /** The client library may lose a session that is up, at any moment, and bring back one that is
      down, and only such; the on-connect handler may run while it is up. A message whose streams are all cached
      does not wait for a writer. */
  lemma AtAnyMoment(s: Sys, b: string, refused: set<string>, k: nat, t: string, records: seq<Record>)
    ensures b in s.world.conn.managers && s.world.conn.managers[b].client.connected <==> Enabled(s, Lost(b))
    ensures Enabled(s, Restore(b, refused)) <==> Enabled(s, Lost(b))
    ensures b in s.world.conn.managers && !s.world.conn.managers[b].client.connected <==> Enabled(s, Reconnect(b))
    ensures k !in s.pending && (forall i :: 0 <= i < |records| ==> records[i].name in s.world.conn.cache) ==>
              Enabled(s, OnMessage(k, b, t, records))
  {
  }

  function WithConn(s: Sys, c: Conn): Sys {
    s.(world := s.world.(conn := c))
  }

  ghost function Step(s: Sys, e: Event): Sys
    requires Enabled(s, e)
  {
    match e
    case AddEnter(k, ds, store, broker) =>
      if !AcceptsCreation(ds) then s
      else
        var n := Created(LISTENERS, s.world, ds, [store, broker]);
        if n.status == Ok then s.(world := n.world, adds := s.adds[k := ds]) else s.(world := n.world)
    case AddWrite(k) =>
      var ds := s.adds[k];
      if ds.name in s.reg then s.(adds := s.adds - {k})
      else s.(reg := s.reg[ds.name := ds], adds := s.adds - {k})
    case UpdateEnter(name, ds, store, broker) =>
      if name !in s.reg || !AcceptsUpdate(ds, s.reg[name]) then s
      else
        var next := Modified(s.reg[name], ds);
        var n := Updated(LISTENERS, s.world, s.reg[name], next, [store, broker]);
        if n.status == Ok then s.(world := n.world, writer := Updating(next)) else s.(world := n.world)
    case DeleteEnter(name, store, broker) =>
      if name !in s.reg then s
      else
        var n := Deleted(LISTENERS, s.world, s.reg[name], [store, broker]);
        if n.status == Ok then s.(world := n.world, writer := Deleting(name)) else s.(world := n.world)
    case WriterWrite => s.(reg := View(s), writer := Idle)
    case Retry(order, answers) => WithConn(s, RetryPass(s.world.conn, order, answers))
    case Lost(url) => WithConn(s, ConnectionLost(s.world.conn, url))
    case Reconnect(url) => WithConn(s, Reconnected(s.world.conn, url))
    case Restore(url, refused) => WithConn(s, OnConnect(s.world.conn, url, refused))
    case Submit(k, records) =>
      if HttpVerdictAll(s.reg, records) != Fine then s else s.(pending := s.pending[k := records])
    case OnMessage(k, url, topic, records) =>
      var c := s.world.conn;
      WithConn(s, c.(cache := CacheAfter(s.reg, c.cache, records)))
        .(pending := s.pending[k := WantedOf(s.reg, c.cache, url, topic, records)])
    case Write(k, written) =>
      s.(world := s.world.(store := Overlay(s.world.store, Groups(s.pending[k]), written)), pending := s.pending - {k})
  }

  /** The events happen one after the other. */
  ghost predicate Feasible(s: Sys, es: seq<Event>)
    decreases |es|
  {
    es == [] || (Enabled(s, es[0]) && Feasible(Step(s, es[0]), es[1..]))
  }

  ghost function Run(s: Sys, es: seq<Event>): Sys
    requires Feasible(s, es)
    decreases |es|
  {
    if es == [] then s else Run(Step(s, es[0]), es[1..])
  }

  lemma StepWellFormed(s: Sys, e: Event)
    requires WellFormed(s) && Enabled(s, e)
    ensures WellFormed(Step(s, e))
  {
  }
}
