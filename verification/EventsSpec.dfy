/** registry/events.go on values: the sequential fan-out to the registry's listeners. */
module EventsSpec {
  import opened Streams
  import opened ConnectorSpec
  import opened LightdbSpec

  datatype Listener = DataStore | Connector

  /** The state behind the listeners. */
  datatype World = World(store: Store, conn: Conn)

  /** The outside answers the listeners meet in one event: the data store's to its own call, and
      the broker's to the connector's Unsubscribe and to its Connect or Subscribe. */
  datatype Reply = Reply(stored: bool, unsub: Unsuback, sub: Suback)

  datatype Notified = Notified(world: World, status: Status)

  function ToStatus(ok: bool): Status {
    if ok then Ok else Err
  }

  function CreateOne(l: Listener, w: World, ds: DataStream, r: Reply): Notified {
    match l
    case DataStore =>
      var s := CreateSeries(w.store, ds.name, r.stored);
      Notified(w.(store := s.store), ToStatus(s.ok))
    case Connector =>
      var o := CreateHandler(w.conn, ds, r.sub);
      Notified(w.(conn := o.conn), o.status)
  }

  function UpdateOne(l: Listener, w: World, prev: DataStream, next: DataStream, r: Reply): Notified {
    match l
    case DataStore => Notified(w, Ok)
    case Connector =>
      var o := UpdateHandler(w.conn, prev, next, r.unsub, r.sub);
      Notified(w.(conn := o.conn), o.status)
  }

  function DeleteOne(l: Listener, w: World, ds: DataStream, r: Reply): Notified {
    match l
    case DataStore =>
      var s := DropSeries(w.store, ds.name, r.stored);
      Notified(w.(store := s.store), ToStatus(s.ok))
    case Connector =>
      var o := DeleteHandler(w.conn, ds, r.unsub);
      Notified(w.(conn := o.conn), o.status)
  }

  function Created(h: seq<Listener>, w: World, ds: DataStream, replies: seq<Reply>): Notified
    requires |h| == |replies|
    decreases |h|
  {
    if h == [] then Notified(w, Ok)
    else
      var n := CreateOne(h[0], w, ds, replies[0]);
      if n.status != Ok then n else Created(h[1..], n.world, ds, replies[1..])
  }

  function Updated(h: seq<Listener>, w: World, prev: DataStream, next: DataStream, replies: seq<Reply>): Notified
    requires |h| == |replies|
    decreases |h|
  {
    if h == [] then Notified(w, Ok)
    else
      var n := UpdateOne(h[0], w, prev, next, replies[0]);
      if n.status != Ok then n else Updated(h[1..], n.world, prev, next, replies[1..])
  }

  function Deleted(h: seq<Listener>, w: World, ds: DataStream, replies: seq<Reply>): Notified
    requires |h| == |replies|
    decreases |h|
  {
    if h == [] then Notified(w, Ok)
    else
      var n := DeleteOne(h[0], w, ds, replies[0]);
      if n.status != Ok then n else Deleted(h[1..], n.world, ds, replies[1..])
  }

  /** The service's own listener list (main.go): the data store first, then the connector. */
  const LISTENERS := [DataStore, Connector]

  /** With that list a failing store keeps the event from the connector, and the event
      succeeds exactly when both listeners do. */
  lemma ServiceFanOut(w: World, ds: DataStream, prev: DataStream, store: Reply, broker: Reply)
    ensures Created(LISTENERS, w, ds, [store, broker])
         == var s := CreateSeries(w.store, ds.name, store.stored);
            if !s.ok then Notified(w.(store := s.store), Err)
            else var o := CreateHandler(w.conn, ds, broker.sub); Notified(World(s.store, o.conn), o.status)
    ensures Updated(LISTENERS, w, prev, ds, [store, broker])
         == var o := UpdateHandler(w.conn, prev, ds, broker.unsub, broker.sub); Notified(w.(conn := o.conn), o.status)
    ensures Deleted(LISTENERS, w, ds, [store, broker])
         == var s := DropSeries(w.store, ds.name, store.stored);
            if !s.ok then Notified(w.(store := s.store), Err)
            else var o := DeleteHandler(w.conn, ds, broker.unsub); Notified(World(s.store, o.conn), o.status)
  {
  }
}
