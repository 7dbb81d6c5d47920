/** registry/events.go: the registry's listeners, called one after the other. */
module Events {
  import opened Streams
  import opened ConnectorSpec
  import opened EventsSpec
  import opened Lightdb
  import Connector

  /** A listener list over one data store and one connector, in any order and number. */
  class EventHandler {
    const listeners: seq<Listener>
    const store: LightdbStorage
    const connector: Connector.MQTTConnector

    constructor (listeners: seq<Listener>, store: LightdbStorage, connector: Connector.MQTTConnector)
      ensures this.listeners == listeners && this.store == store && this.connector == connector
    {
      this.listeners, this.store, this.connector := listeners, store, connector;
    }

    ghost predicate Valid()
      reads connector, connector.Repr
    {
      connector.Valid() && store !in connector.Repr
    }

    ghost function Model(): World
      reads store, connector
    {
      World(store.series, connector.model)
    }

    // ---- One listener's handler, through the interface ----

    method CreateHandler(l: Listener, ds: DataStream, r: Reply) returns (status: Status)
      requires Valid()
      modifies store, connector.Repr
      ensures Valid() && fresh(connector.Repr - old(connector.Repr))
      ensures Notified(Model(), status) == CreateOne(l, old(Model()), ds, r)
    {
      match l {
        case DataStore => status := store.CreateHandler(ds, r.stored);
        case Connector => status := connector.CreateHandler(ds, r.sub);
      }
    }

    method UpdateHandler(l: Listener, prev: DataStream, next: DataStream, r: Reply) returns (status: Status)
      requires Valid()
      modifies store, connector.Repr
      ensures Valid() && fresh(connector.Repr - old(connector.Repr))
      ensures Notified(Model(), status) == UpdateOne(l, old(Model()), prev, next, r)
    {
      match l {
        case DataStore => status := store.UpdateHandler(prev, next);
        case Connector => status := connector.UpdateHandler(prev, next, r.unsub, r.sub);
      }
    }

    method DeleteHandler(l: Listener, ds: DataStream, r: Reply) returns (status: Status)
      requires Valid()
      modifies store, connector.Repr
      ensures Valid() && fresh(connector.Repr - old(connector.Repr))
      ensures Notified(Model(), status) == DeleteOne(l, old(Model()), ds, r)
    {
      match l {
        case DataStore => status := store.DeleteHandler(ds, r.stored);
        case Connector => status := connector.DeleteHandler(ds, r.unsub);
      }
    }

    // ---- The whole list ----

    method Created(ds: DataStream, replies: seq<Reply>) returns (status: Status)
      requires Valid() && |replies| == |listeners|
      modifies store, connector.Repr
      ensures Valid() && fresh(connector.Repr - old(connector.Repr))
      ensures Notified(Model(), status) == EventsSpec.Created(listeners, old(Model()), ds, replies)
    {
      var i := 0;
      while i < |listeners|
        invariant i <= |listeners|
        invariant Valid() && fresh(connector.Repr - old(connector.Repr))
        invariant EventsSpec.Created(listeners, old(Model()), ds, replies)
               == EventsSpec.Created(listeners[i..], Model(), ds, replies[i..])
      {
        assert listeners[i..][1..] == listeners[i + 1..] && replies[i..][1..] == replies[i + 1..];
        status := CreateHandler(listeners[i], ds, replies[i]);
        if status != Ok {
          return;
        }
        i := i + 1;
      }
      return Ok;
    }

    method Updated(prev: DataStream, next: DataStream, replies: seq<Reply>) returns (status: Status)
      requires Valid() && |replies| == |listeners|
      modifies store, connector.Repr
      ensures Valid() && fresh(connector.Repr - old(connector.Repr))
      ensures Notified(Model(), status) == EventsSpec.Updated(listeners, old(Model()), prev, next, replies)
    {
      var i := 0;
      while i < |listeners|
        invariant i <= |listeners|
        invariant Valid() && fresh(connector.Repr - old(connector.Repr))
        invariant EventsSpec.Updated(listeners, old(Model()), prev, next, replies)
               == EventsSpec.Updated(listeners[i..], Model(), prev, next, replies[i..])
      {
        assert listeners[i..][1..] == listeners[i + 1..] && replies[i..][1..] == replies[i + 1..];
        status := UpdateHandler(listeners[i], prev, next, replies[i]);
        if status != Ok {
          return;
        }
        i := i + 1;
      }
      return Ok;
    }

    method Deleted(ds: DataStream, replies: seq<Reply>) returns (status: Status)
      requires Valid() && |replies| == |listeners|
      modifies store, connector.Repr
      ensures Valid() && fresh(connector.Repr - old(connector.Repr))
      ensures Notified(Model(), status) == EventsSpec.Deleted(listeners, old(Model()), ds, replies)
    {
      var i := 0;
      while i < |listeners|
        invariant i <= |listeners|
        invariant Valid() && fresh(connector.Repr - old(connector.Repr))
        invariant EventsSpec.Deleted(listeners, old(Model()), ds, replies)
               == EventsSpec.Deleted(listeners[i..], Model(), ds, replies[i..])
      {
        assert listeners[i..][1..] == listeners[i + 1..] && replies[i..][1..] == replies[i + 1..];
        status := DeleteHandler(listeners[i], ds, replies[i]);
        if status != Ok {
          return;
        }
        i := i + 1;
      }
      return Ok;
    }
  }
}
