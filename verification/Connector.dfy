/** data/mqtt.go: the connector, its managers and their subscriptions, updated in place.
    Each class carries the value it stands for in `model`; every method is proved to move
    it as ConnectorSpec says. */
module Connector {
  import opened Wrappers
  import opened Streams
  import opened ConnectorSpec
  import opened IngestSpec
  import opened LightdbSpec
  import opened Lightdb
  import opened Paging
  import opened RegistrySpec

  class Subscription {
    const url: string
    const topic: string
    const qos: Byte
    var receivers: int

    constructor (source: MQTTSource)
      ensures url == source.brokerURL && topic == source.topic && qos == source.qos && receivers == 1
    {
      url, topic, qos, receivers := source.brokerURL, source.topic, source.qos, 1;
    }
  }

  class Manager {
    const url: string
    var subscriptions: map<string, Subscription>
    // the client: its connection, and what the broker holds for it
    var client: ClientState

    ghost var model: ManagerState

    constructor (url: string)
      ensures Valid() && this.url == url
      ensures model == ManagerState(map[], ClientState(false, false, map[]))
    {
      this.url, subscriptions, client := url, map[], ClientState(false, false, map[]);
      model := ManagerState(map[], ClientState(false, false, map[]));
    }

    /** Subscriptions sit under their own topic, so no two share an object. */
    ghost predicate Valid()
      reads this, subscriptions.Values
    {
      && model.client == client
      && model.subs.Keys == subscriptions.Keys
      && forall t :: t in subscriptions ==>
           && subscriptions[t].topic == t
           && subscriptions[t].url == url
           && model.subs[t] == SubState(subscriptions[t].qos, subscriptions[t].receivers)
    }

    /** Keep a subscription the broker has answered. */
    method Add(subscription: Subscription, granted: bool)
      requires Valid() && subscription.url == url && subscription.topic !in subscriptions
      requires subscription.receivers == 1
      modifies this
      ensures Valid() && subscriptions == old(subscriptions)[subscription.topic := subscription]
      ensures model == WithSubscription(old(model), subscription.topic, subscription.qos, granted)
    {
      if granted {
        client := client.(session := client.session[subscription.topic := subscription.qos]);
      }
      subscriptions := subscriptions[subscription.topic := subscription];
      model := WithSubscription(model, subscription.topic, subscription.qos, granted);
    }

    /** Add `step` receivers to a subscription. */
    method Count(t: string, step: int)
      requires Valid() && t in subscriptions
      modifies this`model, subscriptions[t]
      ensures Valid()
      ensures model == Recounted(old(model), t, step)
    {
      var subscription := subscriptions[t];
      subscription.receivers := subscription.receivers + step;
      model := Recounted(model, t, step);
      assert forall u :: u in subscriptions && u != t ==> subscriptions[u] != subscriptions[t];
    }

    /** Forget a subscription whose Unsubscribe has been answered. */
    method Remove(t: string, unsub: Unsuback)
      requires Valid() && t in subscriptions
      modifies this
      ensures Valid() && subscriptions == old(subscriptions) - {t}
      ensures model == WithoutSubscription(old(model), t, unsub)
    {
      client := client.(session := client.session - {t});
      model := model.(client := client);
      if unsub.Overtaken? {
        OnConnectHandler(unsub.refused);
      }
      subscriptions := subscriptions - {t};
      model := WithoutSubscription(old(model), t, unsub);
    }

    method OnConnectionLostHandler()
      requires Valid()
      modifies this
      ensures Valid() && subscriptions == old(subscriptions)
      ensures model == old(model).(client := ClientState(false, false, map[]))
    {
      client := ClientState(false, false, map[]);
      model := model.(client := client);
    }

    /** Subscribe again to every topic; the broker refuses those in `refused`. */
    method OnConnectHandler(refused: set<string>)
      requires Valid()
      modifies this
      ensures Valid() && subscriptions == old(subscriptions)
      ensures model == Resubscribed(old(model), refused)
    {
      var left := subscriptions.Keys;
      NothingRequested(model.subs, refused);
      while left != {}
        invariant left <= subscriptions.Keys && subscriptions == old(subscriptions) && model == old(model)
        invariant client.session == old(client.session) + Requested(model.subs, refused + left)
        decreases |left|
      {
        var t :| t in left;
        RequestOneMore(model.subs, refused, left, t, old(client.session));
        if t !in refused {
          client := client.(session := client.session[subscriptions[t].topic := subscriptions[t].qos]);
        }
        left := left - {t};
      }
      assert refused + {} == refused;
      client := ClientState(true, true, client.session);
      model := model.(client := client);
    }
  }

  class MQTTConnector {
    var managers: map<string, Manager>
    var cache: map<string, DataStream>
    var failedRegistrations: map<string, MQTTSource>

    ghost var model: Conn
    ghost var Repr: set<object>

    constructor ()
      ensures Valid() && fresh(Repr)
      ensures model == EMPTY
    {
      managers, cache, failedRegistrations := map[], map[], map[];
      model, Repr := EMPTY, {this};
    }

    /** The manager of `b` sits under its own URL, with everything it owns. */
    ghost predicate Owns(b: string)
      reads this, Repr
      requires this in Repr && b in managers && b in model.managers
    {
      && managers[b] in Repr
      && managers[b].subscriptions.Values <= Repr
      && managers[b].Valid()
      && managers[b].url == b
      && model.managers[b] == managers[b].model
    }

    ghost predicate Valid()
      reads this, Repr
      ensures Valid() ==> this in Repr
    {
      && this in Repr
      && model.failed == failedRegistrations
      && model.cache == cache
      && model.managers.Keys == managers.Keys
      && forall b :: b in managers ==> Owns(b)
    }

    /** Nothing has changed but the connector, the manager of `b` and its subscriptions. */
    twostate predicate OnlyTouched(b: string)
      reads this, Repr
    {
      && (forall o: Manager :: o in old(Repr) && o in Repr && o.url != b ==> unchanged(o))
      && (forall o: Subscription :: o in old(Repr) && o in Repr && o.url != b ==> unchanged(o))
    }

    /** Changing one manager, in the maps and in the model alike, keeps the connector valid. */
    twostate lemma OneManagerChanges(b: string)
      requires old(Valid()) && this in Repr && old(Repr) <= Repr
      requires b in managers && managers == old(managers)[b := managers[b]]
      requires model == SetManager(old(model), b, managers[b].model)
      requires failedRegistrations == old(failedRegistrations) && cache == old(cache)
      requires Owns(b)
      requires OnlyTouched(b)
      ensures Valid()
    {
      forall x | x in managers && x != b ensures Owns(x) {
        assert old(Owns(x));
        var m := managers[x];
        assert forall t :: t in m.subscriptions ==> m.subscriptions[t] in old(m.subscriptions.Values);
      }
    }

    /** `register` for a broker without a client: connect one for this subscription. */
    method Dial(source: MQTTSource, sub: Suback) returns (status: Status)
      requires Valid() && source.brokerURL !in managers
      modifies this
      ensures Valid() && fresh(Repr - old(Repr))
      ensures Outcome(model, status) == ConnectorSpec.Register(old(model), source, sub)
    {
      var manager := new Manager(source.brokerURL);
      var subscription := new Subscription(source);
      manager.subscriptions := map[source.topic := subscription];
      // Connect
      if sub.NoSuback? {
        return Err;
      }
      manager.client := ClientState(true, false, map[]);
      manager.model := Dialled(source.topic, source.qos);
      managers := managers[source.brokerURL := manager];
      Repr := Repr + {manager, subscription};
      model := SetManager(model, source.brokerURL, manager.model);
      OneManagerChanges(source.brokerURL);
      return Ok;
    }

    /** Keep a subscription the broker of `b` has answered. */
    method TakeOn(b: string, subscription: Subscription, granted: bool)
      requires Valid() && b in managers && subscription.url == b && subscription.receivers == 1
      requires subscription.topic !in managers[b].subscriptions
      modifies this`model, this`Repr, managers[b]
      ensures Valid() && Repr == old(Repr) + {subscription}
      ensures model == SetManager(old(model), b, WithSubscription(old(model).managers[b], subscription.topic, subscription.qos, granted))
    {
      assert Owns(b);
      managers[b].Add(subscription, granted);
      Repr := Repr + {subscription};
      model := SetManager(model, b, managers[b].model);
      OneManagerChanges(b);
    }

    /** Add `step` receivers to a topic. */
    method Recount(b: string, t: string, step: int)
      requires Valid() && b in managers && t in managers[b].subscriptions
      modifies this`model, managers[b], managers[b].subscriptions[t]
      ensures Valid()
      ensures model == SetManager(old(model), b, Recounted(old(model).managers[b], t, step))
    {
      assert Owns(b);
      managers[b].Count(t, step);
      model := SetManager(model, b, managers[b].model);
      OneManagerChanges(b);
    }

    /** `register` for a topic its broker's client is not subscribed to. */
    method Subscribe(source: MQTTSource, sub: Suback) returns (status: Status)
      requires Valid() && source.brokerURL in managers
      requires source.topic !in managers[source.brokerURL].subscriptions
      modifies this, managers[source.brokerURL]
      ensures Valid() && fresh(Repr - old(Repr))
      ensures Outcome(model, status) == ConnectorSpec.Register(old(model), source, sub)
    {
      assert Owns(source.brokerURL);
      var subscription := new Subscription(source);
      // Subscribe
      if sub.NoSuback? || !managers[source.brokerURL].client.connected {
        return Err;
      }
      TakeOn(source.brokerURL, subscription, sub.Granted?);
      return Ok;
    }

    method Register(source: MQTTSource, sub: Suback) returns (status: Status)
      requires Valid()
      modifies Repr
      ensures Valid() && fresh(Repr - old(Repr))
      ensures Outcome(model, status) == ConnectorSpec.Register(old(model), source, sub)
    {
      var b, t := source.brokerURL, source.topic;
      if b !in managers { // no client for this broker
        status := Dial(source, sub);
      } else if t !in managers[b].subscriptions { // no subscription for this topic
        assert Owns(b);
        status := Subscribe(source, sub);
      } else {
        assert Owns(b);
        Recount(b, t, 1);
        status := Ok;
      }
    }

    /** A client without topics is disconnected. */
    method Disconnect(b: string)
      requires Valid() && b in managers
      modifies this`managers, this`model
      ensures Valid() && model == Disconnected(old(model), b)
    {
      assert forall x :: x in managers ==> Owns(x);
      managers := managers - {b};
      model := Disconnected(model, b);
    }

    /** Forget a subscription whose Unsubscribe has been answered. */
    method Drop(b: string, t: string, unsub: Unsuback)
      requires Valid() && b in managers && t in managers[b].subscriptions
      modifies this`model, managers[b]
      ensures Valid() && managers[b].subscriptions == old(managers[b].subscriptions) - {t}
      ensures model == SetManager(old(model), b, WithoutSubscription(old(model).managers[b], t, unsub))
    {
      assert Owns(b);
      managers[b].Remove(t, unsub);
      model := SetManager(model, b, managers[b].model);
      OneManagerChanges(b);
    }

    /** The last receiver of a topic is gone: unsubscribe, and disconnect a client left with
        no topic. */
    method Release(b: string, t: string, unsub: Unsuback) returns (status: Status)
      requires Valid() && b in managers && t in managers[b].subscriptions
      modifies this, managers[b]
      ensures Valid() && Repr == old(Repr)
      ensures Outcome(model, status) == Released(old(model), b, t, unsub)
    {
      assert Owns(b);
      // Unsubscribe
      if unsub.NoUnsuback? || !managers[b].client.connected {
        return Err;
      }
      Drop(b, t, unsub);
      assert Owns(b);
      if managers[b].subscriptions == map[] {
        Disconnect(b);
        DisconnectedForgets(old(model), b, WithoutSubscription(old(model).managers[b], t, unsub));
      }
      return Ok;
    }

    method Unregister(source: MQTTSource, unsub: Unsuback) returns (status: Status)
      requires Valid()
      modifies Repr
      ensures Valid() && fresh(Repr - old(Repr))
      ensures Outcome(model, status) == ConnectorSpec.Unregister(old(model), source, unsub)
    {
      var b, t := source.brokerURL, source.topic;
      if b !in managers {
        return Ok;
      }
      assert Owns(b);
      if t !in managers[b].subscriptions {
        // nil dereference
        return Panic;
      }
      Recount(b, t, -1);
      assert Owns(b);
      if managers[b].subscriptions[t].receivers == 0 {
        status := Release(b, t, unsub);
        return;
      }
      return Ok;
    }

    // ---- Notification handlers ----

    method CreateHandler(ds: DataStream, sub: Suback) returns (status: Status)
      requires Valid()
      modifies Repr
      ensures Valid() && fresh(Repr - old(Repr))
      ensures Outcome(model, status) == ConnectorSpec.CreateHandler(old(model), ds, sub)
    {
      status := Ok;
      if ds.source.mqtt.Some? {
        status := Register(ds.source.mqtt.value, sub);
      }
    }

    method FlushCache()
      requires Valid()
      modifies this`cache, this`model
      ensures Valid() && model == old(model).(cache := map[])
    {
      assert forall x :: x in managers ==> Owns(x);
      cache := map[];
      model := model.(cache := map[]);
    }

    /** Forget a waiting registration. */
    method Forget(name: string)
      requires Valid()
      modifies this`failedRegistrations, this`model
      ensures Valid() && model == old(model).(failed := old(model.failed) - {name})
    {
      assert forall x :: x in managers ==> Owns(x);
      failedRegistrations := failedRegistrations - {name};
      model := model.(failed := model.failed - {name});
    }

    /** Leave a registration waiting for the next retry pass. */
    method Wait(name: string, source: MQTTSource)
      requires Valid()
      modifies this`failedRegistrations, this`model
      ensures Valid() && model == old(model).(failed := old(model.failed)[name := source])
    {
      assert forall x :: x in managers ==> Owns(x);
      failedRegistrations := failedRegistrations[name := source];
      model := model.(failed := model.failed[name := source]);
    }

    method UpdateHandler(prev: DataStream, next: DataStream, unsub: Unsuback, sub: Suback) returns (status: Status)
      requires Valid()
      modifies Repr
      ensures Valid() && fresh(Repr - old(Repr))
      ensures Outcome(model, status) == ConnectorSpec.UpdateHandler(old(model), prev, next, unsub, sub)
    {
      if prev.retention != next.retention {
        FlushCache();
      }
      assert model == FlushForUpdate(old(model), prev, next);
      if prev.source.mqtt == next.source.mqtt {
        return Ok;
      }
      status := SwapSource(prev, next, unsub, sub);
    }

    /** `UpdateHandler` once the source pointers differ. */
    method SwapSource(prev: DataStream, next: DataStream, unsub: Unsuback, sub: Suback) returns (status: Status)
      requires Valid()
      modifies Repr
      ensures Valid() && fresh(Repr - old(Repr))
      ensures Outcome(model, status) == ConnectorSpec.SwapSource(old(model), prev, next, unsub, sub)
    {
      // Remove old subscription
      if prev.source.mqtt.Some? {
        status := Unregister(prev.source.mqtt.value, unsub);
        if status != Ok {
          return;
        }
      }
      Forget(prev.name);
      // Add new subscription
      status := CreateHandler(next, sub);
    }

    method DeleteHandler(prev: DataStream, unsub: Unsuback) returns (status: Status)
      requires Valid()
      modifies Repr
      ensures Valid() && fresh(Repr - old(Repr))
      ensures Outcome(model, status) == ConnectorSpec.DeleteHandler(old(model), prev, unsub)
    {
      FlushCache();
      if prev.source.mqtt.Some? {
        status := Unregister(prev.source.mqtt.value, unsub);
        if status != Ok {
          return;
        }
        Forget(prev.name);
      }
      return Ok;
    }

    // ---- Loops ----

    method RetryEntry(id: string, sub: Suback)
      requires Valid() && id in failedRegistrations
      modifies Repr
      ensures Valid() && fresh(Repr - old(Repr))
      ensures model == RetryOne(old(model), id, sub)
    {
      var status := Register(failedRegistrations[id], sub);
      if status == Ok {
        Forget(id);
      }
    }

    /** One pass of `retryRegistrations`, over the waiting registrations in the order `order`. */
    method RetryRegistrations(order: seq<string>, answers: seq<Suback>)
      requires Valid() && RetryOrder(model, order) && |order| == |answers|
      modifies Repr
      ensures Valid() && fresh(Repr - old(Repr))
      ensures model == RetryPass(old(model), order, answers)
    {
      var i := 0;
      while i < |order|
        invariant i <= |order|
        invariant Valid() && fresh(Repr - old(Repr))
        invariant forall j :: i <= j < |order| ==> order[j] in model.failed
        invariant RetryPass(old(model), order, answers) == RetryPass(model, order[i..], answers[i..])
      {
        RetryOneForgetsOne(model, order[i], answers[i]);
        RetryPassNext(model, order, answers, i);
        RetryEntry(order[i], answers[i]);
        i := i + 1;
      }
    }

    /** One stream of a page in `Start`. */
    method StartEntry(ds: DataStream, sub: Suback) returns (status: Status)
      requires Valid()
      modifies Repr
      ensures Valid() && fresh(Repr - old(Repr))
      ensures Outcome(model, status) == StartOne(old(model), ds, sub)
    {
      if ds.source.srcType == MQTT_TYPE {
        if ds.source.mqtt.None? {
          // nil dereference
          return Panic;
        }
        status := Register(ds.source.mqtt.value, sub);
        if status != Ok {
          Wait(ds.name, ds.source.mqtt.value);
        }
      }
      return Ok;
    }

    /** The streams of one page in `Start`. */
    method StartPage(dataStreams: seq<DataStream>, answers: seq<Suback>) returns (status: Status)
      requires Valid() && |dataStreams| == |answers|
      modifies Repr
      ensures Valid() && fresh(Repr - old(Repr))
      ensures Outcome(model, status) == StartAll(old(model), dataStreams, answers)
    {
      var i := 0;
      assert dataStreams[0..] == dataStreams && answers[0..] == answers;
      while i < |dataStreams|
        invariant i <= |dataStreams|
        invariant Valid() && fresh(Repr - old(Repr))
        invariant StartAll(old(model), dataStreams, answers) == StartAll(model, dataStreams[i..], answers[i..])
      {
        assert dataStreams[i..][1..] == dataStreams[i + 1..] && answers[i..][1..] == answers[i + 1..];
        status := StartEntry(dataStreams[i], answers[i]);
        if status != Ok {
          return;
        }
        i := i + 1;
      }
      return Ok;
    }

    /** `Start` reads the registry page by page until the pages reach the reported total.
        `listing` is the registry in key order; a backend may report a total of 0 with a page
        that is empty (`emptyTotal`). */
    method Start(listing: seq<DataStream>, emptyTotal: bool, answers: seq<Suback>) returns (status: Status)
      requires Valid() && |listing| == |answers|
      modifies Repr
      ensures Valid() && fresh(Repr - old(Repr))
      ensures Outcome(model, status) == StartAll(old(model), listing, answers)
    {
      var perPage := 100;
      var page, done := 1, 0;
      assert listing[0..] == listing && answers[0..] == answers;
      while true
        invariant page >= 1 && done == Min((page - 1) * perPage, |listing|)
        invariant Valid() && fresh(Repr - old(Repr))
        invariant StartAll(old(model), listing, answers) == StartAll(model, listing[done..], answers[done..])
        decreases |listing| + perPage - page * perPage
      {
        PageForStart(listing, emptyTotal, page, perPage, done);
        var answer := ReadPage(listing, emptyTotal, page, perPage);
        if answer.Failure? {
          return Err;
        }
        var dataStreams, total := answer.value.streams, answer.value.total;
        assert listing[done..][..|dataStreams|] == dataStreams;
        StartAllJoin(model, listing[done..], answers[done..], |dataStreams|);
        status := StartPage(dataStreams, answers[done..][..|dataStreams|]);
        if status != Ok {
          return;
        }
        done := done + |dataStreams|;
        assert listing[done..] == listing[done - |dataStreams|..][|dataStreams|..];
        assert answers[done..] == answers[done - |dataStreams|..][|dataStreams|..];
        if page * perPage >= total {
          break;
        }
        page := page + 1;
      }
      return Ok;
    }

    // ---- Messages ----

    /** The stream for a name: from the cache, or from the registry and then cached. */
    method FindStream(n: string, registry: Registry) returns (ds: Option<DataStream>)
      requires Valid()
      modifies this`cache, this`model
      ensures Valid() && ds == Lookup(registry, old(cache), n)
      ensures model == old(model).(cache := Remember(registry, old(model.cache), n))
    {
      if n in cache {
        return Some(cache[n]);
      }
      if n !in registry {
        return None;
      }
      assert forall x :: x in managers ==> Owns(x);
      cache := cache[n := registry[n]];
      model := model.(cache := cache);
      return Some(registry[n]);
    }

    /** Looks the record's stream up and checks that the message is wanted and well typed. */
    method Accepts(url: string, topic: string, r: Record, registry: Registry) returns (ds: Option<DataStream>)
      requires Valid() && Keyed(registry) && Keyed(model.cache)
      modifies this`cache, this`model
      ensures Valid() && Keyed(model.cache)
      ensures ds.Some? <==> Wanted(registry, old(model.cache), url, topic, r)
      ensures ds.Some? ==> ds.value.name == r.name
      ensures model == old(model).(cache := Remember(registry, old(model.cache), r.name))
    {
      ds := FindStream(r.name, registry);
      if ds.None? {
        return None;
      }
      var source := ds.value.source.mqtt;
      if source.None? {
        return None;
      }
      if source.value.brokerURL != url {
        return None;
      }
      if source.value.topic != topic {
        return None;
      }
      if !Conforms(ds.value.dataType, r) {
        return None;
      }
    }

    /** One record of a message: into the group of its stream if it is accepted. */
    method Take(url: string, topic: string, r: Record, registry: Registry, data: map<string, seq<Record>>, ghost wanted: seq<Record>)
      returns (out: map<string, seq<Record>>)
      requires Valid() && Keyed(registry) && Keyed(model.cache) && data == Groups(wanted)
      modifies this`cache, this`model
      ensures Valid() && Keyed(model.cache)
      ensures model == old(model).(cache := Remember(registry, old(model.cache), r.name))
      ensures out == Groups(wanted + if Wanted(registry, old(model.cache), url, topic, r) then [r] else [])
    {
      out := data;
      var ds := Accepts(url, topic, r, registry);
      if ds.Some? {
        GroupsAppend(wanted, r);
        out := AppendTo(out, ds.value.name, r);
      } else {
        assert wanted + [] == wanted;
      }
    }

    /** The wanted records of a message, grouped by stream. */
    method Collect(url: string, topic: string, records: seq<Record>, registry: Registry)
      returns (data: map<string, seq<Record>>)
      requires Valid() && Keyed(registry) && Keyed(model.cache)
      modifies this`cache, this`model
      ensures Valid()
      ensures model == old(model).(cache := CacheAfter(registry, old(model.cache), records))
      ensures data == Groups(WantedOf(registry, old(model.cache), url, topic, records))
    {
      data := map[];
      ghost var cache0, wanted := model.cache, [];
      var i := 0;
      assert CacheAfter(registry, cache0, []) == cache0;
      while i < |records|
        invariant i <= |records| && Valid() && Keyed(model.cache)
        invariant model == old(model).(cache := CacheAfter(registry, cache0, records[..i]))
        invariant wanted == WantedOf(registry, cache0, url, topic, records[..i])
        invariant data == Groups(wanted)
      {
        MessageStep(registry, cache0, url, topic, records, i);
        ghost var more := if Wanted(registry, model.cache, url, topic, records[i]) then [records[i]] else [];
        data := Take(url, topic, records[i], registry, data, wanted);
        wanted := wanted + more;
        i := i + 1;
      }
      assert records[..i] == records;
    }

    /** `onMessage` of the subscription to `topic` at `url`. `registry` is what registry.Get
        answers from, `refused` the streams the store refuses packs of. */
    method OnMessage(url: string, topic: string, records: seq<Record>, registry: Registry, storage: LightdbStorage, refused: set<string>)
      returns (ghost written: set<string>)
      requires Valid() && storage !in Repr && Keyed(registry) && Keyed(model.cache)
      modifies this`cache, this`model, storage
      ensures Valid()
      ensures model == old(model).(cache := CacheAfter(registry, old(model.cache), records))
      ensures var data := Groups(WantedOf(registry, old(model.cache), url, topic, records));
              && Reached(old(storage.series), storage.series, data, written)
              && (refused !! data.Keys ==> written == data.Keys)
    {
      var data := Collect(url, topic, records, registry);
      GroupsAreProper(WantedOf(registry, old(model.cache), url, topic, records));
      written := {};
      ReachedNothing(storage.series, data);
      if data != map[] {
        var ok;
        ok, written := storage.Submit(data, refused);
      }
    }
  }

  /** Each page `Start` asks for is answered: the streams from `done` on, up to the page's end. */
  lemma PageForStart(listing: seq<DataStream>, emptyTotal: bool, page: int, perPage: int, done: int)
    requires page >= 1 && perPage == 100 && done == Min((page - 1) * perPage, |listing|)
    ensures var r := ReadPage(listing, emptyTotal, page, perPage);
            && r.Success?
            && 0 <= done && r.value.streams == listing[done..Min(page * perPage, |listing|)]
            && (page * perPage >= r.value.total <==> page * perPage >= |listing|)
  {
  }
}
