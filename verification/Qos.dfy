/** The QoS a topic is subscribed at: that of the stream that opened the subscription, whatever
    streams have joined it since, until its last receiver leaves. */
module Qos {
  import opened Wrappers
  import opened Streams
  import opened Validation
  import opened ConnectorSpec
  import opened EventsSpec
  import opened RegistrySpec
  import opened Machine
  import opened RefCount
  import opened Sessions

  /** The QoS of a subscription, if there is one. */
  function QosOf(c: Conn, b: string, t: string): Option<Byte> {
    if b in c.managers && t in c.managers[b].subs then Some(c.managers[b].subs[t].qos) else None
  }

  // ---- The connector's calls ----

  /** A register opens the subscription of its pair at the QoS of its source; one that is open it
      leaves at its QoS. */
  lemma RegisterQos(c: Conn, src: MQTTSource, sub: Suback, b: string, t: string)
    ensures QosOf(Register(c, src, sub).conn, b, t)
         == if src.brokerURL == b && src.topic == t && QosOf(c, b, t).None? && RegisterSucceeds(c, src, sub)
            then Some(src.qos) else QosOf(c, b, t)
  {
  }

  /** The last receiver leaves, and the Unsubscribe is answered. */
  predicate Closes(c: Conn, src: Option<MQTTSource>, unsub: Unsuback, b: string, t: string) {
    && src.Some? && src.value.brokerURL == b && src.value.topic == t
    && Receivers(c, b, t) == 1 && Answered(c, b, !unsub.NoUnsuback?)
  }

  lemma UnregisterQos(c: Conn, src: MQTTSource, unsub: Unsuback, b: string, t: string)
    ensures QosOf(Unregister(c, src, unsub).conn, b, t) == if Closes(c, Some(src), unsub, b, t) then None else QosOf(c, b, t)
  {
    if Receivers(c, src.brokerURL, src.topic) == 1 && Answered(c, src.brokerURL, !unsub.NoUnsuback?) {
      UnregisterDropsTopic(c, src, unsub);
      assert c.managers[src.brokerURL].subs.Keys == {src.topic} ==> (t in c.managers[src.brokerURL].subs <==> t == src.topic);
    } else {
      UnregisterKeepsTopics(c, src, unsub);
      assert b in c.managers ==> (t in c.managers[b].subs <==> t in c.managers[b].subs.Keys);
    }
  }

  // ---- The handlers ----

  /** The QoS at which a register opens the pair. */
  function Opens(c: Conn, src: Option<MQTTSource>, sub: Suback, b: string, t: string): Option<Byte> {
    if src.Some? && src.value.brokerURL == b && src.value.topic == t && QosOf(c, b, t).None? && RegisterSucceeds(c, src.value, sub)
    then Some(src.value.qos) else None
  }

  /** The QoS at which an update opens the pair; it may have closed it just before. */
  function Reopens(c: Conn, prev: Option<MQTTSource>, next: Option<MQTTSource>, unsub: Unsuback, sub: Suback, b: string, t: string)
    : Option<Byte>
  {
    if prev != next && next.Some? && next.value.brokerURL == b && next.value.topic == t
       && (QosOf(c, b, t).None? || Closes(c, prev, unsub, b, t)) && UpdateSucceeds(c, prev, next, unsub, sub)
    then Some(next.value.qos) else None
  }

  function OrElse(first: Option<Byte>, second: Option<Byte>): Option<Byte> {
    if first.Some? then first else second
  }

  lemma CreateQos(c: Conn, ds: DataStream, sub: Suback, b: string, t: string)
    ensures QosOf(CreateHandler(c, ds, sub).conn, b, t) == OrElse(Opens(c, ds.source.mqtt, sub, b, t), QosOf(c, b, t))
  {
    if ds.source.mqtt.Some? {
      RegisterQos(c, ds.source.mqtt.value, sub, b, t);
    }
  }

  lemma DropQos(c: Conn, ds: DataStream, unsub: Unsuback, b: string, t: string)
    requires ds.source.mqtt.Some?
    ensures QosOf(DropSource(c, ds, unsub).conn, b, t)
         == if Closes(c, ds.source.mqtt, unsub, b, t) then None else QosOf(c, b, t)
  {
    UnregisterQos(c, ds.source.mqtt.value, unsub, b, t);
  }

  lemma DeleteQos(c: Conn, ds: DataStream, unsub: Unsuback, b: string, t: string)
    ensures QosOf(DeleteHandler(c, ds, unsub).conn, b, t)
         == if Closes(c, ds.source.mqtt, unsub, b, t) then None else QosOf(c, b, t)
  {
    if ds.source.mqtt.Some? {
      DropQos(c.(cache := map[]), ds, unsub, b, t);
    }
  }

  lemma SwapQos(c: Conn, prev: DataStream, next: DataStream, unsub: Unsuback, sub: Suback, b: string, t: string)
    requires prev.source.mqtt != next.source.mqtt
    ensures QosOf(SwapSource(c, prev, next, unsub, sub).conn, b, t)
         == OrElse(Reopens(c, prev.source.mqtt, next.source.mqtt, unsub, sub, b, t),
                   if Closes(c, prev.source.mqtt, unsub, b, t) then None else QosOf(c, b, t))
  {
    var p, n := prev.source.mqtt, next.source.mqtt;
    if p.Some? {
      var d := DropSource(c, prev, unsub);
      UnregisterStatus(c, p.value, unsub);
      DropQos(c, prev, unsub, b, t);
      CreateQos(d.conn, next, sub, b, t);
      if d.status == Ok && n.Some? {
        RegisterAfterLeaving(c, p.value, n.value, unsub, sub);
        GuardsIgnore(Unregister(c, p.value, unsub).conn, d.conn, p, n.value, unsub, sub);
      }
    } else {
      CreateQos(c.(failed := c.failed - {prev.name}), next, sub, b, t);
    }
  }

  lemma UpdateQos(c: Conn, prev: DataStream, next: DataStream, unsub: Unsuback, sub: Suback, b: string, t: string)
    ensures QosOf(UpdateHandler(c, prev, next, unsub, sub).conn, b, t)
         == if prev.source.mqtt == next.source.mqtt then QosOf(c, b, t)
            else OrElse(Reopens(c, prev.source.mqtt, next.source.mqtt, unsub, sub, b, t),
                        if Closes(c, prev.source.mqtt, unsub, b, t) then None else QosOf(c, b, t))
  {
    var c1 := FlushForUpdate(c, prev, next);
    if prev.source.mqtt != next.source.mqtt {
      SwapQos(c1, prev, next, unsub, sub, b, t);
      UpdateSucceedsIgnores(c, c1, prev.source.mqtt, next.source.mqtt, unsub, sub);
    }
  }

  lemma UpdateSucceedsIgnores(c: Conn, c1: Conn, prev: Option<MQTTSource>, next: Option<MQTTSource>, unsub: Unsuback, sub: Suback)
    requires c1.managers == c.managers
    ensures UpdateSucceeds(c1, prev, next, unsub, sub) <==> UpdateSucceeds(c, prev, next, unsub, sub)
  {
    if prev.Some? {
      GuardsIgnore(c, c1, prev, prev.value, unsub, sub);
    }
    if next.Some? {
      GuardsIgnore(c, c1, prev, next.value, unsub, sub);
    }
  }

  /** The first entry of a pass that opens the pair. */
  function OpensInPass(c: Conn, order: seq<string>, answers: seq<Suback>, b: string, t: string): Option<Byte>
    requires |order| == |answers|
    decreases |order|
  {
    if order == [] then None
    else if order[0] !in c.failed then OpensInPass(c, order[1..], answers[1..], b, t)
    else
      OrElse(Opens(c, Some(c.failed[order[0]]), answers[0], b, t),
             OpensInPass(RetryOne(c, order[0], answers[0]), order[1..], answers[1..], b, t))
  }

  lemma {:induction false} RetryPassQos(c: Conn, order: seq<string>, answers: seq<Suback>, b: string, t: string)
    requires |order| == |answers|
    ensures QosOf(RetryPass(c, order, answers), b, t) == OrElse(OpensInPass(c, order, answers, b, t), QosOf(c, b, t))
    ensures QosOf(c, b, t).Some? ==> OpensInPass(c, order, answers, b, t).None?
    decreases |order|
  {
    if order != [] {
      if order[0] in c.failed {
        RegisterQos(c, c.failed[order[0]], answers[0], b, t);
      }
      RetryPassQos(if order[0] in c.failed then RetryOne(c, order[0], answers[0]) else c, order[1..], answers[1..], b, t);
    }
  }

  /** The first stream that opens the pair while the service starts. */
  function OpensAtStart(c: Conn, streams: seq<DataStream>, answers: seq<Suback>, b: string, t: string): Option<Byte>
    requires |streams| == |answers|
    decreases |streams|
  {
    if streams == [] || StartOne(c, streams[0], answers[0]).status != Ok then None
    else
      OrElse(if streams[0].source.srcType == "MQTT" then Opens(c, streams[0].source.mqtt, answers[0], b, t) else None,
             OpensAtStart(StartOne(c, streams[0], answers[0]).conn, streams[1..], answers[1..], b, t))
  }

  lemma {:induction false} StartQos(c: Conn, streams: seq<DataStream>, answers: seq<Suback>, b: string, t: string)
    requires |streams| == |answers|
    ensures QosOf(StartAll(c, streams, answers).conn, b, t) == OrElse(OpensAtStart(c, streams, answers, b, t), QosOf(c, b, t))
    ensures QosOf(c, b, t).Some? ==> OpensAtStart(c, streams, answers, b, t).None?
    decreases |streams|
  {
    if streams != [] {
      var o := StartOne(c, streams[0], answers[0]);
      if streams[0].source.mqtt.Some? {
        RegisterQos(c, streams[0].source.mqtt.value, answers[0], b, t);
      }
      if o.status == Ok {
        StartQos(o.conn, streams[1..], answers[1..], b, t);
      }
    }
  }

  // ---- Over runs of the service in memory ----

  /** The QoS at which a step opens the pair. */
  ghost function OpensIn(s: Sys, e: Event, b: string, t: string): Option<Byte>
    requires Enabled(s, e)
  {
    var c := s.world.conn;
    match e
    case AddEnter(_, ds, store, broker) =>
      if AcceptsCreation(ds) && store.stored && ds.name !in s.world.store then Opens(c, ds.source.mqtt, broker.sub, b, t) else None
    case UpdateEnter(name, ds, _, broker) =>
      if name in s.reg && AcceptsUpdate(ds, s.reg[name])
      then Reopens(c, s.reg[name].source.mqtt, ds.source.mqtt, broker.unsub, broker.sub, b, t) else None
    case Retry(order, answers) => OpensInPass(c, order, answers, b, t)
    case _ => None
  }

  /** A step closes the pair. */
  ghost predicate ClosesIn(s: Sys, e: Event, b: string, t: string) {
    var c := s.world.conn;
    match e
    case UpdateEnter(name, ds, _, broker) =>
      && name in s.reg && AcceptsUpdate(ds, s.reg[name]) && s.reg[name].source.mqtt != ds.source.mqtt
      && Closes(c, s.reg[name].source.mqtt, broker.unsub, b, t)
    case DeleteEnter(name, store, broker) =>
      && name in s.reg && (store.stored || name !in s.world.store)
      && Closes(c, s.reg[name].source.mqtt, broker.unsub, b, t)
    case _ => false
  }

  lemma HandlerStepQos(s: Sys, e: Event, b: string, t: string)
    requires WellFormed(s) && Enabled(s, e) && (e.AddEnter? || e.UpdateEnter? || e.DeleteEnter?)
    ensures QosOf(Step(s, e).world.conn, b, t)
         == OrElse(OpensIn(s, e, b, t), if ClosesIn(s, e, b, t) then None else QosOf(s.world.conn, b, t))
  {
    var c := s.world.conn;
    if e.AddEnter? {
      ServiceFanOut(s.world, e.ds, e.ds, e.store, e.broker);
      CreateQos(c, e.ds, e.broker.sub, b, t);
    } else if e.name in s.reg {
      var prev := s.reg[e.name];
      var next := if e.UpdateEnter? then Modified(prev, e.ds) else prev;
      ServiceFanOut(s.world, next, prev, e.store, e.broker);
      if e.UpdateEnter? {
        UpdateQos(c, prev, next, e.broker.unsub, e.broker.sub, b, t);
      } else {
        DeleteQos(c, prev, e.broker.unsub, b, t);
      }
    }
  }

  /** A step that opens the pair sets its QoS, and no other changes it. */
  lemma StepQos(s: Sys, e: Event, b: string, t: string)
    requires WellFormed(s) && Enabled(s, e)
    ensures QosOf(Step(s, e).world.conn, b, t)
         == OrElse(OpensIn(s, e, b, t), if ClosesIn(s, e, b, t) then None else QosOf(s.world.conn, b, t))
  {
    if e.AddEnter? || e.UpdateEnter? || e.DeleteEnter? {
      HandlerStepQos(s, e, b, t);
    } else if e.Retry? {
      RetryPassQos(s.world.conn, e.order, e.answers, b, t);
    }
  }

  /** No step of the run opens or closes the pair. */
  ghost predicate Undisturbed(s: Sys, es: seq<Event>, b: string, t: string)
    requires Feasible(s, es)
    decreases |es|
  {
    es == [] || (OpensIn(s, es[0], b, t).None? && !ClosesIn(s, es[0], b, t) && Undisturbed(Step(s, es[0]), es[1..], b, t))
  }

  /** A step of the run opens the pair at QoS `q`, and none after it opens or closes it. */
  ghost predicate OpenedAt(s: Sys, es: seq<Event>, b: string, t: string, q: Byte)
    requires Feasible(s, es)
    decreases |es|
  {
    && es != []
    && var s1 := Step(s, es[0]);
       || OpenedAt(s1, es[1..], b, t, q)
       || (OpensIn(s, es[0], b, t) == Some(q) && Undisturbed(s1, es[1..], b, t))
  }

  /** After every run a subscription has the QoS of the stream that opened it last, or, if it was
      open before and has not been closed, the QoS it had. */
  lemma {:induction false} RunQos(s: Sys, es: seq<Event>, b: string, t: string, q: Byte)
    requires WellFormed(s) && Feasible(s, es)
    ensures QosOf(Run(s, es).world.conn, b, t) == Some(q)
       <==> OpenedAt(s, es, b, t, q) || (QosOf(s.world.conn, b, t) == Some(q) && Undisturbed(s, es, b, t))
    decreases |es|
  {
    if es != [] {
      StepQos(s, es[0], b, t);
      StepWellFormed(s, es[0]);
      RunQos(Step(s, es[0]), es[1..], b, t, q);
    }
  }
}
