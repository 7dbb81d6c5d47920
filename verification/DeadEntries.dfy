/** Subscriptions without receivers, over every run, whatever else goes wrong. */
module DeadEntries {
  import opened Wrappers
  import opened Streams
  import opened Validation
  import opened ConnectorSpec
  import opened EventsSpec
  import opened RegistrySpec
  import opened Machine
  import opened RefCount
  import opened ExactRuns

  /** Leaving the source takes the last receiver, and its Unsubscribe is not answered. */
  predicate LeavesLast(c: Conn, src: Option<MQTTSource>, unsub: Unsuback) {
    src.Some? && Counted(c, src.value) && !UnregisterSucceeds(c, src.value, unsub)
  }

  /** The steps that leave a subscription without receivers. */
  ghost predicate LeavesDead(s: Sys, e: Event) {
    var c := s.world.conn;
    match e
    case UpdateEnter(name, ds, _, broker) =>
      && name in s.reg && AcceptsUpdate(ds, s.reg[name])
      && s.reg[name].source.mqtt != ds.source.mqtt && LeavesLast(c, s.reg[name].source.mqtt, broker.unsub)
    case DeleteEnter(name, store, broker) =>
      && name in s.reg && (store.stored || name !in s.world.store)
      && LeavesLast(c, s.reg[name].source.mqtt, broker.unsub)
    case _ => false
  }

  lemma SameEntries(c: Conn, c1: Conn)
    requires c1.managers.Keys == c.managers.Keys
    requires forall b :: b in c.managers ==> c1.managers[b].subs == c.managers[b].subs
    ensures NoDeadEntry(c1) <==> NoDeadEntry(c)
  {
  }

  lemma CreateAlive(c: Conn, ds: DataStream, sub: Suback)
    requires NoDeadEntry(c)
    ensures NoDeadEntry(CreateHandler(c, ds, sub).conn)
  {
    if ds.source.mqtt.Some? {
      RegisterEffect(c, ds.source.mqtt.value, sub);
    }
  }

  lemma DropAlive(c: Conn, ds: DataStream, unsub: Unsuback)
    requires NoDeadEntry(c) && ds.source.mqtt.Some?
    ensures NoDeadEntry(DropSource(c, ds, unsub).conn) <==> !LeavesLast(c, ds.source.mqtt, unsub)
    ensures LeavesLast(c, ds.source.mqtt, unsub) ==> DropSource(c, ds, unsub).status == Err
  {
    UnregisterEffect(c, ds.source.mqtt.value, unsub);
    SameEntries(Unregister(c, ds.source.mqtt.value, unsub).conn, DropSource(c, ds, unsub).conn);
  }

  lemma DeleteAlive(c: Conn, ds: DataStream, unsub: Unsuback)
    requires NoDeadEntry(c)
    ensures NoDeadEntry(DeleteHandler(c, ds, unsub).conn) <==> !LeavesLast(c, ds.source.mqtt, unsub)
  {
    var c1 := c.(cache := map[]);
    SameEntries(c, c1);
    if ds.source.mqtt.Some? {
      DropAlive(c1, ds, unsub);
    }
  }

  lemma SwapAlive(c: Conn, prev: DataStream, next: DataStream, unsub: Unsuback, sub: Suback)
    requires NoDeadEntry(c)
    ensures NoDeadEntry(SwapSource(c, prev, next, unsub, sub).conn) <==> !LeavesLast(c, prev.source.mqtt, unsub)
  {
    if prev.source.mqtt.Some? {
      var d := DropSource(c, prev, unsub);
      DropAlive(c, prev, unsub);
      if d.status == Ok {
        CreateAlive(d.conn, next, sub);
      }
    } else {
      CreateAlive(c.(failed := c.failed - {prev.name}), next, sub);
    }
  }

  lemma UpdateAlive(c: Conn, prev: DataStream, next: DataStream, unsub: Unsuback, sub: Suback)
    requires NoDeadEntry(c)
    ensures NoDeadEntry(UpdateHandler(c, prev, next, unsub, sub).conn)
       <==> prev.source.mqtt == next.source.mqtt || !LeavesLast(c, prev.source.mqtt, unsub)
  {
    var c1 := FlushForUpdate(c, prev, next);
    SameEntries(c, c1);
    SwapAlive(c1, prev, next, unsub, sub);
  }

  lemma {:induction false} RetryAlive(c: Conn, order: seq<string>, answers: seq<Suback>)
    requires NoDeadEntry(c) && |order| == |answers|
    ensures NoDeadEntry(RetryPass(c, order, answers))
    decreases |order|
  {
    if order != [] {
      if order[0] in c.failed {
        RetryOneEffect(c, order[0], answers[0]);
      }
      RetryAlive(if order[0] in c.failed then RetryOne(c, order[0], answers[0]) else c, order[1..], answers[1..]);
    }
  }

  lemma UpdateEnterAlive(s: Sys, name: string, ds: DataStream, store: Reply, broker: Reply)
    requires WellFormed(s) && Enabled(s, UpdateEnter(name, ds, store, broker)) && NoDeadEntry(s.world.conn)
    ensures NoDeadEntry(Step(s, UpdateEnter(name, ds, store, broker)).world.conn)
       <==> !LeavesDead(s, UpdateEnter(name, ds, store, broker))
  {
    if name in s.reg {
      var next := Modified(s.reg[name], ds);
      ServiceFanOut(s.world, next, s.reg[name], store, broker);
      UpdateAlive(s.world.conn, s.reg[name], next, broker.unsub, broker.sub);
    }
  }

  lemma DeleteEnterAlive(s: Sys, name: string, store: Reply, broker: Reply)
    requires WellFormed(s) && Enabled(s, DeleteEnter(name, store, broker)) && NoDeadEntry(s.world.conn)
    ensures NoDeadEntry(Step(s, DeleteEnter(name, store, broker)).world.conn)
       <==> !LeavesDead(s, DeleteEnter(name, store, broker))
  {
    if name in s.reg {
      ServiceFanOut(s.world, s.reg[name], s.reg[name], store, broker);
      DeleteAlive(s.world.conn, s.reg[name], broker.unsub);
    }
  }

  lemma AddEnterAlive(s: Sys, k: nat, ds: DataStream, store: Reply, broker: Reply)
    requires Enabled(s, AddEnter(k, ds, store, broker)) && NoDeadEntry(s.world.conn)
    ensures NoDeadEntry(Step(s, AddEnter(k, ds, store, broker)).world.conn)
  {
    ServiceFanOut(s.world, ds, ds, store, broker);
    CreateAlive(s.world.conn, ds, broker.sub);
  }

  lemma QuietStepAlive(s: Sys, e: Event)
    requires Enabled(s, e) && NoDeadEntry(s.world.conn)
    requires !e.AddEnter? && !e.UpdateEnter? && !e.DeleteEnter? && !e.Retry?
    ensures NoDeadEntry(Step(s, e).world.conn)
  {
    SameEntries(s.world.conn, Step(s, e).world.conn);
  }

  /** A step leaves no dead entry if and only if it does not take a last receiver whose
      Unsubscribe goes unanswered. */
  lemma StepAlive(s: Sys, e: Event)
    requires WellFormed(s) && Enabled(s, e) && NoDeadEntry(s.world.conn)
    ensures NoDeadEntry(Step(s, e).world.conn) <==> !LeavesDead(s, e)
  {
    match e
    case AddEnter(k, ds, store, broker) => AddEnterAlive(s, k, ds, store, broker);
    case UpdateEnter(name, ds, store, broker) => UpdateEnterAlive(s, name, ds, store, broker);
    case DeleteEnter(name, store, broker) => DeleteEnterAlive(s, name, store, broker);
    case Retry(order, answers) => RetryAlive(s.world.conn, order, answers);
    case _ => QuietStepAlive(s, e);
  }

  ghost predicate NeverLeavesDead(s: Sys, es: seq<Event>)
    requires Feasible(s, es)
    decreases |es|
  {
    es == [] || (!LeavesDead(s, es[0]) && NeverLeavesDead(Step(s, es[0]), es[1..]))
  }

  ghost predicate AliveAlways(s: Sys, es: seq<Event>)
    requires Feasible(s, es)
    decreases |es|
  {
    NoDeadEntry(s.world.conn) && (es == [] || AliveAlways(Step(s, es[0]), es[1..]))
  }

  /** Throughout a run every count is at least 1, if and only if no step of it is such a one. */
  lemma {:induction false} RunAlive(s: Sys, es: seq<Event>)
    requires WellFormed(s) && Feasible(s, es) && NoDeadEntry(s.world.conn)
    ensures AliveAlways(s, es) <==> NeverLeavesDead(s, es)
    decreases |es|
  {
    if es != [] {
      StepAlive(s, es[0]);
      StepWellFormed(s, es[0]);
      if !LeavesDead(s, es[0]) {
        RunAlive(Step(s, es[0]), es[1..]);
      }
    }
  }
}
