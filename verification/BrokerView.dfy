/** What the brokers hold for the connector's sessions, over every run of the service. */
module BrokerView {
  import opened Streams
  import opened ConnectorSpec
  import opened Validation
  import opened EventsSpec
  import opened RegistrySpec
  import opened Machine
  import opened RefCount
  import opened ExactRuns
  import opened Sessions
  import opened Atomic

  /** The steps that leave a dropped topic in a session: an Update or Delete whose Unsubscribe
      is overtaken by the on-connect handler. */
  ghost predicate SpoilsHosted(s: Sys, e: Event) {
    var c := s.world.conn;
    match e
    case UpdateEnter(name, ds, _, broker) =>
      && name in s.reg && AcceptsUpdate(ds, s.reg[name])
      && UpdateStrays(c, s.reg[name].source.mqtt, ds.source.mqtt, broker.unsub, broker.sub)
    case DeleteEnter(name, store, broker) =>
      && name in s.reg && (store.stored || name !in s.world.store)
      && DropStrays(c, s.reg[name].source.mqtt, broker.unsub)
    case _ => false
  }

  /** The steps in which a restored session is refused a topic it does not hold. */
  ghost predicate SpoilsComplete(s: Sys, e: Event)
    requires Enabled(s, e)
  {
    var c := s.world.conn;
    match e
    case AddEnter(_, ds, store, broker) =>
      AcceptsCreation(ds) && store.stored && ds.name !in s.world.store && CreateRefused(c, ds, broker.sub)
    case UpdateEnter(name, ds, _, broker) =>
      && name in s.reg && AcceptsUpdate(ds, s.reg[name])
      && UpdateLeavesOut(c, s.reg[name].source.mqtt, ds.source.mqtt, broker.unsub, broker.sub)
    case DeleteEnter(name, store, broker) =>
      && name in s.reg && (store.stored || name !in s.world.store)
      && DropLeavesOut(c, s.reg[name].source.mqtt, broker.unsub)
    case Retry(order, answers) => PassRefused(c, order, answers)
    case Restore(url, refused) => RestoreLeavesOut(c, url, refused)
    case _ => false
  }

  ghost predicate HostedAfter(s: Sys, e: Event)
    requires Enabled(s, e)
  {
    Hosted(Step(s, e).world.conn)
  }

  ghost predicate CompleteAfter(s: Sys, e: Event)
    requires Enabled(s, e)
  {
    NoneLacks(Step(s, e).world.conn)
  }

  lemma AddEnterSessions(s: Sys, k: nat, ds: DataStream, store: Reply, broker: Reply)
    requires Enabled(s, AddEnter(k, ds, store, broker)) && Hosted(s.world.conn)
    ensures var e := AddEnter(k, ds, store, broker);
            HostedAfter(s, e) && (NoneLacks(s.world.conn) ==> (CompleteAfter(s, e) <==> !SpoilsComplete(s, e)))
  {
    ServiceFanOut(s.world, ds, ds, store, broker);
    CreateSessions(s.world.conn, ds, broker.sub);
  }

  lemma UpdateEnterSessions(s: Sys, name: string, ds: DataStream, store: Reply, broker: Reply)
    requires Enabled(s, UpdateEnter(name, ds, store, broker)) && Hosted(s.world.conn)
    ensures var e := UpdateEnter(name, ds, store, broker);
            && (HostedAfter(s, e) <==> !SpoilsHosted(s, e))
            && (NoneLacks(s.world.conn) ==> (CompleteAfter(s, e) <==> !SpoilsComplete(s, e)))
  {
    if name in s.reg && AcceptsUpdate(ds, s.reg[name]) {
      var next := Modified(s.reg[name], ds);
      ServiceFanOut(s.world, next, s.reg[name], store, broker);
      UpdateSessions(s.world.conn, s.reg[name], next, broker.unsub, broker.sub);
    }
  }

  lemma DeleteEnterSessions(s: Sys, name: string, store: Reply, broker: Reply)
    requires WellFormed(s) && Enabled(s, DeleteEnter(name, store, broker)) && Hosted(s.world.conn)
    ensures var e := DeleteEnter(name, store, broker);
            && (HostedAfter(s, e) <==> !SpoilsHosted(s, e))
            && (NoneLacks(s.world.conn) ==> (CompleteAfter(s, e) <==> !SpoilsComplete(s, e)))
  {
    if name in s.reg {
      ServiceFanOut(s.world, s.reg[name], s.reg[name], store, broker);
      DeleteSessions(s.world.conn, s.reg[name], broker.unsub);
    }
  }

  lemma QuietSessions(s: Sys, e: Event)
    requires Enabled(s, e) && Hosted(s.world.conn)
    requires !e.AddEnter? && !e.UpdateEnter? && !e.DeleteEnter?
    ensures HostedAfter(s, e)
    ensures NoneLacks(s.world.conn) ==> (CompleteAfter(s, e) <==> !SpoilsComplete(s, e))
  {
    var c := s.world.conn;
    if e.Retry? {
      RetryPassSessions(c, e.order, e.answers);
    } else if e.Lost? || e.Reconnect? || e.Restore? {
      LifeSessions(c, e.url, if e.Restore? then e.refused else {});
    } else {
      SessionsIgnore(c, Step(s, e).world.conn);
    }
  }

  /** One step: no session is left with a dropped topic, and the restored ones stay complete,
      exactly when its guards hold on the state before. */
  lemma StepSessions(s: Sys, e: Event)
    requires WellFormed(s) && Enabled(s, e) && Hosted(s.world.conn)
    ensures HostedAfter(s, e) <==> !SpoilsHosted(s, e)
    ensures NoneLacks(s.world.conn) ==> (CompleteAfter(s, e) <==> !SpoilsComplete(s, e))
  {
    match e
    case AddEnter(k, ds, store, broker) => AddEnterSessions(s, k, ds, store, broker);
    case UpdateEnter(name, ds, store, broker) => UpdateEnterSessions(s, name, ds, store, broker);
    case DeleteEnter(name, store, broker) => DeleteEnterSessions(s, name, store, broker);
    case _ => QuietSessions(s, e);
  }

  lemma StepSettles(s: Sys, e: Event)
    requires Enabled(s, e) && Settled(s.world.conn)
    ensures Settled(Step(s, e).world.conn)
  {
    var c := s.world.conn;
    match e
    case AddEnter(k, ds, store, broker) =>
      ServiceFanOut(s.world, ds, ds, store, broker);
      HandlersSettle(c, ds, ds, broker.unsub, broker.sub);
    case UpdateEnter(name, ds, store, broker) =>
      if name in s.reg {
        var next := Modified(s.reg[name], ds);
        ServiceFanOut(s.world, next, s.reg[name], store, broker);
        HandlersSettle(c, s.reg[name], next, broker.unsub, broker.sub);
      }
    case DeleteEnter(name, store, broker) =>
      if name in s.reg {
        ServiceFanOut(s.world, s.reg[name], s.reg[name], store, broker);
        HandlersSettle(c, s.reg[name], s.reg[name], broker.unsub, broker.sub);
      }
    case Retry(order, answers) => RetryPassSettles(c, order, answers);
    case _ =>
  }

  /** Over every run, whatever fails, no manager is without a subscription, and a session that
      is down holds nothing. */
  lemma {:induction false} RunSettled(s: Sys, es: seq<Event>)
    requires Feasible(s, es) && Settled(s.world.conn)
    ensures Settled(Run(s, es).world.conn)
    decreases |es|
  {
    if es != [] {
      StepSettles(s, es[0]);
      RunSettled(Step(s, es[0]), es[1..]);
    }
  }

  ghost predicate NeverOvertaken(s: Sys, es: seq<Event>)
    requires Feasible(s, es)
    decreases |es|
  {
    es == [] || (!SpoilsHosted(s, es[0]) && NeverOvertaken(Step(s, es[0]), es[1..]))
  }

  ghost predicate HostedAlways(s: Sys, es: seq<Event>)
    requires Feasible(s, es)
    decreases |es|
  {
    Hosted(s.world.conn) && (es == [] || HostedAlways(Step(s, es[0]), es[1..]))
  }

  /** Throughout a run no manager is without a subscription and no session holds a topic its
      manager has dropped, if and only if no on-connect handler overtakes an Unsubscribe. */
  lemma {:induction false} RunHosted(s: Sys, es: seq<Event>)
    requires WellFormed(s) && Feasible(s, es) && Hosted(s.world.conn)
    ensures HostedAlways(s, es) <==> NeverOvertaken(s, es)
    decreases |es|
  {
    if es != [] {
      StepSessions(s, es[0]);
      StepWellFormed(s, es[0]);
      if !SpoilsHosted(s, es[0]) {
        RunHosted(Step(s, es[0]), es[1..]);
      }
    }
  }

  ghost predicate SpoilsNone(s: Sys, es: seq<Event>)
    requires Feasible(s, es)
    decreases |es|
  {
    es == [] || (!SpoilsHosted(s, es[0]) && !SpoilsComplete(s, es[0]) && SpoilsNone(Step(s, es[0]), es[1..]))
  }

  /** The sessions agree with the connector after every step of the run. */
  ghost predicate AgreesAlways(s: Sys, es: seq<Event>)
    requires Feasible(s, es)
    decreases |es|
  {
    SessionsAgree(s.world.conn) && (es == [] || AgreesAlways(Step(s, es[0]), es[1..]))
  }

  /** The sessions agree with the connector throughout a run if and only if none of its steps
      is of the two kinds. */
  lemma {:induction false} RunAgrees(s: Sys, es: seq<Event>)
    requires WellFormed(s) && Feasible(s, es) && SessionsAgree(s.world.conn)
    ensures AgreesAlways(s, es) <==> SpoilsNone(s, es)
    ensures SpoilsNone(s, es) ==> SessionsAgree(Run(s, es).world.conn)
    decreases |es|
  {
    if es != [] {
      StepSessions(s, es[0]);
      StepWellFormed(s, es[0]);
      if !SpoilsHosted(s, es[0]) && !SpoilsComplete(s, es[0]) {
        RunAgrees(Step(s, es[0]), es[1..]);
      }
    }
  }

  /** Over any run in which the counts stay exact and the sessions keep agreeing, what a broker
      with a restored session delivers is exactly what somebody asks for: the session holds a
      topic if and only if a registered, not waiting stream or an Add under way wants it from
      that broker. */
  lemma RestoredSessionsServeTheRegistry(s: Sys, es: seq<Event>, b: string, t: string)
    requires WellFormed(s) && Exact(s) && SessionsAgree(s.world.conn)
    requires Feasible(s, es) && KeepsAlways(s, es) && SpoilsNone(s, es)
    ensures var s1 := Run(s, es);
            var c1 := s1.world.conn;
            b in c1.managers && c1.managers[b].client.restored ==>
              (t in c1.managers[b].client.session <==>
                 || (exists n :: Holds(View(s1), c1.failed, n, b, t))
                 || (exists k :: k in s1.adds && Wants(s1.adds[k], b, t)))
  {
    RunExact(s, es);
    RunAgrees(s, es);
    var s1 := Run(s, es);
    if b in s1.world.conn.managers && s1.world.conn.managers[b].client.restored {
      ServesHolders(s1.world.conn, View(s1), s1.adds, b, t);
    }
  }

  /** Losing a connection empties the session; reconnecting with nothing refused gives every
      subscription back, whatever was subscribed or dropped before. */
  lemma LostSessionIsRestored(s: Sys, b: string)
    requires WellFormed(s) && Enabled(s, Lost(b)) && SessionsAgree(s.world.conn)
    ensures var es := [Lost(b), Reconnect(b), Restore(b, {})];
            && Feasible(s, es)
            && b in Run(s, es).world.conn.managers
            && Run(s, es).world.conn.managers[b].client.session == Requested(s.world.conn.managers[b].subs, {})
            && SessionsAgree(Run(s, es).world.conn)
  {
    LostAndRestored(s.world.conn, b);
    RunThree(s, Lost(b), Reconnect(b), Restore(b, {}));
  }
}
