/** The brokers' sessions and the subscriptions without receivers over every run of the service
    on LevelDB, from the start of the process on. */
module LevelView {
  import opened Streams
  import opened ConnectorSpec
  import opened LightdbSpec
  import opened EventsSpec
  import opened RegistrySpec
  import opened Backends
  import opened RefCount
  import opened Sessions
  import opened DeadEntries
  import opened LevelRuns

  // ---- The sessions ----

  /** The store lets a Delete through to the connector. */
  predicate Reaches(s: Service, name: string, store: Reply) {
    name in Reg(s) && (store.stored || name !in s.world.store)
  }

  /** A Delete whose Unsubscribe is overtaken by the on-connect handler. An Update never leaves
      a topic. */
  ghost predicate SpoilsHosted(s: Service, a: Action) {
    && a.DeleteNotify? && Reaches(s, a.name, a.store)
    && DropStrays(s.world.conn, Reg(s)[a.name].source.mqtt, a.broker.unsub)
  }

  /** The actions in which a restored session is refused a topic it does not hold. */
  ghost predicate SpoilsComplete(s: Service, a: Action)
    requires Enabled(s, a)
  {
    var c := s.world.conn;
    match a
    case AddNotify(k, store, broker, _) =>
      store.stored && s.adds[k].name !in s.world.store && CreateRefused(c, s.adds[k], broker.sub)
    case DeleteNotify(_, name, store, broker) =>
      Reaches(s, name, store) && DropLeavesOut(c, Reg(s)[name].source.mqtt, broker.unsub)
    case Retry(order, answers) => PassRefused(c, order, answers)
    case Restore(url, refused) => RestoreLeavesOut(c, url, refused)
    case _ => false
  }

  /** What the connector is after a Delete's notification. */
  lemma DeleteNotifyConnector(s: Service, k: nat, name: string, store: Reply, broker: Reply)
    requires Sound(s) && k !in s.deletes
    ensures Step(s, DeleteNotify(k, name, store, broker)).world.conn
         == if Reaches(s, name, store) then DeleteHandler(s.world.conn, Reg(s)[name], broker.unsub).conn else s.world.conn
  {
    GetReads(s.level.db, name);
    if name in Reg(s) {
      ServiceFanOut(s.world, Reg(s)[name], Reg(s)[name], store, broker);
    }
  }

  lemma DeleteNotifySessions(s: Service, k: nat, name: string, store: Reply, broker: Reply)
    requires Sound(s) && k !in s.deletes && Hosted(s.world.conn)
    ensures var a := DeleteNotify(k, name, store, broker);
            var c1 := Step(s, a).world.conn;
            && (Hosted(c1) <==> !SpoilsHosted(s, a))
            && (NoneLacks(s.world.conn) ==> (NoneLacks(c1) <==> !SpoilsComplete(s, a)))
  {
    DeleteNotifyConnector(s, k, name, store, broker);
    if Reaches(s, name, store) {
      DeleteSessions(s.world.conn, Reg(s)[name], broker.unsub);
    }
  }

  lemma QuietSessions(s: Service, a: Action)
    requires Enabled(s, a) && Hosted(s.world.conn) && !a.AddNotify? && !a.DeleteNotify?
    ensures var c1 := Step(s, a).world.conn;
            Hosted(c1) && (NoneLacks(s.world.conn) ==> (NoneLacks(c1) <==> !SpoilsComplete(s, a)))
  {
    var c := s.world.conn;
    if a.Retry? {
      RetryPassSessions(c, a.order, a.answers);
    } else if a.Lost? || a.Reconnect? || a.Restore? {
      LifeSessions(c, a.url, if a.Restore? then a.refused else {});
    } else {
      if a.UpdateNotify? {
        UpdateHearsNothing(s, a.k, a.name, a.ds, a.store, a.broker);
      }
      SessionsIgnore(c, Step(s, a).world.conn);
    }
  }

  lemma StepSessions(s: Service, a: Action)
    requires Sound(s) && Enabled(s, a) && Hosted(s.world.conn)
    ensures var c1 := Step(s, a).world.conn;
            && (Hosted(c1) <==> !SpoilsHosted(s, a))
            && (NoneLacks(s.world.conn) ==> (NoneLacks(c1) <==> !SpoilsComplete(s, a)))
  {
    if a.AddNotify? {
      ServiceFanOut(s.world, s.adds[a.k], s.adds[a.k], a.store, a.broker);
      CreateSessions(s.world.conn, s.adds[a.k], a.broker.sub);
    } else if a.DeleteNotify? {
      DeleteNotifySessions(s, a.k, a.name, a.store, a.broker);
    } else {
      QuietSessions(s, a);
    }
  }

  ghost predicate NeverOvertaken(s: Service, actions: seq<Action>)
    requires Feasible(s, actions)
    decreases |actions|
  {
    actions == [] || (!SpoilsHosted(s, actions[0]) && NeverOvertaken(Step(s, actions[0]), actions[1..]))
  }

  ghost predicate HostedAlways(s: Service, actions: seq<Action>)
    requires Feasible(s, actions)
    decreases |actions|
  {
    Hosted(s.world.conn) && (actions == [] || HostedAlways(Step(s, actions[0]), actions[1..]))
  }

  lemma {:induction false} RunHosted(s: Service, actions: seq<Action>)
    requires Sound(s) && Feasible(s, actions) && Hosted(s.world.conn)
    ensures HostedAlways(s, actions) <==> NeverOvertaken(s, actions)
    decreases |actions|
  {
    if actions != [] {
      StepSessions(s, actions[0]);
      StepSound(s, actions[0]);
      if !SpoilsHosted(s, actions[0]) {
        RunHosted(Step(s, actions[0]), actions[1..]);
      }
    }
  }

  ghost predicate SpoilsNone(s: Service, actions: seq<Action>)
    requires Feasible(s, actions)
    decreases |actions|
  {
    actions == []
    || (!SpoilsHosted(s, actions[0]) && !SpoilsComplete(s, actions[0]) && SpoilsNone(Step(s, actions[0]), actions[1..]))
  }

  ghost predicate AgreesAlways(s: Service, actions: seq<Action>)
    requires Feasible(s, actions)
    decreases |actions|
  {
    SessionsAgree(s.world.conn) && (actions == [] || AgreesAlways(Step(s, actions[0]), actions[1..]))
  }

  lemma {:induction false} RunAgrees(s: Service, actions: seq<Action>)
    requires Sound(s) && Feasible(s, actions) && SessionsAgree(s.world.conn)
    ensures AgreesAlways(s, actions) <==> SpoilsNone(s, actions)
    ensures SpoilsNone(s, actions) ==> SessionsAgree(Run(s, actions).world.conn)
    decreases |actions|
  {
    if actions != [] {
      StepSessions(s, actions[0]);
      StepSound(s, actions[0]);
      if !SpoilsHosted(s, actions[0]) && !SpoilsComplete(s, actions[0]) {
        RunAgrees(Step(s, actions[0]), actions[1..]);
      }
    }
  }

  // ---- Dead entries ----

  /** A Delete that takes a last receiver whose Unsubscribe is not answered. */
  ghost predicate LeavesDead(s: Service, a: Action) {
    && a.DeleteNotify? && Reaches(s, a.name, a.store)
    && LeavesLast(s.world.conn, Reg(s)[a.name].source.mqtt, a.broker.unsub)
  }

  lemma StepAlive(s: Service, a: Action)
    requires Sound(s) && Enabled(s, a) && NoDeadEntry(s.world.conn)
    ensures NoDeadEntry(Step(s, a).world.conn) <==> !LeavesDead(s, a)
  {
    var c := s.world.conn;
    if a.AddNotify? {
      ServiceFanOut(s.world, s.adds[a.k], s.adds[a.k], a.store, a.broker);
      CreateAlive(c, s.adds[a.k], a.broker.sub);
    } else if a.DeleteNotify? {
      GetReads(s.level.db, a.name);
      if a.name in Reg(s) {
        ServiceFanOut(s.world, Reg(s)[a.name], Reg(s)[a.name], a.store, a.broker);
        DeleteAlive(c, Reg(s)[a.name], a.broker.unsub);
      }
    } else if a.Retry? {
      RetryAlive(c, a.order, a.answers);
    } else {
      if a.UpdateNotify? {
        UpdateHearsNothing(s, a.k, a.name, a.ds, a.store, a.broker);
      }
      SameEntries(c, Step(s, a).world.conn);
    }
  }

  ghost predicate NeverLeavesDead(s: Service, actions: seq<Action>)
    requires Feasible(s, actions)
    decreases |actions|
  {
    actions == [] || (!LeavesDead(s, actions[0]) && NeverLeavesDead(Step(s, actions[0]), actions[1..]))
  }

  ghost predicate AliveAlways(s: Service, actions: seq<Action>)
    requires Feasible(s, actions)
    decreases |actions|
  {
    NoDeadEntry(s.world.conn) && (actions == [] || AliveAlways(Step(s, actions[0]), actions[1..]))
  }

  lemma {:induction false} RunAlive(s: Service, actions: seq<Action>)
    requires Sound(s) && Feasible(s, actions) && NoDeadEntry(s.world.conn)
    ensures AliveAlways(s, actions) <==> NeverLeavesDead(s, actions)
    decreases |actions|
  {
    if actions != [] {
      StepAlive(s, actions[0]);
      StepSound(s, actions[0]);
      if !LeavesDead(s, actions[0]) {
        RunAlive(Step(s, actions[0]), actions[1..]);
      }
    }
  }

  // ---- From the start of the process ----

  ghost predicate NoneRestored(c: Conn) {
    forall b :: b in c.managers ==> !c.managers[b].client.restored
  }

  lemma {:induction false} StartAgrees(c: Conn, streams: seq<DataStream>, answers: seq<Suback>)
    requires |streams| == |answers| && SessionsAgree(c) && NoneRestored(c) && NoDeadEntry(c)
    ensures var c1 := StartAll(c, streams, answers).conn; SessionsAgree(c1) && NoneRestored(c1) && NoDeadEntry(c1)
    decreases |streams|
  {
    if streams != [] {
      var ds := streams[0];
      if ds.source.srcType == MQTT_TYPE && ds.source.mqtt.Some? {
        var src := ds.source.mqtt.value;
        var r, o := Register(c, src, answers[0]), StartOne(c, ds, answers[0]);
        RegisterSessions(c, src, answers[0]);
        RegisterEffect(c, src, answers[0]);
        SessionsIgnore(r.conn, o.conn);
        SameEntries(r.conn, o.conn);
        assert NoneRestored(o.conn);
      }
      if StartOne(c, ds, answers[0]).status == Ok {
        StartAgrees(StartOne(c, ds, answers[0]).conn, streams[1..], answers[1..]);
      }
    }
  }

  /** A process started over a database, whatever the brokers answer while it starts: throughout
      the run that follows no session holds a dropped topic if and only if no Unsubscribe is
      overtaken, the sessions agree with the connector if and only if besides none is refused a
      new topic, and every count is at least 1 if and only if no last Unsubscribe is unanswered. */
  lemma LifetimeView(l: LevelState, store: Store, answers: seq<Suback>, actions: seq<Action>)
    requires SoundDb(l.db) && |answers| == |Listing(Contents(l.db))|
    requires Feasible(Started(l, store, answers), actions)
    ensures var s := Started(l, store, answers);
            && (HostedAlways(s, actions) <==> NeverOvertaken(s, actions))
            && (AgreesAlways(s, actions) <==> SpoilsNone(s, actions))
            && (AliveAlways(s, actions) <==> NeverLeavesDead(s, actions))
  {
    var s := Started(l, store, answers);
    StartAgrees(EMPTY, Listing(Contents(l.db)), answers);
    RunHosted(s, actions);
    RunAgrees(s, actions);
    RunAlive(s, actions);
  }

  /** When besides the counts stay exact, a restored session holds a topic if and only if a
      stream that should be counted, and is not waiting, wants it from that broker. */
  lemma RestoredSessionsServeTheEntries(s: Service, actions: seq<Action>, b: string, t: string)
    requires Sound(s) && LevelRuns.Exact(s) && SessionsAgree(s.world.conn)
    requires Feasible(s, actions) && KeepsAlways(s, actions) && SpoilsNone(s, actions)
    ensures var s1 := Run(s, actions);
            var c1 := s1.world.conn;
            b in c1.managers && c1.managers[b].client.restored ==>
              (t in c1.managers[b].client.session <==> exists n :: Holds(View(s1), c1.failed, n, b, t))
  {
    RunExact(s, actions);
    RunAgrees(s, actions);
    var s1 := Run(s, actions);
    ExactAtTheEnd(s, actions);
    if b in s1.world.conn.managers && s1.world.conn.managers[b].client.restored {
      ServesHolders(s1.world.conn, View(s1), map[], b, t);
    }
  }

  lemma {:induction false} ExactAtTheEnd(s: Service, actions: seq<Action>)
    requires Feasible(s, actions) && ExactAlways(s, actions)
    ensures LevelRuns.Exact(Run(s, actions))
    decreases |actions|
  {
    if actions != [] {
      ExactAtTheEnd(Step(s, actions[0]), actions[1..]);
    }
  }
}
