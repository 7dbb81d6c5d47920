/** The QoS of subscriptions over every run of the service on LevelDB, from the start of the
    process on. */
module LevelQos {
  import opened Wrappers
  import opened Streams
  import opened ConnectorSpec
  import opened LightdbSpec
  import opened EventsSpec
  import opened RegistrySpec
  import opened Backends
  import opened Qos
  import opened LevelRuns
  import opened LevelView

  /** The QoS at which an action opens the pair. An Update never opens one. */
  ghost function OpensIn(s: Service, a: Action, b: string, t: string): Option<Byte>
    requires Enabled(s, a)
  {
    match a
    case AddNotify(k, store, broker, _) =>
      if store.stored && s.adds[k].name !in s.world.store then Opens(s.world.conn, s.adds[k].source.mqtt, broker.sub, b, t) else None
    case Retry(order, answers) => OpensInPass(s.world.conn, order, answers, b, t)
    case _ => None
  }

  ghost predicate ClosesIn(s: Service, a: Action, b: string, t: string) {
    && a.DeleteNotify? && Reaches(s, a.name, a.store)
    && Closes(s.world.conn, Reg(s)[a.name].source.mqtt, a.broker.unsub, b, t)
  }

  /** An action that opens the pair sets its QoS, and no other changes it. */
  lemma StepQos(s: Service, a: Action, b: string, t: string)
    requires Sound(s) && Enabled(s, a)
    ensures QosOf(Step(s, a).world.conn, b, t)
         == OrElse(OpensIn(s, a, b, t), if ClosesIn(s, a, b, t) then None else QosOf(s.world.conn, b, t))
  {
    var c := s.world.conn;
    if a.AddNotify? {
      ServiceFanOut(s.world, s.adds[a.k], s.adds[a.k], a.store, a.broker);
      CreateQos(c, s.adds[a.k], a.broker.sub, b, t);
    } else if a.DeleteNotify? {
      GetReads(s.level.db, a.name);
      if a.name in Reg(s) {
        ServiceFanOut(s.world, Reg(s)[a.name], Reg(s)[a.name], a.store, a.broker);
        DeleteQos(c, Reg(s)[a.name], a.broker.unsub, b, t);
      }
    } else if a.Retry? {
      RetryPassQos(c, a.order, a.answers, b, t);
    } else if a.UpdateNotify? {
      UpdateHearsNothing(s, a.k, a.name, a.ds, a.store, a.broker);
    }
  }

  ghost predicate Undisturbed(s: Service, actions: seq<Action>, b: string, t: string)
    requires Feasible(s, actions)
    decreases |actions|
  {
    actions == []
    || (OpensIn(s, actions[0], b, t).None? && !ClosesIn(s, actions[0], b, t) && Undisturbed(Step(s, actions[0]), actions[1..], b, t))
  }

  ghost predicate OpenedAt(s: Service, actions: seq<Action>, b: string, t: string, q: Byte)
    requires Feasible(s, actions)
    decreases |actions|
  {
    && actions != []
    && var s1 := Step(s, actions[0]);
       || OpenedAt(s1, actions[1..], b, t, q)
       || (OpensIn(s, actions[0], b, t) == Some(q) && Undisturbed(s1, actions[1..], b, t))
  }

  lemma {:induction false} RunQos(s: Service, actions: seq<Action>, b: string, t: string, q: Byte)
    requires Sound(s) && Feasible(s, actions)
    ensures QosOf(Run(s, actions).world.conn, b, t) == Some(q)
       <==> OpenedAt(s, actions, b, t, q) || (QosOf(s.world.conn, b, t) == Some(q) && Undisturbed(s, actions, b, t))
    decreases |actions|
  {
    if actions != [] {
      StepQos(s, actions[0], b, t);
      StepSound(s, actions[0]);
      RunQos(Step(s, actions[0]), actions[1..], b, t, q);
    }
  }

  /** In the life of a process a subscription has the QoS of the stream that opened it last: one
      of an action of the run or, if none has opened or closed it, the first of the database
      whose register went through while the service started. */
  lemma LifetimeQos(l: LevelState, store: Store, answers: seq<Suback>, actions: seq<Action>, b: string, t: string, q: Byte)
    requires SoundDb(l.db) && |answers| == |Listing(Contents(l.db))|
    requires Feasible(Started(l, store, answers), actions)
    ensures var s := Started(l, store, answers);
            QosOf(Run(s, actions).world.conn, b, t) == Some(q)
            <==> || OpenedAt(s, actions, b, t, q)
                 || (OpensAtStart(EMPTY, Listing(Contents(l.db)), answers, b, t) == Some(q) && Undisturbed(s, actions, b, t))
  {
    StartQos(EMPTY, Listing(Contents(l.db)), answers, b, t);
    RunQos(Started(l, store, answers), actions, b, t, q);
  }
}
