/** The reference counts over whole runs: retry passes, every step of the machine, and
    every sequence of steps. */
module ExactRuns {
  import opened Streams
  import opened Validation
  import opened ConnectorSpec
  import opened LightdbSpec
  import opened EventsSpec
  import opened IngestSpec
  import opened RegistrySpec
  import opened Machine
  import opened RefCount

  // ---- Retry passes ----

  /** The registrations a pass over `order` gets through. */
  function Moved(c: Conn, order: seq<string>, answers: seq<Suback>): set<string>
    requires |order| == |answers|
    decreases |order|
  {
    if order == [] then {}
    else if order[0] !in c.failed then Moved(c, order[1..], answers[1..])
    else
      (if RegisterSucceeds(c, c.failed[order[0]], answers[0]) then {order[0]} else {})
      + Moved(RetryOne(c, order[0], answers[0]), order[1..], answers[1..])
  }

  /** The members of `ids` whose waiting source is the pair. */
  function WaitingFor(failed: map<string, MQTTSource>, ids: set<string>, b: string, t: string): set<string> {
    set id | id in ids && id in failed && failed[id].brokerURL == b && failed[id].topic == t
  }

  lemma RetryOneEffect(c: Conn, id: string, sub: Suback)
    requires id in c.failed
    ensures var c1 := RetryOne(c, id, sub);
            && (NoDeadEntry(c) ==> NoDeadEntry(c1))
            && if RegisterSucceeds(c, c.failed[id], sub)
               then c1.failed == c.failed - {id} && Shifted(c, c1, c.failed[id], 1)
               else c1 == c
  {
    RegisterEffect(c, c.failed[id], sub);
    var r, c1 := Register(c, c.failed[id], sub), RetryOne(c, id, sub);
    assert forall b, t :: Receivers(c1, b, t) == Receivers(r.conn, b, t);
  }

  /** One more registration got through ahead of the others. */
  lemma WaitingForOneMore(failed: map<string, MQTTSource>, id: string, later: set<string>)
    requires id in failed && id !in later
    ensures forall b, t :: |WaitingFor(failed, {id} + later, b, t)|
                        == Unit(failed[id].brokerURL == b && failed[id].topic == t) + |WaitingFor(failed - {id}, later, b, t)|
  {
    forall b, t
      ensures |WaitingFor(failed, {id} + later, b, t)|
           == Unit(failed[id].brokerURL == b && failed[id].topic == t) + |WaitingFor(failed - {id}, later, b, t)|
    {
      var own := if failed[id].brokerURL == b && failed[id].topic == t then {id} else {};
      assert WaitingFor(failed, {id} + later, b, t) == own + WaitingFor(failed - {id}, later, b, t);
    }
  }

  /** What a pass did: the registrations in `moved`, and no others, left the table, and each
      added one receiver to its pair. */
  ghost predicate Moves(c: Conn, c1: Conn, moved: set<string>) {
    && moved <= c.failed.Keys
    && c1.failed == c.failed - moved
    && forall b, t :: Receivers(c1, b, t) == Receivers(c, b, t) + |WaitingFor(c.failed, moved, b, t)|
  }

  lemma MovesOneMore(c: Conn, c1: Conn, c2: Conn, id: string, later: set<string>)
    requires id in c.failed && c1.failed == c.failed - {id} && Shifted(c, c1, c.failed[id], 1)
    requires Moves(c1, c2, later)
    ensures Moves(c, c2, {id} + later)
  {
    WaitingForOneMore(c.failed, id, later);
    forall b, t ensures Receivers(c2, b, t) == Receivers(c, b, t) + |WaitingFor(c.failed, {id} + later, b, t)| {
      assert Receivers(c2, b, t) == Receivers(c1, b, t) + |WaitingFor(c1.failed, later, b, t)|;
    }
  }

  /** In any order, with any answers, a pass moves exactly the successes from the table into
      the counts. */
  lemma {:induction false} RetryPassMoves(c: Conn, order: seq<string>, answers: seq<Suback>)
    requires |order| == |answers|
    ensures Moves(c, RetryPass(c, order, answers), Moved(c, order, answers))
    decreases |order|
  {
    if order == [] {
      assert forall b, t :: WaitingFor(c.failed, {}, b, t) == {};
      assert c.failed - {} == c.failed;
    } else {
      var id := order[0];
      var c1 := if id in c.failed then RetryOne(c, id, answers[0]) else c;
      var later := Moved(c1, order[1..], answers[1..]);
      RetryPassMoves(c1, order[1..], answers[1..]);
      if id in c.failed {
        RetryOneEffect(c, id, answers[0]);
        if RegisterSucceeds(c, c.failed[id], answers[0]) {
          MovesOneMore(c, c1, RetryPass(c1, order[1..], answers[1..]), id, later);
        } else {
          assert {} + later == later;
        }
      }
    }
  }

  /** A pass keeps the counts exact. */
  lemma {:induction false} RetryPassExact(c: Conn, reg: Registry, adds: map<nat, DataStream>, order: seq<string>, answers: seq<Suback>)
    requires Encodes(c, reg, adds) && |order| == |answers|
    ensures Encodes(RetryPass(c, order, answers), reg, adds)
    decreases |order|
  {
    if order != [] {
      var id := order[0];
      var c1 := if id in c.failed then RetryOne(c, id, answers[0]) else c;
      if id in c.failed {
        RetryOneEffect(c, id, answers[0]);
        HoldersChange(reg, c.failed, reg, c1.failed, id);
        forall b, t ensures Receivers(c1, b, t) == Expected(c1, reg, adds, b, t) {
          assert Receivers(c, b, t) == Expected(c, reg, adds, b, t);
        }
      }
      RetryPassExact(c1, reg, adds, order[1..], answers[1..]);
    }
  }

  ghost predicate AllConnected(c: Conn) {
    forall b :: b in c.managers ==> c.managers[b].client.connected
  }

  /** When every session is up and the broker answers every call, a pass empties the table. */
  lemma {:induction false} RetryPassEmpties(c: Conn, order: seq<string>, answers: seq<Suback>)
    requires |order| == |answers| && AllConnected(c)
    requires forall i :: 0 <= i < |answers| ==> !answers[i].NoSuback?
    requires forall id :: id in c.failed ==> id in order
    ensures RetryPass(c, order, answers).failed == map[]
    decreases |order|
  {
    if order != [] {
      var id := order[0];
      assert order == [id] + order[1..];
      var c1 := if id in c.failed then RetryOne(c, id, answers[0]) else c;
      if id in c.failed {
        RetryOneEffect(c, id, answers[0]);
      }
      RetryPassEmpties(c1, order[1..], answers[1..]);
    }
  }

  // ---- Every step ----

  /** When a step keeps the counts exact. Only three kinds of step can spoil them. */
  ghost predicate Keeps(s: Sys, e: Event)
    requires Enabled(s, e)
  {
    var c := s.world.conn;
    match e
    case AddWrite(k) => s.adds[k].name !in s.reg || s.adds[k].source.mqtt.None?
    case UpdateEnter(name, ds, _, broker) =>
      name in s.reg && AcceptsUpdate(ds, s.reg[name]) ==>
        UpdateKeeps(c, s.reg[name], Modified(s.reg[name], ds), broker.unsub, broker.sub)
    case DeleteEnter(name, store, broker) =>
      name in s.reg && DropSeries(s.world.store, name, store.stored).ok ==> DeleteKeeps(c, s.reg[name], broker.unsub)
    case _ => true
  }

  lemma SameCounts(c: Conn, c1: Conn, reg: Registry, adds: map<nat, DataStream>)
    requires SameSubs(c, c1)
    ensures Encodes(c, reg, adds) <==> Encodes(c1, reg, adds)
  {
    assert forall b, t :: Receivers(c, b, t) == Receivers(c1, b, t);
    assert forall b, t :: Expected(c, reg, adds, b, t) == Expected(c1, reg, adds, b, t);
  }

  lemma AddEnterExact(s: Sys, k: nat, ds: DataStream, store: Reply, broker: Reply)
    requires Enabled(s, AddEnter(k, ds, store, broker)) && Exact(s)
    ensures Exact(Step(s, AddEnter(k, ds, store, broker)))
  {
    ServiceFanOut(s.world, ds, ds, store, broker);
    CreateHandlerExact(s.world.conn, s.reg, s.adds, k, ds, broker.sub);
  }

  lemma UpdateEnterExact(s: Sys, name: string, ds: DataStream, store: Reply, broker: Reply)
    requires WellFormed(s) && Enabled(s, UpdateEnter(name, ds, store, broker)) && Exact(s)
    ensures Exact(Step(s, UpdateEnter(name, ds, store, broker))) <==> Keeps(s, UpdateEnter(name, ds, store, broker))
  {
    if name in s.reg && AcceptsUpdate(ds, s.reg[name]) {
      var prev := s.reg[name];
      var next := Modified(prev, ds);
      ServiceFanOut(s.world, next, prev, store, broker);
      UpdateHandlerExact(s.world.conn, s.reg, prev, next, broker.unsub, broker.sub);
    }
  }

  lemma DeleteEnterExact(s: Sys, name: string, store: Reply, broker: Reply)
    requires WellFormed(s) && Enabled(s, DeleteEnter(name, store, broker)) && Exact(s)
    ensures Exact(Step(s, DeleteEnter(name, store, broker))) <==> Keeps(s, DeleteEnter(name, store, broker))
  {
    if name in s.reg {
      ServiceFanOut(s.world, s.reg[name], s.reg[name], store, broker);
      DeleteHandlerExact(s.world.conn, s.reg, s.reg[name], broker.unsub);
    }
  }

  lemma AddWriteStepExact(s: Sys, k: nat)
    requires Enabled(s, AddWrite(k)) && WellFormed(s) && Exact(s)
    ensures Exact(Step(s, AddWrite(k))) <==> Keeps(s, AddWrite(k))
  {
    AddWriteExact(s.world.conn, s.reg, s.adds, k);
  }

  lemma RetryStepExact(s: Sys, order: seq<string>, answers: seq<Suback>)
    requires Enabled(s, Retry(order, answers)) && Exact(s)
    ensures Exact(Step(s, Retry(order, answers)))
  {
    RetryPassExact(s.world.conn, View(s), s.adds, order, answers);
  }

  /** The other steps leave the managers' subscriptions and the waiting table as they are. */
  lemma QuietStepExact(s: Sys, e: Event)
    requires WellFormed(s) && Enabled(s, e) && Exact(s)
    requires e.WriterWrite? || e.Lost? || e.Reconnect? || e.Restore? || e.Submit? || e.OnMessage? || e.Write?
    ensures Exact(Step(s, e))
  {
    var c, c1 := s.world.conn, Step(s, e).world.conn;
    if e.Lost? || e.Reconnect? || e.Restore? {
      SessionsKeepSubs(c, e.url, if e.Restore? then e.refused else {});
    }
    assert SameSubs(c, c1);
    SameCounts(c, c1, View(s), s.adds);
  }

  /** From an exact state, a step leads to an exact state if and only if its guard holds. */
  lemma StepExact(s: Sys, e: Event)
    requires WellFormed(s) && Enabled(s, e) && Exact(s)
    ensures Exact(Step(s, e)) <==> Keeps(s, e)
  {
    match e
    case AddEnter(k, ds, store, broker) => AddEnterExact(s, k, ds, store, broker);
    case AddWrite(k) => AddWriteStepExact(s, k);
    case UpdateEnter(name, ds, store, broker) => UpdateEnterExact(s, name, ds, store, broker);
    case DeleteEnter(name, store, broker) => DeleteEnterExact(s, name, store, broker);
    case Retry(order, answers) => RetryStepExact(s, order, answers);
    case _ => QuietStepExact(s, e);
  }

  // ---- Every run ----

  ghost predicate KeepsAlways(s: Sys, es: seq<Event>)
    requires Feasible(s, es)
    decreases |es|
  {
    es == [] || (Keeps(s, es[0]) && KeepsAlways(Step(s, es[0]), es[1..]))
  }

  /** Exact after every step of the run, not only at its end. */
  ghost predicate ExactAlways(s: Sys, es: seq<Event>)
    requires Feasible(s, es)
    decreases |es|
  {
    Exact(s) && (es == [] || ExactAlways(Step(s, es[0]), es[1..]))
  }

  /** A run that starts exact stays exact throughout if and only if each of its steps meets
      its guard in the state it is taken from. */
  lemma {:induction false} RunExact(s: Sys, es: seq<Event>)
    requires WellFormed(s) && Exact(s) && Feasible(s, es)
    ensures ExactAlways(s, es) <==> KeepsAlways(s, es)
    ensures KeepsAlways(s, es) ==> Exact(Run(s, es)) && WellFormed(Run(s, es))
    decreases |es|
  {
    if es != [] {
      StepExact(s, es[0]);
      StepWellFormed(s, es[0]);
      if Keeps(s, es[0]) {
        RunExact(Step(s, es[0]), es[1..]);
      }
    }
  }

  // ---- Consequences ----

  /** With no stream registered and no Add under way, no broker is kept connected. */
  lemma NothingRegisteredNothingKept(s: Sys)
    requires Exact(s) && View(s) == map[] && s.adds == map[]
    ensures s.world.conn.managers == map[] && s.world.conn.failed == map[]
  {
    var c := s.world.conn;
    forall b, t ensures Receivers(c, b, t) == 0 {
      assert Receivers(c, b, t) == Expected(c, View(s), s.adds, b, t);
    }
    assert forall b, t :: b in c.managers && t in c.managers[b].subs ==> Receivers(c, b, t) >= 1;
  }

  /** Two runs that end with the same registry and nothing waiting or under way have the
      same managers, topics and counts, however they got there. */
  lemma SameRegistrySameCounts(s1: Sys, s2: Sys)
    requires Exact(s1) && Exact(s2) && View(s1) == View(s2)
    requires s1.adds == s2.adds && s1.world.conn.failed.Keys == s2.world.conn.failed.Keys
    ensures var c1, c2 := s1.world.conn, s2.world.conn;
            && c1.managers.Keys == c2.managers.Keys
            && forall b :: b in c1.managers ==>
                 && c1.managers[b].subs.Keys == c2.managers[b].subs.Keys
                 && forall t :: t in c1.managers[b].subs ==> c1.managers[b].subs[t].receivers == c2.managers[b].subs[t].receivers
  {
    CountsDetermineEntries(s1.world.conn, s2.world.conn) by {
      forall b, t ensures Receivers(s1.world.conn, b, t) == Receivers(s2.world.conn, b, t) {
        assert Receivers(s1.world.conn, b, t) == Expected(s1.world.conn, View(s1), s1.adds, b, t);
        assert Receivers(s2.world.conn, b, t) == Expected(s2.world.conn, View(s2), s2.adds, b, t);
        assert Holders(View(s1), s1.world.conn.failed, b, t) == Holders(View(s2), s2.world.conn.failed, b, t);
      }
    }
  }

  /** Without dead entries the nested maps are determined by the counts they encode. */
  lemma CountsDetermineEntries(c1: Conn, c2: Conn)
    requires NoDeadEntry(c1) && NoDeadEntry(c2)
    requires forall b, t :: Receivers(c1, b, t) == Receivers(c2, b, t)
    ensures c1.managers.Keys == c2.managers.Keys
    ensures forall b :: b in c1.managers ==> c1.managers[b].subs.Keys == c2.managers[b].subs.Keys
    ensures forall b, t :: b in c1.managers && t in c1.managers[b].subs ==>
              c1.managers[b].subs[t].receivers == c2.managers[b].subs[t].receivers
  {
    EntriesIncluded(c1, c2);
    EntriesIncluded(c2, c1);
  }

  lemma EntriesIncluded(c1: Conn, c2: Conn)
    requires NoDeadEntry(c1)
    requires forall b, t :: Receivers(c1, b, t) == Receivers(c2, b, t)
    ensures forall b :: b in c1.managers ==> b in c2.managers && c1.managers[b].subs.Keys <= c2.managers[b].subs.Keys
    ensures forall b, t :: b in c1.managers && t in c1.managers[b].subs ==>
              c1.managers[b].subs[t].receivers == c2.managers[b].subs[t].receivers
  {
    forall b, t | b in c1.managers && t in c1.managers[b].subs
      ensures b in c2.managers && t in c2.managers[b].subs
      ensures c1.managers[b].subs[t].receivers == c2.managers[b].subs[t].receivers
    {
      assert Receivers(c1, b, t) == Receivers(c2, b, t);
    }
    forall b | b in c1.managers ensures b in c2.managers {
      var t :| t in c1.managers[b].subs;
    }
  }
}
