/** The connector's reference counts against the registry. */
module RefCount {
  import opened Wrappers
  import opened Streams
  import opened ConnectorSpec
  import opened IngestSpec
  import opened Machine

  /** What the nested maps count for topic `t` of broker `b`. */
  function Receivers(c: Conn, b: string, t: string): int {
    if b in c.managers && t in c.managers[b].subs then c.managers[b].subs[t].receivers else 0
  }

  /** No manager without subscriptions, no subscription without receivers. */
  ghost predicate NoDeadEntry(c: Conn) {
    forall b :: b in c.managers ==>
      && c.managers[b].subs != map[]
      && forall t :: t in c.managers[b].subs ==> c.managers[b].subs[t].receivers >= 1
  }

  /** The counts of `c1` are those of `c` with `step` added for the source's pair. */
  ghost predicate Shifted(c: Conn, c1: Conn, src: MQTTSource, step: int) {
    forall b, t :: Receivers(c1, b, t) == Receivers(c, b, t) + (if src.brokerURL == b && src.topic == t then step else 0)
  }

  predicate RegisterSucceeds(c: Conn, src: MQTTSource, sub: Suback) {
    if src.brokerURL !in c.managers then !sub.NoSuback?
    else src.topic in c.managers[src.brokerURL].subs || Answered(c, src.brokerURL, !sub.NoSuback?)
  }

  /** A manager whose topic has one receiver more than before, or is new with one. */
  lemma OneMoreReceiver(c: Conn, src: MQTTSource, m: ManagerState, qos: Byte)
    requires var b, t := src.brokerURL, src.topic;
             m.subs == (if b in c.managers then c.managers[b].subs else map[])[t := SubState(qos, Receivers(c, b, t) + 1)]
    ensures Shifted(c, SetManager(c, src.brokerURL, m), src, 1)
    ensures NoDeadEntry(c) ==> NoDeadEntry(SetManager(c, src.brokerURL, m))
  {
    assert src.topic in m.subs;
  }

  /** A register that succeeds counts one more receiver; one that fails changes nothing. */
  lemma RegisterEffect(c: Conn, src: MQTTSource, sub: Suback)
    ensures var r := Register(c, src, sub);
            && r.conn.failed == c.failed && r.conn.cache == c.cache
            && (NoDeadEntry(c) ==> NoDeadEntry(r.conn))
            && (if RegisterSucceeds(c, src, sub) then r.status == Ok && Shifted(c, r.conn, src, 1)
                else r.status == Err && r.conn == c)
  {
    if RegisterSucceeds(c, src, sub) {
      var b, t := src.brokerURL, src.topic;
      var m := Register(c, src, sub).conn.managers[b];
      OneMoreReceiver(c, src, m, m.subs[t].qos);
    }
  }

  predicate Counted(c: Conn, src: MQTTSource) {
    src.brokerURL in c.managers && src.topic in c.managers[src.brokerURL].subs
  }

  predicate UnregisterSucceeds(c: Conn, src: MQTTSource, unsub: Unsuback) {
    Receivers(c, src.brokerURL, src.topic) != 1 || Answered(c, src.brokerURL, !unsub.NoUnsuback?)
  }

  /** Leaving a source goes through: its broker has no client, or its topic is counted and the
      last receiver's Unsubscribe is answered. */
  predicate LeaveSucceeds(c: Conn, src: MQTTSource, unsub: Unsuback) {
    src.brokerURL !in c.managers || (Counted(c, src) && UnregisterSucceeds(c, src, unsub))
  }

  lemma UnregisterStatus(c: Conn, src: MQTTSource, unsub: Unsuback)
    ensures Unregister(c, src, unsub).status == Ok <==> LeaveSucceeds(c, src, unsub)
  {
  }

  /** Taking a source after leaving another goes through. When the last receiver leaves the
      same broker, its session is up or will be dialled anew. */
  predicate TakeSucceeds(c: Conn, left: Option<MQTTSource>, src: MQTTSource, sub: Suback) {
    if left.Some? && left.value.brokerURL == src.brokerURL && Receivers(c, src.brokerURL, left.value.topic) == 1
    then !sub.NoSuback? || (src.topic != left.value.topic && src.topic in c.managers[src.brokerURL].subs)
    else RegisterSucceeds(c, src, sub)
  }

  lemma RegisterAfterLeaving(c: Conn, left: MQTTSource, src: MQTTSource, unsub: Unsuback, sub: Suback)
    requires LeaveSucceeds(c, left, unsub)
    ensures RegisterSucceeds(Unregister(c, left, unsub).conn, src, sub) <==> TakeSucceeds(c, Some(left), src, sub)
  {
    var b, t := left.brokerURL, left.topic;
    if Receivers(c, b, t) == 1 {
      var rest := WithoutSubscription(Recounted(c.managers[b], t, -1), t, unsub).subs;
      assert rest.Keys == c.managers[b].subs.Keys - {t};
      assert rest == map[] <==> rest.Keys == {};
    }
  }

  /** When the update handler succeeds. */
  predicate UpdateSucceeds(c: Conn, prev: Option<MQTTSource>, next: Option<MQTTSource>, unsub: Unsuback, sub: Suback) {
    prev == next
    || ((prev.None? || LeaveSucceeds(c, prev.value, unsub))
        && (next.None? || TakeSucceeds(c, prev, next.value, sub)))
  }

  lemma RegisterStatus(c: Conn, src: MQTTSource, sub: Suback)
    ensures Register(c, src, sub).status == Ok <==> RegisterSucceeds(c, src, sub)
  {
  }

  /** The guards read the managers and the waiting table, not the cache. */
  lemma GuardsIgnore(c: Conn, c1: Conn, left: Option<MQTTSource>, src: MQTTSource, unsub: Unsuback, sub: Suback)
    requires c1.managers == c.managers
    ensures RegisterSucceeds(c1, src, sub) == RegisterSucceeds(c, src, sub)
    ensures LeaveSucceeds(c1, src, unsub) == LeaveSucceeds(c, src, unsub)
    ensures TakeSucceeds(c1, left, src, sub) == TakeSucceeds(c, left, src, sub)
  {
  }

  lemma SwapStatus(c: Conn, prev: DataStream, next: DataStream, unsub: Unsuback, sub: Suback)
    ensures SwapSource(c, prev, next, unsub, sub).status == Ok
       <==> && (prev.source.mqtt.None? || LeaveSucceeds(c, prev.source.mqtt.value, unsub))
            && (next.source.mqtt.None? || TakeSucceeds(c, prev.source.mqtt, next.source.mqtt.value, sub))
  {
    var p, n := prev.source.mqtt, next.source.mqtt;
    if p.Some? {
      var d := DropSource(c, prev, unsub);
      UnregisterStatus(c, p.value, unsub);
      if d.status == Ok && n.Some? {
        RegisterAfterLeaving(c, p.value, n.value, unsub, sub);
        GuardsIgnore(Unregister(c, p.value, unsub).conn, d.conn, p, n.value, unsub, sub);
        RegisterStatus(d.conn, n.value, sub);
      }
    } else if n.Some? {
      var c1 := c.(failed := c.failed - {prev.name});
      GuardsIgnore(c, c1, p, n.value, unsub, sub);
      RegisterStatus(c1, n.value, sub);
    }
  }

  lemma UpdateStatus(c: Conn, prev: DataStream, next: DataStream, unsub: Unsuback, sub: Suback)
    ensures UpdateHandler(c, prev, next, unsub, sub).status == Ok
       <==> UpdateSucceeds(c, prev.source.mqtt, next.source.mqtt, unsub, sub)
  {
    var c1 := FlushForUpdate(c, prev, next);
    var p, n := prev.source.mqtt, next.source.mqtt;
    SwapStatus(c1, prev, next, unsub, sub);
    if p.Some? {
      GuardsIgnore(c, c1, p, p.value, unsub, sub);
    }
    if n.Some? {
      GuardsIgnore(c, c1, p, n.value, unsub, sub);
    }
  }

  /** Releasing a topic without receivers leaves the counts alone. */
  lemma ReleasedEffect(c: Conn, b: string, t: string, unsub: Unsuback)
    requires b in c.managers && t in c.managers[b].subs && c.managers[b].subs[t].receivers == 0
    ensures var r := Released(c, b, t, unsub);
            && r.conn.failed == c.failed && r.conn.cache == c.cache
            && (forall x, y :: Receivers(r.conn, x, y) == Receivers(c, x, y))
            && if !Answered(c, b, !unsub.NoUnsuback?) then r == Outcome(c, Err)
               else r.status == Ok && r.conn.managers.Keys <= c.managers.Keys
                    && forall x :: x in r.conn.managers ==>
                         r.conn.managers[x].subs == (if x == b then c.managers[x].subs - {t} else c.managers[x].subs)
                         && (x == b ==> r.conn.managers[x].subs != map[])
  {
    var m := WithoutSubscription(c.managers[b], t, unsub);
    if Answered(c, b, !unsub.NoUnsuback?) {
      assert forall y :: y in c.managers[b].subs && y != t ==> y in m.subs;
    }
  }

  /** Unregistering a counted pair takes one receiver off. It fails only at the last
      receiver, when the broker does not answer, and then leaves an entry with none. */
  lemma UnregisterEffect(c: Conn, src: MQTTSource, unsub: Unsuback)
    requires NoDeadEntry(c)
    ensures var r := Unregister(c, src, unsub);
            && r.conn.failed == c.failed && r.conn.cache == c.cache
            && (Counted(c, src) ==>
                  && Shifted(c, r.conn, src, -1)
                  && (if UnregisterSucceeds(c, src, unsub) then r.status == Ok && NoDeadEntry(r.conn)
                      else r.status == Err && !NoDeadEntry(r.conn)))
            && (!Counted(c, src) ==>
                  && r.conn == c
                  && r.status == if src.brokerURL in c.managers then Panic else Ok)
  {
    if Counted(c, src) {
      var b, t := src.brokerURL, src.topic;
      var r, m := Unregister(c, src, unsub), Recounted(c.managers[b], t, -1);
      var c1 := SetManager(c, b, m);
      assert t in m.subs && m.subs != map[];
      assert Shifted(c, c1, src, -1);
      if m.subs[t].receivers == 0 {
        ReleasedEffect(c1, b, t, unsub);
      }
    }
  }

  // ---- The registry's side of the count ----

  /** Stream `n` should be counted for the pair: registered, asking for it, not waiting. */
  ghost predicate Holds(reg: Registry, failed: map<string, MQTTSource>, n: string, b: string, t: string) {
    n in reg && Wants(reg[n], b, t) && n !in failed
  }

  ghost function Holders(reg: Registry, failed: map<string, MQTTSource>, b: string, t: string): set<string> {
    set n | n in reg && Holds(reg, failed, n, b, t)
  }

  ghost function Entering(adds: map<nat, DataStream>, b: string, t: string): set<nat> {
    set k | k in adds && Wants(adds[k], b, t)
  }

  /** The streams that ask for topic `t` of broker `b`: registered and not waiting for a
      retry, or in an Add whose handlers have run. */
  ghost function Expected(c: Conn, reg: Registry, adds: map<nat, DataStream>, b: string, t: string): nat {
    |Holders(reg, c.failed, b, t)| + |Entering(adds, b, t)|
  }

  /** A waiting registration is a registered stream's own source. */
  ghost predicate WaitingKnown(reg: Registry, failed: map<string, MQTTSource>) {
    forall n :: n in failed ==> n in reg && Wants(reg[n], failed[n].brokerURL, failed[n].topic)
  }

  ghost predicate Balanced(c: Conn, reg: Registry, adds: map<nat, DataStream>) {
    forall b, t :: Receivers(c, b, t) == Expected(c, reg, adds, b, t)
  }

  /** The connector encodes exactly what should be subscribed. */
  ghost predicate Encodes(c: Conn, reg: Registry, adds: map<nat, DataStream>) {
    NoDeadEntry(c) && Balanced(c, reg, adds) && WaitingKnown(reg, c.failed)
  }

  ghost predicate Exact(s: Sys) {
    Encodes(s.world.conn, View(s), s.adds)
  }

  function Unit(p: bool): int {
    if p then 1 else 0
  }

  /** The two sides differ at most in what they say of stream `n`. */
  ghost predicate SameElsewhere(reg: Registry, failed: map<string, MQTTSource>, reg1: Registry, failed1: map<string, MQTTSource>,
                                n: string) {
    forall m :: m != n ==>
      && (m in reg <==> m in reg1)
      && (m in reg && m in reg1 ==> reg[m] == reg1[m])
      && (m in failed <==> m in failed1)
  }

  lemma CountWithout<T>(x: set<T>, y: set<T>, n: T)
    requires x - {n} == y - {n}
    ensures |y| == |x| + Unit(n in y) - Unit(n in x)
  {
    assert |x| == |x - {n}| + Unit(n in x);
    assert |y| == |y - {n}| + Unit(n in y);
  }

  /** When only stream `n` changes, only its own holding changes the number of holders. */
  lemma HoldersChange(reg: Registry, failed: map<string, MQTTSource>, reg1: Registry, failed1: map<string, MQTTSource>, n: string)
    requires SameElsewhere(reg, failed, reg1, failed1, n)
    ensures forall b, t :: |Holders(reg1, failed1, b, t)|
                        == |Holders(reg, failed, b, t)| + Unit(Holds(reg1, failed1, n, b, t)) - Unit(Holds(reg, failed, n, b, t))
  {
    forall b, t
      ensures |Holders(reg1, failed1, b, t)|
           == |Holders(reg, failed, b, t)| + Unit(Holds(reg1, failed1, n, b, t)) - Unit(Holds(reg, failed, n, b, t))
    {
      CountWithout(Holders(reg, failed, b, t), Holders(reg1, failed1, b, t), n);
    }
  }

  lemma EnteringChange(adds: map<nat, DataStream>, k: nat, ds: DataStream)
    requires k !in adds
    ensures forall b, t :: |Entering(adds[k := ds], b, t)| == |Entering(adds, b, t)| + Unit(Wants(ds, b, t))
  {
    forall b, t ensures |Entering(adds[k := ds], b, t)| == |Entering(adds, b, t)| + Unit(Wants(ds, b, t)) {
      assert Entering(adds[k := ds], b, t) == Entering(adds, b, t) + if Wants(ds, b, t) then {k} else {};
    }
  }

  // ---- Each handler, exactly ----

  lemma CacheDoesNotCount(c: Conn, c1: Conn, reg: Registry, adds: map<nat, DataStream>)
    requires c1 == c.(cache := c1.cache)
    ensures Encodes(c, reg, adds) <==> Encodes(c1, reg, adds)
    ensures forall b, t :: Receivers(c, b, t) == Receivers(c1, b, t)
  {
    assert forall b, t :: Receivers(c, b, t) == Receivers(c1, b, t);
    assert forall b, t :: Expected(c, reg, adds, b, t) == Expected(c1, reg, adds, b, t);
  }

  /** The create handler counts the stream for the Add it belongs to, or fails and
      changes nothing. */
  lemma CreateHandlerExact(c: Conn, reg: Registry, adds: map<nat, DataStream>, k: nat, ds: DataStream, sub: Suback)
    requires Encodes(c, reg, adds) && k !in adds
    ensures var o := CreateHandler(c, ds, sub);
            if o.status == Ok then Encodes(o.conn, reg, adds[k := ds]) else o.conn == c
  {
    var o := CreateHandler(c, ds, sub);
    EnteringChange(adds, k, ds);
    if ds.source.mqtt.Some? {
      RegisterEffect(c, ds.source.mqtt.value, sub);
    }
    if o.status == Ok {
      forall b, t ensures Receivers(o.conn, b, t) == Expected(o.conn, reg, adds[k := ds], b, t) {
        assert Receivers(c, b, t) == Expected(c, reg, adds, b, t);
      }
    }
  }

  /** The Add's write: the counts stay exact unless the name turns out to be taken and the
      new stream has a source, which the handlers have counted already. */
  lemma AddWriteExact(c: Conn, reg: Registry, adds: map<nat, DataStream>, k: nat)
    requires Encodes(c, reg, adds) && k in adds
    ensures var ds := adds[k];
            var reg1 := if ds.name in reg then reg else reg[ds.name := ds];
            Encodes(c, reg1, adds - {k}) <==> ds.name !in reg || ds.source.mqtt.None?
  {
    var ds := adds[k];
    var rest := adds - {k};
    var reg1 := if ds.name in reg then reg else reg[ds.name := ds];
    EnteringChange(rest, k, ds);
    assert rest[k := ds] == adds;
    HoldersChange(reg, c.failed, reg1, c.failed, ds.name);
    if ds.name !in reg || ds.source.mqtt.None? {
      forall b, t ensures Receivers(c, b, t) == Expected(c, reg1, rest, b, t) {
        assert Receivers(c, b, t) == Expected(c, reg, adds, b, t);
      }
    } else {
      var src := ds.source.mqtt.value;
      assert Receivers(c, src.brokerURL, src.topic) == Expected(c, reg, adds, src.brokerURL, src.topic);
      assert Receivers(c, src.brokerURL, src.topic) != Expected(c, reg1, rest, src.brokerURL, src.topic);
    }
  }

  /** When leaving a source keeps the counts exact. A waiting stream was never counted, so
      there must be no count for `unregister` to take off. */
  predicate DropKeeps(c: Conn, ds: DataStream, unsub: Unsuback)
    requires ds.source.mqtt.Some?
  {
    if ds.name in c.failed then !Counted(c, ds.source.mqtt.value)
    else UnregisterSucceeds(c, ds.source.mqtt.value, unsub)
  }

  /** What leaving a source does to the counts, whatever they are. */
  ghost predicate DropEffect(c: Conn, d: Outcome, ds: DataStream, unsub: Unsuback)
    requires ds.source.mqtt.Some?
  {
    var src := ds.source.mqtt.value;
    && d.conn.failed == (if d.status == Ok then c.failed - {ds.name} else c.failed)
    && Shifted(c, d.conn, src, if Counted(c, src) then -1 else 0)
    && (d.status != Err ==> NoDeadEntry(d.conn))
    && d.status ==
       if Counted(c, src) then (if UnregisterSucceeds(c, src, unsub) then Ok else Err)
       else if src.brokerURL in c.managers then Panic
       else Ok
  }

  lemma DropSourceEffect(c: Conn, ds: DataStream, unsub: Unsuback)
    requires NoDeadEntry(c) && ds.source.mqtt.Some?
    ensures DropEffect(c, DropSource(c, ds, unsub), ds, unsub)
  {
    var src := ds.source.mqtt.value;
    var r, d := Unregister(c, src, unsub), DropSource(c, ds, unsub);
    UnregisterEffect(c, src, unsub);
    assert d.conn.managers == r.conn.managers;
    assert forall b, t :: Receivers(d.conn, b, t) == Receivers(r.conn, b, t);
  }

  /** Whatever stays of a stream when its source is left, in the registry and in the waiting
      table. */
  lemma DropShift(c: Conn, d: Outcome, reg: Registry, adds: map<nat, DataStream>, ds: DataStream, unsub: Unsuback)
    requires Encodes(c, reg, adds)
    requires ds.name in reg && reg[ds.name] == ds && ds.source.mqtt.Some?
    requires DropEffect(c, d, ds, unsub)
    ensures var src := ds.source.mqtt.value;
            var reg1 := if d.status == Ok then reg - {ds.name} else reg;
            forall b, t ::
              Receivers(d.conn, b, t) - Expected(d.conn, reg1, adds, b, t)
              == if b == src.brokerURL && t == src.topic
                 then Unit(d.status == Ok && ds.name !in c.failed) - Unit(Counted(c, src)) else 0
  {
    var reg1 := if d.status == Ok then reg - {ds.name} else reg;
    HoldersChange(reg, c.failed, reg1, d.conn.failed, ds.name);
    assert forall b, t :: Receivers(c, b, t) == Expected(c, reg, adds, b, t);
  }

  /** A registered stream that is not waiting is counted. */
  lemma HolderIsCounted(c: Conn, reg: Registry, adds: map<nat, DataStream>, ds: DataStream)
    requires Encodes(c, reg, adds) && ds.name in reg && reg[ds.name] == ds && ds.source.mqtt.Some? && ds.name !in c.failed
    ensures Counted(c, ds.source.mqtt.value)
  {
    var src := ds.source.mqtt.value;
    assert Receivers(c, src.brokerURL, src.topic) == Expected(c, reg, adds, src.brokerURL, src.topic);
    assert ds.name in Holders(reg, c.failed, src.brokerURL, src.topic);
  }

  /** The connector after leaving a source, against the registry without the stream when
      that went through and against the registry as it was when it did not. */
  lemma DropExact(c: Conn, d: Outcome, reg: Registry, adds: map<nat, DataStream>, ds: DataStream, unsub: Unsuback)
    requires Encodes(c, reg, adds)
    requires ds.name in reg && reg[ds.name] == ds && ds.source.mqtt.Some?
    requires DropEffect(c, d, ds, unsub)
    ensures var src := ds.source.mqtt.value;
            var reg1 := if d.status == Ok then reg - {ds.name} else reg;
            && (ds.name !in c.failed ==> Counted(c, src))
            && (Encodes(d.conn, reg1, adds) <==> DropKeeps(c, ds, unsub))
            && Receivers(d.conn, src.brokerURL, src.topic) <= Expected(d.conn, reg1, adds, src.brokerURL, src.topic)
  {
    var src := ds.source.mqtt.value;
    var reg1 := if d.status == Ok then reg - {ds.name} else reg;
    DropShift(c, d, reg, adds, ds, unsub);
    if ds.name !in c.failed {
      HolderIsCounted(c, reg, adds, ds);
    }
    assert WaitingKnown(reg1, d.conn.failed);
    DropBalanced(c, d, reg1, adds, ds, unsub);
  }

  lemma DropBalanced(c: Conn, d: Outcome, reg1: Registry, adds: map<nat, DataStream>, ds: DataStream, unsub: Unsuback)
    requires ds.source.mqtt.Some? && DropEffect(c, d, ds, unsub) && (ds.name !in c.failed ==> Counted(c, ds.source.mqtt.value))
    requires var src := ds.source.mqtt.value;
             forall b, t ::
               Receivers(d.conn, b, t) - Expected(d.conn, reg1, adds, b, t)
               == if b == src.brokerURL && t == src.topic
                  then Unit(d.status == Ok && ds.name !in c.failed) - Unit(Counted(c, src)) else 0
    ensures NoDeadEntry(d.conn) && Balanced(d.conn, reg1, adds) <==> NoDeadEntry(d.conn) && DropKeeps(c, ds, unsub)
    ensures DropKeeps(c, ds, unsub) ==> NoDeadEntry(d.conn)
  {
    var src := ds.source.mqtt.value;
    assert Balanced(d.conn, reg1, adds)
      <==> Receivers(d.conn, src.brokerURL, src.topic) == Expected(d.conn, reg1, adds, src.brokerURL, src.topic);
  }

  /** Adding a stream to both sides: its counts and its registration. */
  lemma BothGrow(c: Conn, c1: Conn, reg: Registry, reg1: Registry, adds: map<nat, DataStream>)
    requires NoDeadEntry(c) && NoDeadEntry(c1)
    requires WaitingKnown(reg, c.failed) <==> WaitingKnown(reg1, c1.failed)
    requires forall b, t :: Receivers(c1, b, t) - Receivers(c, b, t) == Expected(c1, reg1, adds, b, t) - Expected(c, reg, adds, b, t)
    ensures Encodes(c1, reg1, adds) <==> Encodes(c, reg, adds)
  {
    if Balanced(c, reg, adds) {
      forall b, t ensures Receivers(c1, b, t) == Expected(c1, reg1, adds, b, t) {
        assert Receivers(c, b, t) == Expected(c, reg, adds, b, t);
      }
    }
    if Balanced(c1, reg1, adds) {
      forall b, t ensures Receivers(c, b, t) == Expected(c, reg, adds, b, t) {
        assert Receivers(c1, b, t) == Expected(c1, reg1, adds, b, t);
      }
    }
  }

  /** Taking the new source in the place of one that has been left: the register goes
      through. */
  lemma TakenExact(c: Conn, reg: Registry, adds: map<nat, DataStream>, prev: DataStream, next: DataStream, sub: Suback)
    requires NoDeadEntry(c) && prev.name !in c.failed && next.name == prev.name
    requires CreateHandler(c, next, sub).status == Ok
    ensures Encodes(CreateHandler(c, next, sub).conn, reg[prev.name := next], adds) <==> Encodes(c, reg - {prev.name}, adds)
  {
    var c1 := CreateHandler(c, next, sub).conn;
    if next.source.mqtt.Some? {
      RegisterEffect(c, next.source.mqtt.value, sub);
    }
    HoldersChange(reg - {prev.name}, c.failed, reg[prev.name := next], c1.failed, prev.name);
    BothGrow(c, c1, reg - {prev.name}, reg[prev.name := next], adds);
  }

  /** The register fails: the registry keeps the old stream. */
  lemma NotTakenExact(c: Conn, reg: Registry, adds: map<nat, DataStream>, prev: DataStream)
    requires NoDeadEntry(c) && prev.name !in c.failed
    requires prev.name in reg && reg[prev.name] == prev
    ensures prev.source.mqtt.None? ==> (Encodes(c, reg, adds) <==> Encodes(c, reg - {prev.name}, adds))
    ensures prev.source.mqtt.Some? ==>
              var src := prev.source.mqtt.value;
              Expected(c, reg, adds, src.brokerURL, src.topic)
              == Expected(c, reg - {prev.name}, adds, src.brokerURL, src.topic) + 1
  {
    HoldersChange(reg - {prev.name}, c.failed, reg, c.failed, prev.name);
    if prev.source.mqtt.None? {
      BothGrow(c, c, reg - {prev.name}, reg, adds);
    }
  }

  lemma TakeSourceExact(c: Conn, reg: Registry, adds: map<nat, DataStream>, prev: DataStream, next: DataStream, sub: Suback)
    requires NoDeadEntry(c) && prev.name !in c.failed
    requires prev.name in reg && reg[prev.name] == prev && next.name == prev.name
    ensures var r := CreateHandler(c, next, sub);
            if r.status == Ok then
              Encodes(r.conn, reg[prev.name := next], adds) <==> Encodes(c, reg - {prev.name}, adds)
            else
              && next.source.mqtt.Some? && r.conn == c
              && (prev.source.mqtt.None? ==> (Encodes(c, reg, adds) <==> Encodes(c, reg - {prev.name}, adds)))
              && (prev.source.mqtt.Some? ==>
                    var src := prev.source.mqtt.value;
                    Expected(c, reg, adds, src.brokerURL, src.topic)
                    == Expected(c, reg - {prev.name}, adds, src.brokerURL, src.topic) + 1)
  {
    if CreateHandler(c, next, sub).status == Ok {
      TakenExact(c, reg, adds, prev, next, sub);
    } else {
      RegisterEffect(c, next.source.mqtt.value, sub);
      NotTakenExact(c, reg, adds, prev);
    }
  }

  predicate DeleteKeeps(c: Conn, ds: DataStream, unsub: Unsuback) {
    ds.source.mqtt.Some? ==> DropKeeps(c, ds, unsub)
  }

  /** The delete handler, against the registry as its answer leaves it. */
  lemma DeleteHandlerExact(c: Conn, reg: Registry, ds: DataStream, unsub: Unsuback)
    requires Encodes(c, reg, map[])
    requires ds.name in reg && reg[ds.name] == ds
    ensures var o := DeleteHandler(c, ds, unsub);
            Encodes(o.conn, if o.status == Ok then reg - {ds.name} else reg, map[]) <==> DeleteKeeps(c, ds, unsub)
  {
    var c1 := c.(cache := map[]);
    CacheDoesNotCount(c, c1, reg, map[]);
    if ds.source.mqtt.Some? {
      DropSourceEffect(c1, ds, unsub);
      DropExact(c1, DropSource(c1, ds, unsub), reg, map[], ds, unsub);
    } else {
      HoldersChange(reg, c.failed, reg - {ds.name}, c.failed, ds.name);
      forall b, t ensures Receivers(c1, b, t) == Expected(c1, reg - {ds.name}, map[], b, t) {
        assert Receivers(c1, b, t) == Expected(c1, reg, map[], b, t);
      }
    }
  }

  /** When an update keeps the counts exact: the source pointer is the same, or nothing was
      subscribed before, or the stream waits for a broker this topic is not counted at, or
      the old subscription can be left and the new one then taken. */
  predicate UpdateKeeps(c: Conn, prev: DataStream, next: DataStream, unsub: Unsuback, sub: Suback) {
    var p, n := prev.source.mqtt, next.source.mqtt;
    p == n || p.None?
    || (&& DropKeeps(c, prev, unsub)
        && (|| n.None?
            || (prev.name in c.failed && p.value.brokerURL in c.managers)
            || TakeSucceeds(c, p, n.value, sub)))
  }

  /** The update handler once the old source has been left. */
  lemma LeftSourceExact(c: Conn, d: Outcome, reg: Registry, prev: DataStream, next: DataStream, unsub: Unsuback, sub: Suback)
    requires Encodes(c, reg, map[]) && prev.source.mqtt.Some? && d == DropSource(c, prev, unsub) && d.status == Ok
    requires prev.name in reg && reg[prev.name] == prev && next.name == prev.name
    ensures var r := CreateHandler(d.conn, next, sub);
            Encodes(r.conn, if r.status == Ok then reg[prev.name := next] else reg, map[])
            <==> DropKeeps(c, prev, unsub)
                 && (next.source.mqtt.None? || TakeSucceeds(c, prev.source.mqtt, next.source.mqtt.value, sub))
  {
    var src := prev.source.mqtt.value;
    DropSourceEffect(c, prev, unsub);
    DropExact(c, d, reg, map[], prev, unsub);
    TakeSourceExact(d.conn, reg, map[], prev, next, sub);
    if CreateHandler(d.conn, next, sub).status != Ok {
      assert Receivers(d.conn, src.brokerURL, src.topic) != Expected(d.conn, reg, map[], src.brokerURL, src.topic);
    }
    if next.source.mqtt.Some? {
      UnregisterStatus(c, src, unsub);
      RegisterStatus(d.conn, next.source.mqtt.value, sub);
      RegisterAfterLeaving(c, src, next.source.mqtt.value, unsub, sub);
      GuardsIgnore(Unregister(c, src, unsub).conn, d.conn, prev.source.mqtt, next.source.mqtt.value, unsub, sub);
    }
  }

  /** The update handler when there is no source to leave. */
  lemma NoSourceExact(c: Conn, reg: Registry, prev: DataStream, next: DataStream, sub: Suback)
    requires Encodes(c, reg, map[]) && prev.source.mqtt.None?
    requires prev.name in reg && reg[prev.name] == prev && next.name == prev.name
    ensures prev.name !in c.failed
    ensures var r := CreateHandler(c, next, sub);
            Encodes(r.conn, if r.status == Ok then reg[prev.name := next] else reg, map[])
  {
    HoldersChange(reg, c.failed, reg - {prev.name}, c.failed, prev.name);
    forall b, t ensures Receivers(c, b, t) == Expected(c, reg - {prev.name}, map[], b, t) {
      assert Receivers(c, b, t) == Expected(c, reg, map[], b, t);
    }
    TakeSourceExact(c, reg, map[], prev, next, sub);
  }

  lemma SwapSourceExact(c: Conn, reg: Registry, prev: DataStream, next: DataStream, unsub: Unsuback, sub: Suback)
    requires Encodes(c, reg, map[])
    requires prev.name in reg && reg[prev.name] == prev && next.name == prev.name
    requires prev.source.mqtt != next.source.mqtt
    ensures var o := SwapSource(c, prev, next, unsub, sub);
            Encodes(o.conn, if o.status == Ok then reg[prev.name := next] else reg, map[])
            <==> UpdateKeeps(c, prev, next, unsub, sub)
  {
    if prev.source.mqtt.Some? {
      var d := DropSource(c, prev, unsub);
      UnregisterStatus(c, prev.source.mqtt.value, unsub);
      if d.status == Ok {
        LeftSourceExact(c, d, reg, prev, next, unsub, sub);
      } else {
        DropSourceEffect(c, prev, unsub);
        DropExact(c, d, reg, map[], prev, unsub);
      }
    } else {
      NoSourceExact(c, reg, prev, next, sub);
      assert c.(failed := c.failed - {prev.name}) == c;
    }
  }

  lemma SamePointerExact(c: Conn, reg: Registry, prev: DataStream, next: DataStream)
    requires Encodes(c, reg, map[])
    requires prev.name in reg && reg[prev.name] == prev && next.name == prev.name
    requires prev.source.mqtt == next.source.mqtt
    ensures Encodes(c, reg[prev.name := next], map[])
  {
    var reg1 := reg[prev.name := next];
    HoldersChange(reg, c.failed, reg1, c.failed, prev.name);
    forall b, t ensures Receivers(c, b, t) == Expected(c, reg1, map[], b, t) {
      assert Receivers(c, b, t) == Expected(c, reg, map[], b, t);
    }
  }

  lemma FlushKeepsGuard(c: Conn, c1: Conn, prev: DataStream, next: DataStream, unsub: Unsuback, sub: Suback)
    requires c1 == c.(cache := c1.cache)
    ensures UpdateKeeps(c, prev, next, unsub, sub) <==> UpdateKeeps(c1, prev, next, unsub, sub)
  {
    if next.source.mqtt.Some? {
      GuardsIgnore(c, c1, prev.source.mqtt, next.source.mqtt.value, unsub, sub);
    }
  }

  /** The update handler, against the registry as its answer leaves it. */
  lemma UpdateHandlerExact(c: Conn, reg: Registry, prev: DataStream, next: DataStream, unsub: Unsuback, sub: Suback)
    requires Encodes(c, reg, map[])
    requires prev.name in reg && reg[prev.name] == prev && next.name == prev.name
    ensures var o := UpdateHandler(c, prev, next, unsub, sub);
            Encodes(o.conn, if o.status == Ok then reg[prev.name := next] else reg, map[])
            <==> UpdateKeeps(c, prev, next, unsub, sub)
  {
    var c1 := FlushForUpdate(c, prev, next);
    CacheDoesNotCount(c, c1, reg, map[]);
    if prev.source.mqtt == next.source.mqtt {
      SamePointerExact(c1, reg, prev, next);
    } else {
      SwapSourceExact(c1, reg, prev, next, unsub, sub);
      FlushKeepsGuard(c, c1, prev, next, unsub, sub);
    }
  }
}
