/** What the brokers hold for the connector's sessions, handler by handler. */
module Sessions {
  import opened Wrappers
  import opened Streams
  import opened ConnectorSpec
  import opened IngestSpec
  import opened RefCount

  /** A manager has a subscription, and a session that is down holds nothing. */
  ghost predicate Settled(c: Conn) {
    forall b :: b in c.managers ==>
      && c.managers[b].subs != map[]
      && (!c.managers[b].client.connected ==> c.managers[b].client.session == map[] && !c.managers[b].client.restored)
  }

  /** The broker delivers a topic that nothing is subscribed to. */
  predicate Strays(c: Conn, b: string, t: string) {
    b in c.managers && t in c.managers[b].client.session && t !in c.managers[b].subs
  }

  /** The session holds the topic at the QoS. */
  predicate Holding(m: ManagerState, t: string, qos: Byte) {
    t in m.client.session && m.client.session[t] == qos
  }

  /** The subscriptions of a manager that its session holds, each at its QoS. */
  function Held(m: ManagerState): set<string> {
    set t | t in m.subs && Holding(m, t, m.subs[t].qos)
  }

  /** A session that has been restored is without a subscription, or not at its QoS. */
  predicate Lacks(c: Conn, b: string, t: string) {
    b in c.managers && c.managers[b].client.restored && t in c.managers[b].subs
    && !Holding(c.managers[b], t, c.managers[b].subs[t].qos)
  }

  ghost predicate NoneStrays(c: Conn) {
    forall b, t :: !Strays(c, b, t)
  }

  ghost predicate NoneLacks(c: Conn) {
    forall b, t :: !Lacks(c, b, t)
  }

  /** No session holds a topic its manager has no subscription for. */
  ghost predicate Hosted(c: Conn) {
    Settled(c) && NoneStrays(c)
  }

  /** The sessions hold no topic too many, and a restored one none too few. */
  ghost predicate SessionsAgree(c: Conn) {
    Hosted(c) && NoneLacks(c)
  }

  /** Then a restored session holds exactly the manager's topics, each at its QoS. */
  lemma AgreeingSession(c: Conn, b: string)
    requires SessionsAgree(c) && b in c.managers && c.managers[b].client.restored
    ensures c.managers[b].client.session == Requested(c.managers[b].subs, {})
  {
    forall t
      ensures t in c.managers[b].client.session <==> t in c.managers[b].subs
      ensures t in c.managers[b].subs ==> Holding(c.managers[b], t, c.managers[b].subs[t].qos)
    {
      assert !Strays(c, b, t) && !Lacks(c, b, t);
    }
  }

  predicate IsPair(src: MQTTSource, b: string, t: string) {
    src.brokerURL == b && src.topic == t
  }

  // ---- Taking a source ----

  /** The broker refuses a topic that is new to a restored session. */
  predicate TakesRefused(c: Conn, src: MQTTSource, sub: Suback) {
    && sub.Denied? && src.brokerURL in c.managers
    && var m := c.managers[src.brokerURL];
       m.client.connected && m.client.restored && src.topic !in m.subs && !Holding(m, src.topic, src.qos)
  }

  /** `Strays`, `Lacks` and `Settled` read the managers only. */
  lemma SessionsIgnore(c: Conn, c1: Conn)
    requires c1.managers == c.managers
    ensures Settled(c1) <==> Settled(c)
    ensures NoneStrays(c1) <==> NoneStrays(c)
    ensures NoneLacks(c1) <==> NoneLacks(c)
  {
    assert forall b, t :: (Strays(c1, b, t) <==> Strays(c, b, t)) && (Lacks(c1, b, t) <==> Lacks(c, b, t));
  }

  /** The same sessions and the same topics. */
  ghost predicate SameTopics(c: Conn, c1: Conn) {
    && c1.managers.Keys == c.managers.Keys
    && forall b :: b in c.managers ==>
         && c1.managers[b].client == c.managers[b].client && c1.managers[b].subs.Keys == c.managers[b].subs.Keys
         && forall t :: t in c.managers[b].subs ==> c1.managers[b].subs[t].qos == c.managers[b].subs[t].qos
  }

  lemma SessionsOfTopics(c: Conn, c1: Conn)
    requires SameTopics(c, c1)
    ensures Settled(c) ==> Settled(c1)
    ensures forall b, t :: (Strays(c1, b, t) <==> Strays(c, b, t)) && (Lacks(c1, b, t) <==> Lacks(c, b, t))
  {
    forall b, t ensures (Strays(c1, b, t) <==> Strays(c, b, t)) && (Lacks(c1, b, t) <==> Lacks(c, b, t)) {
      if b in c.managers {
        assert t in c1.managers[b].subs.Keys <==> t in c.managers[b].subs.Keys;
      }
    }
    if Settled(c) {
      forall b | b in c1.managers ensures c1.managers[b].subs != map[] {
        var t :| t in c.managers[b].subs.Keys;
        assert t in c1.managers[b].subs;
      }
    }
  }

  /** The broker's answer to a new topic. */
  lemma SubscribeSessions(c: Conn, b: string, t: string, qos: Byte, granted: bool)
    requires Settled(c) && b in c.managers && c.managers[b].client.connected && t !in c.managers[b].subs
    ensures var c1 := SetManager(c, b, WithSubscription(c.managers[b], t, qos, granted));
            && Settled(c1)
            && (forall x, y :: Strays(c1, x, y) <==> Strays(c, x, y) && !(x == b && y == t))
            && (forall x, y :: Lacks(c1, x, y) <==>
                  Lacks(c, x, y) || (x == b && y == t && !granted && c.managers[b].client.restored && !Holding(c.managers[b], t, qos)))
  {
    var m1 := WithSubscription(c.managers[b], t, qos, granted);
    assert t in m1.subs;
  }

  lemma DialSessions(c: Conn, b: string, t: string, qos: Byte)
    requires Settled(c) && b !in c.managers
    ensures var c1 := SetManager(c, b, Dialled(t, qos));
            && Settled(c1)
            && (forall x, y :: Strays(c1, x, y) <==> Strays(c, x, y))
            && (forall x, y :: Lacks(c1, x, y) <==> Lacks(c, x, y))
  {
    assert t in Dialled(t, qos).subs;
  }

  /** A register ends what strays of its own pair, and leaves a topic out if it is refused. */
  lemma RegisterSessions(c: Conn, src: MQTTSource, sub: Suback)
    requires Settled(c)
    ensures var c1 := Register(c, src, sub).conn;
            && Settled(c1)
            && (forall b, t :: Strays(c1, b, t) <==> Strays(c, b, t) && !(IsPair(src, b, t) && RegisterSucceeds(c, src, sub)))
            && (forall b, t :: Lacks(c1, b, t) <==> Lacks(c, b, t) || (IsPair(src, b, t) && TakesRefused(c, src, sub)))
  {
    var c1, b, t := Register(c, src, sub).conn, src.brokerURL, src.topic;
    if b !in c.managers {
      DialSessions(c, b, t, src.qos);
    } else if t in c.managers[b].subs {
      assert SameTopics(c, c1) by {
        assert c1.managers[b].subs.Keys == c.managers[b].subs.Keys;
      }
      SessionsOfTopics(c, c1);
    } else if Answered(c, b, !sub.NoSuback?) {
      SubscribeSessions(c, b, t, src.qos, sub.Granted?);
    }
  }

  // ---- Leaving a source ----

  /** The last receiver leaves a topic of a manager that has others, and the on-connect handler
      runs while Unsubscribe waits. */
  predicate Overtakes(c: Conn, src: MQTTSource, unsub: Unsuback) {
    && unsub.Overtaken? && Receivers(c, src.brokerURL, src.topic) == 1
    && c.managers[src.brokerURL].client.connected && c.managers[src.brokerURL].subs.Keys != {src.topic}
  }

  /** It subscribes the topic again, unless the broker refuses it. */
  predicate LeavesStray(c: Conn, src: MQTTSource, unsub: Unsuback) {
    Overtakes(c, src, unsub) && src.topic !in unsub.refused
  }

  /** It leaves out what the broker refuses and the session does not hold. */
  predicate LeavesLacking(c: Conn, src: MQTTSource, unsub: Unsuback, t: string) {
    && Overtakes(c, src, unsub) && t != src.topic && t in unsub.refused
    && var m := c.managers[src.brokerURL]; t in m.subs && !Holding(m, t, m.subs[t].qos)
  }

  /** What is left out then, seen from the state before. */
  predicate LeavesOut(c: Conn, src: MQTTSource, unsub: Unsuback) {
    && Overtakes(c, src, unsub)
    && var m := c.managers[src.brokerURL];
       !((m.subs.Keys - {src.topic}) * unsub.refused <= Held(m))
  }

  lemma LeavesOutSome(c: Conn, src: MQTTSource, unsub: Unsuback)
    ensures LeavesOut(c, src, unsub) <==> exists t :: LeavesLacking(c, src, unsub, t)
  {
    if LeavesOut(c, src, unsub) {
      var m := c.managers[src.brokerURL];
      var t :| t in (m.subs.Keys - {src.topic}) * unsub.refused && t !in Held(m);
      assert LeavesLacking(c, src, unsub, t);
    } else if Overtakes(c, src, unsub) {
      var m := c.managers[src.brokerURL];
      forall t ensures !LeavesLacking(c, src, unsub, t) {
        assert t in (m.subs.Keys - {src.topic}) * unsub.refused ==> t in Held(m);
      }
    }
  }

  /** Short of the last receiver, or of an answer, topics and sessions stay. */
  lemma UnregisterKeepsTopics(c: Conn, src: MQTTSource, unsub: Unsuback)
    requires Receivers(c, src.brokerURL, src.topic) != 1 || !Answered(c, src.brokerURL, !unsub.NoUnsuback?)
    ensures SameTopics(c, Unregister(c, src, unsub).conn)
  {
    var b, t := src.brokerURL, src.topic;
    if Counted(c, src) {
      assert Recounted(c.managers[b], t, -1).subs.Keys == c.managers[b].subs.Keys;
    }
  }

  /** With both the topic goes, and with the last topic the client. */
  lemma UnregisterDropsTopic(c: Conn, src: MQTTSource, unsub: Unsuback)
    requires Receivers(c, src.brokerURL, src.topic) == 1 && Answered(c, src.brokerURL, !unsub.NoUnsuback?)
    ensures var b, t, c1 := src.brokerURL, src.topic, Unregister(c, src, unsub).conn;
            && (forall x :: x in c1.managers <==> x in c.managers && !(x == b && c.managers[b].subs.Keys == {t}))
            && (forall x :: x in c1.managers && x != b ==> c1.managers[x] == c.managers[x])
            && (b in c1.managers ==>
                  && c1.managers[b].subs == c.managers[b].subs - {t}
                  && c1.managers[b].client == Unsubscribed(c.managers[b], t, unsub).client)
  {
    var b, t := src.brokerURL, src.topic;
    var m := Recounted(c.managers[b], t, -1);
    var rest := WithoutSubscription(m, t, unsub);
    assert m.subs.Keys == c.managers[b].subs.Keys;
    assert rest.subs == c.managers[b].subs - {t};
    assert rest.subs.Keys == c.managers[b].subs.Keys - {t};
    assert rest.subs == map[] <==> rest.subs.Keys == {};
    assert rest.client == Unsubscribed(c.managers[b], t, unsub).client;
  }

  lemma UnregisterSettles(c: Conn, src: MQTTSource, unsub: Unsuback)
    requires Settled(c)
    ensures Settled(Unregister(c, src, unsub).conn)
  {
    var c1 := Unregister(c, src, unsub).conn;
    if Receivers(c, src.brokerURL, src.topic) == 1 && Answered(c, src.brokerURL, !unsub.NoUnsuback?) {
      UnregisterDropsTopic(c, src, unsub);
      if src.brokerURL in c1.managers {
        assert c.managers[src.brokerURL].subs.Keys - {src.topic} != {};
        var t :| t in c1.managers[src.brokerURL].subs.Keys;
      }
    } else {
      UnregisterKeepsTopics(c, src, unsub);
      SessionsOfTopics(c, c1);
    }
  }

  /** The sessions of the last receiver's broker, topic by topic. */
  lemma DroppedTopicSessions(c: Conn, src: MQTTSource, unsub: Unsuback, b: string, y: string)
    requires Receivers(c, src.brokerURL, src.topic) == 1 && Answered(c, src.brokerURL, !unsub.NoUnsuback?)
    requires !Strays(c, b, y)
    ensures Strays(Unregister(c, src, unsub).conn, b, y) <==> IsPair(src, b, y) && LeavesStray(c, src, unsub)
    ensures !Lacks(c, b, y) ==>
              (Lacks(Unregister(c, src, unsub).conn, b, y) <==> b == src.brokerURL && LeavesLacking(c, src, unsub, y))
  {
    var c1 := Unregister(c, src, unsub).conn;
    UnregisterDropsTopic(c, src, unsub);
    if b in c1.managers {
      assert y in c1.managers[b].subs <==> y in c1.managers[b].subs.Keys;
    }
  }

  lemma UnregisterSessions(c: Conn, src: MQTTSource, unsub: Unsuback)
    requires Hosted(c)
    ensures var c1 := Unregister(c, src, unsub).conn;
            && Settled(c1)
            && (forall b, t :: Strays(c1, b, t) <==> IsPair(src, b, t) && LeavesStray(c, src, unsub))
            && (NoneLacks(c) ==> forall b, t :: Lacks(c1, b, t) <==> b == src.brokerURL && LeavesLacking(c, src, unsub, t))
  {
    var c1 := Unregister(c, src, unsub).conn;
    UnregisterSettles(c, src, unsub);
    if Receivers(c, src.brokerURL, src.topic) == 1 && Answered(c, src.brokerURL, !unsub.NoUnsuback?) {
      forall b, y
        ensures Strays(c1, b, y) <==> IsPair(src, b, y) && LeavesStray(c, src, unsub)
        ensures NoneLacks(c) ==> (Lacks(c1, b, y) <==> b == src.brokerURL && LeavesLacking(c, src, unsub, y))
      {
        assert !Strays(c, b, y) && (NoneLacks(c) ==> !Lacks(c, b, y));
        DroppedTopicSessions(c, src, unsub, b, y);
      }
    } else {
      UnregisterKeepsTopics(c, src, unsub);
      SessionsOfTopics(c, c1);
    }
  }

  // ---- Whatever is answered ----

  lemma SwapSettles(c: Conn, prev: DataStream, next: DataStream, unsub: Unsuback, sub: Suback)
    requires Settled(c)
    ensures Settled(SwapSource(c, prev, next, unsub, sub).conn)
  {
    var c1 := c.(failed := c.failed - {prev.name});
    SessionsIgnore(c, c1);
    if prev.source.mqtt.Some? {
      UnregisterSettles(c, prev.source.mqtt.value, unsub);
      c1 := DropSource(c, prev, unsub).conn;
      SessionsIgnore(Unregister(c, prev.source.mqtt.value, unsub).conn, c1);
    }
    if next.source.mqtt.Some? {
      RegisterSessions(c1, next.source.mqtt.value, sub);
    }
  }

  lemma DeleteSettles(c: Conn, prev: DataStream, unsub: Unsuback)
    requires Settled(c)
    ensures Settled(DeleteHandler(c, prev, unsub).conn)
  {
    var c1 := c.(cache := map[]);
    SessionsIgnore(c, c1);
    if prev.source.mqtt.Some? {
      UnregisterSettles(c1, prev.source.mqtt.value, unsub);
      SessionsIgnore(Unregister(c1, prev.source.mqtt.value, unsub).conn, DropSource(c1, prev, unsub).conn);
    }
  }

  /** The handlers keep the managers settled even where a session goes wrong. */
  lemma HandlersSettle(c: Conn, prev: DataStream, next: DataStream, unsub: Unsuback, sub: Suback)
    requires Settled(c)
    ensures Settled(CreateHandler(c, next, sub).conn)
    ensures Settled(UpdateHandler(c, prev, next, unsub, sub).conn)
    ensures Settled(DeleteHandler(c, prev, unsub).conn)
  {
    var c1 := FlushForUpdate(c, prev, next);
    SessionsIgnore(c, c1);
    SwapSettles(c1, prev, next, unsub, sub);
    DeleteSettles(c, prev, unsub);
    if next.source.mqtt.Some? {
      RegisterSessions(c, next.source.mqtt.value, sub);
    }
  }

  lemma {:induction false} RetryPassSettles(c: Conn, order: seq<string>, answers: seq<Suback>)
    requires Settled(c) && |order| == |answers|
    ensures Settled(RetryPass(c, order, answers))
    decreases |order|
  {
    if order != [] {
      if order[0] in c.failed {
        RegisterSessions(c, c.failed[order[0]], answers[0]);
      }
      RetryPassSettles(if order[0] in c.failed then RetryOne(c, order[0], answers[0]) else c, order[1..], answers[1..]);
    }
  }

  // ---- The handlers ----

  predicate CreateRefused(c: Conn, ds: DataStream, sub: Suback) {
    ds.source.mqtt.Some? && TakesRefused(c, ds.source.mqtt.value, sub)
  }

  lemma CreateSessions(c: Conn, ds: DataStream, sub: Suback)
    requires Hosted(c)
    ensures var c1 := CreateHandler(c, ds, sub).conn;
            Hosted(c1) && (NoneLacks(c) ==> (NoneLacks(c1) <==> !CreateRefused(c, ds, sub)))
  {
    if ds.source.mqtt.Some? {
      var src := ds.source.mqtt.value;
      var c1 := Register(c, src, sub).conn;
      RegisterSessions(c, src, sub);
      assert Lacks(c1, src.brokerURL, src.topic) <== TakesRefused(c, src, sub);
    }
  }

  predicate DropStrays(c: Conn, src: Option<MQTTSource>, unsub: Unsuback) {
    src.Some? && LeavesStray(c, src.value, unsub)
  }

  predicate DropLeavesOut(c: Conn, src: Option<MQTTSource>, unsub: Unsuback) {
    src.Some? && LeavesOut(c, src.value, unsub)
  }

  lemma DropSessions(c: Conn, ds: DataStream, unsub: Unsuback)
    requires Hosted(c) && ds.source.mqtt.Some?
    ensures var c1, src := DropSource(c, ds, unsub).conn, ds.source.mqtt.value;
            && Settled(c1)
            && (forall b, t :: Strays(c1, b, t) <==> IsPair(src, b, t) && LeavesStray(c, src, unsub))
            && (NoneLacks(c) ==> forall b, t :: Lacks(c1, b, t) <==> b == src.brokerURL && LeavesLacking(c, src, unsub, t))
  {
    var c1, c2 := DropSource(c, ds, unsub).conn, Unregister(c, ds.source.mqtt.value, unsub).conn;
    UnregisterSessions(c, ds.source.mqtt.value, unsub);
    SessionsIgnore(c2, c1);
    assert forall b, t :: (Strays(c1, b, t) <==> Strays(c2, b, t)) && (Lacks(c1, b, t) <==> Lacks(c2, b, t));
  }

  /** Leaving the source for good. */
  lemma LeavingSessions(c: Conn, ds: DataStream, unsub: Unsuback)
    requires Hosted(c) && ds.source.mqtt.Some?
    ensures var c1 := DropSource(c, ds, unsub).conn;
            && (NoneStrays(c1) <==> !LeavesStray(c, ds.source.mqtt.value, unsub))
            && (NoneLacks(c) ==> (NoneLacks(c1) <==> !LeavesOut(c, ds.source.mqtt.value, unsub)))
  {
    var c1, src := DropSource(c, ds, unsub).conn, ds.source.mqtt.value;
    DropSessions(c, ds, unsub);
    LeavesOutSome(c, src, unsub);
    assert LeavesStray(c, src, unsub) ==> Strays(c1, src.brokerURL, src.topic);
    if NoneLacks(c) && LeavesOut(c, src, unsub) {
      var t :| LeavesLacking(c, src, unsub, t);
      assert Lacks(c1, src.brokerURL, t);
    }
  }

  lemma DeleteSessions(c: Conn, ds: DataStream, unsub: Unsuback)
    requires Hosted(c)
    ensures var c1 := DeleteHandler(c, ds, unsub).conn;
            && Settled(c1)
            && (NoneStrays(c1) <==> !DropStrays(c, ds.source.mqtt, unsub))
            && (NoneLacks(c) ==> (NoneLacks(c1) <==> !DropLeavesOut(c, ds.source.mqtt, unsub)))
  {
    var c0 := c.(cache := map[]);
    SessionsIgnore(c, c0);
    if ds.source.mqtt.Some? {
      DropSessions(c0, ds, unsub);
      LeavingSessions(c0, ds, unsub);
    }
  }

  /** The next source takes the topic again that has just been left. */
  predicate Retakes(left: MQTTSource, next: Option<MQTTSource>, sub: Suback) {
    next.Some? && IsPair(next.value, left.brokerURL, left.topic) && !sub.NoSuback?
  }

  /** An update leaves its old topic in the session. */
  predicate UpdateStrays(c: Conn, prev: Option<MQTTSource>, next: Option<MQTTSource>, unsub: Unsuback, sub: Suback) {
    prev != next && prev.Some? && LeavesStray(c, prev.value, unsub) && !Retakes(prev.value, next, sub)
  }

  /** The source taken after leaving another is refused by a session that has been restored,
      maybe while the other was left. A client that loses its last topic is dialled anew. */
  predicate RetakeRefused(c: Conn, left: MQTTSource, src: MQTTSource, unsub: Unsuback, sub: Suback) {
    if left.brokerURL == src.brokerURL && Receivers(c, left.brokerURL, left.topic) == 1 then
      && sub.Denied?
      && var m := c.managers[src.brokerURL];
         && m.client.connected && m.subs.Keys != {left.topic} && (m.client.restored || unsub.Overtaken?)
         && if src.topic == left.topic then !(LeavesStray(c, left, unsub) && src.qos == m.subs[left.topic].qos)
            else src.topic !in m.subs
    else TakesRefused(c, src, sub)
  }

  predicate SwapRefused(c: Conn, prev: Option<MQTTSource>, next: Option<MQTTSource>, unsub: Unsuback, sub: Suback) {
    && next.Some?
    && if prev.Some? then LeaveSucceeds(c, prev.value, unsub) && RetakeRefused(c, prev.value, next.value, unsub, sub)
       else TakesRefused(c, next.value, sub)
  }

  /** An update leaves a topic out of a restored session. */
  predicate UpdateLeavesOut(c: Conn, prev: Option<MQTTSource>, next: Option<MQTTSource>, unsub: Unsuback, sub: Suback) {
    prev != next && (DropLeavesOut(c, prev, unsub) || SwapRefused(c, prev, next, unsub, sub))
  }

  lemma RetakeRefusedIs(c: Conn, left: MQTTSource, src: MQTTSource, unsub: Unsuback, sub: Suback)
    requires Hosted(c) && LeaveSucceeds(c, left, unsub)
    ensures TakesRefused(Unregister(c, left, unsub).conn, src, sub) <==> RetakeRefused(c, left, src, unsub, sub)
  {
    var c1 := Unregister(c, left, unsub).conn;
    assert !Strays(c, src.brokerURL, src.topic);
    if Receivers(c, left.brokerURL, left.topic) == 1 {
      UnregisterDropsTopic(c, left, unsub);
      if src.brokerURL in c1.managers {
        assert src.topic in c1.managers[src.brokerURL].subs <==> src.topic in c1.managers[src.brokerURL].subs.Keys;
      }
    } else {
      UnregisterKeepsTopics(c, left, unsub);
      if src.brokerURL in c1.managers {
        assert src.topic in c1.managers[src.brokerURL].subs.Keys <==> src.topic in c.managers[src.brokerURL].subs.Keys;
      }
    }
  }

  /** Leaving one source and taking another, pair by pair. */
  lemma SwapSessions(c: Conn, prev: DataStream, next: DataStream, unsub: Unsuback, sub: Suback)
    requires Hosted(c) && prev.source.mqtt.Some? && next.source.mqtt.Some? && LeaveSucceeds(c, prev.source.mqtt.value, unsub)
    ensures var c1, left, src := SwapSource(c, prev, next, unsub, sub).conn, prev.source.mqtt.value, next.source.mqtt.value;
            && Settled(c1)
            && (forall b, t :: Strays(c1, b, t)
                  <==> IsPair(left, b, t) && LeavesStray(c, left, unsub) && !Retakes(left, next.source.mqtt, sub))
            && (NoneLacks(c) ==> forall b, t :: (Lacks(c1, b, t) <==>
                  || (b == left.brokerURL && LeavesLacking(c, left, unsub, t))
                  || (IsPair(src, b, t) && RetakeRefused(c, left, src, unsub, sub))))
  {
    var left, src := prev.source.mqtt.value, next.source.mqtt.value;
    var d, u := DropSource(c, prev, unsub).conn, Unregister(c, left, unsub).conn;
    UnregisterStatus(c, left, unsub);
    DropSessions(c, prev, unsub);
    RegisterSessions(d, src, sub);
    RetakeRefusedIs(c, left, src, unsub, sub);
    RegisterAfterLeaving(c, left, src, unsub, sub);
    assert TakesRefused(d, src, sub) <==> TakesRefused(u, src, sub);
    assert RegisterSucceeds(d, src, sub) <==> RegisterSucceeds(u, src, sub);
  }

  /** An update with nothing to leave, or that cannot go on after leaving. */
  lemma OneSidedSwap(c: Conn, prev: DataStream, next: DataStream, unsub: Unsuback, sub: Suback)
    requires Hosted(c)
    requires var p, n := prev.source.mqtt, next.source.mqtt;
             p != n && (p.None? || n.None? || !LeaveSucceeds(c, p.value, unsub))
    ensures var c1 := SwapSource(c, prev, next, unsub, sub).conn;
            && Settled(c1)
            && (NoneStrays(c1) <==> !UpdateStrays(c, prev.source.mqtt, next.source.mqtt, unsub, sub))
            && (NoneLacks(c) ==> (NoneLacks(c1) <==> !UpdateLeavesOut(c, prev.source.mqtt, next.source.mqtt, unsub, sub)))
  {
    if prev.source.mqtt.None? {
      var c1 := c.(failed := c.failed - {prev.name});
      SessionsIgnore(c, c1);
      CreateSessions(c1, next, sub);
    } else {
      UnregisterStatus(c, prev.source.mqtt.value, unsub);
      DropSessions(c, prev, unsub);
      LeavingSessions(c, prev, unsub);
    }
  }

  lemma TwoSidedSwap(c: Conn, prev: DataStream, next: DataStream, unsub: Unsuback, sub: Suback)
    requires Hosted(c)
    requires var p, n := prev.source.mqtt, next.source.mqtt;
             p != n && p.Some? && n.Some? && LeaveSucceeds(c, p.value, unsub)
    ensures var c1 := SwapSource(c, prev, next, unsub, sub).conn;
            && Settled(c1)
            && (NoneStrays(c1) <==> !UpdateStrays(c, prev.source.mqtt, next.source.mqtt, unsub, sub))
            && (NoneLacks(c) ==> (NoneLacks(c1) <==> !UpdateLeavesOut(c, prev.source.mqtt, next.source.mqtt, unsub, sub)))
  {
    var p, n := prev.source.mqtt, next.source.mqtt;
    var c1 := SwapSource(c, prev, next, unsub, sub).conn;
    SwapSessions(c, prev, next, unsub, sub);
    assert UpdateStrays(c, p, n, unsub, sub) ==> Strays(c1, p.value.brokerURL, p.value.topic);
    if NoneLacks(c) {
      LeavesOutSome(c, p.value, unsub);
      assert RetakeRefused(c, p.value, n.value, unsub, sub) ==> Lacks(c1, n.value.brokerURL, n.value.topic);
      if LeavesOut(c, p.value, unsub) {
        var t :| LeavesLacking(c, p.value, unsub, t);
        assert Lacks(c1, p.value.brokerURL, t);
      }
    }
  }

  /** The guards read the managers only. */
  lemma UpdateGuardsIgnore(c: Conn, c1: Conn, prev: Option<MQTTSource>, next: Option<MQTTSource>, unsub: Unsuback, sub: Suback)
    requires c1.managers == c.managers
    ensures UpdateStrays(c1, prev, next, unsub, sub) <==> UpdateStrays(c, prev, next, unsub, sub)
    ensures UpdateLeavesOut(c1, prev, next, unsub, sub) <==> UpdateLeavesOut(c, prev, next, unsub, sub)
  {
  }

  lemma UpdateSessions(c: Conn, prev: DataStream, next: DataStream, unsub: Unsuback, sub: Suback)
    requires Hosted(c)
    ensures var c1 := UpdateHandler(c, prev, next, unsub, sub).conn;
            && Settled(c1)
            && (NoneStrays(c1) <==> !UpdateStrays(c, prev.source.mqtt, next.source.mqtt, unsub, sub))
            && (NoneLacks(c) ==> (NoneLacks(c1) <==> !UpdateLeavesOut(c, prev.source.mqtt, next.source.mqtt, unsub, sub)))
  {
    var p, n := prev.source.mqtt, next.source.mqtt;
    var c0 := FlushForUpdate(c, prev, next);
    SessionsIgnore(c, c0);
    UpdateGuardsIgnore(c, c0, p, n, unsub, sub);
    if p != n {
      if p.None? || n.None? || !LeaveSucceeds(c0, p.value, unsub) {
        OneSidedSwap(c0, prev, next, unsub, sub);
      } else {
        TwoSidedSwap(c0, prev, next, unsub, sub);
      }
    }
  }

  /** With exact counts, a restored session that agrees holds a topic exactly when somebody asks
      for it. */
  lemma ServesHolders(c: Conn, reg: Registry, adds: map<nat, DataStream>, b: string, t: string)
    requires Encodes(c, reg, adds) && SessionsAgree(c) && b in c.managers && c.managers[b].client.restored
    ensures t in c.managers[b].client.session
       <==> (exists n :: Holds(reg, c.failed, n, b, t)) || (exists k :: k in adds && Wants(adds[k], b, t))
  {
    AgreeingSession(c, b);
    assert Receivers(c, b, t) == Expected(c, reg, adds, b, t);
    var hs, ks := Holders(reg, c.failed, b, t), Entering(adds, b, t);
    assert (exists n :: Holds(reg, c.failed, n, b, t)) <==> hs != {} by {
      if n :| Holds(reg, c.failed, n, b, t) {
        assert n in hs;
      }
      if n :| n in hs {
        assert Holds(reg, c.failed, n, b, t);
      }
    }
    assert (exists k :: k in adds && Wants(adds[k], b, t)) <==> ks != {} by {
      if k :| k in adds && Wants(adds[k], b, t) {
        assert k in ks;
      }
      if k :| k in ks {
        assert k in adds && Wants(adds[k], b, t);
      }
    }
  }

  // ---- Retry passes ----

  /** Some entry of the pass is refused when it comes to it. */
  predicate PassRefused(c: Conn, order: seq<string>, answers: seq<Suback>)
    requires |order| == |answers|
    decreases |order|
  {
    && order != []
    && (|| (order[0] in c.failed && TakesRefused(c, c.failed[order[0]], answers[0]))
        || PassRefused(if order[0] in c.failed then RetryOne(c, order[0], answers[0]) else c, order[1..], answers[1..]))
  }

  lemma RetryOneSessions(c: Conn, id: string, sub: Suback)
    requires Hosted(c) && id in c.failed
    ensures var c1 := RetryOne(c, id, sub);
            && Hosted(c1)
            && forall b, t :: Lacks(c1, b, t) <==> Lacks(c, b, t) || (IsPair(c.failed[id], b, t) && TakesRefused(c, c.failed[id], sub))
  {
    var r, c1 := Register(c, c.failed[id], sub).conn, RetryOne(c, id, sub);
    RegisterSessions(c, c.failed[id], sub);
    SessionsIgnore(r, c1);
    assert forall b, t :: Lacks(c1, b, t) <==> Lacks(r, b, t);
  }

  lemma {:induction false} RetryPassSessions(c: Conn, order: seq<string>, answers: seq<Suback>)
    requires Hosted(c) && |order| == |answers|
    ensures Hosted(RetryPass(c, order, answers))
    ensures NoneLacks(RetryPass(c, order, answers)) <==> NoneLacks(c) && !PassRefused(c, order, answers)
    decreases |order|
  {
    if order != [] {
      var id := order[0];
      var c1 := if id in c.failed then RetryOne(c, id, answers[0]) else c;
      if id in c.failed {
        var src := c.failed[id];
        RetryOneSessions(c, id, answers[0]);
        assert TakesRefused(c, src, answers[0]) ==> Lacks(c1, src.brokerURL, src.topic);
        assert NoneLacks(c1) <==> NoneLacks(c) && !TakesRefused(c, src, answers[0]) by {
          assert forall b, t :: Lacks(c, b, t) ==> Lacks(c1, b, t);
        }
      }
      RetryPassSessions(c1, order[1..], answers[1..]);
    }
  }

  // ---- The life of a session ----

  /** A restore leaves out what the broker refuses and the session does not hold: the handler
      records it nowhere. */
  predicate RestoreLeavesOut(c: Conn, b: string, refused: set<string>)
    requires b in c.managers
  {
    !(c.managers[b].subs.Keys * refused <= Held(c.managers[b]))
  }

  /** A session that begins or ends holds nothing and has not been restored. */
  lemma EmptySession(c: Conn, b: string, connected: bool)
    requires Hosted(c) && b in c.managers
    ensures var c1 := SetManager(c, b, c.managers[b].(client := ClientState(connected, false, map[])));
            Hosted(c1) && (NoneLacks(c) ==> NoneLacks(c1))
  {
    var c1 := SetManager(c, b, c.managers[b].(client := ClientState(connected, false, map[])));
    forall x, t ensures !Strays(c1, x, t) && (Lacks(c1, x, t) ==> Lacks(c, x, t)) {
      assert !Strays(c, x, t);
    }
  }

  lemma RestoreSessions(c: Conn, b: string, refused: set<string>)
    requires Hosted(c) && b in c.managers
    ensures Hosted(OnConnect(c, b, refused))
    ensures NoneLacks(c) ==> (NoneLacks(OnConnect(c, b, refused)) <==> !RestoreLeavesOut(c, b, refused))
  {
    var c1 := OnConnect(c, b, refused);
    forall x, t ensures !Strays(c1, x, t) && (x != b ==> (Lacks(c1, x, t) ==> Lacks(c, x, t))) {
      assert !Strays(c, x, t);
    }
    if RestoreLeavesOut(c, b, refused) {
      var t :| t in c.managers[b].subs.Keys * refused && t !in Held(c.managers[b]);
      assert Lacks(c1, b, t);
    } else {
      forall t ensures NoneLacks(c) ==> !Lacks(c1, b, t) {
        assert t in c.managers[b].subs.Keys * refused ==> t in Held(c.managers[b]);
      }
    }
  }

  lemma LifeSessions(c: Conn, b: string, refused: set<string>)
    requires Hosted(c) && b in c.managers
    ensures Hosted(ConnectionLost(c, b)) && (NoneLacks(c) ==> NoneLacks(ConnectionLost(c, b)))
    ensures Hosted(Reconnected(c, b)) && (NoneLacks(c) ==> NoneLacks(Reconnected(c, b)))
    ensures Hosted(OnConnect(c, b, refused))
    ensures NoneLacks(c) ==> (NoneLacks(OnConnect(c, b, refused)) <==> !RestoreLeavesOut(c, b, refused))
  {
    EmptySession(c, b, false);
    EmptySession(c, b, true);
    RestoreSessions(c, b, refused);
  }

  lemma LostAndRestored(c: Conn, b: string)
    requires SessionsAgree(c) && b in c.managers
    ensures var c1 := OnConnect(Reconnected(ConnectionLost(c, b), b), b, {});
            SessionsAgree(c1) && b in c1.managers && c1.managers[b].client.session == Requested(c.managers[b].subs, {})
  {
    var c1 := ConnectionLost(c, b);
    LifeSessions(c, b, {});
    LifeSessions(c1, b, {});
    LifeSessions(Reconnected(c1, b), b, {});
  }
}
