/** What each step of data/mqtt.go does to the connector, on values. The class in
    Connector.dfy is proved to do exactly this; the run properties are proved of this. */
module ConnectorSpec {
  import opened Streams

  datatype SubState = SubState(qos: Byte, receivers: int)

  /** One broker session: whether it is up, whether the on-connect handler has run
      since it came up, and the topics the broker holds for it, each with the QoS asked for. */
  datatype ClientState = ClientState(connected: bool, restored: bool, session: map<string, Byte>)

  datatype ManagerState = ManagerState(subs: map<string, SubState>, client: ClientState)

  datatype Conn = Conn(
    managers: map<string, ManagerState>,
    failed: map<string, MQTTSource>,
    cache: map<string, DataStream>)

  const EMPTY := Conn(map[], map[], map[])

  /** How a handler ends. `Panic` is the nil dereference in `unregister`. */
  datatype Status = Ok | Err | Panic

  datatype Outcome = Outcome(conn: Conn, status: Status)

  function SetManager(c: Conn, b: string, m: ManagerState): Conn {
    c.(managers := c.managers[b := m])
  }

  /** What comes of a Connect or a Subscribe: an error; no error, but the topic is not in the
      session afterwards (a SUBACK with return code 0x80, section 3.9.3 of MQTT 3.1.1, is no
      error to the client library); or no error and the topic granted. For a Connect the last
      two are the same. */
  datatype Suback = NoSuback | Denied | Granted

  /** What comes of an Unsubscribe: an error; the topic dropped; or the topic dropped while the
      call waits for a reconnect, and then taken again by the on-connect handler, which runs
      during the call and finds the topic still subscribed. The broker refuses it `refused`. */
  datatype Unsuback = NoUnsuback | Dropped | Overtaken(refused: set<string>)

  /** A subscribe or unsubscribe call gets through only while the session is up. */
  predicate Answered(c: Conn, b: string, ok: bool) {
    ok && b in c.managers && c.managers[b].client.connected
  }

  /** A manager with one more subscription, which the broker holds if it was granted. */
  function WithSubscription(m: ManagerState, t: string, qos: Byte, granted: bool): ManagerState {
    ManagerState(m.subs[t := SubState(qos, 1)], m.client.(session := if granted then m.client.session[t := qos] else m.client.session))
  }

  /** What the on-connect handler is granted of the subscriptions it asks for. */
  function Requested(subs: map<string, SubState>, refused: set<string>): map<string, Byte> {
    map t | t in subs && t !in refused :: subs[t].qos
  }

  lemma NothingRequested(subs: map<string, SubState>, refused: set<string>)
    ensures Requested(subs, refused + subs.Keys) == map[]
  {
  }

  lemma RequestOneMore(subs: map<string, SubState>, refused: set<string>, left: set<string>, t: string, session: map<string, Byte>)
    requires t in left && t in subs
    ensures session + Requested(subs, refused + (left - {t}))
         == if t in refused then session + Requested(subs, refused + left)
            else (session + Requested(subs, refused + left))[t := subs[t].qos]
  {
    var before, after := Requested(subs, refused + left), Requested(subs, refused + (left - {t}));
    assert after == if t in refused then before else before[t := subs[t].qos];
  }

  /** The on-connect handler: subscribe to every topic of the manager. The broker refuses the
      topics in `refused`, and the handler only logs that. */
  function Resubscribed(m: ManagerState, refused: set<string>): ManagerState {
    m.(client := ClientState(true, true, m.client.session + Requested(m.subs, refused)))
  }

  /** The manager once an Unsubscribe is answered. */
  function Unsubscribed(m: ManagerState, t: string, unsub: Unsuback): ManagerState {
    var m1 := m.(client := m.client.(session := m.client.session - {t}));
    if unsub.Overtaken? then Resubscribed(m1, unsub.refused) else m1
  }

  /** A manager without a subscription, whose Unsubscribe has been answered. */
  function WithoutSubscription(m: ManagerState, t: string, unsub: Unsuback): ManagerState {
    ManagerState(m.subs - {t}, Unsubscribed(m, t, unsub).client)
  }

  function Recounted(m: ManagerState, t: string, step: int): ManagerState
    requires t in m.subs
  {
    m.(subs := m.subs[t := m.subs[t].(receivers := m.subs[t].receivers + step)])
  }

  /** A manager just connected for one subscription; the on-connect handler will make it. */
  function Dialled(t: string, qos: Byte): ManagerState {
    ManagerState(map[t := SubState(qos, 1)], ClientState(true, false, map[]))
  }

  /** `register`; `sub` is the answer to its one broker call (Connect or Subscribe). */
  function Register(c: Conn, src: MQTTSource, sub: Suback): Outcome {
    var b, t := src.brokerURL, src.topic;
    if b !in c.managers then
      if !sub.NoSuback? then Outcome(SetManager(c, b, Dialled(t, src.qos)), Ok) else Outcome(c, Err)
    else if t !in c.managers[b].subs then
      if Answered(c, b, !sub.NoSuback?) then
        Outcome(SetManager(c, b, WithSubscription(c.managers[b], t, src.qos, sub.Granted?)), Ok)
      else Outcome(c, Err)
    else
      Outcome(SetManager(c, b, Recounted(c.managers[b], t, 1)), Ok)
  }

  function Disconnected(c: Conn, b: string): Conn {
    c.(managers := c.managers - {b})
  }

  lemma DisconnectedForgets(c: Conn, b: string, m: ManagerState)
    ensures Disconnected(SetManager(c, b, m), b) == Disconnected(c, b)
  {
    assert c.managers[b := m] - {b} == c.managers - {b};
  }

  /** The end of `unregister` for a topic without receivers; `unsub` is the answer to
      Unsubscribe. */
  function Released(c: Conn, b: string, t: string, unsub: Unsuback): Outcome
    requires b in c.managers
  {
    if !Answered(c, b, !unsub.NoUnsuback?) then Outcome(c, Err)
    else
      var m := WithoutSubscription(c.managers[b], t, unsub);
      Outcome(if m.subs == map[] then Disconnected(c, b) else SetManager(c, b, m), Ok)
  }

  /** `unregister`; `unsub` is the answer to Unsubscribe. */
  function Unregister(c: Conn, src: MQTTSource, unsub: Unsuback): Outcome {
    var b, t := src.brokerURL, src.topic;
    if b !in c.managers then
      Outcome(c, Ok)
    else if t !in c.managers[b].subs then
      Outcome(c, Panic)
    else
      var m := Recounted(c.managers[b], t, -1);
      if m.subs[t].receivers == 0 then Released(SetManager(c, b, m), b, t, unsub) else Outcome(SetManager(c, b, m), Ok)
  }

  function CreateHandler(c: Conn, ds: DataStream, sub: Suback): Outcome {
    if ds.source.mqtt.Some? then Register(c, ds.source.mqtt.value, sub) else Outcome(c, Ok)
  }

  /** The cache flush that opens `UpdateHandler`. */
  function FlushForUpdate(c: Conn, prev: DataStream, next: DataStream): Conn {
    if prev.retention != next.retention then c.(cache := map[]) else c
  }

  /** Leave the stream's source and forget its waiting registration. */
  function DropSource(c: Conn, ds: DataStream, unsub: Unsuback): Outcome
    requires ds.source.mqtt.Some?
  {
    var dropped := Unregister(c, ds.source.mqtt.value, unsub);
    if dropped.status != Ok then dropped
    else Outcome(dropped.conn.(failed := dropped.conn.failed - {ds.name}), Ok)
  }

  /** `UpdateHandler` when the source pointer has changed, after the cache flush. */
  function SwapSource(c: Conn, prev: DataStream, next: DataStream, unsub: Unsuback, sub: Suback): Outcome {
    var dropped :=
      if prev.source.mqtt.Some? then DropSource(c, prev, unsub)
      else Outcome(c.(failed := c.failed - {prev.name}), Ok);
    if dropped.status != Ok then dropped else CreateHandler(dropped.conn, next, sub)
  }

  function UpdateHandler(c: Conn, prev: DataStream, next: DataStream, unsub: Unsuback, sub: Suback): Outcome {
    var c1 := FlushForUpdate(c, prev, next);
    if prev.source.mqtt == next.source.mqtt then Outcome(c1, Ok) else SwapSource(c1, prev, next, unsub, sub)
  }

  function DeleteHandler(c: Conn, prev: DataStream, unsub: Unsuback): Outcome {
    var c1 := c.(cache := map[]);
    if prev.source.mqtt.None? then Outcome(c1, Ok) else DropSource(c1, prev, unsub)
  }

  /** One waiting registration retried: on success it leaves the table. */
  function RetryOne(c: Conn, id: string, sub: Suback): Conn
    requires id in c.failed
  {
    var r := Register(c, c.failed[id], sub);
    if r.status == Ok then r.conn.(failed := r.conn.failed - {id}) else r.conn
  }

  lemma RetryOneForgetsOne(c: Conn, id: string, sub: Suback)
    requires id in c.failed
    ensures RetryOne(c, id, sub).failed in {c.failed, c.failed - {id}}
  {
  }

  /** A retry pass visits the waiting registrations in some order. */
  ghost predicate RetryOrder(c: Conn, order: seq<string>) {
    && (forall i, j :: 0 <= i < j < |order| ==> order[i] != order[j])
    && (forall id :: id in order <==> id in c.failed)
  }

  /** The pass over `order`, with `answers[i]` the broker's answer to the i-th attempt. */
  function RetryPass(c: Conn, order: seq<string>, answers: seq<Suback>): Conn
    requires |order| == |answers|
    decreases |order|
  {
    if order == [] then c
    else
      var c1 := if order[0] in c.failed then RetryOne(c, order[0], answers[0]) else c;
      RetryPass(c1, order[1..], answers[1..])
  }

  lemma RetryPassNext(c: Conn, order: seq<string>, answers: seq<Suback>, i: nat)
    requires i < |order| == |answers| && order[i] in c.failed
    ensures RetryPass(c, order[i..], answers[i..])
         == RetryPass(RetryOne(c, order[i], answers[i]), order[i + 1..], answers[i + 1..])
  {
    assert order[i..][1..] == order[i + 1..] && answers[i..][1..] == answers[i + 1..];
  }

  /** One stream handled by `Start`. */
  function StartOne(c: Conn, ds: DataStream, sub: Suback): Outcome {
    if ds.source.srcType != MQTT_TYPE then
      Outcome(c, Ok)
    else if ds.source.mqtt.None? then
      Outcome(c, Panic)
    else
      var r := Register(c, ds.source.mqtt.value, sub);
      if r.status == Ok then r
      else Outcome(r.conn.(failed := r.conn.failed[ds.name := ds.source.mqtt.value]), Ok)
  }

  function StartAll(c: Conn, streams: seq<DataStream>, answers: seq<Suback>): Outcome
    requires |streams| == |answers|
    decreases |streams|
  {
    if streams == [] then Outcome(c, Ok)
    else
      var r := StartOne(c, streams[0], answers[0]);
      if r.status != Ok then r else StartAll(r.conn, streams[1..], answers[1..])
  }

  /** Handling some streams and then the others. */
  lemma {:induction false} StartAllJoin(c: Conn, streams: seq<DataStream>, answers: seq<Suback>, n: nat)
    requires n <= |streams| == |answers|
    ensures var first := StartAll(c, streams[..n], answers[..n]);
            StartAll(c, streams, answers) == if first.status != Ok then first else StartAll(first.conn, streams[n..], answers[n..])
    decreases n
  {
    if n == 0 {
      assert streams[0..] == streams && answers[0..] == answers;
    } else {
      var r := StartOne(c, streams[0], answers[0]);
      assert streams[..n][1..] == streams[1..][..n - 1] && answers[..n][1..] == answers[1..][..n - 1];
      assert streams[1..][n - 1..] == streams[n..] && answers[1..][n - 1..] == answers[n..];
      StartAllJoin(r.conn, streams[1..], answers[1..], n - 1);
    }
  }

  /** The connection drops: a clean session ends with it (section 3.1.2.4 of MQTT 3.1.1). */
  function ConnectionLost(c: Conn, b: string): Conn
    requires b in c.managers
  {
    SetManager(c, b, c.managers[b].(client := ClientState(false, false, map[])))
  }

  /** The client reconnects; the on-connect handler has yet to run. */
  function Reconnected(c: Conn, b: string): Conn
    requires b in c.managers
  {
    SetManager(c, b, c.managers[b].(client := ClientState(true, false, map[])))
  }

  /** `onConnectHandler` between the connector's own calls. */
  function OnConnect(c: Conn, b: string, refused: set<string>): Conn
    requires b in c.managers
  {
    SetManager(c, b, Resubscribed(c.managers[b], refused))
  }

  /** The same waiting table, and the same subscriptions of the same managers. */
  ghost predicate SameSubs(c: Conn, c1: Conn) {
    && c1.failed == c.failed && c1.managers.Keys == c.managers.Keys
    && forall b :: b in c.managers ==> c1.managers[b].subs == c.managers[b].subs
  }

  /** Sessions come and go, the subscriptions stay. */
  lemma SessionsKeepSubs(c: Conn, b: string, refused: set<string>)
    requires b in c.managers
    ensures SameSubs(c, ConnectionLost(c, b)) && SameSubs(c, Reconnected(c, b)) && SameSubs(c, OnConnect(c, b, refused))
  {
  }
}
