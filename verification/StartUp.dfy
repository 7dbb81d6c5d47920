/** `Start`: the connector built from a registry that outlived the process. */
module StartUp {
  import opened Wrappers
  import opened Streams
  import opened Ordering
  import opened ConnectorSpec
  import opened IngestSpec
  import opened RegistrySpec
  import opened RefCount

  predicate Declared(ds: DataStream) {
    ds.source.mqtt.Some? ==> ds.source.srcType == MQTT_TYPE
  }

  predicate Dangling(ds: DataStream) {
    ds.source.srcType == MQTT_TYPE && ds.source.mqtt.None?
  }

  /** The registry with the streams added, one after the other. */
  function Joined(reg: Registry, streams: seq<DataStream>): Registry
    decreases |streams|
  {
    if streams == [] then reg else Joined(reg[streams[0].name := streams[0]], streams[1..])
  }

  /** What handling one stream does: count it, leave it waiting, or pass it over. */
  ghost predicate Handled(c: Conn, c1: Conn, ds: DataStream) {
    var m := ds.source.mqtt;
    && (NoDeadEntry(c) ==> NoDeadEntry(c1))
    && c1.failed.Keys <= c.failed.Keys + {ds.name}
    && if ds.source.srcType == MQTT_TYPE && m.Some? then
         || (c1.failed == c.failed && Shifted(c, c1, m.value, 1))
         || (c1.failed == c.failed[ds.name := m.value] && Shifted(c, c1, m.value, 0))
       else
         c1 == c
  }

  lemma StartOneHandles(c: Conn, ds: DataStream, sub: Suback)
    requires !Dangling(ds)
    ensures var o := StartOne(c, ds, sub); o.status == Ok && Handled(c, o.conn, ds)
  {
    if ds.source.srcType == MQTT_TYPE {
      RegisterEffect(c, ds.source.mqtt.value, sub);
    }
  }

  /** How far the counts of a pair fall short. */
  ghost function Shortfall(c: Conn, reg: Registry, b: string, t: string): int {
    Expected(c, reg, map[], b, t) - Receivers(c, b, t)
  }

  /** The counts fall short for one pair and exceed for none. */
  ghost predicate Short(c: Conn, reg: Registry) {
    && (forall b, t :: Shortfall(c, reg, b, t) >= 0)
    && (exists b, t :: Shortfall(c, reg, b, t) > 0)
  }

  /** A stream with a source that is not declared an MQTT one is missed for good. */
  lemma HandledShortfall(c: Conn, c1: Conn, reg: Registry, ds: DataStream)
    requires ds.name !in reg && ds.name !in c.failed && !Dangling(ds) && Handled(c, c1, ds)
    ensures forall b, t :: Shortfall(c1, reg[ds.name := ds], b, t)
                        == Shortfall(c, reg, b, t) + Unit(!Declared(ds) && Wants(ds, b, t))
  {
    HoldersChange(reg, c.failed, reg[ds.name := ds], c1.failed, ds.name);
  }

  /** Encoding exactly is having no shortfall. */
  lemma EncodesIsNoShortfall(c: Conn, reg: Registry)
    ensures Encodes(c, reg, map[])
       <==> NoDeadEntry(c) && WaitingKnown(reg, c.failed) && forall b, t :: Shortfall(c, reg, b, t) == 0
  {
    if forall b, t :: Shortfall(c, reg, b, t) == 0 {
      forall b, t ensures Receivers(c, b, t) == Expected(c, reg, map[], b, t) {
        assert Shortfall(c, reg, b, t) == 0;
      }
    }
    if Balanced(c, reg, map[]) {
      forall b, t ensures Shortfall(c, reg, b, t) == 0 {
        assert Receivers(c, b, t) == Expected(c, reg, map[], b, t);
      }
    }
  }

  lemma HandledExact(c: Conn, c1: Conn, reg: Registry, ds: DataStream)
    requires ds.name !in reg && ds.name !in c.failed && !Dangling(ds) && Handled(c, c1, ds)
    requires Encodes(c, reg, map[])
    ensures if Declared(ds) then Encodes(c1, reg[ds.name := ds], map[]) else Short(c1, reg[ds.name := ds])
  {
    var reg1 := reg[ds.name := ds];
    HandledShortfall(c, c1, reg, ds);
    EncodesIsNoShortfall(c, reg);
    EncodesIsNoShortfall(c1, reg1);
    forall b, t ensures Shortfall(c1, reg1, b, t) == Unit(!Declared(ds) && Wants(ds, b, t)) {
      assert Shortfall(c, reg, b, t) == 0;
    }
    if !Declared(ds) {
      var src := ds.source.mqtt.value;
      assert Shortfall(c1, reg1, src.brokerURL, src.topic) == 1;
    }
  }

  lemma HandledShort(c: Conn, c1: Conn, reg: Registry, ds: DataStream)
    requires ds.name !in reg && ds.name !in c.failed && !Dangling(ds) && Handled(c, c1, ds)
    requires Short(c, reg)
    ensures Short(c1, reg[ds.name := ds])
  {
    var reg1 := reg[ds.name := ds];
    HandledShortfall(c, c1, reg, ds);
    forall b, t ensures Shortfall(c1, reg1, b, t) >= Shortfall(c, reg, b, t) >= 0 {
    }
    var b, t :| Shortfall(c, reg, b, t) > 0;
    assert Shortfall(c1, reg1, b, t) > 0;
  }

  lemma {:induction false} StartAllExact(c: Conn, reg: Registry, streams: seq<DataStream>, answers: seq<Suback>)
    requires Encodes(c, reg, map[]) || Short(c, reg)
    requires |streams| == |answers|
    requires c.failed.Keys <= reg.Keys
    requires forall i :: 0 <= i < |streams| ==> streams[i].name !in reg && !Dangling(streams[i])
    requires forall i, j :: 0 <= i < j < |streams| ==> streams[i].name != streams[j].name
    ensures var o, reg1 := StartAll(c, streams, answers), Joined(reg, streams);
            && o.status == Ok
            && if Encodes(c, reg, map[]) && (forall i :: 0 <= i < |streams| ==> Declared(streams[i])) then
                 Encodes(o.conn, reg1, map[])
               else
                 Short(o.conn, reg1)
    decreases |streams|
  {
    if streams != [] {
      var ds, c1 := streams[0], StartOne(c, streams[0], answers[0]).conn;
      StartOneHandles(c, ds, answers[0]);
      if Encodes(c, reg, map[]) {
        HandledExact(c, c1, reg, ds);
      } else {
        HandledShort(c, c1, reg, ds);
      }
      assert forall i :: 0 <= i < |streams[1..]| ==> streams[1..][i] == streams[i + 1];
      StartAllExact(c1, reg[ds.name := ds], streams[1..], answers[1..]);
    }
  }

  lemma {:induction false} StartPanics(c: Conn, streams: seq<DataStream>, answers: seq<Suback>)
    requires |streams| == |answers|
    ensures StartAll(c, streams, answers).status == Panic <==> exists i :: 0 <= i < |streams| && Dangling(streams[i])
    ensures StartAll(c, streams, answers).status != Err
    decreases |streams|
  {
    if streams != [] && !Dangling(streams[0]) {
      StartPanics(StartOne(c, streams[0], answers[0]).conn, streams[1..], answers[1..]);
      if i :| 0 <= i < |streams| && Dangling(streams[i]) {
        assert Dangling(streams[1..][i - 1]);
      }
      if i :| 0 <= i < |streams[1..]| && Dangling(streams[1..][i]) {
        assert Dangling(streams[i + 1]);
      }
    }
  }

  lemma {:induction false} JoinedListing(reg: Registry, rest: seq<DataStream>, whole: Registry)
    requires Keyed(whole) && forall n :: n in reg ==> n in whole && reg[n] == whole[n]
    requires forall i :: 0 <= i < |rest| ==> rest[i].name in whole && whole[rest[i].name] == rest[i]
    requires forall n :: n in whole ==> n in reg || whole[n] in rest
    ensures Joined(reg, rest) == whole
    decreases |rest|
  {
    if rest == [] {
      assert reg == whole;
    } else {
      assert rest == [rest[0]] + rest[1..];
      JoinedListing(reg[rest[0].name := rest[0]], rest[1..], whole);
    }
  }

  /** `Start` dereferences nil if and only if a stream is declared an MQTT one without a
      source; it has no other way to fail. */
  lemma StartPanicsOnDangling(reg: Registry, answers: seq<Suback>)
    requires Keyed(reg) && |answers| == |Listing(reg)|
    ensures var o := StartAll(EMPTY, Listing(reg), answers);
            && (o.status == Panic <==> exists n :: n in reg && Dangling(reg[n]))
            && (o.status == Panic || o.status == Ok)
  {
    var keys, listing := SortedKeys(reg.Keys), Listing(reg);
    ListingMembers(reg);
    StartPanics(EMPTY, listing, answers);
    if i :| 0 <= i < |listing| && Dangling(listing[i]) {
      assert keys[i] in reg && Dangling(reg[keys[i]]);
    }
    if n :| n in reg && Dangling(reg[n]) {
      assert reg[n] in listing;
    }
  }

  /** Otherwise `Start` handles every stream once, and the connector encodes the registry
      exactly (each stream with a source is counted or waiting, not both) if and only if every
      stream with a source is declared an MQTT one, whatever the brokers answer. */
  lemma StartExact(reg: Registry, answers: seq<Suback>)
    requires Keyed(reg) && |answers| == |Listing(reg)|
    requires forall n :: n in reg ==> !Dangling(reg[n])
    ensures Encodes(StartAll(EMPTY, Listing(reg), answers).conn, reg, map[]) <==> forall n :: n in reg ==> Declared(reg[n])
  {
    var keys, listing := SortedKeys(reg.Keys), Listing(reg);
    var c := StartAll(EMPTY, listing, answers).conn;
    ListingMembers(reg);
    AscendingDistinct(keys);
    EmptyEncodesNothing();
    StartAllExact(EMPTY, map[], listing, answers);
    JoinedListing(map[], listing, reg);
    EncodesIsNoShortfall(c, reg);
    if n :| n in reg && !Declared(reg[n]) {
      assert reg[n] in listing;
    }
  }

  lemma {:induction false} StartWaits(c: Conn, streams: seq<DataStream>, answers: seq<Suback>, n: string)
    requires |streams| == |answers|
    ensures var c1 := StartAll(c, streams, answers).conn;
            n in c1.failed ==>
              || (n in c.failed && c.failed[n] == c1.failed[n])
              || exists i :: 0 <= i < |streams| && streams[i].name == n && streams[i].source.mqtt == Some(c1.failed[n])
    decreases |streams|
  {
    if streams != [] {
      var ds, o := streams[0], StartOne(c, streams[0], answers[0]);
      if ds.source.mqtt.Some? {
        RegisterEffect(c, ds.source.mqtt.value, answers[0]);
      }
      if o.status == Ok {
        var rest, c1 := streams[1..], StartAll(c, streams, answers).conn;
        StartWaits(o.conn, rest, answers[1..], n);
        if n in c1.failed {
          if i :| 0 <= i < |rest| && rest[i].name == n && rest[i].source.mqtt == Some(c1.failed[n]) {
            assert streams[i + 1] == rest[i];
          }
        }
      }
    }
  }

  /** A registration that waits after `Start` is its stream's own source, QoS included. */
  lemma WaitingIsOwnSource(reg: Registry, answers: seq<Suback>, n: string)
    requires Keyed(reg) && |answers| == |Listing(reg)|
    ensures var c := StartAll(EMPTY, Listing(reg), answers).conn;
            n in c.failed ==> n in reg && reg[n].source.mqtt == Some(c.failed[n])
  {
    StartWaits(EMPTY, Listing(reg), answers, n);
    ListingMembers(reg);
  }

  lemma ListingMembers(reg: Registry)
    requires Keyed(reg)
    ensures forall i :: 0 <= i < |Listing(reg)| ==>
              && SortedKeys(reg.Keys)[i] in reg
              && Listing(reg)[i] == reg[SortedKeys(reg.Keys)[i]]
              && Listing(reg)[i].name == SortedKeys(reg.Keys)[i]
    ensures forall n :: n in reg ==> reg[n] in Listing(reg)
  {
  }

  lemma EmptyEncodesNothing()
    ensures Encodes(EMPTY, map[], map[])
  {
  }
}
