/** The registry's data model (registry/datastream.go) and the SenML records
    that flow through the service. */
module Streams {
  import opened Wrappers

  type Byte = n: nat | n < 256

  /** A `*MQTTSource`. The connector compares these pointers, not what they point
      to, so `addr` stands for the pointer: two equal values are one pointer, two
      values that differ only in `addr` are equal sources held at two places. */
  datatype MQTTSource = MQTTSource(addr: nat, brokerURL: string, topic: string, qos: Byte)

  datatype Source = Source(srcType: string, mqtt: Option<MQTTSource>, series: Option<string>)

  datatype Retention = Retention(min: string, max: string)

  datatype DataStream = DataStream(
    name: string,
    source: Source,
    fn: string,
    dataType: string,
    meta: map<string, string>,
    retention: Retention)

  const MQTT_TYPE := "MQTT"

  const STRING := "string"
  const FLOAT := "float"
  const BOOL := "bool"
  const DATA := "data"

  /** A normalized SenML record. `time` counts ticks, `TICKS` to the second. */
  datatype Record = Record(
    name: string,
    time: int,
    value: Option<real>,
    stringValue: string,
    boolValue: Option<bool>,
    dataValue: string)

  const TICKS := 1_000_000_000

  /** The test both ingestion paths make: a record carries the kind of value its stream's
      type asks for. Nothing is asked of a "data" stream. */
  predicate Conforms(dataType: string, r: Record) {
    && (dataType == FLOAT ==> r.value.Some?)
    && (dataType == STRING ==> r.stringValue != "")
    && (dataType == BOOL ==> r.boolValue.Some?)
  }

  /** The stream asks for topic `t` of broker `b`. */
  predicate Wants(ds: DataStream, b: string, t: string) {
    ds.source.mqtt.Some? && ds.source.mqtt.value.brokerURL == b && ds.source.mqtt.value.topic == t
  }

  /** Two streams ask for the same topic of the same broker, or both for none. */
  predicate SameSource(x: DataStream, y: DataStream) {
    && x.source.mqtt.Some? == y.source.mqtt.Some?
    && (x.source.mqtt.Some? ==>
          && x.source.mqtt.value.brokerURL == y.source.mqtt.value.brokerURL
          && x.source.mqtt.value.topic == y.source.mqtt.value.topic)
  }
}
