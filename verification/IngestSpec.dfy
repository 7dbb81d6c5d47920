/** What the two ingestion paths (`Submit` in data/http.go, `onMessage` in data/mqtt.go)
    accept and how they group it, on values. */
module IngestSpec {
  import opened Wrappers
  import opened Streams

  type Registry = map<string, DataStream>

  /** Every stream is registered under its own name. */
  ghost predicate Keyed(reg: Registry) {
    forall n :: n in reg ==> reg[n].name == n
  }

  function Names(records: seq<Record>): set<string> {
    set r | r in records :: r.name
  }

  function OfName(records: seq<Record>, n: string): seq<Record>
    decreases |records|
  {
    if records == [] then []
    else (if records[0].name == n then [records[0]] else []) + OfName(records[1..], n)
  }

  /** The positions of the records named `n`, in order. */
  ghost function Positions(records: seq<Record>, n: string): (ps: seq<nat>)
    ensures forall i :: 0 <= i < |ps| ==> ps[i] < |records|
    decreases |records|
  {
    if records == [] then []
    else
      var last := |records| - 1;
      Positions(records[..last], n) + (if records[last].name == n then [last] else [])
  }

  function Groups(records: seq<Record>): map<string, seq<Record>> {
    map n | n in Names(records) :: OfName(records, n)
  }

  lemma {:induction false} OfNameAppend(xs: seq<Record>, r: Record, n: string)
    ensures OfName(xs + [r], n) == OfName(xs, n) + if r.name == n then [r] else []
    decreases |xs|
  {
    if xs == [] {
      assert xs + [r] == [r];
      assert [r][1..] == [];
    } else {
      assert (xs + [r])[0] == xs[0] && (xs + [r])[1..] == xs[1..] + [r];
      OfNameAppend(xs[1..], r, n);
      var head := if xs[0].name == n then [xs[0]] else [];
      assert OfName(xs, n) == head + OfName(xs[1..], n);
      assert OfName(xs + [r], n) == head + OfName(xs[1..] + [r], n);
    }
  }

  lemma {:induction false} PositionsInOrder(records: seq<Record>, n: string)
    ensures var ps := Positions(records, n);
            && (forall i, j :: 0 <= i < j < |ps| ==> ps[i] < ps[j])
            && forall k: nat :: k in ps <==> k < |records| && records[k].name == n
    decreases |records|
  {
    if records != [] {
      var last := |records| - 1;
      var before := Positions(records[..last], n);
      PositionsInOrder(records[..last], n);
      forall k: nat ensures k in Positions(records, n) <==> k < |records| && records[k].name == n {
        assert k in before <==> k < last && records[k].name == n;
      }
    }
  }

  lemma {:induction false} GroupAtPositions(records: seq<Record>, n: string)
    ensures |OfName(records, n)| == |Positions(records, n)|
    ensures forall i :: 0 <= i < |Positions(records, n)| ==> OfName(records, n)[i] == records[Positions(records, n)[i]]
    decreases |records|
  {
    if records != [] {
      var last := |records| - 1;
      GroupAtPositions(records[..last], n);
      OfNameAppend(records[..last], records[last], n);
      assert records == records[..last] + [records[last]];
    }
  }

  /** A group is the in-order subsequence of the records with its name: its i-th record is
      the one at the i-th such position, and no such position is left out. */
  lemma GroupIsSubsequence(records: seq<Record>, n: string)
    ensures var ps := Positions(records, n);
            && (forall i, j :: 0 <= i < j < |ps| ==> ps[i] < ps[j])
            && (forall k: nat :: k in ps <==> k < |records| && records[k].name == n)
            && |OfName(records, n)| == |ps|
            && forall i :: 0 <= i < |ps| ==> OfName(records, n)[i] == records[ps[i]]
  {
    PositionsInOrder(records, n);
    GroupAtPositions(records, n);
  }

  /** The groups partition the records: each occurrence of a record is in the group of its
      own name and in no other. */
  lemma {:induction false} GroupsPartition(records: seq<Record>, n: string, x: Record)
    ensures multiset(OfName(records, n))[x] == if x.name == n then multiset(records)[x] else 0
    decreases |records|
  {
    if records != [] {
      GroupsPartition(records[1..], n, x);
      assert records == [records[0]] + records[1..];
      var head := if records[0].name == n then [records[0]] else [];
      assert OfName(records, n) == head + OfName(records[1..], n);
    }
  }

  lemma GroupMembers(records: seq<Record>, n: string, x: Record)
    ensures x in OfName(records, n) <==> x in records && x.name == n
  {
    GroupsPartition(records, n, x);
    assert x in OfName(records, n) <==> multiset(OfName(records, n))[x] > 0;
    assert x in records <==> multiset(records)[x] > 0;
  }

  lemma GroupsAreProper(records: seq<Record>)
    ensures forall n :: n in Groups(records) ==> Groups(records)[n] != []
    ensures forall n, r :: n in Groups(records) && r in Groups(records)[n] ==> r in records && r.name == n
  {
    forall n | n in Groups(records)
      ensures Groups(records)[n] != []
      ensures forall r :: r in Groups(records)[n] ==> r in records && r.name == n
    {
      var r :| r in records && r.name == n;
      GroupMembers(records, n, r);
      forall r | r in Groups(records)[n] ensures r in records && r.name == n {
        GroupMembers(records, n, r);
      }
    }
  }

  /** Both ingestion loops add an accepted record to the group of its stream like this. */
  method AppendTo(data: map<string, seq<Record>>, name: string, r: Record) returns (out: map<string, seq<Record>>)
    requires name == r.name
    ensures out == Appended(data, r)
  {
    out := data;
    if name !in data {
      out := out[name := []];
    }
    out := out[name := out[name] + [r]];
  }

  // ---- HTTP ----

  datatype Verdict = Fine | BadRequest | UnknownStream

  function HttpVerdict(reg: Registry, r: Record): Verdict {
    if r.name == "" then BadRequest
    else if r.name !in reg then UnknownStream
    else if !Conforms(reg[r.name].dataType, r) then BadRequest
    else Fine
  }

  /** The verdict on a whole message: the first one that is not `Fine`. */
  function HttpVerdictAll(reg: Registry, records: seq<Record>): Verdict
    decreases |records|
  {
    if records == [] then Fine
    else if HttpVerdict(reg, records[0]) != Fine then HttpVerdict(reg, records[0])
    else HttpVerdictAll(reg, records[1..])
  }

  lemma {:induction false} HttpFineMeansAll(reg: Registry, records: seq<Record>)
    ensures HttpVerdictAll(reg, records) == Fine <==> forall r :: r in records ==> HttpVerdict(reg, r) == Fine
    decreases |records|
  {
    if records != [] {
      HttpFineMeansAll(reg, records[1..]);
      assert records == [records[0]] + records[1..];
    }
  }

  /** What the check of `Submit` asks of one record, and which error it answers with. */
  lemma VerdictIs(reg: Registry, r: Record)
    ensures HttpVerdict(reg, r) == UnknownStream <==> r.name != "" && r.name !in reg
    ensures HttpVerdict(reg, r) == BadRequest
       <==> || r.name == ""
            || (r.name in reg && reg[r.name].dataType == "float" && r.value.None?)
            || (r.name in reg && reg[r.name].dataType == "string" && r.stringValue == "")
            || (r.name in reg && reg[r.name].dataType == "bool" && r.boolValue.None?)
  {
  }

  /** A message gets the verdict on its first unacceptable record. */
  lemma {:induction false} FirstVerdict(reg: Registry, records: seq<Record>, i: nat)
    requires i < |records| && HttpVerdict(reg, records[i]) != Fine
    requires forall j :: 0 <= j < i ==> HttpVerdict(reg, records[j]) == Fine
    ensures HttpVerdictAll(reg, records) == HttpVerdict(reg, records[i])
    decreases i
  {
    if i > 0 {
      assert records[1..][i - 1] == records[i];
      assert forall j :: 0 <= j < i - 1 ==> records[1..][j] == records[j + 1];
      FirstVerdict(reg, records[1..], i - 1);
    }
  }

  /** A record that carries one kind of value is accepted by the streams of that type and by
      "data" streams, and by no stream of the other two types. */
  lemma OneKindOfValue(reg: Registry, r: Record)
    requires r.name != "" && r.name in reg && reg[r.name].dataType in ["float", "string", "bool", "data"]
    ensures r.value.Some? && r.stringValue == "" && r.boolValue.None? ==>
              (HttpVerdict(reg, r) == Fine <==> reg[r.name].dataType in ["float", "data"])
    ensures r.value.None? && r.stringValue != "" && r.boolValue.None? ==>
              (HttpVerdict(reg, r) == Fine <==> reg[r.name].dataType in ["string", "data"])
    ensures r.value.None? && r.stringValue == "" && r.boolValue.Some? ==>
              (HttpVerdict(reg, r) == Fine <==> reg[r.name].dataType in ["bool", "data"])
  {
  }

  // ---- MQTT ----

  /** The stream `onMessage` finds for a name: the cached one, else the registered one. */
  function Lookup(reg: Registry, cache: Registry, n: string): Option<DataStream> {
    if n in cache then Some(cache[n]) else if n in reg then Some(reg[n]) else None
  }

  predicate Wanted(reg: Registry, cache: Registry, url: string, topic: string, r: Record) {
    var ds := Lookup(reg, cache, r.name);
    ds.Some? && Wants(ds.value, url, topic) && Conforms(ds.value.dataType, r)
  }

  function WantedOf(reg: Registry, cache: Registry, url: string, topic: string, records: seq<Record>): seq<Record>
    decreases |records|
  {
    if records == [] then []
    else (if Wanted(reg, cache, url, topic, records[0]) then [records[0]] else [])
         + WantedOf(reg, cache, url, topic, records[1..])
  }

  /** Every name looked up and found is cached afterwards, wanted or not. */
  function CacheAfter(reg: Registry, cache: Registry, records: seq<Record>): Registry {
    cache + Found(reg, cache, Names(records))
  }

  lemma {:induction false} WantedOfMembers(reg: Registry, cache: Registry, url: string, topic: string, records: seq<Record>, x: Record)
    ensures multiset(WantedOf(reg, cache, url, topic, records))[x]
         == if Wanted(reg, cache, url, topic, x) then multiset(records)[x] else 0
    decreases |records|
  {
    if records != [] {
      WantedOfMembers(reg, cache, url, topic, records[1..], x);
      assert records == [records[0]] + records[1..];
      var head := if Wanted(reg, cache, url, topic, records[0]) then [records[0]] else [];
      assert WantedOf(reg, cache, url, topic, records) == head + WantedOf(reg, cache, url, topic, records[1..]);
    }
  }

  lemma WantedOfWanted(reg: Registry, cache: Registry, url: string, topic: string, records: seq<Record>)
    ensures forall x :: x in WantedOf(reg, cache, url, topic, records)
                    <==> x in records && Wanted(reg, cache, url, topic, x)
  {
    var out := WantedOf(reg, cache, url, topic, records);
    forall x ensures x in out <==> x in records && Wanted(reg, cache, url, topic, x) {
      WantedOfMembers(reg, cache, url, topic, records, x);
      assert x in out <==> multiset(out)[x] > 0;
      assert x in records <==> multiset(records)[x] > 0;
    }
  }

  /** The stream a message is judged by is the cached one of the name, else the registered one.
      Of a message the records stay, each as often as it was sent, whose stream has a source at
      the broker and topic the message came from, and which carry the kind of value its type
      asks for. */
  lemma KeptIs(reg: Registry, cache: Registry, url: string, topic: string, records: seq<Record>, x: Record)
    ensures (x.name in cache || x.name in reg) ==>
              var ds := if x.name in cache then cache[x.name] else reg[x.name];
              multiset(WantedOf(reg, cache, url, topic, records))[x]
              == if && ds.source.mqtt.Some? && ds.source.mqtt.value.brokerURL == url && ds.source.mqtt.value.topic == topic
                    && !(ds.dataType == "float" && x.value.None?)
                    && !(ds.dataType == "string" && x.stringValue == "")
                    && !(ds.dataType == "bool" && x.boolValue.None?)
                 then multiset(records)[x] else 0
    ensures x.name !in cache && x.name !in reg ==> multiset(WantedOf(reg, cache, url, topic, records))[x] == 0
  {
    WantedOfMembers(reg, cache, url, topic, records, x);
  }

  // ---- One record at a time ----

  lemma {:induction false} WantedOfAppend(reg: Registry, cache: Registry, url: string, topic: string, xs: seq<Record>, r: Record)
    ensures WantedOf(reg, cache, url, topic, xs + [r])
         == WantedOf(reg, cache, url, topic, xs) + if Wanted(reg, cache, url, topic, r) then [r] else []
    decreases |xs|
  {
    if xs == [] {
      assert xs + [r] == [r];
    } else {
      assert (xs + [r])[1..] == xs[1..] + [r];
      WantedOfAppend(reg, cache, url, topic, xs[1..], r);
    }
  }

  /** A record appended to the group of its name, which it opens if it is the first. */
  function Appended(data: map<string, seq<Record>>, r: Record): map<string, seq<Record>> {
    data[r.name := (if r.name in data then data[r.name] else []) + [r]]
  }

  lemma GroupsAppend(xs: seq<Record>, r: Record)
    ensures Groups(xs + [r]) == Appended(Groups(xs), r)
  {
    assert Names(xs + [r]) == Names(xs) + {r.name};
    forall n | n in Names(xs + [r]) ensures Groups(xs + [r])[n] == Appended(Groups(xs), r)[n] {
      OfNameAppend(xs, r, n);
      if n !in Names(xs) {
        OfNameOfNone(xs, n);
      }
    }
  }

  lemma {:induction false} OfNameOfNone(xs: seq<Record>, n: string)
    requires n !in Names(xs)
    ensures OfName(xs, n) == []
    decreases |xs|
  {
    if xs != [] {
      assert xs[0].name in Names(xs);
      assert Names(xs[1..]) <= Names(xs);
      OfNameOfNone(xs[1..], n);
    }
  }

  /** What a lookup leaves in the cache. */
  function Remember(reg: Registry, cache: Registry, n: string): Registry {
    if n !in cache && n in reg then cache[n := reg[n]] else cache
  }

  /** What looking some names up adds to the cache. */
  function Found(reg: Registry, cache: Registry, names: set<string>): Registry {
    map n | n in names && n !in cache && n in reg :: reg[n]
  }

  lemma FoundOneMore(reg: Registry, cache: Registry, names: set<string>, n: string)
    ensures cache + Found(reg, cache, names + {n}) == Remember(reg, cache + Found(reg, cache, names), n)
  {
  }

  lemma LookupFound(reg: Registry, cache: Registry, names: set<string>, n: string)
    ensures Lookup(reg, cache + Found(reg, cache, names), n) == Lookup(reg, cache, n)
  {
  }

  /** Looking up one more name, after the names of a prefix have been cached. */
  lemma CacheAppend(reg: Registry, cache: Registry, xs: seq<Record>, r: Record)
    ensures CacheAfter(reg, cache, xs + [r]) == Remember(reg, CacheAfter(reg, cache, xs), r.name)
    ensures Lookup(reg, CacheAfter(reg, cache, xs), r.name) == Lookup(reg, cache, r.name)
  {
    assert Names(xs + [r]) == Names(xs) + {r.name};
    FoundOneMore(reg, cache, Names(xs), r.name);
    LookupFound(reg, cache, Names(xs), r.name);
  }

  /** One more record of a message: the cache filled so far does not change the verdict. */
  lemma MessageStep(reg: Registry, cache: Registry, url: string, topic: string, records: seq<Record>, i: nat)
    requires i < |records|
    ensures var seen, r := CacheAfter(reg, cache, records[..i]), records[i];
            && CacheAfter(reg, cache, records[..i + 1]) == Remember(reg, seen, r.name)
            && WantedOf(reg, cache, url, topic, records[..i + 1])
               == WantedOf(reg, cache, url, topic, records[..i]) + if Wanted(reg, seen, url, topic, r) then [r] else []
  {
    assert records[..i + 1] == records[..i] + [records[i]];
    CacheAppend(reg, cache, records[..i], records[i]);
    WantedOfAppend(reg, cache, url, topic, records[..i], records[i]);
  }
}
