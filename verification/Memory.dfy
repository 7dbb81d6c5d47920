/** registry/memory.go: the in-memory registry. */
module Memory {
  import opened Wrappers
  import opened Streams
  import opened Filtering
  import opened Validation
  import opened Ordering
  import opened Paging
  import opened ConnectorSpec
  import opened EventsSpec
  import opened IngestSpec
  import opened RegistrySpec
  import opened Events

  /** Some order in which Go's map iteration visits the keys. */
  ghost predicate Enumerates(keys: seq<string>, all: set<string>) {
    && (forall i, j :: 0 <= i < j < |keys| ==> keys[i] != keys[j])
    && (forall k :: k in keys <==> k in all)
  }

  /** A page of the matching streams, put in some order. */
  ghost predicate InSomeOrder(data: Registry, c: Criterion, page: int, perPage: int, streams: seq<DataStream>) {
    && page >= 1 && perPage >= 1
    && exists order :: Enumerates(order, MatchingKeys(data, c)) && streams == PageOf(StreamsAt(data, order), page, perPage)
  }

  class MemoryStorage {
    var data: Registry
    var resources: map<string, string>
    var lastModified: int
    const event: EventHandler

    constructor (event: EventHandler, now: int)
      ensures this.event == event && Model() == MemState(map[], map[], now) && InStep(Model())
    {
      this.event := event;
      data, resources, lastModified := map[], map[], now;
    }

    function Model(): MemState
      reads this
    {
      MemState(data, resources, lastModified)
    }

    ghost predicate Valid()
      reads this, event.connector, event.connector.Repr
    {
      InStep(Model()) && event.Valid() && this !in event.connector.Repr
    }

    method Add(ds: DataStream, replies: seq<Reply>, now: int) returns (r: StreamResult)
      requires Valid() && |replies| == |event.listeners|
      modifies this, event.store, event.connector.Repr
      ensures Valid() && fresh(event.connector.Repr - old(event.connector.Repr))
      ensures var n := if AcceptsCreation(ds) then Created(event.listeners, old(event.Model()), ds, replies)
                       else Notified(old(event.Model()), Ok);
              event.Model() == n.world && (Model(), r) == MemAdd(old(Model()), ds, n.status, now)
    {
      var e := ValidateCreation(ds);
      if e.Err() {
        return Failure(Conflict);
      }
      // Send a create event
      var status := event.Created(ds, replies);
      if status != Ok {
        return Failure(ListenerFailed(status));
      }
      r := Keep(ds, now);
    }

    /** The end of `Add`, once the listeners have agreed. */
    method Keep(ds: DataStream, now: int) returns (r: StreamResult)
      requires InStep(Model()) && AcceptsCreation(ds)
      modifies this
      ensures InStep(Model()) && (Model(), r) == MemAdd(old(Model()), ds, Ok, now)
    {
      if ds.name in resources {
        return Failure(Conflict);
      }
      data := data[ds.name := ds];
      // Add secondary index
      resources := resources[ds.name := ds.name];
      lastModified := now;
      return Success(data[ds.name]);
    }

    method Update(id: string, ds: DataStream, replies: seq<Reply>, now: int) returns (r: StreamResult)
      requires Valid() && |replies| == |event.listeners|
      modifies this, event.store, event.connector.Repr
      ensures Valid() && fresh(event.connector.Repr - old(event.connector.Repr))
      ensures var n := if id in old(data) && AcceptsUpdate(ds, old(data)[id])
                       then Updated(event.listeners, old(event.Model()), old(data)[id], Modified(old(data)[id], ds), replies)
                       else Notified(old(event.Model()), Ok);
              event.Model() == n.world && (Model(), r) == MemUpdate(old(Model()), id, ds, n.status, now)
    {
      if id !in data {
        return Failure(NotFound);
      }
      var prev := data[id]; // for comparison
      var e := ValidateUpdate(ds, prev);
      if e.Err() {
        return Failure(Conflict);
      }
      var temp := prev;
      // Modify writable elements
      temp := temp.(fn := ds.fn);
      temp := temp.(retention := ds.retention);
      temp := temp.(source := ds.source);
      temp := temp.(meta := ds.meta);
      // Send an update event
      var status := event.Updated(prev, temp, replies);
      if status != Ok {
        return Failure(ListenerFailed(status));
      }
      data := data[id := temp];
      lastModified := now;
      return Success(data[id]);
    }

    method Delete(name: string, replies: seq<Reply>, now: int) returns (error: Option<RegError>)
      requires Valid() && |replies| == |event.listeners|
      modifies this, event.store, event.connector.Repr
      ensures Valid() && fresh(event.connector.Repr - old(event.connector.Repr))
      ensures var n := if name in old(data) then Deleted(event.listeners, old(event.Model()), old(data)[name], replies)
                       else Notified(old(event.Model()), Ok);
              event.Model() == n.world && (Model(), error) == MemDelete(old(Model()), name, n.status, now)
    {
      if name !in data {
        return Some(NotFound);
      }
      // Send a delete event
      var status := event.Deleted(data[name], replies);
      if status != Ok {
        return Some(ListenerFailed(status));
      }
      resources := resources - {data[name].name};
      data := data - {name};
      lastModified := now;
      return None;
    }

    method Get(id: string) returns (r: StreamResult)
      ensures r == MemGet(Model(), id)
    {
      if id !in data {
        return Failure(NotFound);
      }
      return Success(data[id]);
    }

    /** The keys, in the order the map happens to give them. */
    method CollectKeys() returns (keys: seq<string>)
      ensures Enumerates(keys, data.Keys)
    {
      keys := [];
      var left := data.Keys;
      while left != {}
        invariant left <= data.Keys && Enumerates(keys, data.Keys - left)
        decreases |left|
      {
        var k :| k in left;
        keys := keys + [k];
        left := left - {k};
      }
    }

    method Read(keys: seq<string>) returns (streams: seq<DataStream>)
      requires forall k :: k in keys ==> k in data
      ensures streams == StreamsAt(data, keys)
    {
      streams := [];
      var i := 0;
      while i < |keys|
        invariant i <= |keys| && streams == StreamsAt(data, keys)[..i]
      {
        assert keys[i] in keys;
        streams := streams + [data[keys[i]]];
        i := i + 1;
      }
    }

    method GetMany(page: int, perPage: int) returns (r: Result<Page, RegError>)
      ensures r == MemGetMany(Model(), page, perPage)
      ensures r.Success? <==> page >= 1 && 1 <= perPage <= 100
    {
      var allKeys := CollectKeys();
      SortedIsSortedKeys(allKeys, data.Keys);
      allKeys := SortStrings(allKeys);
      if !ValidPaging(page, perPage, MAX_PER_PAGE) {
        return Failure(BadPage);
      }
      PageOfStreams(data, allKeys, page, perPage);
      var streams := Read(GetPageOfSlice(allKeys, page, perPage));
      return Success(Page(streams, |data|));
    }

    /** The names of the matching streams, in the order the map happens to give them, unless
        the filter fails on one. */
    method Matching(c: Criterion) returns (failed: bool, matched: seq<string>)
      requires InStep(Model())
      ensures failed <==> AnyFails(data, c)
      ensures !failed ==> Enumerates(matched, MatchingKeys(data, c))
    {
      matched := [];
      var left := data.Keys;
      while left != {}
        invariant left <= data.Keys
        invariant forall k :: k in data && k !in left ==> !Fails(c, data[k])
        invariant forall i, j :: 0 <= i < j < |matched| ==> matched[i] != matched[j]
        invariant forall k :: k in matched <==> k in data && k !in left && Matches(c, data[k])
        decreases |left|
      {
        var k :| k in left;
        var match1 := MatchObject(c, data[k]);
        if match1.None? {
          return true, [];
        }
        if match1.value {
          matched := matched + [data[k].name];
        }
        left := left - {k};
      }
      failed := false;
    }

    /** One page of the matching streams, in whatever order the map gave; the total is their
        number. */
    method Filter(c: Criterion, page: int, perPage: int) returns (r: Result<Page, RegError>)
      requires InStep(Model())
      ensures TallyOf(r) == MemTally(Model(), c, page, perPage)
      ensures r.Success? <==> !AnyFails(data, c) && page >= 1 && 1 <= perPage <= 100
      ensures r.Success? ==> InSomeOrder(data, c, page, perPage, r.value.streams)
    {
      var failed, matched := Matching(c);
      if failed {
        return Failure(BadFilter);
      }
      EnumerationLength(matched, MatchingKeys(data, c));
      if !ValidPaging(page, perPage, MAX_PER_PAGE) {
        return Failure(BadPage);
      }
      PageOfStreams(data, matched, page, perPage);
      var dss := Read(GetPageOfSlice(matched, page, perPage));
      ReadInOrder(data, c, page, perPage, matched, dss);
      return Success(Page(dss, |matched|));
    }

    /** The first match the map gives, if there is one. */
    method FilterOne(c: Criterion) returns (r: Result<Option<DataStream>, RegError>)
      requires InStep(Model())
      ensures FoundOf(r) == MemFound(Model(), c)
      ensures r.Success? && r.value.Some? ==>
                && r.value.value.name in MatchingKeys(data, c)
                && r.value.value == data[r.value.value.name]
    {
      var left := data.Keys;
      while left != {}
        invariant left <= data.Keys && MatchingKeys(data, c) <= left
        invariant forall k :: k in data && k !in left ==> !Fails(c, data[k])
        decreases |left|
      {
        var k :| k in left;
        var matched := MatchObject(c, data[k]);
        if matched.None? {
          return Failure(BadFilter);
        }
        if matched.value {
          assert k in MatchingKeys(data, c);
          return Success(Some(data[k]));
        }
        left := left - {k};
      }
      return Success(None);
    }
  }

  lemma ReadInOrder(data: Registry, c: Criterion, page: int, perPage: int, order: seq<string>, streams: seq<DataStream>)
    requires page >= 1 && perPage >= 1 && Enumerates(order, MatchingKeys(data, c)) && |order| == |MatchingKeys(data, c)|
    requires streams == PageOf(StreamsAt(data, order), page, perPage)
    ensures InSomeOrder(data, c, page, perPage, streams)
    ensures |streams| == WindowOf(|MatchingKeys(data, c)|, page, perPage).limit
  {
  }

  lemma {:induction false} EnumerationLength(keys: seq<string>, all: set<string>)
    requires Enumerates(keys, all)
    ensures |keys| == |all|
    decreases |keys|
  {
    if keys == [] {
      assert all == {};
    } else {
      assert keys == [keys[0]] + keys[1..];
      assert keys[0] in all;
      EnumerationLength(keys[1..], all - {keys[0]});
    }
  }
}
