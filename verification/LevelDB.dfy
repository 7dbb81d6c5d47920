/** registry/leveldb.go: the registry kept in a LevelDB database. */
module LevelDB {
  import opened Wrappers
  import opened Streams
  import opened Filtering
  import opened Validation
  import opened Paging
  import opened ConnectorSpec
  import opened EventsSpec
  import opened IngestSpec
  import opened RegistrySpec
  import opened Backends
  import opened Events

  class LevelDBStorage {
    var db: Db
    var lastModified: int
    const event: EventHandler

    constructor (event: EventHandler, db: Db, now: int)
      requires Ordered(db)
      ensures this.event == event && Model() == LevelState(db, now)
    {
      this.event := event;
      this.db, lastModified := db, now;
    }

    function Model(): LevelState
      reads this
    {
      LevelState(db, lastModified)
    }

    ghost predicate Valid()
      reads this, event.connector, event.connector.Repr
    {
      && SoundDb(db)
      && event.Valid() && this !in event.connector.Repr
    }

    method Add(ds: DataStream, replies: seq<Reply>, now: int) returns (r: StreamResult)
      requires Valid() && |replies| == |event.listeners|
      modifies this, event.store, event.connector.Repr
      ensures Valid() && fresh(event.connector.Repr - old(event.connector.Repr))
      ensures var n := if AcceptsCreation(ds) && DbGet(old(db), ds.name).None?
                       then Created(event.listeners, old(event.Model()), ds, replies)
                       else Notified(old(event.Model()), Ok);
              event.Model() == n.world && (Model(), r) == LevelAdd(old(Model()), ds, n.status, now)
    {
      PutWrites(db, ds.name, ds);
      var e := ValidateCreation(ds);
      if e.Err() {
        return Failure(Conflict);
      }
      if DbGet(db, ds.name).Some? {
        return Failure(Conflict);
      }
      // Add the new DataSource to database
      db := DbPut(db, ds.name, ds);
      // Send a create event
      var status := event.Created(ds, replies);
      if status != Ok {
        return Failure(ListenerFailed(status));
      }
      lastModified := now;
      return Success(ds);
    }

    /** The old and the new stream are one object when the listeners hear of them. */
    method Update(name: string, ds: DataStream, replies: seq<Reply>, now: int) returns (r: StreamResult)
      requires Valid() && |replies| == |event.listeners|
      modifies this, event.store, event.connector.Repr
      ensures Valid() && fresh(event.connector.Repr - old(event.connector.Repr))
      ensures var prev := DbGet(old(db), name);
              var n := if prev.Some? && AcceptsUpdate(ds, prev.value)
                       then Updated(event.listeners, old(event.Model()), Modified(prev.value, ds), Modified(prev.value, ds), replies)
                       else Notified(old(event.Model()), Ok);
              event.Model() == n.world && (Model(), r) == LevelUpdate(old(Model()), name, ds, n.status, now)
    {
      GetReads(db, name);
      var prev := DbGet(db, name);
      if prev.None? {
        return Failure(NotFound);
      }
      var e := ValidateUpdate(ds, prev.value);
      if e.Err() {
        return Failure(Conflict);
      }
      var temp := prev.value.(fn := ds.fn, retention := ds.retention, source := ds.source, meta := ds.meta);
      PutWrites(db, temp.name, temp);
      // Send an update event
      var status := event.Updated(temp, temp, replies);
      if status != Ok {
        return Failure(ListenerFailed(status));
      }
      db := DbPut(db, temp.name, temp);
      lastModified := now;
      return Success(temp);
    }

    method Delete(name: string, replies: seq<Reply>, now: int) returns (error: Option<RegError>)
      requires Valid() && |replies| == |event.listeners|
      modifies this, event.store, event.connector.Repr
      ensures Valid() && fresh(event.connector.Repr - old(event.connector.Repr))
      ensures var prev := DbGet(old(db), name);
              var n := if prev.Some? then Deleted(event.listeners, old(event.Model()), prev.value, replies)
                       else Notified(old(event.Model()), Ok);
              event.Model() == n.world && (Model(), error) == LevelDelete(old(Model()), name, n.status, now)
    {
      DeleteRemoves(db, name);
      var prev := DbGet(db, name);
      if prev.None? {
        return Some(NotFound);
      }
      // Send a delete event
      var status := event.Deleted(prev.value, replies);
      if status != Ok {
        return Some(ListenerFailed(status));
      }
      db := DbDelete(db, name);
      lastModified := now;
      return None;
    }

    method Get(id: string) returns (r: StreamResult)
      ensures r == LevelGet(Model(), id)
    {
      var ds := DbGet(db, id);
      if ds.None? {
        return Failure(NotFound);
      }
      return Success(ds.value);
    }

    method GetTotal() returns (counter: nat)
      ensures counter == |db|
    {
      var iter := Scan(db, None, None);
      ScanEverything(db);
      counter := 0;
      while counter < |iter|
        invariant counter <= |iter|
      {
        counter := counter + 1;
      }
    }

    /** Every key, read with an iterator over the whole database. */
    method ReadKeys() returns (keys: seq<string>)
      ensures keys == Keys(db)
    {
      var iter := Scan(db, None, None);
      ScanEverything(db);
      keys := [];
      var i := 0;
      while i < |iter|
        invariant i <= |iter| && keys == Keys(db)[..i]
      {
        keys := keys + [iter[i].key];
        i := i + 1;
      }
    }

    /** The streams an iterator gives. */
    method ReadValues(iter: Db) returns (streams: seq<DataStream>)
      ensures streams == Values(iter)
    {
      streams := [];
      var i := 0;
      while i < |iter|
        invariant i <= |iter| && streams == Values(iter)[..i]
      {
        streams := streams + [iter[i].value];
        i := i + 1;
      }
    }

    method GetMany(page: int, perPage: int) returns (r: Result<Page, RegError>)
      requires Ordered(db)
      ensures r == LevelGetMany(Model(), page, perPage)
      ensures r.Success? <==> page >= 1 && 1 <= perPage <= 100
      ensures r.Success? ==>
                && r.value.streams == PageOf(Listing(Contents(db)), page, perPage)
                && r.value.total == if r.value.streams == [] then 0 else |Contents(db)|
    {
      var total := GetTotal();
      // Extract keys from database
      var keys := ReadKeys();
      if !ValidPaging(page, perPage, MAX_PER_PAGE) {
        return Failure(BadPage);
      }
      LevelPage(Model(), page, perPage);
      var w := GetPagingAttr(total, page, perPage);
      // page/registry is empty
      if w.limit == 0 {
        return Success(Page([], 0));
      }
      // an absent end is a key after all keys
      var end := None;
      if w.offset + w.limit < |keys| {
        end := Some(keys[w.offset + w.limit]);
      }
      var streams := ReadValues(Scan(db, Some(keys[w.offset]), end));
      return Success(Page(streams, total));
    }

    /** The first match an iterator comes to, unless the filter fails before. */
    method FirstMatch(c: Criterion, iter: Db) returns (failed: bool, ds: Option<DataStream>)
      ensures failed ==> FailsOnSome(Values(iter), c)
      ensures !failed ==>
                var found := Select(Values(iter), c);
                ds == (if found == [] then None else Some(found[0])) && (found == [] ==> !FailsOnSome(Values(iter), c))
    {
      ghost var values := Values(iter);
      var i := 0;
      assert values[0..] == values;
      while i < |iter|
        invariant i <= |iter|
        invariant forall j :: 0 <= j < i ==> !Fails(c, values[j])
        invariant Select(values, c) == Select(values[i..], c)
      {
        assert values[i..][0] == iter[i].value && values[i..][1..] == values[i + 1..];
        var matched := MatchObject(c, iter[i].value);
        if matched.None? {
          return true, None;
        }
        if matched.value {
          return false, Some(iter[i].value);
        }
        i := i + 1;
      }
      return false, None;
    }

    /** The first matching stream in key order, if there is one. */
    method FilterOne(c: Criterion) returns (r: Result<Option<DataStream>, RegError>)
      requires Ordered(db)
      ensures r == LevelFilterOne(Model(), c)
    {
      IteratesListing(db);
      FailuresAreStored(db, c);
      ScanEverything(db);
      var failed, ds := FirstMatch(c, Scan(db, None, None));
      if failed {
        return Failure(BadFilter);
      }
      MatchExcludesFailure(Values(db), c);
      return Success(ds);
    }

    /** The names of the matching streams, in key order, unless the filter fails on one. */
    method Matching(c: Criterion) returns (failed: bool, matched: seq<string>)
      ensures failed <==> FailsOnSome(Values(db), c)
      ensures !failed ==> matched == NamesOf(Select(Values(db), c))
    {
      matched := [];
      var iter := Scan(db, None, None);
      ScanEverything(db);
      var i := 0;
      while i < |iter|
        invariant i <= |iter| && matched == NamesOf(Select(Values(db)[..i], c))
        invariant forall j :: 0 <= j < i ==> !Fails(c, Values(db)[j])
      {
        MatchStep(Values(db), i, c);
        var match1 := MatchObject(c, iter[i].value);
        if match1.None? {
          assert Fails(c, Values(db)[i]);
          return true, [];
        }
        if match1.value {
          matched := matched + [iter[i].value.name];
        }
        i := i + 1;
      }
      assert Values(db)[..i] == Values(db);
      failed := false;
    }

    /** The streams of some names, each read with a Get. */
    method Read(names: seq<string>, ghost streams: seq<DataStream>) returns (datasources: seq<DataStream>)
      requires names == NamesOf(streams)
      requires forall i :: 0 <= i < |streams| ==> DbGet(db, streams[i].name) == Some(streams[i])
      ensures datasources == streams
    {
      datasources := [];
      var i := 0;
      while i < |names|
        invariant i <= |names| && datasources == streams[..i]
      {
        var ds := Get(names[i]);
        datasources := datasources + [ds.value];
        i := i + 1;
      }
    }

    /** One page of the matching streams in key order, and how many match. */
    method Filter(c: Criterion, page: int, perPage: int) returns (r: Result<Page, RegError>)
      requires Ordered(db) && Keyed(Contents(db))
      ensures r == LevelFilter(Model(), c, page, perPage)
      ensures r.Success? <==> !AnyFails(Contents(db), c) && page >= 1 && 1 <= perPage <= 100
    {
      IteratesListing(db);
      FailuresAreStored(db, c);
      ghost var found := Select(Values(db), c);
      var failed, matched := Matching(c);
      if failed {
        return Failure(BadFilter);
      }
      // Apply pagination
      if !ValidPaging(page, perPage, MAX_PER_PAGE) {
        return Failure(BadPage);
      }
      PageOfNames(found, page, perPage);
      SelectedAreStored(db, c, page, perPage);
      var datasources := Read(GetPageOfSlice(matched, page, perPage), PageOf(found, page, perPage));
      return Success(Page(datasources, |matched|));
    }
  }

  lemma MatchExcludesFailure(xs: seq<DataStream>, c: Criterion)
    ensures Select(xs, c) != [] ==> !FailsOnSome(xs, c)
  {
    SelectMembers(xs, c);
    if Select(xs, c) != [] {
      assert Select(xs, c)[0] in Select(xs, c);
      forall j | 0 <= j < |xs| ensures !Fails(c, xs[j]) {
        FailsOrMatches(c, xs[j], Select(xs, c)[0]);
      }
    }
  }

  predicate FailsOnSome(streams: seq<DataStream>, c: Criterion) {
    exists j :: 0 <= j < |streams| && Fails(c, streams[j])
  }

  lemma FailuresAreStored(db: Db, c: Criterion)
    requires Ordered(db)
    ensures AnyFails(Contents(db), c) <==> FailsOnSome(Values(db), c)
  {
    if AnyFails(Contents(db), c) {
      var k :| k in Contents(db) && Fails(c, Contents(db)[k]);
      ContentsKeys(db);
      var j :| 0 <= j < |db| && Keys(db)[j] == k;
      ContentsAt(db, j);
      assert Fails(c, Values(db)[j]);
    } else {
      forall j | 0 <= j < |db| ensures !Fails(c, Values(db)[j]) {
        ContentsAt(db, j);
      }
    }
  }

  lemma {:induction false} ScanEverything(db: Db)
    ensures Scan(db, None, None) == db
    decreases |db|
  {
    if db != [] {
      ScanEverything(db[1..]);
    }
  }

  function NamesOf(streams: seq<DataStream>): (out: seq<string>)
    ensures |out| == |streams|
    ensures forall i :: 0 <= i < |streams| ==> out[i] == streams[i].name
  {
    seq(|streams|, i requires 0 <= i < |streams| => streams[i].name)
  }

  lemma {:induction false} SelectAppend(xs: seq<DataStream>, x: DataStream, c: Criterion)
    ensures Select(xs + [x], c) == Select(xs, c) + if Matches(c, x) then [x] else []
    decreases |xs|
  {
    if xs == [] {
      assert xs + [x] == [x];
    } else {
      assert (xs + [x])[1..] == xs[1..] + [x];
      SelectAppend(xs[1..], x, c);
    }
  }

  lemma MatchStep(xs: seq<DataStream>, i: nat, c: Criterion)
    requires i < |xs|
    ensures NamesOf(Select(xs[..i + 1], c)) == NamesOf(Select(xs[..i], c)) + if Matches(c, xs[i]) then [xs[i].name] else []
  {
    assert xs[..i + 1] == xs[..i] + [xs[i]];
    SelectAppend(xs[..i], xs[i], c);
  }

  lemma PageOfNames(streams: seq<DataStream>, page: int, perPage: int)
    requires page >= 1 && perPage >= 1
    ensures GetPageOfSlice(NamesOf(streams), page, perPage) == NamesOf(PageOf(streams, page, perPage))
    ensures forall ds :: ds in PageOf(streams, page, perPage) ==> ds in streams
  {
  }

  lemma {:induction false} SelectMembers(xs: seq<DataStream>, c: Criterion)
    ensures forall x :: x in Select(xs, c) <==> x in xs && Matches(c, x)
    decreases |xs|
  {
    if xs != [] {
      SelectMembers(xs[1..], c);
      assert xs == [xs[0]] + xs[1..];
    }
  }

  lemma SelectedAreStored(db: Db, c: Criterion, page: int, perPage: int)
    requires Ordered(db) && Keyed(Contents(db)) && page >= 1 && perPage >= 1
    ensures var found := PageOf(Select(Values(db), c), page, perPage);
            forall i :: 0 <= i < |found| ==> DbGet(db, found[i].name) == Some(found[i])
  {
    var found := PageOf(Select(Values(db), c), page, perPage);
    SelectMembers(Values(db), c);
    PageOfNames(Select(Values(db), c), page, perPage);
    forall i | 0 <= i < |found| ensures DbGet(db, found[i].name) == Some(found[i]) {
      assert found[i] in found;
      assert found[i] in Values(db);
      var j :| 0 <= j < |db| && db[j].value == found[i];
      ContentsAt(db, j);
      GetReads(db, found[i].name);
    }
  }

  /** The pages of a filter, read one after the other, are the matching streams of the
      listing, in its order. */
  lemma FilterPagesCover(reg: Registry, c: Criterion, perPage: int)
    requires perPage >= 1
    ensures var found := Select(Listing(reg), c);
            && FirstPages(found, PageCount(|found|, perPage), perPage) == found
            && forall ds :: ds in found <==> ds in Listing(reg) && Matches(c, ds)
  {
    PagesCover(Select(Listing(reg), c), perPage);
    SelectMembers(Listing(reg), c);
  }
}
