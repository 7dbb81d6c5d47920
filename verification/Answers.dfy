/** What the operations of the registry answer and leave behind, on both backends, in the
    fields of the streams. */
module Answers {
  import opened Wrappers
  import opened Streams
  import opened Filtering
  import opened Validation
  import opened Ordering
  import opened Paging
  import opened ConnectorSpec
  import opened RegistrySpec
  import opened Backends

  // ---- Memory ----

  /** An Update goes through for a registered name if name and type stay and the listeners agree.
      The stream then has the source, function, retention and meta of the request and the old name
      and type, a Get gives it back, and every other name reads as before. */
  lemma MemUpdateAnswer(m: MemState, id: string, ds: DataStream, heard: Status, now: int)
    requires InStep(m)
    ensures var (m1, r) := MemUpdate(m, id, ds, heard, now);
            && (r.Success? <==> id in m.data && ds.name == id && ds.dataType == m.data[id].dataType && heard == Ok)
            && (r.Success? ==>
                  && r.value.source == ds.source && r.value.fn == ds.fn && r.value.retention == ds.retention && r.value.meta == ds.meta
                  && r.value.name == id && r.value.dataType == m.data[id].dataType
                  && MemGet(m1, id) == r && m1.lastModified == now)
            && (forall n :: n != id ==> MemGet(m1, n) == MemGet(m, n))
            && (r == Failure(NotFound) <==> id !in m.data)
            && (r == Failure(Conflict) <==> id in m.data && !(ds.name == id && ds.dataType == m.data[id].dataType))
            && (r.Failure? ==> r.error in [NotFound, Conflict, ListenerFailed(heard)])
  {
  }

  /** An Add goes through for a valid stream of a free name if the listeners agree. A Get then
      gives the very stream, and every other name reads as before. */
  lemma MemAddAnswer(m: MemState, ds: DataStream, heard: Status, now: int)
    requires InStep(m)
    ensures var (m1, r) := MemAdd(m, ds, heard, now);
            && (r.Success? <==> AcceptsCreation(ds) && heard == Ok && ds.name !in m.data)
            && (r.Success? ==> r.value == ds && MemGet(m1, ds.name) == Success(ds) && m1.lastModified == now)
            && (forall n :: n != ds.name ==> MemGet(m1, n) == MemGet(m, n))
            && (r == Failure(Conflict) <==> !AcceptsCreation(ds) || (heard == Ok && ds.name in m.data))
            && (r.Failure? ==> r.error in [Conflict, ListenerFailed(heard)])
  {
  }

  lemma MemDeleteAnswer(m: MemState, name: string, heard: Status, now: int)
    requires InStep(m)
    ensures var (m1, error) := MemDelete(m, name, heard, now);
            && (error.None? <==> name in m.data && heard == Ok)
            && (error.None? ==> MemGet(m1, name) == Failure(NotFound) && m1.lastModified == now)
            && (forall n :: n != name ==> MemGet(m1, n) == MemGet(m, n))
            && (error == Some(NotFound) <==> name !in m.data)
            && (error.Some? ==> error.value in [NotFound, ListenerFailed(heard)])
  {
  }

  // ---- LevelDB ----

  lemma LevelUpdateAnswer(l: LevelState, name: string, ds: DataStream, heard: Status, now: int)
    requires SoundDb(l.db)
    ensures var (l1, r) := LevelUpdate(l, name, ds, heard, now);
            var reg := Contents(l.db);
            && (r.Success? <==> name in reg && ds.name == name && ds.dataType == reg[name].dataType && heard == Ok)
            && (r.Success? ==>
                  && r.value.source == ds.source && r.value.fn == ds.fn && r.value.retention == ds.retention && r.value.meta == ds.meta
                  && r.value.name == name && r.value.dataType == reg[name].dataType
                  && LevelGet(l1, name) == r && l1.lastModified == now)
            && (forall n :: n != name ==> LevelGet(l1, n) == LevelGet(l, n))
            && (r == Failure(NotFound) <==> name !in reg)
            && (r == Failure(Conflict) <==> name in reg && !(ds.name == name && ds.dataType == reg[name].dataType))
            && (r.Failure? ==> r.error in [NotFound, Conflict, ListenerFailed(heard)] && l1 == l)
  {
    GetReads(l.db, name);
    if name in Contents(l.db) {
      OnePutReads(l.db, name, Modified(Contents(l.db)[name], ds));
    }
  }

  /** LevelDB's Add looks the name up before it asks the listeners, and when they fail the entry
      stays: a Get gives the stream although the Add has failed. */
  lemma LevelAddAnswer(l: LevelState, ds: DataStream, heard: Status, now: int)
    requires SoundDb(l.db)
    ensures var (l1, r) := LevelAdd(l, ds, heard, now);
            var valid := AcceptsCreation(ds) && ds.name !in Contents(l.db);
            && (r.Success? <==> valid && heard == Ok)
            && (r.Success? ==> r.value == ds && l1.lastModified == now)
            && (LevelGet(l1, ds.name) == if valid then Success(ds) else LevelGet(l, ds.name))
            && (forall n :: n != ds.name ==> LevelGet(l1, n) == LevelGet(l, n))
            && (r == Failure(Conflict) <==> !valid)
            && (r.Failure? ==> r.error in [Conflict, ListenerFailed(heard)] && l1.lastModified == l.lastModified)
  {
    GetReads(l.db, ds.name);
    OnePutReads(l.db, ds.name, ds);
  }

  lemma LevelDeleteAnswer(l: LevelState, name: string, heard: Status, now: int)
    requires SoundDb(l.db)
    ensures var (l1, error) := LevelDelete(l, name, heard, now);
            && (error.None? <==> name in Contents(l.db) && heard == Ok)
            && (error.None? ==> LevelGet(l1, name) == Failure(NotFound) && l1.lastModified == now)
            && (forall n :: n != name ==> LevelGet(l1, n) == LevelGet(l, n))
            && (error == Some(NotFound) <==> name !in Contents(l.db))
            && (error.Some? ==> error.value in [NotFound, ListenerFailed(heard)] && l1 == l)
  {
    GetReads(l.db, name);
    DeleteRemoves(l.db, name);
    forall n ensures LevelGet(LevelState(DbDelete(l.db, name), now), n) == if n == name then Failure(NotFound) else LevelGet(l, n) {
      GetReads(l.db, n);
      GetReads(DbDelete(l.db, name), n);
    }
  }

  /** A put is read back, and no other key reads otherwise. */
  lemma OnePutReads(db: Db, k: string, ds: DataStream)
    requires SoundDb(db) && ds.name == k
    ensures forall n :: DbGet(DbPut(db, k, ds), n) == if n == k then Some(ds) else DbGet(db, n)
  {
    PutWrites(db, k, ds);
    forall n ensures DbGet(DbPut(db, k, ds), n) == if n == k then Some(ds) else DbGet(db, n) {
      GetReads(db, n);
      GetReads(DbPut(db, k, ds), n);
    }
  }

  // ---- Pages ----

  /** Both backends answer a page exactly when its number is at least 1 and its size from 1 to
      100, and BadPage otherwise; a filter that fails on a stream is answered before. */
  lemma PagesAnswered(m: MemState, l: LevelState, c: Criterion, page: int, perPage: int)
    ensures var served := page >= 1 && 1 <= perPage <= 100;
            && (MemGetMany(m, page, perPage).Success? <==> served)
            && (LevelGetMany(l, page, perPage).Success? <==> served)
            && (MemGetMany(m, page, perPage).Failure? ==> MemGetMany(m, page, perPage).error == BadPage)
            && (LevelGetMany(l, page, perPage).Failure? ==> LevelGetMany(l, page, perPage).error == BadPage)
            && (MemTally(m, c, page, perPage).Success? <==> served && !AnyFails(m.data, c))
            && (LevelFilter(l, c, page, perPage).Success? <==> served && !AnyFails(Contents(l.db), c))
            && (MemTally(m, c, page, perPage).Failure? ==>
                  MemTally(m, c, page, perPage).error == if AnyFails(m.data, c) then BadFilter else BadPage)
            && (LevelFilter(l, c, page, perPage).Failure? ==>
                  LevelFilter(l, c, page, perPage).error == if AnyFails(Contents(l.db), c) then BadFilter else BadPage)
  {
  }

  /** The pages the connector reads while it starts are those of the backends. */
  lemma StartReadsBackends(m: MemState, l: LevelState, page: int, perPage: int)
    requires Ordered(l.db)
    ensures ReadPage(Listing(m.data), false, page, perPage) == MemGetMany(m, page, perPage)
    ensures ReadPage(Listing(Contents(l.db)), true, page, perPage) == LevelGetMany(l, page, perPage)
  {
    SortedKeysLength(m.data.Keys);
    SortedKeysLength(Contents(l.db).Keys);
    if ValidPaging(page, perPage, MAX_PER_PAGE) {
      LevelPage(l, page, perPage);
    }
  }
}
