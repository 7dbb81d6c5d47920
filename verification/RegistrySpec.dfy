/** The two registry backends on values. Both keep a map from name to stream: the memory
    backend in two Go maps, LevelDB in entries ordered by key. */
module RegistrySpec {
  import opened Wrappers
  import opened Streams
  import opened Filtering
  import opened Validation
  import opened Ordering
  import opened Paging
  import opened ConnectorSpec
  import opened IngestSpec

  datatype RegError = NotFound | Conflict | ListenerFailed(status: Status) | BadPage | BadFilter

  type StreamResult = Result<DataStream, RegError>

  /** A page of streams with the total the backend reports. */
  datatype Page = Page(streams: seq<DataStream>, total: int)

  /** The streams of a registry in key order. */
  ghost function Listing(reg: Registry): (out: seq<DataStream>)
    ensures |out| == |SortedKeys(reg.Keys)|
  {
    StreamsAt(reg, SortedKeys(reg.Keys))
  }

  function StreamsAt(reg: Registry, keys: seq<string>): (out: seq<DataStream>)
    requires forall k :: k in keys ==> k in reg
    ensures |out| == |keys|
  {
    seq(|keys|, i requires 0 <= i < |keys| => assert keys[i] in keys; reg[keys[i]])
  }

  /** The stored stream an Update writes: the writable elements of `ds`, the rest of `prev`. */
  function Modified(prev: DataStream, ds: DataStream): DataStream {
    prev.(fn := ds.fn, retention := ds.retention, source := ds.source, meta := ds.meta)
  }

  lemma PageOfStreams(reg: Registry, keys: seq<string>, page: int, perPage: int)
    requires page >= 1 && perPage >= 1
    requires forall k :: k in keys ==> k in reg
    ensures forall k :: k in PageOf(keys, page, perPage) ==> k in keys
    ensures StreamsAt(reg, PageOf(keys, page, perPage)) == PageOf(StreamsAt(reg, keys), page, perPage)
  {
    var w := WindowOf(|keys|, page, perPage);
    if w.limit != 0 {
      StreamsOfSlice(reg, keys, w.offset, w.offset + w.limit);
    }
  }

  lemma StreamsOfSlice(reg: Registry, keys: seq<string>, lo: nat, hi: nat)
    requires lo <= hi <= |keys| && forall k :: k in keys ==> k in reg
    ensures forall k :: k in keys[lo..hi] ==> k in keys
    ensures StreamsAt(reg, keys[lo..hi]) == StreamsAt(reg, keys)[lo..hi]
  {
  }

  function MatchingKeys(reg: Registry, c: Criterion): set<string> {
    set k | k in reg && Matches(c, reg[k])
  }

  predicate AnyFails(reg: Registry, c: Criterion) {
    exists k :: k in reg && Fails(c, reg[k])
  }

  function Select(streams: seq<DataStream>, c: Criterion): seq<DataStream>
    decreases |streams|
  {
    if streams == [] then []
    else (if Matches(c, streams[0]) then [streams[0]] else []) + Select(streams[1..], c)
  }

  // ---- Memory ----

  datatype MemState = MemState(data: Registry, resources: map<string, string>, lastModified: int)

  /** The secondary index names the same streams, each under its own name. */
  ghost predicate InStep(m: MemState) {
    && m.data.Keys == m.resources.Keys
    && forall k :: k in m.data ==> m.data[k].name == k && m.resources[k] == k
  }

  function MemAdd(m: MemState, ds: DataStream, heard: Status, now: int): (MemState, StreamResult) {
    if !AcceptsCreation(ds) then (m, Failure(Conflict))
    else if heard != Ok then (m, Failure(ListenerFailed(heard)))
    else if ds.name in m.resources then (m, Failure(Conflict))
    else (MemState(m.data[ds.name := ds], m.resources[ds.name := ds.name], now), Success(ds))
  }

  function MemUpdate(m: MemState, id: string, ds: DataStream, heard: Status, now: int): (MemState, StreamResult) {
    if id !in m.data then (m, Failure(NotFound))
    else if !AcceptsUpdate(ds, m.data[id]) then (m, Failure(Conflict))
    else if heard != Ok then (m, Failure(ListenerFailed(heard)))
    else
      var next := Modified(m.data[id], ds);
      (m.(data := m.data[id := next], lastModified := now), Success(next))
  }

  function MemDelete(m: MemState, name: string, heard: Status, now: int): (MemState, Option<RegError>) {
    if name !in m.data then (m, Some(NotFound))
    else if heard != Ok then (m, Some(ListenerFailed(heard)))
    else (MemState(m.data - {name}, m.resources - {m.data[name].name}, now), None)
  }

  function MemGet(m: MemState, id: string): StreamResult {
    if id in m.data then Success(m.data[id]) else Failure(NotFound)
  }

  ghost function MemGetMany(m: MemState, page: int, perPage: int): Result<Page, RegError> {
    if !ValidPaging(page, perPage, MAX_PER_PAGE) then Failure(BadPage)
    else Success(Page(PageOf(Listing(m.data), page, perPage), |m.data|))
  }

  /** A page of a listing as a backend answers it; LevelDB reports a total of 0 with a page that
      is empty. */
  function ReadPage(listing: seq<DataStream>, emptyTotal: bool, page: int, perPage: int): Result<Page, RegError> {
    if !ValidPaging(page, perPage, MAX_PER_PAGE) then Failure(BadPage)
    else
      var streams := PageOf(listing, page, perPage);
      Success(Page(streams, if streams == [] && emptyTotal then 0 else |listing|))
  }

  /** What every order of the map gives of a filtered page: how many streams are on it and how
      many match. */
  datatype Tally = Tally(onPage: nat, total: int)

  function TallyOf(r: Result<Page, RegError>): Result<Tally, RegError> {
    if r.Success? then Success(Tally(|r.value.streams|, r.value.total)) else Failure(r.error)
  }

  function MemTally(m: MemState, c: Criterion, page: int, perPage: int): Result<Tally, RegError> {
    if AnyFails(m.data, c) then Failure(BadFilter)
    else if !ValidPaging(page, perPage, MAX_PER_PAGE) then Failure(BadPage)
    else
      var total := |MatchingKeys(m.data, c)|;
      Success(Tally(WindowOf(total, page, perPage).limit, total))
  }

  function FoundOf(r: Result<Option<DataStream>, RegError>): Result<bool, RegError> {
    if r.Success? then Success(r.value.Some?) else Failure(r.error)
  }

  /** Whether a filter for one stream finds any. */
  function MemFound(m: MemState, c: Criterion): Result<bool, RegError> {
    if AnyFails(m.data, c) then Failure(BadFilter) else Success(MatchingKeys(m.data, c) != {})
  }

  /** A failed operation leaves the registry as it was, time of modification included. */
  lemma MemFailureChangesNothing(m: MemState, ds: DataStream, name: string, heard: Status, now: int)
    ensures MemAdd(m, ds, heard, now).1.Failure? ==> MemAdd(m, ds, heard, now).0 == m
    ensures MemUpdate(m, name, ds, heard, now).1.Failure? ==> MemUpdate(m, name, ds, heard, now).0 == m
    ensures MemDelete(m, name, heard, now).1.Some? ==> MemDelete(m, name, heard, now).0 == m
  {
  }

  /** An operation, with what the listeners it reached answered and the time it ends. */
  datatype MemOp =
    | OpAdd(ds: DataStream, heard: Status, now: int)
    | OpUpdate(id: string, ds: DataStream, heard: Status, now: int)
    | OpDelete(name: string, heard: Status, now: int)

  function MemApply(m: MemState, op: MemOp): MemState {
    match op
    case OpAdd(ds, heard, now) => MemAdd(m, ds, heard, now).0
    case OpUpdate(id, ds, heard, now) => MemUpdate(m, id, ds, heard, now).0
    case OpDelete(name, heard, now) => MemDelete(m, name, heard, now).0
  }

  lemma MemApplyInStep(m: MemState, op: MemOp, name: string)
    requires InStep(m)
    ensures InStep(MemApply(m, op))
    ensures name in m.data && name in MemApply(m, op).data ==> MemApply(m, op).data[name].dataType == m.data[name].dataType
  {
  }

  function MemRun(m: MemState, ops: seq<MemOp>): MemState
    decreases |ops|
  {
    if ops == [] then m else MemRun(MemApply(m, ops[0]), ops[1..])
  }

  /** No successful Delete of `name` among the operations. */
  predicate NotDeleted(m: MemState, ops: seq<MemOp>, name: string)
    decreases |ops|
  {
    name in m.data && (ops == [] || NotDeleted(MemApply(m, ops[0]), ops[1..], name))
  }

  /** Over every sequence of operations and listener answers the two maps stay in step, and a
      stream keeps its name and type until it is deleted. */
  lemma {:induction false} MemRunInStep(m: MemState, ops: seq<MemOp>, name: string)
    requires InStep(m)
    ensures InStep(MemRun(m, ops))
    ensures NotDeleted(m, ops, name) ==>
              && name in MemRun(m, ops).data
              && MemRun(m, ops).data[name].name == name
              && MemRun(m, ops).data[name].dataType == m.data[name].dataType
    decreases |ops|
  {
    if ops != [] {
      var m1 := MemApply(m, ops[0]);
      MemApplyInStep(m, ops[0], name);
      MemRunInStep(m1, ops[1..], name);
      if NotDeleted(m, ops, name) {
        assert NotDeleted(m1, ops[1..], name);
        assert name in m1.data && m1.data[name].dataType == m.data[name].dataType;
      }
    }
  }

  // ---- LevelDB ----

  datatype Entry = Entry(key: string, value: DataStream)

  type Db = seq<Entry>

  function Keys(db: Db): (out: seq<string>)
    ensures |out| == |db|
    ensures forall i :: 0 <= i < |db| ==> out[i] == db[i].key
  {
    seq(|db|, i requires 0 <= i < |db| => db[i].key)
  }

  function Values(db: Db): (out: seq<DataStream>)
    ensures |out| == |db|
    ensures forall i :: 0 <= i < |db| ==> out[i] == db[i].value
  {
    seq(|db|, i requires 0 <= i < |db| => db[i].value)
  }

  ghost predicate Ordered(db: Db) {
    Ascending(Keys(db))
  }

  function Contents(db: Db): Registry
    decreases |db|
  {
    if db == [] then map[] else Contents(db[1..])[db[0].key := db[0].value]
  }

  function DbGet(db: Db, k: string): Option<DataStream>
    decreases |db|
  {
    if db == [] then None else if db[0].key == k then Some(db[0].value) else DbGet(db[1..], k)
  }

  function DbPut(db: Db, k: string, v: DataStream): Db
    decreases |db|
  {
    if db == [] || Less(k, db[0].key) then [Entry(k, v)] + db
    else if k == db[0].key then [Entry(k, v)] + db[1..]
    else [db[0]] + DbPut(db[1..], k, v)
  }

  function DbDelete(db: Db, k: string): Db
    decreases |db|
  {
    if db == [] then [] else if db[0].key == k then db[1..] else [db[0]] + DbDelete(db[1..], k)
  }

  /** `NewIterator` over a key range: the entries from `start` on, up to but not including
      `end`, in key order. */
  function Scan(db: Db, start: Option<string>, end: Option<string>): Db
    decreases |db|
  {
    if db == [] then []
    else
      (if (start.Some? && Less(db[0].key, start.value)) || (end.Some? && !Less(db[0].key, end.value)) then [] else [db[0]])
      + Scan(db[1..], start, end)
  }

  datatype LevelState = LevelState(db: Db, lastModified: int)

  /** LevelDB's Add writes before it notifies, and keeps the entry when a listener fails. */
  function LevelAdd(l: LevelState, ds: DataStream, heard: Status, now: int): (LevelState, StreamResult) {
    if !AcceptsCreation(ds) then (l, Failure(Conflict))
    else if DbGet(l.db, ds.name).Some? then (l, Failure(Conflict))
    else
      var db := DbPut(l.db, ds.name, ds);
      if heard != Ok then (l.(db := db), Failure(ListenerFailed(heard)))
      else (LevelState(db, now), Success(ds))
  }

  function LevelUpdate(l: LevelState, name: string, ds: DataStream, heard: Status, now: int): (LevelState, StreamResult) {
    var prev := DbGet(l.db, name);
    if prev.None? then (l, Failure(NotFound))
    else if !AcceptsUpdate(ds, prev.value) then (l, Failure(Conflict))
    else if heard != Ok then (l, Failure(ListenerFailed(heard)))
    else
      var next := Modified(prev.value, ds);
      (LevelState(DbPut(l.db, next.name, next), now), Success(next))
  }

  function LevelDelete(l: LevelState, name: string, heard: Status, now: int): (LevelState, Option<RegError>) {
    if DbGet(l.db, name).None? then (l, Some(NotFound))
    else if heard != Ok then (l, Some(ListenerFailed(heard)))
    else (LevelState(DbDelete(l.db, name), now), None)
  }

  function LevelGet(l: LevelState, id: string): StreamResult {
    var r := DbGet(l.db, id);
    if r.Some? then Success(r.value) else Failure(NotFound)
  }

  /** The page read back with a range scan between two of the keys; an empty page reports
      a total of 0. */
  function LevelGetMany(l: LevelState, page: int, perPage: int): Result<Page, RegError> {
    if !ValidPaging(page, perPage, MAX_PER_PAGE) then Failure(BadPage)
    else
      var keys := Keys(l.db);
      var w := GetPagingAttr(|keys|, page, perPage);
      if w.limit == 0 then Success(Page([], 0))
      else
        var end := if w.offset + w.limit < |keys| then Some(keys[w.offset + w.limit]) else None;
        Success(Page(Values(Scan(l.db, Some(keys[w.offset]), end)), |keys|))
  }

  ghost function LevelFilter(l: LevelState, c: Criterion, page: int, perPage: int): Result<Page, RegError> {
    var found := Select(Listing(Contents(l.db)), c);
    if AnyFails(Contents(l.db), c) then Failure(BadFilter)
    else if !ValidPaging(page, perPage, MAX_PER_PAGE) then Failure(BadPage)
    else Success(Page(PageOf(found, page, perPage), |found|))
  }

  ghost function LevelFilterOne(l: LevelState, c: Criterion): Result<Option<DataStream>, RegError> {
    var found := Select(Listing(Contents(l.db)), c);
    if AnyFails(Contents(l.db), c) then Failure(BadFilter) else Success(if found == [] then None else Some(found[0]))
  }
}
