/** The LevelDB backend refines the memory backend. */
module Backends {
  import opened Wrappers
  import opened Streams
  import opened Filtering
  import opened Ordering
  import opened Paging
  import opened ConnectorSpec
  import opened IngestSpec
  import opened RegistrySpec

  // ---- Ordered entries as a map ----

  /** The entries are in key order, each stream under its own name. */
  ghost predicate SoundDb(db: Db) {
    Ordered(db) && Keyed(Contents(db))
  }

  lemma OrderedTail(db: Db)
    requires Ordered(db) && db != []
    ensures Ordered(db[1..])
    ensures Keys(db) == [db[0].key] + Keys(db[1..])
  {
    assert Keys(db)[1..] == Keys(db[1..]);
  }

  lemma {:induction false} ContentsKeys(db: Db)
    ensures forall k :: k in Contents(db) <==> k in Keys(db)
    decreases |db|
  {
    if db != [] {
      ContentsKeys(db[1..]);
      assert Keys(db) == [db[0].key] + Keys(db[1..]);
    }
  }

  lemma {:induction false} GetReads(db: Db, k: string)
    ensures DbGet(db, k) == if k in Contents(db) then Some(Contents(db)[k]) else None
    decreases |db|
  {
    if db != [] {
      GetReads(db[1..], k);
    }
  }

  lemma {:induction false} ContentsAt(db: Db, i: nat)
    requires Ordered(db) && i < |db|
    ensures db[i].key in Contents(db) && Contents(db)[db[i].key] == db[i].value
    decreases |db|
  {
    if i > 0 {
      OrderedTail(db);
      ContentsAt(db[1..], i - 1);
      assert Less(Keys(db)[0], Keys(db)[i]);
      LessIrreflexive(db[0].key);
    }
  }

  /** The head's key is below a key of the tail's contents. */
  lemma HeadBelow(db: Db, k: string)
    requires Ordered(db) && db != [] && k in Contents(db[1..])
    ensures Less(db[0].key, k) && k != db[0].key
  {
    ContentsKeys(db[1..]);
    OrderedTail(db);
    var i :| 0 <= i < |Keys(db[1..])| && Keys(db[1..])[i] == k;
    assert Less(Keys(db)[0], Keys(db)[i + 1]);
    LessAsymmetric(db[0].key, k);
  }

  lemma ConsOrdered(e: Entry, db: Db)
    requires Ordered(db)
    requires forall k :: k in Contents(db) ==> Less(e.key, k)
    ensures Ordered([e] + db)
  {
    ContentsKeys(db);
    assert Keys([e] + db) == [e.key] + Keys(db);
    forall i | 0 <= i < |Keys(db)| ensures Less(e.key, Keys(db)[i]) {
      assert Keys(db)[i] in Keys(db);
    }
  }

  lemma {:induction false} PutWrites(db: Db, k: string, v: DataStream)
    requires Ordered(db)
    ensures Ordered(DbPut(db, k, v)) && Contents(DbPut(db, k, v)) == Contents(db)[k := v]
    decreases |db|
  {
    if db == [] {
      ConsOrdered(Entry(k, v), db);
      assert ([Entry(k, v)] + db)[1..] == db;
    } else {
      OrderedTail(db);
      forall x | x in Contents(db[1..]) ensures Less(db[0].key, x) {
        HeadBelow(db, x);
      }
      LessTotal(k, db[0].key);
      if Less(k, db[0].key) {
        forall x | x in Contents(db) ensures Less(k, x) {
          if x != db[0].key {
            LessTransitive(k, db[0].key, x);
          }
        }
        ConsOrdered(Entry(k, v), db);
        assert ([Entry(k, v)] + db)[1..] == db;
      } else if k == db[0].key {
        ConsOrdered(Entry(k, v), db[1..]);
        assert ([Entry(k, v)] + db[1..])[1..] == db[1..];
      } else {
        PutWrites(db[1..], k, v);
        ConsOrdered(db[0], DbPut(db[1..], k, v));
        assert ([db[0]] + DbPut(db[1..], k, v))[1..] == DbPut(db[1..], k, v);
      }
    }
  }

  lemma {:induction false} DeleteRemoves(db: Db, k: string)
    requires Ordered(db)
    ensures Ordered(DbDelete(db, k)) && Contents(DbDelete(db, k)) == Contents(db) - {k}
    decreases |db|
  {
    if db != [] {
      OrderedTail(db);
      forall x | x in Contents(db[1..]) ensures Less(db[0].key, x) && x != db[0].key {
        HeadBelow(db, x);
      }
      if db[0].key != k {
        DeleteRemoves(db[1..], k);
        ConsOrdered(db[0], DbDelete(db[1..], k));
        assert ([db[0]] + DbDelete(db[1..], k))[1..] == DbDelete(db[1..], k);
      }
    }
  }

  /** An iterator over the whole database lists the registry in key order. */
  lemma IteratesListing(db: Db)
    requires Ordered(db)
    ensures Keys(db) == SortedKeys(Contents(db).Keys)
    ensures Values(db) == Listing(Contents(db))
    ensures |db| == |Contents(db)|
  {
    ContentsKeys(db);
    AscendingUnique(Keys(db), SortedKeys(Contents(db).Keys));
    SortedKeysLength(Contents(db).Keys);
    assert |Contents(db)| == |Contents(db).Keys|;
    forall i | 0 <= i < |db| ensures Values(db)[i] == Listing(Contents(db))[i] {
      ContentsAt(db, i);
    }
  }

  // ---- The range scan ----

  lemma {:induction false} ScanNothing(db: Db, start: Option<string>, end: string)
    requires forall i :: 0 <= i < |db| ==> !Less(db[i].key, end)
    ensures Scan(db, start, Some(end)) == []
    decreases |db|
  {
    if db != [] {
      ScanNothing(db[1..], start, end);
    }
  }

  lemma {:induction false} ScanSkips(db: Db, from: nat, lo: nat, end: Option<string>)
    requires Ordered(db) && from <= lo < |db|
    ensures Scan(db[from..], Some(db[lo].key), end) == Scan(db[lo..], Some(db[lo].key), end)
    decreases lo - from
  {
    if from < lo {
      assert Less(Keys(db)[from], Keys(db)[lo]);
      assert db[from..][1..] == db[from + 1..];
      ScanSkips(db, from + 1, lo, end);
    }
  }

  /** Scanning from the key at `lo` up to the key at `hi` (or to the end) reads the entries
      `lo` to `hi`. */
  lemma ScanIsSlice(db: Db, lo: nat, hi: nat)
    requires Ordered(db) && lo < hi <= |db|
    ensures Scan(db, Some(db[lo].key), if hi < |db| then Some(db[hi].key) else None) == db[lo..hi]
  {
    var end := if hi < |db| then Some(db[hi].key) else None;
    assert db[0..] == db;
    ScanSkips(db, 0, lo, end);
    ScanPrefix(db, lo, db[lo].key, end, hi);
  }

  /** The part of the scan after position `from`, all of it past `start`. */
  lemma {:induction false} ScanPrefix(db: Db, from: nat, start: string, end: Option<string>, hi: nat)
    requires Ordered(db) && from <= hi <= |db|
    requires from < |db| ==> db[from].key == start || Less(start, db[from].key)
    requires end == if hi < |db| then Some(db[hi].key) else None
    ensures Scan(db[from..], Some(start), end) == db[from..hi]
    decreases |db| - from
  {
    if from < |db| {
      var tail := db[from..];
      assert tail[1..] == db[from + 1..];
      assert forall i :: 0 <= i < |db| ==> Keys(db)[i] == db[i].key;
      if from == hi {
        forall i | 0 <= i < |tail| ensures !Less(tail[i].key, db[hi].key) {
          LessIrreflexive(db[hi].key);
          if i > 0 {
            assert Less(Keys(db)[hi], Keys(db)[from + i]);
            LessAsymmetric(db[hi].key, tail[i].key);
          }
        }
        ScanNothing(tail, Some(start), db[hi].key);
      } else {
        LessIrreflexive(start);
        if Less(start, db[from].key) {
          LessAsymmetric(start, db[from].key);
        }
        if hi < |db| {
          assert Less(Keys(db)[from], Keys(db)[hi]);
        }
        if from + 1 < |db| {
          assert Less(Keys(db)[from], Keys(db)[from + 1]);
          if Less(start, db[from].key) {
            LessTransitive(start, db[from].key, db[from + 1].key);
          }
        }
        ScanPrefix(db, from + 1, start, end, hi);
        assert db[from..hi] == [db[from]] + db[from + 1..hi];
      }
    }
  }

  lemma ScannedPage(db: Db, lo: nat, hi: nat)
    requires Ordered(db) && lo < hi <= |db|
    ensures Values(Scan(db, Some(db[lo].key), if hi < |db| then Some(db[hi].key) else None)) == Values(db)[lo..hi]
  {
    ScanIsSlice(db, lo, hi);
    assert Values(db[lo..hi]) == Values(db)[lo..hi];
  }

  lemma LevelPageOfValues(l: LevelState, page: int, perPage: int)
    requires Ordered(l.db) && ValidPaging(page, perPage, MAX_PER_PAGE)
    ensures var streams := PageOf(Values(l.db), page, perPage);
            LevelGetMany(l, page, perPage) == Success(Page(streams, if streams == [] then 0 else |l.db|))
  {
    var w := GetPagingAttr(|l.db|, page, perPage);
    if w.limit != 0 {
      ScannedPage(l.db, w.offset, w.offset + w.limit);
    }
  }

  /** LevelDB's page is the same slice of the listing as the memory backend's; only the
      total of an empty page differs. */
  lemma LevelPage(l: LevelState, page: int, perPage: int)
    requires Ordered(l.db) && ValidPaging(page, perPage, MAX_PER_PAGE)
    ensures var streams := PageOf(Listing(Contents(l.db)), page, perPage);
            LevelGetMany(l, page, perPage) == Success(Page(streams, if streams == [] then 0 else |Contents(l.db)|))
  {
    LevelPageOfValues(l, page, perPage);
    IteratesListing(l.db);
  }

  // ---- Lockstep ----

  datatype Op =
    | Add(ds: DataStream)
    | Update(name: string, ds: DataStream)
    | Delete(name: string)
    | Get(name: string)
    | GetMany(page: int, perPage: int)
    | Filter(c: Criterion, page: int, perPage: int)
    | FilterOne(c: Criterion)

  /** What an operation answers. Which of the matching streams the memory backend puts on a
      page, or finds first, is up to the order of its map. */
  datatype Answer =
    | Stream(stream: StreamResult)
    | Gone(error: Option<RegError>)
    | Many(page: Result<Page, RegError>)
    | Filtered(tally: Result<Tally, RegError>)
    | Found(found: Result<bool, RegError>)

  ghost function MemDo(m: MemState, op: Op, now: int): (MemState, Answer) {
    match op
    case Add(ds) => var r := MemAdd(m, ds, Ok, now); (r.0, Stream(r.1))
    case Update(name, ds) => var r := MemUpdate(m, name, ds, Ok, now); (r.0, Stream(r.1))
    case Delete(name) => var r := MemDelete(m, name, Ok, now); (r.0, Gone(r.1))
    case Get(name) => (m, Stream(MemGet(m, name)))
    case GetMany(page, perPage) => (m, Many(MemGetMany(m, page, perPage)))
    case Filter(c, page, perPage) => (m, Filtered(MemTally(m, c, page, perPage)))
    case FilterOne(c) => (m, Found(MemFound(m, c)))
  }

  ghost function LevelDo(l: LevelState, op: Op, now: int): (LevelState, Answer) {
    match op
    case Add(ds) => var r := LevelAdd(l, ds, Ok, now); (r.0, Stream(r.1))
    case Update(name, ds) => var r := LevelUpdate(l, name, ds, Ok, now); (r.0, Stream(r.1))
    case Delete(name) => var r := LevelDelete(l, name, Ok, now); (r.0, Gone(r.1))
    case Get(name) => (l, Stream(LevelGet(l, name)))
    case GetMany(page, perPage) => (l, Many(LevelGetMany(l, page, perPage)))
    case Filter(c, page, perPage) => (l, Filtered(TallyOf(LevelFilter(l, c, page, perPage))))
    case FilterOne(c) => (l, Found(FoundOf(LevelFilterOne(l, c))))
  }

  /** LevelDB's answer for memory's: the same, except that a page with no streams reports a
      total of 0. */
  function AsLevelAnswers(a: Answer): Answer {
    if a.Many? && a.page.Success? && a.page.value.streams == [] then Many(Success(Page([], 0))) else a
  }

  /** The two backends hold the same registry. */
  ghost predicate Same(m: MemState, l: LevelState) {
    InStep(m) && Ordered(l.db) && Contents(l.db) == m.data && l.lastModified == m.lastModified
  }

  lemma AddInLockstep(m: MemState, l: LevelState, ds: DataStream, now: int)
    requires Same(m, l)
    ensures Same(MemAdd(m, ds, Ok, now).0, LevelAdd(l, ds, Ok, now).0)
    ensures LevelAdd(l, ds, Ok, now).1 == MemAdd(m, ds, Ok, now).1
  {
    GetReads(l.db, ds.name);
    PutWrites(l.db, ds.name, ds);
  }

  lemma UpdateInLockstep(m: MemState, l: LevelState, name: string, ds: DataStream, now: int)
    requires Same(m, l)
    ensures Same(MemUpdate(m, name, ds, Ok, now).0, LevelUpdate(l, name, ds, Ok, now).0)
    ensures LevelUpdate(l, name, ds, Ok, now).1 == MemUpdate(m, name, ds, Ok, now).1
  {
    GetReads(l.db, name);
    if name in m.data {
      PutWrites(l.db, name, Modified(m.data[name], ds));
    }
  }

  lemma DeleteInLockstep(m: MemState, l: LevelState, name: string, now: int)
    requires Same(m, l)
    ensures Same(MemDelete(m, name, Ok, now).0, LevelDelete(l, name, Ok, now).0)
    ensures LevelDelete(l, name, Ok, now).1 == MemDelete(m, name, Ok, now).1
  {
    GetReads(l.db, name);
    DeleteRemoves(l.db, name);
  }

  lemma GetInLockstep(m: MemState, l: LevelState, name: string)
    requires Same(m, l)
    ensures LevelGet(l, name) == MemGet(m, name)
  {
    GetReads(l.db, name);
  }

  /** LevelDB's matches in key order are as many as the memory backend's in any order. */
  lemma SelectedCount(reg: Registry, c: Criterion)
    ensures |Select(Listing(reg), c)| == |MatchingKeys(reg, c)|
    ensures Select(Listing(reg), c) == [] <==> MatchingKeys(reg, c) == {}
  {
    var keys := SortedKeys(reg.Keys);
    AscendingDistinct(keys);
    SelectedOf(reg, keys, c);
    assert MatchingKeys(reg, c) == set k | k in keys && Matches(c, reg[k]);
  }

  lemma {:induction false} SelectedOf(reg: Registry, keys: seq<string>, c: Criterion)
    requires forall k :: k in keys ==> k in reg
    requires forall i, j :: 0 <= i < j < |keys| ==> keys[i] != keys[j]
    ensures |Select(StreamsAt(reg, keys), c)| == |set k | k in keys && Matches(c, reg[k])|
    decreases |keys|
  {
    if keys != [] {
      var k0, rest := keys[0], keys[1..];
      assert keys == [k0] + rest && k0 !in rest;
      SelectedOf(reg, rest, c);
      assert StreamsAt(reg, keys)[1..] == StreamsAt(reg, rest);
      var later := set k | k in rest && Matches(c, reg[k]);
      assert (set k | k in keys && Matches(c, reg[k])) == later + if Matches(c, reg[k0]) then {k0} else {};
    }
  }

  lemma FilterInLockstep(m: MemState, l: LevelState, c: Criterion, page: int, perPage: int)
    requires m.data == Contents(l.db)
    ensures TallyOf(LevelFilter(l, c, page, perPage)) == MemTally(m, c, page, perPage)
  {
    SelectedCount(m.data, c);
  }

  lemma FilterOneInLockstep(m: MemState, l: LevelState, c: Criterion)
    requires m.data == Contents(l.db)
    ensures MemFound(m, c) == FoundOf(LevelFilterOne(l, c))
  {
    SelectedCount(m.data, c);
  }

  lemma GetManyInLockstep(m: MemState, l: LevelState, page: int, perPage: int)
    requires Same(m, l)
    ensures Many(LevelGetMany(l, page, perPage)) == AsLevelAnswers(Many(MemGetMany(m, page, perPage)))
  {
    if ValidPaging(page, perPage, MAX_PER_PAGE) {
      LevelPage(l, page, perPage);
    }
  }

  lemma Lockstep(m: MemState, l: LevelState, op: Op, now: int)
    requires Same(m, l)
    ensures Same(MemDo(m, op, now).0, LevelDo(l, op, now).0)
    ensures LevelDo(l, op, now).1 == AsLevelAnswers(MemDo(m, op, now).1)
  {
    match op
    case Add(ds) => AddInLockstep(m, l, ds, now);
    case Update(name, ds) => UpdateInLockstep(m, l, name, ds, now);
    case Delete(name) => DeleteInLockstep(m, l, name, now);
    case Get(name) => GetInLockstep(m, l, name);
    case GetMany(page, perPage) => GetManyInLockstep(m, l, page, perPage);
    case Filter(c, page, perPage) => FilterInLockstep(m, l, c, page, perPage);
    case FilterOne(c) => FilterOneInLockstep(m, l, c);
  }

  ghost function MemAnswers(m: MemState, ops: seq<(Op, int)>): seq<Answer>
    decreases |ops|
  {
    if ops == [] then []
    else var r := MemDo(m, ops[0].0, ops[0].1); [r.1] + MemAnswers(r.0, ops[1..])
  }

  ghost function LevelAnswers(l: LevelState, ops: seq<(Op, int)>): seq<Answer>
    decreases |ops|
  {
    if ops == [] then []
    else var r := LevelDo(l, ops[0].0, ops[0].1); [r.1] + LevelAnswers(r.0, ops[1..])
  }

  /** From the same registry, any sequence of operations gets the same answers. */
  lemma {:induction false} RunsInLockstep(m: MemState, l: LevelState, ops: seq<(Op, int)>)
    requires Same(m, l)
    ensures |LevelAnswers(l, ops)| == |MemAnswers(m, ops)| == |ops|
    ensures forall i :: 0 <= i < |ops| ==> LevelAnswers(l, ops)[i] == AsLevelAnswers(MemAnswers(m, ops)[i])
    decreases |ops|
  {
    if ops != [] {
      Lockstep(m, l, ops[0].0, ops[0].1);
      RunsInLockstep(MemDo(m, ops[0].0, ops[0].1).0, LevelDo(l, ops[0].0, ops[0].1).0, ops[1..]);
    }
  }

  // ---- Pages and filters over a registry ----

  lemma {:induction false} DistinctOnce<T>(s: seq<T>, x: T)
    requires forall i, j :: 0 <= i < j < |s| ==> s[i] != s[j]
    ensures multiset(s)[x] == if x in s then 1 else 0
    decreases |s|
  {
    if s != [] {
      assert s == [s[0]] + s[1..];
      assert s[0] !in s[1..];
      DistinctOnce(s[1..], x);
    }
  }

  lemma ListedOnce(reg: Registry, x: DataStream)
    requires Keyed(reg)
    ensures multiset(Listing(reg))[x] == if x.name in reg && reg[x.name] == x then 1 else 0
  {
    var keys := SortedKeys(reg.Keys);
    AscendingDistinct(keys);
    forall i, j | 0 <= i < j < |keys| ensures Listing(reg)[i] != Listing(reg)[j] {
      assert Listing(reg)[i].name == keys[i] && Listing(reg)[j].name == keys[j];
    }
    DistinctOnce(Listing(reg), x);
    if x.name in reg && reg[x.name] == x {
      var i :| 0 <= i < |keys| && keys[i] == x.name;
      assert Listing(reg)[i] == x;
    }
  }

  /** The pages of a registry, read one after the other, give every stream exactly once, and
      nothing else, in key order. */
  lemma RegistryPagesCover(reg: Registry, perPage: int, x: DataStream)
    requires Keyed(reg) && perPage >= 1
    ensures FirstPages(Listing(reg), PageCount(|reg|, perPage), perPage) == Listing(reg)
    ensures multiset(Listing(reg))[x] == if x.name in reg && reg[x.name] == x then 1 else 0
  {
    SortedKeysLength(reg.Keys);
    assert |reg| == |reg.Keys|;
    PagesCover(Listing(reg), perPage);
    ListedOnce(reg, x);
  }
}
