/** The time-series store behind data/lightdb.go, on values: for each stream name the
    records of that stream in time order, one per timestamp. */
module LightdbSpec {
  import opened Streams

  type Store = map<string, seq<Record>>

  ghost predicate Sorted(s: seq<Record>) {
    forall i, j :: 0 <= i < j < |s| ==> s[i].time < s[j].time
  }

  function SeriesOf(st: Store, name: string): seq<Record> {
    if name in st then st[name] else []
  }

  /** A record put into a series; one already there with the same timestamp is replaced. */
  function Insert(s: seq<Record>, r: Record): (out: seq<Record>)
    ensures forall x :: x in out ==> x == r || x in s
    ensures Sorted(s) ==> Sorted(out)
  {
    if s == [] || r.time < s[0].time then [r] + s
    else if r.time == s[0].time then [r] + s[1..]
    else
      var rest := Insert(s[1..], r);
      assert Sorted(s) ==> forall x :: x in s[1..] ==> s[0].time < x.time;
      assert forall k :: 0 <= k < |rest| ==> rest[k] in rest;
      [s[0]] + rest
  }

  lemma {:induction false} InsertMembers(s: seq<Record>, r: Record, x: Record)
    requires Sorted(s)
    ensures x in Insert(s, r) <==> x == r || (x in s && x.time != r.time)
  {
    if s != [] {
      assert s == [s[0]] + s[1..];
      if s[0].time < r.time {
        InsertMembers(s[1..], r, x);
      }
    }
  }

  function InsertAll(s: seq<Record>, rs: seq<Record>): (out: seq<Record>)
    ensures forall x :: x in out ==> x in s || x in rs
    ensures Sorted(s) ==> Sorted(out)
    decreases |rs|
  {
    if rs == [] then s else InsertAll(Insert(s, rs[0]), rs[1..])
  }

  /** The record is in the pack and not replaced by a later one. */
  ghost predicate Last(rs: seq<Record>, x: Record)
    decreases |rs|
  {
    rs != [] && (Last(rs[1..], x) || (rs[0] == x && forall r :: r in rs[1..] ==> r.time != x.time))
  }

  /** A pack put into a series replaces the records with its timestamps and no others. */
  lemma {:induction false} InsertAllMembers(s: seq<Record>, rs: seq<Record>, x: Record)
    requires Sorted(s)
    ensures x in InsertAll(s, rs) <==> Last(rs, x) || (x in s && forall r :: r in rs ==> r.time != x.time)
    decreases |rs|
  {
    if rs != [] {
      InsertMembers(s, rs[0], x);
      InsertAllMembers(Insert(s, rs[0]), rs[1..], x);
      assert rs == [rs[0]] + rs[1..];
    }
  }

  /** Every series is in time order, as the keys of the database are. */
  ghost predicate SortedStore(st: Store) {
    forall n :: n in st ==> Sorted(st[n])
  }

  function Put(st: Store, r: Record): Store {
    st[r.name := Insert(SeriesOf(st, r.name), r)]
  }

  /** `datastore.Add`: every record of the pack goes to the series of its own name. */
  function AddPack(st: Store, pack: seq<Record>): Store
    decreases |pack|
  {
    if pack == [] then st else AddPack(Put(st, pack[0]), pack[1..])
  }

  lemma {:induction false} AddPackOfOneName(st: Store, name: string, pack: seq<Record>)
    requires forall r :: r in pack ==> r.name == name
    ensures AddPack(st, pack) == if pack == [] then st else st[name := InsertAll(SeriesOf(st, name), pack)]
    decreases |pack|
  {
    if pack != [] {
      assert pack[0].name == name;
      AddPackOfOneName(Put(st, pack[0]), name, pack[1..]);
    }
  }

  /** The packs of the streams in `order`, added one after the other. */
  function AddGroups(st: Store, groups: map<string, seq<Record>>, order: seq<string>): Store
    requires forall n :: n in order ==> n in groups
    decreases |order|
  {
    if order == [] then st else AddGroups(AddPack(st, groups[order[0]]), groups, order[1..])
  }

  lemma {:induction false} AddGroupsSnoc(st: Store, groups: map<string, seq<Record>>, order: seq<string>, n: string)
    requires n in groups && forall x :: x in order ==> x in groups
    ensures AddGroups(st, groups, order + [n]) == AddPack(AddGroups(st, groups, order), groups[n])
    decreases |order|
  {
    if order == [] {
      assert (order + [n])[1..] == [];
    } else {
      assert (order + [n])[1..] == order[1..] + [n];
      AddGroupsSnoc(AddPack(st, groups[order[0]]), groups, order[1..], n);
    }
  }

  /** The store with the packs of `names` overlaid on it. */
  function Overlay(st: Store, groups: map<string, seq<Record>>, names: set<string>): Store
    requires names <= groups.Keys
  {
    map n | n in st.Keys + names :: if n in names then InsertAll(SeriesOf(st, n), groups[n]) else SeriesOf(st, n)
  }

  /** `st1` is `st` with the packs of `done` overlaid. */
  ghost predicate Reached(st: Store, st1: Store, groups: map<string, seq<Record>>, done: set<string>) {
    done <= groups.Keys && st1 == Overlay(st, groups, done)
  }

  lemma ReachedNothing(st: Store, groups: map<string, seq<Record>>)
    ensures Reached(st, st, groups, {})
  {
  }

  /** What one series is after packs have been added, whatever their order. */
  lemma {:induction false} AddGroupsAt(st: Store, groups: map<string, seq<Record>>, order: seq<string>, x: string)
    requires forall n :: n in groups ==> groups[n] != []
    requires forall n, r :: n in groups && r in groups[n] ==> r.name == n
    requires forall i, j :: 0 <= i < j < |order| ==> order[i] != order[j]
    requires forall n :: n in order ==> n in groups
    ensures var st1 := AddGroups(st, groups, order);
            && (x in st1 <==> x in st || x in order)
            && (x in st1 ==> st1[x] == if x in order then InsertAll(SeriesOf(st, x), groups[x]) else st[x])
    decreases |order|
  {
    if order != [] {
      var n, rest := order[0], order[1..];
      assert order == [n] + rest;
      assert n !in rest;
      AddPackOfOneName(st, n, groups[n]);
      AddGroupsAt(AddPack(st, groups[n]), groups, rest, x);
    }
  }

  /** Whatever the order the packs are added in, each written stream ends with its old
      records overlaid by its own pack, and no other stream changes. */
  lemma AddGroupsAnyOrder(st: Store, groups: map<string, seq<Record>>, order: seq<string>)
    requires forall n :: n in groups ==> groups[n] != []
    requires forall n, r :: n in groups && r in groups[n] ==> r.name == n
    requires forall i, j :: 0 <= i < j < |order| ==> order[i] != order[j]
    requires forall n :: n in order ==> n in groups
    ensures Reached(st, AddGroups(st, groups, order), groups, set n | n in order)
  {
    var st1, names := AddGroups(st, groups, order), set n | n in order;
    forall x
      ensures x in st1 <==> x in Overlay(st, groups, names)
      ensures x in st1 ==> st1[x] == Overlay(st, groups, names)[x]
    {
      AddGroupsAt(st, groups, order, x);
      OverlayAt(st, groups, names, x);
    }
    SameStores(st1, Overlay(st, groups, names));
  }

  lemma OverlayAt(st: Store, groups: map<string, seq<Record>>, names: set<string>, x: string)
    requires names <= groups.Keys
    ensures var st1 := Overlay(st, groups, names);
            && (x in st1 <==> x in st || x in names)
            && (x in st1 ==> st1[x] == if x in names then InsertAll(SeriesOf(st, x), groups[x]) else st[x])
  {
  }

  lemma OverlaySorted(st: Store, groups: map<string, seq<Record>>, names: set<string>)
    requires SortedStore(st) && names <= groups.Keys
    ensures SortedStore(Overlay(st, groups, names))
  {
  }

  lemma SameStores(st: Store, st1: Store)
    requires forall x :: (x in st <==> x in st1) && (x in st ==> st[x] == st1[x])
    ensures st == st1
  {
  }

  datatype StoreResult = StoreResult(store: Store, ok: bool)

  /** `storage.Create`: a series that exists is an error. */
  function CreateSeries(st: Store, name: string, ok: bool): StoreResult {
    if ok && name !in st then StoreResult(st[name := []], true) else StoreResult(st, false)
  }

  /** `DeleteHandler`: a missing series is no error. */
  function DropSeries(st: Store, name: string, ok: bool): StoreResult {
    if ok || name !in st then StoreResult(st - {name}, true) else StoreResult(st, false)
  }
}
