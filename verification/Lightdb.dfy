/** data/lightdb.go: the data store the ingestion paths and the registry's events drive. */
module Lightdb {
  import opened Streams
  import opened ConnectorSpec
  import opened LightdbSpec
  import opened Wrappers
  import Cursor
  import QueryWalk

  class LightdbStorage {
    var series: Store

    constructor ()
      ensures Valid() && series == map[]
    {
      series := map[];
    }

    /** Adds the packs in the order Go's map iteration happens to take; the store refuses the
        packs of the streams in `refused`, and the first refusal ends the call. */
    method Submit(data: map<string, seq<Record>>, refused: set<string>) returns (ok: bool, ghost written: set<string>)
      requires forall n :: n in data ==> data[n] != []
      requires forall n, r :: n in data && r in data[n] ==> r.name == n
      modifies this
      ensures Reached(old(series), series, data, written)
      ensures written !! refused
      ensures ok <==> refused !! data.Keys
      ensures ok ==> written == data.Keys
      ensures old(Valid()) && TimesFit(data) ==> Valid()
    {
      ghost var order: seq<string>;
      ok, order := AddEach(data, refused);
      AddGroupsAnyOrder(old(series), data, order);
      written := set n | n in order;
      if old(Valid()) && TimesFit(data) {
        OverlayStored(old(series), data, written);
      }
    }

    method AddEach(data: map<string, seq<Record>>, refused: set<string>) returns (ok: bool, ghost order: seq<string>)
      modifies this
      ensures forall i, j :: 0 <= i < j < |order| ==> order[i] != order[j]
      ensures forall n :: n in order ==> n in data && n !in refused
      ensures ok ==> forall n :: n in data ==> n in order
      ensures !ok ==> exists n :: n in data && n in refused
      ensures series == AddGroups(old(series), data, order)
    {
      order := [];
      var left := data.Keys;
      while left != {}
        invariant left <= data.Keys
        invariant forall i, j :: 0 <= i < j < |order| ==> order[i] != order[j]
        invariant forall n :: n in order <==> n in data && n !in left
        invariant forall n :: n in order ==> n !in refused
        invariant series == AddGroups(old(series), data, order)
        decreases |left|
      {
        var n :| n in left;
        if n in refused {
          return false, order;
        }
        AddGroupsSnoc(old(series), data, order, n);
        series := AddPack(series, data[n]);
        order := order + [n];
        left := left - {n};
      }
      return true, order;
    }

    /** Every series is stored in time order. */
    ghost predicate Valid()
      reads this
    {
      forall n :: n in series ==> Cursor.Stored(series[n])
    }

    /** One page of a series, how many records it has, and where the rest starts; a series that
        does not exist is an error. Of several sources only the first is read. */
    method Query(q: Cursor.Query, sources: seq<DataStream>) returns (ok: bool, records: seq<Record>, total: nat, next: Option<int>)
      requires Valid() && sources != []
      requires q.from < q.to && Cursor.Int64(Cursor.Ticks(q.from)) && Cursor.Int64(Cursor.Ticks(q.to))
      ensures ok <==> sources[0].name in series
      ensures ok ==> Cursor.Answer(records, next) == QueryWalk.Answered(series[sources[0].name], q) && total == |records|
    {
      var maxEntries := q.perPage;
      if q.limit > 0 && q.perPage > q.limit {
        maxEntries := q.limit;
      }
      if sources[0].name !in series {
        return false, [], 0, None;
      }
      var answer;
      if q.desc {
        answer := Cursor.ReadDescending(series[sources[0].name], q, maxEntries);
      } else {
        answer := Cursor.ReadAscending(series[sources[0].name], q, maxEntries);
      }
      return true, answer.records, |answer.records|, answer.next;
    }

    method CreateHandler(ds: DataStream, ok: bool) returns (status: Status)
      modifies this
      ensures old(Valid()) ==> Valid()
      ensures var r := CreateSeries(old(series), ds.name, ok);
              series == r.store && status == if r.ok then Ok else Err
    {
      if !ok || ds.name in series {
        return Err;
      }
      series := series[ds.name := []];
      return Ok;
    }

    method UpdateHandler(prev: DataStream, next: DataStream) returns (status: Status)
      ensures status == Ok
    {
      return Ok;
    }

    /** The store answers with an error of its own, or that it has no such series. */
    method DeleteHandler(ds: DataStream, ok: bool) returns (status: Status)
      modifies this
      ensures old(Valid()) ==> Valid()
      ensures var r := DropSeries(old(series), ds.name, ok);
              series == r.store && status == if r.ok then Ok else Err
    {
      if ds.name in series {
        if !ok {
          return Err;
        }
        series := series - {ds.name};
      }
      return Ok;
    }
  }

  ghost predicate TimesFit(data: map<string, seq<Record>>) {
    forall n, r :: n in data && r in data[n] ==> r.time >= 0 && Cursor.Int64(r.time)
  }

  lemma OverlayStored(st: Store, data: map<string, seq<Record>>, written: set<string>)
    requires written <= data.Keys && TimesFit(data)
    requires forall n :: n in st ==> Cursor.Stored(st[n])
    ensures forall n :: n in Overlay(st, data, written) ==> Cursor.Stored(Overlay(st, data, written)[n])
  {
    forall n | n in Overlay(st, data, written) ensures Cursor.Stored(Overlay(st, data, written)[n]) {
      OverlayAt(st, data, written, n);
      if n in written {
        var s := InsertAll(SeriesOf(st, n), data[n]);
        forall r | r in s ensures r.time >= 0 && Cursor.Int64(r.time) {
          assert r in SeriesOf(st, n) || r in data[n];
        }
      }
    }
  }
}
