/** data/http.go: submitting records over HTTP. */
module Http {
  import opened Wrappers
  import opened Streams
  import opened LightdbSpec
  import opened Lightdb
  import opened IngestSpec
  import Cursor
  import QueryWalk

  datatype Response = Accepted | Rejected(verdict: Verdict) | StoreFailed

  /** Streams looked up before, under their names. */
  ghost predicate LookedUp(dsResources: map<string, DataStream>, registry: Registry) {
    forall n :: n in dsResources ==> n in registry && dsResources[n] == registry[n]
  }

  /** The verdict on one record, and its stream, which is looked up once. */
  method Judge(r: Record, registry: Registry, dsResources: map<string, DataStream>)
    returns (verdict: Verdict, name: string, known: map<string, DataStream>)
    requires Keyed(registry) && LookedUp(dsResources, registry)
    ensures verdict == HttpVerdict(registry, r) && (verdict == Fine ==> name == r.name)
    ensures LookedUp(known, registry)
  {
    known := dsResources;
    if r.name == "" {
      return BadRequest, "", known;
    }
    if r.name !in known {
      if r.name !in registry {
        return UnknownStream, "", known;
      }
      known := known[registry[r.name].name := registry[r.name]];
    }
    var ds := known[r.name];
    if !Conforms(ds.dataType, r) {
      return BadRequest, ds.name, known;
    }
    return Fine, ds.name, known;
  }

  /** The check loop of `Submit`: the first unacceptable record ends it. */
  method Check(records: seq<Record>, registry: Registry) returns (verdict: Verdict, data: map<string, seq<Record>>)
    requires Keyed(registry)
    ensures verdict == HttpVerdictAll(registry, records)
    ensures verdict == Fine ==> data == Groups(records)
  {
    data := map[];
    var dsResources: map<string, DataStream> := map[];
    var i := 0;
    assert records[0..] == records;
    while i < |records|
      invariant i <= |records| && LookedUp(dsResources, registry)
      invariant HttpVerdictAll(registry, records) == HttpVerdictAll(registry, records[i..])
      invariant data == Groups(records[..i])
    {
      assert records[i..][0] == records[i] && records[i..][1..] == records[i + 1..];
      var name;
      verdict, name, dsResources := Judge(records[i], registry, dsResources);
      if verdict != Fine {
        return;
      }
      assert records[..i + 1] == records[..i] + [records[i]];
      GroupsAppend(records[..i], records[i]);
      data := AppendTo(data, name, records[i]);
      i := i + 1;
    }
    assert records[..i] == records;
    verdict := Fine;
  }

  /** When a message is accepted, in the fields of its records. */
  lemma FineIs(reg: Registry, records: seq<Record>)
    ensures HttpVerdictAll(reg, records) != Fine <==> (exists i :: (
              && 0 <= i < |records|
              && (|| records[i].name == "" || records[i].name !in reg
                  || (reg[records[i].name].dataType == "float" && records[i].value.None?)
                  || (reg[records[i].name].dataType == "string" && records[i].stringValue == "")
                  || (reg[records[i].name].dataType == "bool" && records[i].boolValue.None?))))
  {
    HttpFineMeansAll(reg, records);
    forall i | 0 <= i < |records| ensures records[i] in records {
    }
    if HttpVerdictAll(reg, records) != Fine {
      var r :| r in records && HttpVerdict(reg, r) != Fine;
      var i :| 0 <= i < |records| && records[i] == r;
      VerdictIs(reg, records[i]);
    }
  }

  /** `Submit`: nothing is stored unless every record is acceptable; then every group is
      handed to the store, which refuses those in `refused`. */
  method Submit(records: seq<Record>, registry: Registry, storage: LightdbStorage, refused: set<string>)
    returns (response: Response, ghost written: set<string>)
    requires Keyed(registry)
    modifies storage
    ensures response.Rejected? <==> (exists i :: (
              && 0 <= i < |records|
              && (|| records[i].name == "" || records[i].name !in registry
                  || (registry[records[i].name].dataType == "float" && records[i].value.None?)
                  || (registry[records[i].name].dataType == "string" && records[i].stringValue == "")
                  || (registry[records[i].name].dataType == "bool" && records[i].boolValue.None?))))
    ensures response.Rejected? ==> response.verdict == HttpVerdictAll(registry, records) && storage.series == old(storage.series)
    ensures !response.Rejected? ==>
              && Reached(old(storage.series), storage.series, Groups(records), written)
              && (response == Accepted <==> refused !! Groups(records).Keys)
              && (response == Accepted ==> written == Groups(records).Keys)
  {
    FineIs(registry, records);
    written := {};
    var verdict, data := Check(records, registry);
    if verdict != Fine {
      return Rejected(verdict), written;
    }
    GroupsAreProper(records);
    var ok;
    ok, written := storage.Submit(data, refused);
    response := if ok then Accepted else StoreFailed;
  }

  datatype QueryReply = UnknownSource | StoreError | Reply(response: QueryWalk.Response)

  /** The streams of some ids, if all are registered. */
  method FindSources(ids: seq<string>, registry: Registry) returns (sources: Option<seq<DataStream>>)
    ensures sources.None? <==> exists id :: id in ids && id !in registry
    ensures sources.Some? ==> |sources.value| == |ids| && forall j :: 0 <= j < |ids| ==> sources.value[j] == registry[ids[j]]
  {
    var found := [];
    var i := 0;
    while i < |ids|
      invariant i <= |ids| && |found| == i
      invariant forall j :: 0 <= j < i ==> ids[j] in registry && found[j] == registry[ids[j]]
    {
      if ids[i] !in registry {
        return None;
      }
      found := found + [registry[ids[i]]];
      i := i + 1;
    }
    return Some(found);
  }

  /** The query a nextLink stands for, if there is to be one. */
  method NextLink(q: Cursor.Query, data: seq<Record>, total: nat, nextTS: Option<int>) returns (next: Option<Cursor.Query>)
    requires total == |data|
    ensures var link := QueryWalk.NextQuery(q, Cursor.Answer(data, nextTS));
            next == if link.Some? then Some(QueryWalk.Relinked(link.value)) else None
  {
    if nextTS.None? {
      return None;
    }
    var nextQuery := q;
    if q.limit > 0 { // the limit left is reduced by the total
      var newLimit := q.limit - total;
      if newLimit <= 0 { // last page
        return None;
      }
      nextQuery := nextQuery.(limit := newLimit);
    }
    if q.desc {
      nextQuery := nextQuery.(to := nextTS.value);
    } else {
      nextQuery := nextQuery.(from := nextTS.value);
    }
    return Some(QueryWalk.Relinked(nextQuery));
  }

  /** `Query`: every named stream must be registered, and the first must have a series; the
      response carries one page of it, and the query its nextLink stands for. */
  method Query(ids: seq<string>, q: Cursor.Query, registry: Registry, storage: LightdbStorage) returns (reply: QueryReply)
    requires Keyed(registry) && storage.Valid() && Cursor.Int64(Cursor.Ticks(q.from)) && Cursor.Int64(Cursor.Ticks(q.to))
    ensures reply == if ids == [] || exists id :: id in ids && id !in registry then UnknownSource
                     else if q.to <= q.from then Reply(QueryWalk.Refused)
                     else if ids[0] !in storage.series then StoreError
                     else Reply(QueryWalk.Respond(storage.series[ids[0]], q))
  {
    var sources := FindSources(ids, registry);
    if sources.None? || |sources.value| == 0 {
      return UnknownSource;
    }
    assert ids[0] in ids && sources.value[0].name == ids[0];
    // the check in ParseQueryParameters
    if q.to <= q.from {
      return Reply(QueryWalk.Refused);
    }
    var ok, data, total, nextTS := storage.Query(q, sources.value);
    if !ok {
      return StoreError;
    }
    var next := NextLink(q, data, total, nextTS);
    return Reply(QueryWalk.Page(data, next));
  }
}
