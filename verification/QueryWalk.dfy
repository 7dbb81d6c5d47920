/** Reading a time range page by page: `Query` in data/http.go and data/lightdb.go, and a
    client that follows each nextLink to the end. */
module QueryWalk {
  import opened Wrappers
  import opened Arith
  import opened Streams
  import opened LightdbSpec
  import opened Cursor

  const MAX_PER_PAGE := 1000

  // ---- One request ----

  /** A time as a link prints it: to the whole second. */
  function Trunc(t: int): int {
    t - t % TICKS
  }

  /** `LightdbStorage.Query`. */
  function Answered(s: seq<Record>, q: Query): Answer {
    StoreQuery(s, q, if q.limit > 0 && q.perPage > q.limit then q.limit else q.perPage)
  }

  /** The query behind the link the handler puts in its response, if it puts one. */
  function NextQuery(q: Query, a: Answer): Option<Query> {
    if a.next.None? then None
    else if q.limit > 0 && q.limit - |a.records| <= 0 then None
    else
      var limited := if q.limit > 0 then q.(limit := q.limit - |a.records|) else q;
      Some(if q.desc then limited.(to := a.next.value) else limited.(from := a.next.value))
  }

  /** What a query is after it has been printed into a link and parsed again. */
  function Relinked(q: Query): Query {
    q.(from := Trunc(q.from), to := Trunc(q.to),
       limit := if q.limit > 0 then q.limit else -1,
       perPage := if q.perPage > 0 then q.perPage else MAX_PER_PAGE)
  }

  datatype Response = Refused | Page(records: seq<Record>, next: Option<Query>)

  /** One request. An end that is not after the start is refused; otherwise the response
      carries a page and the query its nextLink will be read as. */
  function Respond(s: seq<Record>, q: Query): Response {
    if q.to <= q.from then Refused
    else
      var a := Answered(s, q);
      var next := NextQuery(q, a);
      Page(a.records, if next.Some? then Some(Relinked(next.value)) else None)
  }

  /** A page size below 1 is let through: a negative one lifts the limit too, and 0 gives an
      empty page whose link asks for the largest size. */
  lemma PerPageBelowOne(s: seq<Record>, q: Query)
    requires q.perPage < 1 && q.from < q.to
    ensures q.perPage < 0 || Passed(s, q) == [] ==> Respond(s, q) == Page(Passed(s, q), None)
    ensures q.perPage == 0 && Passed(s, q) != [] ==>
              && Respond(s, q).records == []
              && Respond(s, q).next.Some? && Respond(s, q).next.value.perPage == MAX_PER_PAGE
  {
  }

  // ---- The walk ----

  type Service = Query -> Response

  /** The service answers every query from the same series. */
  ghost predicate Serves(service: Service, s: seq<Record>) {
    forall q: Query {:trigger Respond(s, q)} :: service(q) == Respond(s, q)
  }

  function ServiceOf(s: seq<Record>): (service: Service)
    ensures Serves(service, s)
  {
    (q: Query) => Respond(s, q)
  }

  datatype Walked = Done(records: seq<Record>, pages: nat) | Stopped | Unfinished

  /** A client requests the query and follows the links, `fuel` requests at most. */
  function Walk(service: Service, q: Query, fuel: nat): Walked
    decreases fuel
  {
    if fuel == 0 then Unfinished
    else
      match service(q)
      case Refused => Stopped
      case Page(records, None) => Done(records, 1)
      case Page(records, Some(next)) =>
        match Walk(service, next, fuel - 1)
        case Done(rest, pages) => Done(records + rest, pages + 1)
        case other => other
  }

  /** The walk ends within `fuel` requests, having delivered `out` in `pages` pages. */
  ghost predicate Delivers(service: Service, q: Query, fuel: nat, out: seq<Record>, pages: nat) {
    Walk(service, q, fuel) == Done(out, pages)
  }

  // ---- What is asked for ----

  function Reversed<T>(s: seq<T>): (out: seq<T>)
    ensures |out| == |s| && forall i :: 0 <= i < |s| ==> out[i] == s[|s| - 1 - i]
  {
    seq(|s|, i requires 0 <= i < |s| => s[|s| - 1 - i])
  }

  lemma ReversedMembers(w: seq<Record>, r: Record)
    ensures r in Reversed(w) <==> r in w
  {
    if r in w {
      var j :| 0 <= j < |w| && w[j] == r;
      assert Reversed(w)[|w| - 1 - j] == r;
    }
  }

  function InOrder(s: seq<Record>, desc: bool): seq<Record> {
    if desc then Reversed(s) else s
  }

  function FirstOf(w: seq<Record>, limit: int): (out: seq<Record>)
    ensures out <= w
  {
    if limit > 0 && |w| > limit then w[..limit] else w
  }

  /** The records of the closed time range. */
  function Range(s: seq<Record>, from: int, to: int): seq<Record> {
    var lo, hi := Lower(s, from), Lower(s, to + 1);
    if lo <= hi then s[lo..hi] else []
  }

  lemma RangeMembers(s: seq<Record>, from: int, to: int, r: Record)
    requires Sorted(s)
    ensures r in Range(s, from, to) <==> r in s && from <= r.time <= to
  {
    LowerSplits(s, from);
    LowerSplits(s, to + 1);
    if r in s && from <= r.time <= to {
      var i :| 0 <= i < |s| && s[i] == r;
      assert Range(s, from, to)[i - Lower(s, from)] == r;
    }
  }

  /** What the client asked for: the first `limit` records of the range in the asked order,
      or all of them. */
  function Wanted(s: seq<Record>, q: Query): seq<Record> {
    FirstOf(InOrder(Range(s, q.from, q.to), q.desc), q.limit)
  }

  /** What the cursor gives instead: the first `limit` records it passes. */
  function Served(s: seq<Record>, q: Query): (out: seq<Record>)
    ensures out <= Passed(s, q)
  {
    FirstOf(Passed(s, q), q.limit)
  }

  /** A stored series without records from before the epoch. */
  ghost predicate Timed(s: seq<Record>) {
    Sorted(s) && forall i :: 0 <= i < |s| ==> s[i].time >= 0
  }

  /** A stored series and a query the handler accepts. */
  ghost predicate Proper(s: seq<Record>, q: Query) {
    Timed(s) && q.from < q.to && q.perPage >= 1
  }

  /** A query that names no start or one from the epoch on, and such an end. */
  predicate Plain(q: Query) {
    (q.from >= 0 || q.from == ZERO_TIME) && q.to >= 0
  }

  predicate Ranged(q: Query) {
    Plain(q) && q.from <= q.to
  }

  /** Of a plain query the cursor reads the range it names. */
  lemma PlainKeys(s: seq<Record>, q: Query)
    requires Timed(s) && Ranged(q)
    ensures Start(q) <= End(q) == q.to && Lower(s, Start(q)) == Lower(s, q.from)
  {
    LowerSplits(s, q.from);
    LowerIs(s, Start(q), Lower(s, q.from));
  }

  /** No record has a time from `a` up to `b`. */
  ghost predicate Bare(s: seq<Record>, a: int, b: int) {
    forall i :: 0 <= i < |s| ==> !(a <= s[i].time < b)
  }

  predicate Exhausts(s: seq<Record>, q: Query) {
    q.limit > 0 && |Passed(s, q)| >= q.limit
  }

  /** The page boundary before the record at `ts` survives printing to whole seconds: the
      second of the record begins with it, and the range behind the link is not empty. */
  ghost predicate CleanBoundary(s: seq<Record>, q: Query, ts: int) {
    Bare(s, Trunc(ts), ts) && if q.desc then Trunc(q.from) < Trunc(ts) else Trunc(ts) < Trunc(q.to)
  }

  /** Printing to whole seconds does not move the far end of the range over a record. */
  ghost predicate CleanEnd(s: seq<Record>, q: Query)
    requires Served(s, q) != []
  {
    var v := Served(s, q);
    if q.desc then Exhausts(s, q) || Bare(s, Trunc(q.from), q.from) else v[|v| - 1].time <= Trunc(q.to)
  }

  /** A page begins at index `k`: a positive multiple of the page size. */
  predicate Begins(k: int, perPage: int)
    requires perPage >= 1
    decreases k
  {
    k == perPage || (k > perPage && Begins(k - perPage, perPage))
  }

  lemma {:induction false} BeginsAtMultiples(k: nat, perPage: int)
    requires perPage >= 1
    ensures Begins(k, perPage) <==> k > 0 && k % perPage == 0
  {
    if k < perPage {
      Small(k, perPage);
    } else {
      Shift(k - perPage, perPage);
      Small(0, perPage);
      if k > perPage {
        BeginsAtMultiples(k - perPage, perPage);
      }
    }
  }

  /** When paging is right: the result fits one page, or every page boundary and the far end
      survive being printed. */
  ghost predicate CleanPages(s: seq<Record>, q: Query)
    requires q.perPage >= 1
  {
    var v := Served(s, q);
    |v| > q.perPage ==>
      && CleanEnd(s, q)
      && forall k :: 0 < k < |v| && Begins(k, q.perPage) ==> CleanBoundary(s, q, v[k].time)
  }

  /** A descending cursor starts within the range: no record is after the end, or one is at it. */
  ghost predicate StartsInRange(s: seq<Record>, q: Query) {
    q.desc ==> (forall r :: r in s ==> r.time <= q.to) || exists r :: r in s && r.time == q.to
  }

  /** When a walk gives what was asked for. With a start or an end from before the epoch, of
      which the unsigned keys make the far future, only if there is nothing to give. */
  ghost predicate Clean(s: seq<Record>, q: Query)
    requires q.perPage >= 1
  {
    if Plain(q) then StartsInRange(s, q) && CleanPages(s, q) else Served(s, q) == [] && Wanted(s, q) == []
  }

  // ---- One link ----

  /** The query behind the link of a first page that is not the last. */
  function Linked(s: seq<Record>, q: Query): Query
    requires q.perPage >= 1 && |Served(s, q)| > q.perPage
  {
    var ts := Served(s, q)[q.perPage].time;
    var limit := if q.limit > 0 then q.limit - q.perPage else -1;
    if q.desc then q.(from := Trunc(q.from), to := Trunc(ts), limit := limit)
    else q.(from := Trunc(ts), to := Trunc(q.to), limit := limit)
  }

  /** A request answers with the first page of what is served, and links on exactly when
      that is not all. */
  lemma ResponseIsFirstPage(s: seq<Record>, q: Query)
    requires q.perPage >= 1
    ensures var v := Served(s, q);
            Respond(s, q) ==
              if q.to <= q.from then Refused
              else if |v| <= q.perPage then Page(v, None)
              else Page(v[..q.perPage], Some(Linked(s, q)))
  {
    var v, a := Served(s, q), Answered(s, q);
    if |v| <= q.perPage {
      assert a.records == v && NextQuery(q, a) == None;
    } else {
      assert a.records == v[..q.perPage] && a.next == Some(v[q.perPage].time);
      assert Relinked(NextQuery(q, a).value) == Linked(s, q);
    }
  }

  // ---- Places in the series ----

  /** How many of `n` records a limit lets through. */
  function Cut(n: int, limit: int): int {
    if limit > 0 && n > limit then limit else n
  }

  /** Where the served records are in the series. */
  ghost predicate ServedIn(s: seq<Record>, q: Query, lo: nat, hi: nat) {
    && lo <= hi <= |s|
    && |Passed(s, q)| == hi - lo
    && |Served(s, q)| == Cut(hi - lo, q.limit)
    && forall p :: 0 <= p < |Served(s, q)| ==> Served(s, q)[p] == if q.desc then s[hi - 1 - p] else s[lo + p]
  }

  lemma CutIn(s: seq<Record>, q: Query, lo: nat, hi: nat)
    requires PassedIn(s, q, lo, hi)
    ensures ServedIn(s, q, lo, hi)
  {
    assert forall p :: 0 <= p < |Served(s, q)| ==> Served(s, q)[p] == Passed(s, q)[p];
  }

  lemma ServedAt(s: seq<Record>, q: Query)
    requires Timed(s) && Ranged(q)
    ensures ServedIn(s, q, Lower(s, q.from), Top(s, q))
  {
    PlainKeys(s, q);
    PassedAt(s, q);
    CutIn(s, q, Lower(s, q.from), Top(s, q));
  }

  /** The index in the series of the p-th served record. */
  function Place(s: seq<Record>, q: Query, p: int): int {
    if q.desc then Top(s, q) - 1 - p else Lower(s, q.from) + p
  }

  lemma ServedElement(s: seq<Record>, q: Query, p: nat)
    requires Timed(s) && Ranged(q) && p < |Served(s, q)|
    ensures var i := Place(s, q, p);
            0 <= i < |s| && Served(s, q)[p] == s[i] && q.from <= s[i].time && (q.desc || s[i].time <= q.to)
    ensures Served(s, q)[p] in s
  {
    ServedAt(s, q);
    var i := Place(s, q, p);
    LowerAt(s, q.from, i);
    LowerAt(s, q.to + 1, i);
  }

  lemma TruncBounds(t: int)
    ensures Trunc(t) <= t < Trunc(t) + TICKS
    ensures Trunc(Trunc(t)) == Trunc(t)
    ensures t >= 0 ==> Trunc(t) >= 0
    ensures t % TICKS == 0 <==> Trunc(t) == t
    ensures Trunc(ZERO_TIME) == ZERO_TIME
  {
  }

  lemma SamePlace(s: seq<Record>, i: nat, j: nat)
    requires Sorted(s) && i < |s| && j < |s| && s[i] == s[j]
    ensures i == j
  {
  }

  /** A second begins with a record exactly when Seek finds that record from the second. */
  lemma SecondBeginsAt(s: seq<Record>, i: nat)
    requires Sorted(s) && i < |s|
    ensures Lower(s, Trunc(s[i].time)) <= i
    ensures Bare(s, Trunc(s[i].time), s[i].time) <==> Lower(s, Trunc(s[i].time)) == i
  {
    var t := Trunc(s[i].time);
    TruncBounds(s[i].time);
    LowerSplits(s, t);
    var n := Lower(s, t);
    assert n < i ==> t <= s[n].time < s[i].time;
  }

  lemma NothingBetween(s: seq<Record>, from: int)
    requires Sorted(s)
    ensures Lower(s, Trunc(from)) <= Lower(s, from)
    ensures Bare(s, Trunc(from), from) <==> Lower(s, Trunc(from)) == Lower(s, from)
  {
    TruncBounds(from);
    LowerSplits(s, from);
    LowerSplits(s, Trunc(from));
    LowerMonotone(s, Trunc(from), from);
    var n := Lower(s, Trunc(from));
    assert n < Lower(s, from) ==> Trunc(from) <= s[n].time < from;
  }

  // ---- A clean link selects the rest ----

  /** How many records are left after a page. */
  lemma CutRest(n: int, n1: int, limit: int, k: int)
    requires 0 < k < Cut(n, limit)
    requires Cut(n, limit) <= n1 + k && (n1 + k <= n || (limit > 0 && n >= limit))
    ensures Cut(n1, if limit > 0 then limit - k else -1) == Cut(n, limit) - k
  {
  }

  lemma ServedLength(s: seq<Record>, q: Query)
    requires Timed(s) && Ranged(q)
    ensures |Passed(s, q)| == Top(s, q) - Lower(s, q.from) && |Served(s, q)| == Cut(|Passed(s, q)|, q.limit)
  {
    ServedAt(s, q);
  }

  /** The same records at the same places. */
  lemma SameRest(v: seq<Record>, w: seq<Record>, k: nat)
    requires k <= |v| && |w| == |v| - k
    requires forall p :: 0 <= p < |w| ==> w[p] == v[k + p]
    ensures w == v[k..]
  {
  }

  lemma RestElement(s: seq<Record>, q: Query, next: Query, p: nat)
    requires Timed(s) && Ranged(q) && Ranged(next) && q.perPage >= 1
    requires p < |Served(s, next)| && q.perPage + p < |Served(s, q)|
    requires Place(s, next, p) == Place(s, q, q.perPage + p)
    ensures Served(s, next)[p] == Served(s, q)[q.perPage + p]
  {
    ServedElement(s, next, p);
    ServedElement(s, q, q.perPage + p);
  }

  /** The records left after a page, when the next query starts at them and reaches as far
      as needed. */
  lemma RestIsServed(s: seq<Record>, q: Query, next: Query)
    requires Timed(s) && Ranged(q) && Ranged(next) && 1 <= q.perPage < |Served(s, q)|
    requires next.desc == q.desc && |Served(s, next)| == |Served(s, q)| - q.perPage
    requires Place(s, next, 0) == Place(s, q, q.perPage)
    ensures Served(s, next) == Served(s, q)[q.perPage..]
  {
    forall p | 0 <= p < |Served(s, next)| ensures Served(s, next)[p] == Served(s, q)[q.perPage + p] {
      RestElement(s, q, next, p);
    }
    SameRest(Served(s, q), Served(s, next), q.perPage);
  }

  lemma RestSelected(s: seq<Record>, q: Query, next: Query)
    requires Timed(s) && Ranged(q) && Ranged(next) && 1 <= q.perPage < |Served(s, q)|
    requires next.desc == q.desc && next.limit == if q.limit > 0 then q.limit - q.perPage else -1
    requires Place(s, next, 0) == Place(s, q, q.perPage)
    requires var n, n1 := Top(s, q) - Lower(s, q.from), Top(s, next) - Lower(s, next.from);
             |Served(s, q)| <= n1 + q.perPage && (n1 + q.perPage <= n || (q.limit > 0 && n >= q.limit))
    ensures Served(s, next) == Served(s, q)[q.perPage..]
  {
    ServedLength(s, q);
    ServedLength(s, next);
    CutRest(Top(s, q) - Lower(s, q.from), Top(s, next) - Lower(s, next.from), q.limit, q.perPage);
    RestIsServed(s, q, next);
  }

  /** Where a link at a clean boundary starts to read. */
  lemma LinkedStart(s: seq<Record>, q: Query)
    requires Proper(s, q) && Plain(q) && |Served(s, q)| > q.perPage
    requires CleanBoundary(s, q, Served(s, q)[q.perPage].time)
    ensures Proper(s, Linked(s, q)) && Plain(Linked(s, q))
    ensures if q.desc then Top(s, Linked(s, q)) == Top(s, q) - q.perPage
            else Lower(s, Linked(s, q).from) == Lower(s, q.from) + q.perPage
  {
    var ts := Served(s, q)[q.perPage].time;
    ServedElement(s, q, q.perPage);
    SecondBeginsAt(s, Place(s, q, q.perPage));
    TruncBounds(ts);
    TruncBounds(q.from);
  }

  /** Moving the end of the range back to `to1` drops no record when the last one served is
      not after `to1`. */
  lemma EndKeeps(s: seq<Record>, q: Query, to1: int)
    requires Timed(s) && Ranged(q) && !q.desc && Served(s, q) != [] && to1 <= q.to
    requires Served(s, q)[|Served(s, q)| - 1].time <= to1
    ensures Lower(s, q.from) + |Served(s, q)| <= Lower(s, to1 + 1) <= Lower(s, q.to + 1)
  {
    ServedElement(s, q, |Served(s, q)| - 1);
    LowerMonotone(s, to1 + 1, q.to + 1);
    LowerAt(s, to1 + 1, Lower(s, q.from) + |Served(s, q)| - 1);
  }

  lemma CleanLinkAscending(s: seq<Record>, q: Query)
    requires Proper(s, q) && Plain(q) && !q.desc && |Served(s, q)| > q.perPage
    requires CleanEnd(s, q) && CleanBoundary(s, q, Served(s, q)[q.perPage].time)
    ensures Served(s, Linked(s, q)) == Served(s, q)[q.perPage..]
    ensures CleanEnd(s, Linked(s, q))
  {
    LinkedStart(s, q);
    TruncBounds(q.to);
    EndKeeps(s, q, Trunc(q.to));
    RestSelected(s, q, Linked(s, q));
  }

  /** A start already at a whole second is not moved again. */
  lemma LinkedEndIsClean(s: seq<Record>, q: Query)
    requires q.perPage >= 1 && q.desc && |Served(s, q)| > q.perPage && Served(s, Linked(s, q)) != []
    ensures CleanEnd(s, Linked(s, q))
  {
    TruncBounds(q.from);
  }

  lemma CleanLinkDescending(s: seq<Record>, q: Query)
    requires Proper(s, q) && Plain(q) && q.desc && |Served(s, q)| > q.perPage
    requires CleanEnd(s, q) && CleanBoundary(s, q, Served(s, q)[q.perPage].time)
    ensures Served(s, Linked(s, q)) == Served(s, q)[q.perPage..]
    ensures CleanEnd(s, Linked(s, q))
  {
    assert Served(s, Linked(s, q)) == Served(s, q)[q.perPage..] by {
      LinkedStart(s, q);
      NothingBetween(s, q.from);
      ServedLength(s, q);
      RestSelected(s, q, Linked(s, q));
    }
    LinkedEndIsClean(s, q);
  }

  /** A link whose boundary survives selects what is left. */
  lemma CleanLink(s: seq<Record>, q: Query)
    requires Proper(s, q) && Plain(q) && |Served(s, q)| > q.perPage
    requires CleanEnd(s, q) && CleanBoundary(s, q, Served(s, q)[q.perPage].time)
    ensures Proper(s, Linked(s, q)) && Plain(Linked(s, q))
    ensures Served(s, Linked(s, q)) == Served(s, q)[q.perPage..] && CleanEnd(s, Linked(s, q))
  {
    LinkedStart(s, q);
    if q.desc {
      CleanLinkDescending(s, q);
    } else {
      CleanLinkAscending(s, q);
    }
  }

  // ---- Clean walks give what is served ----

  /** A later boundary is as clean for the query behind the link. */
  lemma BoundaryShifts(s: seq<Record>, q: Query, ts: int)
    requires q.perPage >= 1 && |Served(s, q)| > q.perPage
    ensures CleanBoundary(s, Linked(s, q), ts) <==> CleanBoundary(s, q, ts)
  {
    TruncBounds(q.to);
    TruncBounds(q.from);
  }

  lemma CleanStays(s: seq<Record>, q: Query)
    requires Proper(s, q) && Plain(q) && |Served(s, q)| > q.perPage && CleanPages(s, q)
    ensures CleanEnd(s, q) && CleanBoundary(s, q, Served(s, q)[q.perPage].time)
    ensures CleanPages(s, Linked(s, q))
  {
    var v, p, next := Served(s, q), q.perPage, Linked(s, q);
    assert Begins(p, p);
    CleanLink(s, q);
    forall k | 0 < k < |v| - p && Begins(k, p) ensures CleanBoundary(s, next, v[p..][k].time) {
      assert Begins(k + p, p) && v[p..][k] == v[k + p];
      BoundaryShifts(s, q, v[k + p].time);
    }
  }

  lemma CleanFromNext(s: seq<Record>, q: Query)
    requires Proper(s, q) && Plain(q) && |Served(s, q)| > q.perPage
    requires CleanEnd(s, q) && CleanBoundary(s, q, Served(s, q)[q.perPage].time)
    requires CleanPages(s, Linked(s, q))
    ensures CleanPages(s, q)
  {
    var v, p := Served(s, q), q.perPage;
    CleanLink(s, q);
    forall k | 0 < k < |v| && Begins(k, p) ensures CleanBoundary(s, q, v[k].time) {
      if k > p {
        OneBoundary(s, Linked(s, q), k - p);
        assert v[p..][k - p] == v[k];
        BoundaryShifts(s, q, v[k].time);
      }
    }
  }

  lemma OneBoundary(s: seq<Record>, q: Query, k: int)
    requires q.perPage >= 1 && CleanPages(s, q) && 0 < k < |Served(s, q)| && Begins(k, q.perPage)
    ensures CleanBoundary(s, q, Served(s, q)[k].time)
  {
  }

  /** How many pages `n` records take; a result without records takes one. */
  function Pages(n: nat, perPage: int): (pages: nat)
    requires perPage >= 1
  {
    if n <= perPage then 1 else Pages(n - perPage, perPage) + 1
  }

  lemma {:induction false} PagesAreCeiling(n: nat, perPage: int)
    requires perPage >= 1
    ensures Pages(n, perPage) == if n == 0 then 1 else (n + perPage - 1) / perPage
    decreases n
  {
    if n > perPage {
      PagesAreCeiling(n - perPage, perPage);
      Shift(n - 1, perPage);
    } else if n > 0 {
      Small(n - 1, perPage);
      Shift(n - 1, perPage);
    }
  }

  type Promise = (Query, seq<Record>) -> bool

  /** A service that keeps a promise page by page: what is promised of a query is its page, or
      a full page and a link of which the rest is promised. */
  ghost predicate Honours(service: Service, promised: Promise, p: int)
    requires p >= 1
  {
    forall q, v :: promised(q, v) ==>
      if |v| <= p then service(q) == Page(v, None)
      else service(q).Page? && service(q).records == v[..p] && service(q).next.Some? && promised(service(q).next.value, v[p..])
  }

  lemma {:induction false} PromiseIsDelivered(service: Service, promised: Promise, p: int, q: Query, v: seq<Record>, fuel: nat, pages: nat)
    requires p >= 1 && Honours(service, promised, p) && promised(q, v) && pages == Pages(|v|, p) <= fuel
    ensures Delivers(service, q, fuel, v, pages)
    decreases |v|
  {
    if |v| > p {
      PromiseIsDelivered(service, promised, p, service(q).next.value, v[p..], fuel - 1, pages - 1);
      assert v == v[..p] + v[p..];
    }
  }

  /** Clean paging goes on cleanly behind its first link. */
  lemma CleanRest(s: seq<Record>, q: Query, v: seq<Record>)
    requires Proper(s, q) && Plain(q) && CleanPages(s, q) && v == Served(s, q) && |v| > q.perPage
    ensures var next := Linked(s, q);
            && Respond(s, q) == Page(v[..q.perPage], Some(next))
            && Proper(s, next) && Plain(next) && next.perPage == q.perPage
            && CleanPages(s, next) && Served(s, next) == v[q.perPage..]
  {
    CleanStays(s, q);
    CleanLink(s, q);
    ResponseIsFirstPage(s, q);
  }

  ghost predicate ServedCleanly(s: seq<Record>, p: int, q: Query, v: seq<Record>) {
    q.perPage == p && Proper(s, q) && Plain(q) && CleanPages(s, q) && v == Served(s, q)
  }

  lemma CleanPage(service: Service, s: seq<Record>, q: Query, v: seq<Record>)
    requires Serves(service, s) && ServedCleanly(s, q.perPage, q, v)
    ensures if |v| <= q.perPage then service(q) == Page(v, None)
            else service(q).Page? && service(q).records == v[..q.perPage] && service(q).next.Some?
                 && ServedCleanly(s, q.perPage, service(q).next.value, v[q.perPage..])
  {
    ResponseIsFirstPage(s, q);
    if |v| > q.perPage {
      CleanRest(s, q, v);
    }
  }

  lemma CleanIsHonoured(service: Service, s: seq<Record>, p: int, promised: Promise)
    requires Serves(service, s) && p >= 1
    requires promised == ((x, y) => ServedCleanly(s, p, x, y))
    ensures Honours(service, promised, p)
  {
    forall x, y | promised(x, y)
      ensures if |y| <= p then service(x) == Page(y, None)
              else service(x).Page? && service(x).records == y[..p] && service(x).next.Some? && promised(service(x).next.value, y[p..])
    {
      CleanPage(service, s, x, y);
    }
  }

  /** With clean paging the walk ends, and its pages are what the cursor serves, in as few
      pages as it takes. */
  lemma CleanWalks(service: Service, s: seq<Record>, q: Query, fuel: nat, v: seq<Record>, pages: nat)
    requires Serves(service, s) && q.perPage >= 1 && ServedCleanly(s, q.perPage, q, v)
    requires pages == Pages(|v|, q.perPage) <= fuel
    ensures Delivers(service, q, fuel, v, pages)
  {
    var p := q.perPage;
    var promised: Promise := (x, y) => ServedCleanly(s, p, x, y);
    CleanIsHonoured(service, s, p, promised);
    assert promised(q, v);
    PromiseIsDelivered(service, promised, p, q, v, fuel, pages);
  }

  // ---- No other walk does ----

  /** A walk that ends either takes one page, or delivers a full page and goes on from an
      accepted link. */
  lemma DeliversStep(service: Service, s: seq<Record>, q: Query, fuel: nat, out: seq<Record>, pages: nat) returns (rest: seq<Record>)
    requires Serves(service, s) && q.perPage >= 1 && Delivers(service, q, fuel, out, pages)
    ensures fuel > 0 && q.from < q.to
    ensures var v := Served(s, q);
            if |v| <= q.perPage then rest == [] && out == v && pages == 1
            else
              && out == v[..q.perPage] + rest && pages > 1
              && Linked(s, q).from < Linked(s, q).to
              && Delivers(service, Linked(s, q), fuel - 1, rest, pages - 1)
  {
    ResponseIsFirstPage(s, q);
    if |Served(s, q)| > q.perPage {
      ResponseIsFirstPage(s, Linked(s, q));
    }
    rest := if |Served(s, q)| <= q.perPage then [] else Walk(service, Linked(s, q), fuel - 1).records;
  }

  /** A walk delivers the first served record first. */
  lemma FirstDelivered(service: Service, s: seq<Record>, q: Query, fuel: nat, out: seq<Record>, pages: nat)
    requires Serves(service, s) && q.perPage >= 1 && Delivers(service, q, fuel, out, pages)
    ensures out == [] <==> Served(s, q) == []
    ensures out != [] ==> Served(s, q)[0] == out[0]
  {
    var rest := DeliversStep(service, s, q, fuel, out, pages);
  }

  /** What a walk that delivers the served records shows of its first link: it is accepted,
      and starts with the first record left. */
  lemma FirstLink(service: Service, s: seq<Record>, q: Query, fuel: nat, v: seq<Record>, pages: nat)
    requires Serves(service, s) && q.perPage >= 1 && v == Served(s, q) && |v| > q.perPage
    requires Delivers(service, q, fuel, v, pages)
    ensures fuel > 0 && pages > 1
    ensures var next := Linked(s, q);
            && next.from < next.to
            && Delivers(service, next, fuel - 1, v[q.perPage..], pages - 1)
            && Served(s, next) != [] && Served(s, next)[0] == v[q.perPage]
  {
    var rest := DeliversStep(service, s, q, fuel, v, pages);
    assert rest == v[q.perPage..] by {
      assert v == v[..q.perPage] + v[q.perPage..];
    }
    FirstDelivered(service, s, Linked(s, q), fuel - 1, rest, pages - 1);
  }

  /** A link that starts with the first record left has a clean boundary. */
  lemma BoundaryWasClean(s: seq<Record>, q: Query, v: seq<Record>, next: Query)
    requires Proper(s, q) && Plain(q) && v == Served(s, q) && |v| > q.perPage && next == Linked(s, q)
    requires next.from < next.to && Served(s, next) != [] && Served(s, next)[0] == v[q.perPage]
    ensures Plain(next) && CleanBoundary(s, q, v[q.perPage].time)
  {
    ServedElement(s, q, q.perPage);
    TruncBounds(v[q.perPage].time);
    TruncBounds(q.from);
    var i := Place(s, q, q.perPage);
    SecondBeginsAt(s, i);
    ServedElement(s, next, 0);
    SamePlace(s, Place(s, next, 0), i);
  }

  // ---- The far end, ascending ----

  lemma {:induction false} WalkStaysBelow(service: Service, s: seq<Record>, q: Query, fuel: nat, out: seq<Record>, pages: nat)
    requires Serves(service, s) && Sorted(s) && Plain(q) && !q.desc && q.perPage >= 1
    requires forall i :: 0 <= i < |s| ==> s[i].time >= 0
    requires Delivers(service, q, fuel, out, pages)
    ensures forall r :: r in out ==> r.time <= q.to
    decreases fuel
  {
    var rest := DeliversStep(service, s, q, fuel, out, pages);
    var v := Served(s, q);
    forall r | r in v ensures r.time <= q.to {
      var p :| 0 <= p < |v| && v[p] == r;
      ServedElement(s, q, p);
    }
    if |v| > q.perPage {
      ServedElement(s, q, q.perPage);
      TruncBounds(v[q.perPage].time);
      TruncBounds(q.to);
      WalkStaysBelow(service, s, Linked(s, q), fuel - 1, rest, pages - 1);
    }
  }

  lemma AscendingEndWasClean(service: Service, s: seq<Record>, q: Query, fuel: nat, v: seq<Record>, pages: nat)
    requires Serves(service, s) && Proper(s, q) && Plain(q) && !q.desc && v == Served(s, q) && |v| > q.perPage
    requires Plain(Linked(s, q)) && Delivers(service, Linked(s, q), fuel, v[q.perPage..], pages)
    ensures CleanEnd(s, q)
  {
    var rest := v[q.perPage..];
    WalkStaysBelow(service, s, Linked(s, q), fuel, rest, pages);
    assert rest[|rest| - 1] == v[|v| - 1] && rest[|rest| - 1] in rest;
  }

  // ---- The far end, descending ----

  /** A descending link that is accepted serves something. */
  lemma LinkServes(s: seq<Record>, q: Query)
    requires Proper(s, q) && Plain(q) && q.desc && |Served(s, q)| > q.perPage
    requires Linked(s, q).from < Linked(s, q).to
    ensures Proper(s, Linked(s, q)) && Plain(Linked(s, q)) && Served(s, Linked(s, q)) != []
  {
    var next := Linked(s, q);
    TruncBounds(q.from);
    TruncBounds(next.to);
    ServedElement(s, q, q.perPage);
    SecondBeginsAt(s, Place(s, q, q.perPage));
    var n := Lower(s, next.to);
    LowerAt(s, next.to, n);
    LowerAt(s, next.from, n);
    ServedLength(s, next);
  }

  /** A descending page that is not cut ends with the first record of its range. */
  lemma LastServed(s: seq<Record>, q: Query)
    requires Timed(s) && Ranged(q) && q.desc && Served(s, q) != []
    requires q.limit <= 0 || |Served(s, q)| < q.limit
    ensures Lower(s, q.from) < |s| && Served(s, q)[|Served(s, q)| - 1] == s[Lower(s, q.from)]
  {
    ServedLength(s, q);
    ServedElement(s, q, |Served(s, q)| - 1);
  }

  /** What a descending walk of several pages delivers behind its first link. */
  lemma RestOfDescending(service: Service, s: seq<Record>, q: Query, fuel: nat, out: seq<Record>, pages: nat)
    returns (next: Query, rest: seq<Record>)
    requires Serves(service, s) && Proper(s, q) && Plain(q) && q.desc && Trunc(q.from) == q.from
    requires Delivers(service, q, fuel, out, pages) && |Served(s, q)| > q.perPage
    ensures fuel > 0 && pages > 1 && Delivers(service, next, fuel - 1, rest, pages - 1)
    ensures Proper(s, next) && Plain(next) && next.desc && next.from == q.from
    ensures next.limit == if q.limit > 0 then q.limit - q.perPage else -1
    ensures rest != [] && |out| == q.perPage + |rest| && out[|out| - 1] == rest[|rest| - 1]
  {
    next := Linked(s, q);
    rest := DeliversStep(service, s, q, fuel, out, pages);
    LinkServes(s, q);
    FirstDelivered(service, s, next, fuel - 1, rest, pages - 1);
  }

  /** A descending walk that ends before the limit ends with the first record of its range. */
  lemma {:induction false} LastDelivered(service: Service, s: seq<Record>, q: Query, fuel: nat, out: seq<Record>, pages: nat)
    requires Serves(service, s) && Proper(s, q) && Plain(q) && q.desc && Trunc(q.from) == q.from
    requires Delivers(service, q, fuel, out, pages) && out != [] && (q.limit <= 0 || |out| < q.limit)
    ensures Lower(s, q.from) < |s| && out[|out| - 1] == s[Lower(s, q.from)]
    decreases fuel
  {
    if |Served(s, q)| <= q.perPage {
      var _ := DeliversStep(service, s, q, fuel, out, pages);
      LastServed(s, q);
    } else {
      var next, rest := RestOfDescending(service, s, q, fuel, out, pages);
      LastDelivered(service, s, next, fuel - 1, rest, pages - 1);
    }
  }

  lemma DescendingEndWasClean(service: Service, s: seq<Record>, q: Query, fuel: nat, v: seq<Record>, pages: nat)
    requires Serves(service, s) && Proper(s, q) && Plain(q) && q.desc && v == Served(s, q) && |v| > q.perPage
    requires Linked(s, q).from < Linked(s, q).to && Delivers(service, Linked(s, q), fuel, v[q.perPage..], pages)
    ensures CleanEnd(s, q)
  {
    if !Exhausts(s, q) {
      var next, rest := Linked(s, q), v[q.perPage..];
      TruncBounds(q.from);
      LinkServes(s, q);
      LastDelivered(service, s, next, fuel, rest, pages);
      ServedLength(s, q);
      ServedElement(s, q, |v| - 1);
      assert rest[|rest| - 1] == v[|v| - 1] == s[Lower(s, q.from)];
      SamePlace(s, Lower(s, next.from), Lower(s, q.from));
      NothingBetween(s, q.from);
    }
  }

  // ---- Together ----

  /** The walk behind the first link of a walk that delivers what is served does so too, and
      the link was clean. */
  lemma RestIsDelivered(service: Service, s: seq<Record>, q: Query, fuel: nat, v: seq<Record>, pages: nat)
    requires Serves(service, s) && Proper(s, q) && Plain(q) && v == Served(s, q) && |v| > q.perPage
    requires Delivers(service, q, fuel, v, pages)
    ensures CleanEnd(s, q) && CleanBoundary(s, q, v[q.perPage].time)
    ensures fuel > 0 && pages > 0 && Delivers(service, Linked(s, q), fuel - 1, v[q.perPage..], pages - 1)
  {
    var next := Linked(s, q);
    assert fuel > 0 && pages > 1 && next.from < next.to && Plain(next) && CleanBoundary(s, q, v[q.perPage].time)
           && Delivers(service, next, fuel - 1, v[q.perPage..], pages - 1) by {
      FirstLink(service, s, q, fuel, v, pages);
      BoundaryWasClean(s, q, v, next);
    }
    if q.desc {
      DescendingEndWasClean(service, s, q, fuel - 1, v, pages - 1);
    } else {
      AscendingEndWasClean(service, s, q, fuel - 1, v, pages - 1);
    }
  }

  /** So paging is clean if it is behind that link. */
  lemma CleanIfRestIs(service: Service, s: seq<Record>, q: Query, fuel: nat, v: seq<Record>, pages: nat)
    returns (next: Query, rest: seq<Record>)
    requires Serves(service, s) && Proper(s, q) && Plain(q) && v == Served(s, q) && |v| > q.perPage
    requires Delivers(service, q, fuel, v, pages)
    ensures fuel > 0 && pages > 0 && Delivers(service, next, fuel - 1, rest, pages - 1)
    ensures Proper(s, next) && Plain(next) && rest == Served(s, next)
    ensures CleanPages(s, next) ==> CleanPages(s, q)
  {
    next, rest := Linked(s, q), v[q.perPage..];
    RestIsDelivered(service, s, q, fuel, v, pages);
    CleanLink(s, q);
    if CleanPages(s, next) {
      CleanFromNext(s, q);
    }
  }

  /** A walk that delivers what is served is clean at every page boundary. */
  lemma {:induction false} DeliveredIsClean(service: Service, s: seq<Record>, q: Query, fuel: nat, v: seq<Record>, pages: nat)
    requires Serves(service, s) && Proper(s, q) && Plain(q) && v == Served(s, q) && Delivers(service, q, fuel, v, pages)
    ensures CleanPages(s, q)
    decreases fuel
  {
    if |v| > q.perPage {
      var next, rest := CleanIfRestIs(service, s, q, fuel, v, pages);
      DeliveredIsClean(service, s, next, fuel - 1, rest, pages - 1);
    }
  }

  // ---- What is served and what was asked for ----

  lemma StartsInRangeIs(s: seq<Record>, q: Query)
    requires Timed(s) && Ranged(q)
    ensures StartsInRange(s, q) <==> Top(s, q) == Lower(s, q.to + 1)
    ensures !StartsInRange(s, q) ==> 0 < Top(s, q) && s[Top(s, q) - 1].time > q.to
  {
    var n := Lower(s, q.to);
    LowerSplits(s, q.to);
    if n == |s| {
      LowerIs(s, q.to + 1, n);
      forall r | r in s ensures r.time <= q.to {
        var i :| 0 <= i < |s| && s[i] == r;
      }
    } else if s[n].time == q.to {
      assert s[n] in s;
      LowerIs(s, q.to + 1, n + 1);
    } else {
      assert s[n] in s;
      LowerIs(s, q.to + 1, n);
      forall r | r in s ensures r.time != q.to {
        var i :| 0 <= i < |s| && s[i] == r;
      }
    }
  }

  /** A stretch read in the one order or the other, place by place. */
  lemma InOrderIs(s: seq<Record>, w: seq<Record>, lo: nat, hi: nat, desc: bool)
    requires lo <= hi <= |s| && |w| == hi - lo
    requires forall p :: 0 <= p < hi - lo ==> w[p] == if desc then s[hi - 1 - p] else s[lo + p]
    ensures w == InOrder(s[lo..hi], desc)
  {
    var part := s[lo..hi];
    forall p | 0 <= p < |w| ensures w[p] == InOrder(part, desc)[p] {
      assert part[if desc then |part| - 1 - p else p] == w[p];
    }
  }

  lemma WantedIsServed(s: seq<Record>, q: Query)
    requires Proper(s, q) && Plain(q) && StartsInRange(s, q)
    ensures Served(s, q) == Wanted(s, q)
  {
    var lo, hi := Lower(s, q.from), Top(s, q);
    StartsInRangeIs(s, q);
    PlainKeys(s, q);
    PassedAt(s, q);
    InOrderIs(s, Passed(s, q), lo, hi, q.desc);
  }

  lemma WantedInRange(s: seq<Record>, q: Query, r: Record)
    requires Sorted(s) && r in Wanted(s, q)
    ensures r in s && r.time <= q.to
  {
    var w := Range(s, q.from, q.to);
    assert r in InOrder(w, q.desc);
    ReversedMembers(w, r);
    RangeMembers(s, q.from, q.to, r);
  }

  /** A cursor that starts beyond the range delivers what was not asked for. */
  lemma OvershootIsDelivered(service: Service, s: seq<Record>, q: Query, fuel: nat, out: seq<Record>, pages: nat)
    requires Serves(service, s) && Proper(s, q) && Plain(q) && !StartsInRange(s, q)
    requires Delivers(service, q, fuel, out, pages)
    ensures out != Wanted(s, q)
  {
    StartsInRangeIs(s, q);
    LowerAt(s, q.from, Top(s, q) - 1);
    ServedLength(s, q);
    ServedElement(s, q, 0);
    FirstDelivered(service, s, q, fuel, out, pages);
    if out == Wanted(s, q) {
      WantedInRange(s, q, out[0]);
      assert false;
    }
  }

  lemma NothingServed(service: Service, s: seq<Record>, q: Query, fuel: nat)
    requires Serves(service, s) && q.perPage >= 1 && Served(s, q) == [] && q.from < q.to && fuel > 0
    ensures Delivers(service, q, fuel, [], 1)
  {
    ResponseIsFirstPage(s, q);
  }

  lemma CleanDelivers(service: Service, s: seq<Record>, q: Query, fuel: nat)
    requires Serves(service, s) && Proper(s, q) && Clean(s, q) && fuel >= Pages(|Wanted(s, q)|, q.perPage)
    ensures Delivers(service, q, fuel, Wanted(s, q), Pages(|Wanted(s, q)|, q.perPage))
  {
    if !Plain(q) {
      NothingServed(service, s, q, fuel);
    } else {
      WantedIsServed(s, q);
      CleanWalks(service, s, q, fuel, Served(s, q), Pages(|Wanted(s, q)|, q.perPage));
    }
  }

  /** The times of the records and of the query fit 64 bits. */
  ghost predicate Representable(s: seq<Record>, q: Query) {
    Int64(Ticks(q.from)) && Int64(Ticks(q.to)) && forall i :: 0 <= i < |s| ==> Int64(s[i].time)
  }

  /** With a start before the epoch nothing is served, and with such an end nothing is wanted. */
  lemma NotPlainWants(s: seq<Record>, q: Query)
    requires Proper(s, q) && Representable(s, q) && !Plain(q)
    ensures Served(s, q) == [] || Wanted(s, q) == []
  {
    if q.to < 0 {
      if Wanted(s, q) != [] {
        WantedInRange(s, q, Wanted(s, q)[0]);
        assert false;
      }
    } else {
      LowerSplits(s, Start(q));
      LowerSplits(s, End(q));
      PassedBetween(s, q);
    }
  }

  lemma DeliversOnlyClean(service: Service, s: seq<Record>, q: Query, fuel: nat, pages: nat)
    requires Serves(service, s) && Proper(s, q) && Representable(s, q) && Delivers(service, q, fuel, Wanted(s, q), pages)
    ensures Clean(s, q)
  {
    if !Plain(q) {
      NotPlainWants(s, q);
      FirstDelivered(service, s, q, fuel, Wanted(s, q), pages);
    } else {
      if !StartsInRange(s, q) {
        OvershootIsDelivered(service, s, q, fuel, Wanted(s, q), pages);
      }
      WantedIsServed(s, q);
      DeliveredIsClean(service, s, q, fuel, Served(s, q), pages);
    }
  }

  /** Following the links delivers exactly what one unpaged query would, each record once and
      in order, in ceil(n / perPage) requests, if and only if the cursor starts in the range
      and no page boundary and no end of the range is moved over a record by being printed to
      the whole second. */
  lemma FollowingLinks(service: Service, s: seq<Record>, q: Query)
    requires Serves(service, s) && Proper(s, q) && Representable(s, q)
    ensures Clean(s, q) <==> exists fuel, pages :: Delivers(service, q, fuel, Wanted(s, q), pages)
    ensures Clean(s, q) ==>
              forall fuel: nat :: fuel >= Pages(|Wanted(s, q)|, q.perPage) ==>
                Delivers(service, q, fuel, Wanted(s, q), Pages(|Wanted(s, q)|, q.perPage))
  {
    var pages := Pages(|Wanted(s, q)|, q.perPage);
    if Clean(s, q) {
      forall fuel: nat | fuel >= pages ensures Delivers(service, q, fuel, Wanted(s, q), pages) {
        CleanDelivers(service, s, q, fuel);
      }
      assert Delivers(service, q, pages, Wanted(s, q), pages);
    }
    if fuel, n :| Delivers(service, q, fuel, Wanted(s, q), n) {
      DeliversOnlyClean(service, s, q, fuel, n);
    }
  }

  /** When all times are whole seconds, two things are left to go wrong: a descending cursor
      that starts beyond the range, and a last record alone on its page and exactly at the far
      end of the range, so that its link asks for an empty range and is refused. */
  lemma WholeSeconds(s: seq<Record>, q: Query)
    requires Proper(s, q) && Plain(q) && q.from % TICKS == 0 && q.to % TICKS == 0
    requires forall i :: 0 <= i < |s| ==> s[i].time % TICKS == 0
    ensures Clean(s, q) <==> StartsInRange(s, q) && !EndsAlone(Wanted(s, q), q)
  {
    if StartsInRange(s, q) {
      WantedIsServed(s, q);
      WholePages(s, q);
    }
  }

  /** The last record is alone on its page, not the first, and at the far end of the range. */
  predicate EndsAlone(v: seq<Record>, q: Query)
    requires q.perPage >= 1
  {
    |v| > q.perPage && (|v| - 1) % q.perPage == 0 && v[|v| - 1].time == if q.desc then q.from else q.to
  }

  lemma WholePages(s: seq<Record>, q: Query)
    requires Proper(s, q) && Plain(q) && q.from % TICKS == 0 && q.to % TICKS == 0
    requires forall i :: 0 <= i < |s| ==> s[i].time % TICKS == 0
    ensures CleanPages(s, q) <==> !EndsAlone(Served(s, q), q)
  {
    var v := Served(s, q);
    if v != [] {
      WholeEnd(s, q);
      BeginsAtMultiples(|v| - 1, q.perPage);
    }
    WholeBoundaries(s, q);
    CleanButForTheLast(s, q, v, if q.desc then q.from else q.to);
  }

  /** Pages whose boundaries are clean but for a last record at the far end. */
  lemma CleanButForTheLast(s: seq<Record>, q: Query, v: seq<Record>, far: int)
    requires q.perPage >= 1 && v == Served(s, q) && (v != [] ==> CleanEnd(s, q))
    requires forall k :: 0 < k < |v| ==> (CleanBoundary(s, q, v[k].time) <==> !(k == |v| - 1 && v[k].time == far))
    ensures CleanPages(s, q) <==> !(|v| > q.perPage && Begins(|v| - 1, q.perPage) && v[|v| - 1].time == far)
  {
  }

  lemma WholeEnd(s: seq<Record>, q: Query)
    requires Proper(s, q) && Plain(q) && q.from % TICKS == 0 && q.to % TICKS == 0 && Served(s, q) != []
    ensures CleanEnd(s, q)
  {
    TruncBounds(q.from);
    TruncBounds(q.to);
    ServedElement(s, q, |Served(s, q)| - 1);
  }

  lemma WholeBoundaries(s: seq<Record>, q: Query)
    requires Proper(s, q) && Plain(q) && q.from % TICKS == 0 && q.to % TICKS == 0
    requires forall i :: 0 <= i < |s| ==> s[i].time % TICKS == 0
    ensures var v := Served(s, q);
            forall k :: 0 < k < |v| ==>
              (CleanBoundary(s, q, v[k].time) <==> !(k == |v| - 1 && v[k].time == if q.desc then q.from else q.to))
  {
    var v := Served(s, q);
    forall k | 0 < k < |v|
      ensures CleanBoundary(s, q, v[k].time) <==> !(k == |v| - 1 && v[k].time == if q.desc then q.from else q.to)
    {
      WholeBoundary(s, q, k);
    }
  }

  lemma WholeBoundary(s: seq<Record>, q: Query, k: nat)
    requires Proper(s, q) && Plain(q) && q.from % TICKS == 0 && q.to % TICKS == 0
    requires forall i :: 0 <= i < |s| ==> s[i].time % TICKS == 0
    requires 0 < k < |Served(s, q)|
    ensures var v := Served(s, q);
            CleanBoundary(s, q, v[k].time) <==> !(k == |v| - 1 && v[k].time == if q.desc then q.from else q.to)
  {
    var v := Served(s, q);
    ServedElement(s, q, k);
    ServedElement(s, q, |v| - 1);
  }
}
