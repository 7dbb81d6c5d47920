/** Reading a stored series (QueryOnChannel in lite.tsdb/databoltdb.go): a cursor over its
    records in time order. Times count ticks from the Unix epoch. */
module Cursor {
  import opened Wrappers
  import opened Streams
  import opened LightdbSpec

  /** Go's zero time, 1 January of the year 1: the start of a query that names none. */
  const ZERO_TIME := -62_135_596_800 * TICKS

  datatype Query = Query(from: int, to: int, desc: bool, limit: int, perPage: int)

  predicate Int64(t: int) {
    -0x8000_0000_0000_0000 <= t < 0x8000_0000_0000_0000
  }

  /** The ticks the store is asked for: it takes the zero time for the epoch. */
  function Ticks(t: int): int {
    if t == ZERO_TIME then 0 else t
  }

  /** The key of a tick: its 64 bits, read as an unsigned number. */
  function Key(t: int): int {
    if t < 0 then t + 0x1_0000_0000_0000_0000 else t
  }

  function Start(q: Query): int {
    Key(Ticks(q.from))
  }

  function End(q: Query): int {
    Key(Ticks(q.to))
  }

  /** Scanning down from `n`: how many of the first `n` records are before time `t`. */
  function Scan(s: seq<Record>, t: int, n: nat): (k: nat)
    requires n <= |s|
    ensures k <= n
  {
    if n == 0 || s[n - 1].time < t then n else Scan(s, t, n - 1)
  }

  /** How many records, from the first on, are before time `t`: where Seek goes. */
  function Lower(s: seq<Record>, t: int): (n: nat)
    ensures n <= |s|
  {
    Scan(s, t, |s|)
  }

  /** One past the last record of the query. A descending cursor goes to the first record at
      or after the end, and only if there is none to the last record. */
  function Top(s: seq<Record>, q: Query): (n: nat)
    ensures n <= |s|
  {
    if !q.desc then Lower(s, End(q) + 1)
    else if Lower(s, End(q)) < |s| then Lower(s, End(q)) + 1
    else |s|
  }

  /** Reading down from below `n`, as far as `from`. */
  function Down(s: seq<Record>, n: nat, from: int): seq<Record>
    requires n <= |s|
  {
    if n == 0 || s[n - 1].time < from then [] else [s[n - 1]] + Down(s, n - 1, from)
  }

  /** Reading up from `n`, as far as `to`. */
  function Up(s: seq<Record>, n: nat, to: int): seq<Record>
    requires n <= |s|
    decreases |s| - n
  {
    if n == |s| || s[n].time > to then [] else [s[n]] + Up(s, n + 1, to)
  }

  /** What the cursor passes over. Keys are unsigned: before the epoch is after every record. */
  function Passed(s: seq<Record>, q: Query): seq<Record> {
    if q.desc then Down(s, Top(s, q), Start(q)) else Up(s, Lower(s, Start(q)), End(q))
  }

  datatype Answer = Answer(records: seq<Record>, next: Option<int>)

  /** The store's query: up to `maxEntries` records, and the time of the first one left out.
      A negative `maxEntries` is no bound. */
  function StoreQuery(s: seq<Record>, q: Query, maxEntries: int): Answer {
    var w := Passed(s, q);
    if 0 <= maxEntries < |w| then Answer(w[..maxEntries], Some(w[maxEntries].time)) else Answer(w, None)
  }

  // ---- Where Seek goes ----

  lemma {:induction false} ScanStops(s: seq<Record>, t: int, n: nat)
    requires n <= |s|
    ensures var k := Scan(s, t, n); (k < n ==> t <= s[k].time) && (k > 0 ==> s[k - 1].time < t)
  {
    if n > 0 && s[n - 1].time >= t {
      ScanStops(s, t, n - 1);
    }
  }

  lemma LowerSplits(s: seq<Record>, t: int)
    requires Sorted(s)
    ensures forall i :: 0 <= i < |s| ==> (i < Lower(s, t) <==> s[i].time < t)
  {
    var n := Lower(s, t);
    ScanStops(s, t, |s|);
    assert forall i :: 0 <= i < n ==> s[i].time <= s[n - 1].time;
    assert forall i :: n <= i < |s| ==> s[n].time <= s[i].time;
  }

  lemma LowerIs(s: seq<Record>, t: int, n: nat)
    requires Sorted(s) && n <= |s|
    requires n > 0 ==> s[n - 1].time < t
    requires n < |s| ==> t <= s[n].time
    ensures Lower(s, t) == n
  {
    LowerSplits(s, t);
  }

  lemma LowerMonotone(s: seq<Record>, t: int, u: int)
    requires Sorted(s) && t <= u
    ensures Lower(s, t) <= Lower(s, u)
  {
    LowerSplits(s, t);
    LowerSplits(s, u);
    var n := Lower(s, u);
    assert n < |s| ==> u <= s[n].time;
  }

  lemma LowerAt(s: seq<Record>, t: int, i: nat)
    requires Sorted(s) && i < |s|
    ensures i < Lower(s, t) <==> s[i].time < t
  {
    LowerSplits(s, t);
  }

  lemma TopBounds(s: seq<Record>, q: Query)
    requires Sorted(s) && Start(q) <= End(q)
    ensures Lower(s, Start(q)) <= Top(s, q)
  {
    LowerMonotone(s, Start(q), End(q));
    LowerMonotone(s, Start(q), End(q) + 1);
  }

  // ---- What the cursor passes ----

  lemma {:induction false} DownIs(s: seq<Record>, n: nat, lo: nat, from: int)
    requires lo <= n <= |s| && (lo > 0 ==> s[lo - 1].time < from)
    requires forall i :: lo <= i < n ==> s[i].time >= from
    ensures |Down(s, n, from)| == n - lo
    ensures forall p :: 0 <= p < n - lo ==> Down(s, n, from)[p] == s[n - 1 - p]
  {
    if n > lo {
      DownIs(s, n - 1, lo, from);
    }
  }

  lemma {:induction false} UpIs(s: seq<Record>, n: nat, hi: nat, to: int)
    requires n <= hi <= |s| && (hi < |s| ==> s[hi].time > to)
    requires forall i :: n <= i < hi ==> s[i].time <= to
    ensures |Up(s, n, to)| == hi - n
    ensures forall p :: 0 <= p < hi - n ==> Up(s, n, to)[p] == s[n + p]
    decreases hi - n
  {
    if n < hi {
      var rest := Up(s, n + 1, to);
      UpIs(s, n + 1, hi, to);
      assert Up(s, n, to) == [s[n]] + rest;
      forall p | 0 <= p < hi - n ensures Up(s, n, to)[p] == s[n + p] {
        assert p > 0 ==> rest[p - 1] == s[n + 1 + (p - 1)];
      }
    }
  }

  /** Where the passed records are in the series. */
  ghost predicate PassedIn(s: seq<Record>, q: Query, lo: nat, hi: nat) {
    && lo <= hi <= |s|
    && |Passed(s, q)| == hi - lo
    && forall p :: 0 <= p < hi - lo ==> Passed(s, q)[p] == if q.desc then s[hi - 1 - p] else s[lo + p]
  }

  /** The places the cursor passes, which are none when the start is after the end. */
  function Bottom(s: seq<Record>, q: Query): nat {
    if q.desc && Top(s, q) < Lower(s, Start(q)) then Top(s, q) else Lower(s, Start(q))
  }

  function Ceiling(s: seq<Record>, q: Query): nat {
    if !q.desc && Top(s, q) < Lower(s, Start(q)) then Lower(s, Start(q)) else Top(s, q)
  }

  lemma PassedBetween(s: seq<Record>, q: Query)
    requires Sorted(s)
    ensures PassedIn(s, q, Bottom(s, q), Ceiling(s, q))
  {
    LowerSplits(s, Start(q));
    LowerSplits(s, End(q) + 1);
    if q.desc {
      DownIs(s, Top(s, q), Bottom(s, q), Start(q));
    } else {
      UpIs(s, Lower(s, Start(q)), Ceiling(s, q), End(q));
    }
  }

  lemma PassedAt(s: seq<Record>, q: Query)
    requires Sorted(s) && Start(q) <= End(q)
    ensures PassedIn(s, q, Lower(s, Start(q)), Top(s, q))
  {
    TopBounds(s, q);
    PassedBetween(s, q);
  }

  /** The first record after the end, when there is none at it. */
  ghost predicate Overshot(s: seq<Record>, to: int, r: Record) {
    r in s && r.time > to && forall x :: x in s ==> !(to <= x.time < r.time)
  }

  /** The records of the closed range and, descending, the one beyond it. */
  lemma PassedMembers(s: seq<Record>, q: Query, r: Record)
    requires Sorted(s)
    ensures r in Passed(s, q) <==>
              && r in s && Start(q) <= r.time
              && (r.time <= End(q) || (q.desc && Overshot(s, End(q), r)))
  {
    PassedBetween(s, q);
    PlacesOf(s, q, Bottom(s, q), Ceiling(s, q), r);
    if r in s {
      var i :| 0 <= i < |s| && s[i] == r;
      LowerAt(s, Start(q), i);
      BelowTop(s, q, i);
    }
  }

  lemma PlacesOf(s: seq<Record>, q: Query, lo: nat, hi: nat, r: Record)
    requires PassedIn(s, q, lo, hi)
    ensures r in Passed(s, q) <==> exists i :: lo <= i < hi && s[i] == r
  {
    var w := Passed(s, q);
    if r in w {
      var p :| 0 <= p < |w| && w[p] == r;
      assert s[if q.desc then hi - 1 - p else lo + p] == r;
    }
    if i :| lo <= i < hi && s[i] == r {
      assert w[if q.desc then hi - 1 - i else i - lo] == r;
    }
  }

  lemma BelowTop(s: seq<Record>, q: Query, i: nat)
    requires Sorted(s) && i < |s|
    ensures i < Top(s, q) <==> s[i].time <= End(q) || (q.desc && Overshot(s, End(q), s[i]))
  {
    LowerAt(s, End(q) + 1, i);
    if q.desc {
      var n := Lower(s, End(q));
      LowerSplits(s, End(q));
      if i > n {
        assert s[n] in s && s[n].time < s[i].time;
      } else if i == n && s[i].time > End(q) {
        forall x | x in s ensures !(End(q) <= x.time < s[i].time) {
          var j :| 0 <= j < |s| && s[j] == x;
        }
      }
    }
  }

  // ---- The loop ----

  /** What a stored series is: in time order, with no time before the epoch. */
  ghost predicate Stored(s: seq<Record>) {
    Sorted(s) && forall r :: r in s ==> r.time >= 0 && Int64(r.time)
  }

  /** The records at some places, in the order the cursor comes to them. */
  ghost predicate Read(s: seq<Record>, q: Query, records: seq<Record>, count: int) {
    0 <= count <= |Passed(s, q)| && records == Passed(s, q)[..count]
  }

  lemma ReadOneMore(s: seq<Record>, q: Query, records: seq<Record>, count: int, k: int)
    requires Stored(s) && Read(s, q, records, count)
    requires 0 <= k < |s| && k == if q.desc then Top(s, q) - 1 - count else Lower(s, Start(q)) + count
    ensures count < |Passed(s, q)| <==> if q.desc then Key(s[k].time) >= Start(q) else Key(s[k].time) <= End(q)
    ensures count < |Passed(s, q)| ==> Passed(s, q)[count] == s[k] && Read(s, q, records + [s[k]], count + 1)
  {
    PassedBetween(s, q);
    LowerAt(s, Start(q), k);
    LowerAt(s, End(q) + 1, k);
  }

  method ReadDescending(s: seq<Record>, q: Query, maxEntries: int) returns (a: Answer)
    requires Stored(s) && q.desc && Int64(Ticks(q.from)) && Int64(Ticks(q.to))
    ensures a == StoreQuery(s, q, maxEntries)
  {
    var records, count, next := [], 0, None;
    var k: int := Lower(s, End(q)); // Seek
    if k == |s| { // beyond the last entry
      k := |s| - 1;
    }
    while k >= 0 && Key(s[k].time) >= Start(q) && count != maxEntries
      invariant k == Top(s, q) - 1 - count && count >= 0
      invariant Read(s, q, records, count)
      invariant maxEntries >= 0 ==> count <= maxEntries
      decreases k
    {
      ReadOneMore(s, q, records, count, k);
      records, count, k := records + [s[k]], count + 1, k - 1;
    }
    PassedBetween(s, q);
    if k >= 0 {
      ReadOneMore(s, q, records, count, k);
    }
    if count == maxEntries && k >= 0 && Key(s[k].time) >= Start(q) {
      next := Some(s[k].time);
    }
    a := Answer(records, next);
  }

  method ReadAscending(s: seq<Record>, q: Query, maxEntries: int) returns (a: Answer)
    requires Stored(s) && !q.desc && Int64(Ticks(q.from)) && Int64(Ticks(q.to))
    ensures a == StoreQuery(s, q, maxEntries)
  {
    var records, count, next := [], 0, None;
    var k := Lower(s, Start(q)); // Seek
    while k < |s| && Key(s[k].time) <= End(q) && count != maxEntries
      invariant k == Lower(s, Start(q)) + count <= |s| && count >= 0
      invariant Read(s, q, records, count)
      invariant maxEntries >= 0 ==> count <= maxEntries
      decreases |s| - k
    {
      ReadOneMore(s, q, records, count, k);
      records, count, k := records + [s[k]], count + 1, k + 1;
    }
    PassedBetween(s, q);
    if k < |s| {
      ReadOneMore(s, q, records, count, k);
    }
    if count == maxEntries && k < |s| && Key(s[k].time) <= End(q) {
      next := Some(s[k].time);
    }
    a := Answer(records, next);
  }
}
