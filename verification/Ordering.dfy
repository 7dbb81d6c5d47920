/** Key order: strings compared character by character, as sort.Strings and LevelDB do. */
module Ordering {

  predicate Less(a: string, b: string) {
    if b == "" then false
    else if a == "" then true
    else if a[0] != b[0] then a[0] < b[0]
    else Less(a[1..], b[1..])
  }

  /** A key is before another if it is a proper prefix of it, or has the smaller character
      where they first differ. */
  lemma {:induction false} LessIs(a: string, b: string)
    ensures Less(a, b) <==> exists k: nat :: k <= |a| && k < |b| && a[..k] == b[..k] && (k == |a| || a[k] < b[k])
    decreases |a|
  {
    if a == "" {
      assert b != "" ==> a[..0] == b[..0];
    } else if b != "" {
      if a[0] < b[0] {
        assert a[..0] == b[..0];
      }
      LessIs(a[1..], b[1..]);
      if a[0] == b[0] && Less(a[1..], b[1..]) {
        var k: nat :| k <= |a[1..]| && k < |b[1..]| && a[1..][..k] == b[1..][..k] && (k == |a[1..]| || a[1..][k] < b[1..][k]);
        assert a[..k + 1] == [a[0]] + a[1..][..k] && b[..k + 1] == [b[0]] + b[1..][..k];
      }
      if k: nat :| k <= |a| && k < |b| && a[..k] == b[..k] && (k == |a| || a[k] < b[k]) {
        if k > 0 {
          assert a[..k][0] == b[..k][0];
          assert a[1..][..k - 1] == a[..k][1..] && b[1..][..k - 1] == b[..k][1..];
        }
      }
    }
  }

  lemma {:induction false} LessIrreflexive(a: string)
    ensures !Less(a, a)
    decreases |a|
  {
    if a != "" {
      LessIrreflexive(a[1..]);
    }
  }

  lemma {:induction false} LessTransitive(a: string, b: string, c: string)
    requires Less(a, b) && Less(b, c)
    ensures Less(a, c)
    decreases |a|
  {
    if a != "" && a[0] == b[0] && b[0] == c[0] {
      LessTransitive(a[1..], b[1..], c[1..]);
    }
  }

  lemma {:induction false} LessTotal(a: string, b: string)
    ensures Less(a, b) || a == b || Less(b, a)
    decreases |a|
  {
    if a != "" && b != "" && a[0] == b[0] {
      LessTotal(a[1..], b[1..]);
      assert a == [a[0]] + a[1..] && b == [b[0]] + b[1..];
    }
  }

  lemma LessAsymmetric(a: string, b: string)
    requires Less(a, b)
    ensures !Less(b, a) && a != b
  {
    LessIrreflexive(a);
    if Less(b, a) {
      LessTransitive(a, b, a);
    }
  }

  ghost predicate Ascending(keys: seq<string>) {
    forall i, j :: 0 <= i < j < |keys| ==> Less(keys[i], keys[j])
  }

  lemma AscendingDistinct(keys: seq<string>)
    requires Ascending(keys)
    ensures forall i, j :: 0 <= i < j < |keys| ==> keys[i] != keys[j]
  {
    forall i, j | 0 <= i < j < |keys| ensures keys[i] != keys[j] {
      LessAsymmetric(keys[i], keys[j]);
    }
  }

  /** There is one ascending sequence of given keys. */
  lemma {:induction false} AscendingUnique(xs: seq<string>, ys: seq<string>)
    requires Ascending(xs) && Ascending(ys)
    requires forall k :: k in xs <==> k in ys
    ensures xs == ys
    decreases |xs|
  {
    assert xs != [] ==> xs[0] in ys;
    assert ys != [] ==> ys[0] in xs;
    if xs != [] && ys != [] {
      HeadIsLeast(xs, ys[0]);
      HeadIsLeast(ys, xs[0]);
      if xs[0] != ys[0] {
        LessAsymmetric(xs[0], ys[0]);
      }
      TailKeys(xs);
      TailKeys(ys);
      AscendingUnique(xs[1..], ys[1..]);
      assert xs == [xs[0]] + xs[1..] && ys == [ys[0]] + ys[1..];
    }
  }

  lemma HeadIsLeast(xs: seq<string>, k: string)
    requires Ascending(xs) && k in xs
    ensures k == xs[0] || Less(xs[0], k)
  {
  }

  lemma TailKeys(xs: seq<string>)
    requires Ascending(xs) && xs != []
    ensures forall k :: k in xs[1..] <==> k in xs && k != xs[0]
  {
    AscendingDistinct(xs);
    assert xs == [xs[0]] + xs[1..];
  }

  function InsertKey(k: string, keys: seq<string>): (out: seq<string>)
    ensures multiset(out) == multiset(keys) + multiset{k}
  {
    if keys == [] || !Less(keys[0], k) then [k] + keys
    else
      assert keys == [keys[0]] + keys[1..];
      [keys[0]] + InsertKey(k, keys[1..])
  }

  lemma InsertKeyMembers(k: string, keys: seq<string>)
    ensures forall x :: x in InsertKey(k, keys) <==> x == k || x in keys
  {
    forall x ensures x in InsertKey(k, keys) <==> x == k || x in keys {
      assert x in InsertKey(k, keys) <==> multiset(InsertKey(k, keys))[x] > 0;
      assert x in keys <==> multiset(keys)[x] > 0;
    }
  }

  lemma {:induction false} InsertKeyAscending(k: string, keys: seq<string>)
    requires Ascending(keys) && k !in keys
    ensures Ascending(InsertKey(k, keys))
    decreases |keys|
  {
    if keys != [] {
      LessTotal(k, keys[0]);
      if Less(keys[0], k) {
        InsertKeyAscending(k, keys[1..]);
        InsertKeyMembers(k, keys[1..]);
        var rest := InsertKey(k, keys[1..]);
        forall i | 0 <= i < |rest| ensures Less(keys[0], rest[i]) {
          assert rest[i] in rest;
        }
      } else {
        forall i | 0 < i < |keys| ensures Less(k, keys[i]) {
          LessTransitive(k, keys[0], keys[i]);
        }
      }
    }
  }

  /** `sort.Strings`. */
  function SortStrings(keys: seq<string>): (out: seq<string>)
    ensures multiset(out) == multiset(keys)
    decreases |keys|
  {
    if keys == [] then []
    else
      assert keys == [keys[0]] + keys[1..];
      InsertKey(keys[0], SortStrings(keys[1..]))
  }

  lemma SortStringsMembers(keys: seq<string>)
    ensures forall x :: x in SortStrings(keys) <==> x in keys
  {
    forall x ensures x in SortStrings(keys) <==> x in keys {
      assert x in SortStrings(keys) <==> multiset(SortStrings(keys))[x] > 0;
      assert x in keys <==> multiset(keys)[x] > 0;
    }
  }

  lemma {:induction false} SortStringsAscending(keys: seq<string>)
    requires forall i, j :: 0 <= i < j < |keys| ==> keys[i] != keys[j]
    ensures Ascending(SortStrings(keys))
    decreases |keys|
  {
    if keys != [] {
      SortStringsAscending(keys[1..]);
      SortStringsMembers(keys[1..]);
      InsertKeyAscending(keys[0], SortStrings(keys[1..]));
    }
  }

  /** The keys of a set in order. */
  ghost function SortedKeys(keys: set<string>): (out: seq<string>)
    ensures Ascending(out)
    ensures forall k :: k in out <==> k in keys
  {
    if keys == {} then []
    else
      var k :| k in keys;
      var rest := SortedKeys(keys - {k});
      InsertKeyAscending(k, rest);
      InsertKeyMembers(k, rest);
      InsertKey(k, rest)
  }

  /** Whatever order the keys are collected in, sorting them gives the same sequence. */
  lemma SortedIsSortedKeys(collected: seq<string>, keys: set<string>)
    requires forall i, j :: 0 <= i < j < |collected| ==> collected[i] != collected[j]
    requires forall k :: k in collected <==> k in keys
    ensures SortStrings(collected) == SortedKeys(keys)
  {
    SortStringsAscending(collected);
    SortStringsMembers(collected);
    AscendingUnique(SortStrings(collected), SortedKeys(keys));
  }

  lemma SortedKeysLength(keys: set<string>)
    ensures |SortedKeys(keys)| == |keys|
  {
    AscendingLength(SortedKeys(keys), keys);
  }

  lemma {:induction false} AscendingLength(xs: seq<string>, keys: set<string>)
    requires Ascending(xs) && forall k :: k in xs <==> k in keys
    ensures |xs| == |keys|
    decreases |xs|
  {
    if xs == [] {
      assert keys == {};
    } else {
      TailKeys(xs);
      AscendingLength(xs[1..], keys - {xs[0]});
      assert xs[0] in keys;
    }
  }
}
