/** service-catalog/utils/pathfilter.go: does a stream match a filter? */
module Filtering {
  import opened Wrappers
  import opened Streams

  /** Where to look in a stream (the text at the path, if the stream has the path), and what
      to compare it with. */
  datatype Criterion = Criterion(field: DataStream -> Option<string>, op: string, value: string)

  const EQUALS := "equals"
  const PREFIX := "prefix"
  const SUFFIX := "suffix"
  const CONTAINS := "contains"

  predicate Known(op: string) {
    op in {EQUALS, PREFIX, SUFFIX, CONTAINS}
  }

  predicate HasSuffix(s: string, t: string) {
    |t| <= |s| && s[|s| - |t|..] == t
  }

  predicate Contains(s: string, t: string) {
    t <= s || (s != "" && Contains(s[1..], t))
  }

  predicate Holds(op: string, found: string, value: string) {
    || (op == EQUALS && found == value)
    || (op == PREFIX && value <= found)
    || (op == SUFFIX && HasSuffix(found, value))
    || (op == CONTAINS && Contains(found, value))
  }

  predicate Matches(c: Criterion, ds: DataStream) {
    c.field(ds).Some? && Holds(c.op, c.field(ds).value, c.value)
  }

  /** An unknown operation is an error, but only on a stream that has the path. */
  predicate Fails(c: Criterion, ds: DataStream) {
    c.field(ds).Some? && !Known(c.op)
  }

  /** `MatchObject`; None is the error. */
  function MatchObject(c: Criterion, ds: DataStream): (matched: Option<bool>)
    ensures matched == if Fails(c, ds) then None else Some(Matches(c, ds))
  {
    var v := c.field(ds);
    if v.None? then Some(false)
    else if c.op == EQUALS then Some(v.value == c.value)
    else if c.op == PREFIX then Some(c.value <= v.value)
    else if c.op == SUFFIX then Some(HasSuffix(v.value, c.value))
    else if c.op == CONTAINS then Some(Contains(v.value, c.value))
    else None
  }

  /** What each of the four operations asks of the text at the path. */
  lemma MatchesIs(c: Criterion, ds: DataStream)
    ensures c.field(ds).None? ==> MatchObject(c, ds) == Some(false)
    ensures c.field(ds).Some? ==>
              var found := c.field(ds).value;
              && (MatchObject(c, ds).None? <==> c.op !in ["equals", "prefix", "suffix", "contains"])
              && (c.op == "equals" ==> (MatchObject(c, ds) == Some(true) <==> found == c.value))
              && (c.op == "prefix" ==> (MatchObject(c, ds) == Some(true) <==> exists u :: found == c.value + u))
              && (c.op == "suffix" ==> (MatchObject(c, ds) == Some(true) <==> exists u :: found == u + c.value))
              && (c.op == "contains" ==> (MatchObject(c, ds) == Some(true) <==> exists u, v :: found == u + c.value + v))
  {
    if c.field(ds).Some? {
      var found, value := c.field(ds).value, c.value;
      PrefixIs(found, value);
      SuffixIs(found, value);
      InfixIs(found, value);
    }
  }

  lemma PrefixIs(s: string, t: string)
    ensures t <= s <==> exists u :: s == t + u
  {
    if t <= s {
      assert s == t + s[|t|..];
    }
  }

  lemma SuffixIs(s: string, t: string)
    ensures HasSuffix(s, t) <==> exists u :: s == u + t
  {
    if HasSuffix(s, t) {
      assert s == s[..|s| - |t|] + t;
    }
    if u :| s == u + t {
      assert s[|u|..] == t;
    }
  }

  lemma {:induction false} InfixIs(s: string, t: string)
    ensures Contains(s, t) <==> exists u, v :: s == u + t + v
    decreases |s|
  {
    if t <= s {
      assert s == "" + t + s[|t|..];
    }
    if s != "" {
      InfixIs(s[1..], t);
      if Contains(s[1..], t) {
        var u, v :| s[1..] == u + t + v;
        assert s == ([s[0]] + u) + t + v;
      }
    }
    if u, v :| s == u + t + v {
      if u == "" {
        assert s[..|t|] == t;
      } else {
        assert s[1..] == u[1..] + t + v;
      }
    }
  }

  /** So no stream matches a filter that fails on another. */
  lemma FailsOrMatches(c: Criterion, x: DataStream, y: DataStream)
    ensures !(Fails(c, x) && Matches(c, y))
  {
  }
}
