/** common/pagination.go: one page shared out evenly over several sources. The code computes
    in float64; it agrees with the integers here while every product stays below 2^53. */
module PerItem {
  import opened Arith

  /** The quotient rounded up. */
  function CeilDiv(a: int, n: int): int
    requires n >= 1
  {
    -((-a) / n)
  }

  /** The request made divisible by the number of sources. */
  function Rounded(a: int, n: int): int
    requires n >= 1
  {
    if a % n != 0 then CeilDiv(a, n) * n else a
  }

  lemma CeilOfMultiple(k: int, n: int)
    requires n >= 1
    ensures CeilDiv(k * n, n) == k && (k * n) % n == 0 && (k * n) / n == k
  {
    Quotient(k * n, n, k, 0);
    Quotient(-(k * n), n, -k, 0);
  }

  lemma CeilBounds(a: int, n: int)
    requires n >= 1
    ensures a <= CeilDiv(a, n) * n < a + n
    ensures Rounded(a, n) == CeilDiv(a, n) * n
    ensures Rounded(a, n) / n == CeilDiv(a, n)
  {
    var c := CeilDiv(a, n);
    assert -a == (-a) / n * n + (-a) % n;
    assert c * n == -((-a) / n * n);
    CeilOfMultiple(c, n);
    if a % n == 0 {
      assert a == a / n * n;
      Apart(c, a / n, n);
      Apart(a / n, c, n);
    }
  }

  /** Rounding gives the least multiple of `n` that is not below the request. */
  lemma RoundedIsLeast(a: int, n: int)
    requires n >= 1
    ensures Rounded(a, n) % n == 0 && a <= Rounded(a, n) < a + n
    ensures forall k :: k * n >= a ==> k * n >= Rounded(a, n)
  {
    CeilBounds(a, n);
    CeilOfMultiple(CeilDiv(a, n), n);
    forall k | k * n >= a ensures k * n >= Rounded(a, n) {
      Apart(CeilDiv(a, n), k, n);
    }
  }

  // ---- What is checked ----

  datatype LimitError = LimitNotPositive | LimitIndivisible(suggested: int) | PerPageIndivisible(suggested: int)

  datatype Checked = Accepted | Refused(error: LimitError)

  function ValidatePerItemLimit(qLimit: int, perPage: int, numOfSrcs: int): Checked
    requires numOfSrcs >= 1
  {
    if qLimit == 0 then Refused(LimitNotPositive)
    else if qLimit > 0 && qLimit % numOfSrcs != 0 then Refused(LimitIndivisible(CeilDiv(qLimit, numOfSrcs) * numOfSrcs))
    else if perPage % numOfSrcs != 0 then Refused(PerPageIndivisible(CeilDiv(perPage, numOfSrcs) * numOfSrcs))
    else Accepted
  }

  /** A limit of 0 is refused, an indivisible one before an indivisible page size. Accepted
      requests are not rounded. A refused one comes with the least multiple of the
      number of sources not below it, and that passes the same test. */
  lemma ValidationSuggestsTheRounding(qLimit: int, perPage: int, n: int)
    requires n >= 1
    ensures match ValidatePerItemLimit(qLimit, perPage, n)
            case Accepted => qLimit != 0 && (qLimit > 0 ==> Rounded(qLimit, n) == qLimit) && Rounded(perPage, n) == perPage
            case Refused(LimitNotPositive) => qLimit == 0
            case Refused(LimitIndivisible(s)) =>
              && qLimit > 0 && s % n == 0 && qLimit < s < qLimit + n
              && (ValidatePerItemLimit(s, perPage, n) == Accepted || ValidatePerItemLimit(s, perPage, n).error.PerPageIndivisible?)
            case Refused(PerPageIndivisible(s)) =>
              && qLimit != 0 && (qLimit > 0 ==> qLimit % n == 0)
              && s % n == 0 && perPage < s < perPage + n && ValidatePerItemLimit(qLimit, s, n) == Accepted
  {
    RoundedIsLeast(qLimit, n);
    RoundedIsLeast(perPage, n);
  }

  // ---- The windows ----

  /** The smaller of what is left of the limit and a full page, when a limit is set. */
  function Share(limited: bool, left: int, full: int): int {
    if limited && left < full then (if left < 0 then 0 else left) else full
  }

  /** Items asked of all sources together on page `page`. */
  function PageTotal(qLimit: int, page: int, perPage: int, n: int): int
    requires n >= 1
  {
    var q, p := Rounded(qLimit, n), Rounded(perPage, n);
    Share(qLimit > 0, q - (page - 1) * p, p)
  }

  /** Items asked of each source: `a` in all, at most `b` on a page. */
  function ItemsPerSource(qLimit: int, page: int, perPage: int, n: int): int
    requires n >= 1
  {
    var a, b := CeilDiv(qLimit, n), CeilDiv(perPage, n);
    Share(qLimit > 0, a - (page - 1) * b, b)
  }

  function OffsetPerSource(qLimit: int, page: int, perPage: int, n: int): int
    requires n >= 1
  {
    var a, b := CeilDiv(qLimit, n), CeilDiv(perPage, n);
    (page - 1) * (if qLimit > 0 && a < b then a else b)
  }

  lemma ShareScales(limited: bool, left: int, full: int, n: int)
    requires n >= 1
    ensures Share(limited, left * n, full * n) == Share(limited, left, full) * n
  {
  }

  /** The sources share a page evenly: nothing is left over for the last one. */
  lemma EvenShares(qLimit: int, page: int, perPage: int, n: int)
    requires n >= 1
    ensures PageTotal(qLimit, page, perPage, n) == ItemsPerSource(qLimit, page, perPage, n) * n
  {
    var a, b := CeilDiv(qLimit, n), CeilDiv(perPage, n);
    CeilBounds(qLimit, n);
    CeilBounds(perPage, n);
    Distribute(a, page - 1, b, n);
    ShareScales(qLimit > 0, a - (page - 1) * b, b, n);
  }

  method Fill(length: int, value: int) returns (out: array<int>)
    requires length >= 0
    ensures fresh(out) && out.Length == length && forall i :: 0 <= i < length ==> out[i] == value
  {
    out := new int[length];
    var i := 0;
    while i < length
      invariant 0 <= i <= length
      invariant forall j :: 0 <= j < i ==> out[j] == value
    {
      out[i] := value;
      i := i + 1;
    }
  }

  /** The limits `PerItemPagination` divides among the sources: that of the page, and that of
      a page regardless of its number. */
  method Limits(qLimit: int, page: int, perPage: int, n: int) returns (limit: int, anyPage: int)
    requires n >= 1
    ensures limit == PageTotal(qLimit, page, perPage, n)
    ensures var q, p := Rounded(qLimit, n), Rounded(perPage, n); anyPage == if qLimit > 0 && q < p then q else p
  {
    var q, p, page0 := qLimit, perPage, page - 1;
    var limitIsSet := q > 0;
    // Make qLimit and perPage divisible by the number of sources
    if limitIsSet && q % n != 0 {
      q := CeilDiv(q, n) * n;
    }
    if p % n != 0 {
      p := CeilDiv(p, n) * n;
    }
    limit := p;
    if limitIsSet && q - page0 * p < p {
      limit := q - page0 * p;
      if limit < 0 { // blank page
        limit := 0;
      }
    }
    anyPage := p;
    if limitIsSet && q < p {
      anyPage := q;
    }
  }

  /** The same number of items and the same offset for every source: the paddings of the
      last source come to 0, and the items of all sources together are those of the page. */
  method PerItemPagination(qLimit: int, page: int, perPage: int, numOfSrcs: int) returns (perItems: array<int>, offsets: array<int>)
    requires numOfSrcs >= 1
    ensures fresh(perItems) && fresh(offsets)
    ensures perItems.Length == offsets.Length == numOfSrcs
    ensures forall i :: 0 <= i < numOfSrcs ==> perItems[i] == ItemsPerSource(qLimit, page, perPage, numOfSrcs)
    ensures forall i :: 0 <= i < numOfSrcs ==> offsets[i] == OffsetPerSource(qLimit, page, perPage, numOfSrcs)
  {
    var limit, anyPage := Limits(qLimit, page, perPage, numOfSrcs);
    LimitsInShares(qLimit, page, perPage, numOfSrcs);
    var perItem := CeilDiv(limit, numOfSrcs);
    var padding := limit - numOfSrcs * perItem;
    perItems := Fill(numOfSrcs, perItem);
    perItems[numOfSrcs - 1] := perItems[numOfSrcs - 1] + padding;
    offsets := Fill(numOfSrcs, (page - 1) * CeilDiv(anyPage, numOfSrcs));
    offsets[numOfSrcs - 1] := offsets[numOfSrcs - 1] + (page - 1) * padding;
  }

  lemma LimitsInShares(qLimit: int, page: int, perPage: int, n: int)
    requires n >= 1
    ensures var limit := PageTotal(qLimit, page, perPage, n);
            var q, p := Rounded(qLimit, n), Rounded(perPage, n);
            var anyPage := if qLimit > 0 && q < p then q else p;
            && CeilDiv(limit, n) == ItemsPerSource(qLimit, page, perPage, n)
            && limit - n * CeilDiv(limit, n) == 0
            && (page - 1) * CeilDiv(anyPage, n) == OffsetPerSource(qLimit, page, perPage, n)
  {
    var a, b := CeilDiv(qLimit, n), CeilDiv(perPage, n);
    EvenShares(qLimit, page, perPage, n);
    CeilOfMultiple(ItemsPerSource(qLimit, page, perPage, n), n);
    CeilBounds(qLimit, n);
    CeilBounds(perPage, n);
    CeilOfMultiple(a, n);
    CeilOfMultiple(b, n);
    Apart(a, b, n);
  }

  // ---- The windows tile ----

  /** Item `i` of a source falls in the window of page `page`. */
  predicate Covers(qLimit: int, page: int, perPage: int, n: int, i: int)
    requires n >= 1
  {
    var offset := OffsetPerSource(qLimit, page, perPage, n);
    offset <= i < offset + ItemsPerSource(qLimit, page, perPage, n)
  }

  /** For every source, each of its first limit/n items (of all its items when no limit is
      set) falls in the window of exactly one page, and no other item in any. */
  lemma WindowsTile(qLimit: int, perPage: int, n: int, i: nat)
    requires n >= 1 && perPage >= 1
    ensures (exists page :: page >= 1 && Covers(qLimit, page, perPage, n, i)) <==> (qLimit <= 0 || i < CeilDiv(qLimit, n))
    ensures forall x, y :: x >= 1 && y >= 1 && Covers(qLimit, x, perPage, n, i) && Covers(qLimit, y, perPage, n, i) ==> x == y
  {
    var a, b := CeilDiv(qLimit, n), CeilDiv(perPage, n);
    CeilBounds(qLimit, n);
    CeilBounds(perPage, n);
    Apart(a, 0, n);
    Apart(b, 0, n);
    var home := Home(qLimit > 0, a, b, i);
    forall page | page >= 1
      ensures Covers(qLimit, page, perPage, n, i) <==> page == home && (qLimit <= 0 || i < a)
    {
      CoveredAtHome(qLimit > 0, a, b, page, i);
    }
    if qLimit <= 0 || i < a {
      assert Covers(qLimit, home, perPage, n, i);
    }
  }

  /** The page item `i` falls on. */
  function Home(limited: bool, a: int, b: int, i: nat): (page: int)
    requires b >= 1
    ensures page >= 1
  {
    if limited && a < b then 1 else i / b + 1
  }

  lemma CoveredAtHome(limited: bool, a: int, b: int, page: int, i: nat)
    requires b >= 1 && page >= 1 && (limited ==> a >= 1)
    ensures var offset := (page - 1) * (if limited && a < b then a else b);
            offset <= i < offset + Share(limited, a - (page - 1) * b, b)
            <==> page == Home(limited, a, b, i) && (!limited || i < a)
  {
    var k, page0 := i / b, page - 1;
    assert i == k * b + i % b;
    if limited && a < b {
      Apart(page0, 0, b);
      Apart(page0, 0, a);
    } else {
      Apart(page0, k, b);
      Apart(k, page0, b);
    }
  }

  function SumOfPages(qLimit: int, pages: nat, perPage: int, n: int): int
    requires n >= 1
  {
    if pages == 0 then 0 else SumOfPages(qLimit, pages - 1, perPage, n) + PageTotal(qLimit, pages, perPage, n)
  }

  /** The pages together ask for the limit and not more: after any number of pages as many
      items as fit in them, up to the (rounded) limit. */
  lemma {:induction false} PagesSumToTheLimit(qLimit: int, pages: nat, perPage: int, n: int)
    requires n >= 1 && perPage >= 1 && qLimit > 0
    ensures var q, p := Rounded(qLimit, n), Rounded(perPage, n);
            SumOfPages(qLimit, pages, perPage, n) == if pages * p < q then pages * p else q
    decreases pages
  {
    var q, p := Rounded(qLimit, n), Rounded(perPage, n);
    CeilBounds(qLimit, n);
    CeilBounds(perPage, n);
    if pages > 0 {
      PagesSumToTheLimit(qLimit, pages - 1, perPage, n);
      assert pages * p == (pages - 1) * p + p;
    } else {
      assert 0 * p == 0;
    }
  }
}
