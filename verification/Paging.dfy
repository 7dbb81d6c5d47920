/** Numbered pages over a sequence: the helpers the registry backends call
    (service-catalog/utils/pagination.go), and what their pages amount to. */
module Paging {
  import opened Arith

  const MAX_PER_PAGE := 100

  predicate ValidPaging(page: int, perPage: int, maxPerPage: int) {
    page >= 1 && perPage >= 1 && perPage <= maxPerPage
  }

  datatype Window = Window(offset: nat, limit: nat)

  function Min(a: int, b: int): int {
    if a < b then a else b
  }

  /** Where page `page` starts and how many items it has. */
  function WindowOf(total: nat, page: int, perPage: int): Window
    requires page >= 1 && perPage >= 1
  {
    var offset := (page - 1) * perPage;
    if offset >= total then Window(offset, 0) else Window(offset, Min(perPage, total - offset))
  }

  /** The page at that window. */
  function PageOf<T>(s: seq<T>, page: int, perPage: int): seq<T>
    requires page >= 1 && perPage >= 1
  {
    var w := WindowOf(|s|, page, perPage);
    if w.limit == 0 then [] else s[w.offset..w.offset + w.limit]
  }

  /** The whole pages of `total` items end with page total / perPage. */
  lemma WholePages(total: nat, page: int, perPage: int, l: int, r: int)
    requires page >= 1 && perPage >= 1 && l == (page - 1) * perPage && r == page * perPage
    ensures r == l + perPage && l >= 0 && perPage * (page - 1) == l
    ensures page <= total / perPage <==> r <= total
    ensures page == total / perPage + 1 <==> l <= total < r
    ensures page == 1 <==> l == 0
  {
    var whole := total / perPage;
    assert total == whole * perPage + total % perPage;
    Apart(page, whole, perPage);
    Apart(whole, page, perPage);
    Apart(page - 1, whole, perPage);
    Apart(whole, page - 1, perPage);
    Apart(page - 1, 0, perPage);
  }

  /** `GetPagingAttr`. */
  function GetPagingAttr(total: nat, page: int, perPage: int): (w: Window)
    requires page >= 1 && perPage >= 1
    ensures w.limit == WindowOf(total, page, perPage).limit
    ensures w.limit > 0 ==> w == WindowOf(total, page, perPage)
  {
    WholePages(total, page, perPage, (page - 1) * perPage, page * perPage);
    if page == 1 then
      Window(0, if perPage > total then total else perPage)
    else if page == total / perPage + 1 then
      Window(perPage * (page - 1), total - perPage * (page - 1))
    else if page <= total / perPage && page * perPage <= total then
      var r := page * perPage;
      var l := r - perPage;
      Window(l, r - l)
    else
      Window(0, 0)
  }

  lemma SliceOfWindow<T>(s: seq<T>, page: int, perPage: int, l: int)
    requires page >= 1 && perPage >= 1 && l == (page - 1) * perPage && l >= 0
    ensures PageOf(s, page, perPage) == if l >= |s| then [] else s[l..Min(l + perPage, |s|)]
  {
  }

  /** `GetPageOfSlice`. */
  function GetPageOfSlice<T>(s: seq<T>, page: int, perPage: int): (keys: seq<T>)
    requires page >= 1 && perPage >= 1
    ensures keys == PageOf(s, page, perPage)
  {
    var start, end := (page - 1) * perPage, page * perPage;
    WholePages(|s|, page, perPage, start, end);
    SliceOfWindow(s, page, perPage, start);
    if page == 1 then
      if perPage > |s| then s else s[..perPage]
    else if page == |s| / perPage + 1 then
      s[perPage * (page - 1)..]
    else if page <= |s| / perPage && end <= |s| then
      var r := end;
      var l := r - perPage;
      s[l..r]
    else
      []
  }

  function FirstPages<T>(s: seq<T>, pages: nat, perPage: int): seq<T>
    requires perPage >= 1
  {
    if pages == 0 then [] else FirstPages(s, pages - 1, perPage) + PageOf(s, pages, perPage)
  }

  lemma PageExtends<T>(s: seq<T>, done: int, page: int, perPage: int)
    requires page >= 1 && perPage >= 1 && done == (page - 1) * perPage
    ensures done >= 0 && s[..Min(done, |s|)] + PageOf(s, page, perPage) == s[..Min(done + perPage, |s|)]
  {
    if done < |s| {
      var end := Min(done + perPage, |s|);
      assert PageOf(s, page, perPage) == s[done..end];
      assert s[..done] + s[done..end] == s[..end];
    }
  }

  /** The first pages are a prefix: no gap, no repeat. */
  lemma {:induction false} PagesTile<T>(s: seq<T>, pages: nat, perPage: int)
    requires perPage >= 1
    ensures FirstPages(s, pages, perPage) == s[..Min(pages * perPage, |s|)]
    decreases pages
  {
    if pages != 0 {
      var done := (pages - 1) * perPage;
      PagesTile(s, pages - 1, perPage);
      assert pages * perPage == done + perPage;
      PageExtends(s, done, pages, perPage);
    }
  }

  lemma CeilingBounds(total: nat, perPage: int, pages: int)
    requires perPage >= 1 && pages == (total + perPage - 1) / perPage
    ensures pages >= 0 && pages * perPage >= total
    ensures total > 0 ==> pages >= 1 && (pages - 1) * perPage < total
  {
  }

  /** ceil(total / perPage). */
  function PageCount(total: nat, perPage: int): (pages: nat)
    requires perPage >= 1
    ensures pages * perPage >= total
    ensures total > 0 ==> pages >= 1 && (pages - 1) * perPage < total
  {
    var pages := (total + perPage - 1) / perPage;
    CeilingBounds(total, perPage, pages);
    pages
  }

  lemma PageEmptyExactlyPastTheEnd<T>(s: seq<T>, page: int, perPage: int)
    requires page >= 1 && perPage >= 1
    ensures PageOf(s, page, perPage) == [] <==> page > PageCount(|s|, perPage)
  {
    var last: int := PageCount(|s|, perPage);
    Apart(page - 1, last, perPage);
    Apart(last - 1, page - 1, perPage);
  }

  /** Pages 1 to ceil(total / perPage) together are the whole sequence. */
  lemma PagesCover<T>(s: seq<T>, perPage: int)
    requires perPage >= 1
    ensures FirstPages(s, PageCount(|s|, perPage), perPage) == s
  {
    PagesTile(s, PageCount(|s|, perPage), perPage);
  }
}
