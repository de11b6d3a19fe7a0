/** The template page browser: the current page, the enabled state of the
    two arrow buttons and of the page's template buttons. */
module Paging {
  import opened Pages

  /** The template catalog as the event loop sees it: how many templates were
      loaded and how many pages the arrows may visit. */
  datatype Catalog = Catalog(count: nat, maxPage: int)

  predicate ValidCatalog(cat: Catalog)
  {
    cat.maxPage >= 1
  }

  /** The catalog with the page count the program computes. */
  function AsWritten(count: nat): (cat: Catalog)
    ensures cat.count == count && ValidCatalog(cat)
    ensures (cat.maxPage - 1) * PageCountDivisor <= count < cat.maxPage * PageCountDivisor
  {
    Catalog(count, MaxPage(count))
  }

  /** The catalog with one page per SlotsPerPage templates. */
  function Corrected(count: nat): (cat: Catalog)
    ensures cat.count == count && ValidCatalog(cat)
    ensures count <= SlotsPerPage * cat.maxPage
  {
    Catalog(count, PageCount(count))
  }

  datatype Pager = Pager(page: int, leftDisabled: bool, rightDisabled: bool, slots: seq<bool>)

  /** The page is in range, each arrow is disabled exactly at its end of the
      range, and the template buttons show the current page. */
  predicate PagerInv(cat: Catalog, p: Pager)
  {
    && 1 <= p.page <= cat.maxPage
    && (p.leftDisabled <==> p.page == 1)
    && (p.rightDisabled <==> p.page == cat.maxPage)
    && p.slots == FillTemplate(p.page, cat.count)
  }

  /** The browser when the window opens: page 1, left arrow disabled, right
      arrow disabled only when there is a single page. */
  function InitPager(cat: Catalog): (p: Pager)
    requires ValidCatalog(cat)
    ensures p.page == 1 && p.leftDisabled
    ensures PagerInv(cat, p)
  {
    Pager(1, true, cat.maxPage == 1, FillTemplate(1, cat.count))
  }

  /** The right arrow: next page, left arrow enabled, right arrow disabled on
      reaching the last page and otherwise left as it was. */
  function MoveRight(cat: Catalog, p: Pager): (r: Pager)
    ensures r.page == p.page + 1 && !r.leftDisabled
    ensures !p.rightDisabled ==> (r.rightDisabled <==> r.page == cat.maxPage)
    ensures PagerInv(cat, p) && !p.rightDisabled ==> PagerInv(cat, r)
  {
    var page := p.page + 1;
    Pager(page, false, if page == cat.maxPage then true else p.rightDisabled, FillTemplate(page, cat.count))
  }

  /** The left arrow: previous page, right arrow enabled, left arrow disabled on
      reaching page 1 and otherwise left as it was. */
  function MoveLeft(cat: Catalog, p: Pager): (r: Pager)
    ensures r.page == p.page - 1 && !r.rightDisabled
    ensures !p.leftDisabled ==> (r.leftDisabled <==> r.page == 1)
    ensures PagerInv(cat, p) && !p.leftDisabled ==> PagerInv(cat, r)
  {
    var page := p.page - 1;
    Pager(page, if page == 1 then true else p.leftDisabled, false, FillTemplate(page, cat.count))
  }

  /** An enabled right move followed by a left move restores the browser. */
  lemma LeftUndoesRight(cat: Catalog, p: Pager)
    requires PagerInv(cat, p) && !p.rightDisabled
    ensures MoveLeft(cat, MoveRight(cat, p)) == p
  {
  }

  /** An enabled left move followed by a right move restores the browser. */
  lemma RightUndoesLeft(cat: Catalog, p: Pager)
    requires PagerInv(cat, p) && !p.leftDisabled
    ensures MoveRight(cat, MoveLeft(cat, p)) == p
  {
  }
}
