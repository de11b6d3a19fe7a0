/** Template catalog arithmetic: which catalog entry a template button shows,
    which buttons of a page are live, and how many pages there are. */
module Pages {

  /** Number of template buttons on one page (MAX_TEMPLATES_IN_PAGE). */
  const SlotsPerPage: nat := 8

  /** Divisor the page count is computed with, which is not SlotsPerPage. */
  const PageCountDivisor: nat := 10

  /** Catalog index shown by button `slot` on the 1-based page `page`. */
  function TemplateIndex(page: int, slot: int): (r: int)
    ensures page >= 1 && 0 <= slot < SlotsPerPage ==>
      (page - 1) * SlotsPerPage <= r < page * SlotsPerPage
  {
    (page - 1) * SlotsPerPage + slot
  }

  /** The page and button on which catalog entry `k` is shown: the inverse of
      TemplateIndex. */
  function Locate(k: nat): (loc: (int, nat))
    ensures loc.0 >= 1 && loc.1 < SlotsPerPage
    ensures TemplateIndex(loc.0, loc.1) == k
  {
    (k / SlotsPerPage + 1, k % SlotsPerPage)
  }

  /** Every (page, button) pair is the location of the entry it shows, so the
      mapping is injective. */
  lemma LocateInvertsTemplateIndex(page: int, slot: nat)
    requires page >= 1 && slot < SlotsPerPage
    ensures TemplateIndex(page, slot) >= 0
    ensures Locate(TemplateIndex(page, slot)) == (page, slot)
  {
  }

  /** Two different buttons, on the same page or on different pages, never
      show the same catalog entry: pages cover disjoint index ranges. */
  lemma DistinctSlotsShowDistinctTemplates(p: int, i: nat, q: int, j: nat)
    requires p >= 1 && q >= 1 && i < SlotsPerPage && j < SlotsPerPage
    requires p != q || i != j
    ensures TemplateIndex(p, i) != TemplateIndex(q, j)
  {
    LocateInvertsTemplateIndex(p, i);
    LocateInvertsTemplateIndex(q, j);
  }

  /** Enabled flags of the page's buttons: a button is live exactly when the
      entry it would show exists. */
  function FillTemplate(page: int, count: nat): (slots: seq<bool>)
    ensures |slots| == SlotsPerPage
    ensures forall i :: 0 <= i < SlotsPerPage ==> (slots[i] <==> TemplateIndex(page, i) < count)
    ensures page >= 1 ==> forall i :: 0 <= i < SlotsPerPage && slots[i] ==> 0 <= TemplateIndex(page, i) < count
    ensures forall i, j :: 0 <= i <= j < SlotsPerPage && slots[j] ==> slots[i]
  {
    seq(SlotsPerPage, i => TemplateIndex(page, i) < count)
  }

  /** Number of pages as the program computes it: one more than the number of
      whole tens in the catalog. */
  function MaxPage(count: nat): (m: int)
    ensures m >= 1
    ensures (m - 1) * PageCountDivisor <= count < m * PageCountDivisor
  {
    count / PageCountDivisor + 1
  }

  /** Number of pages needed to show every entry with SlotsPerPage buttons per
      page, and at least one page for an empty catalog. */
  function PageCount(count: nat): (m: int)
    ensures m >= 1
    ensures count <= m * SlotsPerPage
    ensures count == 0 || (m - 1) * SlotsPerPage < count
  {
    if count == 0 then 1 else (count + SlotsPerPage - 1) / SlotsPerPage
  }

  /** Whatever bound limits the page, no button on a page within it shows an
      entry at or beyond SlotsPerPage times the bound; with MaxPage as the
      bound, entries from 8 * MaxPage(count) on are never shown. */
  lemma ShownTemplatesBelowPageBound(maxPage: int, page: int, slot: nat)
    requires 1 <= page <= maxPage && slot < SlotsPerPage
    ensures 0 <= TemplateIndex(page, slot) < SlotsPerPage * maxPage
  {
  }

  /** With the corrected page count every catalog entry lies on a page that
      exists, and the button showing it is enabled there. */
  lemma PageCountCoversCatalog(count: nat, k: nat)
    requires k < count
    ensures 1 <= Locate(k).0 <= PageCount(count)
    ensures FillTemplate(Locate(k).0, count)[Locate(k).1]
  {
  }
}
