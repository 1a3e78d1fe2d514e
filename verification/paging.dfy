/**
 * The pager state shared by the order, sample and feedback dashboards: a
 * zero-based page index, a page size of ten and the number of rows loaded.
 * It only feeds the label "Mostrando X a Y de Z" and the disabled state of the
 * "Anterior"/"Próximo" buttons; the tables page their rows on their own.
 */
module Paging {
  import Strings

  /** `pageIndex * pageSize + 1`: the label's first number. */
  function StartItemOf(pageIndex: int, pageSize: nat): int {
    pageIndex * pageSize + 1
  }

  /** `Math.min((pageIndex + 1) * pageSize, totalItems)`: the label's second number. */
  function EndItemOf(pageIndex: int, pageSize: nat, totalItems: nat): (n: int)
    ensures n <= totalItems && n <= (pageIndex + 1) * pageSize
    ensures n == totalItems || n == (pageIndex + 1) * pageSize
  {
    if (pageIndex + 1) * pageSize < totalItems then (pageIndex + 1) * pageSize else totalItems
  }

  /** "Mostrando {start} a {end} de {total} {noun}". */
  function LabelOf(pageIndex: int, pageSize: nat, totalItems: nat, noun: string): string {
    "Mostrando " + Strings.IntToString(StartItemOf(pageIndex, pageSize))
      + " a " + Strings.IntToString(EndItemOf(pageIndex, pageSize, totalItems))
      + " de " + Strings.NatToString(totalItems) + " " + noun
  }

  /** When the label's first number is within the total, the second is no smaller and less than a page further. */
  lemma WindowNonEmpty(pageIndex: int, pageSize: nat, totalItems: nat)
    requires pageIndex >= 0 && pageSize > 0
    requires StartItemOf(pageIndex, pageSize) <= totalItems
    ensures StartItemOf(pageIndex, pageSize) <= EndItemOf(pageIndex, pageSize, totalItems)
    ensures EndItemOf(pageIndex, pageSize, totalItems) - StartItemOf(pageIndex, pageSize) < pageSize
  {
  }

  /** When "Próximo" is enabled, the next label's first number is within the total. */
  lemma NextPageHasRows(pageIndex: int, pageSize: nat, totalItems: nat)
    requires EndItemOf(pageIndex, pageSize, totalItems) < totalItems
    ensures StartItemOf(pageIndex + 1, pageSize) <= totalItems
  {
  }

  /**
   * The pagination state of one dashboard. The buttons replace it with a copy
   * whose index is one lower or one higher; a disabled button does nothing.
   */
  class Pager {
    var pageIndex: int
    const pageSize: nat
    var totalItems: nat

    predicate Valid()
      reads this
    {
      pageIndex >= 0 && pageSize == 10
    }

    /** The first page, before any rows are loaded. */
    constructor ()
      ensures Valid() && pageIndex == 0 && totalItems == 0
    {
      pageIndex := 0;
      pageSize := 10;
      totalItems := 0;
    }

    function StartItem(): (n: int)
      reads this
      ensures Valid() ==> n >= 1
    {
      StartItemOf(pageIndex, pageSize)
    }

    function EndItem(): (n: int)
      reads this
      ensures n <= totalItems
    {
      EndItemOf(pageIndex, pageSize, totalItems)
    }

    predicate PreviousDisabled()
      reads this
    {
      pageIndex == 0
    }

    predicate NextDisabled()
      reads this
    {
      EndItem() >= totalItems
    }

    /** The label's first number is within the total, or it is the first page. */
    predicate OnData()
      reads this
    {
      pageIndex == 0 || StartItem() <= totalItems
    }

    function Label(noun: string): string
      reads this
    {
      LabelOf(pageIndex, pageSize, totalItems, noun)
    }

    /** A fetch stores the number of rows; the page index is kept as it was. */
    method SetTotal(n: nat)
      modifies this
      ensures pageIndex == old(pageIndex) && totalItems == n
    {
      totalItems := n;
    }

    /** "Anterior": one page back, unless already on the first page. */
    method ClickPrevious()
      requires Valid()
      modifies this
      ensures Valid() && totalItems == old(totalItems)
      ensures old(PreviousDisabled()) ==> pageIndex == old(pageIndex)
      ensures !old(PreviousDisabled()) ==> pageIndex == old(pageIndex) - 1
      ensures old(OnData()) ==> OnData()
    {
      if !PreviousDisabled() {
        pageIndex := pageIndex - 1;
      }
    }

    /** "Próximo": one page on, unless the label already ends at the total. */
    method ClickNext()
      requires Valid()
      modifies this
      ensures Valid() && totalItems == old(totalItems)
      ensures old(NextDisabled()) ==> pageIndex == old(pageIndex)
      ensures !old(NextDisabled()) ==> pageIndex == old(pageIndex) + 1
      ensures old(OnData()) ==> OnData()
    {
      if !NextDisabled() {
        NextPageHasRows(pageIndex, pageSize, totalItems);
        pageIndex := pageIndex + 1;
      }
    }
  }
}
