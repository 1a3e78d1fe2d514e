/**
 * The feedback panel of the dashboard: it fetches the customer ratings, pages
 * them, filters the table by text, and keeps a list of rating filters that
 * the checkboxes toggle but that nothing else reads.
 */
module FeedbackPanel {
  import opened Wrappers
  import Strings
  import opened Paging
  import TableFilters

  /** The checkbox label of rating `nota` (1 to 5). */
  function RatingLabel(nota: int): string
    requires 1 <= nota <= 5
  {
    ["Ruim", "Regular", "Bom", "Muito Bom", "Ótimo"][nota - 1]
  }

  /** The five labels are distinct, so each names one rating. */
  lemma RatingLabelsDistinct(a: int, b: int)
    requires 1 <= a <= 5 && 1 <= b <= 5 && a != b
    ensures RatingLabel(a) != RatingLabel(b)
  {
    var labels := ["Ruim", "Regular", "Bom", "Muito Bom", "Ótimo"];
    assert |labels[0]| == 4 && |labels[1]| == 7 && |labels[2]| == 3 && |labels[3]| == 9 && |labels[4]| == 5;
  }

  /** `nota.toString()`. */
  function RatingKey(nota: int): string
    requires 1 <= nota <= 5
  {
    Strings.NatToString(nota)
  }

  /**
   * The rating filter after a checkbox change: checking appends the rating's
   * key, unchecking drops every copy of it and keeps the others in order.
   */
  function Toggled(statusFilter: seq<string>, nota: int, checked: bool): (r: seq<string>)
    requires 1 <= nota <= 5
    ensures checked ==> r == statusFilter + [RatingKey(nota)]
    ensures !checked ==> RatingKey(nota) !in r
    ensures !checked ==> forall x :: x in r <==> x in statusFilter && x != RatingKey(nota)
    ensures !checked ==> TableFilters.IsSubsequence(r, statusFilter)
  {
    if checked then statusFilter + [RatingKey(nota)]
    else
      var key := RatingKey(nota);
      var r := TableFilters.Filter(statusFilter, item => item != key);
      forall x ensures x in r <==> x in statusFilter && x != key {
        TableFilters.FilterMembership(statusFilter, item => item != key, x);
      }
      TableFilters.FilterIsSubsequence(statusFilter, item => item != key);
      r
  }

  /** A checkbox shows as checked iff its key is in the filter. */
  predicate IsChecked(statusFilter: seq<string>, nota: int)
    requires 1 <= nota <= 5
  {
    RatingKey(nota) in statusFilter
  }

  /** A change checks or unchecks its own box and leaves the other four as they were. */
  lemma ToggledChecksOnlyItsBox(statusFilter: seq<string>, nota: int, checked: bool, other: int)
    requires 1 <= nota <= 5 && 1 <= other <= 5
    ensures IsChecked(Toggled(statusFilter, nota, checked), nota) == checked
    ensures other != nota ==>
              IsChecked(Toggled(statusFilter, nota, checked), other) == IsChecked(statusFilter, other)
  {
    if other != nota && RatingKey(other) == RatingKey(nota) {
      Strings.NatToStringInjective(other, nota);
    }
  }

  class FeedbackPanel {
    const pager: Pager
    var filter: string
    var data: seq<TableFilters.FeedbackRow>
    var loading: bool
    var statusFilter: seq<string>

    predicate Valid()
      reads this, pager
    {
      pager.Valid()
    }

    constructor ()
      ensures Valid() && fresh(pager) && pager.pageIndex == 0 && pager.totalItems == 0
      ensures filter == "" && data == [] && loading && statusFilter == []
    {
      pager := new Pager();
      filter := "";
      data := [];
      loading := true;
      statusFilter := [];
    }

    /**
     * The mount effect: the fetched feedbacks become the data and their number
     * the total; a failed request only ends loading.
     */
    method FetchData(result: Option<seq<TableFilters.FeedbackRow>>)
      requires Valid()
      modifies this, pager
      ensures Valid() && !loading && pager.pageIndex == old(pager.pageIndex)
      ensures filter == old(filter) && statusFilter == old(statusFilter)
      ensures result.Some? ==> data == result.value && pager.totalItems == |result.value|
      ensures result.None? ==> data == old(data) && pager.totalItems == old(pager.totalItems)
    {
      if result.Some? {
        data := result.value;
        pager.SetTotal(|result.value|);
      }
      loading := false;
    }

    /** The filter input. */
    method SetFilter(value: string)
      modifies this
      ensures filter == value && data == old(data) && statusFilter == old(statusFilter)
      ensures loading == old(loading)
    {
      filter := value;
    }

    /** A click on rating `nota`'s checkbox flips it. */
    method ClickRating(nota: int)
      requires 1 <= nota <= 5
      modifies this
      ensures statusFilter == Toggled(old(statusFilter), nota, !IsChecked(old(statusFilter), nota))
      ensures IsChecked(statusFilter, nota) != IsChecked(old(statusFilter), nota)
      ensures filter == old(filter) && data == old(data) && loading == old(loading)
    {
      var checked := !IsChecked(statusFilter, nota);
      ToggledChecksOnlyItsBox(statusFilter, nota, checked, nota);
      statusFilter := Toggled(statusFilter, nota, checked);
    }

    /** The rows the table shows: they depend on the text filter and not on the rating filter. */
    function Shown(numText: real -> string): (rows: seq<TableFilters.FeedbackRow>)
      reads this
      ensures filter == "" ==> rows == data
      ensures |rows| <= |data|
    {
      TableFilters.FilterFeedback(data, filter, numText)
    }
  }
}
