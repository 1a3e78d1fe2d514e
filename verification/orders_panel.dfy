/**
 * The orders panel of the dashboard: it fetches the orders of the selected
 * date range, classifies a failed response into an error text, stores the
 * rows and their number, counts them per status and pages and filters the
 * table.
 */
module OrdersPanel {
  import opened Wrappers
  import Strings
  import Js
  import Dashboard
  import opened Paging
  import TableFilters
  import opened Calendar
  import opened DateFilterContext

  /** What `response.json()` yields: an array of orders, some other JSON value, or a parse error. */
  datatype Body = JsonArray(rows: seq<TableFilters.OrderRow>) | JsonOther | BadJson(message: string)

  /** The outcome of `fetch`: a rejected promise, or a response with its status and body. */
  datatype FetchResult =
    | NetworkError(message: string)
    | Response(ok: bool, status: int, statusText: string, body: Body)

  /** The query parameters: the range's start, and its end day at 23:59:59.999. */
  datatype OrdersQuery = OrdersQuery(startDate: Option<DateTime>, endDate: Option<DateTime>)

  function QueryFor(range: DateRange): (q: OrdersQuery)
    requires range.Valid()
    ensures q.startDate == range.startDate
    ensures q.endDate.Some? <==> range.endDate.Some?
    ensures range.endDate.Some? ==>
              q.endDate.Some? && q.endDate.value.Valid()
              && DayNumber(q.endDate.value) == DayNumber(range.endDate.value) && q.endDate.value.ms == MsPerDay - 1
  {
    OrdersQuery(range.startDate, if range.endDate.Some? then Some(EndOfDay(range.endDate.value)) else None)
  }

  /**
   * The error text of a fetch, or None when the body is an array: the
   * rejection's own message, a fixed text for 401, "Erro {status}:
   * {statusText}" for any other failed status, the parser's message, or a
   * fixed text for JSON that is not an array.
   */
  function FetchError(r: FetchResult): (e: Option<string>)
    ensures e.None? <==> r.Response? && r.ok && r.body.JsonArray?
    ensures r.Response? && !r.ok && r.status == 401 ==> e == Some("Não autorizado. Faça login novamente.")
    ensures r.Response? && !r.ok && r.status != 401 ==>
              e == Some("Erro " + Strings.IntToString(r.status) + ": " + r.statusText)
    ensures r.Response? && r.ok && r.body.JsonOther? ==> e == Some("Resposta da API não é um array de pedidos")
  {
    match r
    case NetworkError(m) => Some(m)
    case Response(ok, status, statusText, body) =>
      if !ok then
        if status == 401 then Some("Não autorizado. Faça login novamente.")
        else Some("Erro " + Strings.IntToString(status) + ": " + statusText)
      else
        match body
        case BadJson(m) => Some(m)
        case JsonOther => Some("Resposta da API não é um array de pedidos")
        case JsonArray(_) => None
  }

  /** `status?.toLowerCase()` can be read from a string or a missing status; anything else throws. */
  function ReadStatus(v: Js.Value): Option<Option<string>> {
    match v
    case Str(s) => Some(Some(s))
    case Undefined => Some(None)
    case Null => Some(None)
    case _ => None
  }

  /** The statuses of all rows, or None when some row's status would throw. */
  function ReadStatuses(rows: seq<TableFilters.OrderRow>): (r: Option<seq<Option<string>>>)
    ensures r.Some? <==> forall i :: 0 <= i < |rows| ==> ReadStatus(rows[i].status).Some?
    ensures r.Some? ==> |r.value| == |rows|
    ensures r.Some? ==> forall i :: 0 <= i < |rows| ==> r.value[i] == ReadStatus(rows[i].status).value
  {
    if rows == [] then Some([])
    else
      match ReadStatus(rows[0].status)
      case None => None
      case Some(st) =>
        match ReadStatuses(rows[1..])
        case None => None
        case Some(rest) => Some([st] + rest)
  }

  class OrdersPanel {
    const pager: Pager
    var filter: string
    var data: seq<TableFilters.OrderRow>
    var loading: bool
    var error: Option<string>
    var statusCounts: Dashboard.StatusCounts

    predicate Valid()
      reads this, pager
    {
      pager.Valid()
    }

    constructor ()
      ensures Valid() && fresh(pager)
      ensures filter == "" && data == [] && loading && error.None?
      ensures statusCounts == Dashboard.StatusCounts(0, 0, 0, 0)
      ensures pager.pageIndex == 0 && pager.totalItems == 0
    {
      pager := new Pager();
      filter := "";
      data := [];
      loading := true;
      error := None;
      statusCounts := Dashboard.StatusCounts(0, 0, 0, 0);
    }

    /**
     * The effect's run for the date range `range`, up to the request: the
     * error is cleared and the query is sent. Each change of the range runs
     * it again, with no cleanup, so several requests can be in flight.
     */
    method SendFetch(range: DateRange) returns (query: OrdersQuery)
      requires Valid() && range.Valid()
      modifies this
      ensures query == QueryFor(range)
      ensures Valid() && error.None? && data == old(data) && filter == old(filter)
      ensures loading == old(loading) && statusCounts == old(statusCounts)
    {
      error := None;
      query := QueryFor(range);
    }

    /**
     * The rest of `fetchData`, once some request is answered by `result`,
     * whichever range it was sent for. A failed fetch sets the error and
     * leaves the rows alone. An array is stored with its length as the total;
     * its statuses are then counted, unless one of them is neither a string
     * nor missing, which throws `typeErrorMessage` after the rows were
     * stored. Loading ends either way.
     */
    method FinishFetch(result: FetchResult, typeErrorMessage: string)
      requires Valid()
      modifies this, pager
      ensures Valid() && !loading && filter == old(filter)
      ensures pager.pageIndex == old(pager.pageIndex)
      ensures FetchError(result).Some? ==>
                error == FetchError(result) && data == old(data)
                && pager.totalItems == old(pager.totalItems) && statusCounts == old(statusCounts)
      ensures FetchError(result).None? ==>
                data == result.body.rows && pager.totalItems == |result.body.rows|
      ensures FetchError(result).None? && ReadStatuses(result.body.rows).Some? ==>
                error == old(error) && statusCounts == Dashboard.CountsOf(ReadStatuses(result.body.rows).value)
      ensures FetchError(result).None? && ReadStatuses(result.body.rows).None? ==>
                error == Some(typeErrorMessage) && statusCounts == old(statusCounts)
    {
      var e := FetchError(result);
      if e.Some? {
        error := e;
        loading := false;
        return;
      }
      var orders := result.body.rows;
      data := orders;
      pager.SetTotal(|orders|);
      var statuses := ReadStatuses(orders);
      if statuses.None? {
        error := Some(typeErrorMessage);
        loading := false;
        return;
      }
      var counts := Dashboard.CountStatuses(statuses.value);
      statusCounts := counts;
      loading := false;
    }

    /**
     * Two quick changes of the range, answered out of order: the answer to
     * the first query lands last, so the panel shows the rows and counts of a
     * range that is no longer selected, beside the error the second answer
     * left, if any.
     */
    method LateAnswerWins(first: DateRange, second: DateRange, firstAnswer: FetchResult, secondAnswer: FetchResult,
                          typeErrorMessage: string)
      returns (queries: seq<OrdersQuery>)
      requires Valid() && first.Valid() && second.Valid()
      requires FetchError(firstAnswer).None? && ReadStatuses(firstAnswer.body.rows).Some?
      modifies this, pager
      ensures queries == [QueryFor(first), QueryFor(second)]
      ensures Valid() && !loading
      ensures error == if FetchError(secondAnswer).Some? then FetchError(secondAnswer)
                       else if ReadStatuses(secondAnswer.body.rows).None? then Some(typeErrorMessage)
                       else None
      ensures data == firstAnswer.body.rows && pager.totalItems == |firstAnswer.body.rows|
      ensures statusCounts == Dashboard.CountsOf(ReadStatuses(firstAnswer.body.rows).value)
    {
      var q1 := SendFetch(first);
      var q2 := SendFetch(second);
      queries := [q1, q2];
      FinishFetch(secondAnswer, typeErrorMessage);
      FinishFetch(firstAnswer, typeErrorMessage);
    }

    /** The filter input. */
    method SetFilter(value: string)
      modifies this
      ensures filter == value && data == old(data) && statusCounts == old(statusCounts)
      ensures loading == old(loading) && error == old(error)
    {
      filter := value;
    }

    /** The rows the table shows for the current filter. */
    function Shown(numText: real -> string): (rows: seq<TableFilters.OrderRow>)
      reads this
      ensures filter == "" ==> rows == data
      ensures |rows| <= |data|
    {
      TableFilters.FilterOrders(data, filter, numText)
    }
  }

  /** After a successful fetch the counters add up to at most the number of rows stored. */
  lemma CountsWithinTotal(rows: seq<TableFilters.OrderRow>)
    requires ReadStatuses(rows).Some?
    ensures Dashboard.CountsOf(ReadStatuses(rows).value).Total() <= |rows|
  {
    Dashboard.CountsAtMostOrders(ReadStatuses(rows).value);
  }
}
