/**
 * The text filters of the order and feedback tables. A non-empty filter keeps
 * the rows in which some listed field, read as `String(value || "")` and
 * lower-cased, contains the lower-cased filter; an empty filter keeps all rows.
 */
module TableFilters {
  import opened Wrappers
  import Strings
  import Js

  // ---------------------------------------------------------------------------
  // Array.prototype.filter and subsequences

  /** `rows.filter(keep)`: the kept rows, in their original order. */
  function Filter<T>(rows: seq<T>, keep: T -> bool): (r: seq<T>)
    ensures |r| <= |rows|
  {
    if rows == [] then []
    else (if keep(rows[0]) then [rows[0]] else []) + Filter(rows[1..], keep)
  }

  /** `a` is `b` with some elements left out and the rest in order. */
  predicate IsSubsequence<T(==)>(a: seq<T>, b: seq<T>)
    decreases |b|
  {
    a == [] || (b != [] && ((a[0] == b[0] && IsSubsequence(a[1..], b[1..])) || IsSubsequence(a, b[1..])))
  }

  /** A row is in the result exactly when it is in the input and kept. */
  lemma {:induction false} FilterMembership<T>(rows: seq<T>, keep: T -> bool, x: T)
    ensures x in Filter(rows, keep) <==> x in rows && keep(x)
  {
    if rows != [] {
      FilterMembership(rows[1..], keep, x);
      assert rows == [rows[0]] + rows[1..];
    }
  }

  /** The result keeps the input's order. */
  lemma {:induction false} FilterIsSubsequence<T>(rows: seq<T>, keep: T -> bool)
    ensures IsSubsequence(Filter(rows, keep), rows)
  {
    if rows != [] {
      FilterIsSubsequence(rows[1..], keep);
      var r := Filter(rows, keep);
      if keep(rows[0]) {
        assert r[0] == rows[0] && r[1..] == Filter(rows[1..], keep);
      } else {
        assert r == Filter(rows[1..], keep);
      }
    }
  }

  /** A stricter test keeps a subsequence of what a looser one keeps. */
  lemma {:induction false} FilterMonotone<T>(rows: seq<T>, strict: T -> bool, loose: T -> bool)
    requires forall x :: strict(x) ==> loose(x)
    ensures IsSubsequence(Filter(rows, strict), Filter(rows, loose))
  {
    if rows != [] {
      FilterMonotone(rows[1..], strict, loose);
      var a := Filter(rows, strict);
      var b := Filter(rows, loose);
      if strict(rows[0]) {
        assert a[0] == b[0] && a[1..] == Filter(rows[1..], strict) && b[1..] == Filter(rows[1..], loose);
      } else if loose(rows[0]) {
        assert a == Filter(rows[1..], strict) && b[1..] == Filter(rows[1..], loose);
      } else {
        assert a == Filter(rows[1..], strict) && b == Filter(rows[1..], loose);
      }
    }
  }

  // ---------------------------------------------------------------------------
  // matching one field

  /** `String(value || "")`; the text of a finite number is left to `numText`. */
  function SafeText(v: Js.Value, numText: real -> string): (s: string)
    ensures !Js.Truthy(v) ==> s == ""
    ensures Js.Truthy(v) && v.Str? ==> s == v.s
  {
    if Js.Truthy(v) then Js.ToString(v, numText) else ""
  }

  /** `String(value || "").toLowerCase().includes(lowerFilter)`. */
  predicate SafeCompare(v: Js.Value, lowerFilter: string, numText: real -> string) {
    Strings.Contains(Strings.Lower(SafeText(v, numText)), lowerFilter)
  }

  /** A falsy field (missing, null, 0, NaN, "") matches no non-empty filter. */
  lemma FalsyNeverMatches(v: Js.Value, lowerFilter: string, numText: real -> string)
    requires !Js.Truthy(v) && lowerFilter != ""
    ensures !SafeCompare(v, lowerFilter, numText)
  {
    assert Strings.Lower("") == "";
  }

  /** A field matching a query also matches every prefix of it. */
  lemma SafeComparePrefix(v: Js.Value, q: string, ext: string, numText: real -> string)
    requires SafeCompare(v, Strings.Lower(q + ext), numText)
    ensures SafeCompare(v, Strings.Lower(q), numText)
  {
    Strings.LowerAppend(q, ext);
    Strings.ContainsPrefixOfQuery(Strings.Lower(SafeText(v, numText)), Strings.Lower(q), Strings.Lower(ext));
  }

  // ---------------------------------------------------------------------------
  // the order table

  /** The fields of an order row that the filter reads. */
  datatype OrderRow = OrderRow(
    cliente: Js.Value, produto: Js.Value, status: Js.Value,
    pintor: Js.Value, id: Js.Value, tipoFrete: Js.Value)

  predicate OrderMatches(row: OrderRow, lowerFilter: string, numText: real -> string) {
    SafeCompare(row.cliente, lowerFilter, numText)
    || SafeCompare(row.produto, lowerFilter, numText)
    || SafeCompare(row.status, lowerFilter, numText)
    || SafeCompare(row.pintor, lowerFilter, numText)
    || SafeCompare(row.id, lowerFilter, numText)
    || SafeCompare(row.tipoFrete, lowerFilter, numText)
  }

  /** The order table's `filteredData`. */
  function FilterOrders(data: seq<OrderRow>, filter: string, numText: real -> string): (r: seq<OrderRow>)
    ensures filter == "" ==> r == data
    ensures |r| <= |data|
  {
    if filter == "" then data
    else Filter(data, row => OrderMatches(row, Strings.Lower(filter), numText))
  }

  /** A row is shown iff it is in the data and, for a non-empty filter, some field matches. */
  lemma FilterOrdersMembership(data: seq<OrderRow>, filter: string, numText: real -> string, row: OrderRow)
    ensures row in FilterOrders(data, filter, numText)
        <==> row in data && (filter == "" || OrderMatches(row, Strings.Lower(filter), numText))
  {
    if filter != "" {
      FilterMembership(data, row => OrderMatches(row, Strings.Lower(filter), numText), row);
    }
  }

  /** The shown rows keep the data's order. */
  lemma FilterOrdersSubsequence(data: seq<OrderRow>, filter: string, numText: real -> string)
    ensures IsSubsequence(FilterOrders(data, filter, numText), data)
  {
    if filter == "" {
      SubsequenceReflexive(data);
    } else {
      FilterIsSubsequence(data, row => OrderMatches(row, Strings.Lower(filter), numText));
    }
  }

  /** Typing more characters never brings a row back. */
  lemma FilterOrdersNarrows(data: seq<OrderRow>, filter: string, ext: string, numText: real -> string)
    ensures IsSubsequence(FilterOrders(data, filter + ext, numText), FilterOrders(data, filter, numText))
  {
    if filter == "" {
      FilterOrdersSubsequence(data, filter + ext, numText);
    } else {
      assert filter + ext != "";
      forall row | OrderMatches(row, Strings.Lower(filter + ext), numText)
        ensures OrderMatches(row, Strings.Lower(filter), numText)
      {
        var q := Strings.Lower(filter + ext);
        if SafeCompare(row.cliente, q, numText) { SafeComparePrefix(row.cliente, filter, ext, numText); }
        else if SafeCompare(row.produto, q, numText) { SafeComparePrefix(row.produto, filter, ext, numText); }
        else if SafeCompare(row.status, q, numText) { SafeComparePrefix(row.status, filter, ext, numText); }
        else if SafeCompare(row.pintor, q, numText) { SafeComparePrefix(row.pintor, filter, ext, numText); }
        else if SafeCompare(row.id, q, numText) { SafeComparePrefix(row.id, filter, ext, numText); }
        else { SafeComparePrefix(row.tipoFrete, filter, ext, numText); }
      }
      FilterMonotone(data, row => OrderMatches(row, Strings.Lower(filter + ext), numText),
                     row => OrderMatches(row, Strings.Lower(filter), numText));
    }
  }

  lemma {:induction false} SubsequenceReflexive<T>(s: seq<T>)
    ensures IsSubsequence(s, s)
  {
    if s != [] {
      SubsequenceReflexive(s[1..]);
    }
  }

  // ---------------------------------------------------------------------------
  // the feedback table

  /** The order a feedback refers to, when the backend populated it. */
  datatype FeedbackOrder = FeedbackOrder(cliente: Js.Value, produto: Js.Value)

  /** The fields of a feedback row that the filter reads. */
  datatype FeedbackRow = FeedbackRow(
    order: Option<FeedbackOrder>, comentario: Js.Value,
    atendimento: Js.Value, tempoEntrega: Js.Value, qualidadeMaterial: Js.Value)

  /** `feedback.order?.cliente`. */
  function OrderCliente(f: FeedbackRow): Js.Value {
    if f.order.Some? then f.order.value.cliente else Js.Undefined
  }

  /** `feedback.order?.produto`. */
  function OrderProduto(f: FeedbackRow): Js.Value {
    if f.order.Some? then f.order.value.produto else Js.Undefined
  }

  predicate FeedbackMatches(f: FeedbackRow, lowerFilter: string, numText: real -> string) {
    SafeCompare(OrderCliente(f), lowerFilter, numText)
    || SafeCompare(OrderProduto(f), lowerFilter, numText)
    || SafeCompare(f.comentario, lowerFilter, numText)
    || SafeCompare(f.atendimento, lowerFilter, numText)
    || SafeCompare(f.tempoEntrega, lowerFilter, numText)
    || SafeCompare(f.qualidadeMaterial, lowerFilter, numText)
  }

  /** The feedback table's `filteredData`. */
  function FilterFeedback(data: seq<FeedbackRow>, filter: string, numText: real -> string): (r: seq<FeedbackRow>)
    ensures filter == "" ==> r == data
    ensures |r| <= |data|
  {
    if filter == "" then data
    else Filter(data, f => FeedbackMatches(f, Strings.Lower(filter), numText))
  }

  lemma FilterFeedbackMembership(data: seq<FeedbackRow>, filter: string, numText: real -> string, f: FeedbackRow)
    ensures f in FilterFeedback(data, filter, numText)
        <==> f in data && (filter == "" || FeedbackMatches(f, Strings.Lower(filter), numText))
  {
    if filter != "" {
      FilterMembership(data, f => FeedbackMatches(f, Strings.Lower(filter), numText), f);
    }
  }

  lemma FilterFeedbackSubsequence(data: seq<FeedbackRow>, filter: string, numText: real -> string)
    ensures IsSubsequence(FilterFeedback(data, filter, numText), data)
  {
    if filter == "" {
      SubsequenceReflexive(data);
    } else {
      FilterIsSubsequence(data, f => FeedbackMatches(f, Strings.Lower(filter), numText));
    }
  }

  /** A rating of 0 is falsy, so it is matched as the empty string: never, for a non-empty filter. */
  lemma ZeroRatingIsEmpty(numText: real -> string, lowerFilter: string)
    requires lowerFilter != ""
    ensures SafeText(Js.Num(Js.Real(0.0)), numText) == SafeText(Js.Str(""), numText) == ""
    ensures !SafeCompare(Js.Num(Js.Real(0.0)), lowerFilter, numText)
  {
    FalsyNeverMatches(Js.Num(Js.Real(0.0)), lowerFilter, numText);
  }
}
