/**
 * The order entity, its closed status enumeration, and the operations the
 * boards perform on their local cache of orders: find by id, patch one status,
 * and the per-status columns.
 */
module Orders {
  import opened Wrappers

  /** The pipeline stages. */
  datatype Status = Novo | Producao | Finalizado | Enviado | Feedback

  /** The key each stage has on the wire and as a board column id. */
  function StatusKey(s: Status): string {
    match s
    case Novo => "novo"
    case Producao => "producao"
    case Finalizado => "finalizado"
    case Enviado => "enviado"
    case Feedback => "feedback"
  }

  /** The stage named by a wire key, if any. */
  function ParseStatus(key: string): (r: Option<Status>)
    ensures r.Some? ==> StatusKey(r.value) == key
  {
    if key == "novo" then Some(Novo)
    else if key == "producao" then Some(Producao)
    else if key == "finalizado" then Some(Finalizado)
    else if key == "enviado" then Some(Enviado)
    else if key == "feedback" then Some(Feedback)
    else None
  }

  lemma ParseStatusKey(s: Status)
    ensures ParseStatus(StatusKey(s)) == Some(s)
  {
  }

  /**
   * A cached order. `email` is "" when the order has none; `previsaoEntrega`
   * is the delivery estimate as the server sent it.
   */
  datatype Order = Order(
    id: string,
    cliente: string,
    produto: string,
    email: string,
    previsaoEntrega: Option<string>,
    valorUnitario: Option<real>,
    imagens: seq<string>,
    urgente: bool,
    status: Status)

  /** `ordens.find(o => o.id === id)`: the first order with that id. */
  function FindById(ordens: seq<Order>, id: string): (r: Option<Order>)
    ensures r.None? <==> forall i :: 0 <= i < |ordens| ==> ordens[i].id != id
    ensures r.Some? ==> exists k :: 0 <= k < |ordens| && ordens[k] == r.value && r.value.id == id
                          && forall j :: 0 <= j < k ==> ordens[j].id != id
    decreases |ordens|
  {
    if ordens == [] then None
    else if ordens[0].id == id then Some(ordens[0])
    else
      var r := FindById(ordens[1..], id);
      assert r.Some? ==> exists k :: 1 <= k < |ordens| && ordens[k] == r.value && r.value.id == id
                          && forall j :: 0 <= j < k ==> ordens[j].id != id by {
        if r.Some? {
          var k :| 0 <= k < |ordens[1..]| && ordens[1..][k] == r.value && r.value.id == id
                   && forall j :: 0 <= j < k ==> ordens[1..][j].id != id;
          assert ordens[k + 1] == r.value;
          forall j | 0 <= j < k + 1 ensures ordens[j].id != id {
            if j > 0 { assert ordens[j] == ordens[1..][j - 1]; }
          }
        }
      }
      r
  }

  /** `prev.map(o => o.id === id ? { ...o, status } : o)`. */
  function PatchStatus(ordens: seq<Order>, id: string, s: Status): seq<Order>
  {
    seq(|ordens|, i requires 0 <= i < |ordens| => if ordens[i].id == id then ordens[i].(status := s) else ordens[i])
  }

  predicate UniqueIds(ordens: seq<Order>) {
    forall i, j :: 0 <= i < j < |ordens| ==> ordens[i].id != ordens[j].id
  }

  /**
   * When ids are unique, patching the status of the order at position `k`
   * changes that one order's status and nothing else in the cache.
   */
  lemma PatchStatusChangesOne(ordens: seq<Order>, k: nat, s: Status)
    requires UniqueIds(ordens) && k < |ordens|
    ensures PatchStatus(ordens, ordens[k].id, s) == ordens[k := ordens[k].(status := s)]
  {
  }

  /** Patching an id that is not cached leaves the cache as it was. */
  lemma PatchStatusAbsent(ordens: seq<Order>, id: string, s: Status)
    requires forall i :: 0 <= i < |ordens| ==> ordens[i].id != id
    ensures PatchStatus(ordens, id, s) == ordens
  {
  }

  /** `ordens.filter(o => o.status === s)`: the cards of one column. */
  function Column(ordens: seq<Order>, s: Status): (r: seq<Order>)
    ensures forall i :: 0 <= i < |r| ==> r[i].status == s && r[i] in ordens
    decreases |ordens|
  {
    if ordens == [] then []
    else if ordens[0].status == s then [ordens[0]] + Column(ordens[1..], s)
    else Column(ordens[1..], s)
  }

  lemma {:induction false} ColumnAppend(a: seq<Order>, b: seq<Order>, s: Status)
    ensures Column(a + b, s) == Column(a, s) + Column(b, s)
    decreases |a|
  {
    if a == [] {
      assert a + b == b;
    } else {
      assert (a + b)[0] == a[0];
      assert (a + b)[1..] == a[1..] + b;
      ColumnAppend(a[1..], b, s);
    }
  }

  /** A column holds each order of its status as often as the cache does, and no other order. */
  lemma {:induction false} ColumnMultiplicity(ordens: seq<Order>, t: Status, y: Order)
    ensures multiset(Column(ordens, t))[y] == (if y.status == t then multiset(ordens)[y] else 0)
    decreases |ordens|
  {
    if ordens != [] {
      ColumnMultiplicity(ordens[1..], t, y);
      assert ordens == [ordens[0]] + ordens[1..];
    }
  }

  /** The five columns together hold every cached order exactly once. */
  lemma ColumnsMultiset(ordens: seq<Order>)
    ensures multiset(Column(ordens, Novo)) + multiset(Column(ordens, Producao))
          + multiset(Column(ordens, Finalizado)) + multiset(Column(ordens, Enviado))
          + multiset(Column(ordens, Feedback)) == multiset(ordens)
  {
    forall y: Order
      ensures (multiset(Column(ordens, Novo)) + multiset(Column(ordens, Producao))
               + multiset(Column(ordens, Finalizado)) + multiset(Column(ordens, Enviado))
               + multiset(Column(ordens, Feedback)))[y] == multiset(ordens)[y]
    {
      ColumnMultiplicity(ordens, Novo, y);
      ColumnMultiplicity(ordens, Producao, y);
      ColumnMultiplicity(ordens, Finalizado, y);
      ColumnMultiplicity(ordens, Enviado, y);
      ColumnMultiplicity(ordens, Feedback, y);
    }
  }

  /** Every cached order lands in exactly the column of its status. */
  lemma ColumnsPartition(ordens: seq<Order>)
    ensures |Column(ordens, Novo)| + |Column(ordens, Producao)| + |Column(ordens, Finalizado)|
          + |Column(ordens, Enviado)| + |Column(ordens, Feedback)| == |ordens|
    ensures multiset(Column(ordens, Novo)) + multiset(Column(ordens, Producao))
          + multiset(Column(ordens, Finalizado)) + multiset(Column(ordens, Enviado))
          + multiset(Column(ordens, Feedback)) == multiset(ordens)
  {
    ColumnsMultiset(ordens);
    var n, p, f := Column(ordens, Novo), Column(ordens, Producao), Column(ordens, Finalizado);
    var e, fb := Column(ordens, Enviado), Column(ordens, Feedback);
    assert |multiset(n) + multiset(p) + multiset(f) + multiset(e) + multiset(fb)| == |multiset(ordens)|;
  }

  /**
   * Moving the order at `k` (ids unique) from its column to a different one
   * takes one card out of the source column, adds one to the target column,
   * and leaves the other columns as they were.
   */
  lemma {:induction false} MoveCounts(ordens: seq<Order>, k: nat, s: Status, other: Status)
    requires UniqueIds(ordens) && k < |ordens| && ordens[k].status != s
    requires other != s && other != ordens[k].status
    ensures var moved := PatchStatus(ordens, ordens[k].id, s);
      && |Column(moved, s)| == |Column(ordens, s)| + 1
      && |Column(moved, ordens[k].status)| + 1 == |Column(ordens, ordens[k].status)|
      && Column(moved, other) == Column(ordens, other)
  {
    PatchStatusChangesOne(ordens, k, s);
    var x := ordens[k];
    var a, b := ordens[..k], ordens[k + 1..];
    assert ordens == a + [x] + b;
    assert ordens[k := x.(status := s)] == a + [x.(status := s)] + b;
    ColumnSplit(a, x, b, s);
    ColumnSplit(a, x.(status := s), b, s);
    ColumnSplit(a, x, b, x.status);
    ColumnSplit(a, x.(status := s), b, x.status);
    ColumnSplit(a, x, b, other);
    ColumnSplit(a, x.(status := s), b, other);
  }

  lemma ColumnSplit(a: seq<Order>, x: Order, b: seq<Order>, t: Status)
    ensures Column(a + [x] + b, t) == Column(a, t) + (if x.status == t then [x] else []) + Column(b, t)
  {
    assert [x][1..] == [];
    assert Column([x], t) == (if x.status == t then [x] else []);
    ColumnAppend(a, [x], t);
    ColumnAppend(a + [x], b, t);
  }
}
