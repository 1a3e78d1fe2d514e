/**
 * The overview page of the dashboard: once the orders are fetched it counts
 * them per status, totals the freight per carrier and sums the revenue net of
 * freight. The counting is shared with the orders panel, which counts the
 * same four keys the same way.
 */
module Dashboard {
  import opened Wrappers
  import Strings
  import Js

  /** An order as the dashboard reads it; a missing or NaN amount is NaN. */
  datatype SimpleOrder = SimpleOrder(
    id: string,
    cliente: string,
    valorTotal: Js.Number,
    frete: Js.Number,
    tipoFrete: Option<string>,
    status: Option<string>,
    createdAt: Option<string>)

  // ---------------------------------------------------------------------------
  // counts per status

  /** The four counters; no other status has one. */
  datatype StatusCounts = StatusCounts(novo: nat, producao: nat, finalizado: nat, enviado: nat) {
    function Total(): nat {
      novo + producao + finalizado + enviado
    }
  }

  /** `status?.toLowerCase() ?? "novo"`: the counter an order's status selects. */
  function CountKey(status: Option<string>): string {
    match status
    case None => "novo"
    case Some(s) => Strings.Lower(s)
  }

  predicate Counted(key: string) {
    key == "novo" || key == "producao" || key == "finalizado" || key == "enviado"
  }

  /** The statuses of the orders, in order. */
  function Statuses(orders: seq<SimpleOrder>): (r: seq<Option<string>>)
    ensures |r| == |orders| && forall i :: 0 <= i < |orders| ==> r[i] == orders[i].status
  {
    seq(|orders|, i requires 0 <= i < |orders| => orders[i].status)
  }

  /** How many of the statuses are counted under `key`. */
  function KeyCount(statuses: seq<Option<string>>, key: string): (n: nat)
    ensures n <= |statuses|
  {
    if statuses == [] then 0
    else KeyCount(statuses[..|statuses| - 1], key) + (if CountKey(statuses[|statuses| - 1]) == key then 1 else 0)
  }

  /** How many of the statuses select no counter. */
  function Uncounted(statuses: seq<Option<string>>): nat {
    if statuses == [] then 0
    else Uncounted(statuses[..|statuses| - 1]) + (if Counted(CountKey(statuses[|statuses| - 1])) then 0 else 1)
  }

  /** What the status counts are for a list of statuses. */
  function CountsOf(statuses: seq<Option<string>>): StatusCounts {
    StatusCounts(KeyCount(statuses, "novo"), KeyCount(statuses, "producao"),
                 KeyCount(statuses, "finalizado"), KeyCount(statuses, "enviado"))
  }

  /** One order's effect on the counters: its own counter goes up, if it has one. */
  function Tally(c: StatusCounts, key: string): (r: StatusCounts)
    ensures Counted(key) ==> r.Total() == c.Total() + 1
    ensures !Counted(key) ==> r == c
  {
    if key == "novo" then c.(novo := c.novo + 1)
    else if key == "producao" then c.(producao := c.producao + 1)
    else if key == "finalizado" then c.(finalizado := c.finalizado + 1)
    else if key == "enviado" then c.(enviado := c.enviado + 1)
    else c
  }

  /** Appending a status changes the counts by that status's tally alone. */
  lemma CountsSnoc(statuses: seq<Option<string>>, st: Option<string>)
    ensures CountsOf(statuses + [st]) == Tally(CountsOf(statuses), CountKey(st))
    ensures Uncounted(statuses + [st]) == Uncounted(statuses) + (if Counted(CountKey(st)) then 0 else 1)
  {
    assert (statuses + [st])[..|statuses|] == statuses;
  }

  /** The status-counting loop: one pass, bumping the matching counter. */
  method CountStatuses(statuses: seq<Option<string>>) returns (counts: StatusCounts)
    ensures counts == CountsOf(statuses)
  {
    counts := StatusCounts(0, 0, 0, 0);
    var i := 0;
    while i < |statuses|
      invariant 0 <= i <= |statuses|
      invariant counts == CountsOf(statuses[..i])
    {
      CountsSnoc(statuses[..i], statuses[i]);
      assert statuses[..i + 1] == statuses[..i] + [statuses[i]];
      counts := Tally(counts, CountKey(statuses[i]));
      i := i + 1;
    }
    assert statuses[..i] == statuses;
  }

  /** The last status adds one to exactly one side: the counters or the uncounted. */
  lemma CountsStep(statuses: seq<Option<string>>)
    requires statuses != []
    ensures CountsOf(statuses).Total() + Uncounted(statuses)
         == CountsOf(statuses[..|statuses| - 1]).Total() + Uncounted(statuses[..|statuses| - 1]) + 1
  {
    var init, last := statuses[..|statuses| - 1], statuses[|statuses| - 1];
    assert init + [last] == statuses;
    CountsSnocTotal(init, last);
  }

  lemma CountsSnocTotal(init: seq<Option<string>>, last: Option<string>)
    ensures CountsOf(init + [last]).Total() + Uncounted(init + [last]) == CountsOf(init).Total() + Uncounted(init) + 1
  {
    CountsSnoc(init, last);
  }

  /** Every status is either counted once or selects no counter. */
  lemma {:induction false} CountsPartition(statuses: seq<Option<string>>)
    ensures CountsOf(statuses).Total() + Uncounted(statuses) == |statuses|
  {
    if statuses != [] {
      CountsPartition(statuses[..|statuses| - 1]);
      CountsStep(statuses);
    }
  }

  /** Other statuses are ignored, so the counters never add up to more than the orders. */
  lemma CountsAtMostOrders(statuses: seq<Option<string>>)
    ensures CountsOf(statuses).Total() <= |statuses|
  {
    CountsPartition(statuses);
  }

  /** A missing status is counted as new. */
  lemma MissingStatusIsNovo(statuses: seq<Option<string>>)
    ensures CountsOf(statuses + [None]) == CountsOf(statuses).(novo := CountsOf(statuses).novo + 1)
  {
    CountsSnoc(statuses, None);
  }

  /** Counting ignores letter case: a status and its lower-cased form count alike. */
  lemma CountKeyIgnoresCase(s: string)
    ensures CountKey(Some(s)) == CountKey(Some(Strings.Lower(s)))
  {
    assert Strings.Lower(Strings.Lower(s)) == Strings.Lower(s);
  }

  // ---------------------------------------------------------------------------
  // freight per carrier

  /** The carrier totals; the card shows their sum. */
  datatype Freight = Freight(sedex: real, pac: real) {
    function CardTotal(): real {
      sedex + pac
    }
  }

  /** `order.tipoFrete?.trim().toUpperCase()`. */
  function Carrier(o: SimpleOrder): Option<string> {
    match o.tipoFrete
    case None => None
    case Some(t) => Some(Strings.Upper(Strings.Trim(t)))
  }

  /** The freight (`frete || 0`) of the orders sent by `carrier`. */
  function FreightBy(orders: seq<SimpleOrder>, carrier: string): real {
    if orders == [] then 0.0
    else
      var o := orders[|orders| - 1];
      FreightBy(orders[..|orders| - 1], carrier) + (if Carrier(o) == Some(carrier) then o.frete.OrZero() else 0.0)
  }

  /** The freight of all orders, whatever the carrier. */
  function AllFreight(orders: seq<SimpleOrder>): real {
    if orders == [] then 0.0 else AllFreight(orders[..|orders| - 1]) + orders[|orders| - 1].frete.OrZero()
  }

  /** The freight of orders sent by neither SEDEX nor PAC. */
  function OtherFreight(orders: seq<SimpleOrder>): real {
    if orders == [] then 0.0
    else
      var o := orders[|orders| - 1];
      OtherFreight(orders[..|orders| - 1])
        + (if Carrier(o) == Some("SEDEX") || Carrier(o) == Some("PAC") then 0.0 else o.frete.OrZero())
  }

  /** `calculateFreight`: one pass adding each order's freight to its carrier. */
  method CalculateFreight(orders: seq<SimpleOrder>) returns (f: Freight)
    ensures f == Freight(FreightBy(orders, "SEDEX"), FreightBy(orders, "PAC"))
  {
    f := Freight(0.0, 0.0);
    var i := 0;
    while i < |orders|
      invariant 0 <= i <= |orders|
      invariant f == Freight(FreightBy(orders[..i], "SEDEX"), FreightBy(orders[..i], "PAC"))
    {
      assert orders[..i + 1][..i] == orders[..i];
      var tipo := Carrier(orders[i]);
      if tipo == Some("SEDEX") {
        f := f.(sedex := f.sedex + orders[i].frete.OrZero());
      }
      if tipo == Some("PAC") {
        f := f.(pac := f.pac + orders[i].frete.OrZero());
      }
      i := i + 1;
    }
    assert orders[..i] == orders;
  }

  /** SEDEX, PAC and the other carriers split the freight of all orders. */
  lemma {:induction false} FreightPartition(orders: seq<SimpleOrder>)
    ensures FreightBy(orders, "SEDEX") + FreightBy(orders, "PAC") + OtherFreight(orders) == AllFreight(orders)
  {
    if orders != [] {
      FreightPartition(orders[..|orders| - 1]);
    }
  }

  /** An order of any other carrier adds nothing to the freight card. */
  lemma OtherCarrierAddsNothing(orders: seq<SimpleOrder>, o: SimpleOrder)
    requires Carrier(o) != Some("SEDEX") && Carrier(o) != Some("PAC")
    ensures FreightBy(orders + [o], "SEDEX") == FreightBy(orders, "SEDEX")
    ensures FreightBy(orders + [o], "PAC") == FreightBy(orders, "PAC")
  {
    assert (orders + [o])[..|orders|] == orders;
  }

  // ---------------------------------------------------------------------------
  // revenue

  /** `(valorTotal || 0) - (frete || 0)` for one order. */
  function NetValue(o: SimpleOrder): real {
    o.valorTotal.OrZero() - o.frete.OrZero()
  }

  /** `calculateRevenue`: the left-to-right reduce of the net values from 0. */
  function Revenue(orders: seq<SimpleOrder>): (r: real)
    ensures orders == [] ==> r == 0.0
  {
    if orders == [] then 0.0 else Revenue(orders[..|orders| - 1]) + NetValue(orders[|orders| - 1])
  }

  /** The gross value (`valorTotal || 0`) of all orders. */
  function Gross(orders: seq<SimpleOrder>): real {
    if orders == [] then 0.0 else Gross(orders[..|orders| - 1]) + orders[|orders| - 1].valorTotal.OrZero()
  }

  /** The revenue splits over a concatenation of order lists. */
  lemma {:induction false} RevenueAppend(a: seq<SimpleOrder>, b: seq<SimpleOrder>)
    ensures Revenue(a + b) == Revenue(a) + Revenue(b)
    decreases |b|
  {
    if b != [] {
      var init := b[..|b| - 1];
      RevenueAppend(a, init);
      assert (a + b)[..|a + b| - 1] == a + init;
    } else {
      assert a + b == a;
    }
  }

  /** Revenue is the gross value less all freight. */
  lemma {:induction false} RevenueIsGrossLessFreight(orders: seq<SimpleOrder>)
    ensures Revenue(orders) == Gross(orders) - AllFreight(orders)
  {
    if orders != [] {
      RevenueIsGrossLessFreight(orders[..|orders| - 1]);
    }
  }

  // ---------------------------------------------------------------------------
  // the page

  /** The dashboard page's state: the fetched orders and the three aggregates. */
  class DashboardPage {
    var dias: string
    var orders: seq<SimpleOrder>
    var statusCounts: StatusCounts
    var freightTotals: Freight
    var totalRevenue: real

    constructor ()
      ensures dias == "7" && orders == [] && statusCounts == StatusCounts(0, 0, 0, 0)
      ensures freightTotals == Freight(0.0, 0.0) && totalRevenue == 0.0
    {
      dias := "7";
      orders := [];
      statusCounts := StatusCounts(0, 0, 0, 0);
      freightTotals := Freight(0.0, 0.0);
      totalRevenue := 0.0;
    }

    /** The fetch succeeded: store the orders and recompute every aggregate from them. */
    method Loaded(fetched: seq<SimpleOrder>)
      modifies this
      ensures orders == fetched && dias == old(dias)
      ensures statusCounts == CountsOf(Statuses(fetched))
      ensures freightTotals == Freight(FreightBy(fetched, "SEDEX"), FreightBy(fetched, "PAC"))
      ensures totalRevenue == Revenue(fetched)
    {
      orders := fetched;
      statusCounts := CountStatuses(Statuses(fetched));
      freightTotals := CalculateFreight(fetched);
      totalRevenue := Revenue(fetched);
    }

    /** The "Dias" select. */
    method SetDias(value: string)
      modifies this
      ensures dias == value
      ensures orders == old(orders) && statusCounts == old(statusCounts)
      ensures freightTotals == old(freightTotals) && totalRevenue == old(totalRevenue)
    {
      dias := value;
    }
  }
}
