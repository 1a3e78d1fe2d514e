/**
 * The older orders panel, which shows a fixed list of two sample orders
 * instead of fetching, with the same row window as the live panel.
 */
module SamplePanel {
  import opened Paging

  /** A sample order; only the list's length matters to the panel's logic. */
  datatype SampleOrder = SampleOrder(
    id: string, produto: string, cliente: string, valorTotal: real, frete: real,
    tipoFrete: string, status: string, previsaoEntrega: string)

  const SampleOrders: seq<SampleOrder> := [
    SampleOrder("728ed52f", "Quadro personalizado", "João Silva", 249.90, 25.90, "SEDEX", "produção", "2023-11-15"),
    SampleOrder("489e1d42", "Pintura em tela", "Maria Oliveira", 450.00, 35.00, "PAC", "novo", "2023-11-20")
  ]

  class SamplePanel {
    const pager: Pager
    var filter: string
    var data: seq<SampleOrder>
    var loading: bool

    predicate Valid()
      reads this, pager
    {
      pager.Valid()
    }

    constructor ()
      ensures Valid() && fresh(pager) && pager.pageIndex == 0 && pager.totalItems == 0
      ensures filter == "" && data == [] && loading
    {
      pager := new Pager();
      filter := "";
      data := [];
      loading := true;
    }

    /** The mount effect: the sample list becomes the data and its length the total. */
    method Load()
      requires Valid()
      modifies this, pager
      ensures Valid() && data == SampleOrders && pager.totalItems == |SampleOrders| && !loading
      ensures pager.pageIndex == old(pager.pageIndex) && filter == old(filter)
    {
      data := SampleOrders;
      pager.SetTotal(|SampleOrders|);
      loading := false;
    }

    /** The filter input; the table this panel renders ignores it. */
    method SetFilter(value: string)
      modifies this
      ensures filter == value && data == old(data) && loading == old(loading)
    {
      filter := value;
    }
  }

  /**
   * On the first page of ten the two sample orders read "Mostrando 1 a 2 de 2
   * pedidos", and both buttons are disabled.
   */
  lemma FirstPageOfSample()
    ensures |SampleOrders| == 2
    ensures StartItemOf(0, 10) == 1 && EndItemOf(0, 10, |SampleOrders|) == 2
    ensures LabelOf(0, 10, |SampleOrders|, "pedidos") == "Mostrando 1 a 2 de 2 pedidos"
    ensures EndItemOf(0, 10, |SampleOrders|) >= |SampleOrders|
  {
  }
}
