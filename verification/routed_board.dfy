/**
 * The four-column order board the router serves (novo, producao, finalizado,
 * enviado). Its dialog callback only patches the status; the handler that
 * would also post the notification is defined but never wired to anything.
 */
module RoutedBoard {
  import opened Wrappers
  import opened Orders
  import opened Forms
  import opened OrderApi

  /** The column ids of this board. */
  predicate IsColumn(s: Status) {
    s != Feedback
  }

  /**
   * The four columns hold every cached order whose status has a column, each
   * exactly once; orders in `feedback` appear in none of them.
   */
  lemma {:induction false} RoutedColumnsPartition(ordens: seq<Order>)
    ensures |Column(ordens, Novo)| + |Column(ordens, Producao)| + |Column(ordens, Finalizado)|
          + |Column(ordens, Enviado)| == |ordens| - |Column(ordens, Feedback)|
    ensures (forall i :: 0 <= i < |ordens| ==> IsColumn(ordens[i].status)) ==>
              (multiset(Column(ordens, Novo)) + multiset(Column(ordens, Producao))
               + multiset(Column(ordens, Finalizado)) + multiset(Column(ordens, Enviado)) == multiset(ordens))
  {
    ColumnsPartition(ordens);
  }

  class OrdensPage {
    var ordens: seq<Order>
    var ordemMovida: Option<Order>
    var statusDestino: Option<Status>
    var showDialog: bool

    constructor()
      ensures ordens == [] && ordemMovida == None && statusDestino == None && !showDialog
    {
      ordens := [];
      ordemMovida := None;
      statusDestino := None;
      showDialog := false;
    }

    /** The mount effect's GET succeeded. */
    method Load(fetched: seq<Order>)
      modifies this
      ensures ordens == fetched
      ensures ordemMovida == old(ordemMovida) && statusDestino == old(statusDestino) && showDialog == old(showDialog)
    {
      ordens := fetched;
    }

    /** Whether the dialog is rendered, and so whether its callback can run. */
    predicate DialogMounted()
      reads this
    {
      showDialog && ordemMovida.Some? && statusDestino.Some?
    }

    /**
     * A drop between the four columns (matched on `_id`): no destination, the
     * same column or an unknown id change nothing; otherwise the pending
     * transition is recorded and the dialog opens.
     */
    method OnDragEnd(destination: Option<Status>, source: Status, draggableId: string)
      requires IsColumn(source) && (destination.Some? ==> IsColumn(destination.value))
      modifies this
      ensures ordens == old(ordens)
      ensures destination.None? || destination.value == source || FindById(ordens, draggableId).None? ==>
                ordemMovida == old(ordemMovida) && statusDestino == old(statusDestino) && showDialog == old(showDialog)
      ensures destination.Some? && destination.value != source && FindById(ordens, draggableId).Some? ==>
                ordemMovida == FindById(ordens, draggableId) && statusDestino == destination && showDialog
    {
      if destination.None? || destination.value == source {
        return;
      }
      var ordem := FindById(ordens, draggableId);
      if ordem.None? {
        return;
      }
      ordemMovida := ordem;
      statusDestino := destination;
      showDialog := true;
    }

    /**
     * The inline `onConfirmado` the dialog calls after its own POST: a single
     * status PATCH; on success exactly the moved order's status changes and
     * the pending transition clears; a failed PATCH rejects and changes nothing.
     */
    method OnConfirmado(patchOutcome: Outcome) returns (requests: seq<OrderRequest>)
      requires DialogMounted()
      modifies this
      ensures requests == [PatchOrderStatus(old(ordemMovida).value.id, old(statusDestino).value)]
      ensures patchOutcome.Ok? ==>
                && ordens == PatchStatus(old(ordens), old(ordemMovida).value.id, old(statusDestino).value)
                && ordemMovida.None? && statusDestino.None? && !showDialog
      ensures patchOutcome.Fail? ==>
                ordens == old(ordens) && ordemMovida == old(ordemMovida)
                && statusDestino == old(statusDestino) && showDialog == old(showDialog)
    {
      var id, s := ordemMovida.value.id, statusDestino.value;
      requests := [PatchOrderStatus(id, s)];
      if patchOutcome.Fail? {
        return;
      }
      ordens := PatchStatus(ordens, id, s);
      showDialog := false;
      ordemMovida := None;
      statusDestino := None;
    }

    /**
     * The unused `handleConfirmacao(data)`: posts the notification (files
     * under "anexos") before the status PATCH, with no error handling; the
     * cache changes only when both requests succeed.
     */
    method HandleConfirmacao(data: Confirmation, emailOutcome: Outcome, patchOutcome: Outcome)
      returns (requests: seq<OrderRequest>)
      modifies this
      ensures old(ordemMovida).None? || old(statusDestino).None? ==>
                requests == [] && ordens == old(ordens) && ordemMovida == old(ordemMovida)
                && statusDestino == old(statusDestino) && showDialog == old(showDialog)
      ensures old(ordemMovida).Some? && old(statusDestino).Some? ==>
                var o, s := old(ordemMovida).value, old(statusDestino).value;
                var post := PostEnviarEmail(o.id, NotifyForm(data.mensagem, s, o.email, data.codigoRastreio.GetOr(""),
                                                             "anexos", data.arquivos.GetOr([])));
                && requests == (if emailOutcome.Ok? then [post, PatchOrderStatus(o.id, s)] else [post])
                && (emailOutcome.Ok? && patchOutcome.Ok? ==>
                      ordens == PatchStatus(old(ordens), o.id, s)
                      && ordemMovida.None? && statusDestino.None? && !showDialog)
                && (emailOutcome.Fail? || patchOutcome.Fail? ==>
                      ordens == old(ordens) && ordemMovida == old(ordemMovida)
                      && statusDestino == old(statusDestino) && showDialog == old(showDialog))
    {
      requests := [];
      if ordemMovida.None? || statusDestino.None? {
        return;
      }
      var o, s := ordemMovida.value, statusDestino.value;
      var form := BuildNotifyForm(data.mensagem, s, o.email, data.codigoRastreio.GetOr(""), "anexos", data.arquivos.GetOr([]));
      requests := [PostEnviarEmail(o.id, form)];
      if emailOutcome.Fail? {
        return;
      }
      requests := requests + [PatchOrderStatus(o.id, s)];
      if patchOutcome.Fail? {
        return;
      }
      ordens := PatchStatus(ordens, o.id, s);
      showDialog := false;
      ordemMovida := None;
      statusDestino := None;
    }
  }
}
