/**
 * The five-column board and its confirmation dialog put together. The board
 * mounts the dialog while a transition is pending and `showDialog` is set;
 * the mounted dialog keeps its own state (open or closed, the message, the
 * files) across renders and only its props follow the board.
 *
 * As shipped the dialog calls `onConfirmado` with no argument, so the board's
 * handler stops before any request and the card never moves; and it has no
 * way to tell the board it was closed, so `showDialog` stays set, the closed
 * dialog stays mounted and no later drop shows a dialog again. The corrected
 * session hands the dialog's message, files and tracking code to the handler
 * and calls the board's cancel handler on close.
 */
module Sessions {
  import opened Wrappers
  import opened Orders
  import opened OrderApi
  import opened Kanban
  import opened ConfirmDialog

  /** The props the board renders the dialog with. */
  function BoardProps(board: KanbanBoard): DialogProps
    reads board
    requires board.DialogMounted()
  {
    var o, s := board.ordemMovida.value, board.statusDestino.value;
    DialogProps(o.id, o.email, s, o.cliente, o.produto)
  }

  /** The board's page: the board's state and the dialog it has mounted, if any. */
  class OrdersScreen {
    const board: KanbanBoard
    var dialog: ConfirmarEnvioDialog?

    /** A dialog is mounted exactly while the board renders one, with the board's current props. */
    predicate Valid()
      reads this, board, dialog
    {
      && (board.DialogMounted() ==> dialog != null)
      && (dialog != null ==> board.DialogMounted() && dialog.Valid() && dialog.Props() == BoardProps(board))
    }

    constructor ()
      ensures Valid() && fresh(board) && dialog == null
      ensures board.ordens == [] && board.ordemMovida.None? && board.statusDestino.None? && !board.showDialog
    {
      board := new KanbanBoard();
      dialog := null;
    }

    /** The mount effect's GET succeeded. */
    method Load(fetched: seq<Order>)
      requires Valid()
      modifies board
      ensures Valid() && board.ordens == fetched
      ensures board.ordemMovida == old(board.ordemMovida) && board.statusDestino == old(board.statusDestino)
      ensures board.showDialog == old(board.showDialog)
    {
      board.Load(fetched);
    }

    /**
     * A drop on the board and the render after it. The open dialog is modal,
     * so drops happen only while no dialog is open. A dialog that was already
     * mounted stays mounted and closed, with the message of its mount; a
     * dialog is created, open and with the new order's message, only when
     * none was mounted.
     */
    method Drop(destination: Option<Status>, source: Status, draggableId: string)
      requires Valid() && (dialog != null ==> !dialog.open)
      modifies this, board, dialog
      ensures Valid()
      ensures board.ordens == old(board.ordens)
      ensures destination.Some? && destination.value != source && FindById(board.ordens, draggableId).Some? ==>
                board.ordemMovida == FindById(board.ordens, draggableId) && board.statusDestino == destination
                && board.showDialog && dialog != null
      ensures old(dialog) != null ==>
                dialog == old(dialog) && !dialog.open && dialog.mensagem == old(dialog.mensagem)
                && dialog.arquivos == old(dialog.arquivos) && dialog.enviando == old(dialog.enviando)
      ensures old(dialog) == null && dialog != null ==>
                fresh(dialog) && dialog.open && !dialog.enviando && dialog.arquivos == [] && dialog.codigoRastreio == ""
                && dialog.mensagem == InitialMessage(board.ordemMovida.value.cliente, board.ordemMovida.value.produto,
                                                     board.statusDestino.value)
    {
      board.OnDragEnd(destination, source, draggableId);
      if dialog != null {
        dialog.Rerender(BoardProps(board));
      } else if board.DialogMounted() {
        var o, s := board.ordemMovida.value, board.statusDestino.value;
        dialog := new ConfirmarEnvioDialog(o.id, o.email, s, o.cliente, o.produto);
      }
    }

    /**
     * "Enviar e Continuar" as shipped, until every request has settled:
     * whatever the three calls answer, only the dialog's own notification is
     * sent, and the cache and the pending transition are left as they were.
     * A successful send closes the dialog, which stays mounted.
     */
    method ShippedConfirmation(dialogOutcome: Outcome, emailOutcome: Outcome, patchOutcome: Outcome)
      returns (requests: seq<OrderRequest>)
      requires Valid() && dialog != null && dialog.open && !dialog.enviando
      modifies board, dialog
      ensures Valid()
      ensures |requests| == 1 && requests[0] == PostEnviarEmail(old(board.ordemMovida).value.id, old(dialog.Form()))
      ensures board.ordens == old(board.ordens) && board.ordemMovida == old(board.ordemMovida)
      ensures board.statusDestino == old(board.statusDestino) && board.showDialog == old(board.showDialog)
      ensures (dialog.open <==> dialogOutcome.Fail?) && !dialog.enviando && dialog.mensagem == old(dialog.mensagem)
    {
      var post := dialog.ClickEnviar();
      var confirmed, _ := dialog.FinishEnviar(dialogOutcome);
      requests := [post.value];
      if confirmed {
        var more, _ := board.HandleConfirmacao(None, emailOutcome, patchOutcome);
        requests := requests + more;
      }
    }

    /** "Cancelar", the overlay or Escape, as shipped: only the dialog's own `open` changes. */
    method ShippedCancel()
      requires Valid() && dialog != null
      modifies dialog
      ensures Valid() && !dialog.open && dialog.mensagem == old(dialog.mensagem)
    {
      dialog.Close();
    }

    /**
     * As shipped, once the first dialog has been sent, a later drop of another
     * card records it as pending but shows no dialog: the mounted one stays
     * closed, still holding the first order's message, and nothing more is sent.
     */
    method ShippedSecondDrop(emailOutcome: Outcome, patchOutcome: Outcome, destination: Status, source: Status, draggableId: string)
      returns (requests: seq<OrderRequest>)
      requires Valid() && dialog != null && dialog.open && !dialog.enviando
      modifies this, board, dialog
      ensures |requests| == 1 && board.ordens == old(board.ordens)
      ensures dialog == old(dialog) && !dialog.open && dialog.mensagem == old(dialog.mensagem)
      ensures destination != source && FindById(board.ordens, draggableId).Some? ==>
                board.ordemMovida == FindById(board.ordens, draggableId) && board.statusDestino == Some(destination)
    {
      requests := ShippedConfirmation(Ok, emailOutcome, patchOutcome);
      Drop(Some(destination), source, draggableId);
    }

    /**
     * The corrected send: when the dialog's notification, the board's
     * notification and the PATCH all succeed, exactly the moved order takes the
     * target status, the pending transition clears and the dialog unmounts;
     * the notification then goes out twice, once from each component. When the
     * dialog's send fails, nothing on the board changes.
     */
    method CorrectedConfirmation(dialogOutcome: Outcome, emailOutcome: Outcome, patchOutcome: Outcome)
      returns (requests: seq<OrderRequest>)
      requires Valid() && dialog != null && dialog.open && !dialog.enviando
      modifies this, board, dialog
      ensures Valid()
      ensures requests != [] && requests[0] == PostEnviarEmail(old(board.ordemMovida).value.id, old(dialog.Form()))
      ensures dialogOutcome.Ok? && emailOutcome.Ok? && patchOutcome.Ok? ==>
                board.ordens == PatchStatus(old(board.ordens), old(board.ordemMovida).value.id, old(board.statusDestino).value)
                && board.ordemMovida.None? && board.statusDestino.None? && !board.showDialog && dialog == null
                && |requests| == 3 && requests[1].PostEnviarEmail? && requests[1].orderId == requests[0].orderId
      ensures dialogOutcome.Fail? ==>
                |requests| == 1 && board.ordens == old(board.ordens) && board.ordemMovida == old(board.ordemMovida)
                && board.statusDestino == old(board.statusDestino) && board.showDialog == old(board.showDialog)
                && dialog == old(dialog) && dialog.open
    {
      var d := dialog;
      var post := d.ClickEnviar();
      var confirmed, _ := d.FinishEnviar(dialogOutcome);
      requests := [post.value];
      if confirmed {
        var data := Confirmation(d.mensagem, Some(d.arquivos), Some(d.codigoRastreio));
        var more, _ := board.HandleConfirmacao(Some(data), emailOutcome, patchOutcome);
        requests := requests + more;
        if !board.DialogMounted() {
          dialog := null;
        }
      }
    }

    /** The corrected close: the dialog closes and tells the board, which clears the pending move and unmounts it. */
    method CorrectedCancel()
      requires Valid() && dialog != null
      modifies this, board, dialog
      ensures Valid() && dialog == null && board.ordens == old(board.ordens)
      ensures board.ordemMovida.None? && board.statusDestino.None? && !board.showDialog
    {
      dialog.Close();
      board.Cancel();
      dialog := null;
    }

    /**
     * With the corrections, after a successful move a later drop of another
     * card opens a fresh dialog with that card's own message.
     */
    method CorrectedSecondDrop(destination: Status, source: Status, draggableId: string)
      returns (requests: seq<OrderRequest>)
      requires Valid() && dialog != null && dialog.open && !dialog.enviando
      modifies this, board, dialog
      ensures |requests| == 3
      ensures destination != source && FindById(board.ordens, draggableId).Some? ==>
                var o := FindById(board.ordens, draggableId).value;
                && board.ordemMovida == Some(o) && board.statusDestino == Some(destination)
                && dialog != null && fresh(dialog) && dialog.open
                && dialog.mensagem == InitialMessage(o.cliente, o.produto, destination)
    {
      requests := CorrectedConfirmation(Ok, Ok, Ok);
      Drop(Some(destination), source, draggableId);
    }
  }

  /**
   * A drop always targets another column, so the intended move changes the
   * cache: the shipped session, which leaves the cache as it was, never
   * performs it.
   */
  lemma MoveChangesCache(ordens: seq<Order>, id: string, s: Status)
    requires FindById(ordens, id).Some? && FindById(ordens, id).value.status != s
    ensures PatchStatus(ordens, id, s) != ordens
  {
    var k :| 0 <= k < |ordens| && ordens[k] == FindById(ordens, id).value && ordens[k].id == id
             && forall j :: 0 <= j < k ==> ordens[j].id != id;
    assert PatchStatus(ordens, id, s)[k].status == s;
  }
}
