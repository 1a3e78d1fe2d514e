/**
 * The five-column order board (novo, producao, finalizado, enviado, feedback):
 * the delivery countdown shown on each card, the drop handler that records a
 * pending transition, and the confirmation handler that notifies the client,
 * patches the order on the server and then moves the card in the local cache.
 */
module Kanban {
  import opened Wrappers
  import opened Orders
  import opened Forms
  import opened OrderApi
  import opened Ui
  import Strings

  // ---------------------------------------------------------------------------
  // Delivery countdown

  const MsPerDay: int := 86400000

  /** `Math.ceil(a / d)` for a positive divisor. */
  function CeilDiv(a: int, d: int): (q: int)
    requires d > 0
    ensures (q - 1) * d < a <= q * d
  {
    if a % d == 0 then a / d else a / d + 1
  }

  /** `calcularDiasRestantes`: null, a whole number of days, or NaN for an unparseable date. */
  datatype DaysLeft = NoEstimate | Days(n: int) | NotANumber

  /**
   * The days left until the estimate, against the clock reading `nowMs`;
   * `parseDate` is `new Date(s).getTime()` (None for an invalid date).
   */
  function DaysRemaining(previsao: Option<string>, nowMs: int, parseDate: string -> Option<int>): (r: DaysLeft)
    ensures r.NoEstimate? <==> previsao.None? || previsao.value == ""
    ensures r.NotANumber? <==> previsao.Some? && previsao.value != "" && parseDate(previsao.value).None?
    ensures r.Days? ==> previsao.Some? && parseDate(previsao.value).Some?
                        && (r.n - 1) * MsPerDay < parseDate(previsao.value).value - nowMs <= r.n * MsPerDay
  {
    if previsao.None? || previsao.value == "" then NoEstimate
    else match parseDate(previsao.value)
      case None => NotANumber
      case Some(t) => Days(CeilDiv(t - nowMs, MsPerDay))
  }

  /** Orders past these stages count as delivered. */
  predicate Delivered(s: Status) {
    s == Enviado || s == Feedback
  }

  datatype Color = Red | Yellow | Green

  function ColorClass(c: Color): string {
    match c
    case Red => "text-red-400"
    case Yellow => "text-yellow-400"
    case Green => "text-green-400"
  }

  datatype Message = Entregue | DiasRestantes(n: int) | EntregaAtrasada

  function MessageText(m: Message): string {
    match m
    case Entregue => "Entregue"
    case DiasRestantes(n) => Strings.IntToString(n) + " dias restantes"
    case EntregaAtrasada => "ENTREGA ATRASADA!"
  }

  datatype DisplayInfo = DisplayInfo(showCounter: bool, message: Option<Message>, color: Option<Color>)

  /**
   * `getDisplayInfo`: delivered orders always read "Entregue" in green; an
   * order without an estimate shows nothing; a positive count shows the days
   * left, red when urgent or at most 3, yellow up to 7, green beyond; anything
   * else (zero, negative, NaN) is overdue in red.
   */
  function GetDisplayInfo(o: Order, nowMs: int, parseDate: string -> Option<int>): (r: DisplayInfo)
    ensures Delivered(o.status) ==> r == DisplayInfo(false, Some(Entregue), Some(Green))
    ensures var d := DaysRemaining(o.previsaoEntrega, nowMs, parseDate);
      && (!Delivered(o.status) && d.NoEstimate? ==> r == DisplayInfo(false, None, None))
      && (!Delivered(o.status) && d.Days? && d.n > 0 ==>
            && r.showCounter && r.message == Some(DiasRestantes(d.n))
            && (r.color == Some(Red) <==> o.urgente || d.n <= 3)
            && (r.color == Some(Yellow) <==> !o.urgente && 3 < d.n <= 7)
            && (r.color == Some(Green) <==> !o.urgente && 7 < d.n))
      && (!Delivered(o.status) && (d.NotANumber? || (d.Days? && d.n <= 0)) ==>
            r == DisplayInfo(true, Some(EntregaAtrasada), Some(Red)))
  {
    if Delivered(o.status) then DisplayInfo(false, Some(Entregue), Some(Green))
    else match DaysRemaining(o.previsaoEntrega, nowMs, parseDate)
      case NoEstimate => DisplayInfo(false, None, None)
      case Days(n) =>
        if n > 0 then
          DisplayInfo(true, Some(DiasRestantes(n)),
                      Some(if o.urgente then Red else if n <= 3 then Red else if n <= 7 then Yellow else Green))
        else DisplayInfo(true, Some(EntregaAtrasada), Some(Red))
      case NotANumber => DisplayInfo(true, Some(EntregaAtrasada), Some(Red))
  }

  /** The countdown badge the card itself renders. */
  datatype BadgeColor = Red300 | Red400 | Yellow400 | Green400

  datatype Badge = Badge(text: string, color: BadgeColor)

  const UrgencyPrefix: string := "URGÊNCIA - "

  /**
   * The card's badge: shown for an undelivered order with an estimate. Urgent
   * orders are prefixed "URGÊNCIA - " and coloured red-300; otherwise the day
   * thresholds 3 and 7 pick red, yellow or green. A positive count reads
   * "n DIAS RESTANTE!", anything else "ENTREGA ATRASADA!"; a NaN count fails
   * both comparisons, so an unparseable estimate reads overdue in green.
   */
  function CardBadge(o: Order, nowMs: int, parseDate: string -> Option<int>): (r: Option<Badge>)
    ensures r.Some? <==> GetDisplayInfo(o, nowMs, parseDate).showCounter
    ensures r.Some? ==> (o.urgente <==> r.value.color == Red300)
    ensures r.Some? ==> (Strings.IsPrefix(UrgencyPrefix, r.value.text) <==> o.urgente)
    ensures var d := DaysRemaining(o.previsaoEntrega, nowMs, parseDate);
      var prefix := if o.urgente then UrgencyPrefix else "";
      r.Some? ==>
        && (d.Days? && d.n > 0 ==> r.value.text == prefix + Strings.NatToString(d.n) + " DIAS RESTANTE!")
        && (!(d.Days? && d.n > 0) ==> r.value.text == prefix + "ENTREGA ATRASADA!")
        && (!o.urgente && d.Days? ==>
              && (r.value.color == Red400 <==> d.n <= 3)
              && (r.value.color == Yellow400 <==> 3 < d.n <= 7)
              && (r.value.color == Green400 <==> 7 < d.n))
        && (!o.urgente && d.NotANumber? ==> r.value == Badge("ENTREGA ATRASADA!", Green400))
  {
    if o.previsaoEntrega.None? || o.previsaoEntrega.value == "" || Delivered(o.status) then None
    else
      var d := DaysRemaining(o.previsaoEntrega, nowMs, parseDate);
      var prefix := if o.urgente then UrgencyPrefix else "";
      var count := if d.Days? && d.n > 0 then Strings.IntToString(d.n) + " DIAS RESTANTE!" else "ENTREGA ATRASADA!";
      var color :=
        if o.urgente then Red300
        else if d.Days? && d.n <= 3 then Red400
        else if d.Days? && d.n <= 7 then Yellow400
        else Green400;
      assert !o.urgente ==> count[0] != UrgencyPrefix[0] && (prefix + count)[0] == count[0];
      Some(Badge(prefix + count, color))
  }

  /** The hue of a badge colour, in the terms of `getDisplayInfo`. */
  function Tone(c: BadgeColor): Color {
    match c
    case Red300 => Red
    case Red400 => Red
    case Yellow400 => Yellow
    case Green400 => Green
  }

  /**
   * The badge the card renders agrees in hue with `getDisplayInfo`, which the
   * board never calls, except for one case: a non-urgent order whose estimate
   * does not parse is overdue in green on the card and in red in `getDisplayInfo`.
   */
  lemma CardBadgeMatchesDisplayInfo(o: Order, nowMs: int, parseDate: string -> Option<int>)
    requires CardBadge(o, nowMs, parseDate).Some?
    ensures var info := GetDisplayInfo(o, nowMs, parseDate);
      var b := CardBadge(o, nowMs, parseDate).value;
      var d := DaysRemaining(o.previsaoEntrega, nowMs, parseDate);
      && info.color.Some?
      && (Tone(b.color) == info.color.value <==> !(d.NotANumber? && !o.urgente))
      && (d.Days? && d.n > 0 ==> info.message == Some(DiasRestantes(d.n)))
      && (!(d.Days? && d.n > 0) ==> info.message == Some(EntregaAtrasada))
  {
  }

  // ---------------------------------------------------------------------------
  // The board

  class KanbanBoard {
    var ordens: seq<Order>
    var ordemMovida: Option<Order>
    var statusDestino: Option<Status>
    var showDialog: bool

    constructor()
      ensures ordens == [] && ordemMovida == None && statusDestino == None && !showDialog
    {
      ordens := [];
      ordemMovida := None;
      statusDestino := None;
      showDialog := false;
    }

    /** The mount effect's GET succeeded: the cache becomes the fetched list. */
    method Load(fetched: seq<Order>)
      modifies this
      ensures ordens == fetched
      ensures ordemMovida == old(ordemMovida) && statusDestino == old(statusDestino) && showDialog == old(showDialog)
    {
      ordens := fetched;
    }

    /** The cards of one column. */
    function ColumnOf(s: Status): seq<Order>
      reads this
    {
      Column(ordens, s)
    }

    /** The counter in a column's header. */
    function ColumnCount(s: Status): (n: nat)
      reads this
      ensures n == |Column(ordens, s)|
      ensures n <= |ordens|
    {
      ColumnsPartition(ordens);
      |ColumnOf(s)|
    }

    /**
     * A drop. Without a destination, onto its own column, or for an id not in
     * the cache it changes nothing; otherwise it records (that order, the
     * destination) as the pending transition and opens the dialog.
     */
    method OnDragEnd(destination: Option<Status>, source: Status, draggableId: string)
      modifies this
      ensures ordens == old(ordens)
      ensures destination.None? || destination.value == source || FindById(ordens, draggableId).None? ==>
                ordemMovida == old(ordemMovida) && statusDestino == old(statusDestino) && showDialog == old(showDialog)
      ensures destination.Some? && destination.value != source && FindById(ordens, draggableId).Some? ==>
                ordemMovida == FindById(ordens, draggableId) && statusDestino == destination && showDialog
    {
      if destination.None? || destination.value == source {
        return;
      }
      var ordem := FindById(ordens, draggableId);
      if ordem.None? {
        return;
      }
      ordemMovida := ordem;
      statusDestino := destination;
      showDialog := true;
    }

    /**
     * `handleConfirmacao(data)`. With no pending transition it does nothing.
     * A call without `data` fails on `data.mensagem` before any request. Else
     * the notification is posted first; if it succeeds, `enviado` is patched
     * through `/enviar` with the tracking code and every other stage through
     * the generic status PATCH; only when both succeed does the cache change
     * (exactly the moved order's status) and the pending transition clear.
     */
    method HandleConfirmacao(data: Option<Confirmation>, emailOutcome: Outcome, patchOutcome: Outcome)
      returns (requests: seq<OrderRequest>, toast: Option<Toast>)
      modifies this
      ensures old(ordemMovida).None? || old(statusDestino).None? || data.None? ==>
                requests == [] && toast.None?
                && ordens == old(ordens) && ordemMovida == old(ordemMovida)
                && statusDestino == old(statusDestino) && showDialog == old(showDialog)
      ensures old(ordemMovida).Some? && old(statusDestino).Some? && data.Some? ==>
                var o, s, d := old(ordemMovida).value, old(statusDestino).value, data.value;
                var post := PostEnviarEmail(o.id, NotifyForm(d.mensagem, s, o.email, d.codigoRastreio.GetOr(""),
                                                             "arquivos", d.arquivos.GetOr([])));
                var patch := if s == Enviado then PatchEnviar(o.id, d.codigoRastreio) else PatchOrderStatus(o.id, s);
                && requests == (if emailOutcome.Ok? then [post, patch] else [post])
                && (emailOutcome.Ok? && patchOutcome.Ok? ==>
                      && ordens == PatchStatus(old(ordens), o.id, s)
                      && ordemMovida.None? && statusDestino.None? && !showDialog
                      && toast == Some(Success(MovedToastText(o.id, s))))
                && (emailOutcome.Fail? || patchOutcome.Fail? ==>
                      && ordens == old(ordens) && ordemMovida == old(ordemMovida)
                      && statusDestino == old(statusDestino) && showDialog == old(showDialog)
                      && toast == Some(Error("Erro ao enviar dados")))
    {
      requests, toast := [], None;
      if ordemMovida.None? || statusDestino.None? {
        return;
      }
      if data.None? {
        return;
      }
      var o, s, d := ordemMovida.value, statusDestino.value, data.value;
      var form := BuildNotifyForm(d.mensagem, s, o.email, d.codigoRastreio.GetOr(""), "arquivos", d.arquivos.GetOr([]));
      requests := [PostEnviarEmail(o.id, form)];
      if emailOutcome.Fail? {
        toast := Some(Error("Erro ao enviar dados"));
        return;
      }
      if s == Enviado {
        requests := requests + [PatchEnviar(o.id, d.codigoRastreio)];
      } else {
        requests := requests + [PatchOrderStatus(o.id, s)];
      }
      if patchOutcome.Fail? {
        toast := Some(Error("Erro ao enviar dados"));
        return;
      }
      ordens := PatchStatus(ordens, o.id, s);
      toast := Some(Success(MovedToastText(o.id, s)));
      showDialog := false;
      ordemMovida := None;
      statusDestino := None;
    }

    /** The `onCancelado` callback: clears the pending transition, cache untouched. */
    method Cancel()
      modifies this
      ensures ordens == old(ordens)
      ensures ordemMovida.None? && statusDestino.None? && !showDialog
    {
      showDialog := false;
      ordemMovida := None;
      statusDestino := None;
    }

    /** Whether the confirmation dialog is mounted. */
    predicate DialogMounted()
      reads this
    {
      showDialog && ordemMovida.Some? && statusDestino.Some?
    }
  }
}
