/**
 * The order details dialog: a form seeded from the order (observations as
 * one text with a line per entry, a default e-mail message), edited field by
 * field, whose save issues a PATCH with the edited fields.
 */
module OrderDetails {
  import opened Wrappers
  import opened Strings
  import opened Js
  import opened Ui

  /** The observation lines joined with '\n', or "" when there are none. */
  function ObservationText(observacao: Option<seq<string>>): (r: string)
    ensures observacao.None? || observacao.value == [] ==> r == ""
  {
    if observacao.None? then "" else Join(observacao.value, '\n')
  }

  /**
   * Saving splits the text again: unedited lines without '\n' come back as
   * they were, while an absent or empty list comes back as one empty line.
   */
  lemma ObservationRoundTrip(observacao: Option<seq<string>>)
    ensures observacao.Some? && |observacao.value| >= 1 && NoneContains(observacao.value, '\n') ==>
              Split(ObservationText(observacao), '\n') == observacao.value
    ensures observacao.None? || observacao.value == [] ==> Split(ObservationText(observacao), '\n') == [""]
  {
    if observacao.Some? && |observacao.value| >= 1 && NoneContains(observacao.value, '\n') {
      SplitJoin(observacao.value, '\n');
    }
  }

  /** The default e-mail message seeded into the form. */
  function DefaultEmailMessage(cliente: string): string {
    "Olá " + cliente + ",\n\nSeu pedido foi atualizado para o status correspondente.\nObrigado por comprar conosco!"
  }

  /** What the date input shows: the part before any 'T', or "" without a date. */
  function DateInputValue(previsao: Value): (r: string)
    ensures 'T' !in r
    ensures previsao.Str? ==> r <= previsao.s
    ensures previsao.Str? && 'T' !in previsao.s ==> r == previsao.s
  {
    if previsao.Str? then
      SplitFirstPrefix(previsao.s, 'T');
      Split(previsao.s, 'T')[0]
    else ""
  }

  /** The body of the PATCH `handleUpdate` sends. */
  datatype UpdatePayload = UpdatePayload(
    cliente: Value, email: Value, telefone: Value, endereco: Value,
    observacao: seq<string>, frete: Number, pintor: Value, valorUnitario: Number,
    previsaoEntrega: Value, mensagemEmail: Value)

  function Payload(form: Record, parse: string -> Option<real>): UpdatePayload
    requires Get(form, "observacaoTexto").Str?
  {
    UpdatePayload(
      Get(form, "cliente"), Get(form, "email"), Get(form, "telefone"), Get(form, "endereco"),
      Split(Get(form, "observacaoTexto").s, '\n'),
      ToNumber(Get(form, "frete"), parse), Get(form, "pintor"),
      ToNumber(Get(form, "valorUnitario"), parse),
      Get(form, "previsaoEntrega"), Get(form, "mensagemEmail"))
  }

  /**
   * The total shown in the dialog: freight plus unit price, each through
   * `Number(...) || 0`. It agrees with the saved amounts when both are
   * numbers; a non-numeric one counts as 0 on screen but is saved as NaN.
   */
  function DisplayedTotal(form: Record, parse: string -> Option<real>): (r: real)
    ensures var f, v := ToNumber(Get(form, "frete"), parse), ToNumber(Get(form, "valorUnitario"), parse);
      && (f.Real? && v.Real? ==> r == f.r + v.r)
      && (f.NaN? && v.Real? ==> r == v.r)
      && (f.Real? && v.NaN? ==> r == f.r)
      && (f.NaN? && v.NaN? ==> r == 0.0)
  {
    ToNumber(Get(form, "frete"), parse).OrZero() + ToNumber(Get(form, "valorUnitario"), parse).OrZero()
  }

  lemma DisplayedTotalMatchesPayload(form: Record, parse: string -> Option<real>)
    requires Get(form, "observacaoTexto").Str?
    ensures var p := Payload(form, parse);
      p.frete.Real? && p.valorUnitario.Real? ==> DisplayedTotal(form, parse) == p.frete.r + p.valorUnitario.r
  {
  }

  datatype Painter = Geraldo | Juliano

  function PainterName(p: Painter): string {
    match p
    case Geraldo => "Geraldo"
    case Juliano => "Juliano"
  }

  datatype UpdateRequest = PatchOrder(orderId: string, payload: UpdatePayload)

  class VerDetalhesDialog {
    const ordemId: string
    var form: Record
    var loading: bool

    /** The observation text is always a string, so the save can split it. */
    predicate Valid()
      reads this
    {
      Get(form, "observacaoTexto").Str?
    }

    constructor(ordemId: string, cliente: string, fields: Record, observacao: Option<seq<string>>)
      ensures Valid()
      ensures this.ordemId == ordemId && !loading
      ensures form == fields["cliente" := Str(cliente)]
                            ["observacaoTexto" := Str(ObservationText(observacao))]
                            ["mensagemEmail" := Str(DefaultEmailMessage(cliente))]
    {
      this.ordemId := ordemId;
      form := fields["cliente" := Str(cliente)]
                    ["observacaoTexto" := Str(ObservationText(observacao))]
                    ["mensagemEmail" := Str(DefaultEmailMessage(cliente))];
      loading := false;
    }

    /** `handleChange(name, value)`: only the named field changes. */
    method HandleChange(name: string, value: string)
      requires Valid()
      modifies this
      ensures Valid()
      ensures Get(form, name) == Str(value)
      ensures forall k :: k != name ==> Get(form, k) == Get(old(form), k)
      ensures loading == old(loading)
    {
      form := form[name := Str(value)];
    }

    /** Whether the radio for `p` is checked. */
    predicate Checked(p: Painter)
      reads this
    {
      Get(form, "pintor") == Str(PainterName(p))
    }

    /** A painter radio: sets `pintor` and nothing else; exactly that radio is then checked. */
    method PickPainter(p: Painter)
      requires Valid()
      modifies this
      ensures Valid()
      ensures forall k :: k != "pintor" ==> Get(form, k) == Get(old(form), k)
      ensures forall q :: Checked(q) <==> q == p
      ensures loading == old(loading)
    {
      form := form["pintor" := Str(PainterName(p))];
    }

    /**
     * A click on "Salvar Alterações": disabled while a save is in flight;
     * otherwise `loading` is set and the PATCH is issued with the payload.
     */
    method ClickSave(parse: string -> Option<real>) returns (request: Option<UpdateRequest>)
      requires Valid()
      modifies this
      ensures Valid()
      ensures form == old(form) && loading
      ensures old(loading) ==> request.None?
      ensures !old(loading) ==> request == Some(PatchOrder(ordemId, Payload(form, parse)))
    {
      if loading {
        return None;
      }
      loading := true;
      request := Some(PatchOrder(ordemId, Payload(form, parse)));
    }

    /** The PATCH settles; `loading` is cleared either way. */
    method FinishSave(outcome: Outcome) returns (toast: Toast)
      requires Valid()
      modifies this
      ensures Valid()
      ensures form == old(form) && !loading
      ensures toast == (if outcome.Ok? then Success("Ordem atualizada com sucesso") else Error("Erro ao atualizar a ordem"))
    {
      toast := if outcome.Ok? then Success("Ordem atualizada com sucesso") else Error("Erro ao atualizar a ordem");
      loading := false;
    }
  }
}
