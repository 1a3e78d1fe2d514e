/**
 * The confirmation dialog shown after a drop: it prefills a message for the
 * target stage, lets the operator attach files (images for `finalizado`, a
 * PDF invoice and a tracking code for `enviado`), posts the notification and,
 * on success, calls its `onConfirmado` callback and closes itself.
 */
module ConfirmDialog {
  import opened Wrappers
  import opened Orders
  import opened Forms
  import opened OrderApi
  import opened Ui
  import Strings

  /** The default message per target stage; the dialog's table has no `feedback` entry. */
  function DefaultText(s: Status): (r: Option<string>)
    ensures r.None? <==> s == Feedback
  {
    match s
    case Novo => Some("Recebemos seu pedido e ele será processado em breve.")
    case Producao => Some("Seu pedido está em produção.")
    case Finalizado => Some("Seu pedido foi finalizado com sucesso.")
    case Enviado => Some("Seu pedido foi enviado. Em breve você receberá os detalhes de rastreio.")
    case Feedback => None
  }

  /** What the template literal prints for the lookup: a missing entry prints "undefined". */
  function DefaultShown(s: Status): string {
    DefaultText(s).GetOr("undefined")
  }

  /** The message template: greeting, blank line, body text, blank line, product line. */
  function Message(cliente: string, produto: string, text: string): string {
    "Olá " + cliente + ",\n\n" + text + "\n\nProduto: " + produto
  }

  /** The initial message for a target stage. */
  function InitialMessage(cliente: string, produto: string, s: Status): string {
    Message(cliente, produto, DefaultShown(s))
  }

  /**
   * For a client, product and body text without line breaks, the message has
   * exactly five lines: the greeting, a blank line, the text, a blank line and
   * the product line.
   */
  lemma MessageLines(cliente: string, produto: string, text: string)
    requires '\n' !in cliente && '\n' !in produto && '\n' !in text
    ensures Strings.Split(Message(cliente, produto, text), '\n')
         == ["Olá " + cliente + ",", "", text, "", "Produto: " + produto]
  {
    var lines := ["Olá " + cliente + ",", "", text, "", "Produto: " + produto];
    MessageJoined(cliente, produto, text);
    FreeAround("Olá ", cliente, ",");
    FreeAround("Produto: ", produto, "");
    assert "Produto: " + produto + "" == "Produto: " + produto;
    Strings.SplitJoin(lines, '\n');
  }

  /** The message is its five lines joined with '\n'. */
  lemma MessageJoined(cliente: string, produto: string, text: string)
    ensures Strings.Join(["Olá " + cliente + ",", "", text, "", "Produto: " + produto], '\n')
         == Message(cliente, produto, text)
  {
    var lines := ["Olá " + cliente + ",", "", text, "", "Produto: " + produto];
    assert lines[3..][1..] == lines[4..];
    assert lines[2..][1..] == lines[3..];
    assert lines[1..][1..] == lines[2..];
    assert lines[0..][1..] == lines[1..];
    var j4 := Strings.Join(lines[4..], '\n');
    assert j4 == "Produto: " + produto;
    var j3 := Strings.Join(lines[3..], '\n');
    assert j3 == "" + ['\n'] + j4;
    var j2 := Strings.Join(lines[2..], '\n');
    assert j2 == text + ['\n'] + j3;
    var j1 := Strings.Join(lines[1..], '\n');
    assert j1 == "" + ['\n'] + j2;
    assert Strings.Join(lines, '\n') == lines[0] + ['\n'] + j1;
  }

  /** Fixed text without a line break around a free piece leaves the whole free of line breaks. */
  lemma FreeAround(pre: string, mid: string, post: string)
    requires '\n' !in pre && '\n' !in mid && '\n' !in post
    ensures '\n' !in pre + mid + post
  {
    var w := pre + mid + post;
    forall k | 0 <= k < |w| ensures w[k] != '\n' {
      if k < |pre| {
        assert w[k] == pre[k];
      } else if k < |pre| + |mid| {
        assert w[k] == mid[k - |pre|];
      } else {
        assert w[k] == post[k - |pre| - |mid|];
      }
    }
  }

  /** The file picker shown for a target stage (images for `finalizado`, PDFs for `enviado`). */
  function PickerAccept(s: Status): (r: Option<string>)
    ensures r.Some? <==> s == Finalizado || s == Enviado
  {
    if s == Finalizado then Some("image/*") else if s == Enviado then Some(".pdf") else None
  }

  /** Whether the tracking-code input is shown. */
  predicate ShowsTrackingInput(s: Status) {
    s == Enviado
  }

  /** The props the board passes on each render. */
  datatype DialogProps = DialogProps(ordemId: string, emailCliente: string, statusDestino: Status, cliente: string, produto: string)

  /**
   * One mounted dialog. The props follow the board's state on every render;
   * `open`, `mensagem`, `arquivos`, `codigoRastreio` and `enviando` are the
   * component's own state, set on mount and kept for as long as it stays mounted.
   */
  class ConfirmarEnvioDialog {
    var ordemId: string
    var emailCliente: string   // "" when the order has no e-mail
    var statusDestino: Status
    var cliente: string
    var produto: string

    var open: bool
    var mensagem: string
    var arquivos: seq<FileRef>
    var codigoRastreio: string
    var enviando: bool

    function Props(): DialogProps
      reads this
    {
      DialogProps(ordemId, emailCliente, statusDestino, cliente, produto)
    }

    /**
     * While the dialog is open, files can only have come from its picker and
     * a code only from its tracking input.
     */
    predicate Valid()
      reads this
    {
      open ==>
        && (PickerAccept(statusDestino).None? ==> arquivos == [])
        && (!ShowsTrackingInput(statusDestino) ==> codigoRastreio == "")
    }

    /** The mount: the `useState` initialisers run once, with the props of that render. */
    constructor(ordemId: string, emailCliente: string, statusDestino: Status, cliente: string, produto: string)
      ensures Valid()
      ensures Props() == DialogProps(ordemId, emailCliente, statusDestino, cliente, produto)
      ensures open && mensagem == InitialMessage(cliente, produto, statusDestino)
      ensures arquivos == [] && codigoRastreio == "" && !enviando
    {
      this.ordemId := ordemId;
      this.emailCliente := emailCliente;
      this.statusDestino := statusDestino;
      this.cliente := cliente;
      this.produto := produto;
      open := true;
      mensagem := InitialMessage(cliente, produto, statusDestino);
      arquivos := [];
      codigoRastreio := "";
      enviando := false;
    }

    /**
     * A later render of the same mounted dialog: the props change, the state
     * does not. The open dialog is modal, so the board can only change what it
     * passes while the dialog is closed.
     */
    method Rerender(p: DialogProps)
      requires !open
      modifies this
      ensures Valid() && Props() == p
      ensures !open && mensagem == old(mensagem) && arquivos == old(arquivos)
      ensures codigoRastreio == old(codigoRastreio) && enviando == old(enviando)
    {
      ordemId, emailCliente, statusDestino, cliente, produto := p.ordemId, p.emailCliente, p.statusDestino, p.cliente, p.produto;
    }

    /** Typing in the message box. */
    method EditMensagem(m: string)
      requires Valid() && open
      modifies this
      ensures Valid() && Props() == old(Props())
      ensures mensagem == m
      ensures open == old(open) && arquivos == old(arquivos) && codigoRastreio == old(codigoRastreio) && enviando == old(enviando)
    {
      mensagem := m;
    }

    /** Typing in the tracking-code input, which exists only for `enviado`. */
    method EditCodigoRastreio(c: string)
      requires Valid() && open && ShowsTrackingInput(statusDestino)
      modifies this
      ensures Valid() && Props() == old(Props())
      ensures codigoRastreio == c
      ensures open == old(open) && mensagem == old(mensagem) && arquivos == old(arquivos) && enviando == old(enviando)
    {
      codigoRastreio := c;
    }

    /**
     * A change event on the picker: a file list replaces the attachments
     * (it does not add to them); an event without a list changes nothing.
     */
    method HandleFileChange(files: Option<seq<FileRef>>)
      requires Valid() && open && PickerAccept(statusDestino).Some?
      modifies this
      ensures Valid() && Props() == old(Props())
      ensures arquivos == (if files.Some? then files.value else old(arquivos))
      ensures open == old(open) && mensagem == old(mensagem) && codigoRastreio == old(codigoRastreio) && enviando == old(enviando)
    {
      if files.Some? {
        arquivos := files.value;
      }
    }

    /** The form `handleEnviar` posts for the current state. */
    function Form(): FormData
      reads this
    {
      NotifyForm(mensagem, statusDestino, emailCliente,
                 if statusDestino == Enviado then codigoRastreio else "", "arquivos", arquivos)
    }

    /**
     * The form carries the tracking code only when the target is `enviado`
     * and the code is non-empty, and carries files only when a picker is shown.
     */
    lemma FormFields()
      requires Valid() && open
      ensures Has(Form(), "codigoRastreamento") <==> statusDestino == Enviado && codigoRastreio != ""
      ensures GetAll(Form(), "arquivos") == Blobs(arquivos)
      ensures PickerAccept(statusDestino).None? ==> !Has(Form(), "arquivos")
    {
      NotifyFormFields(mensagem, statusDestino, emailCliente,
                       if statusDestino == Enviado then codigoRastreio else "", "arquivos", arquivos);
      GetAllEmpty(Form(), "arquivos");
    }

    /**
     * A click on "Enviar e Continuar", a button of the open dialog: while a
     * send is in flight it is disabled and nothing happens; otherwise the form
     * is built, `enviando` is set and the notification is posted.
     */
    method ClickEnviar() returns (request: Option<OrderRequest>)
      requires Valid() && open
      modifies this
      ensures Valid() && Props() == old(Props())
      ensures old(enviando) ==> request.None? && enviando
      ensures !old(enviando) ==> request == Some(PostEnviarEmail(ordemId, old(Form()))) && enviando
      ensures open == old(open) && mensagem == old(mensagem) && arquivos == old(arquivos) && codigoRastreio == old(codigoRastreio)
    {
      if enviando {
        return None;
      }
      var form := BuildNotifyForm(mensagem, statusDestino, emailCliente,
                                  if statusDestino == Enviado then codigoRastreio else "", "arquivos", arquivos);
      enviando := true;
      request := Some(PostEnviarEmail(ordemId, form));
    }

    /**
     * The POST settles. Only on success is `onConfirmado` called (`confirmed`)
     * and the dialog closed; either way `enviando` is cleared.
     */
    method FinishEnviar(outcome: Outcome) returns (confirmed: bool, toast: Toast)
      requires Valid() && enviando
      modifies this
      ensures Valid() && Props() == old(Props())
      ensures confirmed <==> outcome.Ok?
      ensures toast == (if outcome.Ok? then Success("Email enviado com sucesso!") else Error("Erro ao enviar email"))
      ensures open == (old(open) && !outcome.Ok?)
      ensures !enviando
      ensures mensagem == old(mensagem) && arquivos == old(arquivos) && codigoRastreio == old(codigoRastreio)
    {
      if outcome.Ok? {
        toast := Success("Email enviado com sucesso!");
        confirmed := true;
        open := false;
      } else {
        toast := Error("Erro ao enviar email");
        confirmed := false;
      }
      enviando := false;
    }

    /** "Cancelar", the overlay or Escape: `setOpen(false)`; nothing reaches the parent. */
    method Close()
      requires Valid()
      modifies this
      ensures Valid() && Props() == old(Props())
      ensures !open
      ensures mensagem == old(mensagem) && arquivos == old(arquivos) && codigoRastreio == old(codigoRastreio) && enviando == old(enviando)
    {
      open := false;
    }

    /** Whether the send button is disabled. */
    predicate SendDisabled()
      reads this
    {
      enviando
    }
  }
}
