/**
 * The order endpoints the boards and the confirmation dialog call, and the
 * notification form they post to `/orders/{id}/enviar-email`.
 */
module OrderApi {
  import opened Wrappers
  import opened Orders
  import opened Forms

  /** A request, in the order it is issued. */
  datatype OrderRequest =
    | PostEnviarEmail(orderId: string, form: FormData)       // POST /orders/{id}/enviar-email
    | PatchEnviar(orderId: string, codigoRastreamento: Option<string>)  // PATCH /orders/{id}/enviar
    | PatchOrderStatus(orderId: string, status: Status)       // PATCH /orders/{id} with { status }

  /** What a confirmation hands to the board's handler (`data`). */
  datatype Confirmation = Confirmation(mensagem: string, arquivos: Option<seq<FileRef>>, codigoRastreio: Option<string>)

  /**
   * The notification form: mensagem, status, email (or ""), then the tracking
   * code when it is non-empty, then every attachment under `fileKey`.
   */
  function NotifyForm(mensagem: string, s: Status, email: string, codigo: string,
                      fileKey: string, files: seq<FileRef>): FormData
  {
    [Entry("mensagem", Text(mensagem)), Entry("status", Text(StatusKey(s))), Entry("email", Text(email))]
    + (if codigo != "" then [Entry("codigoRastreamento", Text(codigo))] else [])
    + FileEntries(fileKey, files)
  }

  predicate TextKey(k: string) {
    k == "mensagem" || k == "status" || k == "email" || k == "codigoRastreamento"
  }

  /**
   * What the server reads back from the notification form: the three leading
   * fields, the tracking code exactly when it is non-empty, and every file in
   * selection order under `fileKey`.
   */
  lemma NotifyFormFields(mensagem: string, s: Status, email: string, codigo: string,
                         fileKey: string, files: seq<FileRef>)
    requires !TextKey(fileKey)
    ensures var form := NotifyForm(mensagem, s, email, codigo, fileKey, files);
      && form[..3] == [Entry("mensagem", Text(mensagem)), Entry("status", Text(StatusKey(s))), Entry("email", Text(email))]
      && (Has(form, "codigoRastreamento") <==> codigo != "")
      && GetAll(form, "codigoRastreamento") == (if codigo != "" then [Text(codigo)] else [])
      && GetAll(form, fileKey) == Blobs(files)
      && |form| == 3 + (if codigo != "" then 1 else 0) + |files|
  {
    var head := [Entry("mensagem", Text(mensagem)), Entry("status", Text(StatusKey(s))), Entry("email", Text(email))];
    var code: FormData := if codigo != "" then [Entry("codigoRastreamento", Text(codigo))] else [];
    var form := NotifyForm(mensagem, s, email, codigo, fileKey, files);
    assert form == head + code + FileEntries(fileKey, files);
    GetAllAppend(head + code, FileEntries(fileKey, files), "codigoRastreamento");
    GetAllAppend(head, code, "codigoRastreamento");
    GetAllAppend(head + code, FileEntries(fileKey, files), fileKey);
    GetAllAppend(head, code, fileKey);
    GetAllOtherKey(files, [], fileKey, "codigoRastreamento");
    GetAllFiles(files, fileKey);
    GetAllEmpty(head, "codigoRastreamento");
    GetAllEmpty(head, fileKey);
    assert GetAll(code, fileKey) == [] by {
      if codigo != "" { assert code[1..] == []; }
    }
    assert GetAll(code, "codigoRastreamento") == (if codigo != "" then [Text(codigo)] else []) by {
      if codigo != "" { assert code[1..] == []; }
    }
    GetAllEmpty(form, "codigoRastreamento");
  }

  /** The statements that fill the notification form, one `append` at a time. */
  method BuildNotifyForm(mensagem: string, s: Status, email: string, codigo: string,
                         fileKey: string, files: seq<FileRef>) returns (form: FormData)
    ensures form == NotifyForm(mensagem, s, email, codigo, fileKey, files)
  {
    form := [Entry("mensagem", Text(mensagem))];
    form := form + [Entry("status", Text(StatusKey(s)))];
    form := form + [Entry("email", Text(email))];
    if codigo != "" {
      form := form + [Entry("codigoRastreamento", Text(codigo))];
    }
    form := AppendFiles(form, fileKey, files);
  }

  /** `id.slice(-6)`: the last six characters, or the whole id when shorter. */
  function LastSix(id: string): (r: string)
    ensures |r| == (if |id| < 6 then |id| else 6)
    ensures id == id[..|id| - |r|] + r
  {
    if |id| < 6 then id else id[|id| - 6..]
  }

  /** The success toast after a move: `Pedido #{last six} movido para "{status}" com sucesso!`. */
  function MovedToastText(id: string, s: Status): string {
    "Pedido #" + LastSix(id) + " movido para \"" + StatusKey(s) + "\" com sucesso!"
  }
}
