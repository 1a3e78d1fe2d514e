/**
 * The "new order" dialog: a loosely typed form edited field by field, with
 * the total recomputed from freight and unit price, a list of product images
 * kept side by side with their preview URLs, and the multipart form it posts
 * to `/orders/com-imagem`.
 */
module CreateOrder {
  import opened Wrappers
  import opened Strings
  import opened Js
  import opened Forms
  import opened Ui
  import Format

  // ---------------------------------------------------------------------------
  // Value helpers

  /** `v || 0`. */
  function OrZero(v: Value): (r: Value)
    ensures Truthy(v) ==> r == v
    ensures !Truthy(v) ==> r == Num(Real(0.0))
  {
    if Truthy(v) then v else Num(Real(0.0))
  }

  /**
   * The total the form would show for its current freight and unit price:
   * each parsed with `parseFloat`, a missing or empty one counting as 0.
   */
  function TotalOf(form: Record, parse: string -> Option<real>): Number {
    ParseFloat(OrZero(Get(form, "frete")), parse).Plus(ParseFloat(OrZero(Get(form, "valorUnitario")), parse))
  }

  /** `arr.filter((_, i) => i !== index)`. */
  function RemoveAt<T>(s: seq<T>, index: int): (r: seq<T>)
    ensures 0 <= index < |s| ==> |r| == |s| - 1
                                 && (forall j :: 0 <= j < index ==> r[j] == s[j])
                                 && (forall j :: index <= j < |r| ==> r[j] == s[j + 1])
    ensures !(0 <= index < |s|) ==> r == s
  {
    if 0 <= index < |s| then s[..index] + s[index + 1..] else s
  }

  // ---------------------------------------------------------------------------
  // The posted form

  /** The fields copied into the form when they are neither undefined nor null, in this order. */
  const ScalarKeys: seq<string> :=
    ["cliente", "email", "telefone", "endereco", "produto", "frete", "tipoFrete", "valorUnitario", "valorTotal", "urgente"]

  predicate Defined(v: Value) {
    !v.Undefined? && !v.Null?
  }

  function ScalarEntry(form: Record, key: string, numText: real -> string): FormData {
    if Defined(Get(form, key)) then [Entry(key, Text(ToString(Get(form, key), numText)))] else []
  }

  function ScalarEntries(form: Record, keys: seq<string>, numText: real -> string): FormData
    decreases |keys|
  {
    if keys == [] then [] else ScalarEntry(form, keys[0], numText) + ScalarEntries(form, keys[1..], numText)
  }

  lemma {:induction false} ScalarEntriesAppend(form: Record, keys: seq<string>, key: string, numText: real -> string)
    ensures ScalarEntries(form, keys + [key], numText) == ScalarEntries(form, keys, numText) + ScalarEntry(form, key, numText)
    decreases |keys|
  {
    if keys == [] {
      assert [key][1..] == [];
    } else {
      assert (keys + [key])[1..] == keys[1..] + [key];
      ScalarEntriesAppend(form, keys[1..], key, numText);
    }
  }

  /**
   * A listed key is in the form exactly when its value is defined, with its
   * string value; no unlisted key is.
   */
  lemma {:induction false} ScalarEntriesKeys(form: Record, keys: seq<string>, numText: real -> string, k: string)
    requires forall i, j :: 0 <= i < j < |keys| ==> keys[i] != keys[j]
    ensures GetAll(ScalarEntries(form, keys, numText), k)
         == (if k in keys && Defined(Get(form, k)) then [Text(ToString(Get(form, k), numText))] else [])
    decreases |keys|
  {
    if keys != [] {
      var head, tail := ScalarEntry(form, keys[0], numText), ScalarEntries(form, keys[1..], numText);
      assert ScalarEntries(form, keys, numText) == head + tail;
      ScalarEntriesKeys(form, keys[1..], numText, k);
      GetAllAppend(head, tail, k);
      ScalarEntryKey(form, keys[0], numText, k);
      assert k in keys <==> k == keys[0] || k in keys[1..] by { assert keys == [keys[0]] + keys[1..]; }
      if k == keys[0] {
        assert k !in keys[1..];
      }
    }
  }

  /** One listed key contributes its own string value when defined, and nothing under another key. */
  lemma ScalarEntryKey(form: Record, key: string, numText: real -> string, k: string)
    ensures GetAll(ScalarEntry(form, key, numText), k)
         == (if k == key && Defined(Get(form, k)) then [Text(ToString(Get(form, k), numText))] else [])
  {
    if Defined(Get(form, key)) {
      assert ScalarEntry(form, key, numText)[1..] == [];
    }
  }

  /** A key outside the list is never in the scalar part. */
  lemma {:induction false} ScalarEntriesAbsent(form: Record, keys: seq<string>, numText: real -> string, k: string)
    requires k !in keys
    ensures GetAll(ScalarEntries(form, keys, numText), k) == []
    decreases |keys|
  {
    if keys != [] {
      assert k !in keys[1..];
      ScalarEntriesAbsent(form, keys[1..], numText, k);
      GetAllAppend(ScalarEntry(form, keys[0], numText), ScalarEntries(form, keys[1..], numText), k);
    }
  }

  /** The `forEach` over the key list. */
  method AppendScalars(form: Record, keys: seq<string>, numText: real -> string) returns (r: FormData)
    ensures r == ScalarEntries(form, keys, numText)
  {
    r := [];
    var i := 0;
    while i < |keys|
      invariant 0 <= i <= |keys|
      invariant r == ScalarEntries(form, keys[..i], numText)
    {
      var key := keys[i];
      var v := Get(form, key);
      if Defined(v) {
        r := r + [Entry(key, Text(ToString(v, numText)))];
      }
      ScalarEntriesAppend(form, keys[..i], key, numText);
      assert keys[..i + 1] == keys[..i] + [key];
      i := i + 1;
    }
    assert keys[..i] == keys;
  }

  /** Piece `i` of a split as a template literal prints it (a missing piece prints "undefined"). */
  function PieceOr(pieces: seq<string>, i: nat): string {
    if i < |pieces| then pieces[i] else "undefined"
  }

  /** The delivery estimate as submitted: a value with '/' is rewritten day-first to year-first. */
  function SubmittedDate(s: string): string {
    if '/' in s then
      var pieces := Split(s, '/');
      PieceOr(pieces, 2) + "-" + PieceOr(pieces, 1) + "-" + PieceOr(pieces, 0)
    else s
  }

  /** What the date input displays: `split("/").reverse().join("-")`, or the part before 'T'. */
  function DateInputValue(s: string): string {
    if s == "" then ""
    else if '/' in s then Join(Reverse(Split(s, '/')), '-')
    else Split(s, 'T')[0]
  }

  function Reverse<T>(s: seq<T>): (r: seq<T>)
    ensures |r| == |s| && forall i :: 0 <= i < |s| ==> r[i] == s[|s| - 1 - i]
  {
    seq(|s|, i requires 0 <= i < |s| => s[|s| - 1 - i])
  }

  /** A DD/MM/YYYY value is submitted as YYYY-MM-DD. */
  lemma SubmittedDateBrazilian(s: string)
    requires Format.BrazilianExact(s)
    ensures SubmittedDate(s) == s[6..] + "-" + s[3..5] + "-" + s[..2]
  {
    Format.BrazilianPieces(s);
    assert s[2] == '/';
  }

  /** Joining three pieces puts the separator between them. */
  lemma JoinThree(a: string, b: string, c: string, sep: char)
    ensures Join([a, b, c], sep) == a + [sep] + b + [sep] + c
  {
    assert [b, c][1..] == [c];
    assert Join([b, c], sep) == b + [sep] + c;
    assert [a, b, c][1..] == [b, c];
  }

  /**
   * For a value of three '/'-separated pieces, the date input shows exactly
   * the string that is submitted.
   */
  lemma DateInputMatchesSubmitted(s: string)
    requires |Split(s, '/')| == 3
    ensures DateInputValue(s) == SubmittedDate(s)
  {
    var p := Split(s, '/');
    assert '/' in s by {
      if '/' !in s { SplitFree(s, '/'); }
    }
    assert Reverse(p) == [p[2], p[1], p[0]];
    JoinThree(p[2], p[1], p[0], '-');
  }

  /** The submitted DD/MM/YYYY date is recognised by the date formatter with the same fields. */
  lemma SubmittedDateRecognised(s: string)
    requires Format.BrazilianExact(s)
    ensures Format.IsoPrefix(SubmittedDate(s)) && |SubmittedDate(s)| == 10
    ensures Format.FormatDate(Some(SubmittedDate(s))) == Format.FormatDate(Some(s))
  {
    SubmittedDateBrazilian(s);
    var iso := SubmittedDate(s);
    assert iso[..4] == s[6..] && iso[5..7] == s[3..5] && iso[8..10] == s[..2];
    Format.FormatDateIsoExact(iso);
  }

  /** The part of the form after the listed keys, up to the observations. */
  function ExtraEntries(form: Record, numText: real -> string): Option<FormData> {
    var nome, descricao, previsao := Get(form, "nome"), Get(form, "descricao"), Get(form, "previsaoEntrega");
    var head := (if Truthy(nome) then [Entry("cliente", Text(ToString(nome, numText)))] else [])
              + (if Truthy(descricao) then [Entry("produto", Text(ToString(descricao, numText)))] else []);
    if !Truthy(previsao) then Some(head)
    else if previsao.Str? then Some(head + [Entry("previsaoEntrega", Text(SubmittedDate(previsao.s)))])
    else None   // `.includes` on a non-string throws
  }

  /**
   * The multipart form `criarPedido` builds, or None when building it throws
   * (observations that are not a string, an estimate that is not a string).
   */
  function CreateForm(form: Record, imagens: seq<FileRef>, numText: real -> string): Option<FormData> {
    var obs := Get(form, "observacaoTexto");
    match ExtraEntries(form, numText)
    case None => None
    case Some(extra) =>
      if !obs.Str? then None
      else Some(ScalarEntries(form, ScalarKeys, numText) + extra
                + TextEntries("observacao", Split(obs.s, '\n'))
                + FileEntries("imagens", imagens)
                + [Entry("status", Text("novo"))])
  }

  /** The listed and extra fields never use the observation, image or status keys. */
  lemma PrefixLacks(form: Record, numText: real -> string, k: string)
    requires k == "observacao" || k == "imagens" || k == "status"
    requires ExtraEntries(form, numText).Some?
    ensures GetAll(ScalarEntries(form, ScalarKeys, numText) + ExtraEntries(form, numText).value, k) == []
  {
    var scalars, extra := ScalarEntries(form, ScalarKeys, numText), ExtraEntries(form, numText).value;
    GetAllAppend(scalars, extra, k);
    NotListed(k);
    ScalarEntriesAbsent(form, ScalarKeys, numText, k);
    ExtraLacks(form, numText, k);
  }

  lemma ExtraLacks(form: Record, numText: real -> string, k: string)
    requires k == "observacao" || k == "imagens" || k == "status"
    requires ExtraEntries(form, numText).Some?
    ensures GetAll(ExtraEntries(form, numText).value, k) == []
  {
    var extra := ExtraEntries(form, numText).value;
    ExtraKeys(form, numText);
    forall i | 0 <= i < |extra| ensures extra[i].key != k {
      assert extra[i].key in {"cliente", "produto", "previsaoEntrega"};
    }
    GetAllEmpty(extra, k);
  }

  lemma NotListed(k: string)
    requires k == "observacao" || k == "imagens" || k == "status"
    ensures k !in ScalarKeys
  {
  }

  lemma ExtraKeys(form: Record, numText: real -> string)
    requires ExtraEntries(form, numText).Some?
    ensures forall i :: 0 <= i < |ExtraEntries(form, numText).value| ==>
              ExtraEntries(form, numText).value[i].key in {"cliente", "produto", "previsaoEntrega"}
  {
  }

  lemma GetAll4(a: FormData, b: FormData, c: FormData, d: FormData, k: string)
    ensures GetAll(a + b + c + d, k) == GetAll(a, k) + GetAll(b, k) + GetAll(c, k) + GetAll(d, k)
  {
    GetAllAppend(a + b + c, d, k);
    GetAllAppend(a + b, c, k);
    GetAllAppend(a, b, k);
  }

  /** A built form is the listed and extra fields, then observations, images and the status. */
  lemma CreateFormShape(form: Record, imagens: seq<FileRef>, numText: real -> string)
    requires CreateForm(form, imagens, numText).Some?
    ensures ExtraEntries(form, numText).Some? && Get(form, "observacaoTexto").Str?
    ensures CreateForm(form, imagens, numText).value
            == ScalarEntries(form, ScalarKeys, numText) + ExtraEntries(form, numText).value
               + TextEntries("observacao", Split(Get(form, "observacaoTexto").s, '\n'))
               + FileEntries("imagens", imagens)
               + [Entry("status", Text("novo"))]
  {
  }

  /** A form laid out as `criarPedido` lays it out, after a prefix without the three keys. */
  predicate BuiltAfter(f: FormData, a: FormData, lines: seq<string>, imagens: seq<FileRef>) {
    && f == a + TextEntries("observacao", lines) + FileEntries("imagens", imagens) + [Entry("status", Text("novo"))]
    && GetAll(a, "observacao") == [] && GetAll(a, "imagens") == [] && GetAll(a, "status") == []
  }

  /** Such a form carries one `observacao` entry per line. */
  lemma BuiltLines(f: FormData, a: FormData, lines: seq<string>, imagens: seq<FileRef>)
    requires BuiltAfter(f, a, lines, imagens)
    ensures GetAll(f, "observacao") == seq(|lines|, i requires 0 <= i < |lines| => Text(lines[i]))
  {
    BuiltLinesEntries(f, a, lines, imagens);
    GetAllTexts(lines, "observacao");
  }

  lemma BuiltLinesEntries(f: FormData, a: FormData, lines: seq<string>, imagens: seq<FileRef>)
    requires BuiltAfter(f, a, lines, imagens)
    ensures GetAll(f, "observacao") == GetAll(TextEntries("observacao", lines), "observacao")
  {
    var t, fe, st := TextEntries("observacao", lines), FileEntries("imagens", imagens), [Entry("status", Text("novo"))];
    GetAll4(a, t, fe, st, "observacao");
    GetAllOtherKey(imagens, [], "imagens", "observacao");
    assert GetAll(st, "observacao") == [];
  }

  /** Such a form carries the images under `imagens`, in order. */
  lemma BuiltImages(f: FormData, a: FormData, lines: seq<string>, imagens: seq<FileRef>)
    requires BuiltAfter(f, a, lines, imagens)
    ensures GetAll(f, "imagens") == Blobs(imagens)
  {
    var t, fe, st := TextEntries("observacao", lines), FileEntries("imagens", imagens), [Entry("status", Text("novo"))];
    GetAll4(a, t, fe, st, "imagens");
    GetAllOtherKey([], lines, "observacao", "imagens");
    assert GetAll(st, "imagens") == [];
    GetAllFiles(imagens, "imagens");
  }

  /** Such a form carries the status once, as "novo". */
  lemma BuiltStatus(f: FormData, a: FormData, lines: seq<string>, imagens: seq<FileRef>)
    requires BuiltAfter(f, a, lines, imagens)
    ensures GetAll(f, "status") == [Text("novo")]
  {
    var t, fe, st := TextEntries("observacao", lines), FileEntries("imagens", imagens), [Entry("status", Text("novo"))];
    GetAll4(a, t, fe, st, "status");
    GetAllOtherKey([], lines, "observacao", "status");
    GetAllOtherKey(imagens, [], "imagens", "status");
  }

  /**
   * The observations arrive as one `observacao` entry per line, and joining
   * them back with '\n' gives the text that was typed; the images follow
   * under `imagens` and the status is always "novo".
   */
  lemma CreateFormObservations(form: Record, imagens: seq<FileRef>, numText: real -> string)
    requires CreateForm(form, imagens, numText).Some?
    ensures var f := CreateForm(form, imagens, numText).value;
      var lines := Split(Get(form, "observacaoTexto").s, '\n');
      && GetAll(f, "observacao") == seq(|lines|, i requires 0 <= i < |lines| => Text(lines[i]))
      && Join(lines, '\n') == Get(form, "observacaoTexto").s
      && GetAll(f, "status") == [Text("novo")]
      && GetAll(f, "imagens") == Blobs(imagens)
  {
    var obs := Get(form, "observacaoTexto").s;
    var a := ScalarEntries(form, ScalarKeys, numText) + ExtraEntries(form, numText).value;
    CreateFormShape(form, imagens, numText);
    PrefixLacks(form, numText, "observacao");
    PrefixLacks(form, numText, "imagens");
    PrefixLacks(form, numText, "status");
    assert BuiltAfter(CreateForm(form, imagens, numText).value, a, Split(obs, '\n'), imagens);
    BuiltLines(CreateForm(form, imagens, numText).value, a, Split(obs, '\n'), imagens);
    BuiltImages(CreateForm(form, imagens, numText).value, a, Split(obs, '\n'), imagens);
    BuiltStatus(CreateForm(form, imagens, numText).value, a, Split(obs, '\n'), imagens);
    JoinSplit(obs, '\n');
  }

  /** The statements of `criarPedido` that fill the form. */
  method BuildCreateForm(form: Record, imagens: seq<FileRef>, numText: real -> string) returns (r: Option<FormData>)
    ensures r == CreateForm(form, imagens, numText)
  {
    var scalars := AppendScalars(form, ScalarKeys, numText);
    var nome, descricao, previsao := Get(form, "nome"), Get(form, "descricao"), Get(form, "previsaoEntrega");
    var extra: FormData := (if Truthy(nome) then [Entry("cliente", Text(ToString(nome, numText)))] else [])
                         + (if Truthy(descricao) then [Entry("produto", Text(ToString(descricao, numText)))] else []);
    if Truthy(previsao) {
      if !previsao.Str? {
        return None;
      }
      extra := extra + [Entry("previsaoEntrega", Text(SubmittedDate(previsao.s)))];
    }
    assert ExtraEntries(form, numText) == Some(extra);
    var obs := Get(form, "observacaoTexto");
    if !obs.Str? {
      return None;
    }
    var f := AppendTexts(scalars + extra, "observacao", Split(obs.s, '\n'));
    f := AppendFiles(f, "imagens", imagens);
    f := f + [Entry("status", Text("novo"))];
    r := Some(f);
  }

  // ---------------------------------------------------------------------------
  // The dialog

  class CriarPedidoDialog {
    var open: bool
    var form: Record
    var imagens: seq<FileRef>
    var imagemPreviaUrls: seq<string>
    var enviando: bool
    var mostrarLoading: bool

    /** Every image has its preview URL at the same position. */
    predicate Valid()
      reads this
    {
      |imagens| == |imagemPreviaUrls|
    }

    constructor()
      ensures Valid()
      ensures !open && form == map["urgente" := Bool(false)] && imagens == [] && imagemPreviaUrls == []
      ensures !enviando && !mostrarLoading
    {
      open := false;
      form := map["urgente" := Bool(false)];
      imagens := [];
      imagemPreviaUrls := [];
      enviando := false;
      mostrarLoading := false;
    }

    /**
     * `handleChange(name, value)`: sets the named field; editing the freight
     * or the unit price also recomputes `valorTotal` (an emptied field parses
     * as NaN, the other one counts 0 when empty).
     */
    method HandleChange(name: string, value: string, parse: string -> Option<real>)
      requires Valid()
      modifies this
      ensures Valid()
      ensures Get(form, name) == Str(value)
      ensures forall k :: k != name && k != "valorTotal" ==> Get(form, k) == Get(old(form), k)
      ensures name != "frete" && name != "valorUnitario" ==> form == old(form)[name := Str(value)]
      ensures (name == "frete" || name == "valorUnitario") && value != "" ==>
                Get(form, "valorTotal") == Num(TotalOf(form, parse))
      ensures (name == "frete" || name == "valorUnitario") && value == "" ==>
                Get(form, "valorTotal") == Num(NaN)
      ensures imagens == old(imagens) && imagemPreviaUrls == old(imagemPreviaUrls)
      ensures open == old(open) && enviando == old(enviando) && mostrarLoading == old(mostrarLoading)
    {
      var updated := form[name := Str(value)];
      if name == "frete" || name == "valorUnitario" {
        var frete := ParseFloat(if name == "frete" then Str(value) else OrZero(Get(updated, "frete")), parse);
        var valor := ParseFloat(if name == "valorUnitario" then Str(value) else OrZero(Get(updated, "valorUnitario")), parse);
        updated := updated["valorTotal" := Num(frete.Plus(valor))];
      }
      form := updated;
    }

    /** The "urgente" checkbox. */
    method SetUrgente(checked: bool)
      requires Valid()
      modifies this
      ensures Valid()
      ensures form == old(form)["urgente" := Bool(checked)]
      ensures imagens == old(imagens) && imagemPreviaUrls == old(imagemPreviaUrls)
      ensures open == old(open) && enviando == old(enviando) && mostrarLoading == old(mostrarLoading)
    {
      form := form["urgente" := Bool(checked)];
    }

    /**
     * `handleImageChange`: the picked files are appended, each with the
     * preview URL created for it (`urls`), so both lists grow alike.
     */
    method HandleImageChange(files: seq<FileRef>, urls: seq<string>)
      requires Valid() && |urls| == |files|
      modifies this
      ensures Valid()
      ensures imagens == old(imagens) + files && imagemPreviaUrls == old(imagemPreviaUrls) + urls
      ensures form == old(form) && open == old(open) && enviando == old(enviando) && mostrarLoading == old(mostrarLoading)
    {
      imagens := imagens + files;
      imagemPreviaUrls := imagemPreviaUrls + urls;
    }

    /** `handleImageDelete(index)`: drops position `index` from both lists. */
    method HandleImageDelete(index: int)
      requires Valid()
      modifies this
      ensures Valid()
      ensures imagens == RemoveAt(old(imagens), index) && imagemPreviaUrls == RemoveAt(old(imagemPreviaUrls), index)
      ensures form == old(form) && open == old(open) && enviando == old(enviando) && mostrarLoading == old(mostrarLoading)
    {
      imagens := RemoveAt(imagens, index);
      imagemPreviaUrls := RemoveAt(imagemPreviaUrls, index);
    }

    /**
     * A click on "Criar Pedido". While a creation is in flight nothing
     * happens. Otherwise both flags are set and the form is built; if building
     * it throws, the error toast shows and both flags are cleared at once;
     * else the POST is issued and the flags stay set until it settles.
     */
    method ClickCriar(numText: real -> string) returns (request: Option<FormData>, toast: Option<Toast>)
      requires Valid()
      modifies this
      ensures Valid()
      ensures old(enviando) ==> request.None? && toast.None? && enviando && mostrarLoading == old(mostrarLoading)
      ensures !old(enviando) ==> request == CreateForm(form, imagens, numText)
      ensures !old(enviando) && request.Some? ==> enviando && mostrarLoading && toast.None?
      ensures !old(enviando) && request.None? ==> !enviando && !mostrarLoading && toast == Some(Error("Erro ao criar pedido"))
      ensures form == old(form) && imagens == old(imagens) && imagemPreviaUrls == old(imagemPreviaUrls) && open == old(open)
    {
      toast := None;
      if enviando {
        return None, None;
      }
      enviando := true;
      mostrarLoading := true;
      request := BuildCreateForm(form, imagens, numText);
      if request.None? {
        toast := Some(Error("Erro ao criar pedido"));
        enviando := false;
        mostrarLoading := false;
      }
    }

    /** The POST settles: success closes the dialog; both flags are cleared either way. */
    method FinishCriar(outcome: Outcome) returns (toast: Toast)
      requires Valid() && enviando
      modifies this
      ensures Valid()
      ensures !enviando && !mostrarLoading
      ensures outcome.Ok? ==> !open && toast == Success("Pedido criado com sucesso!")
      ensures outcome.Fail? ==> open == old(open) && toast == Error("Erro ao criar pedido")
      ensures form == old(form) && imagens == old(imagens) && imagemPreviaUrls == old(imagemPreviaUrls)
    {
      if outcome.Ok? {
        toast := Success("Pedido criado com sucesso!");
        open := false;
      } else {
        toast := Error("Erro ao criar pedido");
      }
      enviando := false;
      mostrarLoading := false;
    }

    /** Whether the create button is disabled. */
    predicate CreateDisabled()
      reads this
    {
      enviando
    }
  }
}
