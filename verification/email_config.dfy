/**
 * The dialog that configures the sender address of the notification
 * e-mails: opening it loads the stored address and whether a password is
 * stored; saving checks the two fields and posts them.
 */
module EmailConfig {
  import opened Wrappers
  import Js
  import opened Ui

  /** What `GET /email-config` answers: the address and the stored-password flag, as loosely typed values. */
  datatype StoredConfig = StoredConfig(email: Js.Value, hasPassword: Js.Value)

  /** The body of `POST /email-config`. */
  datatype ConfigPost = ConfigPost(email: string, password: string)

  /** A failed save, with the server's `message` ("" when absent). */
  datatype SaveResult = Saved | Rejected(serverMessage: string)

  /**
   * The checks of `salvarConfig`, in order: an address is required, and a
   * password is required only when none is stored. None means the form may be sent.
   */
  function Validate(email: string, password: string, hasPassword: bool): (e: Option<string>)
    ensures e.None? <==> email != "" && (hasPassword || password != "")
    ensures email == "" ==> e == Some("Por favor, informe um e-mail")
    ensures email != "" && !hasPassword && password == "" ==> e == Some("Por favor, informe uma senha")
  {
    if email == "" then Some("Por favor, informe um e-mail")
    else if !hasPassword && password == "" then Some("Por favor, informe uma senha")
    else None
  }

  /** The save failure's text: the server's message, or a fixed one. */
  function SaveErrorText(serverMessage: string): (t: string)
    ensures t != ""
    ensures serverMessage != "" ==> t == serverMessage
  {
    if serverMessage != "" then serverMessage else "Erro ao salvar configuração"
  }

  class EmailConfigDialog {
    var email: string
    var password: string
    var hasPassword: bool
    var open: bool
    var loading: bool

    constructor ()
      ensures email == "" && password == "" && !hasPassword && !open && !loading
    {
      email := "";
      password := "";
      hasPassword := false;
      open := false;
      loading := false;
    }

    /** The trigger opens the dialog, and the effect starts loading the stored configuration. */
    method OpenDialog()
      modifies this
      ensures open && loading
      ensures email == old(email) && password == old(password) && hasPassword == old(hasPassword)
    {
      open := true;
      loading := true;
    }

    /**
     * The load settles: a stored configuration sets the address (or ""), the
     * flag (by truthiness) and clears the password field; a failure only
     * shows a toast. Loading ends either way.
     */
    method FinishLoad(result: Option<StoredConfig>) returns (toast: Option<Toast>)
      modifies this
      ensures !loading && open == old(open)
      ensures result.Some? ==>
                email == (if Js.Truthy(result.value.email) then Js.StrOrEmpty(result.value.email) else "")
                && hasPassword == Js.Truthy(result.value.hasPassword) && password == "" && toast.None?
      ensures result.None? ==>
                email == old(email) && password == old(password) && hasPassword == old(hasPassword)
                && toast == Some(Error("Erro ao carregar configuração de e-mail"))
    {
      toast := None;
      if result.Some? {
        email := if Js.Truthy(result.value.email) then Js.StrOrEmpty(result.value.email) else "";
        hasPassword := Js.Truthy(result.value.hasPassword);
        password := "";
      } else {
        toast := Some(Error("Erro ao carregar configuração de e-mail"));
      }
      loading := false;
    }

    /** The overlay, Escape or the close button. */
    method Close()
      modifies this
      ensures !open && email == old(email) && password == old(password) && hasPassword == old(hasPassword)
      ensures loading == old(loading)
    {
      open := false;
    }

    method SetEmail(value: string)
      modifies this
      ensures email == value && password == old(password) && hasPassword == old(hasPassword)
      ensures open == old(open) && loading == old(loading)
    {
      email := value;
    }

    method SetPassword(value: string)
      modifies this
      ensures password == value && email == old(email) && hasPassword == old(hasPassword)
      ensures open == old(open) && loading == old(loading)
    {
      password := value;
    }

    /** The inputs and the save button are disabled while loading. */
    predicate SaveDisabled()
      reads this
    {
      loading
    }

    /**
     * A click on save: nothing while disabled; a failed check shows its toast
     * and sends nothing; otherwise loading starts and the form is posted.
     */
    method ClickSalvar() returns (request: Option<ConfigPost>, toast: Option<Toast>)
      modifies this
      ensures old(loading) ==> request.None? && toast.None?
      ensures !old(loading) && Validate(email, password, hasPassword).Some? ==>
                request.None? && toast == Some(Error(Validate(email, password, hasPassword).value)) && !loading
      ensures !old(loading) && Validate(email, password, hasPassword).None? ==>
                request == Some(ConfigPost(email, password)) && toast.None? && loading
      ensures request.Some? ==> request.value.email != "" && (hasPassword || request.value.password != "")
      ensures email == old(email) && password == old(password) && hasPassword == old(hasPassword)
      ensures open == old(open)
    {
      request := None;
      toast := None;
      if loading {
        return;
      }
      var problem := Validate(email, password, hasPassword);
      if problem.Some? {
        toast := Some(Error(problem.value));
        return;
      }
      loading := true;
      request := Some(ConfigPost(email, password));
    }

    /** The POST settles: success closes the dialog; a failure shows its text. Loading ends either way. */
    method FinishSalvar(result: SaveResult) returns (toast: Toast)
      modifies this
      ensures !loading
      ensures result.Saved? ==> !open && toast == Success("Configuração de e-mail salva com sucesso!")
      ensures result.Rejected? ==> open == old(open) && toast == Error(SaveErrorText(result.serverMessage))
      ensures email == old(email) && password == old(password) && hasPassword == old(hasPassword)
    {
      if result.Saved? {
        toast := Success("Configuração de e-mail salva com sucesso!");
        open := false;
      } else {
        toast := Error(SaveErrorText(result.serverMessage));
      }
      loading := false;
    }
  }
}
