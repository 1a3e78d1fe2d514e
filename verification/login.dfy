/**
 * The login form, which also holds a register mode: the fields, the submit
 * handler's two branches and the message it leaves behind. Each request is
 * returned in issue order and its answer is a parameter; `fetchUsuario`
 * catches its own errors, so it always completes.
 */
module Login {
  import opened Wrappers
  import opened Ui
  import Strings

  datatype Field = Name | Email | Senha | ConfirmSenha

  datatype LoginData = LoginData(name: string, email: string, senha: string, confirmSenha: string) {
    function Get(f: Field): string {
      match f
      case Name => name
      case Email => email
      case Senha => senha
      case ConfirmSenha => confirmSenha
    }

    /** `{ ...prev, [name]: value }`. */
    function Set(f: Field, value: string): (r: LoginData)
      ensures r.Get(f) == value
      ensures forall other :: other != f ==> r.Get(other) == Get(other)
    {
      match f
      case Name => this.(name := value)
      case Email => this.(email := value)
      case Senha => this.(senha := value)
      case ConfirmSenha => this.(confirmSenha := value)
    }
  }

  /** A rejected call: the server's `message` and the error's own `message`, "" when absent. */
  datatype AuthFailure = AuthFailure(serverMessage: string, message: string)

  /** `err.response?.data?.message || err.message || "Ocorreu um erro"`. */
  function ErrorText(f: AuthFailure): (t: string)
    ensures t != ""
    ensures f.serverMessage != "" ==> t == f.serverMessage
    ensures f.serverMessage == "" && f.message != "" ==> t == f.message
    ensures f.serverMessage == "" && f.message == "" ==> t == "Ocorreu um erro"
  {
    if f.serverMessage != "" then f.serverMessage
    else if f.message != "" then f.message
    else "Ocorreu um erro"
  }

  datatype AuthRequest =
    | LoginPost(email: string, senha: string)
    | FetchMe
    | RegisterPost(name: string, email: string, senha: string)

  const Mismatch := "As senhas não coincidem"
  const Registered := "Usuário criado com sucesso! Faça login"

  // ---------------------------------------------------------------------------
  // The browser's constraint validation of the form's inputs

  predicate IsAlnum(c: char) {
    'a' <= c <= 'z' || 'A' <= c <= 'Z' || '0' <= c <= '9'
  }

  /** The characters allowed before the '@' of a valid e-mail address. */
  predicate IsAtext(c: char) {
    IsAlnum(c) || c in ".!#$%&'*+/=?^_`{|}~-"
  }

  /** One domain label: 1 to 63 letters, digits or hyphens, starting and ending with a letter or digit. */
  predicate ValidLabel(l: string) {
    && 1 <= |l| <= 63
    && IsAlnum(l[0]) && IsAlnum(l[|l| - 1])
    && forall k :: 0 <= k < |l| ==> IsAlnum(l[k]) || l[k] == '-'
  }

  /** Dot-separated labels, each of them valid. */
  predicate ValidDomain(d: string) {
    && (forall k :: 0 <= k < |d| ==> IsAlnum(d[k]) || d[k] == '-' || d[k] == '.')
    && var labels := Strings.Split(d, '.');
       forall k :: 0 <= k < |labels| ==> ValidLabel(labels[k])
  }

  /**
   * A "valid e-mail address" as section 4.10.5.1.5 of the HTML Living Standard
   * defines it, which an `<input type="email">` requires of a non-empty value.
   */
  predicate ValidEmail(s: string) {
    exists i :: 0 <= i < |s| && s[i] == '@' && ValidLocalPart(s[..i]) && ValidDomain(s[i + 1..])
  }

  predicate ValidLocalPart(p: string) {
    |p| > 0 && forall k :: 0 <= k < |p| ==> IsAtext(p[k])
  }

  /** A valid address splits at '@' into exactly its local part and its domain. */
  lemma ValidEmailParts(s: string)
    requires ValidEmail(s)
    ensures var parts := Strings.Split(s, '@');
      |parts| == 2 && ValidLocalPart(parts[0]) && ValidDomain(parts[1])
  {
    var i :| 0 <= i < |s| && s[i] == '@' && ValidLocalPart(s[..i]) && ValidDomain(s[i + 1..]);
    var a, b := s[..i], s[i + 1..];
    LocalPartLacksAt(a);
    DomainLacksAt(b);
    assert s == a + ['@'] + b;
    Strings.SplitCons(a, b, '@');
    Strings.SplitFree(b, '@');
    assert Strings.Split(s, '@') == [a, b];
  }

  lemma LocalPartLacksAt(a: string)
    requires ValidLocalPart(a)
    ensures '@' !in a
  {
    forall k | 0 <= k < |a| ensures a[k] != '@' { assert IsAtext(a[k]); }
  }

  lemma DomainLacksAt(b: string)
    requires ValidDomain(b)
    ensures '@' !in b
  {
    forall k | 0 <= k < |b| ensures b[k] != '@' { assert IsAlnum(b[k]) || b[k] == '-' || b[k] == '.'; }
  }

  /**
   * Whether the browser lets the form submit: the inputs shown in the current
   * mode are `required`, so none may be empty, and the e-mail input, of type
   * "email", must hold a valid address.
   */
  predicate Submittable(isLogin: bool, d: LoginData) {
    && d.email != "" && ValidEmail(d.email) && d.senha != ""
    && (!isLogin ==> d.name != "" && d.confirmSenha != "")
  }

  class LoginForm {
    var isLogin: bool
    var formData: LoginData
    var loading: bool
    var error: string
    var success: string
    /** The mode and the fields as the running `handleSubmit` saw them when it started. */
    var submittedLogin: bool
    var submitted: LoginData

    /** The form opens in login mode, empty and idle. */
    constructor ()
      ensures isLogin && formData == LoginData("", "", "", "") && !loading && error == "" && success == ""
    {
      isLogin := true;
      formData := LoginData("", "", "", "");
      loading := false;
      error := "";
      success := "";
      submittedLogin := true;
      submitted := LoginData("", "", "", "");
    }

    /** `handleChange`: only the named field takes the new value; the inputs stay editable while a submission is in flight. */
    method HandleChange(f: Field, value: string)
      modifies this
      ensures formData == old(formData).Set(f, value)
      ensures isLogin == old(isLogin) && loading == old(loading) && error == old(error) && success == old(success)
      ensures submittedLogin == old(submittedLogin) && submitted == old(submitted)
    {
      formData := formData.Set(f, value);
    }

    /** The submit button is disabled while a submission is in flight. */
    predicate SubmitDisabled()
      reads this
    {
      loading
    }

    /**
     * A press of "Entrar" or "Cadastrar" up to the start of `handleSubmit`:
     * with the button disabled, or with an input the browser's validation
     * rejects, nothing happens; otherwise loading is on, both messages are
     * cleared, and the handler holds the mode and the fields of this render.
     */
    method BeginSubmit() returns (started: bool)
      modifies this
      ensures started <==> !old(loading) && Submittable(isLogin, formData)
      ensures started ==> loading && error == "" && success == ""
                          && submittedLogin == isLogin && submitted == formData
      ensures !started ==> error == old(error) && success == old(success) && loading == old(loading)
                           && submittedLogin == old(submittedLogin) && submitted == old(submitted)
      ensures isLogin == old(isLogin) && formData == old(formData)
    {
      if loading || !Submittable(isLogin, formData) {
        return false;
      }
      loading := true;
      error := "";
      success := "";
      submittedLogin := isLogin;
      submitted := formData;
      started := true;
    }

    /**
     * The rest of `handleSubmit`, with `loginResult` and `registerResult` the
     * answers of the two POSTs (None for success). The requests carry the
     * fields as submitted, whatever was typed since. Login: the POST, then the
     * user fetch, then the move to "/ordens". Register: no request at all when
     * the submitted passwords differ; after a successful POST, the success
     * text, login mode and both password fields of the current form cleared.
     * A failure leaves its text in `error`. Loading ends either way.
     */
    method FinishSubmit(loginResult: Option<AuthFailure>, registerResult: Option<AuthFailure>)
      returns (requests: seq<AuthRequest>, navigateTo: Option<string>, toast: Option<Toast>)
      requires loading
      modifies this
      ensures !loading && submittedLogin == old(submittedLogin) && submitted == old(submitted)
      ensures submittedLogin ==> isLogin == old(isLogin) && formData == old(formData) && success == old(success)
      ensures submittedLogin && loginResult.None? ==>
                requests == [LoginPost(submitted.email, submitted.senha), FetchMe]
                && navigateTo == Some("/ordens") && toast == Some(Success("Login realizado com sucesso!"))
                && error == old(error)
      ensures submittedLogin && loginResult.Some? ==>
                requests == [LoginPost(submitted.email, submitted.senha)]
                && navigateTo.None? && error == ErrorText(loginResult.value) && toast == Some(Error(error))
      ensures !submittedLogin ==> navigateTo.None?
      ensures !submittedLogin && submitted.senha != submitted.confirmSenha ==>
                requests == [] && error == Mismatch && toast == Some(Error(Mismatch))
                && formData == old(formData) && isLogin == old(isLogin) && success == old(success)
      ensures !submittedLogin && submitted.senha == submitted.confirmSenha ==>
                requests == [RegisterPost(submitted.name, submitted.email, submitted.senha)]
      ensures !submittedLogin && submitted.senha == submitted.confirmSenha && registerResult.None? ==>
                success == Registered && isLogin && toast.None? && error == old(error)
                && formData == old(formData).(senha := "", confirmSenha := "")
      ensures !submittedLogin && submitted.senha == submitted.confirmSenha && registerResult.Some? ==>
                error == ErrorText(registerResult.value) && toast == Some(Error(error))
                && formData == old(formData) && isLogin == old(isLogin) && success == old(success)
    {
      navigateTo := None;
      toast := None;
      var failure: Option<AuthFailure> := None;
      if submittedLogin {
        requests := [LoginPost(submitted.email, submitted.senha)];
        if loginResult.Some? {
          failure := loginResult;
        } else {
          requests := requests + [FetchMe];
          toast := Some(Success("Login realizado com sucesso!"));
          navigateTo := Some("/ordens");
        }
      } else if submitted.senha != submitted.confirmSenha {
        requests := [];
        failure := Some(AuthFailure("", Mismatch));
      } else {
        requests := [RegisterPost(submitted.name, submitted.email, submitted.senha)];
        if registerResult.Some? {
          failure := registerResult;
        } else {
          success := Registered;
          isLogin := true;
          formData := formData.(senha := "", confirmSenha := "");
        }
      }
      if failure.Some? {
        error := ErrorText(failure.value);
        toast := Some(Error(error));
      }
      loading := false;
    }

    /**
     * An edit while the login POST is in flight changes what the form shows
     * but not what was sent: the request carries the address of the submit.
     */
    method EditWhileSending(f: Field, value: string, loginResult: Option<AuthFailure>)
      returns (requests: seq<AuthRequest>)
      requires isLogin && !loading && Submittable(isLogin, formData)
      modifies this
      ensures requests != [] && requests[0] == LoginPost(old(formData).email, old(formData).senha)
      ensures formData == old(formData).Set(f, value) && !loading
    {
      var started := BeginSubmit();
      HandleChange(f, value);
      var navigateTo, toast;
      requests, navigateTo, toast := FinishSubmit(loginResult, None);
    }
  }
}
