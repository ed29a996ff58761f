// The login form: CNPJ field validation, submission and the demo credentials.
module LoginPage {
  import opened Wrappers
  import opened Strings
  import opened Cnpj
  import AuthContext

  const InvalidCnpjMessage := "CNPJ inválido"
  const WrongLengthMessage := "CNPJ deve conter 14 dígitos"
  const MissingFieldsMessage := "Por favor, preencha todos os campos obrigatórios."
  const CredentialsMessage := "CNPJ, e-mail ou senha incorretos. Verifique suas credenciais."
  const TenantMessage := "Empresa não encontrada. Verifique o CNPJ informado."
  const ServerMessage := "Erro no servidor. Tente novamente em alguns minutos."
  const NetworkMessage := "Erro de conexão. Verifique sua internet ou se a API está funcionando."
  const FallbackMessage := "Erro ao fazer login. Tente novamente."
  const UnexpectedMessage := "Erro inesperado. Tente novamente."

  /** The error the CNPJ field shows for an (already formatted) value: only a
      complete CNPJ that is neither valid nor a test number is flagged. */
  function CnpjFieldError(formatted: string): (e: string)
    ensures e == InvalidCnpjMessage <==>
      |Digits(formatted)| == 14 && !ValidateCnpj(formatted) && !IsTestCnpj(formatted)
    ensures e != InvalidCnpjMessage ==> e == ""
  {
    if |Digits(formatted)| == 14 then
      if !ValidateCnpj(formatted) && !IsTestCnpj(formatted) then InvalidCnpjMessage else ""
    else ""
  }

  /** A valid CNPJ and an incomplete one never show the field error. */
  lemma FieldErrorCleared(formatted: string)
    requires ValidateCnpj(formatted) || |Digits(formatted)| < 14
    ensures CnpjFieldError(formatted) == ""
  {
  }

  /** Formatting reads only the digits of its input. */
  lemma FormatOfDigits(value: string)
    requires |Digits(value)| <= 14
    ensures FormatCnpj(Digits(value)) == FormatCnpj(value)
  {
    DigitsOfDigits(Digits(value));
  }

  /** Typing the bare digits of a test number formats it into the listed form,
      which the field accepts. */
  lemma TypingTestDigits(listed: string)
    requires IsTestCnpj(listed)
    ensures FormatCnpj(Digits(listed)) == listed
    ensures CnpjFieldError(FormatCnpj(Digits(listed))) == ""
  {
    TestCnpjFacts(listed);
    FormatOfDigits(listed);
  }

  /** Why submission stopped before calling `login`. */
  datatype Stop = MissingFields | WrongLength | InvalidCnpj

  /** The checks of `handleSubmit`, in their order. */
  function SubmitCheck(cnpj: string, email: string, password: string): (stop: Option<Stop>)
    ensures stop.None? <==>
      cnpj != "" && email != "" && password != "" && |Digits(cnpj)| == 14 &&
      (ValidateCnpj(cnpj) || IsTestCnpj(cnpj))
    ensures stop == Some(MissingFields) <==> cnpj == "" || email == "" || password == ""
    ensures stop == Some(WrongLength) <==>
      cnpj != "" && email != "" && password != "" && |Digits(cnpj)| != 14
    ensures stop == Some(InvalidCnpj) <==>
      cnpj != "" && email != "" && password != "" && |Digits(cnpj)| == 14 &&
      !ValidateCnpj(cnpj) && !IsTestCnpj(cnpj)
  {
    if cnpj == "" || email == "" || password == "" then Some(MissingFields)
    else if |Digits(cnpj)| != 14 then Some(WrongLength)
    else if !ValidateCnpj(cnpj) && !IsTestCnpj(cnpj) then Some(InvalidCnpj)
    else None
  }

  /** A field that shows no error on a complete CNPJ passes the CNPJ checks of
      submission: the two validations agree. */
  lemma FieldAndSubmitAgree(cnpj: string, email: string, password: string)
    requires email != "" && password != "" && |Digits(cnpj)| == 14
    ensures SubmitCheck(cnpj, email, password).None? <==> CnpjFieldError(cnpj) == ""
  {
  }

  /** `m.includes(a) || m.includes(b)`: one test of the error classification. */
  predicate Names(m: string, a: string, b: string) {
    Contains(m, a) || Contains(m, b)
  }

  /** The toast text for a failed login, by substring in a fixed priority. */
  function ClassifyLoginError(err: AuthContext.Thrown): (msg: string)
    ensures |msg| > 0
    ensures err.ErrorValue? && (Contains(err.message, "401") || Contains(err.message, "credenciais")) ==>
      msg == CredentialsMessage
    ensures err.ErrorValue? ==>
      var m := err.message;
      (!Names(m, "401", "credenciais") && Names(m, "404", "tenant") ==> msg == TenantMessage) &&
      (!Names(m, "401", "credenciais") && !Names(m, "404", "tenant") && Names(m, "500", "server") ==>
         msg == ServerMessage) &&
      ((!Names(m, "401", "credenciais") && !Names(m, "404", "tenant") && !Names(m, "500", "server") &&
        Names(m, "network", "fetch")) ==> msg == NetworkMessage)
    ensures err.NonErrorValue? ==> msg == UnexpectedMessage
  {
    match err
    case NonErrorValue => UnexpectedMessage
    case ErrorValue(m) =>
      if Contains(m, "401") || Contains(m, "credenciais") then CredentialsMessage
      else if Contains(m, "404") || Contains(m, "tenant") then TenantMessage
      else if Contains(m, "500") || Contains(m, "server") then ServerMessage
      else if Contains(m, "network") || Contains(m, "fetch") then NetworkMessage
      else if m != "" then m
      else FallbackMessage
  }

  predicate MentionsAny(m: string, keys: seq<string>) {
    exists k :: 0 <= k < |keys| && Contains(m, keys[k])
  }

  const Keywords: seq<string> := ["401", "credenciais", "404", "tenant", "500", "server", "network", "fetch"]

  /** A message naming any of the keywords gets one of the four fixed texts;
      any other message is shown as it is, or the fallback text when empty. */
  lemma RawMessageShown(m: string)
    ensures MentionsAny(m, Keywords) ==>
      ClassifyLoginError(AuthContext.ErrorValue(m)) in {CredentialsMessage, TenantMessage, ServerMessage, NetworkMessage}
    ensures !MentionsAny(m, Keywords) ==>
      ClassifyLoginError(AuthContext.ErrorValue(m)) == if m != "" then m else FallbackMessage
  {
    if !MentionsAny(m, Keywords) {
      assert !Contains(m, Keywords[0]) && !Contains(m, Keywords[1]) && !Contains(m, Keywords[2]) && !Contains(m, Keywords[3]);
      assert !Contains(m, Keywords[4]) && !Contains(m, Keywords[5]) && !Contains(m, Keywords[6]) && !Contains(m, Keywords[7]);
    }
  }

  /** The keyword pairs are tried in order: a message that names a missing
      tenant and a server fault, but no credentials problem, is reported as
      a missing tenant. */
  lemma EarlierKeywordWins(m: string)
    requires Contains(m, "404") || Contains(m, "tenant")
    requires !Contains(m, "401") && !Contains(m, "credenciais")
    ensures ClassifyLoginError(AuthContext.ErrorValue(m)) == TenantMessage
  {
  }

  /** What a submission ended in: a toast before `login` was called, a field
      error, a successful sign-in (toast and navigation to /dashboard), or a
      failed one with its toast. */
  datatype SubmitOutcome = Toast(message: string) | FieldError(message: string) | SignedIn | LoginFailed(message: string)

  /** The demo accounts offered by `fillTestCredentials`. */
  datatype DemoAccount = CrownDemo | LacosteDemo | McDonaldsDemo

  datatype Credentials = Credentials(cnpj: string, email: string, password: string)

  function DemoCredentials(kind: DemoAccount): Credentials {
    match kind
    case CrownDemo => Credentials("00.000.000/0001-00", "admin@crown.com", "crown123")
    case LacosteDemo => Credentials("11.111.111/0001-11", "admin@lacoste.com", "lacoste123")
    case McDonaldsDemo => Credentials("22.222.222/0001-22", "admin@mcdonalds.com", "mcdonalds123")
  }

  /** A listed test CNPJ passes the CNPJ checks of submission. */
  lemma TestCnpjPassesSubmit(cnpj: string, email: string, password: string)
    requires IsTestCnpj(cnpj) && email != "" && password != ""
    ensures SubmitCheck(cnpj, email, password).None?
  {
    TestCnpjFacts(cnpj);
  }

  /** Every demo account uses a listed test CNPJ and fills every field, so by
      `TestCnpjPassesSubmit` it passes the submit checks. */
  lemma DemoCredentialsListed(kind: DemoAccount)
    ensures IsTestCnpj(DemoCredentials(kind).cnpj)
    ensures DemoCredentials(kind).email != "" && DemoCredentials(kind).password != ""
  {
    match kind {
      case CrownDemo => assert DemoCredentials(kind).cnpj == TestCnpjs[0];
      case LacosteDemo => assert DemoCredentials(kind).cnpj == TestCnpjs[1];
      case McDonaldsDemo => assert DemoCredentials(kind).cnpj == TestCnpjs[2];
    }
  }

  /** The login page's redirect effect: signed in and no longer loading sends the user to /dashboard. */
  function LoginRedirect(isAuthenticated: bool, authLoading: bool): (target: Option<string>)
    ensures target.Some? <==> isAuthenticated && !authLoading
    ensures target.Some? ==> target.value == "/dashboard"
  {
    if isAuthenticated && !authLoading then Some("/dashboard") else None
  }

  /** The form's state: `formData`, `cnpjError` and `isLoading`. */
  class LoginForm {
    var cnpj: string
    var email: string
    var password: string
    var cnpjError: string
    var isLoading: bool

    constructor ()
      ensures cnpj == "" && email == "" && password == "" && cnpjError == "" && !isLoading
    {
      cnpj, email, password := "", "", "";
      cnpjError := "";
      isLoading := false;
    }

    /** `handleCNPJChange`: store the formatted value and recompute the field error. */
    method HandleCnpjChange(value: string)
      modifies this
      ensures cnpj == FormatCnpj(value)
      ensures cnpjError == CnpjFieldError(cnpj)
      ensures email == old(email) && password == old(password) && isLoading == old(isLoading)
    {
      var formatted := FormatCnpj(value);
      cnpj := formatted;
      var cleaned := Digits(formatted);
      if |cleaned| == 14 {
        if !ValidateCnpj(formatted) && !IsTestCnpj(formatted) {
          cnpjError := InvalidCnpjMessage;
        } else {
          cnpjError := "";
        }
      } else {
        cnpjError := "";
      }
    }

    /** `handleSubmit`: `response` is what the authentication service would
        answer if `login` is reached. */
    method HandleSubmit(auth: AuthContext.AuthSession, response: Result<AuthContext.LoginResponse, AuthContext.Thrown>)
      returns (outcome: SubmitOutcome)
      modifies this, auth
      ensures cnpj == old(cnpj) && email == old(email) && password == old(password)
      ensures !isLoading || SubmitCheck(cnpj, email, password).Some?
      ensures SubmitCheck(cnpj, email, password) == Some(MissingFields) ==>
        outcome == Toast(MissingFieldsMessage) && cnpjError == old(cnpjError) && isLoading == old(isLoading) &&
        unchanged(auth)
      ensures SubmitCheck(cnpj, email, password) == Some(WrongLength) ==>
        outcome == FieldError(WrongLengthMessage) && cnpjError == WrongLengthMessage &&
        isLoading == old(isLoading) && unchanged(auth)
      ensures SubmitCheck(cnpj, email, password) == Some(InvalidCnpj) ==>
        outcome == FieldError(InvalidCnpjMessage) && cnpjError == InvalidCnpjMessage &&
        isLoading == old(isLoading) && unchanged(auth)
      ensures SubmitCheck(cnpj, email, password).None? ==>
        !isLoading && cnpjError == old(cnpjError) && !auth.isLoading &&
        (response.Success? ==>
           outcome == SignedIn && auth.user == Some(response.value.user) &&
           auth.token == response.value.token && auth.tenant == response.value.tenant &&
           (auth.Authenticated() <==> AuthContext.Truthy(response.value.token))) &&
        (response.Failure? ==>
           outcome == LoginFailed(ClassifyLoginError(response.error)) &&
           auth.user == old(auth.user) && auth.tenant == old(auth.tenant) && auth.token == old(auth.token))
    {
      ghost var stop := SubmitCheck(cnpj, email, password);
      if cnpj == "" || email == "" || password == "" {
        return Toast(MissingFieldsMessage);
      }
      var cleaned := Digits(cnpj);
      if |cleaned| != 14 {
        assert stop == Some(WrongLength);
        cnpjError := WrongLengthMessage;
        return FieldError(WrongLengthMessage);
      }
      if !ValidateCnpj(cnpj) && !IsTestCnpj(cnpj) {
        assert stop == Some(InvalidCnpj);
        cnpjError := InvalidCnpjMessage;
        return FieldError(InvalidCnpjMessage);
      }
      assert stop.None?;
      isLoading := true;
      var result := auth.Login(response);
      if result.Success? {
        outcome := SignedIn;
      } else {
        outcome := LoginFailed(ClassifyLoginError(result.error));
      }
      isLoading := false;
    }

    /** `fillTestCredentials`. */
    method FillTestCredentials(kind: DemoAccount)
      modifies this
      ensures Credentials(cnpj, email, password) == DemoCredentials(kind)
      ensures cnpjError == "" && isLoading == old(isLoading)
      ensures IsTestCnpj(cnpj) && email != "" && password != ""
    {
      DemoCredentialsListed(kind);
      var c := DemoCredentials(kind);
      cnpj, email, password := c.cnpj, c.email, c.password;
      cnpjError := "";
    }
  }
}
