/**
 * The sign-in page: the login and registration schemas, what a submit
 * passes on, and the redirect of a user who is already signed in.
 */
module AuthPage {
  import opened Wrappers
  import opened Schema

  datatype LoginValues = LoginValues(username: string, password: string)

  /** loginSchema: a username of at least 3 characters and a password of at least 6. */
  predicate LoginOk(v: LoginValues)
  {
    |v.username| >= 3 && |v.password| >= 6
  }

  /** What the register form holds before validation; an unset language is absent. */
  datatype RegisterInput = RegisterInput(
    username: string, password: string, firstName: string, lastName: string,
    email: string, phone: Option<string>, language: Option<string>)

  /** What registerSchema yields: the language settled to "ro" or "en". */
  datatype RegisterValues = RegisterValues(
    username: string, password: string, firstName: string, lastName: string,
    email: string, phone: Option<string>, language: Language)

  /**
   * registerSchema: username >= 3, password >= 6, both names >= 2, a
   * well-formed e-mail, an optional phone, and a language of "ro" or "en"
   * that defaults to "ro".
   */
  function ParseRegister(input: RegisterInput, isEmail: string -> bool): (r: Option<RegisterValues>)
    ensures r.Some? <==>
      |input.username| >= 3 && |input.password| >= 6 && |input.firstName| >= 2 && |input.lastName| >= 2 &&
      isEmail(input.email) && (input.language.None? || input.language == Some("ro") || input.language == Some("en"))
    ensures r.Some? ==> r.value.language == (if input.language == Some("en") then Language.En else Language.Ro)
    ensures r.Some? ==>
      r.value.username == input.username && r.value.password == input.password &&
      r.value.firstName == input.firstName && r.value.lastName == input.lastName &&
      r.value.email == input.email && r.value.phone == input.phone
  {
    var lang :=
      match input.language
      case None => Some(Language.Ro)
      case Some(l) => if l == "ro" then Some(Language.Ro) else if l == "en" then Some(Language.En) else None;
    if |input.username| >= 3 && |input.password| >= 6 && |input.firstName| >= 2 && |input.lastName| >= 2 &&
       isEmail(input.email) && lang.Some?
    then Some(RegisterValues(input.username, input.password, input.firstName, input.lastName,
                             input.email, input.phone, lang.value))
    else None
  }

  /** The register form's starting values: empty fields and Romanian. */
  function RegisterDefaults(): (d: RegisterInput)
    ensures d.language == Some("ro") && d.username == "" && d.phone == Some("")
  {
    RegisterInput("", "", "", "", "", Some(""), Some("ro"))
  }

  /** The defaults never pass; once they do, the account is Romanian. */
  lemma RegisterDefaultsLanguage(isEmail: string -> bool, d: RegisterInput)
    requires d.language == RegisterDefaults().language
    ensures ParseRegister(RegisterDefaults(), isEmail).None?
    ensures ParseRegister(d, isEmail).Some? ==> ParseRegister(d, isEmail).value.language == Language.Ro
  {
  }

  /** What a submit hands to the login mutation: the values themselves, and only when they pass. */
  function OnLoginSubmit(v: LoginValues): (r: Option<LoginValues>)
    ensures r.Some? <==> LoginOk(v)
    ensures r.Some? ==> r.value == v
  {
    if LoginOk(v) then Some(v) else None
  }

  /** Any value that registers also logs in: the login rules are the register rules for those two fields. */
  lemma RegisteredCanLogIn(input: RegisterInput, isEmail: string -> bool)
    requires ParseRegister(input, isEmail).Some?
    ensures LoginOk(LoginValues(input.username, input.password))
  {
  }

  datatype Screen = RedirectTo(path: string) | Forms

  /** A signed-in user is sent to "/" before any form is shown. */
  function Page(user: Option<User>): (s: Screen)
    ensures s == RedirectTo("/") <==> user.Some?
    ensures s == Forms <==> user.None?
  {
    if user.Some? then RedirectTo("/") else Forms
  }
}
