/**
 * The sign-up form (app/auth/signup/page.tsx): the checks made before the
 * account is requested, in their order, and the page state the submit
 * handler leaves behind. The registration call and the automatic sign-in
 * are answers given as parameters; navigation is recorded as the path
 * pushed.
 */
module Signup {
  import opened Wrappers
  import opened Js

  datatype SignupForm = SignupForm(name: string, email: string, password: string, confirmPassword: string)

  /** The checks, in the order they are made. */
  datatype Check = NameRequired | NameTooShort | PasswordMismatch | PasswordTooShort

  function Message(c: Check): string {
    match c
    case NameRequired => "Le nom d'utilisateur est obligatoire"
    case NameTooShort => "Le nom d'utilisateur doit contenir au moins 3 caractères"
    case PasswordMismatch => "Les mots de passe ne correspondent pas"
    case PasswordTooShort => "Le mot de passe doit contenir au moins 6 caractères"
  }

  /** Whether the form fails one check. */
  predicate Fails(f: SignupForm, c: Check) {
    match c
    case NameRequired => Trim(f.name) == ""
    case NameTooShort => |Trim(f.name)| < 3
    case PasswordMismatch => f.password != f.confirmPassword
    case PasswordTooShort => |f.password| < 6
  }

  /** Position of a check in the order. */
  function Rank(c: Check): nat {
    match c
    case NameRequired => 0
    case NameTooShort => 1
    case PasswordMismatch => 2
    case PasswordTooShort => 3
  }

  /** The first check the form fails, if any. */
  function FirstFailure(f: SignupForm): (r: Option<Check>)
    ensures r.None? <==> forall c: Check :: !Fails(f, c)
    ensures r.Some? ==> Fails(f, r.value) && forall c: Check :: Rank(c) < Rank(r.value) ==> !Fails(f, c)
  {
    if Fails(f, NameRequired) then Some(NameRequired)
    else if Fails(f, NameTooShort) then Some(NameTooShort)
    else if Fails(f, PasswordMismatch) then Some(PasswordMismatch)
    else if Fails(f, PasswordTooShort) then Some(PasswordTooShort)
    else None
  }

  /** A blank name is reported as missing, not as too short. */
  lemma BlankNameIsMissing(f: SignupForm)
    requires Trim(f.name) == ""
    ensures FirstFailure(f) == Some(NameRequired)
  {
  }

  /** A form that passes the checks has a trimmed name of at least three
      characters and a confirmed password of at least six. */
  lemma PassingForm(f: SignupForm)
    requires FirstFailure(f).None?
    ensures |Trim(f.name)| >= 3 && f.password == f.confirmPassword && |f.password| >= 6
  {
    assert !Fails(f, NameTooShort) && !Fails(f, PasswordMismatch) && !Fails(f, PasswordTooShort);
  }

  /** The body sent to the registration API: the name as typed. */
  datatype RegisterBody = RegisterBody(name: string, email: string, password: string)

  /** How the registration call went: an answer with its `ok` flag and
      error text, or an exception. */
  datatype RegisterAnswer = Answered(ok: bool, error: Option<string>) | RegisterThrew

  /** How the automatic sign-in went. */
  datatype SignInAnswer = SignedIn(error: Option<string>) | SignInThrew

  const GenericError := "Une erreur est survenue"
  const SignInFailed := "Inscription réussie mais erreur de connexion"
  const ListsPath := "/lists"

  /** The error shown after a submit that passed the checks. */
  function ErrorAfterRequest(reg: RegisterAnswer, signIn: SignInAnswer): (e: string)
    ensures reg.RegisterThrew? ==> e == GenericError
    ensures reg.Answered? && !reg.ok ==> e == OrString(reg.error, Some(GenericError)).value
    ensures reg.Answered? && reg.ok ==>
      e == (if signIn.SignInThrew? then GenericError
            else if TruthyString(signIn.error) then SignInFailed
            else "")
  {
    match reg
    case RegisterThrew => GenericError
    case Answered(ok, error) =>
      if !ok then OrString(error, Some(GenericError)).value
      else match signIn
        case SignInThrew => GenericError
        case SignedIn(error) => if TruthyString(error) then SignInFailed else ""
  }

  /** Registration and the automatic sign-in both went through. */
  predicate SignedUp(reg: RegisterAnswer, signIn: SignInAnswer) {
    reg.Answered? && reg.ok && signIn.SignedIn? && !TruthyString(signIn.error)
  }

  /** The page moves on exactly when no error is left to show. */
  lemma SignedUpIffNoError(reg: RegisterAnswer, signIn: SignInAnswer)
    ensures SignedUp(reg, signIn) <==> ErrorAfterRequest(reg, signIn) == ""
  {
  }

  /** The state of the page. */
  class SignupPage {
    var error: string
    var isLoading: bool
    /** Registration requests sent, in order. */
    var sent: seq<RegisterBody>
    /** Paths pushed to the router, in order. */
    var pushed: seq<string>

    constructor()
      ensures error == "" && !isLoading && sent == [] && pushed == []
    {
      error := "";
      isLoading := false;
      sent := [];
      pushed := [];
    }

    /** `handleSubmit`: the first failing check is shown and nothing is
        sent; otherwise the account is requested with the name as typed,
        and the page moves to the lists only when registration and sign-in
        both succeed. Loading is off once a request has been answered; a
        failed check leaves it alone. */
    method HandleSubmit(f: SignupForm, reg: RegisterAnswer, signIn: SignInAnswer)
      modifies this
      ensures FirstFailure(f).Some? ==>
        isLoading == old(isLoading) && error == Message(FirstFailure(f).value) && sent == old(sent) && pushed == old(pushed)
      ensures FirstFailure(f).None? ==>
        && !isLoading
        && sent == old(sent) + [RegisterBody(f.name, f.email, f.password)]
        && error == ErrorAfterRequest(reg, signIn)
        && pushed == old(pushed) + (if SignedUp(reg, signIn) then [ListsPath] else [])
    {
      error := "";
      if Fails(f, NameRequired) {
        error := Message(NameRequired);
        return;
      }
      if Fails(f, NameTooShort) {
        error := Message(NameTooShort);
        return;
      }
      if Fails(f, PasswordMismatch) {
        error := Message(PasswordMismatch);
        return;
      }
      if Fails(f, PasswordTooShort) {
        error := Message(PasswordTooShort);
        return;
      }
      isLoading := true;
      sent := sent + [RegisterBody(f.name, f.email, f.password)];
      match reg {
        case RegisterThrew =>
          error := GenericError;
        case Answered(ok, regError) =>
          if !ok {
            error := OrString(regError, Some(GenericError)).value;
          } else {
            match signIn {
              case SignInThrew =>
                error := GenericError;
              case SignedIn(signInError) =>
                if TruthyString(signInError) {
                  error := SignInFailed;
                } else {
                  pushed := pushed + [ListsPath];
                }
            }
          }
      }
      isLoading := false;
    }
  }
}
