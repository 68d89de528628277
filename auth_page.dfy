/** The sign-in page (frontend/src/pages/Auth.js): the login form prefilled with the demo
    account, and the registration form, whose checks run before anything is sent — the
    confirmation first, the length second. The server's answer is a parameter. */
module AuthPage {
  import opened Wrappers
  import opened Models
  import opened AuthContext
  import opened Toasts

  const DemoEmail := "demo@icare.com"
  const DemoPassword := "demo123"

  const MismatchMessage := "Les mots de passe ne correspondent pas"
  const TooShortMessage := "Le mot de passe doit contenir au moins 6 caract\U{E8}res"

  /** The registration checks: `Some(message)` for the first one that fails. */
  function RegisterValidation(password: string, confirmPassword: string): (error: Option<string>)
    ensures error.None? <==> password == confirmPassword && |password| >= 6
    ensures password != confirmPassword ==> error == Some(MismatchMessage)
    ensures password == confirmPassword && |password| < 6 ==> error == Some(TooShortMessage)
  {
    if password != confirmPassword then Some(MismatchMessage)
    else if |password| < 6 then Some(TooShortMessage)
    else None
  }

  /** The mismatch is reported first: a password both short and unconfirmed gets the
      mismatch message, never the length one. */
  lemma MismatchReportedFirst(password: string, confirmPassword: string)
    requires password != confirmPassword && |password| < 6
    ensures RegisterValidation(password, confirmPassword) == Some(MismatchMessage)
    ensures RegisterValidation(password, confirmPassword) != Some(TooShortMessage)
  {
  }

  function ErrorToast(message: string): Toast {
    Toast("Erreur", message, true)
  }

  function LoginToast(o: AuthOutcome): Toast {
    if o.success then Toast("Connexion r\U{E9}ussie !", "Bienvenue sur iCare \U{1F389}", false)
    else Toast("Erreur de connexion", o.message.GetOr(""), true)
  }

  function RegisterToast(o: AuthOutcome): Toast {
    if o.success then Toast("Compte cr\U{E9}\U{E9} !", "Bienvenue dans la communaut\U{E9} iCare \U{1F680}", false)
    else Toast("Erreur d'inscription", o.message.GetOr(""), true)
  }

  class AuthPageState {
    const auth: AuthProvider
    var loginEmail: string
    var loginPassword: string
    var name: string
    var email: string
    var password: string
    var confirmPassword: string
    var loading: bool

    /** The demo account in the login form, an empty registration form, not loading. */
    constructor (auth: AuthProvider)
      ensures this.auth == auth && loginEmail == DemoEmail && loginPassword == DemoPassword
      ensures name == "" && email == "" && password == "" && confirmPassword == "" && !loading
    {
      this.auth := auth;
      loginEmail := DemoEmail;
      loginPassword := DemoPassword;
      name := "";
      email := "";
      password := "";
      confirmPassword := "";
      loading := false;
    }

    /** The login form submitted: the form's e-mail and password are sent, `loading` is set
        for the time of the call (`loadingDuringCall`) and cleared after it, and the toast
        tells the outcome. */
    method HandleLogin(call: ApiCall<AuthResponse>) returns (sent: UserLogin, toast: Toast, ghost loadingDuringCall: bool)
      modifies this, auth, auth.storage
      ensures sent == UserLogin(old(loginEmail), old(loginPassword))
      ensures toast == LoginToast(OutcomeOf(call, LoginFallback))
      ensures toast.destructive <==> !(call.Returned? && FullSuccess(call.body))
      ensures auth.storage.items == SignedIn(old(auth.storage.items), call)
      ensures auth.user == (if OutcomeOf(call, LoginFallback).success then call.body.user else old(auth.user))
      ensures auth.loading == old(auth.loading)
      ensures loadingDuringCall && !loading
      ensures loginEmail == old(loginEmail) && loginPassword == old(loginPassword)
      ensures name == old(name) && email == old(email)
      ensures password == old(password) && confirmPassword == old(confirmPassword)
    {
      loading := true;
      sent := UserLogin(loginEmail, loginPassword);
      loadingDuringCall := loading;
      var result := auth.Login(call);
      toast := LoginToast(result);
      loading := false;
    }

    /** The registration form submitted. A failed check shows its error and stops: nothing is
        sent, nothing is stored, `loading` is untouched. Otherwise the name, e-mail and
        password — and not the confirmation — are sent, with `loading` set during the call
        only. */
    method HandleRegister(call: ApiCall<AuthResponse>)
      returns (sent: Option<UserCreate>, toast: Toast, ghost loadingDuringCall: bool)
      modifies this, auth, auth.storage
      ensures RegisterValidation(old(password), old(confirmPassword)).Some? ==>
        && sent.None?
        && toast == ErrorToast(RegisterValidation(old(password), old(confirmPassword)).value)
        && loading == old(loading)
        && auth.storage.items == old(auth.storage.items) && auth.user == old(auth.user)
      ensures RegisterValidation(old(password), old(confirmPassword)).None? ==>
        && sent == Some(UserCreate(old(name), old(email), old(password)))
        && toast == RegisterToast(OutcomeOf(call, RegisterFallback))
        && auth.storage.items == SignedIn(old(auth.storage.items), call)
        && auth.user == (if OutcomeOf(call, RegisterFallback).success then call.body.user else old(auth.user))
        && loadingDuringCall && !loading
      ensures auth.loading == old(auth.loading)
      ensures loginEmail == old(loginEmail) && loginPassword == old(loginPassword)
      ensures name == old(name) && email == old(email)
      ensures password == old(password) && confirmPassword == old(confirmPassword)
    {
      loadingDuringCall := false;
      if password != confirmPassword {
        return None, ErrorToast(MismatchMessage), false;
      }
      if |password| < 6 {
        return None, ErrorToast(TooShortMessage), false;
      }
      loading := true;
      loadingDuringCall := loading;
      sent := Some(UserCreate(name, email, password));
      var result := auth.Register(call);
      toast := RegisterToast(result);
      loading := false;
    }
  }
}
