/** The authentication screen: the guards in front of sign-in, sign-up, the
    reset e-mail and OAuth, the sign-up outcomes, the error-message table, the
    form toggles and the listeners registered on mount. */
module AuthScreen {
  import opened Wrappers
  import opened Strings
  import opened Email

  const InvalidEmail := "Введите корректный email"
  const InvalidResetEmail := "Введите корректный email для сброса"
  const Offline := "Проверьте интернет-соединение"
  const TermsNotAccepted := "Примите условия пользования"
  const AlreadyRegistered := "Этот email уже зарегистрирован"
  const ConfirmationSent := "Вам отправлено письмо для подтверждения email, проверьте свою почту"
  const SignedIn := "Вход выполнен успешно!"
  const GenericAuthFailure := "Ошибка аутентификации"
  const ResetSent := "Письмо для сброса отправлено на вашу почту"
  const ResetFailed := "Ошибка при отправке письма"

  /** `getAuthErrorMessage`: four known backend messages get a Russian text;
      any other message is shown as it is. */
  function AuthErrorMessage(message: string): (r: string)
    ensures message == "Email not confirmed" ==> r == "Подтвердите email по ссылке в письме"
    ensures message == "Invalid login credentials" ==> r == "Неверные учетные данные"
    ensures message == "User already registered" ==> r == AlreadyRegistered
    ensures message == "Email rate limit exceeded" ==> r == "Слишком много запросов, попробуйте позже"
    ensures message !in KnownAuthErrors() ==> r == message
  {
    match message
    case "Email not confirmed" => "Подтвердите email по ссылке в письме"
    case "Invalid login credentials" => "Неверные учетные данные"
    case "User already registered" => AlreadyRegistered
    case "Email rate limit exceeded" => "Слишком много запросов, попробуйте позже"
    case _ => message
  }

  function KnownAuthErrors(): set<string>
  {
    {"Email not confirmed", "Invalid login credentials", "User already registered",
     "Email rate limit exceeded"}
  }

  /** Exactly the four known messages are translated (each translation
      differs from its key), and a translation is never itself a known
      message, so translating twice changes nothing. */
  lemma AuthErrorPassThrough(message: string)
    ensures AuthErrorMessage(message) == message <==> message !in KnownAuthErrors()
    ensures AuthErrorMessage(AuthErrorMessage(message)) == AuthErrorMessage(message)
  {
  }

  /** A rejection from a sign-in or sign-up call. */
  datatype Failure = AuthError(message: string) | OtherFailure

  /** The toast for a rejected call: the table for an `AuthError`, a fixed
      text for anything else. */
  function FailureMessage(f: Failure): (r: string)
    ensures f.OtherFailure? ==> r == GenericAuthFailure
    ensures f.AuthError? && f.message !in KnownAuthErrors() ==> r == f.message
    ensures f.AuthError? && f.message in KnownAuthErrors() ==> r != f.message
  {
    match f
    case AuthError(m) => AuthErrorMessage(m)
    case OtherFailure => GenericAuthFailure
  }

  /** The user object a successful sign-up returns: `identities` may be absent. */
  datatype SignUpUser = SignUpUser(identities: Option<nat>)

  /** The backend's answer to `signUp` / `signInWithPassword`. */
  datatype AuthOutcome =
    | Rejected(failure: Failure)
    | Accepted(user: Option<SignUpUser>, hasSession: bool)

  datatype Provider = Google | GitHub

  /** The backend's answer to `signInWithOAuth`, and whether opening the
      returned URL then fails. */
  datatype OAuthOutcome =
    | OAuthRejected(failure: Failure)
    | OAuthAccepted(url: Option<string>, openFails: bool)

  datatype Effect =
    | Toast(message: string)
    | SignUpCall(email: string, password: string, firstName: string, lastName: string)
    | SignInCall(email: string, password: string)
    | ResetCall(email: string)
    | OAuthCall(provider: Provider)
    | OpenUrl(url: string)
    | Navigate(route: string)   // push
    | Replace(route: string)    // `StackActions.replace`

  /** The three guards of `handleEmailAuth`, in order; `None` lets the call
      through. The terms are required for sign-up only. */
  function EmailAuthGuard(email: string, isOnline: bool, isSignUp: bool, acceptedTerms: bool): (r: Option<string>)
    ensures r == None <==> IsValidEmail(email) && isOnline && (isSignUp ==> acceptedTerms)
    ensures r == Some(InvalidEmail) <==> !IsValidEmail(email)
    ensures r == Some(Offline) <==> IsValidEmail(email) && !isOnline
    ensures r == Some(TermsNotAccepted) <==> IsValidEmail(email) && isOnline && isSignUp && !acceptedTerms
  {
    if !IsValidEmail(email) then Some(InvalidEmail)
    else if !isOnline then Some(Offline)
    else if isSignUp && !acceptedTerms then Some(TermsNotAccepted)
    else None
  }

  /** Where a successful call leads (after `error` was checked). */
  function AfterAccepted(isSignUp: bool, user: Option<SignUpUser>, hasSession: bool): (r: seq<Effect>)
    ensures r != [] && r[0].Toast?
    ensures Replace("Home") in r <==> !(isSignUp && user.Some? && (user.value.identities == Some(0) || !hasSession))
    ensures |r| == 1 <==> isSignUp && user.Some? && user.value.identities == Some(0)
  {
    if isSignUp && user.Some? && user.value.identities == Some(0) then [Toast(AlreadyRegistered)]
    else if isSignUp && user.Some? && !hasSession then [Toast(ConfirmationSent), Replace("Auth")]
    else [Toast(SignedIn), Replace("Home")]
  }

  /** A sign-up whose user has an empty identity list reports the address as
      taken and does not navigate; one without a session goes back to the
      authentication screen; every other success goes to the home screen. */
  lemma SignUpOutcomes(user: Option<SignUpUser>, hasSession: bool)
    ensures user.Some? && user.value.identities == Some(0) ==>
      AfterAccepted(true, user, hasSession) == [Toast(AlreadyRegistered)]
    ensures user.Some? && user.value.identities != Some(0) && !hasSession ==>
      Replace("Auth") in AfterAccepted(true, user, hasSession)
    ensures (user.None? || hasSession) && (user.Some? ==> user.value.identities != Some(0)) ==>
      AfterAccepted(true, user, hasSession)[|AfterAccepted(true, user, hasSession)| - 1] == Replace("Home")
  {
  }

  /** Sign-in never looks at identities or at the session. */
  lemma SignInAlwaysHome(user: Option<SignUpUser>, hasSession: bool)
    ensures AfterAccepted(false, user, hasSession) == [Toast(SignedIn), Replace("Home")]
  {
  }

  /** A navigation step, whichever kind. */
  predicate Moves(e: Effect)
  {
    e.Navigate? || e.Replace?
  }

  /** `(_, session) => { if (session) { toast; navigate('Home') } }` once per
      registered listener. */
  function ListenerRuns(listeners: nat, hasSession: bool): (r: seq<Effect>)
    ensures |r| == if hasSession then 2 * listeners else 0
    ensures forall k :: 0 <= k < |r| ==> r[k] == (if k % 2 == 0 then Toast(SignedIn) else Navigate("Home"))
  {
    if listeners == 0 || !hasSession then []
    else [Toast(SignedIn), Navigate("Home")] + ListenerRuns(listeners - 1, hasSession)
  }

  /** `(event) => { if (event.url.includes('/auth/callback')) navigate('Home') }`
      once per registered listener. */
  function UrlListenerRuns(listeners: nat, url: string): (r: seq<Effect>)
    ensures |r| == if Contains(url, "/auth/callback") then listeners else 0
    ensures forall k :: 0 <= k < |r| ==> r[k] == Navigate("Home")
  {
    if listeners == 0 || !Contains(url, "/auth/callback") then []
    else [Navigate("Home")] + UrlListenerRuns(listeners - 1, url)
  }

  function RedirectingTo(provider: Provider): string
  {
    "Перенаправление на " + (if provider == Google then "google" else "github") + "..."
  }

  /** The OAuth toast for a rejection: an `AuthError` shows its own message,
      anything else names the provider. */
  function OAuthFailureMessage(provider: Provider, f: Failure): (r: string)
    ensures f.AuthError? ==> r == f.message
    ensures f.OtherFailure? ==> (r == "Ошибка входа через Google" <==> provider == Google)
  {
    match f
    case AuthError(m) => m
    case OtherFailure =>
      var r := "Ошибка входа через " + (if provider == Google then "Google" else "GitHub");
      assert provider == GitHub ==> r[|"Ошибка входа через "| + 1] == 'i';
      r
  }

  /** What follows the OAuth call: the browser is opened only for a non-empty
      URL, and a failure to open it is reported like any other failure. */
  function OAuthEffects(provider: Provider, outcome: OAuthOutcome): (r: seq<Effect>)
    ensures |r| <= 2
    ensures r != [] ==> r[|r| - 1].Toast?
    ensures |r| == 2 <==> outcome.OAuthAccepted? && outcome.url.Some? && outcome.url.value != ""
  {
    match outcome
    case OAuthRejected(f) => [Toast(OAuthFailureMessage(provider, f))]
    case OAuthAccepted(url, openFails) =>
      if url.None? || url.value == "" then []
      else if openFails then [OpenUrl(url.value), Toast(OAuthFailureMessage(provider, OtherFailure))]
      else [OpenUrl(url.value), Toast(RedirectingTo(provider))]
  }

  /** OAuth never navigates inside the app (the session arrives later through
      the listeners); it opens at most one URL, the one the backend returned,
      and shows exactly one toast unless the backend returned no URL. */
  lemma OAuthStaysOnScreen(provider: Provider, outcome: OAuthOutcome)
    ensures var e := OAuthEffects(provider, outcome);
      && (forall k :: 0 <= k < |e| ==> !Moves(e[k]))
      && (forall k :: 0 <= k < |e| && e[k].OpenUrl? ==>
            k == 0 && outcome.OAuthAccepted? && outcome.url == Some(e[k].url))
      && (e == [] <==> outcome.OAuthAccepted? && (outcome.url.None? || outcome.url.value == ""))
      && (e != [] ==> e[|e| - 1].Toast?)
  {
  }

  class AuthScreenState {
    var isSignUpMode: bool
    var showResetPassword: bool
    var email: string
    var password: string
    var firstName: string
    var lastName: string
    var loading: bool
    var isOnline: bool
    var acceptedTerms: bool
    var authListeners: nat
    var urlListeners: nat
    var effects: seq<Effect>

    constructor ()
      ensures !isSignUpMode && !showResetPassword && !loading && !acceptedTerms && isOnline
      ensures email == "" && password == "" && firstName == "" && lastName == ""
      ensures authListeners == 0 && urlListeners == 0 && effects == []
    {
      isSignUpMode, showResetPassword := false, false;
      email, password, firstName, lastName := "", "", "", "";
      loading, isOnline, acceptedTerms := false, true, false;
      authListeners, urlListeners := 0, 0;
      effects := [];
    }

    /** The two identical pairs of effects run on mount: two auth-state
        listeners and two URL listeners. */
    method Mount()
      modifies this`authListeners, this`urlListeners
      ensures authListeners == old(authListeners) + 2 && urlListeners == old(urlListeners) + 2
      ensures effects == old(effects) && loading == old(loading)
      ensures showResetPassword == old(showResetPassword) && isSignUpMode == old(isSignUpMode)
    {
      authListeners := authListeners + 1;
      urlListeners := urlListeners + 1;
      authListeners := authListeners + 1;
      urlListeners := urlListeners + 1;
    }

    /** Unmounting runs each effect's cleanup: every listener it added goes. */
    method Unmount()
      requires authListeners >= 2 && urlListeners >= 2
      modifies this`authListeners, this`urlListeners
      ensures authListeners == old(authListeners) - 2 && urlListeners == old(urlListeners) - 2
      ensures effects == old(effects)
    {
      authListeners := authListeners - 2;
      urlListeners := urlListeners - 2;
    }

    /** An auth-state event reaches every registered listener. */
    method OnAuthStateChange(hasSession: bool)
      modifies this`effects
      ensures effects == old(effects) + ListenerRuns(authListeners, hasSession)
      ensures authListeners == old(authListeners) && urlListeners == old(urlListeners)
    {
      effects := effects + ListenerRuns(authListeners, hasSession);
    }

    /** An inbound URL reaches every registered URL listener. */
    method OnUrl(url: string)
      modifies this`effects
      ensures effects == old(effects) + UrlListenerRuns(urlListeners, url)
      ensures authListeners == old(authListeners) && urlListeners == old(urlListeners)
    {
      effects := effects + UrlListenerRuns(urlListeners, url);
    }

    /** The "Войти" mode button. */
    method PressSignInMode()
      modifies this`isSignUpMode, this`showResetPassword
      ensures !isSignUpMode && !showResetPassword
    {
      isSignUpMode := false;
      showResetPassword := false;
    }

    /** The "Регистрация" mode button. */
    method PressSignUpMode()
      modifies this`isSignUpMode, this`showResetPassword
      ensures isSignUpMode && !showResetPassword
    {
      isSignUpMode := true;
      showResetPassword := false;
    }

    /** "Забыли пароль?" opens the reset form; "Назад к входу" closes it. */
    method SetResetFormVisible(visible: bool)
      modifies this`showResetPassword
      ensures showResetPassword == visible
    {
      showResetPassword := visible;
    }

    /** `handleEmailAuth(isSignUp)`: invalid e-mail, then offline, then
        sign-up without accepted terms; each guard returns before any call. */
    method HandleEmailAuth(isSignUp: bool, outcome: AuthOutcome)
      modifies this`effects, this`loading
      ensures EmailAuthGuard(email, isOnline, isSignUp, acceptedTerms).Some? ==>
        && effects == old(effects) + [Toast(EmailAuthGuard(email, isOnline, isSignUp, acceptedTerms).value)]
        && loading == old(loading)
      ensures EmailAuthGuard(email, isOnline, isSignUp, acceptedTerms).None? ==>
        && !loading
        && effects == old(effects)
          + [if isSignUp then SignUpCall(email, password, firstName, lastName) else SignInCall(email, password)]
          + match outcome
            case Rejected(f) => [Toast(FailureMessage(f))]
            case Accepted(user, hasSession) => AfterAccepted(isSignUp, user, hasSession)
    {
      var message := EmailAuthGuard(email, isOnline, isSignUp, acceptedTerms);
      if message.Some? {
        effects := effects + [Toast(message.value)];
        return;
      }
      loading := true;
      if isSignUp {
        effects := effects + [SignUpCall(email, password, firstName, lastName)];
      } else {
        effects := effects + [SignInCall(email, password)];
      }
      match outcome {
        case Rejected(f) =>
          effects := effects + [Toast(FailureMessage(f))];
        case Accepted(user, hasSession) =>
          effects := effects + AfterAccepted(isSignUp, user, hasSession);
      }
      loading := false;
    }

    /** `handlePasswordReset`: an invalid address makes no call; a sent e-mail
        hides the reset form. */
    method HandlePasswordReset(resetFails: bool)
      modifies this`effects, this`loading, this`showResetPassword
      ensures !IsValidEmail(email) ==>
        && effects == old(effects) + [Toast(InvalidResetEmail)]
        && loading == old(loading) && showResetPassword == old(showResetPassword)
      ensures IsValidEmail(email) ==>
        && !loading
        && effects == old(effects) + [ResetCall(email), Toast(if resetFails then ResetFailed else ResetSent)]
        && showResetPassword == (old(showResetPassword) && resetFails)
    {
      if !IsValidEmail(email) {
        effects := effects + [Toast(InvalidResetEmail)];
        return;
      }
      loading := true;
      effects := effects + [ResetCall(email)];
      if resetFails {
        effects := effects + [Toast(ResetFailed)];
      } else {
        effects := effects + [Toast(ResetSent)];
        showResetPassword := false;
      }
      loading := false;
    }

    /** `handleOAuth(provider)`. */
    method HandleOAuth(provider: Provider, outcome: OAuthOutcome)
      modifies this`effects, this`loading
      ensures !isOnline ==> effects == old(effects) + [Toast(Offline)] && loading == old(loading)
      ensures isOnline ==> !loading && effects == old(effects) + [OAuthCall(provider)] + OAuthEffects(provider, outcome)
    {
      if !isOnline {
        effects := effects + [Toast(Offline)];
        return;
      }
      loading := true;
      effects := effects + [OAuthCall(provider)];
      var failedWith: Option<Failure> := None;
      match outcome {
        case OAuthRejected(f) =>
          failedWith := Some(f);
        case OAuthAccepted(url, openFails) =>
          if url.Some? && url.value != "" {
            effects := effects + [OpenUrl(url.value)];
            if openFails {
              failedWith := Some(OtherFailure);
            } else {
              effects := effects + [Toast(RedirectingTo(provider))];
            }
          }
      }
      if failedWith.Some? {
        effects := effects + [Toast(OAuthFailureMessage(provider, failedWith.value))];
      }
      loading := false;
    }
  }
}
