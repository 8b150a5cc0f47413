/** The change-password screen: local validation of the new password, the
    single backend update it guards, and the reaction to a failed update. */
module ChangePassword {
  import opened Wrappers
  import opened Strings

  const TooShort := "Пароль должен быть не менее 8 символов"
  const NoDigit := "Добавьте минимум 1 цифру"
  const Mismatch := "Пароли не совпадают"
  const NotDifferent := "Новый пароль должен отличаться от текущего"
  const Changed := "Пароль успешно изменён 🎉"
  const SessionExpired := "Сессия истекла. Войдите снова"
  const UnknownError := "Неизвестная ошибка"

  /** `validatePassword`: the message of the first failing check, in the order
      length, digit, confirmation, difference from the current password; or
      nothing when all four pass. */
  function Validate(newPassword: string, confirm: string, current: string): (r: Option<string>)
    ensures r == None <==>
      |newPassword| >= 8 && HasDigit(newPassword) && newPassword == confirm && newPassword != current
    ensures r == Some(TooShort) <==> |newPassword| < 8
    ensures r == Some(NoDigit) <==> |newPassword| >= 8 && !HasDigit(newPassword)
    ensures r == Some(Mismatch) <==>
      |newPassword| >= 8 && HasDigit(newPassword) && newPassword != confirm
    ensures r == Some(NotDifferent) <==>
      |newPassword| >= 8 && HasDigit(newPassword) && newPassword == confirm && newPassword == current
  {
    if |newPassword| < 8 then Some(TooShort)
    else if !HasDigit(newPassword) then Some(NoDigit)
    else if newPassword != confirm then Some(Mismatch)
    else if newPassword == current then Some(NotDifferent)
    else None
  }

  /** What `handleAuthError` does: the toast it shows, and whether it signs
      the user out. */
  datatype Reaction = Reaction(toast: string, signsOut: bool)

  /** `handleAuthError`: only an expired token signs the user out. */
  function ReactToError(error: Thrown): (r: Reaction)
    ensures r.signsOut <==> error.ErrorObj? && Contains(error.message, "JWT expired")
    ensures r.signsOut ==> r.toast == SessionExpired
    ensures !r.signsOut ==> r.toast == "Ошибка: " + (if error.ErrorObj? then error.message else UnknownError)
  {
    var message := if error.ErrorObj? then error.message else UnknownError;
    UnknownErrorIsNotExpiry();
    if Contains(message, "JWT expired") then Reaction(SessionExpired, true)
    else Reaction("Ошибка: " + message, false)
  }

  /** The fallback text never looks like an expired token. */
  lemma UnknownErrorIsNotExpiry()
    ensures !Contains(UnknownError, "JWT expired")
  {
    assert 'J' !in UnknownError;
    FirstCharAbsent(UnknownError, "JWT expired");
  }

  /** What the screen does, in order. */
  datatype Effect =
    | Toast(message: string)
    | UpdatePassword(password: string)   // `supabase.auth.updateUser({ password })`
    | SignOut
    | GoBackLater                        // `setTimeout(() => navigation.goBack(), 2500)`

  class ChangePasswordScreen {
    var currentPassword: string
    var newPassword: string
    var confirmPassword: string
    var isLoading: bool
    var effects: seq<Effect>

    constructor ()
      ensures currentPassword == "" && newPassword == "" && confirmPassword == ""
      ensures !isLoading && effects == []
    {
      currentPassword, newPassword, confirmPassword := "", "", "";
      isLoading := false;
      effects := [];
    }

    /** `handleChangePassword`, with the backend's answer to the update passed
        in (`None` when it succeeds). */
    method HandleChangePassword(updateError: Option<Thrown>)
      modifies this
      ensures currentPassword == old(currentPassword) && newPassword == old(newPassword)
      ensures confirmPassword == old(confirmPassword)
      ensures Validate(newPassword, confirmPassword, currentPassword).Some? ==>
        && effects == old(effects) + [Toast(Validate(newPassword, confirmPassword, currentPassword).value)]
        && isLoading == old(isLoading)
      ensures Validate(newPassword, confirmPassword, currentPassword).None? ==>
        && !isLoading
        && effects == old(effects) + [UpdatePassword(newPassword)] +
          match updateError
          case None => [Toast(Changed), GoBackLater]
          case Some(e) =>
            var r := ReactToError(e);
            if r.signsOut then [Toast(r.toast), SignOut] else [Toast(r.toast)]
    {
      var message := Validate(newPassword, confirmPassword, currentPassword);
      if message.Some? {
        effects := effects + [Toast(message.value)];
        return;
      }
      isLoading := true;
      effects := effects + [UpdatePassword(newPassword)];
      match updateError {
        case None =>
          effects := effects + [Toast(Changed), GoBackLater];
        case Some(e) =>
          var r := ReactToError(e);
          effects := effects + [Toast(r.toast)];
          if r.signsOut {
            effects := effects + [SignOut];
          }
      }
      isLoading := false;
    }
  }

  /** Every update the screen sends carries a password that passed all four
      checks; in particular it differs from the current one, which is only
      compared locally and never sent. */
  lemma SentPasswordIsValid(newPassword: string, confirm: string, current: string)
    requires Validate(newPassword, confirm, current) == None
    ensures |newPassword| >= 8 && HasDigit(newPassword)
    ensures newPassword == confirm && newPassword != current
  {
  }
}
