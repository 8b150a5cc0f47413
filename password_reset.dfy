/** The password-reset screen reached from a recovery link: its own
    validation order, then update, sign-out and a stack replace to the
    authentication screen. */
module PasswordReset {
  import opened Wrappers
  import opened Strings

  const Mismatch := "Пароли не совпадают"
  const TooShort := "Пароль должен быть не менее 8 символов"
  const NoDigit := "Добавьте минимум 1 цифру"
  const Changed := "Пароль успешно изменен!"
  const Failed := "Ошибка: Не удалось изменить пароль"

  /** `validatePassword`: `None` where the source returns true, otherwise the
      toast it shows before returning false. The confirmation is checked
      first, then the length, then the digit. */
  function Validate(password: string, confirm: string): (r: Option<string>)
    ensures r == None <==> password == confirm && |password| >= 8 && HasDigit(password)
    ensures r == Some(Mismatch) <==> password != confirm
    ensures r == Some(TooShort) <==> password == confirm && |password| < 8
    ensures r == Some(NoDigit) <==> password == confirm && |password| >= 8 && !HasDigit(password)
  {
    if password != confirm then Some(Mismatch)
    else if |password| < 8 then Some(TooShort)
    else if !HasDigit(password) then Some(NoDigit)
    else None
  }

  datatype Effect =
    | Toast(message: string)
    | UpdatePassword(password: string)
    | SignOut
    | ReplaceWith(route: string)   // `StackActions.replace`, not a push

  /** The effects of `handleReset` once validation has passed. */
  function ResetEffects(password: string, updateFails: bool): (e: seq<Effect>)
    ensures |e| >= 2 && e[0] == UpdatePassword(password)
    ensures e[|e| - 1] == ReplaceWith("Auth") <==> !updateFails
    ensures SignOut in e <==> !updateFails
    ensures e[1] == Toast(if updateFails then Failed else Changed)
  {
    if updateFails then [UpdatePassword(password), Toast(Failed)]
    else [UpdatePassword(password), Toast(Changed), SignOut, ReplaceWith("Auth")]
  }

  /** Whatever the backend answers, exactly one update is sent; navigation
      happens only after a successful update, and only after the sign-out. */
  lemma ResetOrder(password: string, updateFails: bool)
    ensures var e := ResetEffects(password, updateFails);
      && e[0] == UpdatePassword(password)
      && (forall k :: 1 <= k < |e| ==> !e[k].UpdatePassword?)
      && (updateFails <==> forall k :: 0 <= k < |e| ==> !e[k].ReplaceWith?)
      && (forall k :: 0 <= k < |e| && e[k].ReplaceWith? ==>
            e[k].route == "Auth" && exists j :: 0 <= j < k && e[j] == SignOut)
  {
    var e := ResetEffects(password, updateFails);
    if !updateFails {
      assert e[2] == SignOut;
      assert !e[3].UpdatePassword?;
    }
  }

  class PasswordResetScreen {
    var password: string
    var confirmPassword: string
    var loading: bool
    var effects: seq<Effect>

    constructor ()
      ensures password == "" && confirmPassword == "" && !loading && effects == []
    {
      password, confirmPassword := "", "";
      loading := false;
      effects := [];
    }

    /** `handleReset`, with whether the backend rejects the update. */
    method HandleReset(updateFails: bool)
      modifies this
      ensures password == old(password) && confirmPassword == old(confirmPassword)
      ensures Validate(password, confirmPassword).Some? ==>
        effects == old(effects) + [Toast(Validate(password, confirmPassword).value)]
        && loading == old(loading)
      ensures Validate(password, confirmPassword).None? ==>
        effects == old(effects) + ResetEffects(password, updateFails) && !loading
    {
      var message := Validate(password, confirmPassword);
      if message.Some? {
        effects := effects + [Toast(message.value)];
        return;
      }
      loading := true;
      effects := effects + [UpdatePassword(password)];
      if updateFails {
        effects := effects + [Toast(Failed)];
      } else {
        effects := effects + [Toast(Changed)];
        effects := effects + [SignOut];
        effects := effects + [ReplaceWith("Auth")];
      }
      loading := false;
    }
  }
}
