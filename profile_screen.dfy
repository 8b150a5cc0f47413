/** The profile screen of the tab navigator: loading the signed-in user into
    the form, saving the names and the e-mail address, and deleting the
    account. */
module ProfileScreen {
  import opened Wrappers
  import opened Strings
  import opened Email

  /** The signed-in user as `getUser` returns it; `metadata` holds the
      `user_metadata` keys that carry text. */
  datatype User = User(id: string, email: Option<string>, metadata: map<string, string>, newEmail: Option<string>)

  /** A value JavaScript treats as true in `a || b`: present and not empty. */
  predicate Truthy(v: Option<string>)
  {
    v.Some? && v.value != ""
  }

  /** `a || b` for text. */
  function Or(a: Option<string>, b: string): (r: string)
    ensures Truthy(a) ==> r == a.value
    ensures !Truthy(a) ==> r == b
  {
    if Truthy(a) then a.value else b
  }

  /** `meta.key`, absent when the key is missing. */
  function Field(meta: map<string, string>, key: string): (v: Option<string>)
    ensures v.Some? <==> key in meta
    ensures v.Some? ==> v.value == meta[key]
  {
    if key in meta then Some(meta[key]) else None
  }

  /** `meta.name?.split(' ')[k]`: the k-th space-separated word of the
      name, absent when there is no name or not that many words. */
  function NameWord(meta: map<string, string>, k: nat): (w: Option<string>)
    ensures w.Some? ==> "name" in meta && k < |Split(meta["name"], ' ')| && w.value == Split(meta["name"], ' ')[k]
    ensures w.None? ==> "name" !in meta || k >= |Split(meta["name"], ' ')|
  {
    if "name" in meta then
      var words := Split(meta["name"], ' ');
      if k < |words| then Some(words[k]) else None
    else None
  }

  /** The address shown in the form: a pending new address first, then the
      current one, then nothing. */
  function LoadedEmail(u: User): (r: string)
    ensures Truthy(u.newEmail) ==> r == u.newEmail.value
    ensures !Truthy(u.newEmail) && Truthy(u.email) ==> r == u.email.value
    ensures !Truthy(u.newEmail) && !Truthy(u.email) ==> r == ""
  {
    Or(u.newEmail, Or(u.email, ""))
  }

  /** `meta.first_name || meta.name?.split(' ')[0] || ''` */
  function LoadedFirstName(meta: map<string, string>): (r: string)
    ensures Truthy(Field(meta, "first_name")) ==> r == meta["first_name"]
  {
    Or(Field(meta, "first_name"), Or(NameWord(meta, 0), ""))
  }

  /** `meta.last_name || meta.name?.split(' ')[1] || ''` */
  function LoadedLastName(meta: map<string, string>): (r: string)
    ensures Truthy(Field(meta, "last_name")) ==> r == meta["last_name"]
  {
    Or(Field(meta, "last_name"), Or(NameWord(meta, 1), ""))
  }

  /** Without explicit name fields, a two-word name is read back as first
      and last name. */
  lemma NamesFromFullName(meta: map<string, string>, first: string, last: string)
    requires !Truthy(Field(meta, "first_name")) && !Truthy(Field(meta, "last_name"))
    requires first != [] && last != []
    requires forall i :: 0 <= i < |first| ==> first[i] != ' '
    requires forall i :: 0 <= i < |last| ==> last[i] != ' '
    requires "name" in meta && meta["name"] == first + " " + last
    ensures LoadedFirstName(meta) == first && LoadedLastName(meta) == last
  {
    SplitAtFirst(first, ' ', last);
    SplitNoSeparator(last, ' ');
    assert first + " " + last == first + [' '] + last;
    assert Split(meta["name"], ' ') == [first, last];
  }

  /** With neither name fields nor a name, both fields load empty. */
  lemma NamesWithoutMetadata(meta: map<string, string>)
    requires "first_name" !in meta && "last_name" !in meta && "name" !in meta
    ensures LoadedFirstName(meta) == "" && LoadedLastName(meta) == ""
  {
  }

  /** Only these two auth events reload the user. */
  predicate ReloadsUser(event: string)
  {
    event == "USER_UPDATED" || event == "INITIAL_SESSION"
  }

  /** The arguments of `updateUser`: the merged metadata and, when it
      changed, the new address. */
  datatype Attributes = Attributes(data: map<string, string>, email: Option<string>)

  /** The attributes `handleUpdateProfile` sends: the current metadata with
      trimmed names on top, and `email` only when it differs from the
      user's current address (always, when no user is loaded). */
  function UpdateAttributes(user: Option<User>, email: string, firstName: string, lastName: string): (a: Attributes)
    ensures a.email.Some? <==> user.None? || user.value.email != Some(email)
    ensures a.email.Some? ==> a.email.value == email
  {
    var meta := if user.Some? then user.value.metadata else map[];
    var data := meta["first_name" := Trim(firstName)]["last_name" := Trim(lastName)];
    var changed := user.None? || user.value.email != Some(email);
    Attributes(data, if changed then Some(email) else None)
  }

  /** The metadata sent is the stored metadata with the two trimmed names
      written over it: no other key is added, dropped or changed. */
  lemma UpdateAttributesData(user: Option<User>, email: string, firstName: string, lastName: string)
    ensures var d := UpdateAttributes(user, email, firstName, lastName).data;
      && "first_name" in d && d["first_name"] == Trim(firstName)
      && "last_name" in d && d["last_name"] == Trim(lastName)
      && (user.Some? ==> forall k :: k in user.value.metadata && k != "first_name" && k != "last_name" ==>
            k in d && d[k] == user.value.metadata[k])
      && (forall k :: k in d ==> k == "first_name" || k == "last_name" || (user.Some? && k in user.value.metadata))
  {
  }

  const InvalidEmailMessage := "Некорректный email"
  const ProfileUpdated := "Профиль обновлен"

  /** The toast for a failed update: two backend messages are translated,
      any other message is shown as it is, and a value that is not an
      `Error` gets a fixed text. */
  function UpdateErrorMessage(t: Thrown): (m: string)
    ensures t == ErrorObj("duplicate key") ==> m == "Email уже используется"
    ensures t == ErrorObj("Email rate limit exceeded") ==> m == "Слишком много запросов"
    ensures t.ErrorObj? && t.message != "duplicate key" && t.message != "Email rate limit exceeded" ==> m == t.message
    ensures t.NonError? ==> m == "Ошибка обновления профиля"
  {
    match t
    case ErrorObj(msg) =>
      if msg == "duplicate key" then "Email уже используется"
      else if msg == "Email rate limit exceeded" then "Слишком много запросов"
      else msg
    case NonError => "Ошибка обновления профиля"
  }

  /** Only the two known backend messages are replaced; every other `Error`
      message reaches the toast unchanged. */
  lemma UpdateErrorPassThrough(t: Thrown)
    ensures t.ErrorObj? ==>
      (UpdateErrorMessage(t) == t.message <==> t.message != "duplicate key" && t.message != "Email rate limit exceeded")
    ensures UpdateErrorMessage(t) != ProfileUpdated || t == ErrorObj(ProfileUpdated)
  {
  }

  /** The text after 'Ошибка удаления: '. */
  function DeleteErrorText(t: Thrown): (m: string)
    ensures t.ErrorObj? ==> m == t.message
    ensures t.NonError? ==> m == "Неизвестная ошибка"
  {
    match t
    case ErrorObj(msg) => msg
    case NonError => "Неизвестная ошибка"
  }

  /** What `getUser` gave `loadUser`. */
  datatype LoadResult = Loaded(user: Option<User>) | LoadFailed(error: Thrown)

  /** What `getUser` gave the delete handler: a thrown value, or the id of
      the signed-in user if there is one. */
  datatype DeleteLookup = LookupThrew(error: Thrown) | LookedUp(id: Option<string>)

  datatype Effect =
    | Toast(message: string)
    | RefreshSession
    | UpdateUserCall(attributes: Attributes)
    | DeleteAccountCall(id: string)
    | SignOutCall
    | Navigate(route: string)

  const NotSignedIn := "Пользователь не авторизован"
  const DeleteFailedPrefix := "Ошибка удаления: "
  const AccountDeleted := "Аккаунт удален"

  /** The effects of confirming the deletion dialog. */
  function DeleteEffects(lookup: DeleteLookup, deleteError: Option<Thrown>): (e: seq<Effect>)
    ensures lookup == LookedUp(None) ==> e == [Toast(NotSignedIn)]
    ensures lookup.LookupThrew? ==>
      e == [Toast(DeleteFailedPrefix + (if lookup.error.ErrorObj? then lookup.error.message else "Неизвестная ошибка"))]
    ensures lookup.LookedUp? && lookup.id.Some? && deleteError.Some? ==>
      e == [DeleteAccountCall(lookup.id.value),
            Toast(DeleteFailedPrefix + (if deleteError.value.ErrorObj? then deleteError.value.message else "Неизвестная ошибка"))]
    ensures lookup.LookedUp? && lookup.id.Some? && deleteError.None? ==> e != [] && e[|e| - 1] == Toast(AccountDeleted)
    ensures Navigate("Auth") in e <==> lookup.LookedUp? && lookup.id.Some? && deleteError.None?
    ensures SignOutCall in e <==> lookup.LookedUp? && lookup.id.Some? && deleteError.None?
    ensures e != [] && e[|e| - 1].Toast?
    ensures lookup.LookedUp? && lookup.id.Some? ==> e[0] == DeleteAccountCall(lookup.id.value)
    ensures !(lookup.LookedUp? && lookup.id.Some?) ==> |e| == 1
  {
    match lookup
    case LookupThrew(t) => [Toast(DeleteFailedPrefix + DeleteErrorText(t))]
    case LookedUp(None) => [Toast(NotSignedIn)]
    case LookedUp(Some(id)) =>
      match deleteError
      case Some(t) => [DeleteAccountCall(id), Toast(DeleteFailedPrefix + DeleteErrorText(t))]
      case None => [DeleteAccountCall(id), SignOutCall, Navigate("Auth"), Toast(AccountDeleted)]
  }

  /** A deletion is never attempted twice, sign-out comes after the deletion
      succeeded, and navigation comes after the sign-out. */
  lemma DeleteOrder(lookup: DeleteLookup, deleteError: Option<Thrown>)
    ensures var e := DeleteEffects(lookup, deleteError);
      && (forall i, j :: 0 <= i < j < |e| ==> !(e[i].DeleteAccountCall? && e[j].DeleteAccountCall?))
      && (forall k :: 0 <= k < |e| && e[k] == SignOutCall ==> k > 0 && e[k - 1].DeleteAccountCall?)
      && (forall k :: 0 <= k < |e| && e[k] == Navigate("Auth") ==> k > 0 && e[k - 1] == SignOutCall)
  {
  }

  /** The form a load fills: the user and the three fields. */
  datatype Form = Form(user: Option<User>, email: string, firstName: string, lastName: string)

  /** The form after `loadUser`: a loaded user replaces it, derived field by
      field from that user; an error, or no user, leaves it as it was. */
  function AfterLoad(f: Form, result: LoadResult): (g: Form)
    ensures result.Loaded? && result.user.Some? ==>
      var u := result.user.value;
      g == Form(Some(u), LoadedEmail(u), LoadedFirstName(u.metadata), LoadedLastName(u.metadata))
    ensures !(result.Loaded? && result.user.Some?) ==> g == f
  {
    match result
    case Loaded(Some(u)) => Form(Some(u), LoadedEmail(u), LoadedFirstName(u.metadata), LoadedLastName(u.metadata))
    case _ => f
  }

  /** The toast of `loadUser`: none for a loaded user, the error's message
      for a thrown `Error`, a fixed text for any other thrown value, and
      'User not found' when no user came back. */
  function LoadToasts(result: LoadResult): (e: seq<Effect>)
    ensures e == [] <==> result.Loaded? && result.user.Some?
    ensures result == Loaded(None) ==> e == [Toast("User not found")]
    ensures result.LoadFailed? && result.error.ErrorObj? ==> e == [Toast(result.error.message)]
    ensures result.LoadFailed? && result.error.NonError? ==> e == [Toast("Ошибка загрузки профиля")]
  {
    match result
    case Loaded(Some(_)) => []
    case Loaded(None) => [Toast("User not found")]
    case LoadFailed(t) => [Toast(if t.ErrorObj? then t.message else "Ошибка загрузки профиля")]
  }

  class ProfileState {
    var user: Option<User>
    var email: string
    var firstName: string
    var lastName: string
    var isLoading: bool
    var effects: seq<Effect>

    function FormOf(): Form
      reads this
    {
      Form(user, email, firstName, lastName)
    }

    constructor ()
      ensures user == None && email == "" && firstName == "" && lastName == "" && !isLoading && effects == []
    {
      user := None;
      email, firstName, lastName := "", "", "";
      isLoading := false;
      effects := [];
    }

    /** `loadUser`: a user fills the form; an error, or no user, only shows
      a toast. Loading ends false either way. */
    method LoadUser(result: LoadResult)
      modifies this
      ensures !isLoading
      ensures result == Loaded(None) ==>
        user == old(user) && email == old(email) && firstName == old(firstName) && lastName == old(lastName)
        && effects == old(effects) + [Toast("User not found")]
      ensures result.LoadFailed? ==>
        user == old(user) && email == old(email) && firstName == old(firstName) && lastName == old(lastName)
        && effects == old(effects) + [Toast(if result.error.ErrorObj? then result.error.message else "Ошибка загрузки профиля")]
      ensures result.Loaded? && result.user.Some? ==>
        var u := result.user.value;
        user == Some(u) && email == LoadedEmail(u)
        && firstName == LoadedFirstName(u.metadata) && lastName == LoadedLastName(u.metadata)
        && effects == old(effects)
      ensures FormOf() == AfterLoad(old(FormOf()), result) && effects == old(effects) + LoadToasts(result)
    {
      isLoading := true;
      match result {
        case LoadFailed(t) =>
          effects := effects + [Toast(if t.ErrorObj? then t.message else "Ошибка загрузки профиля")];
        case Loaded(None) =>
          effects := effects + [Toast("User not found")];
        case Loaded(Some(u)) =>
          user := Some(u);
          email := LoadedEmail(u);
          firstName := LoadedFirstName(u.metadata);
          lastName := LoadedLastName(u.metadata);
      }
      isLoading := false;
    }

    /** The auth-state listener: only the two reload events load the user. */
    method OnAuthStateChange(event: string, result: LoadResult)
      modifies this
      ensures !ReloadsUser(event) ==>
        user == old(user) && email == old(email) && firstName == old(firstName) && lastName == old(lastName)
        && isLoading == old(isLoading) && effects == old(effects)
      ensures ReloadsUser(event) ==>
        && !isLoading && FormOf() == AfterLoad(old(FormOf()), result)
        && effects == old(effects) + LoadToasts(result)
    {
      if event == "USER_UPDATED" || event == "INITIAL_SESSION" {
        LoadUser(result);
      }
    }

    /** A link confirming the address change refreshes the session and then
      reloads the user; any other link is ignored. */
    method OnDeepLink(url: string, result: LoadResult)
      modifies this
      ensures !Contains(url, "email-update-confirm") ==>
        FormOf() == old(FormOf()) && isLoading == old(isLoading) && effects == old(effects)
      ensures Contains(url, "email-update-confirm") ==>
        && !isLoading && FormOf() == AfterLoad(old(FormOf()), result)
        && effects == old(effects) + [RefreshSession] + LoadToasts(result)
    {
      if Contains(url, "email-update-confirm") {
        effects := effects + [RefreshSession];
        LoadUser(result);
      }
    }

    /** `handleUpdateProfile`, with the error `updateUser` reported, if any.
      An invalid address is refused before any call; the local user is not
      changed by a successful update. */
    method HandleUpdateProfile(updateError: Option<Thrown>)
      modifies this
      ensures user == old(user) && email == old(email) && firstName == old(firstName) && lastName == old(lastName)
      ensures !IsValidEmail(old(email)) ==>
        effects == old(effects) + [Toast(InvalidEmailMessage)] && isLoading == old(isLoading)
      ensures IsValidEmail(old(email)) ==>
        && !isLoading
        && effects == old(effects) + [UpdateUserCall(UpdateAttributes(user, email, firstName, lastName)),
          Toast(if updateError.Some? then UpdateErrorMessage(updateError.value) else ProfileUpdated)]
    {
      var valid := IsValidEmail(email);
      if !valid {
        effects := effects + [Toast(InvalidEmailMessage)];
        return;
      }
      isLoading := true;
      var attributes := UpdateAttributes(user, email, firstName, lastName);
      var message := if updateError.Some? then UpdateErrorMessage(updateError.value) else ProfileUpdated;
      effects := effects + [UpdateUserCall(attributes), Toast(message)];
      isLoading := false;
    }

    /** The 'Удалить' button of the deletion dialog. */
    method ConfirmDeleteAccount(lookup: DeleteLookup, deleteError: Option<Thrown>)
      modifies this
      ensures user == old(user) && email == old(email) && firstName == old(firstName) && lastName == old(lastName)
      ensures !isLoading
      ensures effects == old(effects) + DeleteEffects(lookup, deleteError)
    {
      isLoading := true;
      match lookup {
        case LookupThrew(t) =>
          effects := effects + [Toast(DeleteFailedPrefix + DeleteErrorText(t))];
        case LookedUp(None) =>
          effects := effects + [Toast(NotSignedIn)];
        case LookedUp(Some(id)) =>
          effects := effects + [DeleteAccountCall(id)];
          if deleteError.Some? {
            effects := effects + [Toast(DeleteFailedPrefix + DeleteErrorText(deleteError.value))];
          } else {
            effects := effects + [SignOutCall, Navigate("Auth"), Toast(AccountDeleted)];
          }
      }
      isLoading := false;
    }
  }
}
