/** The admin profile page (`pages/admin/Profile.jsx`): three independent cards for the
    name, the email and the password, each saved with its own `PUT /auth/update` body,
    error cell and saving flag. */
module AdminProfile {
  import opened Text
  import opened Net
  import opened Browser
  import opened Session
  import opened Gateway
  import opened AccountForms

  const AvatarLetter := "A"
  const NameFallback := "Failed to update name"
  const EmailFallback := "Failed to update email"
  const PasswordFallback := "Failed to update password"

  class AdminProfilePage {
    const store: AuthStore
    var nameEdit: bool
    var nameSaving: bool
    var nameForm: NameForm
    var nameError: string
    var emailSaving: bool
    var emailError: string
    var emailForm: string
    var pwd: PasswordFields
    var pwdSaving: bool
    var pwdError: string

    /** Outside edit mode the name card shows the signed-in user. */
    ghost predicate Shown()
      reads this, store
    {
      !nameEdit ==> nameForm == FormOf(store.user)
    }

    constructor (store: AuthStore)
      ensures this.store == store && !nameEdit && !nameSaving && !emailSaving && !pwdSaving
      ensures nameForm == FormOf(store.user) && emailForm == FormOf(store.user).email
      ensures nameError == "" && emailError == "" && pwdError == "" && pwd == EmptyPasswords
      ensures Shown()
    {
      this.store := store;
      nameEdit, nameSaving, emailSaving, pwdSaving := false, false, false, false;
      nameForm := FormOf(store.user);
      emailForm := FormOf(store.user).email;
      nameError, emailError, pwdError := "", "", "";
      pwd := EmptyPasswords;
    }

    /** The header avatar: the user's initials, or "A" without a name. */
    function Avatar(): (r: string)
      reads this, store
      ensures |r| <= 2
      ensures store.user.None? || store.user.value.name == "" ==> r == "A"
    {
      InitialsOfLetter('A');
      Initials(if store.user.Some? then store.user.value.name else "", AvatarLetter)
    }

    /** The resync effect that runs when the user changes. */
    method UserChanged()
      modifies this`nameForm, this`emailForm
      ensures nameForm == FormOf(store.user) && emailForm == FormOf(store.user).email && Shown()
    {
      nameForm := FormOf(store.user);
      emailForm := FormOf(store.user).email;
    }

    method StartEdit()
      modifies this`nameEdit
      ensures nameEdit
    {
      nameEdit := true;
    }

    /** Cancel leaves edit mode and restores the name card from the user. */
    method Cancel()
      modifies this`nameEdit, this`nameForm
      ensures !nameEdit && nameForm == FormOf(store.user) && Shown()
    {
      nameEdit := false;
      nameForm := FormOf(store.user);
    }

    /** `saveName`: sends only the name. */
    method SaveName(reply: Reply<UpdateData>) returns (ghost savingAtSend: bool)
      requires store.Valid()
      modifies this`nameEdit, this`nameSaving, this`nameError, this`nameForm, this`emailForm, store`user, store.win
      ensures store.Valid() && (old(Shown()) ==> Shown())
      ensures savingAtSend && !nameSaving && store.token == old(store.token)
      ensures store.win.storage == old(store.win.storage)
      ensures store.win.trace == old(store.win.trace)
        + [Send(PutAuthUpdate(UpdatePayload(Some(old(nameForm.name)), None, None, None)), WithBearer(map[], old(store.win.GetItem(TokenKey))))]
      ensures reply.Ok? ==>
        && nameError == "" && !nameEdit && store.user == reply.data.user
        && nameForm == FormOf(reply.data.user) && emailForm == FormOf(reply.data.user).email
      ensures reply.Err? ==>
        && nameError == MessageOr(reply.failure, NameFallback)
        && store.user == old(store.user) && nameEdit == old(nameEdit)
        && nameForm == old(nameForm) && emailForm == old(emailForm)
    {
      nameError := "";
      nameSaving := true;
      savingAtSend := nameSaving;
      var r := ApiCall(store.win, PutAuthUpdate(UpdatePayload(Some(nameForm.name), None, None, None)), map[], reply);
      if r.Ok? {
        store.SetUser(r.data.user);
        UserChanged();
        nameEdit := false;
      } else {
        nameError := MessageOr(r.failure, NameFallback);
      }
      nameSaving := false;
    }

    /** `saveEmail`: sends only the email; edit mode of the name card is not touched. */
    method SaveEmail(reply: Reply<UpdateData>) returns (ghost savingAtSend: bool)
      requires store.Valid()
      modifies this`emailSaving, this`emailError, this`nameForm, this`emailForm, store`user, store.win
      ensures store.Valid() && (old(Shown()) ==> Shown())
      ensures savingAtSend && !emailSaving && store.token == old(store.token)
      ensures store.win.storage == old(store.win.storage)
      ensures store.win.trace == old(store.win.trace)
        + [Send(PutAuthUpdate(UpdatePayload(None, Some(old(emailForm)), None, None)), WithBearer(map[], old(store.win.GetItem(TokenKey))))]
      ensures reply.Ok? ==>
        && emailError == "" && store.user == reply.data.user
        && nameForm == FormOf(reply.data.user) && emailForm == FormOf(reply.data.user).email
      ensures reply.Err? ==>
        && emailError == MessageOr(reply.failure, EmailFallback)
        && store.user == old(store.user) && nameForm == old(nameForm) && emailForm == old(emailForm)
    {
      emailError := "";
      emailSaving := true;
      savingAtSend := emailSaving;
      var r := ApiCall(store.win, PutAuthUpdate(UpdatePayload(None, Some(emailForm), None, None)), map[], reply);
      if r.Ok? {
        store.SetUser(r.data.user);
        UserChanged();
      } else {
        emailError := MessageOr(r.failure, EmailFallback);
      }
      emailSaving := false;
    }

    /** `savePassword`: the checks run before the saving flag is raised, and a refused
        password sends nothing. */
    method SavePassword(reply: Reply<UpdateData>) returns (ghost savingAtSend: bool)
      requires store.Valid()
      modifies this`pwd, this`pwdSaving, this`pwdError, store.win
      ensures store.Valid() && store.user == old(store.user) && store.token == old(store.token)
      ensures store.win.storage == old(store.win.storage)
      ensures AdminPasswordError(old(pwd)).Some? ==>
        && pwdError == AdminPasswordError(old(pwd)).value
        && pwd == old(pwd) && pwdSaving == old(pwdSaving) && store.win.trace == old(store.win.trace)
      ensures AdminPasswordError(old(pwd)).None? ==>
        && savingAtSend && !pwdSaving
        && store.win.trace == old(store.win.trace)
             + [Send(PutAuthUpdate(PasswordPayload(old(pwd))), WithBearer(map[], old(store.win.GetItem(TokenKey))))]
      ensures AdminPasswordError(old(pwd)).None? && reply.Ok? ==> pwdError == "" && pwd == EmptyPasswords
      ensures AdminPasswordError(old(pwd)).None? && reply.Err? ==>
        pwdError == MessageOr(reply.failure, PasswordFallback) && pwd == old(pwd)
    {
      savingAtSend := false;
      pwdError := "";
      if pwd.newPassword == "" {
        pwdError := RequiredError;
        return;
      }
      if pwd.newPassword != pwd.confirmPassword {
        pwdError := MismatchError;
        return;
      }
      pwdSaving := true;
      savingAtSend := pwdSaving;
      var r := ApiCall(store.win, PutAuthUpdate(PasswordPayload(pwd)), map[], reply);
      if r.Ok? {
        pwd := EmptyPasswords;
      } else {
        pwdError := MessageOr(r.failure, PasswordFallback);
      }
      pwdSaving := false;
    }
  }
}
