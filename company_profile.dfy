/** The company profile page (`pages/company/Profile.jsx`): one form for the name and an
    optional password change, saved through `PUT /auth/update`. */
module CompanyProfile {
  import opened Text
  import opened Net
  import opened Browser
  import opened Session
  import opened Gateway
  import opened AccountForms

  const AvatarLetter := "C"
  const SaveFallback := "Failed to update"

  class CompanyProfilePage {
    const store: AuthStore
    var edit: bool
    var saving: bool
    var form: NameForm
    var error: string
    var pwd: PasswordFields

    /** Outside edit mode the form shows the signed-in user. */
    ghost predicate Shown()
      reads this, store
    {
      !edit ==> form == FormOf(store.user)
    }

    constructor (store: AuthStore)
      ensures this.store == store && !edit && !saving && error == ""
      ensures form == FormOf(store.user) && pwd == EmptyPasswords
      ensures Shown()
    {
      this.store := store;
      edit, saving := false, false;
      form := FormOf(store.user);
      error := "";
      pwd := EmptyPasswords;
    }

    /** The header avatar: the user's initials, or "C" without a name. */
    function Avatar(): (r: string)
      reads this, store
      ensures |r| <= 2
      ensures store.user.None? || store.user.value.name == "" ==> r == "C"
    {
      InitialsOfLetter('C');
      Initials(if store.user.Some? then store.user.value.name else "", AvatarLetter)
    }

    method StartEdit()
      modifies this`edit
      ensures edit
    {
      edit := true;
    }

    /** Cancel leaves edit mode and restores the form from the user. */
    method Cancel()
      modifies this`edit, this`form
      ensures !edit && form == FormOf(store.user) && Shown()
    {
      edit := false;
      form := FormOf(store.user);
    }

    /** The resync effect that runs when the user changes. */
    method UserChanged()
      modifies this`form
      ensures form == FormOf(store.user) && Shown()
    {
      form := FormOf(store.user);
    }

    /** `onSave` for the server's answer `reply`; `savingAtSend` is the saving flag while the
        request is out. */
    method OnSave(reply: Reply<UpdateData>) returns (ghost savingAtSend: bool)
      requires store.Valid()
      modifies this`edit, this`saving, this`form, this`error, this`pwd, store`user, store.win
      ensures store.Valid() && (old(Shown()) ==> Shown())
      ensures !saving && store.token == old(store.token)
      ensures store.win.storage == old(store.win.storage)
      ensures CompanyPasswordError(old(pwd)).Some? ==>
        && error == MismatchError && store.win.trace == old(store.win.trace)
        && store.user == old(store.user) && edit == old(edit) && form == old(form) && pwd == old(pwd)
      ensures CompanyPasswordError(old(pwd)).None? ==>
        && savingAtSend
        && store.win.trace == old(store.win.trace)
             + [Send(PutAuthUpdate(CompanyPayload(old(form.name), old(pwd))), WithBearer(map[], old(store.win.GetItem(TokenKey))))]
      ensures CompanyPasswordError(old(pwd)).None? && reply.Ok? ==>
        && error == "" && store.user == reply.data.user && !edit
        && form == FormOf(reply.data.user) && pwd == EmptyPasswords
      ensures CompanyPasswordError(old(pwd)).None? && reply.Err? ==>
        && error == MessageOr(reply.failure, SaveFallback)
        && store.user == old(store.user) && edit == old(edit) && form == old(form) && pwd == old(pwd)
    {
      savingAtSend := false;
      error := "";
      saving := true;
      if CompanyPasswordError(pwd).Some? {
        error := MismatchError;
        saving := false;
        return;
      }
      var payload := CompanyPayload(form.name, pwd);
      savingAtSend := saving;
      var r := ApiCall(store.win, PutAuthUpdate(payload), map[], reply);
      if r.Ok? {
        store.SetUser(r.data.user);
        UserChanged();
        edit := false;
        pwd := EmptyPasswords;
      } else {
        error := MessageOr(r.failure, SaveFallback);
      }
      saving := false;
    }
  }
}
