/** The stand-alone registration page (`pages/Register.jsx`): the same body as the combined
    page, but a successful registration signs the user in and goes to `/`. */
module RegisterPage {
  import opened Text
  import opened Net
  import opened Browser
  import opened Session
  import opened Gateway
  import opened AuthPage

  const RegisterFallback := "Registration failed"

  class RegisterForm {
    const store: AuthStore
    var name: string
    var email: string
    var password: string
    var role: string
    var companyName: string
    var loading: bool
    var error: string

    constructor (store: AuthStore)
      ensures this.store == store && role == DefaultRole
      ensures name == "" && email == "" && password == "" && companyName == ""
      ensures !loading && error == ""
    {
      this.store := store;
      name, email, password, companyName := "", "", "", "";
      role := DefaultRole;
      loading := false;
      error := "";
    }

    /** The submit handler for the server's answer `reply`. */
    method OnSubmit(reply: Reply<AuthData>) returns (ghost loadingAtSend: bool)
      requires store.Valid()
      modifies this`loading, this`error, store, store.win
      ensures store.Valid()
      ensures loadingAtSend && !loading
      ensures reply.Ok? ==> error == "" && store.token == reply.data.token && store.user == reply.data.user
      ensures reply.Ok? ==>
        store.win.trace == old(store.win.trace)
          + [Send(PostRegister(RegistrationBody(name, email, password, role, companyName)), WithBearer(map[], old(store.win.GetItem(TokenKey))))]
          + TokenEffects(old(store.token), reply.data.token)
          + [Navigate("/")]
      ensures reply.Err? ==> error == MessageOr(reply.failure, RegisterFallback)
      ensures reply.Ok? ==> store.win.storage == Synced(old(store.win.storage), reply.data.token)
      ensures reply.Err? ==> store.token == old(store.token) && store.user == old(store.user)
      ensures reply.Err? ==> store.win.storage == old(store.win.storage)
      ensures reply.Err? ==>
        store.win.trace == old(store.win.trace)
          + [Send(PostRegister(RegistrationBody(name, email, password, role, companyName)), WithBearer(map[], old(store.win.GetItem(TokenKey))))]
    {
      error := "";
      loading := true;
      loadingAtSend := loading;
      var body := RegistrationBody(name, email, password, role, companyName);
      var r := ApiCall(store.win, PostRegister(body), map[], reply);
      if r.Ok? {
        store.SetToken(r.data.token);
        store.SetUser(r.data.user);
        store.win.Emit(Navigate("/"));
      } else {
        error := MessageOr(r.failure, RegisterFallback);
      }
      loading := false;
    }
  }
}
