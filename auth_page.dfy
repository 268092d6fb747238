/** The combined sign-in / sign-up page (`pages/Auth.jsx`): the landing path chosen from
    the signed-in user's role, the registration body with its company-name rule, and the
    submit handler with its error and loading cells. */
module AuthPage {
  import opened Text
  import opened Net
  import opened Browser
  import opened Session
  import opened Gateway

  datatype Mode = LoginMode | RegisterMode

  /** The mode-switch button. */
  function Toggled(m: Mode): (r: Mode)
    ensures r != m
  {
    if m == LoginMode then RegisterMode else LoginMode
  }

  lemma ToggleTwice(m: Mode)
    ensures Toggled(Toggled(m)) == m
  {
  }

  const DefaultRole := "STUDENT"
  const SubmitFallback := "Something went wrong"

  /** Where a signed-in user is sent: companies and admins to their areas, everyone else,
      a user without a role included, to the student area. */
  function LandingPath(role: Option<string>): (path: string)
    ensures path == "/company" <==> role == Some("COMPANY")
    ensures path == "/admin" <==> role == Some("ADMIN")
    ensures path == "/student" <==> role != Some("COMPANY") && role != Some("ADMIN")
  {
    if role == Some("COMPANY") then "/company"
    else if role == Some("ADMIN") then "/admin"
    else "/student"
  }

  /** `data.user?.role`: the role a present user carries; a reply without a user has
      no role, and so lands on the student area. */
  function RoleOf(user: Option<User>): (r: Option<string>)
    ensures user.Some? ==> r == user.value.role
    ensures user.None? ==> r.None? && LandingPath(r) == "/student"
  {
    if user.Some? then user.value.role else None
  }

  /** The body of `POST /auth/register`: the company name is sent only for a company, and
      falls back to the person's name when its own field is empty. */
  function RegistrationBody(name: string, email: string, password: string, role: string, companyName: string): (b: RegisterBody)
    ensures b.name == name && b.email == email && b.password == password && b.role == role
    ensures b.companyName.Some? <==> role == "COMPANY"
    ensures role == "COMPANY" && companyName != "" ==> b.companyName == Some(companyName)
    ensures role == "COMPANY" && companyName == "" ==> b.companyName == Some(name)
  {
    RegisterBody(name, email, password, role, if role == "COMPANY" then Some(OrElse(companyName, name)) else None)
  }

  /** A company registering with both name fields filled in sends a non-empty company name. */
  lemma CompanyNamePresent(name: string, email: string, password: string, companyName: string)
    requires name != "" || companyName != ""
    ensures RegistrationBody(name, email, password, "COMPANY", companyName).companyName.Some?
    ensures RegistrationBody(name, email, password, "COMPANY", companyName).companyName.value != ""
  {
  }

  class AuthForm {
    const store: AuthStore
    var mode: Mode
    var name: string
    var companyName: string
    var email: string
    var password: string
    var role: string
    var loading: bool
    var error: string

    constructor (store: AuthStore, initialMode: Mode)
      ensures this.store == store && mode == initialMode && role == DefaultRole
      ensures name == "" && companyName == "" && email == "" && password == ""
      ensures !loading && error == ""
    {
      this.store := store;
      mode := initialMode;
      name, companyName, email, password := "", "", "", "";
      role := DefaultRole;
      loading := false;
      error := "";
    }

    method ToggleMode()
      modifies this`mode
      ensures mode == Toggled(old(mode))
    {
      mode := Toggled(mode);
    }

    /** The submit handler, with `reply` the server's answer to the one request it sends.
        `loadingAtSend` is the loading cell at the moment the request goes out. */
    method HandleSubmit(reply: Reply<AuthData>) returns (ghost loadingAtSend: bool)
      requires store.Valid()
      modifies this`loading, this`error, store, store.win
      ensures store.Valid()
      ensures loadingAtSend && !loading
      ensures reply.Ok? ==> error == ""
      ensures reply.Err? ==> error == MessageOr(reply.failure, SubmitFallback)
      ensures mode == LoginMode && reply.Ok? ==>
        && store.token == reply.data.token && store.user == reply.data.user
        && store.win.trace == old(store.win.trace)
             + [Send(PostLogin(email, password), WithBearer(map[], old(store.win.GetItem(TokenKey))))]
             + TokenEffects(old(store.token), reply.data.token)
             + [Navigate(LandingPath(RoleOf(reply.data.user)))]
      ensures mode == RegisterMode || reply.Err? ==> store.token == old(store.token) && store.user == old(store.user)
      ensures mode == LoginMode && reply.Ok? ==> store.win.storage == Synced(old(store.win.storage), reply.data.token)
      ensures mode == RegisterMode || reply.Err? ==> store.win.storage == old(store.win.storage)
      ensures mode == LoginMode && reply.Err? ==>
        store.win.trace == old(store.win.trace) + [Send(PostLogin(email, password), WithBearer(map[], old(store.win.GetItem(TokenKey))))]
      ensures mode == RegisterMode ==>
        store.win.trace == old(store.win.trace)
          + [Send(PostRegister(RegistrationBody(name, email, password, role, companyName)), WithBearer(map[], old(store.win.GetItem(TokenKey))))]
          + (if reply.Ok? then [Navigate("/login")] else [])
    {
      error := "";
      loading := true;
      loadingAtSend := loading;
      if mode == LoginMode {
        var r := ApiCall(store.win, PostLogin(email, password), map[], reply);
        if r.Ok? {
          store.SetToken(r.data.token);
          store.SetUser(r.data.user);
          var to := LandingPath(RoleOf(r.data.user));
          store.win.Emit(Navigate(to));
        } else {
          error := MessageOr(r.failure, SubmitFallback);
        }
      } else {
        var body := RegistrationBody(name, email, password, role, companyName);
        var r := ApiCall(store.win, PostRegister(body), map[], reply);
        if r.Ok? {
          store.win.Emit(Navigate("/login"));
        } else {
          error := MessageOr(r.failure, SubmitFallback);
        }
      }
      loading := false;
    }
  }
}
