/** The two HTTP clients: `lib/api.js`, which every page of this model uses, and
    `lib/axios.js`, used by the company applications page and the admin service. Both
    attach the stored token as a bearer header; only the second installs a response hook,
    which on a 401 removes the stored token and sends the browser to the login page. */
module Gateway {
  import opened Text
  import opened Net
  import opened Browser
  import opened Session
  import opened Guard

  datatype Client = Api | Axios

  const DefaultBaseUrl := "http://localhost:3005/api"
  const AuthorizationHeader := "Authorization"

  /** The base URL for the value of `VITE_API_URL` (None when unset); `lib/api.js` uses the
      variable as it is, so its base is unset with it. */
  function BaseUrl(c: Client, env: Option<string>): (url: Option<string>)
    ensures c == Axios ==> url.Some? && (url.value == DefaultBaseUrl <==> env.None? || env.value == "" || env.value == DefaultBaseUrl)
    ensures c == Axios && env.Some? && env.value != "" ==> url == env
    ensures c == Api ==> url == env
  {
    match c
    case Api => env
    case Axios => Some(if env.Some? then OrElse(env.value, DefaultBaseUrl) else DefaultBaseUrl)
  }

  /** The headers the client sends on every request before any per-request header. */
  function DefaultHeaders(c: Client): map<string, string>
  {
    match c
    case Api => map[]
    case Axios => map["Content-Type" := "application/json", "Accept" := "application/json"]
  }

  /** The headers after the request hook, for the token it reads from storage. */
  function WithBearer(headers: map<string, string>, stored: Option<string>): (r: map<string, string>)
    ensures Truthy(stored) ==> AuthorizationHeader in r && r[AuthorizationHeader] == "Bearer " + stored.value
    ensures !Truthy(stored) ==> r == headers
    ensures forall k :: k != AuthorizationHeader ==> (k in r <==> k in headers)
    ensures forall k :: k != AuthorizationHeader && k in r ==> r[k] == headers[k]
  {
    if Truthy(stored) then headers[AuthorizationHeader := "Bearer " + stored.value] else headers
  }

  /** A request config whose headers the hooks may change in place. */
  class RequestConfig {
    const request: Request
    var headers: map<string, string>

    constructor (request: Request, headers: map<string, string>)
      ensures this.request == request && this.headers == headers
    {
      this.request := request;
      this.headers := headers;
    }
  }

  /** The request hook of both clients: it returns the same config, whose headers gain the
      bearer header when storage holds a truthy token. */
  method AttachBearer(config: RequestConfig, win: Window) returns (r: RequestConfig)
    modifies config
    ensures r == config
    ensures config.headers == WithBearer(old(config.headers), win.GetItem(TokenKey))
  {
    var stored := win.GetItem(TokenKey);
    if Truthy(stored) {
      config.headers := config.headers[AuthorizationHeader := "Bearer " + stored.value];
    }
    r := config;
  }

  /** The rejections the response hook of `lib/axios.js` acts on. */
  predicate Unauthorized<T>(c: Client, reply: Reply<T>)
  {
    c == Axios && reply.Err? && reply.failure.ErrorResponse? && reply.failure.status == 401
  }

  /** The response hook: successes and failures reach the caller as they came; a 401 on
      `lib/axios.js` first removes the stored token and navigates to `/login`. */
  method OnResponse<T>(c: Client, win: Window, reply: Reply<T>) returns (r: Reply<T>)
    modifies win
    ensures r == reply
    ensures Unauthorized(c, reply) ==> win.storage == old(win.storage) - {TokenKey}
    ensures Unauthorized(c, reply) ==> win.trace == old(win.trace) + [StorageRemove(TokenKey), Navigate("/login")]
    ensures !Unauthorized(c, reply) ==> unchanged(win)
  {
    if Unauthorized(c, reply) {
      win.RemoveItem(TokenKey);
      win.Emit(Navigate("/login"));
    }
    r := reply;
  }

  /** The effects one call leaves in the trace. */
  function CallEffects<T>(c: Client, req: Request, extra: map<string, string>, stored: Option<string>, reply: Reply<T>): seq<Effect>
  {
    [Send(req, WithBearer(DefaultHeaders(c) + extra, stored))]
      + (if Unauthorized(c, reply) then [StorageRemove(TokenKey), Navigate("/login")] else [])
  }

  /** One request through a client: the config is built from the client's defaults and the
      per-request headers, the request hook runs, the request is sent, and `reply` (the
      server's answer) passes through the response hook back to the caller. */
  method Call<T>(c: Client, win: Window, req: Request, extra: map<string, string>, reply: Reply<T>) returns (r: Reply<T>)
    modifies win
    ensures r == reply
    ensures win.trace == old(win.trace) + CallEffects(c, req, extra, old(win.GetItem(TokenKey)), reply)
    ensures win.storage == if Unauthorized(c, reply) then old(win.storage) - {TokenKey} else old(win.storage)
  {
    var config := new RequestConfig(req, DefaultHeaders(c) + extra);
    config := AttachBearer(config, win);
    win.Emit(Send(config.request, config.headers));
    r := OnResponse(c, win, reply);
  }

  /** A call through `lib/api.js`, the client of every page modelled here: one request in
      the trace, storage untouched, the reply handed back as it came. */
  method ApiCall<T>(win: Window, req: Request, extra: map<string, string>, reply: Reply<T>) returns (r: Reply<T>)
    modifies win
    ensures r == reply
    ensures win.storage == old(win.storage)
    ensures win.trace == old(win.trace) + [Send(req, WithBearer(extra, old(win.GetItem(TokenKey))))]
  {
    r := Call(Api, win, req, extra, reply);
    assert DefaultHeaders(Api) + extra == extra;
  }

  /** The two clients on the same request: through `lib/api.js` any reply, a 401 included,
      leaves exactly the one send with the caller's headers; through `lib/axios.js` a 401
      adds the removal of the stored token and the jump to `/login` after its send, and
      any other reply leaves the send alone. */
  lemma ClientEffects<T>(req: Request, extra: map<string, string>, stored: Option<string>, reply: Reply<T>)
    ensures CallEffects(Api, req, extra, stored, reply) == [Send(req, WithBearer(extra, stored))]
    ensures reply.Err? && reply.failure.ErrorResponse? && reply.failure.status == 401 ==>
      CallEffects(Axios, req, extra, stored, reply)
        == [Send(req, WithBearer(DefaultHeaders(Axios) + extra, stored)), StorageRemove(TokenKey), Navigate("/login")]
    ensures !(reply.Err? && reply.failure.ErrorResponse? && reply.failure.status == 401) ==>
      CallEffects(Axios, req, extra, stored, reply) == [Send(req, WithBearer(DefaultHeaders(Axios) + extra, stored))]
  {
    assert DefaultHeaders(Api) + extra == extra;
  }

  /** A 401 through `lib/axios.js` leaves storage from which the reloaded store reads no
      token, and every guarded route then redirects to the login page. */
  lemma UnauthorizedLogsOut(storage: map<string, string>, user: Option<User>, roles: Option<seq<string>>)
    ensures Load(storage - {TokenKey}) == None
    ensures Decide(Load(storage - {TokenKey}), user, roles) == RedirectLogin
  {
  }
}
