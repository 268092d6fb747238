/** The authentication store (`AuthProvider`): a token cell and a user cell, with the
    effect that mirrors the token into `localStorage` under `'token'` every time the token
    cell changes (and once when the store is mounted). */
module Session {
  import opened Text
  import opened Net
  import opened Browser

  const TokenKey := "token"

  /** `if (token)`: null, undefined and the empty string are falsy. */
  predicate Truthy(t: Option<string>)
  {
    t.Some? && t.value != ""
  }

  /** Storage agrees with the token cell: the truthy token under `'token'`, or no entry. */
  predicate Mirrors(storage: map<string, string>, token: Option<string>)
  {
    if Truthy(token) then TokenKey in storage && storage[TokenKey] == token.value
    else TokenKey !in storage
  }

  /** The stored token as `localStorage.getItem('token')` reads it. */
  function Load(storage: map<string, string>): Option<string>
  {
    if TokenKey in storage then Some(storage[TokenKey]) else None
  }

  /** Storage after the sync effect has run for `token`. */
  function Synced(storage: map<string, string>, token: Option<string>): (r: map<string, string>)
    ensures Mirrors(r, token)
    ensures forall k :: k != TokenKey ==> (k in r <==> k in storage)
    ensures forall k :: k != TokenKey && k in r ==> r[k] == storage[k]
  {
    if Truthy(token) then storage[TokenKey := token.value] else storage - {TokenKey}
  }

  /** The storage call the sync effect makes for `token`. */
  function SyncEffect(token: Option<string>): (e: Effect)
    ensures Truthy(token) <==> e.StorageSet?
    ensures e.StorageSet? ==> e == StorageSet(TokenKey, token.value)
    ensures e.StorageRemove? ==> e == StorageRemove(TokenKey)
  {
    if Truthy(token) then StorageSet(TokenKey, token.value) else StorageRemove(TokenKey)
  }

  /** The storage calls a `setToken(after)` on a cell holding `before` leads to. */
  function TokenEffects(before: Option<string>, after: Option<string>): seq<Effect>
  {
    if after != before then [SyncEffect(after)] else []
  }

  /** Re-initialising the store over synced storage gives back a truthy token, and no token
      for a falsy one (the page reload after a login, a logout or a 401). */
  lemma ReloadAfterSync(storage: map<string, string>, token: Option<string>)
    ensures Load(Synced(storage, token)) == if Truthy(token) then token else None
  {
  }

  /** A store whose token cell agrees with storage reads back its own truthy token. */
  lemma LoadMirrored(storage: map<string, string>, token: Option<string>)
    requires Mirrors(storage, token)
    ensures Truthy(token) ==> Load(storage) == token
    ensures !Truthy(token) ==> Load(storage) == None
  {
  }

  /** Running the sync effect on storage that already mirrors the token changes nothing. */
  lemma SyncedIdempotent(storage: map<string, string>, token: Option<string>)
    requires Mirrors(storage, token)
    ensures Synced(storage, token) == storage
  {
    if Truthy(token) {
      assert storage[TokenKey := token.value] == storage;
    } else {
      assert storage - {TokenKey} == storage;
    }
  }

  class AuthStore {
    const win: Window
    var token: Option<string>
    var user: Option<User>

    /** The storage-coherence invariant. */
    ghost predicate Valid()
      reads this, win
    {
      Mirrors(win.storage, token)
    }

    /** Mount: the token cell is read from storage, the user starts null, and the sync
        effect runs once. */
    constructor (win: Window)
      modifies win
      ensures this.win == win
      ensures token == Load(old(win.storage)) && user == None
      ensures win.storage == Synced(old(win.storage), token)
      ensures win.trace == old(win.trace) + [SyncEffect(token)]
      ensures Valid()
    {
      this.win := win;
      token := Load(win.storage);
      user := None;
      new;
      Sync();
    }

    /** The effect body: write the truthy token, or remove the entry. */
    method Sync()
      modifies win
      ensures win.storage == Synced(old(win.storage), token)
      ensures win.trace == old(win.trace) + [SyncEffect(token)]
      ensures Valid()
    {
      if Truthy(token) {
        win.SetItem(TokenKey, token.value);
      } else {
        win.RemoveItem(TokenKey);
      }
    }

    /** `setToken(t)`; the effect runs only when the cell actually changes. */
    method SetToken(t: Option<string>)
      requires Valid()
      modifies this, win
      ensures token == t && user == old(user)
      ensures win.storage == Synced(old(win.storage), t)
      ensures win.trace == old(win.trace) + TokenEffects(old(token), t)
      ensures Valid()
    {
      if t != token {
        token := t;
        Sync();
      } else {
        SyncedIdempotent(win.storage, t);
      }
    }

    /** `setUser(u)`: the token cell and storage are untouched. */
    method SetUser(u: Option<User>)
      modifies this`user
      ensures user == u && token == old(token)
      ensures unchanged(win)
    {
      user := u;
    }

    /** `logout`: both cells become null, so the stored token is removed. */
    method Logout()
      requires Valid()
      modifies this, win
      ensures user == None && token == None
      ensures win.storage == old(win.storage) - {TokenKey}
      ensures win.trace == old(win.trace) + TokenEffects(old(token), None)
      ensures Valid()
    {
      SetUser(None);
      SetToken(None);
    }
  }
}
