/** The access guard (`ProtectedRoute`): a decision over the token, the user (null until
    something calls `setUser`) and the optional list of required roles. */
module Guard {
  import opened Text
  import opened Net
  import opened Session

  /** Both redirects replace the current history entry. */
  datatype Outcome = RedirectLogin | RedirectHome | RenderChildren

  /** `roles.includes(user.role)`; a user without a role matches no role name. */
  predicate RoleIn(role: Option<string>, roles: seq<string>)
  {
    role.Some? && role.value in roles
  }

  /** `roles` is an array whenever it is given, and every array is truthy, the empty one too. */
  function Decide(token: Option<string>, user: Option<User>, roles: Option<seq<string>>): (o: Outcome)
    ensures o == RedirectLogin <==> !Truthy(token)
    ensures o == RedirectHome <==> Truthy(token) && roles.Some? && user.Some? && !RoleIn(user.value.role, roles.value)
    ensures o == RenderChildren <==> Truthy(token) && (roles.None? || user.None? || RoleIn(user.value.role, roles.value))
  {
    if !Truthy(token) then RedirectLogin
    else if roles.Some? && user.Some? && !RoleIn(user.value.role, roles.value) then RedirectHome
    else RenderChildren
  }

  /** No token: the login redirect wins whatever the roles and the user are. */
  lemma LoginFirst(user: Option<User>, roles: Option<seq<string>>)
    ensures Decide(None, user, roles) == RedirectLogin
    ensures Decide(Some(""), user, roles) == RedirectLogin
  {
  }

  /** While the user is still unresolved the children render, even under a role list. */
  lemma UnresolvedUserRenders(token: Option<string>, roles: seq<string>)
    requires Truthy(token)
    ensures Decide(token, None, Some(roles)) == RenderChildren
  {
  }

  /** An empty role list admits no resolved user. */
  lemma EmptyRolesRedirect(token: Option<string>, u: User)
    requires Truthy(token)
    ensures Decide(token, Some(u), Some([])) == RedirectHome
  {
  }

  /** After a logout the guard sends every route to the login page. */
  lemma GuardAfterLogout(storage: map<string, string>, user: Option<User>, roles: Option<seq<string>>)
    ensures Decide(Load(Synced(storage, None)), user, roles) == RedirectLogin
  {
    ReloadAfterSync(storage, None);
  }
}
