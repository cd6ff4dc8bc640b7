/** Login against the user list and the role checks on the signed-in user
    (lib/auth.ts). The browser storage slot holding the signed-in user is modelled
    as the value `current`. */
module Auth {
  import opened Wrappers
  import opened Seqs
  import opened Entities

  /** `AuthUser`: what a session keeps of a user; it has no password field. */
  datatype AuthUser = AuthUser(id: string, username: string, email: string, role: Role, avatar: Option<string>)

  /** The session copy of a user. */
  function Public(u: User): (a: AuthUser)
    ensures a.id == u.id && a.username == u.username && a.email == u.email
    ensures a.role == u.role && a.avatar == u.avatar
  {
    AuthUser(u.id, u.username, u.email, u.role, u.avatar)
  }

  /** Same username, same password (an account without one never matches) and an
      active account. */
  predicate Accepts(u: User, username: string, password: string)
  {
    u.username == username && u.password == Some(password) && u.isActive
  }

  function Accepting(username: string, password: string): User -> bool
  {
    (u: User) => Accepts(u, username, password)
  }

  /** `login`: the session copy of the first user accepting the credentials, or none. */
  function Login(users: seq<User>, username: string, password: string): (r: Option<AuthUser>)
    ensures r.None? <==> forall k :: 0 <= k < |users| ==> !Accepts(users[k], username, password)
    ensures r.Some? ==>
      var i := IndexWhere(users, Accepting(username, password));
      0 <= i < |users| && Accepts(users[i], username, password) && r.value == Public(users[i])
  {
    var u := FindFirst(users, Accepting(username, password));
    if u.Some? then Some(Public(u.value)) else None
  }

  /** `hasRole`: `user?.role === role`, so false without a user and, with one, true
      for that user's role alone. */
  function HasRole(current: Option<AuthUser>, role: Role): (b: bool)
    ensures current.None? ==> !b
    ensures current.Some? ==> (b <==> role == current.value.role)
  {
    current.Some? && current.value.role == role
  }

  /** `isAuthenticated`: a user is signed in, which is exactly when some role check
      passes. */
  function IsAuthenticated(current: Option<AuthUser>): (b: bool)
    ensures b <==> exists role: Role :: HasRole(current, role)
  {
    assert current.Some? ==> HasRole(current, current.value.role);
    current.Some?
  }

  /** `hasAnyRole`: false with nobody signed in, membership of the role otherwise. */
  function HasAnyRole(current: Option<AuthUser>, roles: seq<Role>): (b: bool)
    ensures b <==> exists k :: 0 <= k < |roles| && HasRole(current, roles[k])
    ensures b ==> IsAuthenticated(current)
  {
    if current.Some? then current.value.role in roles else false
  }

  /** `logout`: the storage slot is cleared. */
  function Logout(): (r: Option<AuthUser>)
    ensures !IsAuthenticated(r)
  {
    None
  }

  /** A signed-in user has exactly one role, so `hasRole` holds for one role only,
      and asking for a single role with `hasAnyRole` is `hasRole`. */
  lemma OneRoleAtATime(current: Option<AuthUser>, r: Role, s: Role)
    requires HasRole(current, r) && HasRole(current, s)
    ensures r == s && HasAnyRole(current, [r]) && IsAuthenticated(current)
  {
    assert [r][0] == r;
  }

  /** After logout no role check passes. */
  lemma LogoutRevokesRoles(roles: seq<Role>, r: Role)
    ensures !HasRole(Logout(), r) && !HasAnyRole(Logout(), roles)
  {
  }

  /** Once a user's session copy is stored, the role checks answer for that user's
      role, and an inactive account never gets a session. */
  lemma LoginGrantsOwnRole(users: seq<User>, username: string, password: string)
    ensures var r := Login(users, username, password);
      r.Some? ==> HasRole(r, users[IndexWhere(users, Accepting(username, password))].role)
  {
  }

  /** A user whose username no earlier account shares signs in with their own role
      when active; an inactive user whose username is unique gets no session. */
  lemma SignInWithOwnName(users: seq<User>, i: nat, password: string)
    requires i < |users| && users[i].password == Some(password)
    ensures (forall k :: 0 <= k < i ==> users[k].username != users[i].username) && users[i].isActive ==>
      Login(users, users[i].username, password) == Some(Public(users[i]))
    ensures (forall k :: 0 <= k < |users| && k != i ==> users[k].username != users[i].username) && !users[i].isActive ==>
      !IsAuthenticated(Login(users, users[i].username, password))
  {
    var u := users[i];
    if u.isActive && forall k :: 0 <= k < i ==> users[k].username != u.username {
      assert Accepts(u, u.username, password);
    }
  }
}
