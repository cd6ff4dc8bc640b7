/** The demo sign-in service: three fixed accounts, login by username or e-mail,
    one error for every failure, and a token naming the account and the time
    (utils/mock-auth-service.ts, with the accounts of lib/mock-data.ts). */
module MockAuth {
  import opened Wrappers
  import opened Seqs
  import opened Text
  import opened Entities

  /** A demo account, password included. */
  datatype Account = Account(
    id: string, username: string, password: string, email: string, role: Role,
    avatar: string, lastLogin: string, mustChangePassword: bool)

  /** `LoginData`. */
  datatype Credentials = Credentials(identifier: string, password: string)

  /** The user part of the login response: the account without its password. */
  datatype SessionUser = SessionUser(
    id: string, username: string, email: string, role: Role, avatar: string,
    lastLogin: string, mustChangePassword: bool)

  datatype AuthResponse = AuthResponse(user: SessionUser, token: string)

  const BadCredentials := "Nom d'utilisateur ou mot de passe incorrect."
  const TokenPrefix := "mock_token_"

  /** `Object.values(DEMO_ACCOUNTS)` in declaration order; `loadedAt` is the time the
      module was loaded, which every account records as its last login. */
  function DemoAccounts(loadedAt: string): (r: seq<Account>)
    ensures |r| == 3
    ensures r[0].role == Admin && r[1].role == StockManager && r[2].role == Cashier
    ensures forall k :: 0 <= k < 3 ==> !r[k].mustChangePassword && r[k].lastLogin == loadedAt
  {
    [ Account("admin-001", "admin", "admin123", "admin@computerstore.com", Admin,
              "https://api.dicebear.com/7.x/avataaars/svg?seed=admin", loadedAt, false),
      Account("stock-001", "stock", "stock123", "stock@computerstore.com", StockManager,
              "https://api.dicebear.com/7.x/avataaars/svg?seed=stock", loadedAt, false),
      Account("cashier-001", "cashier", "cashier123", "cashier@computerstore.com", Cashier,
              "https://api.dicebear.com/7.x/avataaars/svg?seed=cashier", loadedAt, false) ]
  }

  /** The account answers to the identifier as username or as e-mail. */
  predicate Names(a: Account, identifier: string)
  {
    a.username == identifier || a.email == identifier
  }

  function Named(identifier: string): Account -> bool
  {
    (a: Account) => Names(a, identifier)
  }

  /** `mock_token_<id>_<Date.now()>`. */
  function Token(id: string, stamp: nat): (t: string)
    ensures |t| > |TokenPrefix| + |id| && t[..|TokenPrefix|] == TokenPrefix
  {
    TokenPrefix + id + "_" + NatToString(stamp)
  }

  /** `login`: the first account the identifier names must have the password given;
      both failures raise the same message. */
  function Login(accounts: seq<Account>, data: Credentials, stamp: nat): (r: Result<AuthResponse>)
    ensures r.Err? ==> r.msg == BadCredentials
    ensures r.Ok? <==>
      var i := IndexWhere(accounts, Named(data.identifier));
      0 <= i && accounts[i].password == data.password
    ensures r.Ok? ==>
      var a := accounts[IndexWhere(accounts, Named(data.identifier))];
      && Names(a, data.identifier)
      && r.value.user == SessionUser(a.id, a.username, a.email, a.role, a.avatar, a.lastLogin, a.mustChangePassword)
      && r.value.token == Token(a.id, stamp)
  {
    var found := FindFirst(accounts, Named(data.identifier));
    if found.None? then Err(BadCredentials)
    else
      var a := found.value;
      if a.password != data.password then Err(BadCredentials)
      else Ok(AuthResponse(
        SessionUser(a.id, a.username, a.email, a.role, a.avatar, a.lastLogin, a.mustChangePassword),
        Token(a.id, stamp)))
  }

  /** `changePassword`: always answers success, whatever it is given. */
  function ChangePassword(oldPassword: string, newPassword: string): (message: string)
    ensures message == "Password changed successfully"
  {
    "Password changed successfully"
  }

  /** `signup`: always answers success, whatever it is given. */
  function Signup(username: string, email: string, role: Role): (message: string)
    ensures message == "Signup successful"
  {
    "Signup successful"
  }

  /** The answer does not tell an unknown identifier from a wrong password. */
  lemma FailuresLookAlike(accounts: seq<Account>, unknown: Credentials, wrong: Credentials, s1: nat, s2: nat)
    requires forall k :: 0 <= k < |accounts| ==> !Names(accounts[k], unknown.identifier)
    requires Login(accounts, wrong, s2).Err?
    ensures Login(accounts, unknown, s1) == Login(accounts, wrong, s2)
  {
  }

  /** The token reads back: after the prefix comes the account id, an underscore,
      and the decimal digits of the time stamp. */
  lemma TokenDecodes(id: string, stamp: nat)
    ensures var t := Token(id, stamp);
      var tail := t[|TokenPrefix| + |id| + 1..];
      && t[|TokenPrefix|..|TokenPrefix| + |id|] == id
      && t[|TokenPrefix| + |id|] == '_'
      && AllDigits(tail) && DigitsValue(tail) == stamp
  {
    var t := Token(id, stamp);
    assert t == (TokenPrefix + id + "_") + NatToString(stamp);
    assert t[|TokenPrefix| + |id| + 1..] == NatToString(stamp);
    NatToStringRoundTrip(stamp);
  }

  /** Each demo account signs in by username and by e-mail with its password, and
      the session it gets carries its role. */
  lemma DemoAccountsSignIn(loadedAt: string, k: nat, byEmail: bool, stamp: nat)
    requires k < 3
    ensures var a := DemoAccounts(loadedAt)[k];
      var r := Login(DemoAccounts(loadedAt), Credentials(if byEmail then a.email else a.username, a.password), stamp);
      r.Ok? && r.value.user.role == a.role && r.value.user.id == a.id
  {
    var accounts := DemoAccounts(loadedAt);
    var a := accounts[k];
    var id := if byEmail then a.email else a.username;
    assert forall j :: 0 <= j < k ==> !Names(accounts[j], id);
    assert Names(a, id);
    assert IndexWhere(accounts, Named(id)) == k;
  }
}
