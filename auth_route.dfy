/** The authentication routes: POST /login and GET /me. */
module AuthRoute {
  import opened Common
  import opened UserModel

  /** The user as the login response shows it: no password hash. */
  datatype UserInfo = UserInfo(id: string, username: string, role: Role)

  /** 200 with the user, 400 without both credentials, 401 for an unknown user or a wrong password. */
  datatype LoginResponse =
    | LoggedIn(user: UserInfo)
    | CredentialsRequired
    | UserNotFound
    | IncorrectPassword

  /** The HTTP status the route answers with. */
  function Status(r: LoginResponse): int {
    match r
    case LoggedIn(_) => 200
    case CredentialsRequired => 400
    case _ => 401
  }

  /** `User.findOne({ username })`: the first stored user with that name. */
  function FindUser(users: seq<User>, username: string): (r: Option<User>)
    ensures r.None? <==> forall i | 0 <= i < |users| :: users[i].username != username
    ensures r.Some? ==> exists i | 0 <= i < |users| :: users[i] == r.value
                          && forall j | 0 <= j < i :: users[j].username != username
    ensures r.Some? ==> r.value.username == username
  {
    if users == [] then None
    else if users[0].username == username then Some(users[0])
    else
      var r := FindUser(users[1..], username);
      assert forall i | 1 <= i < |users| :: users[1..][i - 1] == users[i];
      if r.Some? then
        var k :| 0 <= k < |users[1..]| && users[1..][k] == r.value
                 && forall j | 0 <= j < k :: users[1..][j].username != username;
        assert users[k + 1] == r.value;
        r
      else r
  }

  function Info(u: User): UserInfo {
    UserInfo(u.id, u.username, u.role)
  }

  /** POST /login. `matches(password, hash)` stands for `bcrypt.compare`. */
  function Login(users: seq<User>, username: Option<string>, password: Option<string>,
                 matches: (string, string) -> bool): (r: LoginResponse)
    ensures r == CredentialsRequired <==> FalsyStr(username) || FalsyStr(password)
    ensures r == UserNotFound <==> !FalsyStr(username) && !FalsyStr(password)
                                   && forall i | 0 <= i < |users| :: users[i].username != username.value
    ensures r.LoggedIn? ==> exists i | 0 <= i < |users| :: users[i].username == username.value
                              && matches(password.value, users[i].password) && r.user == Info(users[i])
    ensures r == IncorrectPassword ==> exists i | 0 <= i < |users| :: users[i].username == username.value
                                          && !matches(password.value, users[i].password)
    ensures Status(r) == 400 <==> FalsyStr(username) || FalsyStr(password)
    ensures Status(r) == 200 <==> !FalsyStr(username) && !FalsyStr(password)
                                  && FindUser(users, username.value).Some?
                                  && matches(password.value, FindUser(users, username.value).value.password)
  {
    if FalsyStr(username) || FalsyStr(password) then CredentialsRequired
    else
      match FindUser(users, username.value)
      case None => UserNotFound
      case Some(u) => if matches(password.value, u.password) then LoggedIn(Info(u)) else IncorrectPassword
  }

  /** With unique usernames the login is decided by the one matching account. */
  lemma LoginByAccount(users: seq<User>, k: int, password: string, matches: (string, string) -> bool)
    requires UniqueUsernames(users)
    requires 0 <= k < |users| && users[k].username != "" && password != ""
    ensures Login(users, Some(users[k].username), Some(password), matches)
            == if matches(password, users[k].password) then LoggedIn(Info(users[k])) else IncorrectPassword
  {
    var found := FindUser(users, users[k].username);
    var i :| 0 <= i < |users| && users[i] == found.value
             && forall j | 0 <= j < i :: users[j].username != users[k].username;
    assert i == k;
  }

  /** GET /me: sessions are not kept, so there is never a current user. */
  function CurrentUser(): Option<UserInfo> {
    None
  }
}
