/** The User schema: a login account with a password hash and a role enum. */
module UserModel {
  import opened Common

  datatype Role = Admin | Client

  function RoleName(r: Role): string {
    match r
    case Admin => "admin"
    case Client => "client"
  }

  /** A stored user; `password` holds a bcrypt hash. */
  datatype User = User(id: string, username: string, password: string, role: Role)

  /** The schema's validators: username and password required, `role` one of
      "admin" or "client", defaulting to "client". */
  function NewUser(id: string, username: Option<string>, password: Option<string>,
                   role: Option<string>): (r: Result<User, SchemaError>)
    ensures r.Ok? <==> !FalsyStr(username) && !FalsyStr(password)
                       && (role.None? || role.value == "admin" || role.value == "client")
    ensures r.Ok? ==> r.value.username == username.value && r.value.password == password.value
    ensures r.Ok? && role.None? ==> r.value.role == Client
    ensures r.Ok? && role.Some? ==> RoleName(r.value.role) == role.value
  {
    if FalsyStr(username) then Err(Required("username"))
    else if FalsyStr(password) then Err(Required("password"))
    else if role.None? || role.value == "client" then Ok(User(id, username.value, password.value, Client))
    else if role.value == "admin" then Ok(User(id, username.value, password.value, Admin))
    else Err(NotInEnum("role"))
  }

  /** The unique index on `username`. */
  predicate UniqueUsernames(users: seq<User>) {
    forall i, j | 0 <= i < j < |users| :: users[i].username != users[j].username
  }
}
