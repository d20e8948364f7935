/**
 * backend/controllers/userController.js: registration with a unique email,
 * login, and the password-free user listing. Token signing (`sign`) and the
 * password check (`matches`, the User model's comparePassword) are parameters.
 */
module Users {
  import opened Wrappers
  import opened Http
  import opened Docs
  import opened Records
  import opened Store

  /** The fields of a registration body. */
  datatype Registration = Registration(name: string, email: string, password: string, role: Option<string>)

  // ---------------------------------------------------------------------
  // register

  /** Adding a user with a fresh id and an email nobody has keeps ids and emails unique. */
  lemma AppendKeepsUsersKeyed(users: seq<User>, u: User, next: Id)
    requires UsersKeyed(users, next) && u.id == next
    requires FindByEmail(users, u.email).None?
    ensures UsersKeyed(users + [u], next + 1)
  {
    var r := users + [u];
    forall i, j | 0 <= i < j < |r| ensures r[i].id != r[j].id && r[i].email != r[j].email {
      if j == |users| {
        assert r[i] in users;
      } else {
        assert r[i] == users[i] && r[j] == users[j];
      }
    }
  }

  /**
   * POST /users/register: 400 when `User.findOne({ email })` finds someone;
   * otherwise the user is saved and the reply carries a token for its id.
   */
  method Register(db: Db, body: Registration, sign: Id -> string) returns (reply: Reply<string>)
    requires db.Valid()
    modifies db`users, db`nextId
    ensures db.Valid()
    ensures FindByEmail(old(db.users), body.email).Some? ==>
      reply == Error(400, "Email already in use") && db.users == old(db.users) && db.nextId == old(db.nextId)
    ensures FindByEmail(old(db.users), body.email).None? ==>
      var u := User(old(db.nextId), body.name, body.email, body.password, body.role, None);
      && reply == Note(201, "User registered successfully", Some(sign(u.id)))
      && db.users == old(db.users) + [u] && db.nextId == old(db.nextId) + 1
  {
    if FindByEmail(db.users, body.email).Some? {
      return Error(400, "Email already in use");
    }
    var before := db.users;
    var id := db.NewId();
    var u := User(id, body.name, body.email, body.password, body.role, None);
    AppendKeepsUsersKeyed(before, u, id);
    db.users := before + [u];
    reply := Note(201, "User registered successfully", Some(sign(id)));
  }

  // ---------------------------------------------------------------------
  // login

  /**
   * POST /users/login. An unknown email and a wrong password get the same
   * reply, so the reply does not tell which one it was.
   */
  function Login(users: seq<User>, email: string, password: string, matches: (string, string) -> bool, sign: Id -> string)
    : (reply: Reply<string>)
    ensures FindByEmail(users, email).None? ==> reply == Error(400, "Invalid credentials")
    ensures FindByEmail(users, email).Some? ==>
      var u := FindByEmail(users, email).value;
      reply == if matches(u.password, password) then Note(200, "Login successful", Some(sign(u.id)))
               else Error(400, "Invalid credentials")
  {
    match FindByEmail(users, email)
    case None => Error(400, "Invalid credentials")
    case Some(u) =>
      if !matches(u.password, password) then Error(400, "Invalid credentials")
      else Note(200, "Login successful", Some(sign(u.id)))
  }

  /** With unique emails, a registered user logs in exactly when the password matches, and gets a token for their own id. */
  lemma LoginIff(users: seq<User>, next: Id, u: User, password: string, matches: (string, string) -> bool, sign: Id -> string)
    requires UsersKeyed(users, next) && u in users
    ensures Login(users, u.email, password, matches, sign).Note? <==> matches(u.password, password)
    ensures Login(users, u.email, password, matches, sign).Note? ==>
      Login(users, u.email, password, matches, sign) == Note(200, "Login successful", Some(sign(u.id)))
  {
    var found := FindByEmail(users, u.email).value;
    var i :| 0 <= i < |users| && users[i] == u;
    var j :| 0 <= j < |users| && users[j] == found;
    assert i == j;
  }

  // ---------------------------------------------------------------------
  // getUsers

  /** GET /users: every user, in store order, without the password. */
  function GetUsers(users: seq<User>): (reply: Reply<seq<Profile>>)
    ensures reply.Json? && reply.status == 200
    ensures |reply.body| == |users|
    ensures forall k :: 0 <= k < |users| ==>
      && reply.body[k].id == users[k].id && reply.body[k].name == users[k].name && reply.body[k].email == users[k].email
      && reply.body[k].role == users[k].role && reply.body[k].budget == users[k].budget
  {
    Json(200, seq(|users|, k requires 0 <= k < |users| => WithoutPassword(users[k])))
  }
}
