/**
 * Registration and login over the user collection. Password hashing and
 * comparison (bcrypt) and token signing (jsonwebtoken) are not part of this
 * model: they are passed in as functions. Each of them can fail: hashing
 * and comparing give `None` when the library throws (as bcrypt does for a
 * missing password), and signing reports its own error.
 */
module AuthController {
  import opened Common
  import opened Database
  import Jwt

  /** The user as replies show it: id, name and email, never the password hash. */
  datatype UserView = UserView(id: Id, name: string, email: string)

  /** The body of a successful registration or login. */
  datatype AuthBody = AuthBody(token: string, user: UserView)

  /** `User.findOne({email})` finds something. */
  predicate EmailTaken(users: map<Id, User>, email: string) {
    exists id :: id in users && users[id].email == email
  }

  /** No two users share an email, so `findOne({email})` is unambiguous. */
  ghost predicate UniqueEmails(users: map<Id, User>) {
    forall a, b :: a in users && b in users && users[a].email == users[b].email ==> a == b
  }

  /** The one user with this email. */
  ghost function UserWithEmail(users: map<Id, User>, email: string): (id: Id)
    requires UniqueEmails(users) && EmailTaken(users, email)
    ensures id in users && users[id].email == email
  {
    var id :| id in users && users[id].email == email; id
  }

  /**
   * register: an email already present is refused with 400 and the users
   * are left as they were. Otherwise the password is hashed and the token
   * is issued for the new id before anything is stored; a failure of either
   * is a 500 that stores nothing. Then the user is stored with the hash of
   * the password and the reply carries the token and the user's id, name
   * and email.
   */
  method Register(db: Db, name: string, email: string, password: string, newId: Id,
                  hash: string -> Option<string>, sign: Jwt.SignRequest -> Jwt.SignOutcome)
    returns (r: Reply<AuthBody>)
    requires newId !in db.users
    modifies db`users
    ensures EmailTaken(old(db.users), email) ==> r == Reply(400, "User already exists", None) && db.users == old(db.users)
    ensures !EmailTaken(old(db.users), email) ==>
      var token := Jwt.GenerateToken(sign, Jwt.Claims(newId), []);
      if hash(password).None? || token.Err? then
        r == Reply(500, "Error registering user", None) && db.users == old(db.users)
      else
        && r == Reply(201, "User registered successfully", Some(AuthBody(token.value, UserView(newId, name, email))))
        && db.users == old(db.users)[newId := User(name, email, hash(password).value)]
    ensures UniqueEmails(old(db.users)) ==> UniqueEmails(db.users)
  {
    if exists id :: id in db.users && db.users[id].email == email {
      return Reply(400, "User already exists", None);
    }
    var hashed := hash(password);
    if hashed.None? {
      return Reply(500, "Error registering user", None);
    }
    var token := Jwt.GenerateToken(sign, Jwt.Claims(newId), []);
    if token.Err? {
      return Reply(500, "Error registering user", None);
    }
    db.users := db.users[newId := User(name, email, hashed.value)];
    r := Reply(201, "User registered successfully", Some(AuthBody(token.value, UserView(newId, name, email))));
  }

  /**
   * login: an unknown email and a wrong password are refused with 400 and
   * two different messages; a comparison that fails (a missing password,
   * say) and a signing failure are 500; a match gets a token issued for
   * that user's id. Nothing is written.
   */
  method Login(db: Db, email: string, password: string, compare: (string, string) -> Option<bool>,
               sign: Jwt.SignRequest -> Jwt.SignOutcome)
    returns (r: Reply<AuthBody>)
    ensures r.code in {200, 400, 500}
    ensures !EmailTaken(db.users, email) ==> r == Reply(400, "User Email does not exist", None)
    ensures r.code == 200 <==> r.body.Some?
    ensures r.code == 200 ==>
      exists id :: (
        && id in db.users && db.users[id].email == email
        && compare(password, db.users[id].password) == Some(true)
        && Jwt.GenerateToken(sign, Jwt.Claims(id), []) == Ok(r.body.value.token)
        && r.body.value.user == UserView(id, db.users[id].name, email))
    ensures UniqueEmails(db.users) && EmailTaken(db.users, email) ==>
      var id := UserWithEmail(db.users, email);
      var token := Jwt.GenerateToken(sign, Jwt.Claims(id), []);
      var matched := compare(password, db.users[id].password);
      if matched.None? then r == Reply(500, "Error logging in user", None)
      else if !matched.value then r == Reply(400, "Password is incorrect", None)
      else if token.Err? then r == Reply(500, "Error logging in user", None)
      else r == Reply(200, "User logged in successfully", Some(AuthBody(token.value, UserView(id, db.users[id].name, email))))
  {
    if !exists id :: id in db.users && db.users[id].email == email {
      return Reply(400, "User Email does not exist", None);
    }
    var id :| id in db.users && db.users[id].email == email;
    var user := db.users[id];
    var matched := compare(password, user.password);
    if matched.None? {
      return Reply(500, "Error logging in user", None);
    }
    if !matched.value {
      return Reply(400, "Password is incorrect", None);
    }
    var token := Jwt.GenerateToken(sign, Jwt.Claims(id), []);
    if token.Err? {
      return Reply(500, "Error logging in user", None);
    }
    r := Reply(200, "User logged in successfully", Some(AuthBody(token.value, UserView(id, user.name, user.email))));
  }

  /**
   * A user just stored by a registration is the one login finds for that
   * email, and when hashing succeeded and the comparison accepts a password
   * against its own hash, the password given at registration passes login's
   * check.
   */
  lemma RegisteredUserCanLogIn(users: map<Id, User>, newId: Id, name: string, email: string, password: string,
                               hash: string -> Option<string>, compare: (string, string) -> Option<bool>)
    requires UniqueEmails(users) && newId !in users && !EmailTaken(users, email)
    requires hash(password).Some? && compare(password, hash(password).value) == Some(true)
    ensures var after := users[newId := User(name, email, hash(password).value)];
      && UniqueEmails(after) && EmailTaken(after, email)
      && UserWithEmail(after, email) == newId
      && compare(password, after[UserWithEmail(after, email)].password) == Some(true)
  {
    var after := users[newId := User(name, email, hash(password).value)];
    assert after[newId].email == email;
    assert UniqueEmails(after);
  }
}
