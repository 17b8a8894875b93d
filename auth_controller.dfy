/** The account handlers: register, log in, read the current user, update the
    profile and change the password. Token signing (`sign`), password hashing
    (`hash`) and password comparison (`matches(candidate, stored)`) are
    foreign calls and enter as parameters. */
module AuthController {
  import opened Common
  import opened UserModel
  import opened Store

  const EmailRegistered := "该邮箱已被注册"
  const BadCredentials := "邮箱或密码错误"
  const UserNotFound := "用户不存在"
  const WrongPassword := "当前密码错误"
  const PasswordUpdated := "密码更新成功"

  /** The body of a register or login response: the token and the user
      without the password. */
  datatype Session = Session(token: string, user: PublicUser)

  /** `POST /auth/register`. The route's validators require a name, a
      well-formed email (`isEmail`, a library check), a phone and a password
      of at least six characters. An email
      some user already has is 400 and nothing changes. Otherwise the user
      is stored with the given name, email and phone, the hashed password,
      the default role and empty lists, and the reply carries a token for
      the new id and the user without the password. */
  method Register(db: Db, name: string, email: string, password: string, phone: string, newId: Id,
                  isEmail: string -> bool, hash: string -> string, sign: Id -> string)
    returns (r: Reply<Session>)
    requires name != "" && isEmail(email) && |password| >= 6 && phone != ""
    requires db.Unused(newId)
    modifies db
    ensures EmailTaken(old(db.users), email) ==> r == Err(400, EmailRegistered) && unchanged(db)
    ensures !EmailTaken(old(db.users), email) ==>
              var u := User(name, email, hash(password), phone, Customer, None, [], []);
              && r == Ok(201, Session(sign(newId), ToPublic(newId, u)))
              && db.users == old(db.users)[newId := u]
              && EmailTaken(db.users, email)
    ensures db.services == old(db.services) && db.categories == old(db.categories)
    ensures db.orders == old(db.orders)
    ensures old(db.Valid()) ==> db.Valid()
  {
    if exists k :: k in db.users && db.users[k].email == email {
      return Err(400, EmailRegistered);
    }
    var user := User(name, email, hash(password), phone, Customer, None, [], []);
    ghost var before := db.users;
    db.users := db.users[newId := user];
    assert db.users[newId].email == email;
    assert forall k :: k in before ==> db.users[k] == before[k];
    r := Ok(201, Session(sign(newId), ToPublic(newId, user)));
  }

  /** `POST /auth/login`, behind the route's well-formed email check. An
      email no user has and a password that does not match give the same
      401, so the reply does not tell which. Otherwise, the reply carries a
      token for the user found and the user without the password. With
      unique emails the user found is the one user with it. */
  method Login(db: Db, email: string, password: string, isEmail: string -> bool,
               matches: (string, string) -> bool, sign: Id -> string)
    returns (r: Reply<Session>)
    requires isEmail(email)
    ensures !EmailTaken(db.users, email) ==> r == Err(401, BadCredentials)
    ensures r.Err? ==> r == Err(401, BadCredentials)
    ensures r.Ok? ==>
              exists k :: k in db.users && db.users[k].email == email && matches(password, db.users[k].password)
                          && r == Ok(200, Session(sign(k), ToPublic(k, db.users[k])))
    ensures UniqueEmails(db.users) ==>
              forall k :: k in db.users && db.users[k].email == email ==>
                (r.Ok? <==> matches(password, db.users[k].password))
  {
    if !exists k :: k in db.users && db.users[k].email == email {
      return Err(401, BadCredentials);
    }
    var k :| k in db.users && db.users[k].email == email;
    var user := db.users[k];
    if !matches(password, user.password) {
      return Err(401, BadCredentials);
    }
    r := Ok(200, Session(sign(k), ToPublic(k, user)));
  }

  /** `GET /auth/me`: the caller's record without the password, or `null`
      (still with status 200) when no user has the caller's id. */
  method GetMe(db: Db, caller: Caller) returns (r: Reply<Option<Account>>)
    ensures r.Ok? && r.status == 200
    ensures caller.id !in db.users ==> r.value.None?
    ensures caller.id in db.users ==>
              var u := db.users[caller.id];
              r.value == Some(Account(caller.id, u.name, u.email, u.phone, u.role, u.address, u.orders, u.services))
  {
    if caller.id !in db.users {
      return Ok(200, None);
    }
    var u := db.users[caller.id];
    r := Ok(200, Some(Account(caller.id, u.name, u.email, u.phone, u.role, u.address, u.orders, u.services)));
  }

  /** `PUT /auth/update-profile`. The handler does not consult the route's
      validator. A caller with no user record is 404. Otherwise name, phone
      and address are each replaced only by a truthy value; email, role,
      password and both lists stay. */
  method UpdateProfile(db: Db, caller: Caller, name: Option<string>, phone: Option<string>,
                       address: Option<string>)
    returns (r: Reply<Profile>)
    modifies db
    ensures caller.id !in old(db.users) ==> r == Err(404, UserNotFound) && unchanged(db)
    ensures caller.id in old(db.users) ==>
              var u := old(db.users[caller.id]);
              var n := u.(name := OrElse(name, u.name), phone := OrElse(phone, u.phone),
                          address := OrElseOpt(address, u.address));
              && db.users == old(db.users)[caller.id := n]
              && r == Ok(200, Profile(caller.id, n.name, n.email, n.phone, n.address, n.role))
    ensures caller.id in old(db.users) ==>
              && db.users[caller.id].email == old(db.users[caller.id]).email
              && db.users[caller.id].role == old(db.users[caller.id]).role
              && db.users[caller.id].password == old(db.users[caller.id]).password
    ensures db.services == old(db.services) && db.categories == old(db.categories)
    ensures db.orders == old(db.orders)
    ensures old(db.Valid()) ==> db.Valid()
  {
    if caller.id !in db.users {
      return Err(404, UserNotFound);
    }
    var user := db.users[caller.id];
    user := user.(name := OrElse(name, user.name));
    user := user.(phone := OrElse(phone, user.phone));
    user := user.(address := OrElseOpt(address, user.address));
    db.users := db.users[caller.id := user];
    r := Ok(200, Profile(caller.id, user.name, user.email, user.phone, user.address, user.role));
  }

  /** `PUT /auth/change-password`. The handler does not consult the route's
      validators. A caller with no user record is 404. A current password
      that does not match is 401 and nothing changes. Otherwise only the
      stored password changes, to the hash of the new one. */
  method ChangePassword(db: Db, caller: Caller, currentPassword: string, newPassword: string,
                        matches: (string, string) -> bool, hash: string -> string)
    returns (r: Reply<string>)
    modifies db
    ensures caller.id !in old(db.users) ==> r == Err(404, UserNotFound)
    ensures caller.id in old(db.users) && !matches(currentPassword, old(db.users[caller.id]).password) ==>
              r == Err(401, WrongPassword)
    ensures r.Ok? <==> caller.id in old(db.users) && matches(currentPassword, old(db.users[caller.id]).password)
    ensures !r.Ok? ==> unchanged(db)
    ensures r.Ok? ==>
              && r == Ok(200, PasswordUpdated)
              && db.users == old(db.users)[caller.id := old(db.users[caller.id]).(password := hash(newPassword))]
    ensures db.services == old(db.services) && db.categories == old(db.categories)
    ensures db.orders == old(db.orders)
    ensures old(db.Valid()) ==> db.Valid()
  {
    if caller.id !in db.users {
      return Err(404, UserNotFound);
    }
    var user := db.users[caller.id];
    if !matches(currentPassword, user.password) {
      return Err(401, WrongPassword);
    }
    user := user.(password := hash(newPassword));
    db.users := db.users[caller.id := user];
    r := Ok(200, PasswordUpdated);
  }
}
