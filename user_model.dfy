/** The User document as the handlers use it. The User schema file is not
    part of this model; its fields are the ones the handlers read and write. */
module UserModel {
  import opened Common

  /** The three roles; `Customer` is the schema's default role for a newly
      registered user. */
  datatype Role = Customer | Provider | Admin

  datatype User = User(
    name: string,
    email: string,
    password: string,
    phone: string,
    role: Role,
    address: Option<string>,
    orders: seq<Id>,
    services: seq<Id>)

  /** `req.user` as the authentication middleware attaches it: the caller's
      id and role. */
  datatype Caller = Caller(id: Id, role: Role)

  /** The user record a register or login response carries: no password. */
  datatype PublicUser = PublicUser(id: Id, name: string, email: string, phone: string, role: Role)

  /** The profile a profile update responds with: no password either. */
  datatype Profile = Profile(id: Id, name: string, email: string, phone: string,
                             address: Option<string>, role: Role)

  /** The current user as `GET /auth/me` returns it: every field but the
      password. */
  datatype Account = Account(id: Id, name: string, email: string, phone: string, role: Role,
                             address: Option<string>, orders: seq<Id>, services: seq<Id>)

  /** Emails are unique among users. */
  predicate UniqueEmails(users: map<Id, User>)
  {
    forall a, b :: a in users && b in users && users[a].email == users[b].email ==> a == b
  }

  /** `User.findOne({ email })` finds a document. */
  predicate EmailTaken(users: map<Id, User>, email: string)
  {
    exists k :: k in users && users[k].email == email
  }

  function ToPublic(id: Id, u: User): (p: PublicUser)
    ensures p.id == id && p.name == u.name && p.email == u.email && p.phone == u.phone && p.role == u.role
  {
    PublicUser(id, u.name, u.email, u.phone, u.role)
  }
}
