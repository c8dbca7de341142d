/**
 * The `/auth` router (server/routes/auth.js): register, login and the current
 * user. Hashing and token signing are kept abstract: `hashed` stands for what
 * `bcrypt.hash` returns, `compare` for `bcrypt.compare`, and a token is the
 * user id it is signed for.
 */
module AuthRoutes {
  import opened Wrappers
  import opened Text
  import opened Schema
  import opened Store

  /** `jwt.sign({ userId }, secret, { expiresIn: '7d' })`, kept as the id it is signed for. */
  datatype Token = Token(userId: Id)

  /** The user object every auth response carries. */
  datatype PublicUser = PublicUser(id: Id, email: string, name: string, role: Role, phone: string)

  datatype Session = Session(token: Token, user: PublicUser)

  /** The projection of a stored user onto the fields a response may show. */
  function Project(u: User): (p: PublicUser)
    ensures p.id == u.id && p.email == u.email && p.name == u.name && p.role == u.role && p.phone == u.phone
  {
    PublicUser(u.id, u.email, u.name, u.role, u.phone)
  }

  /** The projection does not depend on the password: two users that differ only there look the same. */
  lemma ProjectionHidesPassword(u: User, v: User)
    requires u.(password := v.password) == v
    ensures Project(u) == Project(v)
  {
  }

  // ---------------------------------------------------------------------
  // POST /register
  // ---------------------------------------------------------------------

  datatype RegisterBody = RegisterBody(email: string, password: string, name: string, role: Option<string>, phone: Option<string>)

  /** `phone || ''`. */
  function PhoneOrEmpty(phone: Option<string>): (p: string)
    ensures phone.Some? ==> p == phone.value
    ensures phone.None? ==> p == ""
  {
    if phone.None? || phone.value == "" then "" else phone.value
  }

  /** The role the user document casts the body's role to; an absent role fails `required`. */
  function CastRole(role: Option<string>): (r: Option<Role>)
    ensures r.Some? <==> role.Some? && ParseRole(role.value).Some?
    ensures r.Some? ==> RoleName(r.value) == role.value
  {
    if role.None? then None else ParseRole(role.value)
  }

  const UserExists: string := "User already exists"

  /** `POST /auth/register`: an email already registered (compared lower-cased) is refused;
      otherwise the document is validated on the plain password, the pre-save hook stores the
      hash, and the answer carries a token for the new id and the projected user. */
  method Register(db: Database, body: RegisterBody, hashed: string) returns (r: Response<Session>)
    requires db.Valid()
    modifies db`users, db`nextId
    ensures db.Valid()
    ensures EmailRegistered(old(db.users), body.email) ==> r == Fail(400, UserExists) && unchanged(db)
    ensures !EmailRegistered(old(db.users), body.email) ==>
      var role := CastRole(body.role);
      if role.Some? && ValidNewUser(body.email, body.password, body.name) then
        var u := User(old(db.nextId), ToLower(body.email), PasswordAfterPreSave(body.password, true, hashed),
                      body.name, role.value, PhoneOrEmpty(body.phone));
        && r == Ok(201, "User created successfully", Session(Token(u.id), Project(u)))
        && db.users == old(db.users)[u.id := u]
        && db.nextId == old(db.nextId) + 1
      else
        r == Fail(500, ServerError) && unchanged(db)
  {
    if EmailRegistered(db.users, body.email) {
      return Fail(400, UserExists);
    }
    var role := CastRole(body.role);
    if role.None? {
      return Fail(500, ServerError);
    }
    var doc := new UserDocument(body.email, body.password, body.name, role.value, PhoneOrEmpty(body.phone));
    if !ValidNewUser(doc.email, doc.password, doc.name) {
      return Fail(500, ServerError);
    }
    doc.PreSave(hashed);
    var u := User(db.nextId, doc.email, doc.password, doc.name, doc.role, doc.phone);
    ToLowerIdempotent(body.email);
    db.users := db.users[u.id := u];
    db.nextId := db.nextId + 1;
    r := Ok(201, "User created successfully", Session(Token(u.id), Project(u)));
  }

  // ---------------------------------------------------------------------
  // POST /login
  // ---------------------------------------------------------------------

  const InvalidCredentials: string := "Invalid credentials"

  /** `POST /auth/login`: an unknown email and a wrong password get the same answer; a match
      yields a token for the user found. `compare(candidate, stored)` stands for `bcrypt.compare`. */
  method Login(db: Database, email: string, password: string, compare: (string, string) -> CompareOutcome)
    returns (r: Response<Session>)
    requires db.Valid()
    ensures !EmailRegistered(db.users, email) ==> r == Fail(400, InvalidCredentials)
    ensures forall id :: id in db.users && db.users[id].email == ToLower(email) ==>
      if ComparePassword(compare(password, db.users[id].password)) then
        r == Ok(200, "Login successful", Session(Token(id), Project(db.users[id])))
      else
        r == Fail(400, InvalidCredentials)
  {
    if !EmailRegistered(db.users, email) {
      return Fail(400, InvalidCredentials);
    }
    var id :| id in db.users && db.users[id].email == ToLower(email);
    var u := db.users[id];
    if !ComparePassword(compare(password, u.password)) {
      return Fail(400, InvalidCredentials);
    }
    r := Ok(200, "Login successful", Session(Token(id), Project(u)));
  }

  // ---------------------------------------------------------------------
  // GET /me
  // ---------------------------------------------------------------------

  /** `GET /auth/me`: the caller, projected. */
  function Me(actor: User): (r: Response<PublicUser>)
    ensures r.Ok? && r.status == 200
    ensures r.body == PublicUser(actor.id, actor.email, actor.name, actor.role, actor.phone)
  {
    Ok(200, "", Project(actor))
  }

  /** `/me` answers the same for two users that differ only in their password. */
  lemma MeHidesPassword(u: User, v: User)
    requires u.(password := v.password) == v
    ensures Me(u) == Me(v)
  {
    ProjectionHidesPassword(u, v);
  }
}
