/** The sign-up route: registers a user under an email not yet taken, storing
    only the hash of the password and never answering with it. */
module SignUp {

  import opened Common
  import opened Store
  import Auth

  /** The validated body `{ name, email, password }`. */
  datatype SignUpInput = SignUpInput(name: string, email: string, password: string)

  /** The stored user without its password: the only user shape the route answers with. */
  datatype PublicUser = PublicUser(id: Id, name: string, email: string)

  datatype SignUpReply = SignUpReply(status: nat, message: string, user: Option<PublicUser>)

  function WithoutPassword(u: User): (p: PublicUser)
    ensures p.id == u.id && p.name == u.name && p.email == u.email
  {
    PublicUser(u.id, u.name, u.email)
  }

  /** POST. `input` is `None` when the body is not JSON or fails the schema, and
      `hash` stands for the salted password hash. */
  method Register(db: Database, input: Option<SignUpInput>, hash: string -> string) returns (r: SignUpReply)
    requires db.Valid()
    modifies db`users, db`nextId
    ensures db.Valid()
    ensures input.None? ==> r == SignUpReply(500, "Something went wrong", None) && unchanged(db)
    ensures input.Some? && UserByEmail(old(db.users), input.value.email).Some? ==>
              r == SignUpReply(409, "User with this email already exists", None) && unchanged(db)
    ensures input.Some? && UserByEmail(old(db.users), input.value.email).None? ==>
              var u := User(old(db.nextId), input.value.name, input.value.email, Some(hash(input.value.password)));
              && db.users == old(db.users) + [u]
              && r == SignUpReply(201, "User created successfully", Some(WithoutPassword(u)))
  {
    if input.None? {
      return SignUpReply(500, "Something went wrong", None);
    }
    var body := input.value;
    var existing := UserByEmail(db.users, body.email);
    if existing.Some? {
      return SignUpReply(409, "User with this email already exists", None);
    }
    var user := User(db.nextId, body.name, body.email, Some(hash(body.password)));
    db.users := db.users + [user];
    db.nextId := db.nextId + 1;
    r := SignUpReply(201, "User created successfully", Some(WithoutPassword(user)));
  }

  /** A user who just signed up can sign in with the same email and password,
      provided the hash comparison accepts a password against its own hash. */
  lemma SignUpThenSignIn(users: seq<User>, details: seq<LinkedinDetails>, input: SignUpInput, id: Id,
                         hash: string -> string, matches: (string, string) -> bool)
    requires UserByEmail(users, input.email).None?
    requires input.email != "" && input.password != ""
    requires hash(input.password) != "" && matches(input.password, hash(input.password))
    ensures var after := users + [User(id, input.name, input.email, Some(hash(input.password)))];
            var r := Auth.Authorize(Some(Auth.Credentials(input.email, input.password)), after, details, matches);
            r.Ok? && r.value.id == id && r.value.name == input.name
  {
    var u := User(id, input.name, input.email, Some(hash(input.password)));
    var after := users + [u];
    var found := UserByEmail(after, input.email);
    assert u in after;
    assert found.Some?;
    assert found.value == u;
  }
}
