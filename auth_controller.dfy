/** backend/src/controllers/auth.controller.js over the Users table of
    backend/src/models/User.js. Hashing, comparing and signing are foreign
    code: they are given as the functions of a `Crypto` value, together
    with the JWT secret of the environment. The uuid of a new user is a
    parameter. */
module AuthController {
  import opened Js
  import opened Store
  import opened Http

  /** bcrypt.hash and bcrypt.compare on text, the `JWT_SECRET` of the
      environment (None when it is unset), and jwt.sign under a secret. */
  datatype Crypto = Crypto(
    hash: string -> string,
    matches: (string, string) -> bool,
    secret: Option<string>,
    sign: (string, Option<Value>, Option<Value>) -> string)

  /** jwt.sign throws when the secret is missing or empty. */
  predicate CanSign(crypto: Crypto) {
    crypto.secret.Some? && crypto.secret.value != ""
  }

  /** The message jwt.sign throws without a secret. */
  const SECRET_MISSING := "secretOrPrivateKey must have a value"

  /** The token jwt.sign issues for `{ userId, email }`. */
  function Token(crypto: Crypto, userId: Option<Value>, email: Option<Value>): string
    requires CanSign(crypto)
  {
    crypto.sign(crypto.secret.value, userId, email)
  }

  /** The message bcryptjs rejects with when its two arguments are not
      both text, given their `typeof`s. */
  function IllegalArguments(first: string, second: string): string {
    "Illegal arguments: " + first + ", " + second
  }

  /** `bcrypt.compare(password, stored)` on two texts. */
  predicate Accepts(crypto: Crypto, password: Option<Value>, stored: Option<Value>)
    requires IsText(password) && IsText(stored)
  {
    crypto.matches(password.value.s, stored.value.s)
  }

  /** `User.findByEmail(email)`: the first user whose email is
      String(email), None when there is none. */
  function FindByEmail(users: Table, email: Option<Value>): (r: Result<Option<Row>>)
    reads users
    ensures users.outage.Some? ==> r == Err(PlainError("Failed to find user: " + users.outage.value.message))
    ensures users.outage.None? ==> r.Ok?
    ensures r.Ok? ==> (r.value.None? <==> forall u :: u in users.rows ==> !Matches(u, "email", ToText(email)))
    ensures r.Ok? && r.value.Some? ==> r.value.value in users.rows && Matches(r.value.value, "email", ToText(email))
    ensures users.outage.None? ==> var found := Where(users.rows, "email", ToText(email));
      r == Ok(if found == [] then None else Some(found[0]))
  {
    match users.Select("email", ToText(email))
    case Err(e) => Err(PlainError("Failed to find user: " + e.message))
    case Ok(found) =>
      if found == [] then Ok(None)
      else
        assert found[0] in found;
        Ok(Some(found[0]))
  }

  /** The record User.create stores: the new userId, the email as given
      and the hash of the (text) password. */
  function UserFields(email: Option<Value>, password: string, crypto: Crypto, newUserId: string): (f: Fields)
    ensures Get(f, "userId") == Some(Str(newUserId))
    ensures Get(f, "email") == email
    ensures Get(f, "password") == Some(Str(crypto.hash(password)))
    ensures f.Keys <= {"userId", "email", "password"}
  {
    Put(map["userId" := Str(newUserId), "password" := Str(crypto.hash(password))], "email", email)
  }

  /** `signup`. User.create hashes the password before it inserts, so a
      password that is not text is refused with no insert; the token is
      signed after the insert, so a missing secret answers 500 with the new
      user already stored. */
  method Signup(users: Table, body: Fields, crypto: Crypto, newUserId: string) returns (reply: Reply)
    requires users.Valid()
    modifies users
    ensures users.Valid() && users.outage == old(users.outage)
    ensures reply.Reply?
    ensures old(users.outage).Some? ==>
      reply == Fail(500, "Failed to find user: " + old(users.outage).value.message) && users.rows == old(users.rows)
    ensures old(FindByEmail(users, Get(body, "email"))).Ok? && old(FindByEmail(users, Get(body, "email"))).value.Some? ==>
      reply == Fail(400, "Email already registered") && users.rows == old(users.rows)
    ensures old(FindByEmail(users, Get(body, "email"))) == Ok(None) && !IsText(Get(body, "password")) ==>
      && reply == Fail(500, "Failed to create user: " + IllegalArguments(TypeOf(Get(body, "password")), "string"))
      && users.rows == old(users.rows)
    ensures old(FindByEmail(users, Get(body, "email"))) == Ok(None) && IsText(Get(body, "password")) ==>
      users.rows == old(users.rows) + [Row(old(users.nextId), UserFields(Get(body, "email"), Get(body, "password").value.s, crypto, newUserId))]
    ensures old(FindByEmail(users, Get(body, "email"))) == Ok(None) && IsText(Get(body, "password")) && !CanSign(crypto) ==>
      reply == Fail(500, SECRET_MISSING)
    ensures reply.code == 201 <==>
      old(FindByEmail(users, Get(body, "email"))) == Ok(None) && IsText(Get(body, "password")) && CanSign(crypto)
    ensures reply.code == 201 ==>
      reply == Reply(201, SessionBody(Some(Str(newUserId)), Get(body, "email"),
                                      Token(crypto, Some(Str(newUserId)), Get(body, "email"))))
    ensures users.rows != old(users.rows) ==>
      old(FindByEmail(users, Get(body, "email"))) == Ok(None) && IsText(Get(body, "password"))
  {
    var email, password := Get(body, "email"), Get(body, "password");
    var existing := FindByEmail(users, email);
    match existing {
      case Err(e) =>
        return Fail(500, e.message);
      case Ok(Some(_)) =>
        return Fail(400, "Email already registered");
      case Ok(None) =>
    }
    if !IsText(password) {
      return Fail(500, "Failed to create user: " + IllegalArguments(TypeOf(password), "string"));
    }
    var created := users.Create(UserFields(email, password.value.s, crypto, newUserId));
    match created {
      case Err(e) =>
        reply := Fail(500, "Failed to create user: " + e.message);
      case Ok(record) =>
        var userId, userEmail := Get(record.fields, "userId"), Get(record.fields, "email");
        if !CanSign(crypto) {
          return Fail(500, SECRET_MISSING);
        }
        reply := Reply(201, SessionBody(userId, userEmail, Token(crypto, userId, userEmail)));
    }
  }

  /** `login`. bcrypt.compare rejects unless both the given and the stored
      password are text, and jwt.sign throws without a secret; both land
      in the catch as 500. */
  function Login(users: Table, body: Fields, crypto: Crypto): (reply: Reply)
    reads users
    ensures reply.Reply?
    ensures users.outage.Some? ==> reply == Fail(500, "Failed to find user: " + users.outage.value.message)
    ensures reply.code == 401 <==>
      var found := FindByEmail(users, Get(body, "email"));
      found.Ok? &&
      (found.value.None? ||
       var stored := Get(found.value.value.fields, "password");
       IsText(Get(body, "password")) && IsText(stored) && !Accepts(crypto, Get(body, "password"), stored))
    ensures reply.code == 401 ==> reply == Fail(401, "Invalid email or password")
    ensures var found := FindByEmail(users, Get(body, "email"));
      found.Ok? && found.value.Some? ==>
      var stored := Get(found.value.value.fields, "password");
      !(IsText(Get(body, "password")) && IsText(stored)) ==>
      reply == Fail(500, IllegalArguments(TypeOf(Get(body, "password")), TypeOf(stored)))
    ensures reply.code == 200 <==>
      var found := FindByEmail(users, Get(body, "email"));
      found.Ok? && found.value.Some? &&
      var stored := Get(found.value.value.fields, "password");
      IsText(Get(body, "password")) && IsText(stored) && Accepts(crypto, Get(body, "password"), stored) && CanSign(crypto)
    ensures var found := FindByEmail(users, Get(body, "email"));
      found.Ok? && found.value.Some? ==>
      var stored := Get(found.value.value.fields, "password");
      IsText(Get(body, "password")) && IsText(stored) && Accepts(crypto, Get(body, "password"), stored) && !CanSign(crypto) ==>
      reply == Fail(500, SECRET_MISSING)
    ensures reply.code == 200 ==>
      var found := FindByEmail(users, Get(body, "email"));
      found.Ok? && found.value.Some? &&
      var userId, email := Get(found.value.value.fields, "userId"), Get(found.value.value.fields, "email");
      reply == Reply(200, SessionBody(userId, email, Token(crypto, userId, email)))
  {
    match FindByEmail(users, Get(body, "email"))
    case Err(e) => Fail(500, e.message)
    case Ok(None) => Fail(401, "Invalid email or password")
    case Ok(Some(user)) =>
      var password, stored := Get(body, "password"), Get(user.fields, "password");
      if !(IsText(password) && IsText(stored)) then
        Fail(500, IllegalArguments(TypeOf(password), TypeOf(stored)))
      else if !Accepts(crypto, password, stored) then
        Fail(401, "Invalid email or password")
      else if !CanSign(crypto) then
        Fail(500, SECRET_MISSING)
      else
        var userId, email := Get(user.fields, "userId"), Get(user.fields, "email");
        Reply(200, SessionBody(userId, email, Token(crypto, userId, email)))
  }

  /** The two login failures cannot be told apart: an unknown email and a
      wrong password for a known one get the same response. */
  lemma LoginFailuresIndistinguishable(users: Table, unknown: Fields, wrong: Fields, crypto: Crypto)
    requires users.outage.None?
    requires forall u :: u in users.rows ==> !Matches(u, "email", ToText(Get(unknown, "email")))
    requires var found := FindByEmail(users, Get(wrong, "email"));
      found.Ok? && found.value.Some? &&
      var stored := Get(found.value.value.fields, "password");
      IsText(Get(wrong, "password")) && IsText(stored) && !Accepts(crypto, Get(wrong, "password"), stored)
    ensures Login(users, unknown, crypto) == Login(users, wrong, crypto)
  {
  }

  /** Sign-up followed by log-in with the same body. When bcrypt accepts a
      password against its own hash: a sign-up that succeeds lets the user
      log in and receive the new userId; a sign-up refused for a missing
      secret still stores the user, and the log-in fails the same way. */
  method SignupThenLogin(users: Table, body: Fields, crypto: Crypto, newUserId: string)
    returns (signedUp: Reply, loggedIn: Reply)
    requires users.Valid() && users.outage.None?
    requires IsText(Get(body, "email"))
    requires IsText(Get(body, "password")) ==>
      Accepts(crypto, Get(body, "password"), Some(Str(crypto.hash(Get(body, "password").value.s))))
    modifies users
    ensures signedUp.Reply? && (signedUp.code == 201 || signedUp.code == 400 || signedUp.code == 500)
    ensures signedUp.code == 400 <==> old(FindByEmail(users, Get(body, "email"))).value.Some?
    ensures signedUp.code == 201 <==>
      old(FindByEmail(users, Get(body, "email"))) == Ok(None) && IsText(Get(body, "password")) && CanSign(crypto)
    ensures signedUp.code == 201 ==>
      loggedIn == Reply(200, SessionBody(Some(Str(newUserId)), Get(body, "email"),
                                         Token(crypto, Some(Str(newUserId)), Get(body, "email"))))
    ensures old(FindByEmail(users, Get(body, "email"))) == Ok(None) && IsText(Get(body, "password")) && !CanSign(crypto) ==>
      signedUp == Fail(500, SECRET_MISSING) && loggedIn == Fail(500, SECRET_MISSING) && |users.rows| == |old(users.rows)| + 1
  {
    ghost var before := users.rows;
    ghost var existing := FindByEmail(users, Get(body, "email"));
    signedUp := Signup(users, body, crypto, newUserId);
    loggedIn := Login(users, body, crypto);
    if existing == Ok(None) && IsText(Get(body, "password")) {
      var email := Get(body, "email");
      var row := users.rows[|before|];
      assert users.rows == before + [row];
      assert Where(before, "email", ToText(email)) == [];
      assert Matches(row, "email", ToText(email));
      FilterAppend(before, [row], (x: Row) => Matches(x, "email", ToText(email)));
      assert Where(users.rows, "email", ToText(email)) == [row];
    }
  }
}
