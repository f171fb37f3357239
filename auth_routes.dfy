/** backend/routes/auth.py: registration and login over the `users`
    collection, access-token creation and the bearer-token check. Password
    hashing and checking, JWT encoding and decoding and the clock are
    parameters. */
module AuthRoutes {
  import opened Wrappers
  import opened Bson
  import opened Db

  /** `ACCESS_TOKEN_EXPIRE_MINUTES`: declared, never read. */
  const AccessTokenExpireMinutes: int := 30

  /** The lifetime `create_access_token` gives a token when no delta is passed. */
  const DefaultExpiryMinutes: int := 15

  // ---------------------------------------------------------------------------
  // Tokens
  // ---------------------------------------------------------------------------

  /** The claims `create_access_token` signs: a copy of `data` with `exp` set to
      now plus the delta, or plus fifteen minutes when the delta is absent or
      zero (a zero `timedelta` is falsy). Times are in seconds. */
  function TokenClaims(data: Doc, expiresDelta: Option<int>, now: int): (claims: Doc)
    ensures claims.Keys == data.Keys + {"exp"}
    ensures forall k :: k in data && k != "exp" ==> claims[k] == data[k]
    ensures expiresDelta.Some? && expiresDelta.value != 0 ==> claims["exp"] == Date(now + expiresDelta.value)
    ensures expiresDelta.None? || expiresDelta.value == 0 ==> claims["exp"] == Date(now + DefaultExpiryMinutes * 60)
  {
    var expire := if expiresDelta.Some? && expiresDelta.value != 0 then now + expiresDelta.value
                  else now + DefaultExpiryMinutes * 60;
    data["exp" := Date(expire)]
  }

  /** `create_access_token`: the encoded claims. */
  function CreateAccessToken(data: Doc, expiresDelta: Option<int>, now: int, encode: Doc -> string): (token: string)
    ensures token == encode(TokenClaims(data, expiresDelta, now))
  {
    encode(TokenClaims(data, expiresDelta, now))
  }

  /** The routes call `create_access_token` without a delta, so every token
      they issue expires after fifteen minutes, not the thirty the constant
      names. */
  lemma IssuedTokensLastFifteenMinutes(data: Doc, now: int)
    ensures TokenClaims(data, None, now)["exp"] == Date(now + 15 * 60)
    ensures TokenClaims(data, None, now)["exp"] != Date(now + AccessTokenExpireMinutes * 60)
  {
  }

  /** The payload of a token the routes issue: the user id as text and the
      email. */
  function TokenData(userId: string, email: Value): (data: Doc)
    ensures data.Keys == {"user_id", "email"}
    ensures data["user_id"] == Str(userId) && data["email"] == email
  {
    map["user_id" := Str(userId), "email" := email]
  }

  /** The rejection `get_current_user` means to answer with. */
  const CredentialsRejected := HttpException(401, "Could not validate credentials")

  /** `get_current_user` as written: the `user_id` claim of a token that
      decodes. Its `except` clause names `jwt.JWTError`, which the PyJWT
      module imported on line 6 does not define; Python evaluates that name
      only when an exception reaches the clause, and then raises an
      `AttributeError` instead. So a token that does not decode, and the 401
      raised inside the `try` for a payload whose `user_id` is missing or
      `None`, both end the request with a server error. */
  function GetCurrentUser(token: string, decode: string -> Option<Doc>): (r: Result<Value, HttpException>)
    ensures r.Success? <==> decode(token).Some? && Get(decode(token).value, "user_id") != Null
    ensures r.Success? ==> r.value == decode(token).value["user_id"]
    ensures r.Failure? ==> r.error == InternalServerError
  {
    var payload := decode(token);
    if payload.None? then Failure(InternalServerError)
    else
      var userId := Get(payload.value, "user_id");
      if userId == Null then Failure(InternalServerError)
      else Success(userId)
  }

  /** `get_current_user` as its `except` clause evidently intends (catching
      the decoding library's own error class): the same users, and 401 for
      every token it refuses. */
  function GetCurrentUserCatchingJwtErrors(token: string, decode: string -> Option<Doc>): (r: Result<Value, HttpException>)
    ensures r.Success? <==> decode(token).Some? && Get(decode(token).value, "user_id") != Null
    ensures r.Success? ==> r.value == decode(token).value["user_id"]
    ensures r.Failure? ==> r.error == CredentialsRejected
  {
    var payload := decode(token);
    if payload.None? then Failure(CredentialsRejected)
    else
      var userId := Get(payload.value, "user_id");
      if userId == Null then Failure(CredentialsRejected)
      else Success(userId)
  }

  /** The two readings accept the same tokens with the same user, and every
      token the intended check refuses with 401 is a server error as
      written: an expired or forged token, for one. */
  lemma RefusedTokensAreServerErrors(token: string, decode: string -> Option<Doc>)
    ensures GetCurrentUserCatchingJwtErrors(token, decode).Success? ==>
              GetCurrentUser(token, decode) == GetCurrentUserCatchingJwtErrors(token, decode)
    ensures GetCurrentUserCatchingJwtErrors(token, decode) == Failure(CredentialsRejected) <==>
              GetCurrentUser(token, decode) == Failure(InternalServerError)
  {
  }

  /** A token issued by the routes names its user, when decoding inverts
      encoding. */
  lemma IssuedTokenAuthenticates(userId: string, email: Value, now: int,
                                 encode: Doc -> string, decode: string -> Option<Doc>)
    requires decode(encode(TokenClaims(TokenData(userId, email), None, now))) == Some(TokenClaims(TokenData(userId, email), None, now))
    ensures GetCurrentUser(CreateAccessToken(TokenData(userId, email), None, now, encode), decode) == Success(Str(userId))
    ensures GetCurrentUserCatchingJwtErrors(CreateAccessToken(TokenData(userId, email), None, now, encode), decode) == Success(Str(userId))
  {
  }

  // ---------------------------------------------------------------------------
  // Register and login
  // ---------------------------------------------------------------------------

  /** What both routes answer with: a token and the user without its password. */
  datatype AuthResponse = AuthResponse(token: string, user: Doc)

  /** The document `register_user` inserts: the three given fields, the hashed
      password, the phone (possibly `None`) and the two timestamps. */
  function NewUserDoc(email: Value, hashedPassword: string, fullName: Value, phone: Value, now: int): (d: Doc)
    ensures d.Keys == {"email", "password", "full_name", "phone", "created_at", "updated_at"}
    ensures d["email"] == email && d["password"] == Str(hashedPassword)
  {
    map["email" := email, "password" := Str(hashedPassword), "full_name" := fullName, "phone" := phone,
        "created_at" := Date(now), "updated_at" := Date(now)]
  }

  /** What a route call leaves behind: its answer and the `users` collection. */
  datatype AuthOutcome = AuthOutcome(response: Result<AuthResponse, HttpException>, users: seq<Doc>)

  /** `register_user` on the `users` collection: 400 unless `email`,
      `password` and `fullName` are all truthy; 400 when a user with that email
      exists; a server error, with nothing stored, when the password is not a
      string (the hashing library refuses it); otherwise one document is
      appended under the fresh id and the answer carries a token and the
      document without its password, its `_id` as text. */
  function Register(users: seq<Doc>, userData: Doc, hash: Value -> string, newId: string, now: int,
                    encode: Doc -> string): (o: AuthOutcome)
    ensures var email := Get(userData, "email");
            var password := Get(userData, "password");
            var fullName := Get(userData, "fullName");
      && (!(Truthy(email) && Truthy(password) && Truthy(fullName)) ==>
            o == AuthOutcome(Failure(HttpException(400, "Email, password, and full name are required")), users))
      && (Truthy(email) && Truthy(password) && Truthy(fullName) && FindFirst(users, "email", email).Some? ==>
            o == AuthOutcome(Failure(HttpException(400, "User with this email already exists")), users))
      && (Truthy(email) && Truthy(password) && Truthy(fullName) && FindFirst(users, "email", email).None? &&
          !password.Str? ==>
            o == AuthOutcome(Failure(InternalServerError), users))
      && (Truthy(email) && Truthy(password) && Truthy(fullName) && FindFirst(users, "email", email).None? &&
          password.Str? ==>
            var stored := NewUserDoc(email, hash(password), fullName, Get(userData, "phone"), now);
            && o.users == users + [stored["_id" := Oid(newId)]]
            && o.response == Success(AuthResponse(
                 CreateAccessToken(TokenData(newId, email), None, now, encode),
                 stored["_id" := Str(newId)] - {"password"})))
  {
    var email := Get(userData, "email");
    var password := Get(userData, "password");
    var fullName := Get(userData, "fullName");
    if !(Truthy(email) && Truthy(password) && Truthy(fullName)) then
      AuthOutcome(Failure(HttpException(400, "Email, password, and full name are required")), users)
    else if FindFirst(users, "email", email).Some? then
      AuthOutcome(Failure(HttpException(400, "User with this email already exists")), users)
    else if !password.Str? then
      AuthOutcome(Failure(InternalServerError), users)
    else
      var stored := NewUserDoc(email, hash(password), fullName, Get(userData, "phone"), now);
      AuthOutcome(
        Success(AuthResponse(CreateAccessToken(TokenData(newId, email), None, now, encode),
                             stored["_id" := Str(newId)] - {"password"})),
        users + [stored["_id" := Oid(newId)]])
  }

  /** Registration never removes or changes a user: it appends at most one,
      and a new one only under the fresh id. */
  lemma RegisterOnlyAppends(users: seq<Doc>, userData: Doc, hash: Value -> string, newId: string, now: int,
                            encode: Doc -> string)
    requires IdsValid(users) && IdUnused(users, Oid(newId))
    ensures var o := Register(users, userData, hash, newId, now, encode);
      && IdsValid(o.users)
      && (o.response.Success? <==> |o.users| == |users| + 1)
      && (o.response.Failure? <==> o.users == users)
      && o.users[..|users|] == users
  {
    var o := Register(users, userData, hash, newId, now, encode);
    if o.response.Success? {
      var d := o.users[|users|];
      AppendKeepsIdsValid(users, d);
      assert o.users[..|users|] == users;
    }
  }

  /** The endpoint `register_user` over the database: the `users` collection
      and the answer are those of `Register`. */
  method RegisterUser(db: Database, userData: Doc, hash: Value -> string, newId: string, now: int,
                      encode: Doc -> string) returns (r: Result<AuthResponse, HttpException>)
    requires db.Valid() && IdUnused(db.users, Oid(newId))
    modifies db
    ensures db.Valid()
    ensures db.reports == old(db.reports) && db.files == old(db.files) && db.geoIndexed == old(db.geoIndexed)
    ensures AuthOutcome(r, db.users) == Register(old(db.users), userData, hash, newId, now, encode)
  {
    var email := Get(userData, "email");
    var password := Get(userData, "password");
    var fullName := Get(userData, "fullName");
    var phone := Get(userData, "phone");
    if !(Truthy(email) && Truthy(password) && Truthy(fullName)) {
      return Failure(HttpException(400, "Email, password, and full name are required"));
    }
    var existing := FindFirst(db.users, "email", email);
    if existing.Some? {
      return Failure(HttpException(400, "User with this email already exists"));
    }
    if !password.Str? {
      return Failure(InternalServerError);
    }
    var hashedPassword := hash(password);
    var userDoc := NewUserDoc(email, hashedPassword, fullName, phone, now);
    // insert_one adds the generated `_id` to the inserted dict.
    userDoc := userDoc["_id" := Oid(newId)];
    AppendKeepsIdsValid(db.users, userDoc);
    db.users := db.users + [userDoc];
    userDoc := userDoc["_id" := Str(newId)];
    var token := CreateAccessToken(TokenData(newId, email), None, now, encode);
    userDoc := userDoc - {"password"};
    assert userDoc == NewUserDoc(email, hashedPassword, fullName, phone, now)["_id" := Str(newId)] - {"password"};
    r := Success(AuthResponse(token, userDoc));
  }

  /** The user record `login_user` answers with, read from the document as it
      was found: `last_login` is therefore the previous login, or `None`. */
  function LoginResponseUser(user: Doc, repr: Value -> string): (u: Doc)
    ensures "password" !in u
    ensures u.Keys == {"_id", "email", "full_name", "phone", "created_at", "updated_at", "last_login"}
    ensures u["last_login"] == Get(user, "last_login")
  {
    map["_id" := Str(ToStr(Get(user, "_id"), repr)),
        "email" := Get(user, "email"),
        "full_name" := Get(user, "full_name"),
        "phone" := Get(user, "phone"),
        "created_at" := Get(user, "created_at"),
        "updated_at" := Get(user, "updated_at"),
        "last_login" := Get(user, "last_login")]
  }

  /** `login_user` on the `users` collection: 400 unless email and password
      are truthy; 401 with one message for an unknown email and for a wrong
      password; a server error when the email finds a user but the password is
      not a string (the hash check refuses it); otherwise the found user's `last_login` becomes now (no other
      document changes) and the answer carries a token and the user as found,
      without its password. */
  function Login(users: seq<Doc>, credentials: Doc, verify: (Value, Value) -> bool, now: int,
                 encode: Doc -> string, repr: Value -> string): (o: AuthOutcome)
    ensures var email := Get(credentials, "email");
            var password := Get(credentials, "password");
            var found := FindFirst(users, "email", email);
      && (!(Truthy(email) && Truthy(password)) ==>
            o == AuthOutcome(Failure(HttpException(400, "Email and password are required")), users))
      && (Truthy(email) && Truthy(password) &&
          (found.None? || (password.Str? && !verify(password, Get(users[found.value], "password")))) ==>
            o == AuthOutcome(Failure(HttpException(401, "Incorrect email or password")), users))
      && (Truthy(email) && Truthy(password) && found.Some? && !password.Str? ==>
            o == AuthOutcome(Failure(InternalServerError), users))
      && (Truthy(email) && Truthy(password) && found.Some? && password.Str? && verify(password, Get(users[found.value], "password")) ==>
            var user := users[found.value];
            && o.users == users[found.value := user["last_login" := Date(now)]]
            && o.response == Success(AuthResponse(
                 CreateAccessToken(TokenData(ToStr(Get(user, "_id"), repr), Get(user, "email")), None, now, encode),
                 LoginResponseUser(user, repr))))
  {
    var email := Get(credentials, "email");
    var password := Get(credentials, "password");
    var found := FindFirst(users, "email", email);
    if !(Truthy(email) && Truthy(password)) then
      AuthOutcome(Failure(HttpException(400, "Email and password are required")), users)
    else if found.None? then
      AuthOutcome(Failure(HttpException(401, "Incorrect email or password")), users)
    else if !password.Str? then
      AuthOutcome(Failure(InternalServerError), users)
    else if !verify(password, Get(users[found.value], "password")) then
      AuthOutcome(Failure(HttpException(401, "Incorrect email or password")), users)
    else
      var user := users[found.value];
      AuthOutcome(
        Success(AuthResponse(CreateAccessToken(TokenData(ToStr(Get(user, "_id"), repr), Get(user, "email")), None, now, encode),
                             LoginResponseUser(user, repr))),
        users[found.value := user["last_login" := Date(now)]])
  }

  /** Login keeps the collection's size and ids, and changes a document only
      by stamping its `last_login`. */
  lemma LoginKeepsIds(users: seq<Doc>, credentials: Doc, verify: (Value, Value) -> bool, now: int,
                      encode: Doc -> string, repr: Value -> string)
    requires IdsValid(users)
    ensures var o := Login(users, credentials, verify, now, encode, repr);
      && IdsValid(o.users) && |o.users| == |users|
      && forall i :: 0 <= i < |users| ==> o.users[i] == users[i] || o.users[i] == users[i]["last_login" := Date(now)]
  {
    var email := Get(credentials, "email");
    var password := Get(credentials, "password");
    var found := FindFirst(users, "email", email);
    if Truthy(email) && Truthy(password) && found.Some? && password.Str? && verify(password, Get(users[found.value], "password")) {
      StampKeepsIdsValid(users, found.value, "last_login", Date(now));
    }
  }

  /** The endpoint `login_user` over the database; `update_one` finds the
      stamped user again by its `_id`. */
  method LoginUser(db: Database, credentials: Doc, verify: (Value, Value) -> bool, now: int,
                   encode: Doc -> string, repr: Value -> string) returns (r: Result<AuthResponse, HttpException>)
    requires db.Valid()
    modifies db
    ensures db.Valid()
    ensures db.reports == old(db.reports) && db.files == old(db.files) && db.geoIndexed == old(db.geoIndexed)
    ensures AuthOutcome(r, db.users) == Login(old(db.users), credentials, verify, now, encode, repr)
  {
    var email := Get(credentials, "email");
    var password := Get(credentials, "password");
    if !(Truthy(email) && Truthy(password)) {
      return Failure(HttpException(400, "Email and password are required"));
    }
    var found := FindFirst(db.users, "email", email);
    if found.None? {
      return Failure(HttpException(401, "Incorrect email or password"));
    }
    if !password.Str? {
      return Failure(InternalServerError);
    }
    if !verify(password, Get(db.users[found.value], "password")) {
      return Failure(HttpException(401, "Incorrect email or password"));
    }
    var user := db.users[found.value];
    // update_one({"_id": user["_id"]}, {"$set": {"last_login": now}})
    var target := FindFirst(db.users, "_id", user["_id"]);
    FindById(db.users, found.value);
    LoginKeepsIds(db.users, credentials, verify, now, encode, repr);
    db.users := db.users[target.value := db.users[target.value]["last_login" := Date(now)]];
    var token := CreateAccessToken(TokenData(ToStr(user["_id"], repr), user["email"]), None, now, encode);
    r := Success(AuthResponse(token, LoginResponseUser(user, repr)));
  }

  /** The request body of a registration with the three required fields. */
  function RegistrationData(email: string, password: string, fullName: string): (d: Doc)
    ensures Get(d, "email") == Str(email) && Get(d, "password") == Str(password)
    ensures Get(d, "fullName") == Str(fullName) && Get(d, "phone") == Null
  {
    map["email" := Str(email), "password" := Str(password), "fullName" := Str(fullName)]
  }

  /** The request body of a login. */
  function Credentials(email: string, password: string): (d: Doc)
    ensures Get(d, "email") == Str(email) && Get(d, "password") == Str(password)
  {
    map["email" := Str(email), "password" := Str(password)]
  }

  /** The document a registration with the three required fields stores. */
  function RegisteredUser(email: string, password: string, fullName: string, newId: string, now: int,
                          hash: Value -> string): (d: Doc)
    ensures FieldIs(d, "email", Str(email)) && Get(d, "password") == Str(hash(Str(password)))
    ensures FieldIs(d, "_id", Oid(newId))
  {
    NewUserDoc(Str(email), hash(Str(password)), Str(fullName), Null, now)["_id" := Oid(newId)]
  }

  /** A registration with all three fields and a new email succeeds and
      appends its document. */
  lemma RegisterAppendsUser(users: seq<Doc>, email: string, password: string, fullName: string, newId: string,
                            now: int, hash: Value -> string, encode: Doc -> string)
    requires email != "" && password != "" && fullName != ""
    requires FindFirst(users, "email", Str(email)).None?
    ensures var o := Register(users, RegistrationData(email, password, fullName), hash, newId, now, encode);
      o.response.Success? && o.users == users + [RegisteredUser(email, password, fullName, newId, now, hash)]
  {
    var data := RegistrationData(email, password, fullName);
    assert Truthy(Get(data, "email")) && Truthy(Get(data, "password")) && Truthy(Get(data, "fullName"));
    assert FindFirst(users, "email", Get(data, "email")).None?;
  }

  /** A user appended with an email no earlier user has is the one
      `find_one` finds by that email. */
  lemma AppendedUserFound(users: seq<Doc>, user: Doc, email: Value)
    requires FindFirst(users, "email", email).None? && FieldIs(user, "email", email)
    ensures FindFirst(users + [user], "email", email) == Some(|users|)
  {
    assert (users + [user])[|users|] == user;
    assert forall i :: 0 <= i < |users| ==> (users + [user])[i] == users[i];
  }

  /** A login whose email finds user `k` and whose password that user's hash
      accepts succeeds and stamps that user. */
  lemma LoginStampsFoundUser(users: seq<Doc>, credentials: Doc, verify: (Value, Value) -> bool, now: int,
                             encode: Doc -> string, repr: Value -> string, k: nat)
    requires Truthy(Get(credentials, "email")) && Get(credentials, "password").Str? && Get(credentials, "password").s != ""
    requires FindFirst(users, "email", Get(credentials, "email")) == Some(k)
    requires verify(Get(credentials, "password"), Get(users[k], "password"))
    ensures var o := Login(users, credentials, verify, now, encode, repr);
      o.response.Success? && o.users == users[k := users[k]["last_login" := Date(now)]]
  {
  }

  /** A user registered with a new email can log in with the same password,
      given a hash check that accepts a password against its own hash: the
      login finds the new document and stamps it. */
  lemma RegisteredUserCanLogIn(users: seq<Doc>, email: string, password: string, fullName: string, newId: string,
                               now: int, later: int, hash: Value -> string, verify: (Value, Value) -> bool,
                               encode: Doc -> string, repr: Value -> string)
    requires email != "" && password != "" && fullName != ""
    requires FindFirst(users, "email", Str(email)).None?
    requires verify(Str(password), Str(hash(Str(password))))
    ensures var registered := Register(users, RegistrationData(email, password, fullName), hash, newId, now, encode);
      var loggedIn := Login(registered.users, Credentials(email, password), verify, later, encode, repr);
      && registered.response.Success? && loggedIn.response.Success?
      && |loggedIn.users| == |users| + 1
      && loggedIn.users[|users|] == registered.users[|users|]["last_login" := Date(later)]
  {
    var user := RegisteredUser(email, password, fullName, newId, now, hash);
    RegisterAppendsUser(users, email, password, fullName, newId, now, hash, encode);
    AppendedUserFound(users, user, Str(email));
    assert (users + [user])[|users|] == user;
    LoginStampsFoundUser(users + [user], Credentials(email, password), verify, later, encode, repr, |users|);
  }

  /** Registering and then logging in through the endpoints: both succeed, the
      collection grows by one user, and that user carries the login time. */
  method RegisterThenLogin(db: Database, email: string, password: string, fullName: string, newId: string,
                           now: int, later: int, hash: Value -> string, verify: (Value, Value) -> bool,
                           encode: Doc -> string, repr: Value -> string)
    returns (registered: Result<AuthResponse, HttpException>, loggedIn: Result<AuthResponse, HttpException>)
    requires db.Valid() && IdUnused(db.users, Oid(newId))
    requires email != "" && password != "" && fullName != ""
    requires FindFirst(db.users, "email", Str(email)).None?
    requires verify(Str(password), Str(hash(Str(password))))
    modifies db
    ensures registered.Success? && loggedIn.Success?
    ensures |db.users| == |old(db.users)| + 1
    ensures "last_login" in db.users[|old(db.users)|] && db.users[|old(db.users)|]["last_login"] == Date(later)
  {
    RegisteredUserCanLogIn(db.users, email, password, fullName, newId, now, later, hash, verify, encode, repr);
    registered := RegisterUser(db, RegistrationData(email, password, fullName), hash, newId, now, encode);
    loggedIn := LoginUser(db, Credentials(email, password), verify, later, encode, repr);
  }
}
