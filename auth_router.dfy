/**
 * The handlers of backend/app/routers/auth.py. Supabase Auth (sign-in, sign-up) and the
 * `users` table are parameters: each call is the value it returned or the text it raised.
 * Password hashing is left out, and so is the hash in the user record.
 */
module AuthRouter {

  import opened Wrappers
  import opened Seqs
  import opened Text
  import opened Http
  import opened TokenAuth

  // ---------------------------------------------------------------- dependency

  const InvalidToken: HttpError := HttpError(401, "Token inválido o expirado", true)

  /**
   * `get_current_user_dependency` (and the identical `get_current_user` of the notes router):
   * the subject of the bearer token, or 401 with a `WWW-Authenticate: Bearer` challenge
   * whenever no truthy subject comes out of it.
   */
  function CurrentUserDependency(t: Token, key: string, now: int): (r: Response<ClaimValue>)
    ensures r.Ok? <==> GetUserIdFromToken(t, key, now).Some? && Truthy(GetUserIdFromToken(t, key, now).value)
    ensures r.Ok? ==> r.value == GetUserIdFromToken(t, key, now).value
    ensures r.Fail? ==> r.error == InvalidToken && r.error.bearerChallenge
  {
    var sub := GetUserIdFromToken(t, key, now);
    if sub.Some? && Truthy(sub.value) then Ok(sub.value) else Fail(InvalidToken)
  }

  /** A token issued at login for a user passes the dependency, until it expires, and yields that user. */
  lemma IssuedTokenAuthenticates(userId: string, expiresDelta: Option<int>, key: string, now: int, later: int)
    requires userId != ""
    requires later <= Expiry(now, expiresDelta)
    ensures CurrentUserDependency(CreateAccessToken(map["sub" := Str(userId)], expiresDelta, key, now), key, later)
            == Ok(Str(userId))
  {
    IssuedSubjectRoundTrip(userId, expiresDelta, key, now, later);
  }

  // ---------------------------------------------------------------- register

  /** `UserCreate`. */
  datatype UserCreate = UserCreate(email: string, password: string,
                                   fullName: Option<string> := None, username: Option<string> := None)

  /** The part of an email before its first '@' (all of it when there is none). */
  function EmailLocalPart(email: string): (local: string)
    ensures StartsWith(email, local) && '@' !in local
    ensures |local| < |email| ==> email[|local|] == '@'
  {
    Split(email, '@')[0]
  }

  /** The registration data after the username default: a falsy username becomes the email's local part. */
  function WithDefaultUsername(u: UserCreate): (r: UserCreate)
    ensures r.email == u.email && r.password == u.password && r.fullName == u.fullName
    ensures r.username.Some?
    ensures u.username.Some? && u.username.value != "" ==> r.username == u.username
    ensures u.username.None? || u.username.value == "" ==> r.username == Some(EmailLocalPart(u.email))
  {
    if u.username.None? || u.username.value == "" then u.(username := Some(EmailLocalPart(u.email))) else u
  }

  /** The row written to the `users` table (the password hash is left out). */
  datatype UserRecord = UserRecord(id: string, email: string, fullName: Option<string>, username: Option<string>,
                                   isActive: bool)

  datatype Registered = Registered(message: string, userId: string, record: UserRecord)

  const RegisteredMessage: string := "Usuario registrado exitosamente"

  /**
   * The external results `register` meets, in order: whether the email already has a row in
   * `users`; the probing sign-in (the auth user's id, if it returned one); the insert that
   * syncs such a user (whether it returned data); the sign-up (the new auth user's id, if any);
   * the insert of the new user.
   */
  datatype RegisterCalls = RegisterCalls(emailTaken: Call<bool>, probe: Call<Option<string>>, syncInsert: Call<bool>,
                                         signUp: Call<Option<string>>, insert: Call<bool>)

  function RecordFor(id: string, u: UserCreate): UserRecord {
    UserRecord(id, u.email, u.fullName, u.username, true)
  }

  /**
   * The probing sign-in: an auth user without a `users` row is synced and registration ends
   * there. Its `except Exception: pass` swallows everything else, its own 500 included.
   */
  function Synced(u: UserCreate, calls: RegisterCalls): Option<Registered> {
    if calls.probe.Returned? && calls.probe.value.Some? && calls.syncInsert == Returned(true) then
      Some(Registered(RegisteredMessage, calls.probe.value.value, RecordFor(calls.probe.value.value, u)))
    else None
  }

  const EmailTaken: HttpError := HttpError(400, "El email ya está registrado", false)

  const SignUpFailed: HttpError := HttpError(400, "Error al crear usuario en autenticación", false)

  const SaveFailed: HttpError := HttpError(500, "Error al guardar datos del usuario", false)

  /** The `try` block of `register`. */
  function RegisterBody(user: UserCreate, calls: RegisterCalls): Body<Registered> {
    var u := WithDefaultUsername(user);
    match calls.emailTaken
    case Threw(m) => Raise(OtherException(m))
    case Returned(taken) =>
      if taken then Raise(HttpException(EmailTaken))
      else if Synced(u, calls).Some? then Return(Synced(u, calls).value)
      else
        match calls.signUp
        case Threw(m) => Raise(OtherException(m))
        case Returned(authUser) =>
          if authUser.None? then Raise(HttpException(SignUpFailed))
          else
            match calls.insert
            case Threw(m) => Raise(OtherException(m))
            case Returned(inserted) =>
              if inserted then Return(Registered(RegisteredMessage, authUser.value, RecordFor(authUser.value, u)))
              else Raise(HttpException(SaveFailed))
  }

  const AlreadyRegistered: HttpError :=
    HttpError(400, EmailTaken.detail + ". Si crees que esto es un error, contacta al administrador.", false)

  const ServerError: HttpError := HttpError(500, "Error interno del servidor", false)

  /** The outer handler's reading of any other exception's text. */
  function UnexpectedError(message: string): (e: HttpError)
    ensures e == AlreadyRegistered <==> Contains(Lower(message), "already registered")
    ensures e != AlreadyRegistered ==> e == ServerError
  {
    AlreadyRegisteredSubsumed(message);
    if Contains(message, "User already registered") || Contains(Lower(message), "already registered") then
      AlreadyRegistered
    else ServerError
  }

  /** The case-sensitive test for "User already registered" adds nothing to the case-insensitive one. */
  lemma AlreadyRegisteredSubsumed(message: string)
    ensures Contains(message, "User already registered") ==> Contains(Lower(message), "already registered")
  {
    if Contains(message, "User already registered") {
      ContainsPhraseTail(message);
      ContainsLowerPattern(message, "already registered");
    }
  }

  lemma ContainsPhraseTail(message: string)
    requires Contains(message, "User already registered")
    ensures Contains(message, "already registered")
  {
    assert OccursAt("User already registered", "already registered", 5);
    ContainsTransitive(message, "User already registered", "already registered");
  }

  /**
   * `register`: an `HTTPException` from the body goes out unchanged; any other exception is 400
   * when its text mentions "already registered" in any case, and 500 otherwise.
   */
  function Register(user: UserCreate, calls: RegisterCalls): (r: Response<Registered>)
    ensures calls.emailTaken == Returned(true) ==> r == Fail(EmailTaken)
    ensures calls.emailTaken.Threw? ==> r == Fail(UnexpectedError(calls.emailTaken.message))
    ensures r.Ok? ==> calls.emailTaken == Returned(false) && r.value.message == RegisteredMessage
    ensures r.Ok? ==> r.value.record.id == r.value.userId && r.value.record.email == user.email &&
                      r.value.record.isActive && r.value.record.username == WithDefaultUsername(user).username
    ensures r.Ok? ==> (calls.probe == Returned(Some(r.value.userId)) && calls.syncInsert == Returned(true)) ||
                      (calls.signUp == Returned(Some(r.value.userId)) && calls.insert == Returned(true))
    ensures r.Fail? ==> r.error in {EmailTaken, SignUpFailed, SaveFailed, AlreadyRegistered, ServerError}
    ensures calls.emailTaken == Returned(false) && Synced(WithDefaultUsername(user), calls).Some? ==>
              r == Ok(Synced(WithDefaultUsername(user), calls).value)
    ensures calls.emailTaken == Returned(false) && Synced(WithDefaultUsername(user), calls).None? ==>
              && (calls.signUp.Threw? ==> r == Fail(UnexpectedError(calls.signUp.message)))
              && (calls.signUp == Returned(None) ==> r == Fail(SignUpFailed))
              && (calls.signUp.Returned? && calls.signUp.value.Some? ==>
                    && (calls.insert.Threw? ==> r == Fail(UnexpectedError(calls.insert.message)))
                    && (calls.insert == Returned(false) ==> r == Fail(SaveFailed))
                    && (calls.insert == Returned(true) ==>
                          r == Ok(Registered(RegisteredMessage, calls.signUp.value.value,
                                             RecordFor(calls.signUp.value.value, WithDefaultUsername(user))))))
  {
    match RegisterBody(user, calls)
    case Return(v) => Ok(v)
    case Raise(HttpException(e)) => Fail(e)
    case Raise(OtherException(m)) => Fail(UnexpectedError(m))
  }

  /** A failure while syncing an existing auth user is ignored: registration goes on as if the probe found nobody. */
  lemma SyncFailureIgnored(user: UserCreate, calls: RegisterCalls)
    requires calls.syncInsert != Returned(true)
    ensures Register(user, calls) == Register(user, calls.(probe := Returned(None)))
  {
  }

  /**
   * A new user who signs up and is stored gets the auth id, with the username defaulted from
   * the email, whatever the probing sign-in did as long as it synced nobody.
   */
  lemma NewUserRegistered(user: UserCreate, calls: RegisterCalls, id: string)
    requires calls.emailTaken == Returned(false) && Synced(WithDefaultUsername(user), calls).None?
    requires calls.signUp == Returned(Some(id)) && calls.insert == Returned(true)
    ensures Register(user, calls) ==
            Ok(Registered(RegisteredMessage, id,
                          UserRecord(id, user.email, user.fullName, WithDefaultUsername(user).username, true)))
    ensures user.username.None? || user.username.value == "" ==>
              Register(user, calls).value.record.username == Some(EmailLocalPart(user.email))
  {
  }

  /**
   * A sign-up that raises with "already registered" in its text, in any case, comes out as the
   * 400 for a taken email; any other sign-up exception is 500.
   */
  lemma SignUpExceptionMapped(user: UserCreate, calls: RegisterCalls)
    requires calls.emailTaken == Returned(false) && Synced(WithDefaultUsername(user), calls).None?
    requires calls.signUp.Threw?
    ensures Contains(Lower(calls.signUp.message), "already registered") ==> Register(user, calls) == Fail(AlreadyRegistered)
    ensures !Contains(Lower(calls.signUp.message), "already registered") ==> Register(user, calls) == Fail(ServerError)
  {
  }

  // ---------------------------------------------------------------- login

  /** `Token` (the response model). */
  datatype LoginResponse = LoginResponse(accessToken: Token, tokenType: string, expiresIn: int)

  const BadCredentials: HttpError := HttpError(401, "Credenciales incorrectas", false)

  /**
   * `login`: a sign-in that returns a user gets a bearer token for that user's id, valid for the
   * configured minutes; everything else, the handler's own 401 included, is 401.
   */
  function Login(signIn: Call<Option<string>>, expireMinutes: int, key: string, now: int): (r: Response<LoginResponse>)
    ensures r.Ok? <==> signIn.Returned? && signIn.value.Some?
    ensures r.Fail? ==> r.error == BadCredentials
    ensures r.Ok? ==> r.value.tokenType == "bearer" && r.value.expiresIn == expireMinutes * 60
    ensures r.Ok? ==> r.value.accessToken ==
                      CreateAccessToken(map["sub" := Str(signIn.value.value)], Some(expireMinutes * 60), key, now)
  {
    match signIn
    case Threw(_) => Fail(BadCredentials)
    case Returned(authUser) =>
      if authUser.Some? then
        Ok(LoginResponse(CreateAccessToken(map["sub" := Str(authUser.value)], Some(expireMinutes * 60), key, now),
                         "bearer", expireMinutes * 60))
      else Fail(BadCredentials)
  }

  /** For a non-zero setting, the token's lifetime is the advertised `expires_in`, and it authenticates its user. */
  lemma LoginTokenLifetime(userId: string, expireMinutes: int, key: string, now: int, later: int)
    requires userId != "" && expireMinutes != 0
    requires later <= now + expireMinutes * 60
    ensures Login(Returned(Some(userId)), expireMinutes, key, now).Ok?
    ensures var resp := Login(Returned(Some(userId)), expireMinutes, key, now).value;
            Expiry(now, Some(expireMinutes * 60)) == now + resp.expiresIn &&
            CurrentUserDependency(resp.accessToken, key, later) == Ok(Str(userId))
  {
    IssuedTokenAuthenticates(userId, Some(expireMinutes * 60), key, now, later);
  }

  /**
   * With a setting of 0 minutes the response advertises `expires_in` 0, while the zero delta is
   * falsy and the token lives the 30-minute default.
   */
  lemma ZeroMinutesLifetimeMismatch(userId: string, key: string, now: int)
    ensures Login(Returned(Some(userId)), 0, key, now).Ok?
    ensures Login(Returned(Some(userId)), 0, key, now).value.expiresIn == 0
    ensures Login(Returned(Some(userId)), 0, key, now).value.accessToken.claims["exp"] == Num(now + 1800)
  {
  }

  // ---------------------------------------------------------------- me, logout

  /** `User`. */
  datatype User = User(id: string, email: string, fullName: Option<string>, username: Option<string>,
                       createdAt: int, updatedAt: int, isActive: bool)

  function MeBody(users: seq<User>, userId: string, fault: Option<string>): Body<User> {
    if fault.Some? then Raise(OtherException(fault.value))
    else
      var rows := Filter(users, (u: User) => u.id == userId);
      if rows == [] then Raise(HttpException(UserNotFound)) else Return(rows[0])
  }

  const UserNotFound: HttpError := HttpError(404, "Usuario no encontrado", false)

  lemma DescribeUserNotFound()
    ensures Describe(HttpException(UserNotFound)) == "404: " + UserNotFound.detail
  {
    assert Digit(4) == '4' && Digit(0) == '0';
    assert Decimal(4) == "4";
    assert Decimal(40) == Decimal(4) + [Digit(0)];
    assert Decimal(404) == Decimal(40) + [Digit(4)];
    assert Decimal(404) + ": " == "404: ";
  }

  /** `/me`: the user's row; its lone `except Exception` turns the 404 for a missing user into 500. */
  function Me(users: seq<User>, userId: string, fault: Option<string>): (r: Response<User>)
    ensures r.Ok? ==> r.value in users && r.value.id == userId
    ensures fault.None? ==> (r.Ok? <==> exists u :: u in users && u.id == userId)
    ensures fault.None? && r.Fail? ==> r.error == InternalError(InternalPrefix + "404: " + UserNotFound.detail)
    ensures fault.Some? ==> r == Fail(InternalError(InternalPrefix + fault.value))
  {
    var rows := Filter(users, (u: User) => u.id == userId);
    assert rows != [] ==> rows[0] in rows;
    FilterNonEmpty(users, (u: User) => u.id == userId);
    DescribeUserNotFound();
    assert fault.None? && rows == [] ==> MeBody(users, userId, fault) == Raise(HttpException(UserNotFound));
    assert fault.None? && rows != [] ==> MeBody(users, userId, fault) == Return(rows[0]);
    CatchAll(MeBody(users, userId, fault), InternalPrefix)
  }

  const LoggedOut: string := "Sesión cerrada exitosamente"

  /**
   * `logout`: always the same message. The server keeps no session, so the token is passed
   * through only to say that nothing changes: the token comes back as it was.
   */
  function Logout(t: Token): (r: (string, Token))
    ensures r.0 == LoggedOut
    ensures r.1 == t
  {
    (LoggedOut, t)
  }
}
