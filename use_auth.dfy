/**
 * frontend/src/hooks/useAuth.jsx: the authentication context. `localStorage` is the `storage`
 * field; `user` holds the email of the `{ email }` object, `None` for `null`. The async
 * `login` and `register` are split at their `await` into `Begin…` and `Finish…`.
 */
module UseAuth {

  import opened Wrappers
  import opened ClientModel

  const TokenKey: string := "authToken"
  const EmailKey: string := "userEmail"
  const NoTokenReceived: string := "Token no recibido del servidor"
  const LoginFailed: string := "Error al iniciar sesión"
  const RegisterFailed: string := "Error al registrar usuario"

  /** What `login` and `register` resolve to: `{ success: true, data }` or `{ success: false, error }`. */
  datatype Outcome<T> = Ok(data: T) | Err(error: string)

  /** `error.message || fallback`. */
  function MessageOr(message: string, fallback: string): (m: string)
    ensures message != "" ==> m == message
    ensures message == "" ==> m == fallback
  {
    if message != "" then message else fallback
  }

  /** A stored item that is present and non-empty, as `if (storedToken && ...)` tests it. */
  predicate Stored(storage: map<string, string>, key: string) {
    key in storage && storage[key] != ""
  }

  /** The store after both keys are removed. */
  function Cleared(storage: map<string, string>): (s: map<string, string>)
    ensures TokenKey !in s && EmailKey !in s
    ensures forall k :: k != TokenKey && k != EmailKey ==> (k in s <==> k in storage)
    ensures forall k :: k in s ==> s[k] == storage[k]
  {
    storage - {TokenKey, EmailKey}
  }

  /** Clearing twice is clearing once, so `logout` is idempotent. */
  lemma ClearedIdempotent(storage: map<string, string>)
    ensures Cleared(Cleared(storage)) == Cleared(storage)
  {
    var once := Cleared(storage);
    assert Cleared(once).Keys == once.Keys;
  }

  class AuthState {
    var user: Option<string>
    var token: Option<string>
    var isLoading: bool
    var isAuthenticated: bool
    var storage: map<string, string>

    /** Signed in exactly when a non-empty token and an email are held, and both are the stored ones. */
    predicate Valid()
      reads this
    {
      && (isAuthenticated <==> token.Some? && user.Some?)
      && (isAuthenticated ==> token.value != "" && Stored(storage, TokenKey) && Stored(storage, EmailKey) &&
                              token.value == storage[TokenKey] && user.value == storage[EmailKey])
      && (!isAuthenticated ==> token.None? && user.None?)
    }

    /** The provider's initial state over whatever the browser has stored. */
    constructor (stored: map<string, string>)
      ensures Valid()
      ensures user.None? && token.None? && isLoading && !isAuthenticated && storage == stored
    {
      user := None;
      token := None;
      isLoading := true;
      isAuthenticated := false;
      storage := stored;
    }

    /**
     * `checkAuth`: with both keys stored (and non-empty) the session is restored from them;
     * otherwise nothing changes. A storage read that throws logs out. Loading ends either way.
     */
    method CheckAuth(readFails: bool)
      requires Valid()
      modifies this
      ensures Valid()
      ensures !isLoading
      ensures readFails ==> !isAuthenticated && storage == Cleared(old(storage))
      ensures !readFails && Stored(storage, TokenKey) && Stored(storage, EmailKey) ==>
                isAuthenticated && token == Some(storage[TokenKey]) && user == Some(storage[EmailKey])
      ensures !readFails ==> storage == old(storage)
      ensures !readFails && !(Stored(storage, TokenKey) && Stored(storage, EmailKey)) ==>
                isAuthenticated == old(isAuthenticated) && token == old(token) && user == old(user)
    {
      if readFails {
        Logout();
      } else if Stored(storage, TokenKey) && Stored(storage, EmailKey) {
        token := Some(storage[TokenKey]);
        user := Some(storage[EmailKey]);
        isAuthenticated := true;
      }
      isLoading := false;
    }

    /** The part of `login` and `register` before their request. */
    method BeginRequest()
      modifies this
      ensures isLoading
      ensures user == old(user) && token == old(token) && isAuthenticated == old(isAuthenticated)
      ensures storage == old(storage)
    {
      isLoading := true;
    }

    /**
     * `login` after its request: a non-empty `access_token` is stored with the email and
     * signs the user in; a missing one or a failed call leaves the session as it was and
     * reports the error. Loading ends either way.
     */
    method FinishLogin(email: string, accessToken: ApiResult<Option<string>>) returns (r: Outcome<()>)
      requires Valid()
      modifies this
      ensures !isLoading
      ensures r.Ok? <==> accessToken.Success? && accessToken.value.Some? && accessToken.value.value != ""
      ensures r.Ok? ==> token == accessToken.value && user == Some(email) && isAuthenticated &&
                        storage == old(storage)[TokenKey := accessToken.value.value][EmailKey := email]
      ensures r.Err? ==> user == old(user) && token == old(token) && isAuthenticated == old(isAuthenticated) &&
                         storage == old(storage)
      ensures accessToken.Success? && r.Err? ==> r.error == NoTokenReceived
      ensures accessToken.Failure? ==> r == Err(MessageOr(accessToken.message, LoginFailed))
      ensures r.Err? || email != "" ==> Valid()
    {
      match accessToken {
        case Success(t) =>
          if t.Some? && t.value != "" {
            storage := storage[TokenKey := t.value][EmailKey := email];
            token := Some(t.value);
            user := Some(email);
            isAuthenticated := true;
            r := Ok(());
          } else {
            r := Err(MessageOr(NoTokenReceived, LoginFailed));
          }
        case Failure(message) =>
          r := Err(MessageOr(message, LoginFailed));
      }
      isLoading := false;
    }

    /** `register` after its request: the session is never touched; loading ends either way. */
    method FinishRegister<T>(response: ApiResult<T>) returns (r: Outcome<T>)
      modifies this
      ensures !isLoading
      ensures response.Success? ==> r == Ok(response.value)
      ensures response.Failure? ==> r == Err(MessageOr(response.message, RegisterFailed))
      ensures user == old(user) && token == old(token) && isAuthenticated == old(isAuthenticated)
      ensures storage == old(storage)
    {
      match response {
        case Success(data) => r := Ok(data);
        case Failure(message) => r := Err(MessageOr(message, RegisterFailed));
      }
      isLoading := false;
    }

    /** `logout`: both keys are removed and the session is dropped. */
    method Logout()
      modifies this
      ensures Valid()
      ensures storage == Cleared(old(storage))
      ensures token.None? && user.None? && !isAuthenticated
      ensures isLoading == old(isLoading)
    {
      storage := Cleared(storage);
      token := None;
      user := None;
      isAuthenticated := false;
    }

    /** `getToken`: the token held, when non-empty, else the stored one (`None` when absent). */
    function GetToken(): (t: Option<string>)
      reads this
      ensures token.Some? && token.value != "" ==> t == token
      ensures !(token.Some? && token.value != "") ==> t == if TokenKey in storage then Some(storage[TokenKey]) else None
    {
      if token.Some? && token.value != "" then token
      else if TokenKey in storage then Some(storage[TokenKey])
      else None
    }

    /** While signed in, the token held and the stored one agree. */
    lemma SignedInTokenIsStored()
      requires Valid() && isAuthenticated
      ensures GetToken() == Some(storage[TokenKey]) && GetToken().value != ""
    {
    }
  }
}
