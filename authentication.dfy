/**
  `routes/authentication.rs`: registration, login, the session token and the
  `auth` filter that turns an `Authorization` header into a session.
  Hashing, token sealing and validation are library calls and come in as
  the function values of a `Crypto`; the clock comes in as `now`.
 */
module RoutesAuthentication {
  import opened Wrappers
  import opened RustStd
  import opened Warp
  import opened HandleErrors
  import opened TypesAccount
  import Store

  /** Seconds since the Unix epoch */
  type Time = int

  /** `chrono::Duration::days(1)` in seconds */
  const DAY: int := 86400

  /** What `issue_token` writes into a token */
  datatype Claims = Claims(expiration: Time, notBefore: Time, accountId: AccountId)

  /** The JSON value `validate_local_token` returns, kept as its text */
  datatype ClaimsJson = ClaimsJson(text: string)

  /** The library calls the routes make, and the value of `PASETO_KEY` */
  datatype Crypto = Crypto(
    hashEncoded: (string, seq<bv8>) -> string,                      // argon2::hash_encoded with the default config
    verifyEncoded: (string, string) -> Result<bool, string>,        // argon2::verify_encoded, its error by its Display text
    seal: (string, Claims) -> string,                               // PasetoBuilder with this key and these claims, built
    validateLocal: (string, string, Time) -> Result<ClaimsJson, string>, // paseto::tokens::validate_local_token at this time
    decodeSession: ClaimsJson -> Result<Session, string>,           // serde_json::from_value::<Session>
    pasetoKey: string)

  /** What argon2 is relied on for: a password verifies against the hash made of it with this salt. */
  predicate ArgonHonours(c: Crypto, password: string, salt: seq<bv8>)
  {
    c.verifyEncoded(c.hashEncoded(password, salt), password) == Ok(true)
  }

  /** `hash_password`: argon2 over the password with a fresh 32-byte salt */
  function HashPassword(c: Crypto, password: string, salt: seq<bv8>): string
    requires |salt| == 32
  {
    c.hashEncoded(password, salt)
  }

  /** `verify_password` */
  function VerifyPassword(c: Crypto, hash: string, password: string): Result<bool, string>
  {
    c.verifyEncoded(hash, password)
  }

  /** The claims of a token issued at `now`: valid from `now` for one day, for account `a` */
  function IssuedClaims(a: AccountId, now: Time): (claims: Claims)
    ensures claims.notBefore == now && claims.expiration == claims.notBefore + DAY
    ensures claims.accountId == a
  {
    Claims(now + DAY, now, a)
  }

  /** `issue_token`: a token that, if the library keeps its promise, verifies at once as the session of `a` */
  function IssueToken(c: Crypto, a: AccountId, now: Time): (token: string)
    ensures PasetoHonours(c, IssuedClaims(a, now), now) ==> VerifyToken(c, token, now) == Ok(Session(a))
  {
    c.seal(c.pasetoKey, IssuedClaims(a, now))
  }

  /** `verify_token`: a token that does not validate and claims that are not a session are both `TokenError`. */
  function VerifyToken(c: Crypto, token: string, now: Time): (r: Result<Session, Error>)
    ensures r.Err? ==> r.error == TokenError
    ensures r.Ok? <==>
      c.validateLocal(token, c.pasetoKey, now).Ok? &&
      c.decodeSession(c.validateLocal(token, c.pasetoKey, now).value).Ok?
    ensures r.Ok? ==> r.value == c.decodeSession(c.validateLocal(token, c.pasetoKey, now).value).value
  {
    match c.validateLocal(token, c.pasetoKey, now)
    case Err(_) => Err(TokenError)
    case Ok(json) =>
      match c.decodeSession(json)
      case Err(_) => Err(TokenError)
      case Ok(session) => Ok(session)
  }

  /** The rejection `warp::header::<String>("Authorization")` raises when the header is absent */
  const MISSING_AUTHORIZATION: string := "Missing request header \"Authorization\""

  /**
    `auth`: the session of the token in the `Authorization` header. A
    missing header is warp's own header rejection; a token that does not
    verify is the plain `warp::reject::reject()`, not `TokenError`.
   */
  function Auth(c: Crypto, header: Option<string>, now: Time): (r: Result<Session, Rejection<Error>>)
    ensures r.Ok? <==> header.Some? && VerifyToken(c, header.value, now).Ok?
    ensures r.Ok? ==> r.value == VerifyToken(c, header.value, now).value
    ensures header.None? ==> r == Err(Rejection([OtherKnown(MISSING_AUTHORIZATION)]))
    ensures header.Some? && r.Err? ==> r.error == Reject()
  {
    match header
    case None => Err(Rejection([OtherKnown(MISSING_AUTHORIZATION)]))
    case Some(token) =>
      match VerifyToken(c, token, now)
      case Ok(session) => Ok(session)
      case Err(_) => Err(Reject())
  }

  /**
    Whatever stops `auth` reaches the client as 404 "Route not found": the
    recovery step matches neither rejection, so no 401 and no "Token Error".
   */
  lemma AuthFailureIsRouteNotFound(c: Crypto, header: Option<string>, now: Time)
    requires Auth(c, header, now).Err?
    ensures NoPanic(Auth(c, header, now).error)
    ensures ReturnError(Auth(c, header, now).error) == Ok(Response(NOT_FOUND, "Route not found"))
  {
    UnmatchedIsRouteNotFound(Auth(c, header, now).error);
  }

  /**
    What the token library is relied on for, for one token and one moment:
    a token sealed with the key validates exactly inside its window, and its
    claims read back as the session of its account.
   */
  predicate PasetoHonours(c: Crypto, claims: Claims, now: Time)
  {
    var v := c.validateLocal(c.seal(c.pasetoKey, claims), c.pasetoKey, now);
    (v.Ok? <==> claims.notBefore <= now <= claims.expiration) &&
    (v.Ok? ==> c.decodeSession(v.value) == Ok(Session(claims.accountId)))
  }

  /**
    A token issued at `issued` verifies at `now` exactly when `now` lies in
    the day that starts at `issued`, and then yields the session of the
    account it was issued to; otherwise it is `TokenError`.
   */
  lemma TokenWindow(c: Crypto, a: AccountId, issued: Time, now: Time)
    requires PasetoHonours(c, IssuedClaims(a, issued), now)
    ensures VerifyToken(c, IssueToken(c, a, issued), now) ==
      if issued <= now <= issued + DAY then Ok(Session(a)) else Err(TokenError)
    ensures Auth(c, Some(IssueToken(c, a, issued)), now) ==
      if issued <= now <= issued + DAY then Ok(Session(a)) else Err(Reject())
  {
  }

  /**
    `register`: the store is handed the hash of the password, with the id
    and email as given; "Account added" on success, the store's error
    otherwise.
   */
  method Register(store: Store.Store, c: Crypto, account: Account, salt: seq<bv8>, fault: Option<SqlxError>)
    returns (r: Result<Reply<string>, Rejection<Error>>)
    requires store.Valid() && |salt| == 32
    modifies store
    ensures store.Valid()
    ensures r.Ok? ==> r.value == WithStatus(OK, "Account added")
    ensures fault.Some? ==> r == Err(RejectCustom(DatabaseQueryError(fault.value)))
    ensures fault.None? && old(store.nextAccountId) == TWO_TO_THE_31 ==>
      r == Err(RejectCustom(DatabaseQueryError(Database(Some(Store.SEQUENCE_EXHAUSTED)))))
    ensures fault.None? && old(store.nextAccountId) < TWO_TO_THE_31 && account.email in old(store.accounts) ==>
      r == Err(RejectCustom(DatabaseQueryError(Database(Some(Store.UNIQUE_VIOLATION)))))
    ensures fault.None? && account.email !in old(store.accounts) && old(store.nextAccountId) < TWO_TO_THE_31 ==> r.Ok?
    ensures r.Err? ==> unchanged(store)
    ensures r.Ok? ==>
      account.email !in old(store.accounts) && old(store.nextAccountId) < TWO_TO_THE_31 &&
      store.accounts == old(store.accounts)[account.email :=
        Store.AccountRow(AccountId(old(store.nextAccountId)), HashPassword(c, account.password, salt))] &&
      store.nextAccountId == old(store.nextAccountId) + 1 &&
      store.questions == old(store.questions) && store.order == old(store.order) &&
      store.nextQuestionId == old(store.nextQuestionId)
  {
    var hashed := HashPassword(c, account.password, salt);
    var toStore := Account(account.id, account.email, hashed);
    var added := store.AddAccount(toStore, fault);
    match added {
      case Ok(_) =>
        r := Ok(WithStatus(OK, "Account added"));
      case Err(e) =>
        r := Err(RejectCustom(e));
    }
  }

  /**
    `login`: look the account up by email, check the password against the
    stored hash, and answer a token for the stored account's id.
   */
  function Login(store: Store.Store, c: Crypto, login: Account, now: Time, fault: Option<SqlxError>): (r: Result<Reply<string>, Rejection<Error>>)
    reads store
    ensures store.GetAccount(login.email, fault).Err? ==> r == Err(RejectCustom(store.GetAccount(login.email, fault).error))
    ensures store.GetAccount(login.email, fault).Ok? ==>
      var account := store.GetAccount(login.email, fault).value;
      match VerifyPassword(c, account.password, login.password)
      case Ok(true) => r == Ok(Json(IssueToken(c, account.id.value, now)))
      case Ok(false) => r == Err(RejectCustom(WrongPassword))
      case Err(d) => r == Err(RejectCustom(ArgonLibraryError(d)))
  {
    match store.GetAccount(login.email, fault)
    case Err(e) => Err(RejectCustom(e))
    case Ok(account) =>
      match VerifyPassword(c, account.password, login.password)
      case Ok(verified) =>
        if verified then Ok(Json(IssueToken(c, account.id.value, now)))
        else Err(RejectCustom(WrongPassword))
      case Err(d) => Err(RejectCustom(ArgonLibraryError(d)))
  }

  /**
    An account stored as `register` stores it logs in with the password it
    was registered with: the reply is the token issued for its id.
   */
  lemma RegisteredAccountLogsIn(store: Store.Store, c: Crypto, account: Account, salt: seq<bv8>, now: Time)
    requires |salt| == 32 && ArgonHonours(c, account.password, salt)
    requires account.email in store.accounts
    requires store.accounts[account.email].password == HashPassword(c, account.password, salt)
    ensures Login(store, c, account, now, None) == Ok(Json(IssueToken(c, store.accounts[account.email].id, now)))
  {
  }

  /**
    How a login ends as the client sees it: an unknown email is a database
    error (500 "Database Query Error", not 401), a wrong password is 401,
    a failing verifier is 500, and only a matching password yields a token,
    for the id stored with that email.
   */
  lemma LoginOutcomes(store: Store.Store, c: Crypto, login: Account, now: Time)
    ensures login.email !in store.accounts ==>
      ReturnError(Login(store, c, login, now, None).error) == Ok(Response(INTERNAL_SERVER_ERROR, "Database Query Error"))
    ensures login.email in store.accounts ==>
      var hash := store.accounts[login.email].password;
      (Login(store, c, login, now, None).Ok? <==> VerifyPassword(c, hash, login.password) == Ok(true)) &&
      (Login(store, c, login, now, None).Ok? ==>
        Login(store, c, login, now, None).value == Json(IssueToken(c, store.accounts[login.email].id, now))) &&
      (VerifyPassword(c, hash, login.password) == Ok(false) ==>
        ReturnError(Login(store, c, login, now, None).error) == Ok(Response(UNAUTHORIZED, "Wrong E-Mail/Password combination"))) &&
      (VerifyPassword(c, hash, login.password).Err? ==>
        ReturnError(Login(store, c, login, now, None).error) == Ok(Response(INTERNAL_SERVER_ERROR, "Internal server error")))
  {
    if login.email !in store.accounts {
      StatusClassifiesError(DatabaseQueryError(RowNotFound));
    } else {
      var hash := store.accounts[login.email].password;
      match VerifyPassword(c, hash, login.password)
      case Ok(b) =>
        StatusClassifiesError(WrongPassword);
      case Err(d) =>
        ServerFaultsDoNotLeak(ArgonLibraryError(d));
    }
  }
}
