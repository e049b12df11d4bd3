/** `AuthService`: registration, login, token refresh and logout over the user table.
    Password hashing, password checks and JWT signing and verification are parameters. */
module Auth {
  import opened Common
  import opened Strings
  import opened Tables
  import opened Users

  datatype TokenKind = AccessToken | RefreshToken

  /** The JWT payload: `{ email, sub: id, role }`. */
  datatype TokenPayload = TokenPayload(email: string, sub: string, role: Role)

  /** The user part of a token response. */
  datatype SessionUser = SessionUser(
    id: string, email: string, fullName: Option<string>, role: Role,
    subscriptionTier: string, creditsRemaining: int)

  datatype AuthResponse = AuthResponse(
    accessToken: string, refreshToken: string, expiresIn: Option<string>, user: SessionUser)

  datatype RegisterRequest = RegisterRequest(email: string, fullName: string, password: string)

  /** What `validateUser` returns: the whole row but the password (the refresh token stays). */
  datatype CheckedUser = CheckedUser(
    id: string, email: string, fullName: Option<string>, avatarUrl: Option<string>,
    role: Role, subscriptionTier: string, creditsRemaining: int, isActive: bool,
    refreshToken: Option<string>)

  const InvalidCredentials := "Identifiants invalides"
  const AccountDisabled := "Compte désactivé"
  const InvalidToken := "Token invalide ou expiré"

  function Payload(u: User): TokenPayload {
    TokenPayload(u.email, u.id, u.role)
  }

  /** The response `generateTokens` returns; `sign` signs a payload with the secret and the
      lifetime of the token kind. */
  function Issued(u: User, sign: (TokenPayload, TokenKind) -> string, expiresIn: Option<string>): (r: AuthResponse)
    ensures r.accessToken == sign(Payload(u), AccessToken) && r.refreshToken == sign(Payload(u), RefreshToken)
    ensures r.user == SessionUser(u.id, u.email, u.fullName, u.role, u.subscriptionTier, u.creditsRemaining)
  {
    AuthResponse(sign(Payload(u), AccessToken), sign(Payload(u), RefreshToken), expiresIn,
                 SessionUser(u.id, u.email, u.fullName, u.role, u.subscriptionTier, u.creditsRemaining))
  }

  /** The token response does not depend on the password or on the previous refresh token. */
  lemma IssuedHidesSecrets(u: User, password: string, old_: Option<string>,
                           sign: (TokenPayload, TokenKind) -> string, expiresIn: Option<string>)
    ensures Issued(u.(password := password, refreshToken := old_), sign, expiresIn) == Issued(u, sign, expiresIn)
  {
  }

  /** The user a refresh token may be exchanged for: the token verifies, its subject exists,
      is active and holds exactly this token. `verify` gives the payload of a valid token. */
  function RefreshCheck(rows: seq<User>, token: string, verify: string -> Option<TokenPayload>): (r: Option<User>)
    ensures r.Some? <==>
      && verify(token).Some?
      && FirstWith(rows, IdOf, verify(token).value.sub).Some?
      && var u := rows[FirstWith(rows, IdOf, verify(token).value.sub).value];
         u.isActive && u.refreshToken == Some(token)
    ensures r.Some? ==> r.value in rows && r.value.id == verify(token).value.sub
  {
    match verify(token)
    case None => None
    case Some(payload) =>
      match FirstWith(rows, IdOf, payload.sub)
      case None => None
      case Some(i) =>
        if rows[i].isActive && rows[i].refreshToken == Some(token) then Some(rows[i]) else None
  }

  /** Once the stored token of a user is cleared, no token is ever exchanged for that user. */
  lemma LogoutRevokes(rows: seq<User>, id: string, token: string, verify: string -> Option<TokenPayload>)
    requires verify(token).Some? && verify(token).value.sub == id
    ensures RefreshCheck(WithRefreshToken(rows, id, None), token, verify).None?
  {
    var after := WithRefreshToken(rows, id, None);
    var k := FirstWith(after, IdOf, id);
    if k.Some? {
      assert after[k.value].refreshToken.None?;
    }
  }

  /** Issuing a new refresh token retires every other one of that user. */
  lemma RotationRevokesOldTokens(rows: seq<User>, id: string, newToken: string, token: string,
                                 verify: string -> Option<TokenPayload>)
    requires verify(token).Some? && verify(token).value.sub == id && token != newToken
    ensures RefreshCheck(WithRefreshToken(rows, id, Some(newToken)), token, verify).None?
  {
    var after := WithRefreshToken(rows, id, Some(newToken));
    var k := FirstWith(after, IdOf, id);
    if k.Some? {
      assert after[k.value].refreshToken == Some(newToken);
    }
  }

  function WithoutPassword(u: User): CheckedUser {
    CheckedUser(u.id, u.email, u.fullName, u.avatarUrl, u.role, u.subscriptionTier, u.creditsRemaining,
                u.isActive, u.refreshToken)
  }

  class AuthService {
    const users: UsersService
    /** The configured access-token lifetime. */
    const expiresIn: Option<string>

    constructor(users: UsersService, expiresIn: Option<string>)
      ensures this.users == users && this.expiresIn == expiresIn
    {
      this.users := users;
      this.expiresIn := expiresIn;
    }

    /** `generateTokens`: signs both tokens and stores the refresh token on the user. */
    method GenerateTokens(user: User, sign: (TokenPayload, TokenKind) -> string) returns (r: AuthResponse)
      requires users.Valid()
      modifies users
      ensures users.Valid() && users.nextId == old(users.nextId)
      ensures r == Issued(user, sign, expiresIn)
      ensures users.rows == WithRefreshToken(old(users.rows), user.id, Some(r.refreshToken))
    {
      r := Issued(user, sign, expiresIn);
      users.UpdateRefreshToken(user.id, Some(r.refreshToken));
    }

    /** `register`: Conflict for a known email, else a new user with the hashed password,
        signed in at once. */
    method Register(request: RegisterRequest, hash: string -> string, sign: (TokenPayload, TokenKind) -> string)
      returns (r: Result<AuthResponse, HttpError>)
      requires users.Valid()
      modifies users
      ensures users.Valid()
      ensures old(users.FindByEmail(request.email)).Some? ==>
        && r == Err(HttpError(Conflict, EmailTakenMessage))
        && users.rows == old(users.rows) && users.nextId == old(users.nextId)
      ensures old(users.FindByEmail(request.email)).None? ==>
        var u := NewRow(NewUser(request.email, request.fullName, hash(request.password), None),
                        NatToString(old(users.nextId)));
        && r == Ok(Issued(u, sign, expiresIn))
        && users.rows == WithRefreshToken(old(users.rows) + [u], u.id, Some(r.value.refreshToken))
    {
      if users.FindByEmail(request.email).Some? {
        return Err(HttpError(Conflict, EmailTakenMessage));
      }
      var created := users.Create(NewUser(request.email, request.fullName, hash(request.password), None));
      var tokens := GenerateTokens(created.value, sign);
      r := Ok(tokens);
    }

    /** `login`: unknown email, then wrong password, then inactive account, each Unauthorized;
        otherwise tokens are issued. `verify(hash, password)` is the password check. */
    method Login(email: string, password: string, verify: (string, string) -> bool,
                 sign: (TokenPayload, TokenKind) -> string)
      returns (r: Result<AuthResponse, HttpError>)
      requires users.Valid()
      modifies users
      ensures users.Valid() && users.nextId == old(users.nextId)
      ensures var found := old(users.FindByEmail(email));
        && (found.None? ==> r == Err(HttpError(Unauthorized, InvalidCredentials)))
        && (found.Some? && !verify(found.value.password, password) ==>
              r == Err(HttpError(Unauthorized, InvalidCredentials)))
        && (found.Some? && verify(found.value.password, password) && !found.value.isActive ==>
              r == Err(HttpError(Unauthorized, AccountDisabled)))
        && (r.Err? ==> users.rows == old(users.rows))
        && (r.Ok? <==> found.Some? && verify(found.value.password, password) && found.value.isActive)
        && (r.Ok? ==>
              && r.value == Issued(found.value, sign, expiresIn)
              && users.rows == WithRefreshToken(old(users.rows), found.value.id, Some(r.value.refreshToken)))
    {
      var found := users.FindByEmail(email);
      if found.None? {
        return Err(HttpError(Unauthorized, InvalidCredentials));
      }
      var user := found.value;
      if !verify(user.password, password) {
        return Err(HttpError(Unauthorized, InvalidCredentials));
      }
      if !user.isActive {
        return Err(HttpError(Unauthorized, AccountDisabled));
      }
      var tokens := GenerateTokens(user, sign);
      r := Ok(tokens);
    }

    /** `refreshToken`: every failure, whichever check raised it, becomes the same
        Unauthorized error. */
    method Refresh(token: string, verify: string -> Option<TokenPayload>, sign: (TokenPayload, TokenKind) -> string)
      returns (r: Result<AuthResponse, HttpError>)
      requires users.Valid()
      modifies users
      ensures users.Valid() && users.nextId == old(users.nextId)
      ensures var granted := RefreshCheck(old(users.rows), token, verify);
        && (granted.None? ==> r == Err(HttpError(Unauthorized, InvalidToken)) && users.rows == old(users.rows))
        && (granted.Some? ==>
              && r == Ok(Issued(granted.value, sign, expiresIn))
              && users.rows == WithRefreshToken(old(users.rows), granted.value.id, Some(r.value.refreshToken)))
    {
      var payload := verify(token);
      if payload.None? {
        return Err(HttpError(Unauthorized, InvalidToken));
      }
      var found := users.FindOne(payload.value.sub);
      if found.Err? {
        return Err(HttpError(Unauthorized, InvalidToken));
      }
      var user := found.value;
      if !user.isActive || user.refreshToken != Some(token) {
        return Err(HttpError(Unauthorized, InvalidToken));
      }
      var tokens := GenerateTokens(user, sign);
      r := Ok(tokens);
    }

    /** `logout`: clears the stored refresh token. */
    method Logout(userId: string)
      requires users.Valid()
      modifies users
      ensures users.Valid() && users.nextId == old(users.nextId)
      ensures users.rows == WithRefreshToken(old(users.rows), userId, None)
    {
      users.UpdateRefreshToken(userId, None);
    }

    /** `validateUser`: the user without the password when the credentials verify, else none. */
    function ValidateUser(email: string, password: string, verify: (string, string) -> bool): (r: Option<CheckedUser>)
      reads users
      ensures r.Some? <==> users.FindByEmail(email).Some? && verify(users.FindByEmail(email).value.password, password)
      ensures r.Some? ==> r.value == WithoutPassword(users.FindByEmail(email).value)
    {
      match users.FindByEmail(email)
      case None => None
      case Some(u) => if verify(u.password, password) then Some(WithoutPassword(u)) else None
    }
  }
}
