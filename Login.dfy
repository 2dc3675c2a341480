// Login.LoginAsync and its two unimplemented siblings. The service holds two
// read-only collaborators, the JWT token service and the JWT settings; the
// token service is given here as a pair of function values, the clock as a
// `now` argument, and the thrown exceptions as LoginError values.

module Login {
  import opened DotNet
  import opened LoginModels

  /** ArgumentException, UnauthorizedAccessException and NotImplementedException. */
  datatype LoginError = InvalidInput(message: string) | Unauthorized(message: string) | NotImplemented

  const CredentialsRequired: string := "Username and password are required."
  const InvalidCredentials: string := "Invalid username or password."

  /** IJWTService.GenerateAccessToken and IJWTService.GenerateRefreshToken;
      their implementation is not part of this model. */
  datatype JwtService = JwtService(generateAccessToken: User -> string, generateRefreshToken: () -> string)

  /** One call made on the token service, in the order it was made. */
  datatype TokenCall = AccessTokenFor(user: User) | RefreshTokenGenerated

  /** What LoginAsync returns or throws, with the token-service calls it made. */
  datatype LoginOutcome = LoginOutcome(response: Result<LoginResponse, LoginError>, tokenCalls: seq<TokenCall>)

  const HardCodedPassword: string := "1234"

  /** The single user LoginAsync authenticates against, built in place of a
      user-store lookup. */
  function StoredUser(): (u: User)
    ensures u.userId == 1 && u.username == Some("prashant") && u.password == Some(HardCodedPassword)
    ensures u.role == Some("Admin") && u.email == Some("abc123@gmail.com")
  {
    DefaultUser().(userId := 1, username := Some("prashant"), password := Some(HardCodedPassword),
                   role := Some("Admin"), email := Some("abc123@gmail.com"))
  }

  /** The user summary put into a successful response: id, name and role of
      the stored user, every other property at its default. */
  function UserSummary(u: User): (s: User)
    ensures s.password.None? && s.email.None?
    ensures s.(userId := 0, username := None, role := None) == DefaultUser()
    ensures s.userId == u.userId && s.username == u.username && s.role == u.role
  {
    DefaultUser().(userId := u.userId, username := u.username, role := u.role)
  }

  /** The credential test LoginAsync applies: both fields present and not
      blank, and the password equal to the stored user's. */
  predicate Accepted(request: LoginRequest)
  {
    && !IsNullOrWhiteSpace(request.userName)
    && !IsNullOrWhiteSpace(request.password)
    && request.password == StoredUser().password
  }

  datatype LoginService = LoginService(jwtService: JwtService, jwtSettings: JwtSettings)
  {
    /** Login.LoginAsync at clock reading `now`. */
    function LoginAsync(request: LoginRequest, now: DateTime): (r: LoginOutcome)
      // blank input is rejected before anything else, and no token is made
      ensures (IsNullOrWhiteSpace(request.userName) || IsNullOrWhiteSpace(request.password))
              ==> r == LoginOutcome(Err(InvalidInput(CredentialsRequired)), [])
      // any other password than the stored one is refused, and no token is made
      ensures (!IsNullOrWhiteSpace(request.userName) && !IsNullOrWhiteSpace(request.password)
               && request.password != Some(HardCodedPassword))
              ==> r == LoginOutcome(Err(Unauthorized(InvalidCredentials)), [])
      // the user name is never compared: any non-blank name with the right password succeeds
      ensures r.response.Ok? <==> !IsNullOrWhiteSpace(request.userName) && request.password == Some(HardCodedPassword)
      ensures r.response.Err? ==> r.tokenCalls == [] && r.response.error != NotImplemented
      // on success: one access token for the stored user, then one refresh token
      ensures r.response.Ok? ==> r.tokenCalls == [AccessTokenFor(StoredUser()), RefreshTokenGenerated]
      ensures r.response.Ok? ==>
                var resp := r.response.value;
                && resp.accessToken == Some(jwtService.generateAccessToken(StoredUser()))
                && resp.refreshToken == Some(jwtService.generateRefreshToken())
                && resp.accessTokenExpiry == Some(now + jwtSettings.accessTokenExpirationMinutes * SecondsPerMinute)
                && resp.user == Some(UserSummary(StoredUser()))
                && resp.user.value.username == Some("prashant")
                && resp.user.value.password.None?
                // never set by LoginAsync
                && !resp.success && resp.message.None? && resp.refreshTokenExpiry.None?
    {
      NotBlankWhenVisible(HardCodedPassword, 0);
      if IsNullOrWhiteSpace(request.userName) || IsNullOrWhiteSpace(request.password) then
        LoginOutcome(Err(InvalidInput(CredentialsRequired)), [])
      else
        var user := StoredUser();
        if user.password != request.password then
          LoginOutcome(Err(Unauthorized(InvalidCredentials)), [])
        else
          var accessToken := jwtService.generateAccessToken(user);
          var refreshToken := jwtService.generateRefreshToken();
          // the refresh expiry is computed and then discarded: it is not returned
          var _ := AddDays(now, jwtSettings.refreshTokenExpirationDays);
          var response := DefaultLoginResponse().(
            accessToken := Some(accessToken),
            refreshToken := Some(refreshToken),
            accessTokenExpiry := Some(AddMinutes(now, jwtSettings.accessTokenExpirationMinutes)),
            user := Some(UserSummary(user)));
          LoginOutcome(Ok(response), [AccessTokenFor(user), RefreshTokenGenerated])
    }

    /** Login.RefreshTokenAsync: not implemented, whatever the request. */
    function RefreshTokenAsync(request: RefreshRequest): (r: Result<LoginResponse, LoginError>)
      ensures r.Err? && r.error.NotImplemented?
    {
      Err(NotImplemented)
    }

    /** Login.LogoutAsync: not implemented, whatever the request. */
    function LogoutAsync(request: RefreshRequest): (r: Result<(), LoginError>)
      ensures r.Err? && r.error.NotImplemented?
    {
      Err(NotImplemented)
    }
  }

  /** The outcome of a login depends on the user name only through whether it
      is blank: two requests with the same password and non-blank names get
      the same response and the same token calls. */
  lemma UserNameNeverCompared(service: LoginService, a: LoginRequest, b: LoginRequest, now: DateTime)
    requires !IsNullOrWhiteSpace(a.userName) && !IsNullOrWhiteSpace(b.userName)
    requires a.password == b.password
    ensures service.LoginAsync(a, now) == service.LoginAsync(b, now)
  {
  }

  /** LoginAsync accepts exactly the requests that pass the credential test,
      and a successful login always yields tokens and a user summary. */
  lemma LoginSucceedsIffAccepted(service: LoginService, request: LoginRequest, now: DateTime)
    ensures service.LoginAsync(request, now).response.Ok? <==> Accepted(request)
    ensures Accepted(request) ==>
              var resp := service.LoginAsync(request, now).response.value;
              resp.accessToken.Some? && resp.refreshToken.Some? && resp.accessTokenExpiry.Some? && resp.user.Some?
  {
  }

  /** With the default settings an access token expires 15 minutes (900
      seconds) after the login. */
  lemma DefaultAccessTokenLifetime(jwt: JwtService, request: LoginRequest, now: DateTime)
    requires Accepted(request)
    ensures LoginService(jwt, DefaultJwtSettings()).LoginAsync(request, now).response.value.accessTokenExpiry
            == Some(now + 900)
  {
  }
}
