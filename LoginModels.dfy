// The login data types: plain records whose properties carry C# default
// initialisers and no behaviour. A property typed `string?` (or a
// non-nullable `string` with no initialiser, which is null until set) is an
// Option; a DateTime is a whole number of seconds since DateTime.MinValue.

module LoginModels {
  import opened DotNet

  datatype User = User(
    userId: int,
    username: Option<string>,
    password: Option<string>,   // [JsonIgnore]
    firstName: Option<string>,
    lastName: Option<string>,
    isActive: bool,
    createdOn: DateTime,
    updatedOn: DateTime,
    role: Option<string>,
    email: Option<string>,
    contactNumber: Option<string>)

  /** `new User()`: every property at its C# default. */
  function DefaultUser(): (u: User)
    ensures u.userId == 0 && !u.isActive && u.createdOn == 0 && u.updatedOn == 0
    ensures u.username.None? && u.password.None? && u.firstName.None? && u.lastName.None?
    ensures u.role.None? && u.email.None? && u.contactNumber.None?
  {
    User(0, None, None, None, None, false, 0, 0, None, None, None)
  }

  datatype LoginResponse = LoginResponse(
    success: bool,
    message: Option<string>,
    accessToken: Option<string>,
    accessTokenExpiry: Option<DateTime>,
    refreshToken: Option<string>,
    refreshTokenExpiry: Option<DateTime>,
    user: Option<User>)

  /** `new LoginResponse()`: Success is false, every nullable property null. */
  function DefaultLoginResponse(): (r: LoginResponse)
    ensures !r.success
    ensures r.message.None? && r.accessToken.None? && r.accessTokenExpiry.None?
    ensures r.refreshToken.None? && r.refreshTokenExpiry.None? && r.user.None?
  {
    LoginResponse(false, None, None, None, None, None, None)
  }

  datatype LoginRequest = LoginRequest(
    userName: Option<string>,
    password: Option<string>,
    logInTime: Option<DateTime>)

  /** `new LoginRequest()`: nothing set. */
  function DefaultLoginRequest(): (r: LoginRequest)
    ensures r.userName.None? && r.password.None? && r.logInTime.None?
  {
    LoginRequest(None, None, None)
  }

  datatype JwtSettings = JwtSettings(
    secretKey: string,
    issuer: string,
    audience: string,
    accessTokenExpirationMinutes: Int32,
    refreshTokenExpirationDays: Int32)

  /** `new JwtSettings()`: empty key, issuer and audience; access tokens live
      15 minutes and refresh tokens 7 days. */
  function DefaultJwtSettings(): (s: JwtSettings)
    ensures s.secretKey == "" && s.issuer == "" && s.audience == ""
    ensures s.accessTokenExpirationMinutes == 15
    ensures s.refreshTokenExpirationDays == 7
  {
    JwtSettings("", "", "", 15, 7)
  }

  datatype RefreshRequest = RefreshRequest(refreshToken: Option<string>)

  /** `new RefreshRequest()`: the refresh token is the empty string, not null. */
  function DefaultRefreshRequest(): (r: RefreshRequest)
    ensures r.refreshToken == Some("")
  {
    RefreshRequest(Some(""))
  }

  /** A JSON value as the serialiser writes it. */
  datatype Json = JNull | JBool(b: bool) | JNumber(n: int) | JString(s: string) | JDate(t: DateTime)

  function JsonText(s: Option<string>): Json
  {
    match s
    case None => JNull
    case Some(v) => JString(v)
  }

  /** The properties a User is serialised to, in declaration order. Null
      properties are written as null; Password carries [JsonIgnore] and is
      never written. */
  function UserJson(u: User): (fields: seq<(string, Json)>)
    ensures |fields| == 10
    ensures forall i :: 0 <= i < |fields| ==> fields[i].0 != "Password"
  {
    [ ("UserId", JNumber(u.userId)),
      ("Username", JsonText(u.username)),
      ("FirstName", JsonText(u.firstName)),
      ("LastName", JsonText(u.lastName)),
      ("IsActive", JBool(u.isActive)),
      ("CreatedOn", JDate(u.createdOn)),
      ("UpdatedOn", JDate(u.updatedOn)),
      ("Role", JsonText(u.role)),
      ("Email", JsonText(u.email)),
      ("ContactNumber", JsonText(u.contactNumber)) ]
  }

  /** The serialised form of a user does not depend on the password: two users
      that differ only in Password serialise identically, so no password ever
      leaves the process through JSON. */
  lemma PasswordNotSerialized(u: User, p: Option<string>)
    ensures UserJson(u.(password := p)) == UserJson(u)
  {
  }

  /** Every other property of User is serialised, and serialisation keeps the
      value of each one. */
  lemma UserJsonKeepsOtherProperties(u: User, v: User)
    requires UserJson(u) == UserJson(v)
    ensures u.(password := None) == v.(password := None)
  {
  }
}
