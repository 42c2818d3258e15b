/** The registration and login serializers: the password-confirmation check, the defaults
    forced on a registered account, the login error branches (with authentication passed in
    as a function), the claims added to an issued token and the user block of the login
    response. Request and response bodies are JSON objects. */
module Serializers {

  import opened Wrappers
  import opened Models

  /** A JSON value. */
  datatype Value = Null | Bool(b: bool) | Num(n: int) | Str(s: string) | Obj(fields: map<string, Value>)

  function OptionalStr(o: Option<string>): Value
  {
    if o.Some? then Str(o.value) else Null
  }

  // ---------------------------------------------------------------- registration

  const PasswordMismatch: string := "Passwords don't match"

  /** `UserRegistrationSerializer.validate`: the two passwords must agree; the data passes
      through unchanged. */
  function ValidateRegistration(attrs: map<string, Value>): (r: Result<map<string, Value>, string>)
    requires "password" in attrs && "password_confirm" in attrs
    ensures r.Ok? <==> attrs["password"] == attrs["password_confirm"]
    ensures r.Ok? ==> r.value == attrs
    ensures r.Err? ==> r.error == PasswordMismatch
  {
    if attrs["password"] != attrs["password_confirm"] then Err(PasswordMismatch) else Ok(attrs)
  }

  /** The user type registration stores; it is none of the declared roles. */
  const RegisteredUserType: string := "user"

  const ForcedKeys: set<string> := {"user_type", "is_verified", "is_approved"}

  /** `UserRegistrationSerializer.create` up to the call of `create_user`: drop the
      confirmation and force the role and the two flags, whatever the input said. The result
      is the keyword arguments `create_user` receives. */
  method CreateUserFields(validatedData: map<string, Value>) returns (fields: map<string, Value>)
    requires "password_confirm" in validatedData
    ensures fields.Keys == validatedData.Keys - {"password_confirm"} + ForcedKeys
    ensures fields["user_type"] == Str(RegisteredUserType)
    ensures fields["is_verified"] == Bool(true) && fields["is_approved"] == Bool(true)
    ensures forall k :: k in validatedData && k != "password_confirm" && k !in ForcedKeys ==>
              fields[k] == validatedData[k]
  {
    fields := validatedData - {"password_confirm"};
    fields := fields["user_type" := Str(RegisteredUserType)];
    fields := fields["is_verified" := Bool(true)];
    fields := fields["is_approved" := Bool(true)];
  }

  /** Whatever the other fields, a registered account carries the "user" tag, so it may
      neither book nor manage services, and saving it changes nothing. */
  lemma RegisteredAccountHasNoServiceRights(a: Account)
    requires a.userType == RegisteredUserType && a.isVerified && a.isApproved
    ensures !CanBookServices(a) && !CanManageServices(a) && !RequiresApproval(a)
    ensures Normalize(a) == a
  {
    UndeclaredTypeHasNoRights(a);
  }

  // ---------------------------------------------------------------- login

  /** The login form; a missing field is absent, and an empty one counts as missing. */
  datatype LoginAttrs = LoginAttrs(email: Option<string>, password: Option<string>)

  /** The validated form, with the authenticated user added. */
  datatype LoginOk = LoginOk(attrs: LoginAttrs, user: Account)

  const MissingCredentials: string := "Must include username and password"
  const InvalidCredentials: string := "Invalid credentials"
  const AccountDisabled: string := "User account is disabled"

  predicate Given(o: Option<string>)
  {
    o.Some? && o.value != []
  }

  /** `UserLoginSerializer.validate`, with the authentication backend as a parameter. */
  function ValidateLogin(attrs: LoginAttrs, authenticate: (string, string) -> Option<Account>): (r: Result<LoginOk, string>)
    ensures !(Given(attrs.email) && Given(attrs.password)) ==> r == Err(MissingCredentials)
    ensures Given(attrs.email) && Given(attrs.password) ==>
              var found := authenticate(attrs.email.value, attrs.password.value);
              && (found.None? ==> r == Err(InvalidCredentials))
              && (found.Some? && !found.value.isActive ==> r == Err(AccountDisabled))
              && (found.Some? && found.value.isActive ==> r == Ok(LoginOk(attrs, found.value)))
    ensures r.Ok? ==> r.value.attrs == attrs && r.value.user.isActive
  {
    if Given(attrs.email) && Given(attrs.password) then
      match authenticate(attrs.email.value, attrs.password.value)
      case None => Err(InvalidCredentials)
      case Some(user) =>
        if !user.isActive then Err(AccountDisabled) else Ok(LoginOk(attrs, user))
    else Err(MissingCredentials)
  }

  /** A login succeeds exactly when both credentials are given and the backend returns an
      active user; the user is the one the backend returned. */
  lemma LoginSucceedsIff(attrs: LoginAttrs, authenticate: (string, string) -> Option<Account>)
    ensures ValidateLogin(attrs, authenticate).Ok? <==>
              Given(attrs.email) && Given(attrs.password) &&
              authenticate(attrs.email.value, attrs.password.value).Some? &&
              authenticate(attrs.email.value, attrs.password.value).value.isActive
  {
  }

  // ---------------------------------------------------------------- tokens

  const ClaimKeys: set<string> := {"user_type", "username", "email", "is_verified", "is_approved"}

  /** The custom claims a token carries about its user. */
  datatype Claims = Claims(userType: string, username: string, email: string, isVerified: bool, isApproved: bool)

  function ClaimsOf(user: Account): Claims
  {
    Claims(user.userType, user.username, user.email, user.isVerified, user.isApproved)
  }

  /** Reading the custom claims back from a token, when all five are present and well typed. */
  function ReadClaims(token: map<string, Value>): Option<Claims>
  {
    if ClaimKeys <= token.Keys &&
       token["user_type"].Str? && token["username"].Str? && token["email"].Str? &&
       token["is_verified"].Bool? && token["is_approved"].Bool?
    then Some(Claims(token["user_type"].s, token["username"].s, token["email"].s,
                     token["is_verified"].b, token["is_approved"].b))
    else None
  }

  /** `CustomTokenObtainPairSerializer.get_token`: the library's token (`base`) with the five
      custom claims added. Reading the claims back gives the user's fields; the library's
      other claims are kept. */
  method GetToken(base: map<string, Value>, user: Account) returns (token: map<string, Value>)
    ensures token.Keys == base.Keys + ClaimKeys
    ensures forall k :: k in base && k !in ClaimKeys ==> token[k] == base[k]
    ensures ReadClaims(token) == Some(ClaimsOf(user))
  {
    token := base;
    token := token["user_type" := Str(user.userType)];
    token := token["username" := Str(user.username)];
    token := token["email" := Str(user.email)];
    token := token["is_verified" := Bool(user.isVerified)];
    token := token["is_approved" := Bool(user.isApproved)];
  }

  /** The claims read from a token determine the user's role and flags: two users whose
      tokens read the same agree on them, so the claims alone decide the service rights. */
  lemma ClaimsDecideRights(t1: map<string, Value>, t2: map<string, Value>, u1: Account, u2: Account)
    requires ReadClaims(t1) == Some(ClaimsOf(u1)) && ReadClaims(t2) == Some(ClaimsOf(u2))
    requires ReadClaims(t1) == ReadClaims(t2)
    ensures u1.userType == u2.userType && u1.isApproved == u2.isApproved
    ensures u1.isActive == u2.isActive ==>
              (CanBookServices(u1) <==> CanBookServices(u2)) &&
              (CanManageServices(u1) <==> CanManageServices(u2))
  {
  }

  const UserPayloadKeys: set<string> :=
    {"id", "username", "email", "user_type", "first_name", "last_name", "is_verified", "is_approved", "phone_number"}

  /** The user block of the token response: the user's fields, with the id as a string and
      a missing phone number as null. */
  function UserPayload(user: Account): (p: map<string, Value>)
    ensures p.Keys == UserPayloadKeys
  {
    map[
      "id" := Str(user.id),
      "username" := Str(user.username),
      "email" := Str(user.email),
      "user_type" := Str(user.userType),
      "first_name" := Str(user.firstName),
      "last_name" := Str(user.lastName),
      "is_verified" := Bool(user.isVerified),
      "is_approved" := Bool(user.isApproved),
      "phone_number" := OptionalStr(user.phoneNumber)
    ]
  }

  /** The fields the response exposes. */
  datatype UserView = UserView(
    id: string, username: string, email: string, userType: string, firstName: string,
    lastName: string, isVerified: bool, isApproved: bool, phoneNumber: Option<string>)

  function ViewOf(user: Account): UserView
  {
    UserView(user.id, user.username, user.email, user.userType, user.firstName, user.lastName,
             user.isVerified, user.isApproved, user.phoneNumber)
  }

  /** Reading a user block back, when every field is present and well typed. */
  function ReadUserPayload(p: map<string, Value>): Option<UserView>
  {
    if UserPayloadKeys <= p.Keys &&
       p["id"].Str? && p["username"].Str? && p["email"].Str? && p["user_type"].Str? &&
       p["first_name"].Str? && p["last_name"].Str? && p["is_verified"].Bool? &&
       p["is_approved"].Bool? && (p["phone_number"].Null? || p["phone_number"].Str?)
    then Some(UserView(p["id"].s, p["username"].s, p["email"].s, p["user_type"].s,
                       p["first_name"].s, p["last_name"].s, p["is_verified"].b, p["is_approved"].b,
                       if p["phone_number"].Str? then Some(p["phone_number"].s) else None))
    else None
  }

  /** `CustomTokenObtainPairSerializer.validate`: the library's response (`base`, holding the
      token pair) with the user block added under "user". */
  method ValidateTokenRequest(base: map<string, Value>, user: Account) returns (data: map<string, Value>)
    ensures data.Keys == base.Keys + {"user"}
    ensures forall k :: k in base && k != "user" ==> data[k] == base[k]
    ensures data["user"].Obj? && ReadUserPayload(data["user"].fields) == Some(ViewOf(user))
  {
    data := base;
    data := data["user" := Obj(UserPayload(user))];
  }
}
