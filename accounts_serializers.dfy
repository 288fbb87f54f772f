// Registration and login decisions of the account serializers. Password
// hashing, Django's password-strength validators and `authenticate` itself
// are outside the model; `authenticate` is a parameter.

module AccountSerializers {
  import opened Seqs
  import opened Accounts

  /** The validated fields of a registration request; `role` is absent when not sent. */
  datatype Registration = Registration(
    username: string, email: string, password: string, passwordConfirm: string,
    firstName: string, lastName: string, phoneNumber: string, role: Option<Role>)

  /** What reaches `create_user`: the registration without `password_confirm`. */
  datatype NewUserFields = NewUserFields(
    username: string, email: string, password: string,
    firstName: string, lastName: string, phoneNumber: string, role: Option<Role>)

  datatype Checked<T> = Valid(value: T) | Invalid(message: string)

  /** `UserRegistrationSerializer.validate`. */
  function ValidateRegistration(attrs: Registration): (r: Checked<Registration>)
    ensures r.Valid? <==> attrs.password == attrs.passwordConfirm
    ensures r.Valid? ==> r.value == attrs
    ensures r.Invalid? ==> r.message == "Passwords don't match"
  {
    if attrs.password != attrs.passwordConfirm then Invalid("Passwords don't match") else Valid(attrs)
  }

  /** `validated_data.pop('password_confirm')`: every other field is passed on as it is. */
  function PopPasswordConfirm(data: Registration): (f: NewUserFields)
    ensures f.username == data.username && f.email == data.email && f.password == data.password
    ensures f.firstName == data.firstName && f.lastName == data.lastName
    ensures f.phoneNumber == data.phoneNumber && f.role == data.role
  {
    NewUserFields(data.username, data.email, data.password, data.firstName, data.lastName, data.phoneNumber, data.role)
  }

  datatype ProfileKind = CustomerProfile | ModeratorProfile | WarehouseManagerProfile

  /** The profile row created for a new user of the given role: admins get none. */
  function ProfileFor(role: Role): (p: Option<ProfileKind>)
    ensures p.None? <==> role == Admin
    ensures p == Some(CustomerProfile) <==> role == Customer
    ensures p == Some(ModeratorProfile) <==> role == Moderator
    ensures p == Some(WarehouseManagerProfile) <==> role == WarehouseManager
  {
    match role
    case Customer => Some(CustomerProfile)
    case Moderator => Some(ModeratorProfile)
    case WarehouseManager => Some(WarehouseManagerProfile)
    case Admin => None
  }

  /** The rows `UserRegistrationSerializer.create` writes: the user, and at most one profile. */
  datatype Created = Created(fields: NewUserFields, role: Role, profile: Option<ProfileKind>)

  function CreateUser(data: Registration): (c: Created)
    ensures c.fields == PopPasswordConfirm(data)
    ensures data.role.None? ==> c.role == Customer
    ensures data.role.Some? ==> c.role == data.role.value
    ensures c.profile.Some? <==> c.role != Admin
    ensures c.role == Customer ==> c.profile == Some(CustomerProfile)
    ensures c.role == Moderator ==> c.profile == Some(ModeratorProfile)
    ensures c.role == WarehouseManager ==> c.profile == Some(WarehouseManagerProfile)
  {
    var fields := PopPasswordConfirm(data);
    var role := data.role.GetOr(DefaultRole());
    Created(fields, role, ProfileFor(role))
  }

  /** The login request as `attrs.get(...)` sees it: a missing key is `None`. */
  datatype LoginAttrs = LoginAttrs(username: Option<string>, password: Option<string>)

  datatype LoginResult = LoggedIn(attrs: LoginAttrs, user: User) | LoginRejected(message: string)

  /** Python truthiness of an optional string: present and non-empty. */
  predicate Given(s: Option<string>) { s.Some? && s.value != [] }

  /** `UserLoginSerializer.validate`; `authenticate` returns the matching user or none. */
  function ValidateLogin(attrs: LoginAttrs, authenticate: (string, string) -> Option<User>): (r: LoginResult)
    ensures !(Given(attrs.username) && Given(attrs.password)) ==>
      r == LoginRejected("Must include username and password")
    ensures Given(attrs.username) && Given(attrs.password) ==>
      var found := authenticate(attrs.username.value, attrs.password.value);
      (found.None? ==> r == LoginRejected("Invalid credentials")) &&
      (found.Some? && !found.value.isActive ==> r == LoginRejected("User account is disabled")) &&
      (found.Some? && found.value.isActive ==> r == LoggedIn(attrs, found.value))
    ensures r.LoggedIn? ==> r.user.isActive && r.attrs == attrs
  {
    if Given(attrs.username) && Given(attrs.password) then
      var found := authenticate(attrs.username.value, attrs.password.value);
      if found.None? then LoginRejected("Invalid credentials")
      else if !found.value.isActive then LoginRejected("User account is disabled")
      else LoggedIn(attrs, found.value)
    else
      LoginRejected("Must include username and password")
  }
}
