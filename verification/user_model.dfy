/** The User document: an owner account.  Names, email and the external
    authentication id are required, email and that id are unique across the
    collection, and role, subscription and onboarding have defaults. */
module UserModel {
  import opened Common
  import opened PropertyModel

  datatype Role = UserRole | AdminRole
  datatype Subscription = Essential | Pro

  const RoleNames: seq<string> := ["user", "admin"]
  const SubscriptionNames: seq<string> := ["essential", "pro"]

  function ParseRole(s: string): (r: Option<Role>)
    ensures r.Some? <==> s in RoleNames
  {
    if s == "user" then Some(UserRole) else if s == "admin" then Some(AdminRole) else None
  }

  function ParseSubscription(s: string): (r: Option<Subscription>)
    ensures r.Some? <==> s in SubscriptionNames
  {
    if s == "essential" then Some(Essential) else if s == "pro" then Some(Pro) else None
  }

  datatype User = User(
    id: Id,
    firstName: string,
    lastName: string,
    email: string,
    phoneNumber: Option<string>,
    role: Role,
    firebaseId: string,
    address: Option<string>,
    subscriptionStatus: Subscription,
    hasOnboarded: bool,
    userPhone: Option<string>,
    userCountryCode: Option<CountryCodeValue>)

  /** The fields handed to a new User document; enums are raw strings. */
  datatype UserData = UserData(
    firstName: Option<string>,
    lastName: Option<string>,
    email: Option<string>,
    phoneNumber: Option<string>,
    role: Option<string>,
    firebaseId: Option<string>,
    address: Option<string>,
    subscriptionStatus: Option<string>,
    hasOnboarded: Option<bool>,
    userPhone: Option<string>,
    userCountryCode: Option<CountryCodeValue>)

  predicate SatisfiesUserSchema(d: UserData) {
    && d.firstName.Some? && d.firstName.value != ""
    && d.lastName.Some? && d.lastName.value != ""
    && d.email.Some? && d.email.value != ""
    && d.firebaseId.Some? && d.firebaseId.value != ""
    && (d.role.Some? ==> d.role.value in RoleNames)
    && (d.subscriptionStatus.Some? ==> d.subscriptionStatus.value in SubscriptionNames)
  }

  function UserSchemaIssues(d: UserData): (r: seq<Issue>)
    ensures |r| == 0 <==> SatisfiesUserSchema(d)
  {
    NonEmptyString(d.firstName, "firstName")
    + NonEmptyString(d.lastName, "lastName")
    + NonEmptyString(d.email, "email")
    + OptionalEnumMember(d.role, "role", RoleNames)
    + NonEmptyString(d.firebaseId, "firebaseID")
    + OptionalEnumMember(d.subscriptionStatus, "subscriptionStatus", SubscriptionNames)
  }

  /** Building a new User document: schema violations are reported; an
      absent role is "user", an absent subscription "essential" and an
      absent onboarding flag false. */
  function NewUser(id: Id, d: UserData): (r: Result<User>)
    ensures r.Success? <==> SatisfiesUserSchema(d)
    ensures r.Failure? ==> |r.issues| > 0
    ensures r.Success? ==>
      && r.value.id == id
      && Some(r.value.email) == d.email && Some(r.value.firebaseId) == d.firebaseId
      && Some(r.value.firstName) == d.firstName && Some(r.value.lastName) == d.lastName
      && (d.role.None? ==> r.value.role == UserRole)
      && (d.role.Some? ==> Some(r.value.role) == ParseRole(d.role.value))
      && (d.subscriptionStatus.None? ==> r.value.subscriptionStatus == Essential)
      && (d.subscriptionStatus.Some? ==> Some(r.value.subscriptionStatus) == ParseSubscription(d.subscriptionStatus.value))
      && (d.hasOnboarded.None? ==> !r.value.hasOnboarded)
      && (d.hasOnboarded.Some? ==> r.value.hasOnboarded == d.hasOnboarded.value)
  {
    var issues := UserSchemaIssues(d);
    if |issues| > 0 then Failure(issues)
    else
      var role := if d.role.Some? then ParseRole(d.role.value).value else UserRole;
      var sub := if d.subscriptionStatus.Some? then ParseSubscription(d.subscriptionStatus.value).value else Essential;
      Success(User(
        id, d.firstName.value, d.lastName.value, d.email.value, d.phoneNumber, role,
        d.firebaseId.value, d.address, sub, GetOr(d.hasOnboarded, false), d.userPhone,
        d.userCountryCode))
  }

  /** The unique indexes: no two stored users share an email or an
      authentication id. */
  predicate UniqueAccounts(users: map<Id, User>) {
    forall a, b :: a in users && b in users && a != b ==>
      users[a].email != users[b].email && users[a].firebaseId != users[b].firebaseId
  }

  /** Inserting a user under a fresh id: a duplicate email or authentication
      id is refused with the store unchanged; otherwise the user is added and
      nothing else changes. */
  function InsertUser(users: map<Id, User>, u: User): (r: Result<map<Id, User>>)
    requires u.id !in users
    ensures r.Failure? <==>
      exists k :: k in users && (users[k].email == u.email || users[k].firebaseId == u.firebaseId)
    ensures r.Success? ==> r.value == users[u.id := u]
  {
    if exists k :: k in users && (users[k].email == u.email || users[k].firebaseId == u.firebaseId) then
      Failure([Issue("email/firebaseID", Duplicate)])
    else
      Success(users[u.id := u])
  }

  /** The unique indexes hold after every accepted insert. */
  lemma InsertUserKeepsAccountsUnique(users: map<Id, User>, u: User)
    requires u.id !in users
    requires UniqueAccounts(users)
    ensures InsertUser(users, u).Success? ==> UniqueAccounts(InsertUser(users, u).value)
  {
  }
}
