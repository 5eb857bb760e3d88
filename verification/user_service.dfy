/** The user service: registration, profile updates and role changes.

    The password encoder is a parameter: the model needs only that the
    stored password is the encoder's image of the raw one. A role row is
    identified with its enum value, so the roles found for a `UserRole` are
    exactly that one role.
 */
module UserService {
  import opened Wrappers
  import opened Users
  import opened Store
  import Text
  import Table

  /** The fields of a registration request the service reads; the repeated
      password is checked by the web layer only. */
  datatype RegistrationRequest = RegistrationRequest(
    email: string,
    password: string,
    firstName: string,
    lastName: string)

  /** The input of `updateUserInfo`. */
  datatype UserInfoRequest = UserInfoRequest(firstName: string, lastName: string)

  /** The answer of `updateRoleForUser`: the profile and the new roles. */
  datatype UserRoleResponse = UserRoleResponse(
    id: int,
    email: string,
    roles: set<UserRole>,
    firstName: string,
    lastName: string)

  /** The message of the user service for a missing user. */
  function UserNotFoundMessage(id: int): string {
    "Can`t find user by id: " + Text.LongToString(id)
  }

  /** The message of `register` for a taken e-mail address. */
  function EmailTakenMessage(email: string): string {
    "This email is already registered: " + email
  }

  /** `userRepository.existsByEmail`. */
  predicate ExistsByEmail(db: Db, email: string) {
    exists k | k in db.users.rows :: db.users.rows[k].email == email
  }

  /** `toDto`: the profile without password and roles. */
  function ToResponse(u: User): (r: UserResponse)
    ensures r.id == u.id && r.email == u.email
    ensures r.firstName == u.firstName && r.lastName == u.lastName
  {
    UserResponse(u.id, u.email, u.firstName, u.lastName)
  }

  /** `register`: refuses a taken e-mail address; otherwise stores a new
      customer with the encoded password and no chat linked. */
  function Register(db: Db, req: RegistrationRequest, encode: string -> string): (r: Result<(Db, UserResponse)>)
    ensures r.Err? <==> ExistsByEmail(db, req.email)
    ensures r.Err? ==> r.error == Registration(EmailTakenMessage(req.email))
    ensures r.Ok? ==>
      var (after, response) := r.value;
      && response.id in after.users.rows
      && var user := after.users.rows[response.id];
      && user.email == req.email && user.firstName == req.firstName && user.lastName == req.lastName
      && user.password == encode(req.password)
      && user.roles == {CUSTOMER}
      && user.telegramId == None
      && response == ToResponse(user)
      && after.users.rows.Keys == db.users.rows.Keys + {response.id}
      && (forall k :: k in db.users.rows && k != response.id ==> after.users.rows[k] == db.users.rows[k])
      && after.cars == db.cars && after.rentals == db.rentals && after.payments == db.payments
    ensures r.Ok? && Valid(db) ==> Valid(r.value.0) && r.value.1.id !in db.users.rows
  {
    if ExistsByEmail(db, req.email) then Err(Registration(EmailTakenMessage(req.email)))
    else
      var user := User(db.users.nextId, req.email, encode(req.password), req.firstName, req.lastName,
                       None, {CUSTOMER});
      Ok((db.(users := Table.Insert(db.users, user)), ToResponse(user)))
  }

  /** `updateUserInfo`: replaces the first and last name, nothing else. */
  function UpdateUserInfo(db: Db, req: UserInfoRequest, userId: int): (r: Result<(Db, UserResponse)>)
    ensures r.Ok? <==> userId in db.users.rows
    ensures r.Err? ==> r.error == NotFound(UserNotFoundMessage(userId))
    ensures r.Ok? ==>
      var (after, response) := r.value;
      var before := db.users.rows[userId];
      && after.users.rows.Keys == db.users.rows.Keys
      && after.users.rows[userId].firstName == req.firstName
      && after.users.rows[userId].lastName == req.lastName
      && after.users.rows[userId].(firstName := before.firstName, lastName := before.lastName) == before
      && response == ToResponse(after.users.rows[userId])
      && (forall k :: k in db.users.rows && k != userId ==> after.users.rows[k] == db.users.rows[k])
      && after.cars == db.cars && after.rentals == db.rentals && after.payments == db.payments
    ensures r.Ok? && Valid(db) ==> Valid(r.value.0)
  {
    var user :- OrError(FindUser(db, userId), NotFound(UserNotFoundMessage(userId)));
    var updated := user.(firstName := req.firstName, lastName := req.lastName);
    Ok((db.(users := Table.Update(db.users, userId, updated)), ToResponse(updated)))
  }

  /** `updateRoleForUser`: replaces the whole role set with the requested
      role. */
  function UpdateRoleForUser(db: Db, role: UserRole, userId: int): (r: Result<(Db, UserRoleResponse)>)
    ensures r.Ok? <==> userId in db.users.rows
    ensures r.Err? ==> r.error == NotFound(UserNotFoundMessage(userId))
    ensures r.Ok? ==>
      var (after, response) := r.value;
      var before := db.users.rows[userId];
      && after.users.rows.Keys == db.users.rows.Keys
      && after.users.rows[userId].roles == {role}
      && after.users.rows[userId].(roles := before.roles) == before
      && response.roles == {role} && response.id == before.id && response.email == before.email
      && (forall k :: k in db.users.rows && k != userId ==> after.users.rows[k] == db.users.rows[k])
      && after.cars == db.cars && after.rentals == db.rentals && after.payments == db.payments
    ensures r.Ok? && Valid(db) ==> Valid(r.value.0)
  {
    var user :- OrError(FindUser(db, userId), NotFound(UserNotFoundMessage(userId)));
    var updated := user.(roles := {role});
    Ok((db.(users := Table.Update(db.users, userId, updated)),
        UserRoleResponse(updated.id, updated.email, updated.roles, updated.firstName, updated.lastName)))
  }

  /** `getUserInfo`: the profile of the authenticated user. */
  function GetUserInfo(user: User): (r: UserResponse)
    ensures r.id == user.id && r.email == user.email
    ensures r.firstName == user.firstName && r.lastName == user.lastName
  {
    ToResponse(user)
  }

  /** The profile reveals the user's identity and names only: it is the
      same whatever the password, roles and linked chat, and two users
      with the same profile agree on id, e-mail and names. */
  lemma ProfileHidesCredentials(user: User, other: User)
    ensures GetUserInfo(user.(password := other.password, roles := other.roles, telegramId := other.telegramId))
         == GetUserInfo(user)
    ensures GetUserInfo(user) == GetUserInfo(other) <==>
      user.id == other.id && user.email == other.email
      && user.firstName == other.firstName && user.lastName == other.lastName
  {
  }

  /** Registering the same e-mail address twice fails the second time,
      whatever the other fields. */
  lemma RegisterTwiceFails(db: Db, req: RegistrationRequest, again: RegistrationRequest, encode: string -> string)
    requires Register(db, req, encode).Ok?
    requires again.email == req.email
    ensures Register(Register(db, req, encode).value.0, again, encode)
         == Err(Registration(EmailTakenMessage(req.email)))
  {
    var (after, response) := Register(db, req, encode).value;
    assert after.users.rows[response.id].email == again.email;
  }

  /** The registered password is the encoded one, so two raw passwords the
      encoder keeps apart are stored apart. */
  lemma PasswordIsEncoded(db: Db, req: RegistrationRequest, encode: string -> string)
    requires Register(db, req, encode).Ok?
    ensures var (after, response) := Register(db, req, encode).value;
            after.users.rows[response.id].password == encode(req.password)
  {
  }

  /** A role change is idempotent and the last change wins. */
  lemma RoleChangesCompose(db: Db, first: UserRole, second: UserRole, userId: int)
    requires userId in db.users.rows
    ensures UpdateRoleForUser(UpdateRoleForUser(db, first, userId).value.0, second, userId).value.0
         == UpdateRoleForUser(db, second, userId).value.0
  {
  }
}
