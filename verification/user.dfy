/** The User entity, as the services read and write it. */
module Users {
  import opened Wrappers

  /** The two authorities a user can hold. */
  datatype UserRole = MANAGER | CUSTOMER

  datatype User = User(
    id: int,
    email: string,
    /** The encoded password, never the raw one. */
    password: string,
    firstName: string,
    lastName: string,
    /** The chat to notify about payments; absent when none is linked. */
    telegramId: Option<int>,
    roles: set<UserRole>)

  /** The profile a user may see: no password, no roles. */
  datatype UserResponse = UserResponse(id: int, email: string, firstName: string, lastName: string)
}
