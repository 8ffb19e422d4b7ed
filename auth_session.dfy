/** The part of the auth service's session that the components read. */
module AuthSession {

  /** The signed-in user as the auth service reports it. */
  datatype User = User(id: string, email: string)

  /** A session as delivered with an auth state change event. */
  datatype Session = Session(user: User)
}
