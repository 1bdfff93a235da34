/** The browser session of the frontend: two storage slots, `jwt` and
    `user`, and the user shown to the pages, kept in step by the
    authentication provider. */
module Session {
  import opened Wrappers

  /** The user record the login reply carries and the `user` slot keeps. */
  datatype AuthUser = AuthUser(fullName: string, email: string, walletId: string)

  /** The two slots of local storage. The `user` slot is written only as
      the serialization of a login reply's user, so it is kept here as that
      user. */
  datatype Storage = Storage(jwt: Option<string>, user: Option<AuthUser>)

  datatype Session = Session(storage: Storage, user: Option<AuthUser>)

  /** What a login request yields: the reply's token and user, or a failed
      request. */
  datatype LoginReply = LoginReply(token: string, user: AuthUser)

  /** The provider's first render: the user is whatever the `user` slot
      holds. */
  function Init(storage: Storage): (s: Session)
    ensures s.storage == storage
    ensures s.user == storage.user
  {
    Session(storage, storage.user)
  }

  /** The effect run once after the first render: without a token the user
      is dropped, whatever the `user` slot says. The slots are left alone. */
  function Mount(s: Session): (r: Session)
    ensures r.storage == s.storage
    ensures !Truthy(s.storage.jwt) ==> r.user.None?
    ensures Truthy(s.storage.jwt) ==> r.user == s.user
  {
    if !Truthy(s.storage.jwt) then s.(user := None) else s
  }

  /** `login`: a failed request throws before anything is written;
      otherwise both slots are written and the user is set. */
  function Login(s: Session, reply: Option<LoginReply>): (r: Session)
    ensures reply.None? ==> r == s
    ensures reply.Some? ==>
      && r.storage == Storage(Some(reply.value.token), Some(reply.value.user))
      && r.user == Some(reply.value.user)
  {
    match reply
    case None => s
    case Some(LoginReply(token, u)) => Session(Storage(Some(token), Some(u)), Some(u))
  }

  /** `logout`: both slots removed, no user. */
  function Logout(s: Session): (r: Session)
    ensures r.storage.jwt.None? && r.storage.user.None? && r.user.None?
  {
    Session(Storage(None, None), None)
  }

  const OutsideProvider := "useAuth must be used inside AuthProvider"

  /** `useAuth`: the provider's value, or the error thrown when a component
      is rendered outside the provider. */
  function UseAuth(provided: Option<Session>): (r: Result<Session>)
    ensures provided.None? <==> r == Err(Message(OutsideProvider))
    ensures provided.Some? ==> r == Ok(provided.value)
  {
    match provided
    case None => Err(Message(OutsideProvider))
    case Some(s) => Ok(s)
  }

  /** A reload is a fresh provider over the same storage, mounted. */
  function Reload(s: Session): Session {
    Mount(Init(s.storage))
  }

  /** A reload after a login keeps the user exactly when the token the
      reply carried is non-empty. */
  lemma ReloadAfterLogin(s: Session, reply: LoginReply)
    ensures Reload(Login(s, Some(reply))).user == (if reply.token != "" then Some(reply.user) else None)
    ensures Reload(Login(s, Some(reply))).storage == Login(s, Some(reply)).storage
  {
  }

  /** Logging out twice is logging out once, and a reload after a logout
      shows no user. */
  lemma LogoutIdempotent(s: Session)
    ensures Logout(Logout(s)) == Logout(s)
    ensures Reload(Logout(s)).user.None?
  {
  }

  /** Once mounted, a shown user implies a token in storage; login and
      logout keep that so. */
  predicate Consistent(s: Session) {
    s.user.Some? ==> Truthy(s.storage.jwt)
  }

  lemma ConsistentPreserved(s: Session, reply: Option<LoginReply>)
    requires Consistent(s)
    ensures Consistent(Mount(Init(s.storage)))
    ensures Consistent(Logout(s))
    ensures reply.Some? && reply.value.token != "" ==> Consistent(Login(s, reply))
    ensures reply.None? ==> Consistent(Login(s, reply))
  {
  }
}
