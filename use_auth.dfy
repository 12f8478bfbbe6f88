/**
 * The React authentication provider of hooks/use-auth.tsx: the
 * `{ user, isLoading }` state kept next to the service of lib/auth.ts,
 * restored on mount and updated by `login` and `logout`.
 */
module UseAuth {
  import opened Wrappers
  import opened ReactContext
  import opened Auth

  const OutsideProvider := "useAuth must be used within an AuthProvider"

  /** The provider's state together with the service it calls. */
  class AuthProvider {
    var user: Option<User>
    var isLoading: bool
    const service: AuthService

    /** The state shown while the first effect has not yet run. */
    constructor(service: AuthService)
      ensures user == None && isLoading
      ensures this.service == service
    {
      user := None;
      isLoading := true;
      this.service := service;
    }

    /** The provider and the service agree on who is signed in. */
    predicate InSync()
      reads this, service
    {
      user == service.currentUser
    }

    /**
     * The mount effect: `getCurrentUser()` and loading done. If reading the
     * stored user throws, the effect aborts and the state stays as it was.
     */
    method Mount() returns (r: Result<Option<User>>)
      modifies this, service
      ensures r == LoadUser(old(service.currentUser), old(service.storage), service.parse)
      ensures r.Ok? ==> user == r.value && !isLoading && InSync()
      ensures r.Err? ==> user == old(user) && isLoading == old(isLoading)
      ensures service.currentUser == CacheAfterLoad(old(service.currentUser), old(service.storage), service.parse)
      ensures service.storage == old(service.storage)
    {
      r := service.GetCurrentUser();
      if r.Ok? {
        user := r.value;
        isLoading := false;
      }
    }

    /** The first update of `login`: loading, the user kept. */
    method BeginLogin()
      modifies this
      ensures isLoading && user == old(user)
    {
      isLoading := true;
    }

    /**
     * `login(email, password, role)`: on success the new user is shown, on
     * failure nobody is, and the service's error is raised again.
     */
    method Login(email: string, password: string, role: Role, id: string) returns (r: Result<User>)
      modifies this, service
      ensures !isLoading
      ensures CredentialsAccepted(email, password) ==>
        && r == Ok(NewUser(id, email, role))
        && user == Some(r.value)
        && InSync()
        && service.storage == old(service.storage)[AuthUserKey := service.serialize(r.value)]
      ensures !CredentialsAccepted(email, password) ==>
        && r == Err(InvalidCredentials)
        && user == None
        && service.currentUser == old(service.currentUser)
        && service.storage == old(service.storage)
    {
      BeginLogin();
      r := service.Login(email, password, role, id);
      if r.Ok? {
        user := Some(r.value);
      } else {
        user := None;
      }
      isLoading := false;
    }

    /** `logout()`: the service forgets the user, then so does the provider. */
    method Logout()
      modifies this, service
      ensures user == None && !isLoading && InSync()
      ensures service.storage == old(service.storage) - {AuthUserKey}
    {
      service.Logout();
      user := None;
      isLoading := false;
    }
  }

  /**
   * After a successful login, a provider mounted over a fresh service on
   * the same storage (a page reload) shows the same user.
   */
  method ReloadAfterLogin(p: AuthProvider, email: string, password: string, role: Role, id: string)
    returns (q: AuthProvider)
    requires p.service.Valid() && CredentialsAccepted(email, password)
    modifies p, p.service
    ensures q.user == Some(NewUser(id, email, role)) && !q.isLoading
  {
    var r := p.Login(email, password, role, id);
    var service := new AuthService(p.service.storage, p.service.serialize, p.service.parse);
    q := new AuthProvider(service);
    LoginPersists(old(p.service.storage), r.value, p.service.serialize, p.service.parse);
    var loaded := q.Mount();
  }

  /** `useAuth()`: the context value, or the error thrown outside a provider. */
  function UseAuthContext(context: Option<AuthProvider>): (r: Result<AuthProvider>)
    ensures context.None? <==> r == Err(OutsideProvider)
    ensures context.Some? ==> r == Ok(context.value)
  {
    UseContext(context, OutsideProvider)
  }
}
