/**
 * The mock authentication service of lib/auth.ts: any non-empty email and
 * password are accepted, the user is cached in `currentUser` and persisted
 * in the browser's storage under "auth_user". Storage is a string map;
 * `JSON.stringify` and `JSON.parse` are the service's `serialize` and
 * `parse` functions, where `parse` returning `None` stands for
 * `JSON.parse` throwing. The one-second delay and the random id are
 * left to the caller: the id is a parameter.
 */
module Auth {
  import opened Wrappers
  import opened Strings

  datatype Role = Municipal | Ngo

  datatype User = User(id: string, email: string, name: string, role: Role, organization: Option<string>)

  /** The storage key the service writes the user under. */
  const AuthUserKey := "auth_user"

  /** The message of the error `login` throws. */
  const InvalidCredentials := "Invalid credentials"

  /** The message standing for the exception `JSON.parse` throws on a malformed entry. */
  const MalformedStoredUser := "JSON.parse: malformed stored user"

  /** `if (email && password)`: both strings are non-empty. */
  predicate CredentialsAccepted(email: string, password: string)
  {
    email != "" && password != ""
  }

  /** `email.split("@")[0]`: the part of the email before the first "@", or all of it. */
  function NameFromEmail(email: string): (name: string)
    ensures name <= email
    ensures '@' !in name
    ensures |name| < |email| ==> email[|name|] == '@'
    ensures '@' !in email ==> name == email
  {
    SplitHead(email, '@');
    Split(email, '@')[0]
  }

  /** The organization a new user gets from its role. */
  function OrganizationFor(role: Role): (org: string)
    ensures org == "Sample NGO" <==> role == Ngo
    ensures org == "Municipal Office" <==> role == Municipal
  {
    assert "Sample NGO"[0] != "Municipal Office"[0];
    match role
    case Ngo => "Sample NGO"
    case Municipal => "Municipal Office"
  }

  /** The user `login` builds from its arguments. */
  function NewUser(id: string, email: string, role: Role): (u: User)
    ensures u.id == id && u.email == email && u.role == role
    ensures u.name == NameFromEmail(email)
    ensures u.name <= email && '@' !in u.name
    ensures u.organization == Some(OrganizationFor(role))
  {
    User(id, email, NameFromEmail(email), role, Some(OrganizationFor(role)))
  }

  /**
   * What `getCurrentUser` returns: the cached user if any; otherwise the
   * user stored under "auth_user" when that entry is a non-empty string;
   * otherwise null (`Ok(None)`). A stored entry `parse` rejects throws.
   */
  function LoadUser(cached: Option<User>, storage: map<string, string>, parse: string -> Option<User>): (r: Result<Option<User>>)
    ensures cached.Some? ==> r == Ok(cached)
    ensures r.Err? <==> cached.None? && AuthUserKey in storage && storage[AuthUserKey] != "" && parse(storage[AuthUserKey]).None?
    ensures r == Ok(None) <==> cached.None? && (AuthUserKey !in storage || storage[AuthUserKey] == "")
    ensures cached.None? && AuthUserKey in storage && storage[AuthUserKey] != "" && parse(storage[AuthUserKey]).Some? ==>
      r == Ok(parse(storage[AuthUserKey]))
  {
    if cached.Some? then Ok(cached)
    else if AuthUserKey in storage && storage[AuthUserKey] != "" then
      match parse(storage[AuthUserKey])
      case Some(u) => Ok(Some(u))
      case None => Err(MalformedStoredUser)
    else Ok(None)
  }

  /** The value `currentUser` holds after `getCurrentUser`: the loaded user is cached. */
  function CacheAfterLoad(cached: Option<User>, storage: map<string, string>, parse: string -> Option<User>): Option<User>
  {
    match LoadUser(cached, storage, parse)
    case Ok(u) => u
    case Err(_) => cached
  }

  /** `serialize` writes what `parse` reads back, and never the empty string. */
  ghost predicate CodecRoundTrips(serialize: User -> string, parse: string -> Option<User>)
  {
    forall u :: serialize(u) != "" && parse(serialize(u)) == Some(u)
  }

  /**
   * After a successful login the user can be loaded again from storage
   * alone, as a freshly created service does after a page reload.
   */
  lemma LoginPersists(storage: map<string, string>, u: User, serialize: User -> string, parse: string -> Option<User>)
    requires CodecRoundTrips(serialize, parse)
    ensures LoadUser(None, storage[AuthUserKey := serialize(u)], parse) == Ok(Some(u))
  {
    assert serialize(u) != "" && parse(serialize(u)) == Some(u);
  }

  /** After logout nothing is cached and nothing is stored, so no user is found. */
  lemma LogoutForgets(storage: map<string, string>, parse: string -> Option<User>)
    ensures LoadUser(None, storage - {AuthUserKey}, parse) == Ok(None)
  {
  }

  /** Once a user is cached, loading returns it and storage is not consulted. */
  lemma CacheWins(u: User, storage: map<string, string>, parse: string -> Option<User>)
    ensures LoadUser(Some(u), storage, parse) == Ok(Some(u))
    ensures CacheAfterLoad(Some(u), storage, parse) == Some(u)
  {
  }

  class AuthService {
    /** `private currentUser: User | null`. */
    var currentUser: Option<User>
    /** The browser's local storage. */
    var storage: map<string, string>
    /** `JSON.stringify` on users. */
    const serialize: User -> string
    /** `JSON.parse` on stored users; `None` when it would throw. */
    const parse: string -> Option<User>

    ghost predicate Valid()
    {
      CodecRoundTrips(serialize, parse)
    }

    /** `new AuthService()` over the storage the page finds. */
    constructor(storage0: map<string, string>, serialize: User -> string, parse: string -> Option<User>)
      requires CodecRoundTrips(serialize, parse)
      ensures Valid()
      ensures currentUser == None && storage == storage0
      ensures this.serialize == serialize && this.parse == parse
    {
      currentUser := None;
      storage := storage0;
      this.serialize := serialize;
      this.parse := parse;
    }

    /** `login(email, password, role)`; `id` is the random id lib/auth.ts draws. */
    method Login(email: string, password: string, role: Role, id: string) returns (r: Result<User>)
      modifies this
      ensures CredentialsAccepted(email, password) ==>
        && r == Ok(NewUser(id, email, role))
        && currentUser == Some(r.value)
        && storage == old(storage)[AuthUserKey := serialize(r.value)]
      ensures !CredentialsAccepted(email, password) ==>
        && r == Err(InvalidCredentials)
        && currentUser == old(currentUser)
        && storage == old(storage)
    {
      if email != "" && password != "" {
        var user := NewUser(id, email, role);
        currentUser := Some(user);
        storage := storage[AuthUserKey := serialize(user)];
        return Ok(user);
      }
      return Err(InvalidCredentials);
    }

    /** `logout()`: forgets the cached user and removes the stored one. */
    method Logout()
      modifies this
      ensures currentUser == None
      ensures storage == old(storage) - {AuthUserKey}
    {
      currentUser := None;
      storage := storage - {AuthUserKey};
    }

    /** `getCurrentUser()`: the cached user, else the stored one (now cached), else null. */
    method GetCurrentUser() returns (r: Result<Option<User>>)
      modifies this`currentUser
      ensures r == LoadUser(old(currentUser), storage, parse)
      ensures currentUser == CacheAfterLoad(old(currentUser), storage, parse)
    {
      if currentUser.Some? {
        return Ok(currentUser);
      }
      if AuthUserKey in storage && storage[AuthUserKey] != "" {
        var parsed := parse(storage[AuthUserKey]);
        if parsed.None? {
          return Err(MalformedStoredUser);
        }
        currentUser := parsed;
        return Ok(currentUser);
      }
      return Ok(None);
    }

    /** `isAuthenticated()`: `getCurrentUser()` found a user. */
    method IsAuthenticated() returns (r: Result<bool>)
      modifies this`currentUser
      ensures r.Ok? <==> LoadUser(old(currentUser), storage, parse).Ok?
      ensures r.Ok? ==> r.value == LoadUser(old(currentUser), storage, parse).value.Some?
      ensures currentUser == CacheAfterLoad(old(currentUser), storage, parse)
    {
      var u := GetCurrentUser();
      if u.Err? {
        return Err(u.message);
      }
      return Ok(u.value.Some?);
    }
  }
}
