/**
 * The test authentication service: one fixed account, registration that
 * always succeeds, and the signed-in user cached in memory with a copy under
 * the "user" storage key. Storage is only touched in a browser.
 */
module Auth {
  import opened Wrappers
  import opened Storage

  const TestUser: User := User("1", "Usuario Prueba", "test@balancemgs.com")
  const TestEmail: string := "test@balancemgs.com"
  const TestPassword: string := "12345678"
  const InvalidCredentials: string := "Credenciales inválidas"

  predicate ValidCredentials(email: string, password: string) {
    email == TestEmail && password == TestPassword
  }

  /**
   * Who `getCurrentUser` reports: the cached user, else (in a browser) the
   * stored one, else nobody.
   */
  function Resolve(cached: Option<User>, inBrowser: bool, stored: Option<User>): (r: Option<User>)
    ensures cached.Some? ==> r == cached
    ensures cached.None? && inBrowser ==> r == stored
    ensures r.None? <==> cached.None? && (!inBrowser || stored.None?)
  {
    if cached.Some? then cached
    else if inBrowser then stored
    else None
  }

  /** Once the stored user has been restored into the cache, asking again reports the same user. */
  lemma ResolveIdempotent(cached: Option<User>, inBrowser: bool, stored: Option<User>)
    ensures Resolve(Resolve(cached, inBrowser, stored), inBrowser, stored) == Resolve(cached, inBrowser, stored)
  {
  }

  class AuthService {
    var currentUser: Option<User>
    const storage: LocalStorage
    /** `typeof window !== "undefined"`. */
    const inBrowser: bool

    constructor(storage: LocalStorage, inBrowser: bool)
      ensures currentUser.None? && this.storage == storage && this.inBrowser == inBrowser
    {
      currentUser := None;
      this.storage := storage;
      this.inBrowser := inBrowser;
    }

    /** Signs in the test account; any other credentials fail and change nothing. */
    method Login(email: string, password: string) returns (r: Result<User>)
      modifies this, storage
      ensures r.Success? <==> ValidCredentials(email, password)
      ensures r.Success? ==>
        && r.value == TestUser
        && currentUser == Some(TestUser)
        && storage.user == (if inBrowser then Some(TestUser) else old(storage.user))
      ensures r.Failure? ==>
        && r.error == InvalidCredentials
        && currentUser == old(currentUser)
        && storage.user == old(storage.user)
      ensures storage.consolidatedPeriods == old(storage.consolidatedPeriods)
      ensures storage.consolidatedCopData == old(storage.consolidatedCopData)
    {
      if email == TestEmail && password == TestPassword {
        currentUser := Some(TestUser);
        if inBrowser {
          storage.user := Some(TestUser);
        }
        return Success(TestUser);
      }
      return Failure(InvalidCredentials);
    }

    /**
     * Registers and signs in a new user with the given name and email; `id`
     * is the clock reading the source turns into the new user's id.
     */
    method Register(name: string, email: string, password: string, id: string) returns (user: User)
      modifies this, storage
      ensures user == User(id, name, email)
      ensures currentUser == Some(user)
      ensures storage.user == (if inBrowser then Some(user) else old(storage.user))
      ensures storage.consolidatedPeriods == old(storage.consolidatedPeriods)
      ensures storage.consolidatedCopData == old(storage.consolidatedCopData)
    {
      user := User(id, name, email);
      currentUser := Some(user);
      if inBrowser {
        storage.user := Some(user);
      }
    }

    /** Forgets the user, in memory and (in a browser) in storage. */
    method Logout()
      modifies this, storage
      ensures currentUser.None?
      ensures storage.user == (if inBrowser then None else old(storage.user))
      ensures storage.consolidatedPeriods == old(storage.consolidatedPeriods)
      ensures storage.consolidatedCopData == old(storage.consolidatedCopData)
    {
      currentUser := None;
      if inBrowser {
        storage.user := None;
      }
    }

    /** Reports the current user, restoring and caching the stored one when nothing is cached. */
    method GetCurrentUser() returns (user: Option<User>)
      modifies this
      ensures user == Resolve(old(currentUser), inBrowser, storage.user)
      ensures currentUser == user
    {
      if currentUser.Some? {
        return currentUser;
      }
      if inBrowser {
        var stored := storage.user;
        if stored.Some? {
          currentUser := stored;
          return currentUser;
        }
      }
      return None;
    }

    method IsAuthenticated() returns (b: bool)
      modifies this
      ensures b <==> Resolve(old(currentUser), inBrowser, storage.user).Some?
      ensures currentUser == Resolve(old(currentUser), inBrowser, storage.user)
    {
      var user := GetCurrentUser();
      b := user.Some?;
    }
  }

  /** The holder of the service's single instance (the class's static field). */
  class AuthRegistry {
    var instance: AuthService?
    const storage: LocalStorage
    const inBrowser: bool

    constructor(storage: LocalStorage, inBrowser: bool)
      ensures instance == null && this.storage == storage && this.inBrowser == inBrowser
    {
      instance := null;
      this.storage := storage;
      this.inBrowser := inBrowser;
    }

    /** The first call creates the service; every later call returns that same object. */
    method GetInstance() returns (service: AuthService)
      modifies this
      ensures old(instance) != null ==> service == old(instance)
      ensures old(instance) == null ==>
        fresh(service) && service.currentUser.None? && service.storage == storage && service.inBrowser == inBrowser
      ensures instance == service
    {
      if instance == null {
        instance := new AuthService(storage, inBrowser);
      }
      service := instance;
    }
  }
}
