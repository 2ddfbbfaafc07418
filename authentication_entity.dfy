/**
 * The authentication package's entities: the authenticated user, the
 * AnonymousUser sentinel, and the provider link record.
 *
 * An AuthUser is handled through pointers in Go, and "is anonymous" means
 * "is the very pointer stored in the package variable AnonymousUser", not
 * "has zero fields". The model therefore makes AuthUser a class, whose
 * references have identity. None of its fields is ever updated after the
 * record is built, so they are `const`.
 */
module AuthenticationEntity {
  import opened Wrappers
  import opened Uuid

  class AuthUser {
    const id: UUID
    const email: string
    const firstName: string
    const lastName: string
    const mobileNumber: Option<string>   // a *string: None is nil

    constructor (id: UUID, email: string, firstName: string, lastName: string, mobileNumber: Option<string>)
      ensures this.id == id && this.email == email && this.firstName == firstName
      ensures this.lastName == lastName && this.mobileNumber == mobileNumber
    {
      this.id := id;
      this.email := email;
      this.firstName := firstName;
      this.lastName := lastName;
      this.mobileNumber := mobileNumber;
    }
  }

  /** Every field holds Go's zero value, as in `&AuthUser{}`. */
  predicate IsZeroValue(u: AuthUser) {
    u.id == Nil && u.email == "" && u.firstName == "" && u.lastName == "" && u.mobileNumber == None
  }

  /** Field-by-field equality, which is NOT what IsAnonymous compares. */
  predicate SameFields(a: AuthUser, b: AuthUser) {
    a.id == b.id && a.email == b.email && a.firstName == b.firstName
    && a.lastName == b.lastName && a.mobileNumber == b.mobileNumber
  }

  /**
   * The package-level variables of the authentication package, initialised
   * once when the program starts: `var AnonymousUser = &AuthUser{}`.
   */
  class Globals {
    const anonymousUser: AuthUser

    constructor ()
      ensures Valid() && fresh(anonymousUser)
    {
      anonymousUser := new AuthUser(Nil, "", "", "", None);
    }

    predicate Valid() {
      IsZeroValue(anonymousUser)
    }
  }

  /** `usr.IsAnonymous()`: pointer comparison with the sentinel; a nil receiver is allowed. */
  function IsAnonymous(usr: AuthUser?, globals: Globals): bool {
    usr == globals.anonymousUser
  }

  /** `Create`: a new user record with the three names set and every other field zero. */
  method Create(email: string, firstName: string, lastName: string) returns (user: AuthUser, err: Option<string>)
    ensures fresh(user) && err == None
    ensures user.email == email && user.firstName == firstName && user.lastName == lastName
    ensures user.id == Nil && user.mobileNumber == None
  {
    user := new AuthUser(Nil, email, firstName, lastName, None);
    err := None;
  }

  /**
   * What Create returns is never anonymous, not even when it is made from
   * empty names and so has exactly the sentinel's fields.
   */
  method CreatedUserIsNotAnonymous(globals: Globals, email: string, firstName: string, lastName: string)
    returns (user: AuthUser)
    requires globals.Valid()
    ensures !IsAnonymous(user, globals)
    ensures email == "" && firstName == "" && lastName == "" ==> SameFields(user, globals.anonymousUser)
  {
    var err;
    user, err := Create(email, firstName, lastName);
  }

  /** A nil pointer is not anonymous either. */
  lemma NilIsNotAnonymous(globals: Globals)
    ensures !IsAnonymous(null, globals)
  {
  }

  /** Go's zero time.Time; the model keeps instants as integers. */
  const ZeroTime: int := 0

  /** The link between an AuthUser and one account at an OAuth provider. */
  datatype AuthProvider = AuthProvider(
    id: UUID,
    userID: UUID,
    provider: string,
    providerUserID: string,
    createdAt: int)
  {
    /** `(AuthProvider) Create`: a value receiver, which the result does not depend on. */
    function Create(userID: UUID, provider: string, providerUserID: string): (AuthProvider, Option<string>) {
      (AuthProvider(Nil, userID, provider, providerUserID, ZeroTime), None)
    }
  }

  /**
   * AuthProvider.Create ignores its receiver, never fails, copies its three
   * arguments and leaves the link's own id and creation time zero.
   */
  lemma AuthProviderCreateIgnoresReceiver(a: AuthProvider, b: AuthProvider, userID: UUID, provider: string, providerUserID: string)
    ensures a.Create(userID, provider, providerUserID) == b.Create(userID, provider, providerUserID)
    ensures var (link, err) := a.Create(userID, provider, providerUserID);
      && err == None
      && link.userID == userID && link.provider == provider && link.providerUserID == providerUserID
      && link.id == Nil && link.createdAt == ZeroTime
  {
  }
}
