/**
 * The mock sign-in session (src/context/auth-context.tsx): the current user or none, a loading
 * flag cleared once the stored session has been read, and the storage key `ticketing_auth_user`
 * that login and logout keep in step with the current user.
 */
module AuthSession {
  import opened Wrappers
  import opened Types
  import opened Storage
  import DataStore

  /** `MOCK_USERS[role]`: the demo account signed in for each role. */
  function MockUser(role: Role): (u: User)
    ensures u.role == role
  {
    match role
    case MasterAdmin =>
      User("u1", "Master Admin", "master@example.com", MasterAdmin, DataStore.AvatarUrl("Master"))
    case Admin =>
      User("u2", "Support Admin", "admin@example.com", Admin, DataStore.AvatarUrl("Admin"))
    case EndUser =>
      User("u3", "John Doe", "john@example.com", EndUser, DataStore.AvatarUrl("John"))
  }

  /** The three demo accounts have the distinct ids u1, u2 and u3. */
  lemma MockUserIds(a: Role, b: Role)
    ensures MockUser(MasterAdmin).id == "u1" && MockUser(Admin).id == "u2" && MockUser(EndUser).id == "u3"
    ensures MockUser(a).id == MockUser(b).id <==> a == b
  {
    assert MockUser(MasterAdmin).id[1] == '1' && MockUser(Admin).id[1] == '2' && MockUser(EndUser).id[1] == '3';
  }

  /** The demo accounts are the users the entity store seeds, in role order. */
  lemma MockUsersAreSeededUsers()
    ensures DataStore.InitialUsers() == [MockUser(MasterAdmin), MockUser(Admin), MockUser(EndUser)]
  {
  }

  class Session {
    var user: Option<User>
    var isLoading: bool
    var storage: LocalStorage

    /** The stored session holds exactly the current user. */
    ghost predicate InSync()
      reads this
    {
      && (user.Some? <==> AuthUserKey in storage)
      && (user.Some? ==> storage[AuthUserKey] == SessionUser(user.value))
    }

    /**
     * A current user is always the stored one; once the stored session has been read, a stored
     * session always is the current user.
     */
    ghost predicate Valid()
      reads this
    {
      && WellTyped(storage)
      && (user.Some? ==> AuthUserKey in storage && storage[AuthUserKey] == SessionUser(user.value))
      && (!isLoading ==> InSync())
    }

    /** The provider's first render: no user, still loading. */
    constructor (stored: LocalStorage)
      requires WellTyped(stored)
      ensures Valid()
      ensures user == None && isLoading && storage == stored
    {
      user, isLoading, storage := None, true, stored;
    }

    /** The mount effect: a stored session becomes the current user; loading ends either way. */
    method Mount()
      requires Valid()
      modifies this
      ensures Valid() && InSync()
      ensures user == if AuthUserKey in storage then Some(storage[AuthUserKey].user) else old(user)
      ensures !isLoading && storage == old(storage)
    {
      if AuthUserKey in storage {
        user := Some(storage[AuthUserKey].user);
      }
      isLoading := false;
    }

    /** `login(role)`: sign in as the role's demo account and store it. */
    method Login(role: Role)
      requires Valid()
      modifies this
      ensures Valid() && InSync()
      ensures user == Some(MockUser(role)) && user.value.role == role
      ensures storage == old(storage)[AuthUserKey := SessionUser(MockUser(role))]
      ensures isLoading == old(isLoading)
    {
      var u := MockUser(role);
      user := Some(u);
      storage := storage[AuthUserKey := SessionUser(u)];
    }

    /** `logout`: no user, and the stored session removed. */
    method Logout()
      requires Valid()
      modifies this
      ensures Valid() && InSync()
      ensures user == None && storage == old(storage) - {AuthUserKey}
      ensures isLoading == old(isLoading)
    {
      user := None;
      storage := storage - {AuthUserKey};
    }
  }

  /** Logging in twice as the same role leaves the same user and storage as logging in once. */
  method LoginIsIdempotent(once: Session, twice: Session, role: Role)
    requires once.Valid() && twice.Valid() && once != twice
    requires once.user == twice.user && once.isLoading == twice.isLoading && once.storage == twice.storage
    modifies once, twice
    ensures once.user == twice.user && once.storage == twice.storage && once.isLoading == twice.isLoading
  {
    once.Login(role);
    twice.Login(role);
    twice.Login(role);
  }

  /** A session restored on mount after a login is the logged-in user. */
  method RestoreAfterLogin(role: Role, stored: LocalStorage) returns (restored: Option<User>)
    requires WellTyped(stored)
    ensures restored == Some(MockUser(role))
  {
    var first := new Session(stored);
    first.Mount();
    first.Login(role);
    var second := new Session(first.storage);
    second.Mount();
    restored := second.user;
  }
}
