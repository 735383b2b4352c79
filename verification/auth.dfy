/** Staff accounts and the login session (src/lib/stores/auth.ts): the
    users list with its id-scoped mutators, the PIN login that sets or keeps
    the current user, and the permissions derived from that user's role. */
module Auth {
  import opened Wrappers
  import opened Types
  import opened Listing

  const InvalidPinError := "Code PIN invalide"

  /** The accounts a fresh install starts with and `reset` restores. */
  const DefaultUsers: seq<User> := [
    User("owner-001", "Patron", "1234", Owner, true),
    User("secretary-001", "Secrétaire", "5678", Secretary, true),
    User("employee-001", "Marie", "1111", Employee, true),
    User("employee-002", "Jean", "2222", Employee, true),
    User("employee-003", "Paul", "3333", Employee, true)]

  /** Five active accounts, one owner, one secretary and three employees,
      with distinct identifiers and distinct PINs. */
  lemma DefaultUsersShape()
    ensures |DefaultUsers| == 5
    ensures forall i :: 0 <= i < |DefaultUsers| ==> DefaultUsers[i].isActive
    ensures DefaultUsers[0].role == Owner && DefaultUsers[1].role == Secretary
    ensures forall i :: 2 <= i < |DefaultUsers| ==> DefaultUsers[i].role == Employee
    ensures forall i, j :: 0 <= i < j < |DefaultUsers| ==>
      DefaultUsers[i].pin != DefaultUsers[j].pin && DefaultUsers[i].id != DefaultUsers[j].id
  {
  }

  // ---------------------------------------------------------------------------
  // The users list

  /** The fields an update may carry (`Partial<User>`). */
  datatype UserPatch = UserPatch(
    id: Option<string>,
    name: Option<string>,
    pin: Option<string>,
    role: Option<UserRole>,
    isActive: Option<bool>)

  /** `{ ...u, ...changes }` */
  function UserPatched(u: User, patch: UserPatch): (v: User)
    ensures patch == UserPatch(None, None, None, None, None) ==> v == u
    ensures if patch.id.Some? then v.id == patch.id.value else v.id == u.id
    ensures if patch.name.Some? then v.name == patch.name.value else v.name == u.name
    ensures if patch.pin.Some? then v.pin == patch.pin.value else v.pin == u.pin
    ensures if patch.role.Some? then v.role == patch.role.value else v.role == u.role
    ensures if patch.isActive.Some? then v.isActive == patch.isActive.value else v.isActive == u.isActive
  {
    User(
      patch.id.GetOr(u.id),
      patch.name.GetOr(u.name),
      patch.pin.GetOr(u.pin),
      patch.role.GetOr(u.role),
      patch.isActive.GetOr(u.isActive))
  }

  function UserHasId(id: string): User -> bool {
    (u: User) => u.id == id
  }

  function UserLacksId(id: string): User -> bool {
    (u: User) => u.id != id
  }

  function ToggleUser(u: User): User {
    u.(isActive := !u.isActive)
  }

  function UsersUpdated(us: seq<User>, id: string, patch: UserPatch): seq<User> {
    MapWhere(us, UserHasId(id), (u: User) => UserPatched(u, patch))
  }

  function UsersToggled(us: seq<User>, id: string): seq<User> {
    MapWhere(us, UserHasId(id), ToggleUser)
  }

  function UsersDeleted(us: seq<User>, id: string): seq<User> {
    Where(us, UserLacksId(id))
  }

  /** Update, toggle and delete touch only the users with the identifier:
      every other user keeps its place (update, toggle) or stays listed in
      order (delete). */
  lemma UsersMutatorsScoped(us: seq<User>, more: seq<User>, id: string, patch: UserPatch)
    ensures |UsersUpdated(us, id, patch)| == |us| && |UsersToggled(us, id)| == |us|
    ensures forall i :: 0 <= i < |us| && us[i].id != id ==>
      UsersUpdated(us, id, patch)[i] == us[i] && UsersToggled(us, id)[i] == us[i]
    ensures forall i :: 0 <= i < |us| && us[i].id == id ==>
      UsersUpdated(us, id, patch)[i] == UserPatched(us[i], patch)
      && UsersToggled(us, id)[i] == us[i].(isActive := !us[i].isActive)
    ensures forall u :: u in UsersDeleted(us, id) <==> u in us && u.id != id
    ensures UsersDeleted(us + more, id) == UsersDeleted(us, id) + UsersDeleted(more, id)
  {
    WhereSplit(us, more, UserLacksId(id));
  }

  /** Toggling the same user twice gives the list back. */
  lemma UsersToggleTwice(us: seq<User>, id: string)
    ensures UsersToggled(UsersToggled(us, id), id) == us
  {
    var twice := UsersToggled(UsersToggled(us, id), id);
    assert forall i :: 0 <= i < |us| ==> twice[i] == us[i];
  }

  function ActiveWithPin(pin: string): User -> bool {
    (u: User) => u.pin == pin && u.isActive
  }

  /** `getByPin`, and the lookup `login` makes: the first active user with
      the PIN, or none; an inactive user is never returned. */
  function GetByPin(us: seq<User>, pin: string): (r: Option<User>)
    ensures r.None? <==> forall j :: 0 <= j < |us| ==> !(us[j].pin == pin && us[j].isActive)
    ensures r.Some? ==> r.value.pin == pin && r.value.isActive
    ensures r.Some? ==> exists k :: 0 <= k < |us| && us[k] == r.value
                                   && forall j :: 0 <= j < k ==> !(us[j].pin == pin && us[j].isActive)
  {
    var k := FirstWhere(us, ActiveWithPin(pin));
    if k < |us| then Some(us[k]) else None
  }

  /** With the default accounts, each PIN logs in as its own account and an
      unknown PIN logs in as nobody. */
  lemma DefaultPinsLogIn(i: nat, pin: string)
    requires i < |DefaultUsers|
    ensures GetByPin(DefaultUsers, DefaultUsers[i].pin) == Some(DefaultUsers[i])
    ensures (forall j :: 0 <= j < |DefaultUsers| ==> DefaultUsers[j].pin != pin) ==> GetByPin(DefaultUsers, pin).None?
  {
    DefaultUsersShape();
    var r := GetByPin(DefaultUsers, DefaultUsers[i].pin);
    var k :| 0 <= k < |DefaultUsers| && DefaultUsers[k] == r.value
             && forall j :: 0 <= j < k ==> !(DefaultUsers[j].pin == DefaultUsers[i].pin && DefaultUsers[j].isActive);
    assert DefaultUsers[k].pin == DefaultUsers[i].pin;
  }

  /** The users store. */
  class UsersStore {
    var users: seq<User>

    /** Starts from the saved accounts when there are any, else the defaults. */
    constructor(saved: Option<seq<User>>)
      ensures users == saved.GetOr(DefaultUsers)
    {
      users := saved.GetOr(DefaultUsers);
    }

    /** `add`: the account, under the fresh identifier `id`, goes at the end. */
    method Add(user: User, id: string)
      modifies this
      ensures users == old(users) + [user.(id := id)]
    {
      users := users + [user.(id := id)];
    }

    method Update(id: string, patch: UserPatch)
      modifies this
      ensures users == UsersUpdated(old(users), id, patch)
    {
      users := UsersUpdated(users, id, patch);
    }

    method Delete(id: string)
      modifies this
      ensures users == UsersDeleted(old(users), id)
    {
      users := UsersDeleted(users, id);
    }

    method ToggleActive(id: string)
      modifies this
      ensures users == UsersToggled(old(users), id)
    {
      users := UsersToggled(users, id);
    }

    method Reset()
      modifies this
      ensures users == DefaultUsers
    {
      users := DefaultUsers;
    }
  }

  // ---------------------------------------------------------------------------
  // The session

  /** What `login` answers: success, or failure with a message. */
  datatype LoginResult = LoginResult(success: bool, error: Option<string>)

  /** The logged-in user, or none. */
  class AuthStore {
    var current: Option<User>

    /** Starts from the saved session when there is one, else logged out. */
    constructor(saved: Option<User>)
      ensures current == saved
    {
      current := saved;
    }

    /** `login`: the first active account with the PIN becomes the current
        user; with none, the session is left as it was and the error is
        returned. */
    method Login(users: UsersStore, pin: string) returns (r: LoginResult)
      modifies this
      ensures r.success <==> GetByPin(users.users, pin).Some?
      ensures !r.success ==> r.error == Some(InvalidPinError) && current == old(current)
      ensures r.success ==> r.error.None? && current == GetByPin(users.users, pin)
      ensures r.success ==> current.value.pin == pin && current.value.isActive
    {
      var user := GetByPin(users.users, pin);
      if user.None? {
        return LoginResult(false, Some(InvalidPinError));
      }
      current := user;
      r := LoginResult(true, None);
    }

    method Logout()
      modifies this
      ensures current.None?
    {
      current := None;
    }
  }

  /** The permission rows written out in the session code, one per role. */
  function SessionPermissionRow(role: UserRole): Permissions {
    match role
    case Owner => Permissions("Patron", true, true, true, true, true)
    case Secretary => Permissions("Secrétaire", true, true, false, false, true)
    case Employee => Permissions("Employé", false, false, false, false, false)
  }

  /** `currentPermissions`: none when logged out, else the row of the
      user's role, which is the role's row of the shared permission table. */
  function CurrentPermissions(current: Option<User>): (r: Option<Permissions>)
    ensures r.None? <==> current.None?
    ensures r.Some? ==> r.value == RolePermissions(current.value.role)
  {
    if current.None? then None else Some(SessionPermissionRow(current.value.role))
  }

  /** `isAuthenticated` */
  function IsAuthenticated(current: Option<User>): (b: bool)
    ensures b <==> current.Some?
  {
    current != None
  }

  /** `currentRole`: the role of the current user, none when logged out. */
  function CurrentRole(current: Option<User>): (r: Option<UserRole>)
    ensures r.None? <==> current.None?
    ensures r.Some? ==> r.value == current.value.role
  {
    match current
    case None => None
    case Some(u) => Some(u.role)
  }

  /** `hasPermission`: false when logged out, else the flag the user's role
      holds for the permission. */
  function HasPermission(current: Option<User>, permission: Permission): (b: bool)
    ensures b <==> current.Some? && RolePermissions(current.value.role).Grants(permission)
  {
    if current.None? then false
    else
      var perms := CurrentPermissions(current);
      if perms.Some? then perms.value.Grants(permission) else false
  }

  /** After logging out nothing is permitted; the owner may do everything,
      an employee nothing, and whatever a secretary may do the owner may. */
  lemma PermissionsByRole(u: User, permission: Permission)
    ensures !HasPermission(None, permission)
    ensures u.role == Owner ==> HasPermission(Some(u), permission)
    ensures u.role == Employee ==> !HasPermission(Some(u), permission)
    ensures u.role == Secretary ==> (HasPermission(Some(u), permission) <==> permission != Settings && permission != Employees)
  {
  }
}
