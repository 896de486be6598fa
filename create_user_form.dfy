/**
 * The administrators' user form: the form's own copy of the default
 * permissions, the create and edit schemas, the role-change reset that
 * only new users get, and the submit that creates or updates.
 */
module CreateUserForm {
  import opened Text
  import opened Domain
  import opened Database
  import AuthService

  /** The form's own table of defaults per role. */
  function FormDefaultPermissions(role: Role): (r: Permissions)
    ensures r == AuthService.DefaultPermissions(role)
  {
    var all := [View, Create, Edit, Delete];
    match role
    case Admin => map[Prices := all, Users := all, Announcements := all, Rfqs := all]
    case Agent => map[Prices := [View], Users := [], Announcements := [View], Rfqs := [View, Create]]
  }

  /** The create schema: name of two characters or more, a valid email, a password of six or more. */
  predicate ValidCreate(name: string, email: string, password: string, isEmail: string -> bool) {
    |name| >= 2 && isEmail(email) && |password| >= 6
  }

  /** The edit schema has no password field. */
  predicate ValidEdit(name: string, email: string, isEmail: string -> bool) {
    |name| >= 2 && isEmail(email)
  }

  /** Every new user the form accepts would also pass the edit schema. */
  lemma CreateValidImpliesEditValid(name: string, email: string, password: string, isEmail: string -> bool)
    requires ValidCreate(name, email, password, isEmail)
    ensures ValidEdit(name, email, isEmail)
  {
  }

  class UserFormState {
    const existing: Option<User>
    var name: string
    var email: string
    var password: string
    var role: Role
    var permissions: Permissions

    /**
     * The form's invariant: while creating a user, the permissions shown are
     * the selected role's defaults, because the role-change effect rewrites
     * them and nothing else does.
     */
    predicate NewUserHasRoleDefaults()
      reads this
    {
      existing.None? ==> permissions == AuthService.DefaultPermissions(role)
    }

    /** A new form starts as an agent with agent defaults; an edit starts from the stored user. */
    constructor (existingUser: Option<User>)
      ensures existing == existingUser
      ensures existingUser.None? ==> name == "" && email == "" && password == "" && role == Agent &&
                                      permissions == AuthService.DefaultPermissions(Agent)
      ensures existingUser.Some? ==> name == existingUser.value.name.GetOr("") && email == existingUser.value.email &&
                                     role == existingUser.value.role && permissions == existingUser.value.permissions
      ensures NewUserHasRoleDefaults()
    {
      existing := existingUser;
      match existingUser
      case None =>
        name, email, password, role := "", "", "", Agent;
        permissions := FormDefaultPermissions(Agent);
      case Some(u) =>
        name, email, password, role := u.name.GetOr(""), u.email, "", u.role;
        permissions := u.permissions;
    }

    /** Choosing a role; for a new user the permissions are reset to that role's defaults. */
    method ChangeRole(r: Role)
      modifies this`role, this`permissions
      ensures role == r
      ensures existing.None? ==> permissions == AuthService.DefaultPermissions(r)
      ensures existing.Some? ==> permissions == old(permissions)
      ensures NewUserHasRoleDefaults()
    {
      role := r;
      if existing.None? {
        permissions := FormDefaultPermissions(r);
      }
    }

    /** The patch an edit sends: everything on the form; the password is not on the edit form. */
    function EditPatch(): (u: AuthService.UserPatch)
      reads this
      ensures u.permissions == Some(permissions) && u.role == Some(role) && u.password.None?
    {
      AuthService.UserPatch(Some(name), Some(role), Some(permissions), None)
    }

    /**
     * `onSubmit`: nothing happens while the schema rejects the values; an
     * edit updates the stored user with the form's permissions; a new user
     * is created with the permissions of its role.
     */
    method Submit(db: Tables, isEmail: string -> bool, newId: string, createFails: bool) returns (sent: bool)
      requires NewUserHasRoleDefaults()
      modifies db`users
      ensures !sent ==> db.users == old(db.users)
      ensures existing.Some? ==> (sent <==> ValidEdit(name, email, isEmail))
      ensures existing.None? ==> (sent <==> ValidCreate(name, email, password, isEmail))
      ensures sent && existing.Some? ==>
                db.users == if existing.value.id in old(db.users)
                            then old(db.users)[existing.value.id := AuthService.MergeUser(old(db.users)[existing.value.id], EditPatch())]
                            else old(db.users)
      ensures sent && existing.None? && !createFails && newId !in old(db.users) ==>
                db.users == old(db.users)[newId := UserRow(User(newId, email, Some(name), role, AuthService.DefaultPermissions(role)), password)]
      ensures sent && existing.None? && (createFails || newId in old(db.users)) ==> db.users == old(db.users)
    {
      match existing
      case Some(u) =>
        if !ValidEdit(name, email, isEmail) {
          return false;
        }
        var _, _ := AuthService.UpdateUser(db, u.id, EditPatch());
        sent := true;
      case None =>
        if !ValidCreate(name, email, password, isEmail) {
          return false;
        }
        var _ := AuthService.CreateUser(db, AuthService.NewUser(email, Some(name), password, role, Some(permissions)), newId, createFails);
        sent := true;
    }
  }

  /**
   * An edit stores the form's permissions even when the role changed, so
   * the service's reset to role defaults never applies to it; the email
   * typed into the form and the password stay as stored.
   */
  lemma EditKeepsFormPermissions(row: UserRow, name: string, role: Role, permissions: Permissions)
    ensures var r := AuthService.MergeUser(row, AuthService.UserPatch(Some(name), Some(role), Some(permissions), None));
            r.user.permissions == permissions && r.user.role == role && r.user.email == row.user.email &&
            r.passwordHash == row.passwordHash
  {
  }
}
