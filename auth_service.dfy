/**
 * The user service: default permissions per role, account creation,
 * the UPDATE builder with its role/permissions cascade, deletion and the
 * plaintext credential lookup used at login.
 */
module AuthService {
  import opened Text
  import opened Domain
  import opened Database

  /** Every action, in the order `view, create, edit, delete`. */
  const AllActions: seq<Action> := [View, Create, Edit, Delete]

  const AllScopes: set<Scope> := {Prices, Users, Announcements, Rfqs}

  /** The permissions a role receives when none are given. */
  function DefaultPermissions(role: Role): (r: Permissions)
    ensures r.Keys == AllScopes
  {
    match role
    case Admin => map[Prices := AllActions, Users := AllActions, Announcements := AllActions, Rfqs := AllActions]
    case Agent => map[Prices := [View], Users := [], Announcements := [View], Rfqs := [View, Create]]
  }

  /** An administrator may perform every action on every scope. */
  lemma AdminMayDoEverything(s: Scope, a: Action)
    ensures a in DefaultPermissions(Admin)[s]
  {
    assert s in AllScopes;
    assert a in AllActions by { match a case View => case Create => case Edit => case Delete => }
  }

  /** Agent defaults grant nothing on users, never edit or delete, and are within the admin defaults. */
  lemma AgentDefaultsRestricted(s: Scope, a: Action)
    ensures DefaultPermissions(Agent)[Users] == []
    ensures a in DefaultPermissions(Agent)[s] ==> a in DefaultPermissions(Admin)[s] && a != Edit && a != Delete
    ensures a in DefaultPermissions(Agent)[s] <==> (a == View && s != Users) || (a == Create && s == Rfqs)
  {
    assert s in AllScopes;
    AdminMayDoEverything(s, a);
  }

  /** What `createUser` receives: everything but the id. */
  datatype NewUser = NewUser(email: string, name: Option<string>, password: string, role: Role, permissions: Option<Permissions>)

  /** `permissions || getDefaultPermissions(role)`; a given permission object is kept even when it is empty. */
  function InitialPermissions(data: NewUser): (r: Permissions)
    ensures data.permissions.Some? ==> r == data.permissions.value
    ensures data.permissions.None? ==> r == DefaultPermissions(data.role)
  {
    data.permissions.GetOr(DefaultPermissions(data.role))
  }

  /**
   * `createUser`: the row is inserted under a fresh id with the password
   * stored as given; a database error (`fails`) or an id in use is rethrown.
   */
  method CreateUser(db: Tables, data: NewUser, newId: string, fails: bool) returns (r: Result<User, string>)
    modifies db`users
    ensures r.Success? <==> !fails && newId !in old(db.users)
    ensures r.Success? ==> r.value == User(newId, data.email, data.name, data.role, InitialPermissions(data))
    ensures r.Success? ==> db.users == old(db.users)[newId := UserRow(r.value, data.password)]
    ensures r.Failure? ==> db.users == old(db.users)
  {
    if fails || newId in db.users {
      return Failure("Error creating user");
    }
    var user := User(newId, data.email, data.name, data.role, InitialPermissions(data));
    db.users := db.users[newId := UserRow(user, data.password)];
    r := Success(user);
  }

  /** `Partial<Omit<User, 'id' | 'email'>>` plus an optional new password; None is `undefined`. */
  datatype UserPatch = UserPatch(name: Option<string>, role: Option<Role>, permissions: Option<Permissions>, password: Option<string>)

  /** The columns `updateUser` may assign; there is no email column among them. */
  datatype UserColumn = NameColumn | RoleColumn | PermissionsColumn | PasswordHashColumn

  function RoleName(role: Role): (s: string)
    ensures s == "admin" <==> role == Admin
  {
    match role
    case Admin => "admin"
    case Agent => assert "agent"[1] != "admin"[1]; "agent"
  }

  /** The role part of the update: the role, then its default permissions unless permissions are given too. */
  function RoleField(u: UserPatch): seq<Assignment<UserColumn>> {
    if u.role.None? then []
    else [(RoleColumn, Str(RoleName(u.role.value)))] +
         (if u.permissions.None? then [(PermissionsColumn, PermissionsJson(DefaultPermissions(u.role.value)))] else [])
  }

  function NameField(u: UserPatch): seq<Assignment<UserColumn>> {
    if u.name.Some? then [(NameColumn, Str(u.name.value))] else []
  }

  function PermissionsField(u: UserPatch): seq<Assignment<UserColumn>> {
    if u.permissions.Some? then [(PermissionsColumn, PermissionsJson(u.permissions.value))] else []
  }

  function PasswordField(u: UserPatch): seq<Assignment<UserColumn>> {
    if u.password.Some? then [(PasswordHashColumn, Str(u.password.value))] else []
  }

  /** The assignments in the order the builder pushes them: name, role, permissions, password. */
  function UserAssignments(u: UserPatch): seq<Assignment<UserColumn>> {
    NameField(u) + (RoleField(u) + (PermissionsField(u) + PasswordField(u)))
  }

  /** The permissions an update leaves: explicit ones win, a new role alone resets to its defaults. */
  function EffectivePermissions(u: UserPatch, stored: Permissions): (r: Permissions)
    ensures u.permissions.Some? ==> r == u.permissions.value
    ensures u.permissions.None? && u.role.Some? ==> r == DefaultPermissions(u.role.value)
    ensures u.permissions.None? && u.role.None? ==> r == stored
  {
    if u.permissions.Some? then u.permissions.value
    else if u.role.Some? then DefaultPermissions(u.role.value)
    else stored
  }

  /** Each column is assigned at most once. */
  lemma UserColumnsDistinct(u: UserPatch)
    ensures DistinctColumns(UserAssignments(u))
  {
    var a := UserAssignments(u);
    var n, ro, p, pw := NameField(u), RoleField(u), PermissionsField(u), PasswordField(u);
    assert a == n + (ro + (p + pw));
    assert forall i :: 0 <= i < |n| ==> n[i].0 == NameColumn;
    assert forall i :: 0 <= i < |pw| ==> pw[i].0 == PasswordHashColumn;
    assert forall i :: 0 <= i < |ro| ==> ro[i].0 in {RoleColumn, PermissionsColumn};
    assert forall i :: 0 <= i < |p| ==> p[i].0 == PermissionsColumn;
  }

  /**
   * Permissions are assigned exactly when a role or permissions are given,
   * with the value the cascade picks; nothing is assigned for an empty patch.
   */
  lemma UserAssignmentsExact(u: UserPatch, stored: Permissions)
    ensures (exists i :: 0 <= i < |UserAssignments(u)| && UserAssignments(u)[i].0 == PermissionsColumn)
            <==> u.role.Some? || u.permissions.Some?
    ensures forall i :: 0 <= i < |UserAssignments(u)| && UserAssignments(u)[i].0 == PermissionsColumn ==>
              UserAssignments(u)[i].1 == PermissionsJson(EffectivePermissions(u, stored))
    ensures |UserAssignments(u)| == 0 <==> u.name.None? && u.role.None? && u.permissions.None? && u.password.None?
  {
    var a := UserAssignments(u);
    var n, ro, p, pw := NameField(u), RoleField(u), PermissionsField(u), PasswordField(u);
    assert a == n + (ro + (p + pw));
    assert forall i :: 0 <= i < |n| ==> n[i].0 == NameColumn;
    assert forall i :: 0 <= i < |pw| ==> pw[i].0 == PasswordHashColumn;
    if u.role.Some? || u.permissions.Some? {
      var i := if u.role.Some? && u.permissions.None? then |n| + 1 else |n| + |ro|;
      assert a[i].0 == PermissionsColumn;
    }
  }

  /** What the database does with one assignment to a stored user row. */
  function SetUserColumn(row: UserRow, x: Assignment<UserColumn>): UserRow {
    match x
    case (NameColumn, Str(s)) => row.(user := row.user.(name := Some(s)))
    case (RoleColumn, Str(s)) => row.(user := row.user.(role := if s == "admin" then Admin else Agent))
    case (PermissionsColumn, PermissionsJson(p)) => row.(user := row.user.(permissions := p))
    case (PasswordHashColumn, Str(s)) => row.(passwordHash := s)
    case _ => row
  }

  /** The stored row after an update: id and email never change. */
  function MergeUser(row: UserRow, u: UserPatch): (r: UserRow)
    ensures r.user.id == row.user.id && r.user.email == row.user.email
    ensures r.user.permissions == EffectivePermissions(u, row.user.permissions)
  {
    UserRow(
      row.user.(name := if u.name.Some? then u.name else row.user.name,
                role := u.role.GetOr(row.user.role),
                permissions := EffectivePermissions(u, row.user.permissions)),
      u.password.GetOr(row.passwordHash))
  }

  lemma UserAssignmentsMerge(row: UserRow, u: UserPatch)
    ensures ApplyAll(row, UserAssignments(u), SetUserColumn) == MergeUser(row, u)
  {
    var n, ro, p, pw := NameField(u), RoleField(u), PermissionsField(u), PasswordField(u);
    ApplyAllConcat(row, n, ro + (p + pw), SetUserColumn);
    var r1 := ApplyAll(row, n, SetUserColumn);
    ApplyAllConcat(r1, ro, p + pw, SetUserColumn);
    var r2 := ApplyAll(r1, ro, SetUserColumn);
    ApplyAllConcat(r2, p, pw, SetUserColumn);
    var r3 := ApplyAll(r2, p, SetUserColumn);
    NameStep(row, u);
    RoleStep(r1, u);
    PermissionsStep(r2, u);
    PasswordStep(r3, u);
  }

  lemma NameStep(row: UserRow, u: UserPatch)
    ensures ApplyAll(row, NameField(u), SetUserColumn) == row.(user := row.user.(name := if u.name.Some? then u.name else row.user.name))
  {
    if u.name.Some? {
      ApplySingle(row, NameField(u)[0], SetUserColumn);
    }
  }

  /** The role step sets the role and, without explicit permissions, the role's defaults. */
  lemma RoleStep(row: UserRow, u: UserPatch)
    ensures var r := ApplyAll(row, RoleField(u), SetUserColumn);
            r.passwordHash == row.passwordHash && r.user.name == row.user.name &&
            r.user.role == u.role.GetOr(row.user.role) &&
            r.user.permissions == (if u.role.Some? && u.permissions.None? then DefaultPermissions(u.role.value) else row.user.permissions) &&
            r.user.id == row.user.id && r.user.email == row.user.email
  {
    if u.role.Some? {
      var ro := RoleField(u);
      ApplyAllConcat(row, [ro[0]], ro[1..], SetUserColumn);
      ApplySingle(row, ro[0], SetUserColumn);
      assert [ro[0]] + ro[1..] == ro;
      if u.permissions.None? {
        assert ro[1..] == [ro[1]];
        ApplySingle(SetUserColumn(row, ro[0]), ro[1], SetUserColumn);
      }
    }
  }

  lemma PermissionsStep(row: UserRow, u: UserPatch)
    ensures ApplyAll(row, PermissionsField(u), SetUserColumn) ==
            row.(user := row.user.(permissions := u.permissions.GetOr(row.user.permissions)))
  {
    if u.permissions.Some? {
      ApplySingle(row, PermissionsField(u)[0], SetUserColumn);
    }
  }

  lemma PasswordStep(row: UserRow, u: UserPatch)
    ensures ApplyAll(row, PasswordField(u), SetUserColumn) == row.(passwordHash := u.password.GetOr(row.passwordHash))
  {
    if u.password.Some? {
      ApplySingle(row, PasswordField(u)[0], SetUserColumn);
    }
  }

  // The builder's steps, one per `if` of the source, each tracked against
  // the assignments `a` pushed before it.

  method PushName(setClauses: seq<SetClause<UserColumn>>, values: seq<SqlValue>, paramIndex: nat, ghost a: seq<Assignment<UserColumn>>, u: UserPatch)
    returns (setClauses': seq<SetClause<UserColumn>>, values': seq<SqlValue>, paramIndex': nat)
    requires setClauses == NumberedFrom(a, 1) && values == ValuesOf(a) && paramIndex == |a| + 1
    ensures setClauses' == NumberedFrom(a + NameField(u), 1) && values' == ValuesOf(a + NameField(u))
    ensures paramIndex' == |a + NameField(u)| + 1
  {
    setClauses', values', paramIndex' := setClauses, values, paramIndex;
    if u.name.Some? {
      setClauses', values', paramIndex' := Push(setClauses, values, paramIndex, a, (NameColumn, Str(u.name.value)));
    } else {
      assert a + NameField(u) == a;
    }
  }

  method PushRole(setClauses: seq<SetClause<UserColumn>>, values: seq<SqlValue>, paramIndex: nat, ghost a: seq<Assignment<UserColumn>>, u: UserPatch)
    returns (setClauses': seq<SetClause<UserColumn>>, values': seq<SqlValue>, paramIndex': nat)
    requires setClauses == NumberedFrom(a, 1) && values == ValuesOf(a) && paramIndex == |a| + 1
    ensures setClauses' == NumberedFrom(a + RoleField(u), 1) && values' == ValuesOf(a + RoleField(u))
    ensures paramIndex' == |a + RoleField(u)| + 1
  {
    setClauses', values', paramIndex' := setClauses, values, paramIndex;
    if u.role.Some? {
      var x := (RoleColumn, Str(RoleName(u.role.value)));
      setClauses', values', paramIndex' := Push(setClauses', values', paramIndex', a, x);
      if u.permissions.None? {
        var y := (PermissionsColumn, PermissionsJson(DefaultPermissions(u.role.value)));
        setClauses', values', paramIndex' := Push(setClauses', values', paramIndex', a + [x], y);
        assert a + [x] + [y] == a + RoleField(u);
      } else {
        assert a + [x] == a + RoleField(u);
      }
    } else {
      assert a + RoleField(u) == a;
    }
  }

  method PushPermissions(setClauses: seq<SetClause<UserColumn>>, values: seq<SqlValue>, paramIndex: nat, ghost a: seq<Assignment<UserColumn>>, u: UserPatch)
    returns (setClauses': seq<SetClause<UserColumn>>, values': seq<SqlValue>, paramIndex': nat)
    requires setClauses == NumberedFrom(a, 1) && values == ValuesOf(a) && paramIndex == |a| + 1
    ensures setClauses' == NumberedFrom(a + PermissionsField(u), 1) && values' == ValuesOf(a + PermissionsField(u))
    ensures paramIndex' == |a + PermissionsField(u)| + 1
  {
    setClauses', values', paramIndex' := setClauses, values, paramIndex;
    if u.permissions.Some? {
      setClauses', values', paramIndex' := Push(setClauses, values, paramIndex, a, (PermissionsColumn, PermissionsJson(u.permissions.value)));
    } else {
      assert a + PermissionsField(u) == a;
    }
  }

  method PushPassword(setClauses: seq<SetClause<UserColumn>>, values: seq<SqlValue>, paramIndex: nat, ghost a: seq<Assignment<UserColumn>>, u: UserPatch)
    returns (setClauses': seq<SetClause<UserColumn>>, values': seq<SqlValue>, paramIndex': nat)
    requires setClauses == NumberedFrom(a, 1) && values == ValuesOf(a) && paramIndex == |a| + 1
    ensures setClauses' == NumberedFrom(a + PasswordField(u), 1) && values' == ValuesOf(a + PasswordField(u))
    ensures paramIndex' == |a + PasswordField(u)| + 1
  {
    setClauses', values', paramIndex' := setClauses, values, paramIndex;
    if u.password.Some? {
      setClauses', values', paramIndex' := Push(setClauses, values, paramIndex, a, (PasswordHashColumn, Str(u.password.value)));
    } else {
      assert a + PasswordField(u) == a;
    }
  }

  /**
   * The SET builder of `updateUser`: name, role (with the default
   * permissions when none are given), permissions, password, each pushed
   * with the next placeholder.
   */
  method BuildUserSets(u: UserPatch) returns (setClauses: seq<SetClause<UserColumn>>, values: seq<SqlValue>, paramIndex: nat)
    ensures setClauses == NumberedFrom(UserAssignments(u), 1)
    ensures values == ValuesOf(UserAssignments(u))
    ensures paramIndex == |setClauses| + 1
  {
    setClauses, values, paramIndex := [], [], 1;
    ghost var a: seq<Assignment<UserColumn>> := [];
    setClauses, values, paramIndex := PushName(setClauses, values, paramIndex, a, u);
    a := a + NameField(u);
    setClauses, values, paramIndex := PushRole(setClauses, values, paramIndex, a, u);
    a := a + RoleField(u);
    setClauses, values, paramIndex := PushPermissions(setClauses, values, paramIndex, a, u);
    a := a + PermissionsField(u);
    setClauses, values, paramIndex := PushPassword(setClauses, values, paramIndex, a, u);
    a := a + PasswordField(u);
    ConcatFour(NameField(u), RoleField(u), PermissionsField(u), PasswordField(u));
  }

  /**
   * `updateUser`: with nothing to assign, the stored user (or null) comes
   * back and no UPDATE is issued; otherwise the statement is issued and
   * the row with the id, if any, becomes the merged row.
   */
  method UpdateUser(db: Tables, userId: string, u: UserPatch) returns (r: Option<User>, issued: Option<UpdateStatement<UserColumn>>)
    modifies db`users
    ensures issued.None? <==> UserAssignments(u) == []
    ensures issued.Some? ==> issued.value == StatementFor(UserAssignments(u), userId)
    ensures r.Some? <==> userId in old(db.users)
    ensures r.Some? ==> db.users == old(db.users)[userId := MergeUser(old(db.users)[userId], u)]
                        && r.value == db.users[userId].user
    ensures r.None? ==> db.users == old(db.users)
  {
    var setClauses, values, paramIndex := BuildUserSets(u);
    if |setClauses| == 0 {
      issued := None;
      if userId in db.users {
        UserAssignmentsMerge(db.users[userId], u);
        db.users := db.users[userId := db.users[userId]];
        r := Some(db.users[userId].user);
      } else {
        r := None;
      }
      return;
    }
    values := values + [Str(userId)];
    var stmt := UpdateStatement(setClauses, paramIndex, values);
    issued := Some(stmt);
    if userId in db.users {
      var row := Execute(db.users[userId], stmt.sets, stmt.values, SetUserColumn);
      ExecuteStatement(db.users[userId], UserAssignments(u), userId, SetUserColumn);
      UserAssignmentsMerge(db.users[userId], u);
      db.users := db.users[userId := row];
      r := Some(row.user);
    } else {
      r := None;
    }
  }

  /**
   * `deleteUser`: true exactly when a row with the id was removed; a
   * database error (`fails`) is rethrown and removes nothing.
   */
  method DeleteUser(db: Tables, userId: string, fails: bool) returns (r: Result<bool, string>)
    modifies db`users
    ensures r.Failure? <==> fails
    ensures r.Success? ==> (r.value <==> userId in old(db.users)) && db.users == old(db.users) - {userId}
    ensures r.Failure? ==> db.users == old(db.users)
  {
    if fails {
      return Failure("Error deleting user");
    }
    r := Success(userId in db.users);
    db.users := db.users - {userId};
  }

  /** Some stored row has this email and this (plaintext) password. */
  predicate Authenticates(users: map<string, UserRow>, email: string, pass: string) {
    exists k :: k in users && users[k].user.email == email && users[k].passwordHash == pass
  }

  /**
   * `login`: the first row whose email and password both match, or null
   * when none does or the query fails.
   */
  method Login(db: Tables, email: string, pass: string, failed: bool) returns (r: Option<User>)
    ensures r.Some? <==> !failed && Authenticates(db.users, email, pass)
    ensures r.Some? ==> r.value.email == email &&
                        exists k :: k in db.users && db.users[k].user == r.value && db.users[k].passwordHash == pass
  {
    if failed || !Authenticates(db.users, email, pass) {
      return None;
    }
    var k :| k in db.users && db.users[k].user.email == email && db.users[k].passwordHash == pass;
    r := Some(db.users[k].user);
  }

  /** A created account can log in with the password it was created with. */
  lemma CreatedUserAuthenticates(users: map<string, UserRow>, user: User, data: NewUser)
    requires user.email == data.email
    ensures Authenticates(users[user.id := UserRow(user, data.password)], data.email, data.password)
  {
    var users' := users[user.id := UserRow(user, data.password)];
    assert users'[user.id].user.email == data.email;
  }

  /** Changing only the password makes the old one stop working for that row and the new one work. */
  lemma PasswordChangeTakesEffect(row: UserRow, newPassword: string)
    ensures MergeUser(row, UserPatch(None, None, None, Some(newPassword))) == row.(passwordHash := newPassword)
  {
  }
}
