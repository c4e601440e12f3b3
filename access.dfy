/** The role-based access decisions of lib/auth/context.tsx: the table
    `RESOURCE_PERMISSIONS`, `hasRole`, `canAccess`, and the `usePermissions`
    hook's `hasAllRoles` and flags. Every decision depends only on the role
    of the signed-in user, and there is no user it allows anything. */
module Access {
  import opened Util
  import opened Types

  /** `RESOURCE_PERMISSIONS[resource][action]`: the roles allowed, or
      `None` for a resource or an action the table does not name. */
  function AllowedRoles(resource: string, action: string): (r: Option<seq<UserRole>>)
    ensures r.Some? ==> resource in {"projects", "teams", "financials", "users", "inspections", "invoices"}
    ensures r.Some? ==> action in {"view", "edit", "create", "delete", "manage"}
    ensures r.Some? ==> r.value != [] && forall i, j :: 0 <= i < j < |r.value| ==> r.value[i] != r.value[j]
  {
    if resource == "projects" then
      if action == "view" then Some([Management, PmcHead, TeamLeadArchitect, Architect, Engineer, SiteEngineer])
      else if action == "edit" then Some([Management, PmcHead, TeamLeadArchitect])
      else if action == "create" then Some([Management, PmcHead, TeamLeadArchitect])
      else if action == "delete" then Some([Management, Admin])
      else None
    else if resource == "teams" then
      if action == "view" then Some([Management, PmcHead, TeamLeadArchitect])
      else if action == "manage" then Some([Management, PmcHead, TeamLeadArchitect])
      else None
    else if resource == "financials" then
      if action == "view" then Some([Management, PmcHead, Accounts])
      else if action == "edit" then Some([Management, Accounts])
      else None
    else if resource == "users" then
      if action == "view" then Some([Management, PmcHead, Admin])
      else if action == "manage" then Some([Management, Admin])
      else None
    else if resource == "inspections" then
      if action == "view" then Some([Management, PmcHead, TeamLeadArchitect, Architect, Engineer, SiteEngineer])
      else if action == "create" then Some([TeamLeadArchitect, SiteEngineer])
      else if action == "edit" then Some([TeamLeadArchitect, SiteEngineer])
      else None
    else if resource == "invoices" then
      if action == "view" then Some([Management, PmcHead, Accounts])
      else if action == "create" then Some([Accounts, PmcHead])
      else if action == "edit" then Some([Accounts])
      else None
    else None
  }

  /** The same table read role by role: what each role may do. */
  function Grants(role: UserRole, resource: string, action: string): (r: bool)
    ensures r ==> resource in {"projects", "teams", "financials", "users", "inspections", "invoices"}
    ensures r ==> action in {"view", "edit", "create", "delete", "manage"}
  {
    var p := (resource, action);
    match role
    case Management =>
      p in {("projects", "view"), ("projects", "edit"), ("projects", "create"), ("projects", "delete"),
            ("teams", "view"), ("teams", "manage"), ("financials", "view"), ("financials", "edit"),
            ("users", "view"), ("users", "manage"), ("inspections", "view"), ("invoices", "view")}
    case PmcHead =>
      p in {("projects", "view"), ("projects", "edit"), ("projects", "create"),
            ("teams", "view"), ("teams", "manage"), ("financials", "view"), ("users", "view"),
            ("inspections", "view"), ("invoices", "view"), ("invoices", "create")}
    case TeamLeadArchitect =>
      p in {("projects", "view"), ("projects", "edit"), ("projects", "create"),
            ("teams", "view"), ("teams", "manage"),
            ("inspections", "view"), ("inspections", "create"), ("inspections", "edit")}
    case Architect => p in {("projects", "view"), ("inspections", "view")}
    case Engineer => p in {("projects", "view"), ("inspections", "view")}
    case SiteEngineer =>
      p in {("projects", "view"), ("inspections", "view"), ("inspections", "create"), ("inspections", "edit")}
    case Accounts =>
      p in {("financials", "view"), ("financials", "edit"),
            ("invoices", "view"), ("invoices", "create"), ("invoices", "edit")}
    case Admin => p in {("projects", "delete"), ("users", "view"), ("users", "manage")}
  }

  /** The argument of `hasRole`: one role or a list of roles. */
  datatype RoleQuery = OneRole(role: UserRole) | RoleList(roles: seq<UserRole>)

  /** `hasRole(roles)`: a user is signed in and their role is the given
      role, or one of the given list. */
  function HasRole(user: Option<User>, q: RoleQuery): (r: bool)
    ensures user.None? ==> !r
    ensures q.OneRole? ==> (r <==> user.Some? && user.value.role == q.role)
    ensures q.RoleList? ==> (r <==> user.Some? && exists i :: 0 <= i < |q.roles| && q.roles[i] == user.value.role)
  {
    if user.None? then false
    else
      var rolesToCheck := if q.RoleList? then q.roles else [q.role];
      user.value.role in rolesToCheck
  }

  /** `canAccess(resource, action)`: deny with no user and for any pair the
      table does not name; otherwise the user's role must be listed. It
      agrees with the role-by-role reading of the table. */
  function CanAccess(user: Option<User>, resource: string, action: string): (r: bool)
    ensures user.None? ==> !r
    ensures AllowedRoles(resource, action).None? ==> !r
    ensures r <==> user.Some? && AllowedRoles(resource, action).Some? &&
                   user.value.role in AllowedRoles(resource, action).value
    ensures r <==> user.Some? && Grants(user.value.role, resource, action)
  {
    if user.None? then false
    else match AllowedRoles(resource, action)
      case None => false
      case Some(allowed) =>
        TableReadTwoWays(user.value.role, resource, action);
        HasRole(user, RoleList(allowed))
  }

  /** Reading the table by resource and by role gives the same answer. */
  lemma TableReadTwoWays(role: UserRole, resource: string, action: string)
    ensures AllowedRoles(resource, action).Some? && role in AllowedRoles(resource, action).value
            <==> Grants(role, resource, action)
  {
    if AllowedRoles(resource, action).Some? && role in AllowedRoles(resource, action).value {
      TableToGrants(role, resource, action);
    }
    if Grants(role, resource, action) {
      GrantsToTable(role, resource, action);
    }
  }

  /** A role the table lists for a pair is granted that pair. */
  lemma TableToGrants(role: UserRole, resource: string, action: string)
    requires AllowedRoles(resource, action).Some? && role in AllowedRoles(resource, action).value
    ensures Grants(role, resource, action)
  {
  }

  /** A pair granted to a role is listed with that role in the table. */
  lemma GrantsToTable(role: UserRole, resource: string, action: string)
    requires Grants(role, resource, action)
    ensures AllowedRoles(resource, action).Some? && role in AllowedRoles(resource, action).value
  {
  }

  /** Only the six resources of the table grant anything, whatever the
      role. */
  lemma DenyByDefault(user: Option<User>, resource: string, action: string)
    requires resource !in {"projects", "teams", "financials", "users", "inspections", "invoices"}
    ensures !CanAccess(user, resource, action)
  {
  }

  /** `admin` may delete projects and view or manage users, and nothing
      else: it cannot create projects and has no inspection right. */
  lemma AdminRights(user: User, resource: string, action: string)
    requires user.role == Admin
    ensures CanAccess(Some(user), resource, action) <==>
              (resource, action) in {("projects", "delete"), ("users", "view"), ("users", "manage")}
    ensures !CanAccess(Some(user), "projects", "create")
    ensures resource == "inspections" ==> !CanAccess(Some(user), resource, action)
  {
  }

  /** ('projects', 'manage') is not in the table: `canManageProjects` is
      false for every user. */
  lemma NobodyManagesProjects(user: Option<User>)
    ensures !CanAccess(user, "projects", "manage")
  {
  }

  /** `hasAllRoles(roles)`: a user is signed in and every listed role is
      their role (so the empty list holds for any signed-in user). */
  function HasAllRoles(user: Option<User>, roles: seq<UserRole>): (r: bool)
    ensures user.None? ==> !r
    ensures user.Some? ==> (r <==> forall i :: 0 <= i < |roles| ==> roles[i] == user.value.role)
  {
    if user.None? then false else AllAre(roles, user.value.role)
  }

  /** `roles.every(role => role === x)`. */
  function AllAre(roles: seq<UserRole>, x: UserRole): (r: bool)
    ensures r <==> forall i :: 0 <= i < |roles| ==> roles[i] == x
  {
    if roles == [] then true
    else roles[0] == x && AllAre(roles[1..], x)
  }

  /** With a non-empty list, holding all its roles means holding any of
      them: a user has exactly one role. */
  lemma AllRolesImpliesAnyRole(user: Option<User>, roles: seq<UserRole>)
    requires roles != [] && HasAllRoles(user, roles)
    ensures HasRole(user, RoleList(roles)) && HasRole(user, OneRole(roles[0]))
  {
  }

  /** The flags of `usePermissions`. */
  datatype Permissions = Permissions(
    isAdmin: bool, isManagement: bool, isPmcHead: bool, isTeamLead: bool,
    canManageProjects: bool, canViewFinancials: bool, canManageUsers: bool)

  /** `usePermissions()` for the signed-in user, if any. */
  function PermissionsOf(user: Option<User>): (p: Permissions)
    ensures p.isAdmin <==> user.Some? && user.value.role in {Admin, Management}
    ensures p.isManagement ==> p.isAdmin
    ensures !p.canManageProjects
    ensures p.canViewFinancials <==> user.Some? && user.value.role in {Management, PmcHead, Accounts}
    ensures p.canManageUsers <==> user.Some? && user.value.role in {Management, Admin}
    ensures p.canManageUsers ==> p.isAdmin
  {
    var role := if user.Some? then Some(user.value.role) else None;
    Permissions(
      role == Some(Admin) || role == Some(Management), role == Some(Management),
      role == Some(PmcHead), role == Some(TeamLeadArchitect),
      CanAccess(user, "projects", "manage"), CanAccess(user, "financials", "view"),
      CanAccess(user, "users", "manage"))
  }
}
