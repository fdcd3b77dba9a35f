/**
 The access-control bootstrap: default permissions, default roles with their grants, and
 the configured super-admin, brought to their required state by loops that only add.
 */
module AccessBootstrap {
  import opened Wrappers

  datatype User = User(username: string, email: string, fullName: string, active: bool, superuser: bool,
      passwordHash: string)

  datatype RoleDefinition = RoleDefinition(code: string, permissionCodes: seq<string>)

  /** The settings and the static definitions one run works from. */
  datatype Config = Config(
    permissionCodes: seq<string>, roles: seq<RoleDefinition>,
    username: Option<string>, email: Option<string>, password: Option<string>, fullName: string)

  /** `str.strip`, `str.lower` and the password hash, with the one law the bootstrap relies on. */
  datatype Library = Library(strip: string -> string, lower: string -> string, hash: string -> string,
      verify: (string, string) -> bool)

  ghost predicate HashVerifies(lib: Library) {
    forall p :: lib.verify(p, lib.hash(p))
  }

  function Normal(lib: Library, s: string): string { lib.lower(lib.strip(s)) }

  /** Lower-casing a normalised name leaves it as it is. */
  ghost predicate NormalIsFixed(lib: Library) {
    forall s :: lib.lower(Normal(lib, s)) == Normal(lib, s)
  }

  ghost predicate Complete(cfg: Config) {
    cfg.username.Some? && cfg.email.Some? && cfg.password.Some?
  }

  /** Every role asks only for defined permissions, and there is a super-admin role. */
  ghost predicate WellFormed(cfg: Config) {
    && (forall d, c :: d in cfg.roles && c in d.permissionCodes ==> c in cfg.permissionCodes)
    && (exists d :: d in cfg.roles && d.code == SUPER_ADMIN)
  }

  const SUPER_ADMIN := "super_admin"

  const COMMITS: nat := 4

  datatype Outcome =
    | ConflictingUsers
    | Done(permissionsCreated: nat, rolesCreated: nat, superAdminCreated: bool, superAdminAssigned: bool)

  /** What the super-admin must look like. */
  ghost predicate Reconciled(lib: Library, cfg: Config, u: User)
    requires Complete(cfg)
  {
    && u.username == lib.lower(lib.strip(cfg.username.value)) && u.email == lib.lower(lib.strip(cfg.email.value))
    && u.fullName == lib.strip(cfg.fullName) && u.active && u.superuser
    && lib.verify(cfg.password.value, u.passwordHash)
  }

  /** No two users share a name or an address up to case. */
  ghost predicate DistinctUsers(lib: Library, users: seq<User>) {
    forall i, j :: 0 <= i < j < |users| ==>
      lib.lower(users[i].username) != lib.lower(users[j].username)
          && lib.lower(users[i].email) != lib.lower(users[j].email)
  }

  ghost predicate NameOf(lib: Library, cfg: Config, u: User)
    requires Complete(cfg)
  {
    lib.lower(u.username) == Normal(lib, cfg.username.value)
  }

  ghost predicate AddressOf(lib: Library, cfg: Config, u: User)
    requires Complete(cfg)
  {
    lib.lower(u.email) == Normal(lib, cfg.email.value)
  }

  /** The configured name and address belong to two different users. */
  ghost predicate Conflict(lib: Library, cfg: Config, users: seq<User>)
    requires Complete(cfg)
  {
    exists i, j ::
        0 <= i < |users| && 0 <= j < |users| && i != j && NameOf(lib, cfg, users[i]) && AddressOf(lib, cfg, users[j])
  }

  /** The field-by-field repair of an existing user. */
  function Repaired(lib: Library, cfg: Config, u: User): (r: User)
    requires cfg.username.Some? && cfg.email.Some? && cfg.password.Some? && HashVerifies(lib)
    ensures Reconciled(lib, cfg, r) && (Reconciled(lib, cfg, u) ==> r == u)
  {
    User(Normal(lib, cfg.username.value), Normal(lib, cfg.email.value), lib.strip(cfg.fullName), true, true,
         if lib.verify(cfg.password.value, u.passwordHash) then u.passwordHash else lib.hash(cfg.password.value))
  }

  /** In a list of distinct users a reconciled one is the one both searches find. */
  lemma ReconciledIsFound(lib: Library, cfg: Config, users: seq<User>, i: nat, j: nat)
    requires Complete(cfg) && NormalIsFixed(lib) && DistinctUsers(lib, users) && i < |users| && j < |users|
    requires Reconciled(lib, cfg, users[i]) && (NameOf(lib, cfg, users[j]) || AddressOf(lib, cfg, users[j]))
    ensures i == j && NameOf(lib, cfg, users[i]) && AddressOf(lib, cfg, users[i])
  {
  }

  lemma ReconciledEndsConflict(lib: Library, cfg: Config, users: seq<User>, i: nat)
    requires Complete(cfg) && NormalIsFixed(lib) && DistinctUsers(lib, users) && i < |users|
    requires Reconciled(lib, cfg, users[i])
    ensures !Conflict(lib, cfg, users)
  {
    hide Reconciled, DistinctUsers;
    forall j | 0 <= j < |users| && (NameOf(lib, cfg, users[j]) || AddressOf(lib, cfg, users[j])) ensures i == j {
      ReconciledIsFound(lib, cfg, users, i, j);
    }
  }

  /** Giving user `k` the configured name and address keeps users distinct when nobody else has them. */
  lemma RenameKeepsDistinct(lib: Library, cfg: Config, users: seq<User>, k: nat, u: User)
    requires Complete(cfg) && NormalIsFixed(lib) && DistinctUsers(lib, users) && k <= |users|
    requires u.username == Normal(lib, cfg.username.value) && u.email == Normal(lib, cfg.email.value)
    requires forall i :: 0 <= i < |users| && i != k ==> !NameOf(lib, cfg, users[i]) && !AddressOf(lib, cfg, users[i])
    ensures DistinctUsers(lib, if k < |users| then users[k := u] else users + [u])
  {
  }

  /** A role that is there with everything its definition asks for. */
  ghost predicate RoleGranted(d: RoleDefinition, permissions: map<string, nat>, roles: map<string, nat>,
      grants: set<(nat, nat)>) {
    && d.code in roles
    && forall c :: c in d.permissionCodes ==> c in permissions && (roles[d.code], permissions[c]) in grants
  }

  /** A grant some definition asks for. */
  ghost predicate GrantNeeded(defs: seq<RoleDefinition>, permissions: map<string, nat>, roles: map<string, nat>,
      g: (nat, nat)) {
    exists d, c :: d in defs && c in d.permissionCodes && d.code in roles && c in permissions
        && g == (roles[d.code], permissions[c])
  }

  ghost function Size(ids: map<string, nat>): nat { |ids| }

  lemma SizeNext(ids: map<string, nat>, code: string, id: nat)
    requires code !in ids
    ensures Size(ids[code := id]) == Size(ids) + 1
  {
  }

  ghost predicate OwnIds(ids: map<string, nat>, bound: nat) {
    && (forall c :: c in ids ==> ids[c] < bound)
    && (forall c, d :: c in ids && d in ids && ids[c] == ids[d] ==> c == d)
  }

  lemma OwnIdsNext(ids: map<string, nat>, bound: nat, code: string)
    requires OwnIds(ids, bound)
    ensures OwnIds(ids[code := bound], bound + 1)
  {
  }

  lemma OwnIdsStay(ids: map<string, nat>, bound: nat, more: nat)
    requires OwnIds(ids, bound) && bound <= more
    ensures OwnIds(ids, more)
  {
  }

  ghost predicate Extends(before: map<string, nat>, after: map<string, nat>) {
    before.Keys <= after.Keys && forall c :: c in before ==> after[c] == before[c]
  }

  lemma RolesStayGranted(defs: seq<RoleDefinition>, permissions: map<string, nat>,
                         roles: map<string, nat>, grants: set<(nat, nat)>,
                         roles': map<string, nat>, grants': set<(nat, nat)>)
    requires Extends(roles, roles') && grants <= grants'
    ensures forall d ::
              d in defs && RoleGranted(d, permissions, roles, grants) ==> RoleGranted(d, permissions, roles', grants')
  {
  }

  lemma GrantsStayNeeded(defs: seq<RoleDefinition>, d: RoleDefinition, permissions: map<string, nat>,
                         roles: map<string, nat>, roles': map<string, nat>, g: (nat, nat))
    requires Extends(roles, roles')
    ensures GrantNeeded(defs, permissions, roles, g) ==> GrantNeeded(defs + [d], permissions, roles', g)
    ensures d.code in roles'
            && (exists c :: c in d.permissionCodes && c in permissions && g == (roles'[d.code], permissions[c]))
            ==> GrantNeeded(defs + [d], permissions, roles', g)
  {
    if GrantNeeded(defs, permissions, roles, g) {
      var e, c :| e in defs && c in e.permissionCodes && e.code in roles && c in permissions
          && g == (roles[e.code], permissions[c]);
      assert e in defs + [d];
    }
    assert d in defs + [d];
  }

  class AccessControl {
    var permissions: map<string, nat>
    var roles: map<string, nat>
    var grants: set<(nat, nat)>
    var users: seq<User>
    var assignments: set<(nat, nat)>
    var nextId: nat

    /** Users differ in name and address, and every permission and role has its own identifier. */
    ghost predicate Valid(lib: Library)
      reads this
    {
      DistinctUsers(lib, users) && OwnIds(permissions, nextId) && OwnIds(roles, nextId)
    }

    ghost predicate HasPermissions(codes: seq<string>)
      reads this
    {
      forall c :: c in codes ==> c in permissions
    }

    ghost predicate HasRole(d: RoleDefinition)
      reads this
    {
      RoleGranted(d, permissions, roles, grants)
    }

    ghost predicate HasRoles(defs: seq<RoleDefinition>)
      reads this
    {
      forall d :: d in defs ==> HasRole(d)
    }

    ghost predicate HasSuperAdmin(lib: Library, cfg: Config)
      reads this
      requires Complete(cfg)
    {
      && SUPER_ADMIN in roles
      && exists u :: 0 <= u < |users| && Reconciled(lib, cfg, users[u]) && (u, roles[SUPER_ADMIN]) in assignments
    }

    /** Everything the bootstrap is for. */
    ghost predicate Converged(lib: Library, cfg: Config)
      reads this
    {
      HasPermissions(cfg.permissionCodes) && HasRoles(cfg.roles) && (Complete(cfg) ==> HasSuperAdmin(lib, cfg))
    }

    twostate predicate OnlyAdds()
      reads this
    {
      && old(permissions.Keys) <= permissions.Keys
      && (forall c :: c in old(permissions) ==> permissions[c] == old(permissions[c]))
      && old(roles.Keys) <= roles.Keys && (forall c :: c in old(roles) ==> roles[c] == old(roles[c]))
      && old(grants) <= grants && old(assignments) <= assignments && |old(users)| <= |users|
    }

    method EnsurePermissions(codes: seq<string>) returns (created: nat)
      modifies this`permissions, this`nextId
      ensures HasPermissions(codes) && created == Size(permissions) - Size(old(permissions))
      ensures permissions.Keys == old(permissions.Keys) + (set c | c in codes)
      ensures old(OwnIds(permissions, nextId)) ==> OwnIds(permissions, nextId)
      ensures nextId >= old(nextId)
      ensures forall c :: c in old(permissions) ==> permissions[c] == old(permissions[c])
      ensures old(HasPermissions(codes)) ==> created == 0 && permissions == old(permissions) && nextId == old(nextId)
    {
      hide OwnIds, Size;
      created := 0;
      for i := 0 to |codes|
        invariant created == Size(permissions) - Size(old(permissions))
        invariant old(OwnIds(permissions, nextId)) ==> OwnIds(permissions, nextId)
        invariant nextId >= old(nextId)
        invariant permissions.Keys == old(permissions.Keys) + (set c | c in codes[..i])
        invariant forall c :: c in old(permissions) ==> permissions[c] == old(permissions[c])
        invariant old(HasPermissions(codes)) ==>
                  created == 0 && permissions == old(permissions) && nextId == old(nextId)
      {
        if codes[i] !in permissions {
          if OwnIds(permissions, nextId) { OwnIdsNext(permissions, nextId, codes[i]); }
          SizeNext(permissions, codes[i], nextId);
          permissions := permissions[codes[i] := nextId];
          nextId := nextId + 1;
          created := created + 1;
        }
        assert codes[..i + 1] == codes[..i] + [codes[i]];
      }
      assert codes[..|codes|] == codes;
    }

    /** One role definition: the role if it is missing, then each missing grant. */
    method EnsureRole(d: RoleDefinition) returns (created: bool)
      requires HasPermissions(d.permissionCodes)
      modifies this`roles, this`grants, this`nextId
      ensures HasRole(d) && created == (d.code !in old(roles))
      ensures Size(roles) == Size(old(roles)) + (if created then 1 else 0)
      ensures old(OwnIds(roles, nextId)) ==> OwnIds(roles, nextId)
      ensures nextId >= old(nextId)
      ensures roles.Keys == old(roles.Keys) + {d.code} && forall c :: c in old(roles) ==> roles[c] == old(roles[c])
      ensures grants == old(grants) + (set c | c in d.permissionCodes :: (roles[d.code], permissions[c]))
      ensures old(HasRole(d)) ==> roles == old(roles) && grants == old(grants) && nextId == old(nextId)
    {
      hide OwnIds, Size;
      created := d.code !in roles;
      if created {
        if OwnIds(roles, nextId) { OwnIdsNext(roles, nextId, d.code); }
        SizeNext(roles, d.code, nextId);
        roles := roles[d.code := nextId];
        nextId := nextId + 1;
      }
      var role := roles[d.code];
      var existing := grants;
      ghost var known := roles;
      for i := 0 to |d.permissionCodes|
        invariant roles == known
        invariant nextId == (if created then old(nextId) + 1 else old(nextId))
        invariant grants == old(grants) + (set c | c in d.permissionCodes[..i] :: (role, permissions[c]))
      {
        var permission := permissions[d.permissionCodes[i]];
        if (role, permission) !in existing {
          grants := grants + {(role, permission)};
        }
        assert d.permissionCodes[..i + 1] == d.permissionCodes[..i] + [d.permissionCodes[i]];
      }
      assert d.permissionCodes[..|d.permissionCodes|] == d.permissionCodes;
    }

    /** A grant some definition asks for. */
    ghost predicate Needed(defs: seq<RoleDefinition>, g: (nat, nat))
      reads this
    {
      GrantNeeded(defs, permissions, roles, g)
    }

    method EnsureRoles(defs: seq<RoleDefinition>) returns (created: nat)
      requires forall d :: d in defs ==> HasPermissions(d.permissionCodes)
      modifies this`roles, this`grants, this`nextId
      ensures HasRoles(defs) && created == Size(roles) - Size(old(roles))
      ensures old(OwnIds(roles, nextId)) ==> OwnIds(roles, nextId)
      ensures nextId >= old(nextId)
      ensures roles.Keys == old(roles.Keys) + (set d | d in defs :: d.code)
      ensures forall c :: c in old(roles) ==> roles[c] == old(roles[c])
      ensures old(grants) <= grants
      ensures forall g :: g in grants - old(grants) ==> Needed(defs, g)
      ensures old(HasRoles(defs)) ==>
                created == 0 && roles == old(roles) && grants == old(grants) && nextId == old(nextId)
    {
      hide RoleGranted, GrantNeeded, OwnIds, Size;
      created := 0;
      for i := 0 to |defs|
        invariant created == Size(roles) - Size(old(roles))
        invariant old(OwnIds(roles, nextId)) ==> OwnIds(roles, nextId)
        invariant nextId >= old(nextId)
        invariant HasRoles(defs[..i])
        invariant roles.Keys == old(roles.Keys) + (set d | d in defs[..i] :: d.code)
        invariant forall c :: c in old(roles) ==> roles[c] == old(roles[c])
        invariant old(grants) <= grants
        invariant forall g :: g in grants - old(grants) ==> Needed(defs[..i], g)
        invariant old(HasRoles(defs)) ==>
                  created == 0 && roles == old(roles) && grants == old(grants) && nextId == old(nextId)
      {
        ghost var rolesBefore, grantsBefore := roles, grants;
        assert forall g :: g in grantsBefore - old(grants) ==> GrantNeeded(defs[..i], permissions, rolesBefore, g);
        var added := EnsureRole(defs[i]);
        if added { created := created + 1; }
        assert defs[..i + 1] == defs[..i] + [defs[i]];
        RolesStayGranted(defs[..i], permissions, rolesBefore, grantsBefore, roles, grants);
        forall g | g in grants - old(grants) ensures Needed(defs[..i + 1], g) {
          GrantsStayNeeded(defs[..i], defs[i], permissions, rolesBefore, roles, g);
          if g in grantsBefore {
            assert g in grantsBefore - old(grants);
          } else {
            var c :| c in defs[i].permissionCodes && g == (roles[defs[i].code], permissions[c]);
          }
        }
      }
      assert defs[..|defs|] == defs;
    }

    /** The user whose lower-cased name is this one. */
    method FindByUsername(lib: Library, name: string) returns (found: Option<nat>)
      ensures found.Some? ==> found.value < |users| && lib.lower(users[found.value].username) == name
      ensures found.None? ==> forall i :: 0 <= i < |users| ==> lib.lower(users[i].username) != name
    {
      for i := 0 to |users|
        invariant forall j :: 0 <= j < i ==> lib.lower(users[j].username) != name
      {
        if lib.lower(users[i].username) == name { return Some(i); }
      }
      return None;
    }

    method FindByEmail(lib: Library, address: string) returns (found: Option<nat>)
      ensures found.Some? ==> found.value < |users| && lib.lower(users[found.value].email) == address
      ensures found.None? ==> forall i :: 0 <= i < |users| ==> lib.lower(users[i].email) != address
    {
      for i := 0 to |users|
        invariant forall j :: 0 <= j < i ==> lib.lower(users[j].email) != address
      {
        if lib.lower(users[i].email) == address { return Some(i); }
      }
      return None;
    }

    /** Bring the configured user to the required state, creating it if there is none. */
    method ReconcileSuperAdmin(lib: Library, cfg: Config) returns (admin: Option<nat>, created: bool)
      requires Complete(cfg) && DistinctUsers(lib, users) && HashVerifies(lib) && NormalIsFixed(lib)
      modifies this`users
      ensures DistinctUsers(lib, users)
      ensures admin.None? <==> old(Conflict(lib, cfg, users))
      ensures admin.None? ==> users == old(users)
      ensures |users| == (if created then |old(users)| + 1 else |old(users)|)
      ensures created ==> admin == Some(|old(users)|)
      ensures admin.Some? ==> admin.value < |users| && Reconciled(lib, cfg, users[admin.value])
      ensures forall i :: 0 <= i < |old(users)| && admin != Some(i) ==> users[i] == old(users[i])
      ensures forall i :: 0 <= i < |old(users)| && old(Reconciled(lib, cfg, users[i])) ==>
                admin == Some(i) && !created && users == old(users)
    {
      var name, address := Normal(lib, cfg.username.value), Normal(lib, cfg.email.value);
      var byName := FindByUsername(lib, name);
      var byEmail := FindByEmail(lib, address);
      created := false;
      if byName.Some? && byEmail.Some? && byName.value != byEmail.value {
        assert NameOf(lib, cfg, users[byName.value]) && AddressOf(lib, cfg, users[byEmail.value]);
        return None, false;
      }
      admin := if byName.Some? then byName else byEmail;
      forall i | 0 <= i < |users| && Reconciled(lib, cfg, users[i]) ensures admin == Some(i) {
        assert NameOf(lib, cfg, users[i]);
        ReconciledIsFound(lib, cfg, users, i, admin.value);
      }
      assert forall i ::
          0 <= i < |users| && admin != Some(i) ==> !NameOf(lib, cfg, users[i]) && !AddressOf(lib, cfg, users[i]);
      if admin.None? {
        admin, created := Some(|users|), true;
        var u := User(name, address, lib.strip(cfg.fullName), true, true, lib.hash(cfg.password.value));
        RenameKeepsDistinct(lib, cfg, users, |users|, u);
        users := users + [u];
      } else {
        var u := users[admin.value];
        if u.username != name { u := u.(username := name); }
        if u.email != address { u := u.(email := address); }
        if u.fullName != lib.strip(cfg.fullName) { u := u.(fullName := lib.strip(cfg.fullName)); }
        if !u.active { u := u.(active := true); }
        if !u.superuser { u := u.(superuser := true); }
        if !lib.verify(cfg.password.value, u.passwordHash) { u := u.(passwordHash := lib.hash(cfg.password.value)); }
        assert u == Repaired(lib, cfg, users[admin.value]);
        RenameKeepsDistinct(lib, cfg, users, admin.value, u);
        users := users[admin.value := u];
      }
    }

    /** Besides the defined permissions and roles and the grants they need, nothing is added. */
    twostate predicate OnlyDefined(cfg: Config)
      reads this
    {
      && permissions.Keys <= old(permissions.Keys) + (set c | c in cfg.permissionCodes)
      && roles.Keys <= old(roles.Keys) + (set d | d in cfg.roles :: d.code)
      && (forall g :: g in grants - old(grants) ==> Needed(cfg.roles, g))
    }

    /** At most one user is touched, who then is the configured super-admin, and at most that user is
        given that role. */
    twostate predicate OnlySuperAdmin(lib: Library, cfg: Config)
      reads this
    {
      && |old(users)| <= |users| <= |old(users)| + 1
      && (users != old(users) || assignments != old(assignments) ==>
            && Complete(cfg) && SUPER_ADMIN in roles
            && exists u: nat :: u < |users| && Reconciled(lib, cfg, users[u])
                 && (forall i :: 0 <= i < |old(users)| && i != u ==> users[i] == old(users)[i])
                 && (|users| > |old(users)| ==> u == |old(users)|)
                 && assignments <= old(assignments) + {(u, roles[SUPER_ADMIN])})
    }

    /** What a finished run reports is what it added. */
    twostate predicate Counted(result: Outcome)
      reads this
    {
      result.Done? ==>
        && result.permissionsCreated == Size(permissions) - Size(old(permissions))
        && result.rolesCreated == Size(roles) - Size(old(roles))
        && (result.superAdminCreated <==> |users| == |old(users)| + 1)
        && (result.superAdminAssigned <==> assignments != old(assignments))
    }

    /** The configured user and its role, stopping before the assignment if asked to. */
    method EnsureSuperAdmin(lib: Library, cfg: Config, stop: bool) returns (result: Option<Outcome>)
      requires Complete(cfg) && SUPER_ADMIN in roles
      requires DistinctUsers(lib, users) && HashVerifies(lib) && NormalIsFixed(lib)
      modifies this`users, this`assignments
      ensures DistinctUsers(lib, users) && OnlySuperAdmin(lib, cfg) && old(assignments) <= assignments
      ensures Conflict(lib, cfg, users) <==> old(Conflict(lib, cfg, users))
      ensures old(Conflict(lib, cfg, users)) ==>
                result == Some(ConflictingUsers) && users == old(users) && assignments == old(assignments)
      ensures !old(Conflict(lib, cfg, users)) ==>
                if stop then result.None?
                else
                  && HasSuperAdmin(lib, cfg)
                  && result == Some(Done(0, 0, |users| == |old(users)| + 1, assignments != old(assignments)))
      ensures old(HasSuperAdmin(lib, cfg)) ==>
                users == old(users) && assignments == old(assignments) && result != Some(ConflictingUsers)
    {
      hide DistinctUsers, Conflict, Reconciled;
      ghost var u := 0;
      if HasSuperAdmin(lib, cfg) {
        u :| 0 <= u < |users| && Reconciled(lib, cfg, users[u]) && (u, roles[SUPER_ADMIN]) in assignments;
      }
      var admin, created := ReconcileSuperAdmin(lib, cfg);
      if admin.None? { return Some(ConflictingUsers); }
      ReconciledEndsConflict(lib, cfg, users, admin.value);
      assert Reconciled(lib, cfg, users[admin.value]);
      if stop { return None; }
      var newlyAssigned := (admin.value, roles[SUPER_ADMIN]) !in assignments;
      if newlyAssigned {
        assignments := assignments + {(admin.value, roles[SUPER_ADMIN])};
      }
      result := Some(Done(0, 0, created, newlyAssigned));
    }

    /** A bootstrap run that stops after this many commits: permissions, roles with their grants,
        the super-admin, its assignment. `None` stands for a run that was stopped. */
    method BootstrapUntil(lib: Library, cfg: Config, cut: nat) returns (result: Option<Outcome>)
      requires Valid(lib) && WellFormed(cfg) && HashVerifies(lib) && NormalIsFixed(lib)
      modifies this
      ensures Valid(lib) && OnlyAdds() && OnlyDefined(cfg) && OnlySuperAdmin(lib, cfg)
      ensures cut >= 1 ==> HasPermissions(cfg.permissionCodes)
      ensures cut >= 2 ==> HasRoles(cfg.roles)
      ensures cut >= COMMITS ==> result.Some?
      ensures result.Some? ==> Counted(result.value)
      ensures result.Some? && result.value.Done? ==> Converged(lib, cfg)
      ensures Complete(cfg) ==> (Conflict(lib, cfg, users) <==> old(Conflict(lib, cfg, users)))
      ensures result.Some? ==>
                cut >= 2 && (result.value.ConflictingUsers? <==> Complete(cfg) && old(Conflict(lib, cfg, users)))
      ensures Complete(cfg) && old(Conflict(lib, cfg, users)) ==> users == old(users) && assignments == old(assignments)
      ensures old(Converged(lib, cfg)) ==>
                unchanged(this) && (result.Some? ==> result.value == Done(0, 0, false, false))
    {
      hide RoleGranted, GrantNeeded, DistinctUsers, Conflict, Reconciled, OwnIds, Size;
      if cut == 0 { return None; }
      var permissionsCreated := EnsurePermissions(cfg.permissionCodes);
      OwnIdsStay(roles, old(nextId), nextId);
      if cut == 1 { return None; }
      ghost var bound := nextId;
      var rolesCreated := EnsureRoles(cfg.roles);
      OwnIdsStay(permissions, bound, nextId);
      if !(cfg.username.Some? && cfg.email.Some? && cfg.password.Some?) {
        return Some(Done(permissionsCreated, rolesCreated, false, false));
      }
      if cut == 2 { return None; }
      var admin := EnsureSuperAdmin(lib, cfg, cut == 3);
      match admin {
        case None => result := None;
        case Some(ConflictingUsers) => result := Some(ConflictingUsers);
        case Some(Done(_, _, created, given)) =>
          result := Some(Done(permissionsCreated, rolesCreated, created, given));
      }
    }

    /** One bootstrap run. It leaves everything in place that was there, reaches the converged
        state unless the configured name and address belong to different users, and from the
        converged state creates and changes nothing. */
    method Bootstrap(lib: Library, cfg: Config) returns (result: Outcome)
      requires Valid(lib) && WellFormed(cfg) && HashVerifies(lib) && NormalIsFixed(lib)
      modifies this
      ensures Valid(lib) && OnlyAdds()
      ensures HasPermissions(cfg.permissionCodes) && HasRoles(cfg.roles)
      ensures forall g :: g in grants - old(grants) ==> Needed(cfg.roles, g)
      ensures OnlyDefined(cfg) && OnlySuperAdmin(lib, cfg) && Counted(result)
      ensures result.Done? ==> Converged(lib, cfg)
      ensures result.ConflictingUsers? <==> Complete(cfg) && old(Conflict(lib, cfg, users))
      ensures result.ConflictingUsers? ==> users == old(users) && assignments == old(assignments)
      ensures old(Converged(lib, cfg)) ==> result == Done(0, 0, false, false) && unchanged(this)
    {
      hide RoleGranted, GrantNeeded, DistinctUsers, Conflict, Reconciled, OwnIds, Size;
      var stopped := BootstrapUntil(lib, cfg, COMMITS);
      result := stopped.value;
    }

    /** Two runs in a row: the second finds nothing to do. */
    method BootstrapTwice(lib: Library, cfg: Config) returns (first: Outcome, second: Outcome)
      requires Valid(lib) && WellFormed(cfg) && HashVerifies(lib) && NormalIsFixed(lib)
      modifies this
      ensures first.Done? ==> second == Done(0, 0, false, false) && Converged(lib, cfg)
    {
      hide RoleGranted, GrantNeeded, DistinctUsers, Conflict, Reconciled, OwnIds, Size;
      first := Bootstrap(lib, cfg);
      second := Bootstrap(lib, cfg);
    }

    /** A run stopped after any commit and a second run converge exactly when one run would have,
        and a third finds nothing to do. */
    method CrashThenBootstrap(lib: Library, cfg: Config, cut: nat) returns (second: Outcome, third: Outcome)
      requires Valid(lib) && WellFormed(cfg) && HashVerifies(lib) && NormalIsFixed(lib)
      modifies this
      ensures Valid(lib) && OnlyAdds() && HasPermissions(cfg.permissionCodes) && HasRoles(cfg.roles)
      ensures second.ConflictingUsers? <==> Complete(cfg) && old(Conflict(lib, cfg, users))
      ensures second.ConflictingUsers? ==> users == old(users) && assignments == old(assignments)
      ensures second.Done? ==> Converged(lib, cfg) && third == Done(0, 0, false, false)
    {
      hide RoleGranted, GrantNeeded, DistinctUsers, Conflict, Reconciled, OwnIds, Size;
      var _ := BootstrapUntil(lib, cfg, cut);
      second := Bootstrap(lib, cfg);
      third := Bootstrap(lib, cfg);
    }
  }
}
