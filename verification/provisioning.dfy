/**
  The provisioning engine. When a node is first saved, the roles its rules mention are
  fetched or created and the node's permissions are granted to them directly on the node:
  the four-level hierarchy is flattened into per-resource grants at creation time, so a
  permission check is a single lookup.
 */
module Provisioning {
  import opened Wrappers
  import opened Roles
  import opened Catalog
  import opened Tree
  import opened Grants

  /** The roles the rules for node `n` mention: the two global roles and those scoped by its ancestors' names. */
  function RolesOf(n: Node): set<Role> {
    var o := GetOrganization(n).name;
    {Admin, Manager, OrganizationAdmin(o), OrganizationObserver(o)}
    + match GetCompany(n)
      case None => {}
      case Some(c) => {CompanyAdmin(c.name), CompanyObserver(c.name)}
  }

  /** The registry names of `RolesOf(n)`. */
  function RoleNamesOf(n: Node): set<string> {
    set r | r in RolesOf(n) :: Name(r)
  }

  /**
    The rule table: which role is entitled to which permission on node `n`. Admin, the
    organization's Admin and (below the root) the company's Admin get the full catalog of
    the node's type; Manager gets it too when the organization is managed; the organization's
    Observer and the company's Observer get only the view permission.
   */
  predicate Entitled(n: Node, role: string, perm: string) {
    var o := GetOrganization(n);
    var k := Kind(n);
    || (perm in FullPermissions(k) &&
        (|| role == Name(Admin)
         || (o.isManaged && role == Name(Manager))
         || role == Name(OrganizationAdmin(o.name))
         || (GetCompany(n).Some? && role == Name(CompanyAdmin(GetCompany(n).value.name)))))
    || (perm == ViewPermission(k) &&
        (|| role == Name(OrganizationObserver(o.name))
         || (GetCompany(n).Some? && role == Name(CompanyObserver(GetCompany(n).value.name)))))
  }

  /**
    The organization variant: its own four roles, with Manager served only when managed. The
    registry gains exactly the organization's role names and the store exactly the grants the
    rule table gives on the organization.
   */
  function ProvisionOrganization(st: Store, o: Organization): (r: Store)
    requires Saved(OrganizationNode(o))
    ensures r.roles == st.roles + RoleNamesOf(OrganizationNode(o))
    ensures forall g :: g in r.grants <==>
      g in st.grants || (g.resource == Ref(OrganizationNode(o)) && Entitled(OrganizationNode(o), g.role, g.permission))
  {
    var res := Ref(OrganizationNode(o));
    var admin := Name(Admin);
    var manager := Name(Manager);
    var orgAdmin := Name(OrganizationAdmin(o.name));
    var orgObserver := Name(OrganizationObserver(o.name));
    var s0 := GetOrCreateRoles(st, {admin, manager, orgAdmin, orgObserver});
    var holders := [admin, orgAdmin] + (if o.isManaged then [manager] else []);
    OrganizationRoleNames(OrganizationNode(o));
    OrganizationEntitled(o);
    assert forall h :: h in holders <==> h == admin || h == orgAdmin || (o.isManaged && h == manager);
    AssignEachGrants(s0, FullPermissions(OrganizationType), holders, res);
    var s1 := AssignEach(s0, FullPermissions(OrganizationType), holders, res);
    var s2 := AssignPerm(s1, ViewPermission(OrganizationType), orgObserver, res);
    assert s2.grants == s1.grants + {Grant(orgObserver, ViewPermission(OrganizationType), res)};
    s2
  }

  /** The rule table on an organization, where no company is involved. */
  lemma OrganizationEntitled(o: Organization)
    ensures forall role, perm :: Entitled(OrganizationNode(o), role, perm) <==>
      || (perm in FullPermissions(OrganizationType) &&
          (role == Name(Admin) || (o.isManaged && role == Name(Manager)) || role == Name(OrganizationAdmin(o.name))))
      || (perm == ViewPermission(OrganizationType) && role == Name(OrganizationObserver(o.name)))
  {
  }

  /**
    The body of the shared variant with its inputs named: get or create the six roles, grant
    every permission of `full` to the full-permission roles (Manager only when `managed`), then
    grant `view` to both Observer roles. Nothing else is registered or granted.
   */
  function ProvisionScoped(st: Store, res: ResourceRef, full: seq<string>, view: string, managed: bool,
                           admin: string, manager: string, orgAdmin: string, orgObserver: string,
                           compAdmin: string, compObserver: string): (r: Store)
    ensures r.roles == st.roles + {admin, manager, orgAdmin, orgObserver, compAdmin, compObserver}
    ensures forall g :: g in r.grants <==> (g in st.grants || (g.resource == res &&
      (|| (g.permission in full &&
           (g.role == admin || (managed && g.role == manager) || g.role == orgAdmin || g.role == compAdmin))
       || (g.permission == view && (g.role == orgObserver || g.role == compObserver)))))
  {
    var s0 := GetOrCreateRoles(st, {admin, manager, orgAdmin, orgObserver, compAdmin, compObserver});
    var holders := [admin] + (if managed then [manager] else []) + [orgAdmin, compAdmin];
    AssignEachGrants(s0, full, holders, res);
    var s1 := AssignEach(s0, full, holders, res);
    AssignEachGrants(s1, [view], [orgObserver, compObserver], res);
    AssignEach(s1, [view], [orgObserver, compObserver], res)
  }

  /**
    The shared variant for companies, projects and tasks, driven by the node type's catalog.
    The registry gains exactly the node's role names and the store exactly the grants the
    rule table gives on the node.
   */
  function ProvisionShared(st: Store, n: Node): (r: Store)
    requires Saved(n) && !n.OrganizationNode?
    ensures r.roles == st.roles + RoleNamesOf(n)
    ensures forall g :: g in r.grants <==>
      g in st.grants || (g.resource == Ref(n) && Entitled(n, g.role, g.permission))
  {
    SharedRoleNames(n);
    var o := GetOrganization(n);
    var c := GetCompany(n).value;
    ProvisionScoped(st, Ref(n), FullPermissions(Kind(n)), ViewPermission(Kind(n)), o.isManaged,
      Name(Admin), Name(Manager), Name(OrganizationAdmin(o.name)), Name(OrganizationObserver(o.name)),
      Name(CompanyAdmin(c.name)), Name(CompanyObserver(c.name)))
  }

  /** The role names an organization mentions: the global two and its own two. */
  lemma OrganizationRoleNames(n: Node)
    requires n.OrganizationNode?
    ensures RoleNamesOf(n) == {Name(Admin), Name(Manager),
      Name(OrganizationAdmin(n.org.name)), Name(OrganizationObserver(n.org.name))}
  {
    assert RolesOf(n) == {Admin, Manager, OrganizationAdmin(n.org.name), OrganizationObserver(n.org.name)};
  }

  /** The role names a company, project or task mentions: the global two and its ancestors' four. */
  lemma SharedRoleNames(n: Node)
    requires !n.OrganizationNode?
    ensures RoleNamesOf(n) == {Name(Admin), Name(Manager),
      Name(OrganizationAdmin(GetOrganization(n).name)), Name(OrganizationObserver(GetOrganization(n).name)),
      Name(CompanyAdmin(GetCompany(n).value.name)), Name(CompanyObserver(GetCompany(n).value.name))}
  {
    var o := GetOrganization(n).name;
    var c := GetCompany(n).value.name;
    assert RolesOf(n) == {Admin, Manager, OrganizationAdmin(o), OrganizationObserver(o), CompanyAdmin(c), CompanyObserver(c)};
  }

  /**
    The grants the rule table gives on a saved node: one triple per entitled pair of a
    mentioned role and a permission of the node type's catalog, all on the node itself.
   */
  function GrantsFor(n: Node): set<Grant>
    requires Saved(n)
  {
    set role, perm | role in RoleNamesOf(n) && perm in FullPermissions(Kind(n)) && Entitled(n, role, perm)
      :: Grant(role, perm, Ref(n))
  }

  /** Every entitled pair is made of a mentioned role and a catalog permission, so `GrantsFor` misses none. */
  lemma GrantsForRules(n: Node)
    requires Saved(n)
    ensures forall g: Grant :: g in GrantsFor(n) <==> g.resource == Ref(n) && Entitled(n, g.role, g.permission)
  {
    if n.OrganizationNode? { OrganizationRoleNames(n); } else { SharedRoleNames(n); }
    FullPermissionsCatalog(Kind(n));
    forall g: Grant | g.resource == Ref(n) && Entitled(n, g.role, g.permission)
      ensures g in GrantsFor(n)
    {
      assert g.role in RoleNamesOf(n) && g.permission in FullPermissions(Kind(n));
      assert g == Grant(g.role, g.permission, Ref(n));
    }
  }

  /**
    Provisioning of a saved node: the registry gains exactly the roles the node's rules
    mention, and the store gains exactly the grants the rule table gives on the node; every
    role and grant already present stays.
   */
  function Provision(st: Store, n: Node): (r: Store)
    requires Saved(n)
    ensures r.roles == st.roles + RoleNamesOf(n)
    ensures r.grants == st.grants + GrantsFor(n)
  {
    GrantsForRules(n);
    match n
    case OrganizationNode(o) => ProvisionOrganization(st, o)
    case _ => ProvisionShared(st, n)
  }

  /**
    After provisioning, a grant is in the store iff it was there before or it is on the node
    and the rule table entitles its role to its permission.
   */
  lemma ProvisionFollowsRules(st: Store, n: Node)
    requires Saved(n)
    ensures forall g :: g in Provision(st, n).grants <==>
      g in st.grants || (g.resource == Ref(n) && Entitled(n, g.role, g.permission))
  {
    GrantsForRules(n);
  }

  /** No grant in the store is on resource `res` yet: the situation of a freshly saved node. */
  predicate FreshResource(st: Store, res: ResourceRef) {
    forall g :: g in st.grants ==> g.resource != res
  }

  /**
    The create path of `save`: the store assigns the new id, then the node is provisioned.
    Only a node without an id can be created. Taking the id changes neither the roles the
    node's rules mention nor what the rule table entitles them to.
   */
  function CreateAndProvision(st: Store, n: Node, newId: Key): (r: (Node, Store))
    requires !Saved(n)
    ensures Saved(r.0) && IdOf(r.0) == Some(newId)
    ensures Kind(r.0) == Kind(n) && NameOf(r.0) == NameOf(n)
    ensures r.1.roles == st.roles + RoleNamesOf(r.0)
    ensures r.1.grants == st.grants + GrantsFor(r.0)
    ensures RoleNamesOf(r.0) == RoleNamesOf(n)
    ensures forall role, perm :: Entitled(r.0, role, perm) == Entitled(n, role, perm)
  {
    var saved := WithId(n, newId);
    (saved, Provision(st, saved))
  }

  /**
    The `save` hook shared by all four node types: provisioning runs only when the node had
    no id; re-saving an existing node leaves the registry and the grants untouched.
   */
  function Save(st: Store, n: Node, newId: Key): (r: (Node, Store))
    ensures Saved(r.0)
    ensures Saved(n) ==> r == (n, st)
    ensures !Saved(n) ==> r == CreateAndProvision(st, n, newId)
  {
    if Saved(n) then (n, st) else CreateAndProvision(st, n, newId)
  }

  /** Saving the node a save returned, whatever id is offered, changes nothing more. */
  lemma SaveTwiceIsSaveOnce(st: Store, n: Node, id1: Key, id2: Key)
    ensures Save(Save(st, n, id1).1, Save(st, n, id1).0, id2) == Save(st, n, id1)
  {
  }

  // ---------------------------------------------------------------------------------------
  // Properties of one provisioning step
  // ---------------------------------------------------------------------------------------

  /**
    After provisioning, Admin and the organization's Admin hold every permission of the node
    type's full catalog on the node; below the root the company's Admin holds them too.
   */
  lemma AdminsHoldFullCatalog(st: Store, n: Node, p: string)
    requires Saved(n) && p in FullPermissions(Kind(n))
    ensures Grant(Name(Admin), p, Ref(n)) in Provision(st, n).grants
    ensures Grant(Name(OrganizationAdmin(GetOrganization(n).name)), p, Ref(n)) in Provision(st, n).grants
    ensures !n.OrganizationNode? ==>
      Grant(Name(CompanyAdmin(GetCompany(n).value.name)), p, Ref(n)) in Provision(st, n).grants
  {
    ProvisionFollowsRules(st, n);
    var r := Provision(st, n);
    assert Entitled(n, Name(Admin), p);
    assert Entitled(n, Name(OrganizationAdmin(GetOrganization(n).name)), p);
    if !n.OrganizationNode? {
      assert Entitled(n, Name(CompanyAdmin(GetCompany(n).value.name)), p);
    }
  }

  /** The Manager name is the name of no other role the rules mention. */
  lemma ManagerNameDistinct(n: Node)
    ensures Name(Manager) != Name(Admin)
    ensures Name(Manager) != Name(OrganizationAdmin(GetOrganization(n).name))
    ensures Name(Manager) != Name(OrganizationObserver(GetOrganization(n).name))
    ensures GetCompany(n).Some? ==> Name(Manager) != Name(CompanyAdmin(GetCompany(n).value.name))
    ensures GetCompany(n).Some? ==> Name(Manager) != Name(CompanyObserver(GetCompany(n).value.name))
  {
    var o := GetOrganization(n).name;
    if Name(Manager) == Name(OrganizationAdmin(o)) { NameInjective(Manager, OrganizationAdmin(o)); }
    if Name(Manager) == Name(OrganizationObserver(o)) { NameInjective(Manager, OrganizationObserver(o)); }
    if GetCompany(n).Some? {
      var c := GetCompany(n).value.name;
      if Name(Manager) == Name(CompanyAdmin(c)) { NameInjective(Manager, CompanyAdmin(c)); }
      if Name(Manager) == Name(CompanyObserver(c)) { NameInjective(Manager, CompanyObserver(c)); }
    }
  }

  /**
    Manager gains a grant on the node iff the node's organization is managed, and when it is,
    Manager gains the node type's whole catalog. For an unmanaged organization, Manager gains
    nothing on the organization or on any node provisioned under it.
   */
  lemma ManagerIffManaged(st: Store, n: Node)
    requires Saved(n)
    ensures (exists p :: Grant(Name(Manager), p, Ref(n)) in Provision(st, n).grants - st.grants)
      ==> GetOrganization(n).isManaged
    ensures GetOrganization(n).isManaged ==>
      forall p :: p in FullPermissions(Kind(n)) ==> Grant(Name(Manager), p, Ref(n)) in Provision(st, n).grants
  {
    ProvisionFollowsRules(st, n);
    ManagerNameDistinct(n);
    var r := Provision(st, n);
    if exists p :: Grant(Name(Manager), p, Ref(n)) in r.grants - st.grants {
      var p :| Grant(Name(Manager), p, Ref(n)) in r.grants - st.grants;
      assert Entitled(n, Name(Manager), p);
    }
    if GetOrganization(n).isManaged {
      forall p | p in FullPermissions(Kind(n))
        ensures Grant(Name(Manager), p, Ref(n)) in r.grants
      {
        assert Entitled(n, Name(Manager), p);
      }
    }
  }

  /** An Observer role's name is the name of no role that receives the full catalog. */
  lemma ObserverNameDistinct(n: Node, observer: Role)
    requires observer == OrganizationObserver(GetOrganization(n).name)
      || (GetCompany(n).Some? && observer == CompanyObserver(GetCompany(n).value.name))
    ensures Name(observer) != Name(Admin) && Name(observer) != Name(Manager)
    ensures Name(observer) != Name(OrganizationAdmin(GetOrganization(n).name))
    ensures GetCompany(n).Some? ==> Name(observer) != Name(CompanyAdmin(GetCompany(n).value.name))
  {
    var o := GetOrganization(n).name;
    if Name(observer) == Name(Admin) { NameInjective(observer, Admin); }
    if Name(observer) == Name(Manager) { NameInjective(observer, Manager); }
    if Name(observer) == Name(OrganizationAdmin(o)) { NameInjective(observer, OrganizationAdmin(o)); }
    if GetCompany(n).Some? {
      var c := GetCompany(n).value.name;
      if Name(observer) == Name(CompanyAdmin(c)) { NameInjective(observer, CompanyAdmin(c)); }
    }
  }

  /**
    The organization's Observer, and below the root the company's Observer, gain exactly the
    view permission of the node's type on the node: they hold it afterwards, and any permission
    they gain is that one, never the add, change or delete permission.
   */
  lemma ObserversViewOnly(st: Store, n: Node, observer: Role, p: string)
    requires Saved(n)
    requires observer == OrganizationObserver(GetOrganization(n).name)
      || (GetCompany(n).Some? && observer == CompanyObserver(GetCompany(n).value.name))
    ensures Grant(Name(observer), ViewPermission(Kind(n)), Ref(n)) in Provision(st, n).grants
    ensures Grant(Name(observer), p, Ref(n)) in Provision(st, n).grants - st.grants ==> p == ViewPermission(Kind(n))
    ensures FreshResource(st, Ref(n)) ==>
      && Grant(Name(observer), Permission(Add, Kind(n)), Ref(n)) !in Provision(st, n).grants
      && Grant(Name(observer), Permission(Change, Kind(n)), Ref(n)) !in Provision(st, n).grants
      && Grant(Name(observer), Permission(Delete, Kind(n)), Ref(n)) !in Provision(st, n).grants
  {
    ProvisionFollowsRules(st, n);
    ObserverNameDistinct(n, observer);
    var r := Provision(st, n);
    assert Entitled(n, Name(observer), ViewPermission(Kind(n)));
    forall a: Action | a != View
      ensures Grant(Name(observer), Permission(a, Kind(n)), Ref(n)) in r.grants - st.grants ==> false
    {
      if Grant(Name(observer), Permission(a, Kind(n)), Ref(n)) in r.grants - st.grants {
        assert Entitled(n, Name(observer), Permission(a, Kind(n)));
        PermissionInjective(a, Kind(n), View, Kind(n));
      }
    }
  }

  /**
    Frame condition: provisioning `n` adds grants on `n` only, so every check on any other
    resource answers as before, for every user.
   */
  lemma ProvisionOnlyTouchesNode(st: Store, n: Node, m: set<string>, perm: string, res: ResourceRef)
    requires Saved(n) && res != Ref(n)
    ensures HasPerm(m, Provision(st, n), perm, res) <==> HasPerm(m, st, perm, res)
  {
    HasPermLocal(m, st, Provision(st, n), perm, res);
  }

  /**
    Only the roles a node's rules mention are entitled to anything on it, so a role scoped
    by another organization or company name is entitled to nothing there.
   */
  lemma EntitledRolesAreMentioned(n: Node, role: Role, p: string)
    requires Entitled(n, Name(role), p)
    ensures role in RolesOf(n)
    ensures role.OrganizationAdmin? || role.OrganizationObserver? ==> role.organization == GetOrganization(n).name
    ensures role.CompanyAdmin? || role.CompanyObserver? ==>
      !n.OrganizationNode? && role.company == GetCompany(n).value.name
    ensures n.OrganizationNode? ==>
      role in {Admin, Manager, OrganizationAdmin(n.org.name), OrganizationObserver(n.org.name)}
  {
    var o := GetOrganization(n);
    if Name(role) == Name(Admin) { NameInjective(role, Admin); }
    else if Name(role) == Name(Manager) { NameInjective(role, Manager); }
    else if Name(role) == Name(OrganizationAdmin(o.name)) { NameInjective(role, OrganizationAdmin(o.name)); }
    else if Name(role) == Name(OrganizationObserver(o.name)) { NameInjective(role, OrganizationObserver(o.name)); }
    else {
      var c := GetCompany(n).value.name;
      if Name(role) == Name(CompanyAdmin(c)) { NameInjective(role, CompanyAdmin(c)); }
      else { NameInjective(role, CompanyObserver(c)); }
    }
  }

  /**
    The rule table read per role rather than per registry name: which action a role may take
    on node `n`.
   */
  predicate RoleEntitled(n: Node, role: Role, a: Action) {
    var o := GetOrganization(n);
    match role
    case Admin => true
    case Manager => o.isManaged
    case OrganizationAdmin(x) => x == o.name
    case OrganizationObserver(x) => a == View && x == o.name
    case CompanyAdmin(x) => GetCompany(n).Some? && x == GetCompany(n).value.name
    case CompanyObserver(x) => a == View && GetCompany(n).Some? && x == GetCompany(n).value.name
  }

  /** A role whose name the rules entitle to an action's permission may take that action. */
  lemma EntitledGivesRole(n: Node, role: Role, a: Action)
    requires Entitled(n, Name(role), Permission(a, Kind(n)))
    ensures RoleEntitled(n, role, a)
  {
    var p := Permission(a, Kind(n));
    EntitledRolesAreMentioned(n, role, p);
    if role.OrganizationObserver? || role.CompanyObserver? {
      ObserverNameDistinct(n, role);
      PermissionInjective(a, Kind(n), View, Kind(n));
    }
  }

  /**
    The registry-name rule table and the per-role one agree: a role's name is entitled to the
    permission of an action on a node's type exactly when the role may take that action there.
   */
  lemma EntitledByRole(n: Node, role: Role, a: Action)
    ensures Entitled(n, Name(role), Permission(a, Kind(n))) <==> RoleEntitled(n, role, a)
  {
    if Entitled(n, Name(role), Permission(a, Kind(n))) {
      EntitledGivesRole(n, role, a);
    } else {
      FullPermissionsCatalog(Kind(n));
    }
  }

  /**
    Cross-branch isolation: every grant provisioning adds goes to a role the node's rules
    mention. An Admin or Observer role formatted from a different organization or company
    name gains nothing on the node, and an organization's grants go only to Admin, Manager
    and its own Admin and Observer roles.
   */
  lemma CrossBranchIsolation(st: Store, n: Node, role: Role, p: string)
    requires Saved(n)
    requires Grant(Name(role), p, Ref(n)) in Provision(st, n).grants - st.grants
    ensures role in RolesOf(n)
    ensures role.OrganizationAdmin? || role.OrganizationObserver? ==> role.organization == GetOrganization(n).name
    ensures role.CompanyAdmin? || role.CompanyObserver? ==>
      !n.OrganizationNode? && role.company == GetCompany(n).value.name
    ensures n.OrganizationNode? ==>
      role in {Admin, Manager, OrganizationAdmin(n.org.name), OrganizationObserver(n.org.name)}
  {
    ProvisionFollowsRules(st, n);
    EntitledRolesAreMentioned(n, role, p);
  }

  /**
    Upward isolation: provisioning a company, project or task adds no grant on any
    organization, and provisioning an organization gives no company-scoped role anything.
    So a company's Admin never gains a grant on its parent organization.
   */
  lemma NoCompanyGrantOnOrganization(st: Store, n: Node, x: string, p: string, res: ResourceRef)
    requires Saved(n) && res.kind == OrganizationType
    requires Grant(Name(CompanyAdmin(x)), p, res) in Provision(st, n).grants
    ensures Grant(Name(CompanyAdmin(x)), p, res) in st.grants
  {
    var g := Grant(Name(CompanyAdmin(x)), p, res);
    if g !in st.grants {
      CrossBranchIsolation(st, n, CompanyAdmin(x), p);
      assert false;
    }
  }

  /**
    Roles are reused: once a node has been provisioned, provisioning another node under an
    organization of the same name creates at most that node's two company roles, and none at
    all when it is an organization or also shares the company name.
   */
  lemma RolesReused(st: Store, n1: Node, n2: Node)
    requires Saved(n1) && Saved(n2)
    requires GetOrganization(n1).name == GetOrganization(n2).name
    ensures !n2.OrganizationNode? ==>
      Provision(Provision(st, n1), n2).roles - Provision(st, n1).roles
        <= {Name(CompanyAdmin(GetCompany(n2).value.name)), Name(CompanyObserver(GetCompany(n2).value.name))}
    ensures n2.OrganizationNode? || (!n1.OrganizationNode? && !n2.OrganizationNode? &&
        GetCompany(n1).value.name == GetCompany(n2).value.name)
      ==> Provision(Provision(st, n1), n2).roles == Provision(st, n1).roles
  {
    var o := GetOrganization(n1).name;
    var orgNames := {Name(Admin), Name(Manager), Name(OrganizationAdmin(o)), Name(OrganizationObserver(o))};
    assert orgNames <= RoleNamesOf(n1) by {
      if n1.OrganizationNode? { OrganizationRoleNames(n1); } else { SharedRoleNames(n1); }
    }
    if n2.OrganizationNode? {
      OrganizationRoleNames(n2);
    } else {
      SharedRoleNames(n2);
      if !n1.OrganizationNode? && GetCompany(n1).value.name == GetCompany(n2).value.name {
        SharedRoleNames(n1);
      }
    }
  }

  /**
    Provisioning is idempotent: running it again on the same node (a retry) yields the same
    registry and the same grants, with nothing duplicated.
   */
  lemma ProvisionIdempotent(st: Store, n: Node)
    requires Saved(n)
    ensures Provision(Provision(st, n), n) == Provision(st, n)
  {
  }

  /** Grants commute: provisioning two nodes in either order gives the same store. */
  lemma ProvisionCommutes(st: Store, n1: Node, n2: Node)
    requires Saved(n1) && Saved(n2)
    ensures Provision(Provision(st, n1), n2) == Provision(Provision(st, n2), n1)
  {
    UnionSwap(st.roles, RoleNamesOf(n1), RoleNamesOf(n2));
    UnionSwap(st.grants, GrantsFor(n1), GrantsFor(n2));
  }

  /** Adding two sets to a third in either order gives the same union. */
  lemma UnionSwap<T>(s: set<T>, x: set<T>, y: set<T>)
    ensures s + x + y == s + y + x
  {
  }

  /**
    Provisioning keeps the store well formed: each grant it adds names a role it registered
    and a permission of the catalog of the node's own type.
   */
  lemma ProvisionPreservesWellFormed(st: Store, n: Node)
    requires Saved(n) && WellFormed(st)
    ensures WellFormed(Provision(st, n))
  {
    var r := Provision(st, n);
    forall g | g in r.grants
      ensures g.role in r.roles && g.permission in FullPermissions(g.resource.kind)
    {
      if g !in st.grants {
        assert g in GrantsFor(n);
      }
    }
  }

  /**
    Role names are keyed by display name only: an Admin role of one organization also serves
    every other organization with the same name, merging their scopes.
   */
  lemma SharedNameMergesScopes(st: Store, n: Node, other: Organization, p: string)
    requires Saved(n) && other != GetOrganization(n) && other.name == GetOrganization(n).name
    requires p in FullPermissions(Kind(n))
    ensures Grant(Name(OrganizationAdmin(other.name)), p, Ref(n)) in Provision(st, n).grants
  {
    AdminsHoldFullCatalog(st, n, p);
  }
}
