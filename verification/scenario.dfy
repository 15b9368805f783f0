/**
  The user-permission scenario: two organizations, one of them unmanaged, with their
  companies and projects created in order, users placed in the provisioned roles, and each
  permission check the scenario makes.
 */
module Scenario {
  import opened Wrappers
  import opened Roles
  import opened Catalog
  import opened Tree
  import opened Grants
  import opened Provisioning
  import opened History

  const MooseUsa: Organization := Organization(Some(1), "Moose USA", false)
  const Att: Company := Company(Some(1), "AT&T", MooseUsa)
  const HondaUsa: Company := Company(Some(2), "Honda USA", MooseUsa)
  const NyHonda: Project := Project(Some(1), "NY Honda", HondaUsa)
  const MooseCan: Organization := Organization(Some(2), "Moose CAN")
  const HondaCan: Company := Company(Some(3), "Honda CAN", MooseCan)
  const BcHonda: Project := Project(Some(2), "BC Honda", HondaCan)

  /**
    The set-up's creations in order, each a node without an id (under the parent its earlier
    creation returned) and the id the store hands out; ids are counted per table.
   */
  const Requests: seq<(Node, Key)> := [
    (OrganizationNode(Organization(None, "Moose USA", false)), 1),
    (CompanyNode(Company(None, "AT&T", MooseUsa)), 1),
    (CompanyNode(Company(None, "Honda USA", MooseUsa)), 2),
    (ProjectNode(Project(None, "NY Honda", HondaUsa)), 1),
    (OrganizationNode(Organization(None, "Moose CAN")), 2),
    (CompanyNode(Company(None, "Honda CAN", MooseCan)), 3),
    (ProjectNode(Project(None, "BC Honda", HondaCan)), 2)]

  /** The saved nodes in creation order. */
  const Created: seq<Node> := [
    OrganizationNode(MooseUsa), CompanyNode(Att), CompanyNode(HondaUsa), ProjectNode(NyHonda),
    OrganizationNode(MooseCan), CompanyNode(HondaCan), ProjectNode(BcHonda)]

  /** The store the set-up leaves. */
  function SetUpStore(): Store {
    SaveAll(Empty, Requests).1
  }

  /** Numbering the requests gives the created nodes. */
  lemma RequestsNumbered()
    ensures Numbered(Requests) == Created
  {
    NumberedIds(Requests);
    forall i | 0 <= i < |Created| ensures Numbered(Requests)[i] == Created[i] {
      assert Numbered(Requests)[i] == WithId(Requests[i].0, Requests[i].1);
    }
  }

  /** The set-up's saves return exactly the nodes used as parents further on. */
  lemma SetUpNodes()
    ensures SaveAll(Empty, Requests).0 == Created
  {
    SaveAllIds(Empty, Requests);
    RequestsNumbered();
  }

  /** Every created node has an id, and no two share a resource. */
  lemma CreatedDistinct()
    ensures AllSaved(Created) && DistinctResources(Created)
  {
    var refs := [ResourceRef(OrganizationType, 1), ResourceRef(CompanyType, 1), ResourceRef(CompanyType, 2),
      ResourceRef(ProjectType, 1), ResourceRef(OrganizationType, 2), ResourceRef(CompanyType, 3),
      ResourceRef(ProjectType, 2)];
    assert forall i :: 0 <= i < |Created| ==> Saved(Created[i]) && Ref(Created[i]) == refs[i];
  }

  /** The set-up's store is the history of its seven creations. */
  lemma SetUpIsHistory()
    ensures AllSaved(Created) && DistinctResources(Created)
    ensures SetUpStore() == ProvisionAll(Empty, Created)
  {
    CreatedDistinct();
    SaveAllIsHistory(Empty, Requests);
    SetUpNodes();
  }

  /** The roles the set-up looks up by name exist once the nodes are created. */
  lemma SetUpGroupsExist()
    ensures Name(Admin) in SetUpStore().roles
    ensures Name(Manager) in SetUpStore().roles
    ensures Name(OrganizationAdmin("Moose CAN")) in SetUpStore().roles
    ensures Name(OrganizationObserver("Moose CAN")) in SetUpStore().roles
    ensures Name(CompanyAdmin("Honda USA")) in SetUpStore().roles
    ensures Name(CompanyObserver("Honda USA")) in SetUpStore().roles
  {
    SetUpIsHistory();
    ProvisionAllRoles(Empty, Created);
    assert Name(Admin) in RoleNamesOf(Created[4]);
    assert Name(Manager) in RoleNamesOf(Created[4]);
    assert Name(OrganizationAdmin("Moose CAN")) in RoleNamesOf(Created[4]);
    assert Name(OrganizationObserver("Moose CAN")) in RoleNamesOf(Created[4]);
    assert Name(CompanyAdmin("Honda USA")) in RoleNamesOf(Created[2]);
    assert Name(CompanyObserver("Honda USA")) in RoleNamesOf(Created[2]);
  }

  /**
    A user whose only group is `role` may take an action on a created node exactly when the
    rules let that role take it there.
   */
  lemma CheckOnCreated(i: nat, n: Node, role: Role, a: Action)
    requires i < |Created| && Created[i] == n
    ensures Saved(n)
    ensures HasPerm({Name(role)}, SetUpStore(), Permission(a, Kind(n)), Ref(n)) <==> RoleEntitled(n, role, a)
  {
    SetUpIsHistory();
    SingleRoleCheck(Created, i, role, a);
  }

  // ---------------------------------------------------------------------------------------
  // The users and their checks; each user belongs to exactly one group
  // ---------------------------------------------------------------------------------------

  const Anne: set<string> := {Name(Admin)}
  const Mary: set<string> := {Name(Manager)}
  const MooseCanAdmin: set<string> := {Name(OrganizationAdmin("Moose CAN"))}
  const MooseCanObserver: set<string> := {Name(OrganizationObserver("Moose CAN"))}
  const HondaUsaAdmin: set<string> := {Name(CompanyAdmin("Honda USA"))}
  const HondaUsaObserver: set<string> := {Name(CompanyObserver("Honda USA"))}

  /** The global Admin may take every action on every project, even under the unmanaged organization. */
  lemma AdminChangesEveryProject(a: Action)
    ensures HasPerm(Anne, SetUpStore(), Permission(a, ProjectType), Ref(ProjectNode(BcHonda)))
    ensures HasPerm(Anne, SetUpStore(), Permission(a, ProjectType), Ref(ProjectNode(NyHonda)))
  {
    CheckOnCreated(6, ProjectNode(BcHonda), Admin, a);
    CheckOnCreated(3, ProjectNode(NyHonda), Admin, a);
  }

  /** The organization's Admin may take every action on a project under it. */
  lemma OrganizationAdminChangesChildProject(a: Action)
    ensures HasPerm(MooseCanAdmin, SetUpStore(), Permission(a, ProjectType), Ref(ProjectNode(BcHonda)))
  {
    CheckOnCreated(6, ProjectNode(BcHonda), OrganizationAdmin("Moose CAN"), a);
  }

  /** Manager may take every action on a project under the managed organization. */
  lemma ManagerChangesManagedProject(a: Action)
    ensures HasPerm(Mary, SetUpStore(), Permission(a, ProjectType), Ref(ProjectNode(BcHonda)))
  {
    CheckOnCreated(6, ProjectNode(BcHonda), Manager, a);
  }

  /** Manager may take no action at all on a project under the unmanaged organization. */
  lemma ManagerLocksOutOfUnmanagedProject(a: Action)
    ensures !HasPerm(Mary, SetUpStore(), Permission(a, ProjectType), Ref(ProjectNode(NyHonda)))
  {
    CheckOnCreated(3, ProjectNode(NyHonda), Manager, a);
  }

  /** The organization's Observer may view a project under it and take no other action. */
  lemma OrganizationObserverViewsChildProject(a: Action)
    ensures HasPerm(MooseCanObserver, SetUpStore(), Permission(a, ProjectType), Ref(ProjectNode(BcHonda))) <==> a == View
  {
    assert RoleEntitled(ProjectNode(BcHonda), OrganizationObserver("Moose CAN"), a) <==> a == View;
    CheckOnCreated(6, ProjectNode(BcHonda), OrganizationObserver("Moose CAN"), a);
  }

  /** The Admin of any organization other than Moose USA may take no action on a project of Moose USA. */
  lemma OrganizationAdminLocksOutOfUnrelatedProject(organization: string, a: Action)
    requires organization != "Moose USA"
    ensures !HasPerm({Name(OrganizationAdmin(organization))}, SetUpStore(), Permission(a, ProjectType), Ref(ProjectNode(NyHonda)))
  {
    CheckOnCreated(3, ProjectNode(NyHonda), OrganizationAdmin(organization), a);
  }

  /** The company's Admin may take every action on a project under it. */
  lemma CompanyAdminChangesChildProject(a: Action)
    ensures HasPerm(HondaUsaAdmin, SetUpStore(), Permission(a, ProjectType), Ref(ProjectNode(NyHonda)))
  {
    assert RoleEntitled(ProjectNode(NyHonda), CompanyAdmin("Honda USA"), a);
    CheckOnCreated(3, ProjectNode(NyHonda), CompanyAdmin("Honda USA"), a);
  }

  /** No company's Admin may take any action on an organization. */
  lemma CompanyAdminLocksOutOfParentOrganization(company: string, a: Action)
    ensures !HasPerm({Name(CompanyAdmin(company))}, SetUpStore(), Permission(a, OrganizationType), Ref(OrganizationNode(MooseUsa)))
  {
    assert !RoleEntitled(OrganizationNode(MooseUsa), CompanyAdmin(company), a);
    CheckOnCreated(0, OrganizationNode(MooseUsa), CompanyAdmin(company), a);
  }

  /** The company's Observer may view a project under it and take no other action. */
  lemma CompanyObserverViewsChildProject(a: Action)
    ensures HasPerm(HondaUsaObserver, SetUpStore(), Permission(a, ProjectType), Ref(ProjectNode(NyHonda))) <==> a == View
  {
    assert GetCompany(ProjectNode(NyHonda)).value.name == "Honda USA";
    assert RoleEntitled(ProjectNode(NyHonda), CompanyObserver("Honda USA"), a) <==> a == View;
    CheckOnCreated(3, ProjectNode(NyHonda), CompanyObserver("Honda USA"), a);
  }

  /** The Admin of any company not named Honda CAN may take no action on a project of Honda CAN. */
  lemma CompanyAdminLocksOutOfUnrelatedProject(company: string, a: Action)
    requires company != "Honda CAN"
    ensures !HasPerm({Name(CompanyAdmin(company))}, SetUpStore(), Permission(a, ProjectType), Ref(ProjectNode(BcHonda)))
  {
    assert !RoleEntitled(ProjectNode(BcHonda), CompanyAdmin(company), a);
    CheckOnCreated(6, ProjectNode(BcHonda), CompanyAdmin(company), a);
  }
}
