/**
  The resource tree: Organization, Company, Project and Task, each holding a reference to
  its parent, and the ancestor projections every node type offers. A node's `id` is absent
  until the node is saved for the first time.
 */
module Tree {
  import opened Wrappers
  import opened Catalog

  /** The root of the tree. `isManaged` decides whether the global Manager role is served. */
  datatype Organization = Organization(id: Option<nat>, name: string, isManaged: bool := true)

  datatype Company = Company(id: Option<nat>, name: string, organization: Organization)

  datatype Project = Project(id: Option<nat>, name: string, company: Company)

  datatype Task = Task(id: Option<nat>, name: string, project: Project)

  /** Any node of the tree, tagged by its type. */
  datatype Node =
    | OrganizationNode(org: Organization)
    | CompanyNode(comp: Company)
    | ProjectNode(proj: Project)
    | TaskNode(task: Task)

  /**
    The object a permission is granted on: its model and its primary key. Two nodes of
    different types may share a key and are still different resources.
   */
  datatype ResourceRef = ResourceRef(kind: NodeType, pk: nat)

  function Kind(n: Node): NodeType {
    match n
    case OrganizationNode(_) => OrganizationType
    case CompanyNode(_) => CompanyType
    case ProjectNode(_) => ProjectType
    case TaskNode(_) => TaskType
  }

  function IdOf(n: Node): Option<nat> {
    match n
    case OrganizationNode(o) => o.id
    case CompanyNode(c) => c.id
    case ProjectNode(p) => p.id
    case TaskNode(t) => t.id
  }

  function NameOf(n: Node): string {
    match n
    case OrganizationNode(o) => o.name
    case CompanyNode(c) => c.name
    case ProjectNode(p) => p.name
    case TaskNode(t) => t.name
  }

  /** The primary keys the store hands out on a first save: positive integers. */
  type Key = k: nat | k > 0 witness 1

  /**
    A node counts as saved when its id is truthy: an absent id and an id of 0 both mean
    "not yet created" to the save hook.
   */
  predicate Saved(n: Node) {
    IdOf(n).Some? && IdOf(n).value != 0
  }

  /**
    The same node carrying the id the store assigned on its first save: only the id changes,
    so the parent, the organization's name and managed flag and the company's name stay.
   */
  function WithId(n: Node, id: Key): (r: Node)
    ensures Kind(r) == Kind(n) && NameOf(r) == NameOf(n) && IdOf(r) == Some(id)
    ensures Parent(r) == Parent(n)
    ensures GetOrganization(r).name == GetOrganization(n).name
    ensures GetOrganization(r).isManaged == GetOrganization(n).isManaged
    ensures GetCompany(r).Some? <==> GetCompany(n).Some?
    ensures GetCompany(n).Some? ==> GetCompany(r).value.name == GetCompany(n).value.name
  {
    match n
    case OrganizationNode(o) => OrganizationNode(o.(id := Some(id)))
    case CompanyNode(c) => CompanyNode(c.(id := Some(id)))
    case ProjectNode(p) => ProjectNode(p.(id := Some(id)))
    case TaskNode(t) => TaskNode(t.(id := Some(id)))
  }

  /** The resource a saved node is known by in the grant store. */
  function Ref(n: Node): (r: ResourceRef)
    requires Saved(n)
    ensures r.kind == Kind(n) && Some(r.pk) == IdOf(n)
  {
    ResourceRef(Kind(n), IdOf(n).value)
  }

  /**
    The organization a node belongs to: an organization belongs to itself, and every other
    node to the organization of its parent, so following parent links never changes it.
   */
  function GetOrganization(n: Node): (r: Organization)
    ensures Parent(n).None? ==> n == OrganizationNode(r)
    ensures Parent(n).Some? ==> r == GetOrganization(Parent(n).value)
    decreases Level(Kind(n))
  {
    match n
    case OrganizationNode(o) => o
    case CompanyNode(c) => c.organization
    case ProjectNode(p) => p.company.organization
    case TaskNode(t) => t.project.company.organization
  }

  /**
    The company a subordinate node belongs to: a company is its own company, a project or
    task has the company of its parent, and an organization has none.
   */
  function GetCompany(n: Node): (r: Option<Company>)
    ensures r.None? <==> n.OrganizationNode?
    ensures n.CompanyNode? ==> r == Some(n.comp)
    ensures Parent(n).Some? && !n.CompanyNode? ==> r == GetCompany(Parent(n).value)
    decreases Level(Kind(n))
  {
    match n
    case OrganizationNode(_) => None
    case CompanyNode(c) => Some(c)
    case ProjectNode(p) => Some(p.company)
    case TaskNode(t) => Some(t.project.company)
  }

  /** Depth of a node type below the root. */
  function Level(t: NodeType): nat {
    match t
    case OrganizationType => 0
    case CompanyType => 1
    case ProjectType => 2
    case TaskType => 3
  }

  /** The node a parent link points to: one level up, absent only at the root. */
  function Parent(n: Node): (r: Option<Node>)
    ensures r.None? <==> n.OrganizationNode?
    ensures r.Some? ==> Level(Kind(r.value)) + 1 == Level(Kind(n))
  {
    match n
    case OrganizationNode(_) => None
    case CompanyNode(c) => Some(OrganizationNode(c.organization))
    case ProjectNode(p) => Some(CompanyNode(p.company))
    case TaskNode(t) => Some(ProjectNode(t.project))
  }

  /**
    The chain of a node and its ancestors, found by walking parent links up to the root.
    Its length is fixed by the node type, and each step climbs exactly one level.
   */
  function Ancestors(n: Node): (r: seq<Node>)
    ensures |r| == Level(Kind(n)) + 1
    ensures r[0] == n
    ensures forall i :: 0 <= i < |r| ==> Level(Kind(r[i])) == Level(Kind(n)) - i
    decreases Level(Kind(n))
  {
    match Parent(n)
    case None => [n]
    case Some(p) => [n] + Ancestors(p)
  }

  /** Both projections agree with those of the parent, so walking up never changes them. */
  lemma ProjectionsFollowParent(n: Node)
    requires !n.OrganizationNode?
    ensures GetOrganization(n) == GetOrganization(Parent(n).value)
    ensures !n.CompanyNode? ==> GetCompany(n) == GetCompany(Parent(n).value)
  {
  }

  /**
    The projections are the ancestors of their type on the parent chain: the organization is
    the chain's last node, the company (for a subordinate node) the one just below it, and
    no other node of the chain has either type.
   */
  lemma {:induction false} ProjectionsAreAncestors(n: Node)
    ensures Ancestors(n)[Level(Kind(n))] == OrganizationNode(GetOrganization(n))
    ensures !n.OrganizationNode? ==> Ancestors(n)[Level(Kind(n)) - 1] == CompanyNode(GetCompany(n).value)
    ensures forall i :: 0 <= i < Level(Kind(n)) ==> !Ancestors(n)[i].OrganizationNode?
    ensures forall i :: 0 <= i < |Ancestors(n)| && Ancestors(n)[i].CompanyNode? ==> i == Level(Kind(n)) - 1
    decreases Level(Kind(n))
  {
    match Parent(n)
    case None =>
    case Some(p) =>
      ProjectionsAreAncestors(p);
      ProjectionsFollowParent(n);
      assert Ancestors(n) == [n] + Ancestors(p);
  }
}
