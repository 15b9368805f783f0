# Role provisioning and object permissions for a four-level resource tree

This project models the access-control core of `play/models.py` in Dafny. The core covers:

- a fixed tree of Organization → Company → Project → Task;
- the roles (groups) named after organizations and companies;
- the per-type permission catalog;
- the provisioning hook. Each node's first save runs it once, creating the roles the node
  needs and writing (role, permission, node) grants into an object-permission store.

A permission check on an object succeeds when some group of the user holds exactly that triple.

Modules, one per concept:

- `Roles`: the six kinds of role and their registry names, formatted from the `Organization:{}:Admin`,
  `Organization:{}:Observer`, `Company:{}:Admin` and `Company:{}:Observer` templates. A parser
  reads every role back from its name, so naming is injective.
- `Catalog`: node-type tags, the four actions, and the codenames `<action>_<model>`.
- `Tree`: the four entities and their ids, the parent links, and the `get_organization` /
  `get_company` projections.
  - The ancestor chain is modelled too.
  - A node is known to the grant store by its type and primary key (`ResourceRef`).
  - An id of 0 counts as unsaved, as Python's `not self.id` does.
- `Grants`:
  - the role registry (a set of names) and the grant store (a set of triples);
  - get-or-create and `assign_perm`;
  - the two assignment loops;
  - `HasPerm`: a user, given as the set of role names they belong to, holds a permission on a
    resource iff one of those roles has that exact grant.
- `Provisioning`:
  - `Entitled`, the rule table: which role name gets which permission on a node. It is the
    reference definition.
  - `RoleEntitled`: the same table read per role.
  - the organization variant (`ProvisionOrganization`) and the shared variant for
    companies, projects and tasks (`ProvisionShared`), each written as the loops of the source;
  - `Provision`, which dispatches between them;
  - the `save` hook (`Save`, `CreateAndProvision`).
  - The contracts of the variants prove that the loops write exactly what the rule table gives.
    The lemmas also state what the provisioning rules guarantee:
    - admins hold the full catalog;
    - Manager is gated on `is_managed`;
    - observers only view;
    - the frame condition, cross-branch and upward isolation;
    - role reuse, idempotence, commutation and well-formedness.
- `History`: a sequence of creations. Saving nodes one by one is the same as provisioning
  them in order. From an empty store, the grants on each node are exactly those its own rules
  entitle.
- `Scenario`: the fixture of `play/tests.py`:
  - two organizations, one unmanaged, with their companies and projects;
  - six single-group users;
  - every check the test case makes, generalized over the action (and, for the negative
    checks, over the foreign organization or company name).
  - The check at `play/tests.py:54-55` is the same as the one at `play/tests.py:65-66` and is
    covered by `Scenario.OrganizationAdminChangesChildProject`.

## Model

| member | source | states |
|---|---|---|
| Roles.Name | play/models.py:8-16 | Every role name is non-empty, and the two global names are shorter than any filled template, so they never collide with a scoped name |
| Roles.NameRoundTrip | play/models.py:8-16 | Parsing a role's registry name gives back the role, scope name included: the templates lose nothing |
| Roles.NameInjective | play/models.py:8-16 | Two roles with the same registry name are the same role: global, organization-scoped and company-scoped names never collide, and within a template the formatted name is recovered |
| Catalog.FullPermissionsCatalog | play/models.py:84-85 | A type's full permission list has exactly four entries, one codename per action (add, change, delete, view), nothing else, and contains the view codename |
| Catalog.PermissionInjective | play/models.py:40-44 | A codename determines both its action and its model, so e.g. `change_project` is no permission of any other type |
| Catalog.CatalogsDisjoint | play/models.py:40-43 | No codename is in the catalogs of two different node types |
| Tree.WithId | play/models.py:97-102 | The first save gives the node the id the store assigned and changes nothing else: type, name, parent, the organization's name and managed flag, and the company's name all stay |
| Tree.GetOrganization | play/models.py:121-125 | An organization is its own organization; every other node belongs to the organization of its parent |
| Tree.GetCompany | play/models.py:151-155 | An organization has no company, a company is its own company, and a project or task has the company of its parent |
| Tree.Parent | play/models.py:107-109 | The parent link points exactly one level up and is absent only at the root |
| Tree.Ancestors | play/models.py:181-185 | Walking parent links from a node gives a chain that starts at the node, has one entry per level up to the root, and climbs one level per step |
| Tree.ProjectionsFollowParent | play/models.py:181-185 | A node's organization is its parent's; below the company level its company is the parent's too |
| Tree.ProjectionsAreAncestors | play/models.py:181-185 | `get_organization` is the root of the parent chain and `get_company` is the node just below it; no other node of the chain has either type |
| Grants.GetOrCreateRoles | play/models.py:33-38 | After get-or-create every requested name is registered, every earlier name is kept, only requested names are new, and no grant changes |
| Grants.AssignPerm | play/models.py:47-55 | Granting adds the triple, keeps every earlier grant, adds no other triple and leaves the registry alone, so granting twice is the same as once |
| Grants.AssignToAllGrants | play/models.py:46-51 | One pass of the inner loop adds exactly the triples (holder, perm, resource) for the holders listed and keeps every earlier grant |
| Grants.AssignEachGrants | play/models.py:89-93 | The nested loops add exactly the triples pairing a listed permission with a listed holder on the resource and keep every earlier grant |
| Grants.HasPerm | play/tests.py:54-91 | A check succeeds iff some grant of the store names one of the user's groups, the exact permission and the exact resource; a user in no group is denied everything |
| Grants.HasPermMonotone | play/tests.py:42-45 | Adding groups to a user or grants to the store never takes a permission away |
| Grants.HasPermLocal | play/tests.py:74-75 | A check on a resource depends only on the grants on that resource |
| Provisioning.OrganizationRoleNames | play/models.py:79-82 | An organization mentions exactly Admin, Manager and its own Admin and Observer names |
| Provisioning.SharedRoleNames | play/models.py:31-38 | A company, project or task mentions exactly Admin, Manager and the Admin and Observer names of its organization and of its company |
| Provisioning.ProvisionOrganization | play/models.py:73-95 | The organization variant registers exactly the organization's role names and adds exactly the grants on the organization that the rule table entitles |
| Provisioning.ProvisionScoped | play/models.py:33-55 | The shared body registers its six names and adds every full permission to Admin, its organization's and company's Admin and (when managed) Manager, and the view permission to both Observers, nothing else |
| Provisioning.ProvisionShared | play/models.py:25-55 | The shared variant registers exactly the node's role names and adds exactly the grants on the node that the rule table entitles |
| Provisioning.GrantsForRules | play/models.py:46-55 | A triple is among a node's provisioned grants iff it is on the node and the rule table entitles its role to its permission |
| Provisioning.Provision | play/models.py:25-95 | Provisioning any node adds exactly the node's role names to the registry and exactly its rule-table grants to the store, keeping everything present before |
| Provisioning.ProvisionFollowsRules | play/models.py:31-55 | After provisioning, a grant is present iff it was present before or it is on the node and entitled by the rule table |
| Provisioning.CreateAndProvision | play/models.py:97-104 | Creating a node gives it its id, keeps its type and name, registers its roles and adds its rule-table grants; taking the id changes neither the node's role names nor what the rule table entitles on it |
| Provisioning.Save | play/models.py:127-134 | Save provisions only when the node has no (truthy) id; re-saving a saved node changes neither node nor store |
| Provisioning.SaveTwiceIsSaveOnce | play/models.py:157-164 | Saving again the node a save returned, whatever id is offered, changes nothing |
| Provisioning.AdminsHoldFullCatalog | play/models.py:46-51 | After provisioning, Admin, the organization's Admin and (below the root) the company's Admin hold every permission of the node type's catalog on the node |
| Provisioning.ManagerNameDistinct | play/models.py:33-38 | The Manager name is no other role name the rules mention |
| Provisioning.ManagerIffManaged | play/models.py:92-93 | Manager gains a grant on the node only if the organization is managed, and then gains the whole catalog |
| Provisioning.ObserverNameDistinct | play/models.py:35-38 | An Observer name is none of the names that receive the full catalog |
| Provisioning.ObserversViewOnly | play/models.py:53-55 | The organization's and company's Observers hold the view permission on the node; any grant provisioning gives them is the view permission; on a fresh resource they hold no add, change or delete |
| Provisioning.ProvisionOnlyTouchesNode | play/models.py:89-95 | Provisioning a node leaves every check on every other resource unchanged, for every user |
| Provisioning.EntitledRolesAreMentioned | play/models.py:35-38 | A role entitled to anything on a node is one the node mentions: scoped roles carry the node's own organization or company name; an organization entitles only Admin, Manager and its own two roles |
| Provisioning.EntitledGivesRole | play/models.py:46-55 | A role whose name is entitled to an action's permission may take that action under the per-role table |
| Provisioning.EntitledByRole | play/models.py:44-55 | The registry-name rule table and the per-role table agree in both directions |
| Provisioning.CrossBranchIsolation | play/models.py:35-38 | Every grant provisioning adds goes to a role the node mentions, so an Admin or Observer of another organization or company name gains nothing on the node |
| Provisioning.NoCompanyGrantOnOrganization | play/models.py:79-95 | No provisioning step gives a company's Admin a grant on an organization |
| Provisioning.RolesReused | play/models.py:33-36 | Provisioning a second node under an organization of the same name creates at most its company's two roles, and none for an organization or a node of the same company name |
| Provisioning.ProvisionIdempotent | play/models.py:33-55 | Provisioning the same node twice yields the same registry and grants as once |
| Provisioning.ProvisionCommutes | play/models.py:89-95 | Provisioning two nodes in either order yields the same store |
| Provisioning.ProvisionPreservesWellFormed | play/models.py:40-44 | If every grant names a registered role and a permission of its resource type's catalog, that stays so after provisioning |
| Provisioning.SharedNameMergesScopes | play/models.py:81 | Role names are keyed by display name only: the Admin role of a different organization with the same name holds the full catalog on the node |
| History.SaveAllIds | play/tests.py:16-23 | Each creation in a sequence returns its node carrying exactly the id the store assigned |
| History.SaveAllIsHistory | play/models.py:187-194 | Creating unsaved nodes one by one saves them all and leaves the store that provisioning them in order gives |
| History.ProvisionAllGrants | play/models.py:46-55 | After a history, a grant is present iff it was present at the start or is on some node of the history and entitled by that node's rules |
| History.ProvisionAllRoles | play/models.py:33-38 | After a history, the registry holds exactly the earlier names and the role names of the history's nodes |
| History.GrantsOnNode | play/models.py:53-55 | From an empty store, the grants on a node of the history are exactly those its own rules entitle |
| History.SingleRoleCheck | play/tests.py:54-55 | From an empty store, a user in one group may take an action on a node of the history iff the per-role table allows it |
| History.ManagerServesManagedOnly | play/models.py:48-49 | From an empty store, Manager holds a permission on a node iff its organization is managed and the permission is in the node type's catalog |
| History.ScopedRolesStayInBranch | play/models.py:35-38 | From an empty store, a scoped role holds grants on a node only when its scope name is the node's own organization or company name |
| History.NoCompanyRoleOnOrganizations | play/tests.py:81-82 | From an empty store, no company-scoped role holds any grant on an organization |
| Scenario.SetUpNodes | play/tests.py:16-23 | The set-up's seven saves return exactly the nodes later used as parents |
| Scenario.CreatedDistinct | play/tests.py:21-23 | The seven created nodes are saved and pairwise distinct resources |
| Scenario.SetUpIsHistory | play/tests.py:15-23 | The set-up's store is the history of its seven creations from an empty store |
| Scenario.SetUpGroupsExist | play/tests.py:26-31 | Every group the set-up looks up by name exists after the creations |
| Scenario.CheckOnCreated | play/tests.py:33-51 | A user in a single group may act on a created node iff the per-role table allows that role the action there |
| Scenario.AdminChangesEveryProject | play/tests.py:33-35 | The global Admin may take every action on both projects, even under the unmanaged organization |
| Scenario.OrganizationAdminChangesChildProject | play/tests.py:65-66 | Moose CAN's Admin may take every action, change included, on BC Honda |
| Scenario.ManagerChangesManagedProject | play/tests.py:58-59 | Manager may take every action on BC Honda, under the managed organization |
| Scenario.ManagerLocksOutOfUnmanagedProject | play/tests.py:61-62 | Manager may take no action at all on NY Honda, under the unmanaged organization |
| Scenario.OrganizationObserverViewsChildProject | play/tests.py:68-72 | Moose CAN's Observer may view BC Honda and take no other action on it |
| Scenario.OrganizationAdminLocksOutOfUnrelatedProject | play/tests.py:74-75 | The Admin of any organization other than Moose USA may take no action on NY Honda |
| Scenario.CompanyAdminChangesChildProject | play/tests.py:78-79 | Honda USA's Admin may take every action on NY Honda |
| Scenario.CompanyAdminLocksOutOfParentOrganization | play/tests.py:81-82 | No company's Admin may take any action on Moose USA |
| Scenario.CompanyObserverViewsChildProject | play/tests.py:84-88 | Honda USA's Observer may view NY Honda and take no other action on it |
| Scenario.CompanyAdminLocksOutOfUnrelatedProject | play/tests.py:90-91 | The Admin of any company not named Honda CAN may take no action on BC Honda |

## Left out

- Django's ORM and the database are not modelled. A node's id is a parameter the caller
  supplies (`newId`, a positive key), standing for the primary key the database assigns to a
  node saved without an id.
- Save: a node saved with an explicit id of 0 gets a fresh positive key in the model, because
  `Key` excludes 0. Depending on the database, Django either inserts it with primary key 0,
  and the hook then provisions it under key 0, or refuses the save, and the hook never runs.
- The content-type and permission tables are not modelled (`ContentType.objects.get`,
  `Permission.objects.filter`). The shared variant reads a type's full permission list from
  the database. It is modelled as the static `{add, change, delete, view}_<model>` list, the
  same list the organization variant spells out.
- django-guardian's internals (`assign_perm`, `has_perm`, its caching) are reduced to the set
  of triples and the exact-match check.
- `play/admin.py` is not modelled: admin registration and ordering are presentation only.
  Neither are `created_at`, `max_length` or `__str__`.
- Transaction atomicity and concurrent get-or-create races are not modelled; the model is
  sequential.
- Users and group membership storage are not modelled: a user is the set of role names they
  belong to.
- Django refuses to save a node whose parent has no id ("unsaved related object"). That check
  lives in the framework, not in this code, so it is not modelled: a node's parent is a value.
  A broken parent chain cannot be represented.
- The code validates no names, so an empty name is accepted and formatted into role names like
  any other. The model follows the code and accepts an empty name.
- The code gives `Organization` no `get_organization` or `get_company`: its variant uses
  `self.name` directly. In the model, the organization of an organization is the organization
  itself. No behaviour depends on it beyond this naming.
- `RolesMixin.get_organization` / `get_company` raising `NotImplementedError` is not
  modelled. Every node type of the closed `Node` datatype provides both.
- The shared variant looks up the content type by model name only. Models of the same name
  in other applications are therefore not modelled.
