/**
  A history of creations: the nodes of a tree saved one after another, each provisioned on
  its first save. Since every provisioning step only adds grants on its own node, the grants
  on any node after the whole history are exactly those its own rules entitle.
 */
module History {
  import opened Roles
  import opened Catalog
  import opened Tree
  import opened Grants
  import opened Provisioning

  predicate AllSaved(nodes: seq<Node>) {
    forall i :: 0 <= i < |nodes| ==> Saved(nodes[i])
  }

  /** No two nodes of the history share a resource: the store gives every new row a fresh key. */
  predicate DistinctResources(nodes: seq<Node>)
    requires AllSaved(nodes)
  {
    forall i, j :: 0 <= i < |nodes| && 0 <= j < |nodes| && Ref(nodes[i]) == Ref(nodes[j]) ==> i == j
  }

  /** Provisions the nodes in order of creation. */
  function ProvisionAll(st: Store, nodes: seq<Node>): Store
    requires AllSaved(nodes)
    decreases |nodes|
  {
    if nodes == [] then st
    else Provision(ProvisionAll(st, nodes[..|nodes| - 1]), nodes[|nodes| - 1])
  }

  /**
    A sequence of creations: each request is an unsaved node and the id the store hands out
    for it; the results are the saved nodes, in order, and the final store.
   */
  function SaveAll(st: Store, requests: seq<(Node, Key)>): (r: (seq<Node>, Store))
    ensures |r.0| == |requests|
    decreases |requests|
  {
    if requests == [] then ([], st)
    else
      var before := SaveAll(st, requests[..|requests| - 1]);
      var last := Save(before.1, requests[|requests| - 1].0, requests[|requests| - 1].1);
      (before.0 + [last.0], last.1)
  }

  /** Saving a node that has no id yet saves it under the requested id and provisions it. */
  lemma SaveUnsaved(st: Store, n: Node, newId: Key)
    requires !Saved(n)
    ensures Save(st, n, newId) == (WithId(n, newId), Provision(st, WithId(n, newId)))
  {
  }

  /** The last of a sequence of creations saves its node on the store the others left. */
  lemma SaveAllLast(st: Store, requests: seq<(Node, Key)>)
    requires requests != [] && !Saved(requests[|requests| - 1].0)
    ensures var before := SaveAll(st, requests[..|requests| - 1]);
      var saved := WithId(requests[|requests| - 1].0, requests[|requests| - 1].1);
      SaveAll(st, requests) == (before.0 + [saved], Provision(before.1, saved))
  {
    var last := requests[|requests| - 1];
    SaveUnsaved(SaveAll(st, requests[..|requests| - 1]).1, last.0, last.1);
  }

  /** The nodes of the requests, each carrying the id its request names. */
  function Numbered(requests: seq<(Node, Key)>): (r: seq<Node>)
    ensures |r| == |requests|
    decreases |requests|
  {
    if requests == [] then []
    else Numbered(requests[..|requests| - 1]) + [WithId(requests[|requests| - 1].0, requests[|requests| - 1].1)]
  }

  /** The i-th numbered node is the i-th request's node under its id. */
  lemma {:induction false} NumberedIds(requests: seq<(Node, Key)>)
    ensures forall i :: 0 <= i < |requests| ==> Numbered(requests)[i] == WithId(requests[i].0, requests[i].1)
    decreases |requests|
  {
    if requests != [] {
      var init := requests[..|requests| - 1];
      NumberedIds(init);
      forall i | 0 <= i < |init|
        ensures Numbered(requests)[i] == WithId(requests[i].0, requests[i].1)
      {
        assert requests[i] == init[i];
      }
    }
  }

  /** Each request's node comes back with the id the request names. */
  lemma {:induction false} SaveAllIds(st: Store, requests: seq<(Node, Key)>)
    requires forall i :: 0 <= i < |requests| ==> !Saved(requests[i].0)
    ensures SaveAll(st, requests).0 == Numbered(requests)
    ensures forall i :: 0 <= i < |requests| ==> SaveAll(st, requests).0[i] == WithId(requests[i].0, requests[i].1)
    decreases |requests|
  {
    if requests != [] {
      SaveAllIds(st, requests[..|requests| - 1]);
      SaveAllLast(st, requests);
    }
    NumberedIds(requests);
  }

  /**
    Creating unsaved nodes one by one leaves the store that provisioning the saved nodes in
    the same order gives.
   */
  lemma {:induction false} SaveAllIsHistory(st: Store, requests: seq<(Node, Key)>)
    requires forall i :: 0 <= i < |requests| ==> !Saved(requests[i].0)
    ensures AllSaved(SaveAll(st, requests).0)
    ensures SaveAll(st, requests).1 == ProvisionAll(st, SaveAll(st, requests).0)
    decreases |requests|
  {
    if requests != [] {
      var init := requests[..|requests| - 1];
      var last := requests[|requests| - 1];
      SaveAllIsHistory(st, init);
      var before := SaveAll(st, init);
      var saved := WithId(last.0, last.1);
      SaveAllLast(st, requests);
      var done := before.0 + [saved];
      assert done[..|done| - 1] == before.0;
      assert AllSaved(done);
    }
  }

  /**
    After a history, a grant is in the store iff it was there at the start or some node of
    the history is its resource and that node's rules entitle its role to its permission.
   */
  lemma {:induction false} ProvisionAllGrants(st: Store, nodes: seq<Node>)
    requires AllSaved(nodes)
    ensures forall g :: g in ProvisionAll(st, nodes).grants <==>
      g in st.grants ||
      exists i :: 0 <= i < |nodes| && g.resource == Ref(nodes[i]) && Entitled(nodes[i], g.role, g.permission)
    decreases |nodes|
  {
    if nodes != [] {
      var init := nodes[..|nodes| - 1];
      var last := nodes[|nodes| - 1];
      ProvisionAllGrants(st, init);
      ProvisionFollowsRules(ProvisionAll(st, init), last);
      forall g ensures g in ProvisionAll(st, nodes).grants <==>
        g in st.grants ||
        exists i :: 0 <= i < |nodes| && g.resource == Ref(nodes[i]) && Entitled(nodes[i], g.role, g.permission)
      {
        if exists i :: 0 <= i < |nodes| && g.resource == Ref(nodes[i]) && Entitled(nodes[i], g.role, g.permission) {
          var i :| 0 <= i < |nodes| && g.resource == Ref(nodes[i]) && Entitled(nodes[i], g.role, g.permission);
          if i < |nodes| - 1 {
            assert init[i] == nodes[i];
          }
        }
      }
    }
  }

  /** After a history, the registry holds the names it held before and every role of every node. */
  lemma {:induction false} ProvisionAllRoles(st: Store, nodes: seq<Node>)
    requires AllSaved(nodes)
    ensures forall name :: name in ProvisionAll(st, nodes).roles <==>
      name in st.roles || exists i :: 0 <= i < |nodes| && name in RoleNamesOf(nodes[i])
    decreases |nodes|
  {
    if nodes != [] {
      var init := nodes[..|nodes| - 1];
      ProvisionAllRoles(st, init);
      assert ProvisionAll(st, nodes).roles == ProvisionAll(st, init).roles + RoleNamesOf(nodes[|nodes| - 1]);
      forall name ensures name in ProvisionAll(st, nodes).roles <==>
        name in st.roles || exists i :: 0 <= i < |nodes| && name in RoleNamesOf(nodes[i])
      {
        if exists i :: 0 <= i < |nodes| && name in RoleNamesOf(nodes[i]) {
          var i :| 0 <= i < |nodes| && name in RoleNamesOf(nodes[i]);
          if i < |nodes| - 1 {
            assert init[i] == nodes[i];
          }
        }
      }
    }
  }

  /**
    Starting from an empty store, the grants on the resource of a node of the history are
    exactly the ones that node's rules entitle.
   */
  lemma GrantsOnNode(nodes: seq<Node>, i: nat, role: string, perm: string)
    requires AllSaved(nodes) && DistinctResources(nodes) && i < |nodes|
    ensures Grant(role, perm, Ref(nodes[i])) in ProvisionAll(Empty, nodes).grants <==> Entitled(nodes[i], role, perm)
  {
    ProvisionAllGrants(Empty, nodes);
    var g := Grant(role, perm, Ref(nodes[i]));
    if g in ProvisionAll(Empty, nodes).grants {
      var j :| 0 <= j < |nodes| && g.resource == Ref(nodes[j]) && Entitled(nodes[j], g.role, g.permission);
      assert i == j;
    }
  }

  /**
    Starting from an empty store, a user whose only group is `role` may take an action on a
    node of the history exactly when the per-role rule table lets that role take it there.
   */
  lemma SingleRoleCheck(nodes: seq<Node>, i: nat, role: Role, a: Action)
    requires AllSaved(nodes) && DistinctResources(nodes) && i < |nodes|
    ensures HasPerm({Name(role)}, ProvisionAll(Empty, nodes), Permission(a, Kind(nodes[i])), Ref(nodes[i])) <==>
      RoleEntitled(nodes[i], role, a)
  {
    var p := Permission(a, Kind(nodes[i]));
    GrantsOnNode(nodes, i, Name(role), p);
    EntitledByRole(nodes[i], role, a);
    HasPermSingle(Name(role), ProvisionAll(Empty, nodes), p, Ref(nodes[i]));
  }

  /**
    Starting from an empty store, Manager holds a permission on a node of the history iff the
    node's organization is managed and the permission is in the node type's catalog: under an
    unmanaged organization Manager holds nothing at all.
   */
  lemma ManagerServesManagedOnly(nodes: seq<Node>, i: nat, perm: string)
    requires AllSaved(nodes) && DistinctResources(nodes) && i < |nodes|
    ensures Grant(Name(Manager), perm, Ref(nodes[i])) in ProvisionAll(Empty, nodes).grants <==>
      GetOrganization(nodes[i]).isManaged && perm in FullPermissions(Kind(nodes[i]))
  {
    GrantsOnNode(nodes, i, Name(Manager), perm);
    ManagerNameDistinct(nodes[i]);
  }

  /**
    Starting from an empty store, a role scoped by an organization or company name holds a
    grant on a node of the history only when that name is the node's own organization's or
    company's name.
   */
  lemma ScopedRolesStayInBranch(nodes: seq<Node>, i: nat, role: Role, perm: string)
    requires AllSaved(nodes) && DistinctResources(nodes) && i < |nodes|
    requires Grant(Name(role), perm, Ref(nodes[i])) in ProvisionAll(Empty, nodes).grants
    ensures role.OrganizationAdmin? || role.OrganizationObserver? ==> role.organization == GetOrganization(nodes[i]).name
    ensures role.CompanyAdmin? || role.CompanyObserver? ==>
      !nodes[i].OrganizationNode? && role.company == GetCompany(nodes[i]).value.name
  {
    GrantsOnNode(nodes, i, Name(role), perm);
    EntitledRolesAreMentioned(nodes[i], role, perm);
  }

  /**
    Upward isolation over a whole history started from an empty store: no company-scoped
    role ever holds a grant on an organization.
   */
  lemma NoCompanyRoleOnOrganizations(nodes: seq<Node>, g: Grant, x: string)
    requires AllSaved(nodes)
    requires g in ProvisionAll(Empty, nodes).grants && g.resource.kind == OrganizationType
    ensures g.role != Name(CompanyAdmin(x)) && g.role != Name(CompanyObserver(x))
  {
    ProvisionAllGrants(Empty, nodes);
    var i :| 0 <= i < |nodes| && g.resource == Ref(nodes[i]) && Entitled(nodes[i], g.role, g.permission);
    if g.role == Name(CompanyAdmin(x)) {
      EntitledRolesAreMentioned(nodes[i], CompanyAdmin(x), g.permission);
    }
    if g.role == Name(CompanyObserver(x)) {
      EntitledRolesAreMentioned(nodes[i], CompanyObserver(x), g.permission);
    }
  }
}
