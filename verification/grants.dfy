/**
  The role registry and the object-permission grant store. The registry is the set of role
  names created so far; the store is the set of (role, permission, resource) triples. Both
  are sets, so creating a role or granting a permission a second time changes nothing.
 */
module Grants {
  import opened Catalog
  import opened Tree

  datatype Grant = Grant(role: string, permission: string, resource: ResourceRef)

  datatype Store = Store(roles: set<string>, grants: set<Grant>)

  const Empty: Store := Store({}, {})

  /** Every grant names a registered role and a permission from its resource type's catalog. */
  ghost predicate WellFormed(st: Store) {
    forall g :: g in st.grants ==>
      g.role in st.roles && g.permission in FullPermissions(g.resource.kind)
  }

  /** Get-or-create of each named role: absent names are added, present ones are reused. */
  function GetOrCreateRoles(st: Store, names: set<string>): (r: Store)
    ensures names <= r.roles && st.roles <= r.roles
    ensures forall x :: x in r.roles && x !in st.roles ==> x in names
    ensures r.grants == st.grants
  {
    st.(roles := st.roles + names)
  }

  /**
    Grants one permission on one resource to one existing role: afterwards the role holds it,
    every earlier grant stays, no other grant appears and the registry is untouched.
   */
  function AssignPerm(st: Store, perm: string, role: string, res: ResourceRef): (r: Store)
    requires role in st.roles
    ensures r.roles == st.roles
    ensures Grant(role, perm, res) in r.grants && st.grants <= r.grants
    ensures r.grants - st.grants <= {Grant(role, perm, res)}
  {
    st.(grants := st.grants + {Grant(role, perm, res)})
  }

  /** Grants `perm` on `res` to each role of `holders` in turn. */
  function AssignToAll(st: Store, perm: string, holders: seq<string>, res: ResourceRef): (r: Store)
    requires forall h :: h in holders ==> h in st.roles
    ensures r.roles == st.roles
    decreases |holders|
  {
    if holders == [] then st
    else AssignToAll(AssignPerm(st, perm, holders[0], res), perm, holders[1..], res)
  }

  /** For each permission of `perms`, grants it on `res` to every role of `holders`. */
  function AssignEach(st: Store, perms: seq<string>, holders: seq<string>, res: ResourceRef): (r: Store)
    requires forall h :: h in holders ==> h in st.roles
    ensures r.roles == st.roles
    decreases |perms|
  {
    if perms == [] then st
    else AssignEach(AssignToAll(st, perms[0], holders, res), perms[1..], holders, res)
  }

  /** The inner loop adds exactly `perm` on `res` for each holder. */
  lemma {:induction false} AssignToAllGrants(st: Store, perm: string, holders: seq<string>, res: ResourceRef)
    requires forall h :: h in holders ==> h in st.roles
    ensures forall g :: g in AssignToAll(st, perm, holders, res).grants <==>
      g in st.grants || (g.resource == res && g.permission == perm && g.role in holders)
    decreases |holders|
  {
    if holders != [] {
      AssignToAllGrants(AssignPerm(st, perm, holders[0], res), perm, holders[1..], res);
      assert forall h :: h in holders <==> h == holders[0] || h in holders[1..];
    }
  }

  /** The outer loop adds every (holder, permission) pair on `res`. */
  lemma {:induction false} AssignEachGrants(st: Store, perms: seq<string>, holders: seq<string>, res: ResourceRef)
    requires forall h :: h in holders ==> h in st.roles
    ensures forall g :: g in AssignEach(st, perms, holders, res).grants <==>
      g in st.grants || (g.resource == res && g.permission in perms && g.role in holders)
    decreases |perms|
  {
    if perms != [] {
      AssignToAllGrants(st, perms[0], holders, res);
      AssignEachGrants(AssignToAll(st, perms[0], holders, res), perms[1..], holders, res);
      assert forall p :: p in perms <==> p == perms[0] || p in perms[1..];
    }
  }

  /**
    A user holds `perm` on `res` iff one of the roles the user is a member of has been granted
    exactly that permission on exactly that resource: some grant of the store matches the
    permission and the resource and names one of the user's groups. A user in no group holds
    nothing.
   */
  function HasPerm(memberships: set<string>, st: Store, perm: string, res: ResourceRef): (b: bool)
    ensures b <==> exists g :: g in st.grants && g.role in memberships && g.permission == perm && g.resource == res
    ensures memberships == {} ==> !b
  {
    exists role :: role in memberships && Grant(role, perm, res) in st.grants
  }

  /** Adding grants never takes a permission away, and adding roles to a user never does either. */
  lemma HasPermMonotone(m1: set<string>, st1: Store, m2: set<string>, st2: Store, perm: string, res: ResourceRef)
    requires m1 <= m2 && st1.grants <= st2.grants
    requires HasPerm(m1, st1, perm, res)
    ensures HasPerm(m2, st2, perm, res)
  {
    var role :| role in m1 && Grant(role, perm, res) in st1.grants;
    assert role in m2 && Grant(role, perm, res) in st2.grants;
  }

  /** A check on `res` only depends on the grants whose resource is `res`. */
  lemma HasPermLocal(m: set<string>, st1: Store, st2: Store, perm: string, res: ResourceRef)
    requires forall g: Grant :: g.resource == res ==> (g in st1.grants <==> g in st2.grants)
    ensures HasPerm(m, st1, perm, res) <==> HasPerm(m, st2, perm, res)
  {
    if HasPerm(m, st1, perm, res) {
      var role :| role in m && Grant(role, perm, res) in st1.grants;
      assert Grant(role, perm, res).resource == res;
    }
    if HasPerm(m, st2, perm, res) {
      var role :| role in m && Grant(role, perm, res) in st2.grants;
      assert Grant(role, perm, res).resource == res;
    }
  }

  /** A user in a single group passes a check exactly when that group holds the grant. */
  lemma HasPermSingle(role: string, st: Store, perm: string, res: ResourceRef)
    ensures HasPerm({role}, st, perm, res) <==> Grant(role, perm, res) in st.grants
  {
  }
}
