/**
  The permission catalog. Every node type has four action permissions whose codenames are
  the action, an underscore and the lower-cased model name ("change_project"). The catalog
  is a static map from a closed set of node-type tags to those codenames.
 */
module Catalog {

  datatype NodeType = OrganizationType | CompanyType | ProjectType | TaskType

  datatype Action = Add | Change | Delete | View

  /** The position of each action in a node type's full permission list. */
  function ActionIndex(a: Action): nat {
    match a
    case Add => 0
    case Change => 1
    case Delete => 2
    case View => 3
  }

  /** The lower-cased model name a node type's permissions are scoped to. */
  function ModelName(t: NodeType): string {
    match t
    case OrganizationType => "organization"
    case CompanyType => "company"
    case ProjectType => "project"
    case TaskType => "task"
  }

  function ActionName(a: Action): string {
    match a
    case Add => "add"
    case Change => "change"
    case Delete => "delete"
    case View => "view"
  }

  /** The codename of action `a` on node type `t`. */
  function Permission(a: Action, t: NodeType): string {
    ActionName(a) + "_" + ModelName(t)
  }

  /** The single permission an Observer role is given on a node of type `t`. */
  function ViewPermission(t: NodeType): string {
    Permission(View, t)
  }

  /** The full permission set of node type `t`, in the order the organization variant lists it. */
  function FullPermissions(t: NodeType): seq<string> {
    [Permission(Add, t), Permission(Change, t), Permission(Delete, t), Permission(View, t)]
  }

  /**
    The full set holds exactly one codename per action, the view permission among them:
    every action's codename is listed, and nothing else is.
   */
  lemma FullPermissionsCatalog(t: NodeType)
    ensures |FullPermissions(t)| == 4
    ensures forall a: Action :: Permission(a, t) == FullPermissions(t)[ActionIndex(a)]
    ensures forall p :: p in FullPermissions(t) ==> exists a: Action :: p == Permission(a, t)
    ensures ViewPermission(t) in FullPermissions(t)
  {
    var r := FullPermissions(t);
    forall p | p in r ensures exists a: Action :: p == Permission(a, t) {
      var i :| 0 <= i < 4 && r[i] == p;
      if i == 0 { assert p == Permission(Add, t); }
      else if i == 1 { assert p == Permission(Change, t); }
      else if i == 2 { assert p == Permission(Delete, t); }
      else { assert p == Permission(View, t); }
    }
  }

  /** Splitting a codename at the underscore that follows its action name recovers the model name. */
  lemma SuffixOfPermission(a: Action, t: NodeType)
    ensures Permission(a, t)[0] == ActionName(a)[0]
    ensures Permission(a, t)[|ActionName(a)| + 1..] == ModelName(t)
  {
    var s := Permission(a, t);
    assert s == ActionName(a) + ("_" + ModelName(t));
  }

  /**
    Permission codenames are injective: a codename determines both its action and the node
    type it applies to, so `change_project` names no permission of any other type.
   */
  lemma PermissionInjective(a1: Action, t1: NodeType, a2: Action, t2: NodeType)
    requires Permission(a1, t1) == Permission(a2, t2)
    ensures a1 == a2 && t1 == t2
  {
    SuffixOfPermission(a1, t1);
    SuffixOfPermission(a2, t2);
    assert ActionName(a1)[0] == ActionName(a2)[0];
    assert a1 == a2;
    assert ModelName(t1) == ModelName(t2);
    assert ModelName(t1)[0] == ModelName(t2)[0];
  }

  /** A codename of one node type's catalog belongs to no other type's catalog. */
  lemma CatalogsDisjoint(p: string, t1: NodeType, t2: NodeType)
    requires p in FullPermissions(t1) && p in FullPermissions(t2)
    ensures t1 == t2
  {
    FullPermissionsCatalog(t1);
    FullPermissionsCatalog(t2);
    var a1: Action :| p == Permission(a1, t1);
    var a2: Action :| p == Permission(a2, t2);
    PermissionInjective(a1, t1, a2, t2);
  }
}
