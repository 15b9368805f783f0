/**
  Role naming. A role is a named group of users; its name is the only key the role
  registry knows it by. Two roles are global, and every organization and every company
  name gives rise to an Admin and an Observer role whose names are built by formatting
  that name into a fixed template.
 */
module Roles {
  import opened Wrappers

  /** The six kinds of role the provisioning rules mention. */
  datatype Role =
    | Admin
    | Manager
    | OrganizationAdmin(organization: string)
    | OrganizationObserver(organization: string)
    | CompanyAdmin(company: string)
    | CompanyObserver(company: string)

  const OrganizationPrefix: string := "Organization:"
  const CompanyPrefix: string := "Company:"
  const AdminSuffix: string := ":Admin"
  const ObserverSuffix: string := ":Observer"

  /**
    The registry name of a role: the global names, or the formatted scoped templates. No name
    is empty, and a global name is shorter than any filled template, so a global role never
    shares its name with a scoped one.
   */
  function Name(role: Role): (s: string)
    ensures |s| > 0
    ensures role.Admin? || role.Manager? <==> |s| < |CompanyPrefix| + |AdminSuffix|
  {
    match role
    case Admin => "Admin"
    case Manager => "Manager"
    case OrganizationAdmin(o) => OrganizationPrefix + o + AdminSuffix
    case OrganizationObserver(o) => OrganizationPrefix + o + ObserverSuffix
    case CompanyAdmin(c) => CompanyPrefix + c + AdminSuffix
    case CompanyObserver(c) => CompanyPrefix + c + ObserverSuffix
  }

  /** Whether `s` is the prefix `p`, then some text, then the suffix `q`. */
  predicate Framed(s: string, p: string, q: string) {
    |p| + |q| <= |s| && s[..|p|] == p && s[|s| - |q|..] == q
  }

  /** The text a framed `s` holds between its prefix `p` and its suffix `q`. */
  function Inner(s: string, p: string, q: string): string
    requires Framed(s, p, q)
  {
    s[|p|..|s| - |q|]
  }

  /** Reads a registry name back as the role it names, if it names one. */
  function ParseRole(s: string): Option<Role> {
    if s == "Admin" then Some(Admin)
    else if s == "Manager" then Some(Manager)
    else if Framed(s, OrganizationPrefix, AdminSuffix) then
      Some(OrganizationAdmin(Inner(s, OrganizationPrefix, AdminSuffix)))
    else if Framed(s, OrganizationPrefix, ObserverSuffix) then
      Some(OrganizationObserver(Inner(s, OrganizationPrefix, ObserverSuffix)))
    else if Framed(s, CompanyPrefix, AdminSuffix) then
      Some(CompanyAdmin(Inner(s, CompanyPrefix, AdminSuffix)))
    else if Framed(s, CompanyPrefix, ObserverSuffix) then
      Some(CompanyObserver(Inner(s, CompanyPrefix, ObserverSuffix)))
    else None
  }

  /** A filled template is framed by its prefix and suffix and holds the text filled in. */
  lemma FramedParts(p: string, a: string, q: string)
    ensures Framed(p + a + q, p, q) && Inner(p + a + q, p, q) == a
  {
    var s := p + a + q;
    assert s[..|p|] == p;
    assert s[|s| - |q|..] == q;
    assert s[|p|..|s| - |q|] == a;
  }

  /** The first character of a filled template is the first character of its prefix. */
  lemma FirstOfFramed(p: string, a: string, q: string)
    requires |p| > 0
    ensures (p + a + q)[0] == p[0]
  {
  }

  /** The last character of a filled template is the last character of its suffix. */
  lemma LastOfFramed(p: string, a: string, q: string)
    requires |q| > 0
    ensures (p + a + q)[|p + a + q| - 1] == q[|q| - 1]
  {
  }

  /** A text whose first character differs from that of `p` is not framed by `p`. */
  lemma UnframedByPrefix(s: string, p: string, q: string)
    requires |s| > 0 && |p| > 0 && s[0] != p[0]
    ensures !Framed(s, p, q)
  {
    if |p| <= |s| { assert s[..|p|][0] == s[0]; }
  }

  /** A text whose last character differs from that of `q` is not framed by `q`. */
  lemma UnframedBySuffix(s: string, p: string, q: string)
    requires |s| > 0 && |q| > 0 && s[|s| - 1] != q[|q| - 1]
    ensures !Framed(s, p, q)
  {
    if |q| <= |s| { assert s[|s| - |q|..][|q| - 1] == s[|s| - 1]; }
  }

  /** Reading a role's name back gives the role: `ParseRole` inverts `Name`. */
  lemma NameRoundTrip(role: Role)
    ensures ParseRole(Name(role)) == Some(role)
  {
    var s := Name(role);
    match role
    case Admin =>
    case Manager =>
    case OrganizationAdmin(o) =>
      FramedParts(OrganizationPrefix, o, AdminSuffix);
    case OrganizationObserver(o) =>
      FramedParts(OrganizationPrefix, o, ObserverSuffix);
      LastOfFramed(OrganizationPrefix, o, ObserverSuffix);
      UnframedBySuffix(s, OrganizationPrefix, AdminSuffix);
    case CompanyAdmin(c) =>
      FramedParts(CompanyPrefix, c, AdminSuffix);
      FirstOfFramed(CompanyPrefix, c, AdminSuffix);
      UnframedByPrefix(s, OrganizationPrefix, AdminSuffix);
      UnframedByPrefix(s, OrganizationPrefix, ObserverSuffix);
    case CompanyObserver(c) =>
      FramedParts(CompanyPrefix, c, ObserverSuffix);
      FirstOfFramed(CompanyPrefix, c, ObserverSuffix);
      LastOfFramed(CompanyPrefix, c, ObserverSuffix);
      UnframedByPrefix(s, OrganizationPrefix, AdminSuffix);
      UnframedByPrefix(s, OrganizationPrefix, ObserverSuffix);
      UnframedBySuffix(s, CompanyPrefix, AdminSuffix);
  }

  /**
    Role naming is injective: the same role is always reached by the same name, and two
    different roles never share a registry entry.
   */
  lemma NameInjective(r1: Role, r2: Role)
    requires Name(r1) == Name(r2)
    ensures r1 == r2
  {
    NameRoundTrip(r1);
    NameRoundTrip(r2);
  }
}
