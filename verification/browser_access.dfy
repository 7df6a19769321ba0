/** The browser's guess at what a session may do, against what the server's matcher would say about the
    same role templates. */
module BrowserAccess {
  import opened Text
  import opened Permissions

  const ROLE_PERMISSIONS: map<string, seq<string>> := map[
    "admin" := ["*"],
    "org_admin" := ["org:*", "app:*", "user:*", "ticket:create", "ticket:read", "ticket:update", "ticket:delete",
                    "ticket:assign", "message:create", "department:manage", "customer:manage", "analysis:read",
                      "stats:read"],
    "app_admin" := ["app:*", "endpoint:*"],
    "developer" := ["endpoint:read", "endpoint:write"],
    "viewer" := ["*:read"],
    "agent" := ["ticket:create", "ticket:read", "ticket:update", "ticket:assign", "message:create", "customer:manage",
                "analysis:read"],
    "customer" := ["ticket:create", "ticket:read_own", "ticket:reopen_own", "message:create"]]

  /** names.some(role => (table[role] ?? []).some(granted => match)) */
  predicate SomeRoleMatches(table: map<string, seq<string>>, names: seq<string>, permission: string) {
    exists n :: n in names && n in table && exists g :: g in table[n] && MatchesInBrowser(g, permission)
  }

  predicate AllUnknown(table: map<string, seq<string>>, names: seq<string>) {
    forall n :: n in names ==> n !in table
  }

  function LowerAll(roles: seq<string>): (names: seq<string>)
    ensures |names| == |roles|
  {
    seq(|roles|, i requires 0 <= i < |roles| => Lower(roles[i]))
  }

  predicate CanIn(table: map<string, seq<string>>, roles: seq<string>, permission: string) {
    var names := LowerAll(roles);
    names == [] || AllUnknown(table, names) || SomeRoleMatches(table, names, permission)
  }

  predicate Can(roles: seq<string>, permission: string) {
    CanIn(ROLE_PERMISSIONS, roles, permission)
  }

  predicate CanAnyIn(table: map<string, seq<string>>, roles: seq<string>, permissions: seq<string>) {
    exists p :: p in permissions && CanIn(table, roles, p)
  }

  /** The grants a token with these role names would hold if the templates were what the server stores. */
  function Grants(table: map<string, seq<string>>, names: seq<string>): (all: seq<string>)
    ensures forall g :: g in all <==> exists n :: n in names && n in table && g in table[n]
  {
    if names == [] then [] else (if names[0] in table then table[names[0]] else []) + Grants(table, names[1..])
  }

  /** Whenever at least one role name is known, the browser says yes exactly when the server's matcher grants the
      permission to one of the templates' grants; with none known it always says yes. */
  lemma CanMirrorsServer(table: map<string, seq<string>>, roles: seq<string>, permission: string)
    ensures var names := LowerAll(roles);
      CanIn(table, roles, permission) <==>
        AllUnknown(table, names) || exists g :: g in Grants(table, names) && Matches(g, permission)
  {
    var names := LowerAll(roles);
    if n :| n in names && n in table && exists g :: g in table[n] && MatchesInBrowser(g, permission) {
      var g :| g in table[n] && MatchesInBrowser(g, permission);
      MatchersAgree(g, permission);
      assert g in Grants(table, names);
    }
    if g :| g in Grants(table, names) && Matches(g, permission) {
      MatchersAgree(g, permission);
      var n :| n in names && n in table && g in table[n];
      assert MatchesInBrowser(g, permission);
    }
  }

  /** canAny asks the server's HasAnyPermission question of the templates' grants; with no role known it says yes to
      every list but the empty one. */
  lemma CanAnyMirrorsServer(table: map<string, seq<string>>, roles: seq<string>, permissions: seq<string>)
    ensures var names := LowerAll(roles);
      CanAnyIn(table, roles, permissions) <==>
        (AllUnknown(table, names) && permissions != []) ||
        exists g, p :: g in Grants(table, names) && p in permissions && Matches(g, p)
  {
    forall p { CanMirrorsServer(table, roles, p); }
    if AllUnknown(table, LowerAll(roles)) && permissions != [] { assert permissions[0] in permissions; }
  }

  /** Adding a role the table knows never takes a permission away from a session that already has a known role. */
  lemma MoreRolesMoreAccess(table: map<string, seq<string>>, roles: seq<string>, extra: seq<string>, permission: string)
    requires !AllUnknown(table, LowerAll(roles)) && CanIn(table, roles, permission)
    ensures CanIn(table, roles + extra, permission)
  {
    var names, more := LowerAll(roles), LowerAll(roles + extra);
    assert forall i :: 0 <= i < |names| ==> more[i] == names[i];
    var n :| n in names && n in table && exists g :: g in table[n] && MatchesInBrowser(g, permission);
    assert n in more;
  }

  predicate SameButCase(s: string, t: string) {
    |s| == |t| && forall i :: 0 <= i < |s| ==>
      s[i] == t[i] || ('A' <= s[i] <= 'Z' && t[i] == s[i] - 'A' + 'a') ||
        ('A' <= t[i] <= 'Z' && s[i] == t[i] - 'A' + 'a')
  }

  /** Role names are compared without regard to case. */
  lemma CaseIsIgnored(table: map<string, seq<string>>, roles: seq<string>, roles': seq<string>, permission: string)
    requires |roles| == |roles'| && forall i :: 0 <= i < |roles| ==> SameButCase(roles[i], roles'[i])
    ensures CanIn(table, roles, permission) <==> CanIn(table, roles', permission)
  {
    forall i | 0 <= i < |roles| ensures Lower(roles[i]) == Lower(roles'[i]) { }
    assert LowerAll(roles) == LowerAll(roles');
  }

  // ------------------------------------------------------------- the templates

  /** A grant that names one permission. */
  predicate IsLiteral(g: string) { g != "*" && g != "*:read" && !HasSuffix(g, ":*") }

  /** Of the session's role names the table knows this one and no other. */
  predicate KnownAs(table: map<string, seq<string>>, names: seq<string>, name: string) {
    name in names && name in table && forall n :: n in names && n in table ==> n == name
  }

  lemma LiteralRoleExactly(table: map<string, seq<string>>, roles: seq<string>, name: string, permission: string)
    requires KnownAs(table, LowerAll(roles), name) && forall g :: g in table[name] ==> IsLiteral(g)
    ensures CanIn(table, roles, permission) <==> permission in table[name]
  {
    var names := LowerAll(roles);
    CanMirrorsServer(table, roles, permission);
    if g :| g in Grants(table, names) && Matches(g, permission) {
      assert g in table[name] && IsLiteral(g);
    }
    if permission in table[name] { assert permission in Grants(table, names) && Matches(permission, permission); }
  }

  lemma SpelledOut(name: string)
    requires name in {"customer", "agent", "developer"}
    ensures name in ROLE_PERMISSIONS && forall g :: g in ROLE_PERMISSIONS[name] ==> IsLiteral(g)
  {
  }

  /** The roles that are spelled out are shown exactly the permissions listed for them, whatever else the session is
      called; a portal customer in particular not the organization-wide ticket:read. */
  lemma SpelledOutExactly(roles: seq<string>, name: string, permission: string)
    requires name in {"customer", "agent", "developer"} && KnownAs(ROLE_PERMISSIONS, LowerAll(roles), name)
    ensures Can(roles, permission) <==> permission in ROLE_PERMISSIONS[name]
    ensures name == "customer" ==> !Can(roles, "ticket:read")
  {
    SpelledOut(name);
    LiteralRoleExactly(ROLE_PERMISSIONS, roles, name, permission);
    LiteralRoleExactly(ROLE_PERMISSIONS, roles, name, "ticket:read");
  }

  lemma NoneIsDoubled(name: string, g: string)
    requires name in ROLE_PERMISSIONS && g in ROLE_PERMISSIONS[name]
    ensures !IsDoubleStar(g)
  {
  }

  /** No template holds a doubled wildcard, so whatever one of its grants lets through, passed on by a second grant,
      it lets through as well. */
  lemma TemplatesChain(name: string, g: string)
    requires name in ROLE_PERMISSIONS && g in ROLE_PERMISSIONS[name]
    ensures Chains(g)
  {
    NoneIsDoubled(name, g);
    ChainsExactly(g);
  }
}
