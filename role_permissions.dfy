/** The role → permission table of the API and its expansion of a list of
    roles into permissions (`roles.flatMap(role => ROLE_PERMISSIONS[role] ?? [])`). */
module RolePermissions {

  const Admin := "admin"
  const Agent := "agent"
  const Customer := "customer"

  /** `ROLE_PERMISSIONS[role] ?? []` */
  function PermissionsOf(role: string): (r: seq<string>)
    ensures role != Admin && role != Agent && role != Customer ==> r == []
  {
    if role == Admin then
      ["ticket:create", "ticket:read", "ticket:update", "ticket:close",
       "user:create", "user:read", "message:send"]
    else if role == Agent then ["ticket:read", "ticket:update"]
    else if role == Customer then ["ticket:create", "ticket:read", "message:send"]
    else []
  }

  /** The permissions of each role in turn, concatenated (duplicates kept). */
  function Expand(roles: seq<string>): seq<string> {
    if roles == [] then [] else PermissionsOf(roles[0]) + Expand(roles[1..])
  }

  /** Expansion distributes over concatenation of role lists. */
  lemma {:induction false} ExpandAppend(a: seq<string>, b: seq<string>)
    ensures Expand(a + b) == Expand(a) + Expand(b)
  {
    if a == [] {
      assert a + b == b;
    } else {
      assert (a + b)[1..] == a[1..] + b;
      ExpandAppend(a[1..], b);
    }
  }

  /** Expansion has the length of all the roles' permission lists together. */
  lemma {:induction false} ExpandLength(roles: seq<string>)
    ensures |Expand(roles)| == SumLengths(roles)
  {
    if roles != [] {
      ExpandLength(roles[1..]);
    }
  }

  function SumLengths(roles: seq<string>): nat {
    if roles == [] then 0 else |PermissionsOf(roles[0])| + SumLengths(roles[1..])
  }

  /** A permission is granted exactly when one of the roles carries it. */
  lemma {:induction false} ExpandMembership(roles: seq<string>, perm: string)
    ensures perm in Expand(roles) <==> exists i :: 0 <= i < |roles| && perm in PermissionsOf(roles[i])
  {
    if roles != [] {
      ExpandMembership(roles[1..], perm);
      if perm in Expand(roles[1..]) {
        var i :| 0 <= i < |roles[1..]| && perm in PermissionsOf(roles[1..][i]);
        assert roles[i + 1] == roles[1..][i];
      }
      if exists i :: 0 <= i < |roles| && perm in PermissionsOf(roles[i]) {
        var i :| 0 <= i < |roles| && perm in PermissionsOf(roles[i]);
        if i > 0 {
          assert roles[1..][i - 1] == roles[i];
        }
      }
    }
  }

  /** Roles the table does not know grant nothing. */
  lemma {:induction false} UnknownRolesGrantNothing(roles: seq<string>)
    requires forall i :: 0 <= i < |roles| ==> roles[i] !in [Admin, Agent, Customer]
    ensures Expand(roles) == []
  {
    if roles != [] {
      assert roles[0] !in [Admin, Agent, Customer];
      UnknownRolesGrantNothing(roles[1..]);
    }
  }

  /** Every agent and customer permission is also an admin permission. */
  lemma AdminHoldsEveryPermission(role: string, perm: string)
    requires perm in PermissionsOf(role)
    ensures perm in PermissionsOf(Admin)
  {
  }

  /** Whatever roles a user holds, the admin role alone grants at least as much. */
  lemma ExpandWithinAdmin(roles: seq<string>, perm: string)
    requires perm in Expand(roles)
    ensures perm in PermissionsOf(Admin)
  {
    ExpandMembership(roles, perm);
  }
}
