/** Who may see a ticket: admins and agents see every ticket, other users
    only their own. */
module Ownership {
  import RolePermissions

  datatype TicketUser = TicketUser(id: string, roles: seq<string>)

  function CanAccessTicket(user: TicketUser, ownerId: string): (r: bool)
    ensures RolePermissions.Admin in user.roles ==> r
    ensures RolePermissions.Agent in user.roles ==> r
    ensures ownerId == user.id ==> r
    ensures r ==> RolePermissions.Admin in user.roles || RolePermissions.Agent in user.roles
                  || ownerId == user.id
  {
    if RolePermissions.Admin in user.roles then true
    else if RolePermissions.Agent in user.roles then true
    else ownerId == user.id
  }

  /** Anyone who may see another user's ticket holds ticket:read through
      their roles. */
  lemma NonOwnerAccessImpliesRead(user: TicketUser, ownerId: string)
    requires CanAccessTicket(user, ownerId) && ownerId != user.id
    ensures "ticket:read" in RolePermissions.Expand(user.roles)
  {
    var i :| 0 <= i < |user.roles| && user.roles[i] in [RolePermissions.Admin, RolePermissions.Agent];
    RolePermissions.ExpandMembership(user.roles, "ticket:read");
  }
}
