/** The socket.io gateway: the connection middleware that authenticates each
    socket, joining a ticket's room, and emitting to a ticket's room. */
module RealtimeGateway {
  import opened Wrappers
  import opened Text
  import opened Http
  import opened JsonValue
  import RolePermissions
  import Ownership
  import opened UserResolver
  import opened RealtimeAuth

  /** The room of a ticket, `ticket:<id>`. The gateway builds this text
      itself; the cache's single-ticket key happens to have the same form
      and is built separately. */
  function TicketRoom(ticketId: string): (r: string)
    ensures StartsWith(r, "ticket:") && r[7..] == ticketId
  {
    "ticket:" + ticketId
  }

  lemma TicketRoomInjective(a: string, b: string)
    requires TicketRoom(a) == TicketRoom(b)
    ensures a == b
  {
    assert a == TicketRoom(a)[7..];
  }

  /** The gateway's own access test: admin, agent, or owner of the ticket. */
  function CanJoin(user: RealtimeUser, ownerId: string): (r: bool)
    ensures r == Ownership.CanAccessTicket(Ownership.TicketUser(user.id, user.roles), ownerId)
  {
    RolePermissions.Admin in user.roles || RolePermissions.Agent in user.roles || ownerId == user.id
  }

  /** The outcome of `ticket.join`: joined, silently ignored because the
      ticket does not exist, or rejected. */
  datatype JoinOutcome = Joined | TicketMissing | Rejected(error: HttpError)

  const Unauthenticated := Forbidden("Unauthenticated socket")
  const NotAllowed := Forbidden("Not allowed to join this ticket")

  class ClientSocket {
    var user: Option<RealtimeUser>
    var rooms: set<string>

    constructor()
      ensures user == None && rooms == {}
    {
      user := None;
      rooms := {};
    }
  }

  /** Every ticket room a socket is in belongs to an existing ticket its
      user may access. `tickets` maps a ticket id to its owner's id. */
  ghost predicate RoomsAuthorized(user: Option<RealtimeUser>, rooms: set<string>, tickets: map<string, string>) {
    forall id :: TicketRoom(id) in rooms ==>
      user.Some? && id in tickets && CanJoin(user.value, tickets[id])
  }

  /** A socket is let in only once its handshake authenticates, and then
      carries the authenticated user. */
  method Connect(client: ClientSocket, env: Env, h: Handshake, v: Verifiers, repo: UsersRepository,
                 newId: string, passwordHash: string)
    returns (r: Result<RealtimeUser, HttpError>)
    modifies client`user, repo
    ensures var a := Authenticate(env, h, v, old(repo.rows), newId, passwordHash);
            r == a.result && repo.rows == a.rows
    ensures r.Success? ==> client.user == Some(r.value)
    ensures r.Failure? ==> client.user == old(client.user)
  {
    r := AuthenticateSocket(env, h, v, repo, newId, passwordHash);
    if r.Success? {
      client.user := Some(r.value);
    }
  }

  /** `handleJoin`. */
  method HandleJoin(client: ClientSocket, ticketId: string, tickets: map<string, string>)
    returns (r: JoinOutcome)
    modifies client`rooms
    ensures client.user.None? || client.user.value.id == "" ==> r == Rejected(Unauthenticated)
    ensures client.user.Some? && client.user.value.id != "" && ticketId !in tickets ==> r == TicketMissing
    ensures client.user.Some? && client.user.value.id != "" && ticketId in tickets
            ==> (r == Joined <==> CanJoin(client.user.value, tickets[ticketId]))
    ensures client.user.Some? && client.user.value.id != "" && ticketId in tickets
            && !CanJoin(client.user.value, tickets[ticketId])
            ==> r == Rejected(NotAllowed)
    ensures r == Joined ==> client.rooms == old(client.rooms) + {TicketRoom(ticketId)}
    ensures r != Joined ==> client.rooms == old(client.rooms)
    ensures r.Rejected? ==> r.error == Unauthenticated || r.error == NotAllowed
    ensures RoomsAuthorized(client.user, old(client.rooms), tickets)
            ==> RoomsAuthorized(client.user, client.rooms, tickets)
  {
    if client.user.None? || client.user.value.id == "" {
      return Rejected(Unauthenticated);
    }
    if ticketId !in tickets {
      return TicketMissing;
    }
    var user := client.user.value;
    var canAccess := RolePermissions.Admin in user.roles || RolePermissions.Agent in user.roles
                     || tickets[ticketId] == user.id;
    if !canAccess {
      return Rejected(NotAllowed);
    }
    ghost var before := client.rooms;
    client.rooms := client.rooms + {TicketRoom(ticketId)};
    if RoomsAuthorized(client.user, before, tickets) {
      forall id | TicketRoom(id) in client.rooms
        ensures client.user.Some? && id in tickets && CanJoin(client.user.value, tickets[id])
      {
        if TicketRoom(id) == TicketRoom(ticketId) {
          TicketRoomInjective(id, ticketId);
        }
      }
    }
    return Joined;
  }

  /** A message emitted to a room. */
  datatype Emission = Emission(room: string, event: string, payload: Json)

  class Gateway {
    var emitted: seq<Emission>

    constructor()
      ensures emitted == []
    {
      emitted := [];
    }

    /** `emitToTicketRoom`. */
    method EmitToTicketRoom(event: string, ticketId: string, payload: Json)
      modifies this
      ensures emitted == old(emitted) + [Emission(TicketRoom(ticketId), event, payload)]
    {
      emitted := emitted + [Emission(TicketRoom(ticketId), event, payload)];
    }
  }

  /** Who receives an emission: the sockets in its room. */
  predicate Receives(rooms: set<string>, e: Emission) {
    e.room in rooms
  }

  /** A socket whose rooms are authorized receives a ticket's events only if
      its user may access that ticket. */
  lemma OnlyAuthorizedReceive(user: Option<RealtimeUser>, rooms: set<string>,
                              tickets: map<string, string>, ticketId: string, event: string, payload: Json)
    requires RoomsAuthorized(user, rooms, tickets)
    requires Receives(rooms, Emission(TicketRoom(ticketId), event, payload))
    ensures user.Some? && ticketId in tickets
    ensures Ownership.CanAccessTicket(Ownership.TicketUser(user.value.id, user.value.roles), tickets[ticketId])
  {
  }
}
