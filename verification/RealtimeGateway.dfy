/** The gateway's handlers in the program's own form: a socket's data and rooms updated in place. */
module RealtimeGateway {
  import opened Basics
  import opened RealtimeRooms

  datatype JoinError = InvalidOrganizationId | InvalidTicketId | OrganizationNotFound | OrganizationNotJoined
                     | TicketAccessDenied | TicketNotFound | TicketNotJoined

  class RealtimeSocket {
    const userId: string
    var tenants: map<string, Tenant>
    var tickets: map<string, JoinedTicket>
    var rooms: set<string>

    ghost function Snapshot(): State
      reads this
    {
      State(userId, tenants, tickets, rooms)
    }

    /** handleConnection, after the handshake set the data. */
    constructor (userId: string)
      ensures Snapshot() == Connected(userId)
    {
      this.userId := userId;
      tenants, tickets := map[], map[];
      rooms := {RoomName(User(userId))};
    }

    method JoinOrganization(org: string, resolved: Option<Tenant>) returns (r: Result<Tenant, JoinError>)
      modifies this`tenants, this`rooms
      ensures Snapshot() == Handle(old(Snapshot()), JoinsOrganization(org, resolved))
      ensures r == if !IsUuid(org) then Err(InvalidOrganizationId)
                   else if resolved.None? then Err(OrganizationNotFound) else Ok(resolved.value)
      ensures r.Ok? ==>
                && tenants == old(tenants)[r.value.organizationId := r.value]
                && rooms == old(rooms) + {"organization:" + r.value.organizationId}
      ensures r.Err? ==> tenants == old(tenants) && rooms == old(rooms)
    {
      if !IsUuid(org) {
        return Err(InvalidOrganizationId);
      }
      if resolved.None? {
        return Err(OrganizationNotFound);
      }
      var tenant := resolved.value;
      rooms := rooms + {RoomName(Organization(tenant.organizationId))};
      tenants := tenants[tenant.organizationId := tenant];
      r := Ok(tenant);
    }

    method LeaveOrganization(org: string) returns (r: Option<JoinError>)
      requires forall t :: t in tickets ==> tickets[t].ticketId == t
      modifies this`tenants, this`tickets, this`rooms
      ensures Snapshot() == Handle(old(Snapshot()), LeavesOrganization(org))
      ensures r == if !IsUuid(org) then Some(InvalidOrganizationId)
                   else if org !in old(tenants) then Some(OrganizationNotJoined) else None
      ensures r.None? ==>
                && tenants == old(tenants) - {org}
                && tickets == (map t | t in old(tickets) && old(tickets)[t].organizationId != org :: old(tickets)[t])
                && rooms == old(rooms) - TicketRooms(old(tickets), org) - {"organization:" + org}
      ensures r.Some? ==> tenants == old(tenants) && tickets == old(tickets) && rooms == old(rooms)
    {
      if !IsUuid(org) {
        return Some(InvalidOrganizationId);
      }
      if org !in tenants {
        return Some(OrganizationNotJoined);
      }
      LeaveAllOrganizationTickets(org);
      rooms := rooms - {RoomName(Organization(org))};
      tenants := tenants - {org};
      r := None;
    }

    method JoinTicket(org: string, ticket: string, resolved: Option<Tenant>, canRead: bool, found: bool)
        returns (r: Result<JoinedTicket, JoinError>)
      requires forall t :: t in tickets ==> tickets[t].ticketId == t
      modifies this`tenants, this`tickets, this`rooms
      ensures Snapshot() == Handle(old(Snapshot()), JoinsTicket(org, ticket, resolved, canRead, found))
      ensures r == if !IsUuid(org) then Err(InvalidOrganizationId)
                   else if !IsUuid(ticket) then Err(InvalidTicketId)
                   else if org !in old(tenants) then Err(OrganizationNotJoined)
                   else if resolved.None? then Err(OrganizationNotFound)
                   else if !canRead then Err(TicketAccessDenied)
                   else if !found then Err(TicketNotFound)
                   else Ok(JoinedTicket(resolved.value.organizationId, ticket))
      ensures r.Ok? ==>
                && tickets == old(tickets)[ticket := r.value]
                && rooms == old(rooms) + {"ticket:" + r.value.organizationId + ":" + ticket}
      ensures r.Ok? || r.error in {TicketAccessDenied, TicketNotFound} ==> tenants == old(tenants)[org := resolved.value]
      ensures r.Err? && r.error in {TicketAccessDenied, TicketNotFound} ==> tickets == old(tickets) && rooms == old(rooms)
      ensures r == Err(OrganizationNotFound) ==>
                && tenants == old(tenants) - {org}
                && tickets == (map t | t in old(tickets) && old(tickets)[t].organizationId != org :: old(tickets)[t])
                && rooms == old(rooms) - TicketRooms(old(tickets), org) - {"organization:" + org}
      ensures r.Err? && r.error in {InvalidOrganizationId, InvalidTicketId, OrganizationNotJoined} ==>
                tenants == old(tenants) && tickets == old(tickets) && rooms == old(rooms)
    {
      if !IsUuid(org) {
        return Err(InvalidOrganizationId);
      }
      if !IsUuid(ticket) {
        return Err(InvalidTicketId);
      }
      if org !in tenants {
        return Err(OrganizationNotJoined);
      }
      if resolved.None? {
        LeaveAllOrganizationTickets(org);
        rooms := rooms - {RoomName(Organization(org))};
        tenants := tenants - {org};
        return Err(OrganizationNotFound);
      }
      var tenant := resolved.value;
      tenants := tenants[org := tenant];
      if !canRead {
        return Err(TicketAccessDenied);
      }
      if !found {
        return Err(TicketNotFound);
      }
      rooms := rooms + {RoomName(Ticket(tenant.organizationId, ticket))};
      tickets := tickets[ticket := JoinedTicket(tenant.organizationId, ticket)];
      r := Ok(tickets[ticket]);
    }

    method LeaveTicket(org: string, ticket: string) returns (r: Option<JoinError>)
      modifies this`tickets, this`rooms
      ensures Snapshot() == Handle(old(Snapshot()), LeavesTicket(org, ticket))
      ensures r == if !IsUuid(org) then Some(InvalidOrganizationId)
                   else if !IsUuid(ticket) then Some(InvalidTicketId)
                   else if ticket !in old(tickets) || old(tickets)[ticket].organizationId != org then Some(TicketNotJoined)
                   else None
      ensures r.None? ==> tickets == old(tickets) - {ticket} && rooms == old(rooms) - {"ticket:" + org + ":" + ticket}
      ensures r.Some? ==> tickets == old(tickets) && rooms == old(rooms)
    {
      if !IsUuid(org) {
        return Some(InvalidOrganizationId);
      }
      if !IsUuid(ticket) {
        return Some(InvalidTicketId);
      }
      if ticket !in tickets || tickets[ticket].organizationId != org {
        return Some(TicketNotJoined);
      }
      rooms := rooms - {RoomName(Ticket(org, ticket))};
      tickets := tickets - {ticket};
      r := None;
    }

    /** The loop deletes from the map it was started over, in whatever order the values come. */
    method LeaveAllOrganizationTickets(org: string)
      requires forall t :: t in tickets ==> tickets[t].ticketId == t
      modifies this`tickets, this`rooms
      ensures Snapshot() == WithoutTickets(old(Snapshot()), org)
      ensures tickets == map t | t in old(tickets) && old(tickets)[t].organizationId != org :: old(tickets)[t]
      ensures rooms == old(rooms) - TicketRooms(old(tickets), org)
    {
      TicketRoomNames(tickets, org);
      var joined := tickets;
      var left := joined.Keys;
      while left != {}
        invariant left <= joined.Keys && joined == old(tickets)
        invariant tickets == map t | t in joined && (t in left || joined[t].organizationId != org) :: joined[t]
        invariant rooms == old(rooms) - Names(TicketTargets(Settled(joined, org, left)))
      {
        var t :| t in left;
        var ticket := joined[t];
        SettleOne(joined, org, left, t);
        left := left - {t};
        if ticket.organizationId != org {
          continue;
        }
        rooms := rooms - {RoomName(Ticket(ticket.organizationId, ticket.ticketId))};
        tickets := tickets - {ticket.ticketId};
      }
      assert Settled(joined, org, left) == TicketsIn(joined, org);
    }
  }

  /** The names of an organisation's joined ticket rooms. */
  function TicketRooms(tickets: map<string, JoinedTicket>, org: string): set<string> {
    set t | t in tickets && tickets[t].organizationId == org :: "ticket:" + org + ":" + t
  }

  lemma {:induction false} TicketRoomNames(tickets: map<string, JoinedTicket>, org: string)
    ensures Names(TicketTargets(TicketsIn(tickets, org))) == TicketRooms(tickets, org)
  {
    var targets := TicketTargets(TicketsIn(tickets, org));
    forall name ensures name in Names(targets) <==> name in TicketRooms(tickets, org) {
      if name in Names(targets) {
        var x :| x in targets && RoomName(x) == name;
        InTicketTargets(TicketsIn(tickets, org), x);
      }
      if name in TicketRooms(tickets, org) {
        var t :| t in tickets && tickets[t].organizationId == org && name == "ticket:" + org + ":" + t;
        InTicketTargets(TicketsIn(tickets, org), Ticket(org, t));
        assert RoomName(Ticket(org, t)) == name;
      }
    }
  }

  /** The tickets of org the loop has dealt with. */
  function Settled(joined: map<string, JoinedTicket>, org: string, left: set<string>): map<string, JoinedTicket> {
    map t | t in joined && joined[t].organizationId == org && t !in left :: joined[t]
  }

  lemma {:induction false} SettleOne(joined: map<string, JoinedTicket>, org: string, left: set<string>, t: string)
    requires t in joined && t in left
    ensures var before, after := Settled(joined, org, left), Settled(joined, org, left - {t});
            if joined[t].organizationId != org then after == before
            else Names(TicketTargets(after)) == Names(TicketTargets(before)) + {RoomName(Ticket(org, t))}
  {
    var before, after := Settled(joined, org, left), Settled(joined, org, left - {t});
    if joined[t].organizationId != org {
      assert after == before;
    } else {
      assert after == before[t := joined[t]];
      forall x ensures x in TicketTargets(after) <==> x in TicketTargets(before) || x == Ticket(org, t) {
        InTicketTargets(after, x);
        InTicketTargets(before, x);
      }
      assert TicketTargets(after) == TicketTargets(before) + {Ticket(org, t)};
    }
  }
}
