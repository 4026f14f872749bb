/** The rooms of one realtime socket: names, bookkeeping, and what each handler keeps. Handlers run one
    at a time, and a ticket never moves to another organisation. */
module RealtimeRooms {
  import opened Basics
  import opened ReplyAddress

  datatype Target = User(user: string) | Organization(org: string) | Ticket(ticketOrg: string, ticket: string)

  /** userRoom, organizationRoom and ticketRoom. */
  function RoomName(t: Target): string {
    match t
    case User(user) => "user:" + user
    case Organization(org) => "organization:" + org
    case Ticket(org, ticket) => "ticket:" + org + ":" + ticket
  }

  /** The shape of a UUID: 8-4-4-4-12 hexadecimal digits. */
  predicate IsUuid(s: string) {
    |s| == 36 && forall i :: 0 <= i < 36 ==> if i in {8, 13, 18, 23} then s[i] == '-' else IsHex(s[i])
  }

  lemma {:induction false} UuidShape(s: string)
    ensures IsUuid(s) <==>
            |s| == 36 && AllHex(s[0..8], 8) && s[8] == '-' && AllHex(s[9..13], 4) && s[13] == '-' && AllHex(s[14..18], 4) &&
            s[18] == '-' && AllHex(s[19..23], 4) && s[23] == '-' && AllHex(s[24..36], 12)
    ensures IsUuidV4(s) ==> IsUuid(s)
  {
    if |s| == 36 && AllHex(s[0..8], 8) && AllHex(s[9..13], 4) && AllHex(s[14..18], 4) && AllHex(s[19..23], 4) && AllHex(s[24..36], 12) {
      assert forall i :: 0 <= i < 8 ==> s[i] == s[0..8][i];
      assert forall i :: 9 <= i < 13 ==> s[i] == s[9..13][i - 9];
      assert forall i :: 14 <= i < 18 ==> s[i] == s[14..18][i - 14];
      assert forall i :: 19 <= i < 23 ==> s[i] == s[19..23][i - 19];
      assert forall i :: 24 <= i < 36 ==> s[i] == s[24..36][i - 24];
    }
  }

  predicate IsTarget(t: Target) {
    match t
    case User(user) => IsUuid(user)
    case Organization(org) => IsUuid(org)
    case Ticket(org, ticket) => IsUuid(org) && IsUuid(ticket)
  }

  lemma {:induction false} RoomNamesNeverCollide(a: Target, b: Target)
    requires IsTarget(a) && IsTarget(b) && RoomName(a) == RoomName(b)
    ensures a == b
  {
    var n := RoomName(a);
    assert a.User? ==> n[0] == 'u' && n[5..] == a.user;
    assert b.User? ==> n[0] == 'u' && n[5..] == b.user;
    assert a.Organization? ==> n[0] == 'o' && n[13..] == a.org;
    assert b.Organization? ==> n[0] == 'o' && n[13..] == b.org;
    assert a.Ticket? ==> n[0] == 't' && n[7..43] == a.ticketOrg && n[44..] == a.ticket;
    assert b.Ticket? ==> n[0] == 't' && n[7..43] == b.ticketOrg && n[44..] == b.ticket;
  }

  function Names(ts: set<Target>): set<string> {
    set t | t in ts :: RoomName(t)
  }

  ghost predicate AreTargets(ts: set<Target>) {
    forall t :: t in ts ==> IsTarget(t)
  }

  lemma {:induction false} NamesWithout(ts: set<Target>, gone: set<Target>)
    requires AreTargets(ts) && AreTargets(gone)
    ensures Names(ts - gone) == Names(ts) - Names(gone)
  {
    forall a, b | a in ts && b in gone && RoomName(a) == RoomName(b) ensures a == b {
      RoomNamesNeverCollide(a, b);
    }
  }

  // ---------------------------------------------------------------- a socket's state

  datatype Tenant = Tenant(organizationId: string, membershipId: string, role: string)

  datatype JoinedTicket = JoinedTicket(organizationId: string, ticketId: string)

  datatype State = State(user: string, tenants: map<string, Tenant>, tickets: map<string, JoinedTicket>, rooms: set<string>)

  function Connected(user: string): State {
    State(user, map[], map[], {RoomName(User(user))})
  }

  function TicketTargets(tickets: map<string, JoinedTicket>): set<Target> {
    set t | t in tickets :: Ticket(tickets[t].organizationId, t)
  }

  function TargetsOf(s: State): set<Target> {
    {User(s.user)} + (set o | o in s.tenants :: Organization(o)) + TicketTargets(s.tickets)
  }

  /** A database identifier is stored in lower case; home says which organisation owns a ticket. */
  ghost predicate Tidy(s: State, home: string -> string) {
    && IsUuid(s.user)
    && (forall o :: o in s.tenants ==> IsUuid(o) && Lower(o) == o && s.tenants[o].organizationId == o)
    && (forall t :: t in s.tickets ==> Kept(s, home, t))
    && s.rooms == Names(TargetsOf(s))
  }

  ghost predicate Kept(s: State, home: string -> string, t: string)
    requires t in s.tickets
  {
    IsUuid(t) && s.tickets[t].ticketId == t && s.tickets[t].organizationId in s.tenants && home(Lower(t)) == s.tickets[t].organizationId
  }

  /** What the database answers: a membership of that organisation, and a ticket it owns. */
  ghost predicate Resolves(org: string, resolved: Option<Tenant>) {
    resolved.Some? ==> resolved.value.organizationId == Lower(org)
  }

  // ---------------------------------------------------------------- handlers, as functions

  function TicketsIn(tickets: map<string, JoinedTicket>, org: string): map<string, JoinedTicket> {
    map t | t in tickets && tickets[t].organizationId == org :: tickets[t]
  }

  function TicketsOutside(tickets: map<string, JoinedTicket>, org: string): map<string, JoinedTicket> {
    map t | t in tickets && tickets[t].organizationId != org :: tickets[t]
  }

  function WithoutTickets(s: State, org: string): State {
    s.(tickets := TicketsOutside(s.tickets, org), rooms := s.rooms - Names(TicketTargets(TicketsIn(s.tickets, org))))
  }

  function WithoutOrganization(s: State, org: string): State {
    var s1 := WithoutTickets(s, org);
    s1.(tenants := s.tenants - {org}, rooms := s1.rooms - {RoomName(Organization(org))})
  }

  function JoinOrganization(s: State, org: string, resolved: Option<Tenant>): State {
    if !IsUuid(org) || resolved.None? then s
    else
      var o := resolved.value.organizationId;
      s.(tenants := s.tenants[o := resolved.value], rooms := s.rooms + {RoomName(Organization(o))})
  }

  function LeaveOrganization(s: State, org: string): State {
    if !IsUuid(org) || org !in s.tenants then s else WithoutOrganization(s, org)
  }

  function JoinTicket(s: State, org: string, ticket: string, resolved: Option<Tenant>, canRead: bool, found: bool): State {
    if !IsUuid(org) || !IsUuid(ticket) || org !in s.tenants then s
    else if resolved.None? then WithoutOrganization(s, org)
    else
      var s1 := s.(tenants := s.tenants[org := resolved.value]);
      if !canRead || !found then s1
      else
        var o := resolved.value.organizationId;
        s1.(tickets := s.tickets[ticket := JoinedTicket(o, ticket)], rooms := s.rooms + {RoomName(Ticket(o, ticket))})
  }

  function LeaveTicket(s: State, org: string, ticket: string): State {
    if !IsUuid(org) || !IsUuid(ticket) || ticket !in s.tickets || s.tickets[ticket].organizationId != org then s
    else s.(tickets := s.tickets - {ticket}, rooms := s.rooms - {RoomName(Ticket(org, ticket))})
  }

  datatype Action =
    | JoinsOrganization(org: string, resolved: Option<Tenant>)
    | LeavesOrganization(org: string)
    | JoinsTicket(org: string, ticket: string, resolved: Option<Tenant>, canRead: bool, found: bool)
    | LeavesTicket(org: string, ticket: string)

  ghost predicate Possible(a: Action, home: string -> string) {
    match a
    case JoinsOrganization(org, resolved) => Resolves(org, resolved)
    case JoinsTicket(org, ticket, resolved, _, found) =>
      Resolves(org, resolved) && (found ==> home(Lower(ticket)) == Lower(org))
    case _ => true
  }

  function Handle(s: State, a: Action): State {
    match a
    case JoinsOrganization(org, resolved) => JoinOrganization(s, org, resolved)
    case LeavesOrganization(org) => LeaveOrganization(s, org)
    case JoinsTicket(org, ticket, resolved, canRead, found) => JoinTicket(s, org, ticket, resolved, canRead, found)
    case LeavesTicket(org, ticket) => LeaveTicket(s, org, ticket)
  }

  function HandleAll(s: State, acts: seq<Action>): State {
    if acts == [] then s else Handle(HandleAll(s, acts[..|acts| - 1]), acts[|acts| - 1])
  }

  // ---------------------------------------------------------------- what they keep

  /** The socket has joined this. */
  predicate Joined(s: State, x: Target) {
    match x
    case User(user) => user == s.user
    case Organization(org) => org in s.tenants
    case Ticket(org, ticket) => ticket in s.tickets && s.tickets[ticket].organizationId == org
  }

  lemma {:induction false} TargetsAreJoined(s: State)
    ensures forall x :: x in TargetsOf(s) <==> Joined(s, x)
  {
    forall x ensures x in TargetsOf(s) <==> Joined(s, x) {
    }
  }

  lemma {:induction false} TargetsAreTargets(s: State, home: string -> string)
    requires Tidy(s, home)
    ensures AreTargets(TargetsOf(s))
  {
  }

  lemma {:induction false} LeavingTidy(s: State, home: string -> string, org: string)
    requires Tidy(s, home) && org in s.tenants
    ensures Tidy(WithoutOrganization(s, org), home)
  {
    LeavingRooms(s, home, org);
    var s' := WithoutOrganization(s, org);
    forall t | t in s'.tickets ensures Kept(s', home, t) {
      assert Kept(s, home, t);
    }
  }

  lemma {:induction false} LeavingRooms(s: State, home: string -> string, org: string)
    requires Tidy(s, home) && org in s.tenants
    ensures WithoutOrganization(s, org).rooms == Names(TargetsOf(WithoutOrganization(s, org)))
  {
    var tickets := TicketTargets(TicketsIn(s.tickets, org));
    TargetsAreTargets(s, home);
    LeavingTargets(s, org);
    NamesWithout(TargetsOf(s), {Organization(org)} + tickets);
    NamesUnion({Organization(org)}, tickets);
    assert Names({Organization(org)}) == {RoomName(Organization(org))};
  }

  lemma {:induction false} NamesUnion(ts: set<Target>, us: set<Target>)
    ensures Names(ts + us) == Names(ts) + Names(us)
  {
  }

  /** Leaving or losing an organisation removes its room and its ticket rooms, and no others. */
  lemma {:induction false} LeavingIsExact(s: State, home: string -> string, org: string, x: Target)
    requires Tidy(s, home) && org in s.tenants && IsTarget(x)
    ensures RoomName(x) in WithoutOrganization(s, org).rooms <==> RoomName(x) in s.rooms && !Within(x, org)
  {
    var s' := WithoutOrganization(s, org);
    LeavingTidy(s, home, org);
    TargetsAreTargets(s, home);
    TargetsAreTargets(s', home);
    InNames(TargetsOf(s), x);
    InNames(TargetsOf(s'), x);
    TargetsAreJoined(s);
    TargetsAreJoined(s');
  }

  /** The room of the organisation, or of one of its tickets. */
  predicate Within(x: Target, org: string) {
    match x
    case User(_) => false
    case Organization(o) => o == org
    case Ticket(o, _) => o == org
  }

  lemma {:induction false} InTicketTargets(tickets: map<string, JoinedTicket>, x: Target)
    ensures x in TicketTargets(tickets) <==>
            x.Ticket? && x.ticket in tickets && tickets[x.ticket].organizationId == x.ticketOrg
  {
  }

  lemma {:induction false} LeavingTargets(s: State, org: string)
    requires org in s.tenants
    ensures TargetsOf(WithoutOrganization(s, org)) ==
            TargetsOf(s) - ({Organization(org)} + TicketTargets(TicketsIn(s.tickets, org)))
    ensures AreTargets(TargetsOf(s)) ==> AreTargets({Organization(org)} + TicketTargets(TicketsIn(s.tickets, org)))
  {
    var gone := {Organization(org)} + TicketTargets(TicketsIn(s.tickets, org));
    TargetsAreJoined(s);
    TargetsAreJoined(WithoutOrganization(s, org));
    forall x ensures x in gone <==> Joined(s, x) && Within(x, org) {
      InTicketTargets(TicketsIn(s.tickets, org), x);
    }
  }

  lemma {:induction false} JoinOrganizationTidy(s: State, home: string -> string, org: string, resolved: Option<Tenant>)
    requires Tidy(s, home) && Resolves(org, resolved)
    ensures Tidy(JoinOrganization(s, org, resolved), home)
  {
    if IsUuid(org) && resolved.Some? {
      var s', o := JoinOrganization(s, org, resolved), resolved.value.organizationId;
      assert Lower(o) == o && IsUuid(o);
      assert TargetsOf(s') == TargetsOf(s) + {Organization(o)};
      assert Names(TargetsOf(s')) == Names(TargetsOf(s)) + {RoomName(Organization(o))};
    }
  }

  lemma {:induction false} JoinTicketTidy(s: State, home: string -> string, org: string, ticket: string, resolved: Option<Tenant>, canRead: bool, found: bool)
    requires Tidy(s, home) && Possible(JoinsTicket(org, ticket, resolved, canRead, found), home)
    ensures Tidy(JoinTicket(s, org, ticket, resolved, canRead, found), home)
  {
    if org in s.tenants && resolved.None? {
      LeavingTidy(s, home, org);
    } else if IsUuid(org) && IsUuid(ticket) && org in s.tenants {
      var s' := JoinTicket(s, org, ticket, resolved, canRead, found);
      assert s'.tenants.Keys == s.tenants.Keys;
      if canRead && found {
        // joined again, it is joined to the organisation it was joined to
        assert ticket in s.tickets ==> Kept(s, home, ticket);
        TargetsAreJoined(s);
        TargetsAreJoined(s');
        assert TargetsOf(s') == TargetsOf(s) + {Ticket(org, ticket)};
        assert Names(TargetsOf(s')) == Names(TargetsOf(s)) + {RoomName(Ticket(org, ticket))};
      } else {
        assert TargetsOf(s') == TargetsOf(s);
      }
    }
  }

  lemma {:induction false} LeaveTicketTidy(s: State, home: string -> string, org: string, ticket: string)
    requires Tidy(s, home)
    ensures Tidy(LeaveTicket(s, org, ticket), home)
  {
    var s' := LeaveTicket(s, org, ticket);
    if s' != s {
      TargetsAreTargets(s, home);
      TargetsAreJoined(s);
      TargetsAreJoined(s');
      NamesWithout(TargetsOf(s), {Ticket(org, ticket)});
      assert Names({Ticket(org, ticket)}) == {RoomName(Ticket(org, ticket))};
      assert TargetsOf(s') == TargetsOf(s) - {Ticket(org, ticket)};
    }
  }

  /** After any requests a socket's rooms are exactly its own room and those of what it has joined. */
  lemma {:induction false} AlwaysTidy(user: string, home: string -> string, acts: seq<Action>)
    requires IsUuid(user) && forall a :: a in acts ==> Possible(a, home)
    ensures Tidy(HandleAll(Connected(user), acts), home)
  {
    if acts == [] {
      assert TargetsOf(Connected(user)) == {User(user)};
    } else {
      var before, a := HandleAll(Connected(user), acts[..|acts| - 1]), acts[|acts| - 1];
      assert Possible(a, home);
      AlwaysTidy(user, home, acts[..|acts| - 1]);
      match a
      case JoinsOrganization(org, resolved) => JoinOrganizationTidy(before, home, org, resolved);
      case LeavesOrganization(org) =>
        if org in before.tenants {
          LeavingTidy(before, home, org);
        }
      case JoinsTicket(org, ticket, resolved, canRead, found) => JoinTicketTidy(before, home, org, ticket, resolved, canRead, found);
      case LeavesTicket(org, ticket) => LeaveTicketTidy(before, home, org, ticket);
    }
  }

  /** So an announcement to a room reaches exactly the sockets that have joined its target. */
  lemma {:induction false} HearsWhatItJoined(s: State, home: string -> string, org: string, ticket: string)
    requires Tidy(s, home) && IsUuid(org) && IsUuid(ticket)
    ensures RoomName(Organization(org)) in s.rooms <==> org in s.tenants
    ensures RoomName(Ticket(org, ticket)) in s.rooms <==> ticket in s.tickets && s.tickets[ticket].organizationId == org
    ensures RoomName(Ticket(org, ticket)) in s.rooms ==> RoomName(Organization(org)) in s.rooms
    ensures RoomName(User(ticket)) in s.rooms <==> ticket == s.user
  {
    TargetsAreTargets(s, home);
    InNames(TargetsOf(s), Organization(org));
    InNames(TargetsOf(s), Ticket(org, ticket));
    InNames(TargetsOf(s), User(ticket));
    assert ticket in s.tickets ==> Kept(s, home, ticket);
  }

  lemma {:induction false} InNames(ts: set<Target>, t: Target)
    requires AreTargets(ts) && IsTarget(t)
    ensures RoomName(t) in Names(ts) <==> t in ts
  {
    forall a | a in ts && RoomName(a) == RoomName(t) ensures a == t {
      RoomNamesNeverCollide(a, t);
    }
  }
}
