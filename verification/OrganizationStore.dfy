/** The organisation, member and invitation services in the program's own form: methods that update the
    tables in place. Each is exactly one step of MembershipProtocol (cancelling, two) and keeps its invariants. */
module OrganizationStore {
  import opened Basics
  import opened MembershipProtocol
  import ReplyAddress

  datatype RoleError = MemberNotFound | RoleForbidden | LastOwner

  datatype InviteError = InviteForbidden | AlreadyMember | AlreadyInvited

  datatype CancelError = CancelNotFound | CancelForbidden | AcceptedAlready

  datatype AcceptError = InvitationNotFound | NotYours | Accepted | Canceled | Expired | MemberAlready

  /** The user is an owner, and nobody else is. */
  ghost predicate IsOnlyOwner(members: map<(string, string), Role>, org: string, user: string) {
    && (user, org) in members && members[(user, org)] == OWNER
    && forall other :: other != user && (other, org) in members ==> members[(other, org)] != OWNER
  }

  /** An invitation of that address has been neither accepted nor cancelled and has not expired. */
  ghost predicate IsWaiting(invitations: map<string, Invitation>, org: string, email: string, now: nat) {
    exists h :: h in invitations && invitations[h].org == org && invitations[h].email == email &&
      invitations[h].acceptedAt.None? && invitations[h].canceledAt.None? && now < invitations[h].expiresAt
  }

  /** A pending invitation of that address: what blocks another one. */
  predicate Invited(invitations: map<string, Invitation>, org: string, email: string, now: nat) {
    exists h :: h in invitations && invitations[h].org == org && invitations[h].email == email && PendingAt(invitations[h], now)
  }

  /** Cancelling with nobody in between its read and its write. */
  function CancelAlone(w: World, hash: string, actor: Role, org: string, now: nat): World
    requires w.cancels == [] && now <= w.clock
  {
    if CancelAllowed(w, hash, actor, org) then Next(Next(w, ReadForCancel(hash, actor, org)), WriteCancel(0, now)) else w
  }

  lemma {:induction false} CancelAloneSound(w: World, hash: string, actor: Role, org: string, now: nat)
    requires Sound(w) && w.cancels == [] && now <= w.clock
    ensures Sound(CancelAlone(w, hash, actor, org, now))
  {
    if CancelAllowed(w, hash, actor, org) {
      WriteCancelSound(Next(w, ReadForCancel(hash, actor, org)), 0, now);
    }
  }

  class OrganizationStore {
    var clock: nat
    var orgs: set<string>
    var members: map<(string, string), Role>
    var users: map<string, string>
    var invitations: map<string, Invitation>

    ghost function Snapshot(): World
      reads this
    {
      World(clock, orgs, members, users, invitations, [])
    }

    constructor ()
      ensures Snapshot() == Initial && Sound(Snapshot())
    {
      clock, orgs, members, users, invitations := 0, {}, map[], map[], map[];
    }

    /** createForUser: the organisation and its first owner commit together. */
    method CreateForUser(org: string, user: string) returns (created: bool)
      requires Sound(Snapshot())
      modifies this`orgs, this`members
      ensures Snapshot() == Next(old(Snapshot()), DoCreateOrganization(org, user)) && Sound(Snapshot())
      ensures created <==> org !in old(orgs)
      ensures created ==> orgs == old(orgs) + {org} && members == old(members)[(user, org) := OWNER]
      ensures !created ==> orgs == old(orgs) && members == old(members)
      ensures created ==> OwnersOf(members, org) == MembersOf(members, org) == {(user, org)}
    {
      CreateOrganizationSound(Snapshot(), org, user);
      if org in orgs {
        return false;
      }
      NobodyElsewhere(Snapshot(), org);
      SetMember(members, (user, org), OWNER, org);
      orgs := orgs + {org};
      members := members[(user, org) := OWNER];
      created := true;
    }

    method CountOwners(org: string) returns (count: nat)
      ensures count == |OwnersOf(members, org)|
    {
      count := |set k | k in members && k.1 == org && members[k] == OWNER|;
    }

    /** The last-owner guard. */
    method IsLastOwner(org: string, user: string, role: Role) returns (last: bool)
      requires (user, org) in members
      ensures last <==> role != OWNER && IsOnlyOwner(members, org, user)
      ensures last <==> members[(user, org)] == OWNER && role != OWNER && |OwnersOf(members, org)| <= 1
    {
      OnlyOwner(members, org, user);
      if members[(user, org)] != OWNER || role == OWNER {
        return false;
      }
      var ownerCount := CountOwners(org);
      last := ownerCount <= 1;
    }

    /** The write of the role transaction. */
    method WriteRole(actor: Role, org: string, user: string, role: Role)
      requires Sound(Snapshot()) && RoleUpdateAllowed(Snapshot(), actor, org, user, role)
      modifies this`members
      ensures Snapshot() == Next(old(Snapshot()), DoUpdateRole(actor, org, user, role)) && Sound(Snapshot())
    {
      UpdateRoleSound(Snapshot(), actor, org, user, role);
      members := members[(user, org) := role];
    }

    method UpdateRole(actor: Role, org: string, user: string, role: Role) returns (r: Result<Role, RoleError>)
      requires Sound(Snapshot())
      modifies this`members
      ensures Snapshot() == Next(old(Snapshot()), DoUpdateRole(actor, org, user, role)) && Sound(Snapshot())
      ensures r == if (user, org) !in old(members) then Err(MemberNotFound)
                   else if !(actor == OWNER || (actor == ADMIN && old(members)[(user, org)] in {AGENT, VIEWER} && role in {AGENT, VIEWER}))
                   then Err(RoleForbidden)
                   else if role != OWNER && IsOnlyOwner(old(members), org, user) then Err(LastOwner)
                   else Ok(role)
      ensures r.Ok? ==> members == old(members)[(user, org) := role]
      ensures r.Err? ==> members == old(members)
    {
      if (user, org) !in members {
        return Err(MemberNotFound);
      }
      var target := members[(user, org)];
      if !MayChangeRole(actor, target, role) {
        return Err(RoleForbidden);
      }
      var last := IsLastOwner(org, user, role);
      if last {
        return Err(LastOwner);
      }
      WriteRole(actor, org, user, role);
      r := Ok(role);
    }

    /** The insert of the invitation transaction. */
    method InsertInvitation(actor: Role, org: string, address: string, role: Role, hash: string, now: nat)
      requires Sound(Snapshot()) && org in orgs && hash !in invitations && now <= clock
      requires InvitationAllowed(Snapshot(), actor, org, NormalEmail(address), role, now)
      modifies this`invitations
      ensures Snapshot() == Next(old(Snapshot()), DoCreateInvitation(hash, actor, org, address, role, now)) && Sound(Snapshot())
      ensures invitations == old(invitations)[hash := Invitation(org, NormalEmail(address), role, now + LIFETIME_MS, None, None)]
    {
      CreateInvitationSound(Snapshot(), hash, actor, org, address, role, now);
      invitations := invitations[hash := Invitation(org, NormalEmail(address), role, now + LIFETIME_MS, None, None)];
    }

    method CreateInvitation(actor: Role, org: string, address: string, role: Role, hash: string, now: nat)
        returns (r: Result<Invitation, InviteError>)
      requires Sound(Snapshot()) && org in orgs && hash !in invitations && now <= clock
      modifies this`invitations
      ensures Snapshot() == Next(old(Snapshot()), DoCreateInvitation(hash, actor, org, address, role, now)) && Sound(Snapshot())
      ensures var email := ReplyAddress.Lower(ReplyAddress.Trim(address));
              r == if !(actor == OWNER || (actor == ADMIN && role in {AGENT, VIEWER})) then Err(InviteForbidden)
                   else if email in users && (users[email], org) in members then Err(AlreadyMember)
                   else if IsWaiting(old(invitations), org, email, now) then Err(AlreadyInvited)
                   else Ok(Invitation(org, email, role, now + 7 * 24 * 60 * 60 * 1000, None, None))
      ensures r.Ok? ==> invitations == old(invitations)[hash := r.value] && StatusOf(r.value, now) == PENDING
      ensures r.Err? ==> invitations == old(invitations)
    {
      if !MayInvite(actor, role) {
        return Err(InviteForbidden);
      }
      var email := NormalEmail(address);
      if email in users && (users[email], org) in members {
        return Err(AlreadyMember);
      }
      if Invited(invitations, org, email, now) {
        return Err(AlreadyInvited);
      }
      InsertInvitation(actor, org, address, role, hash, now);
      r := Ok(invitations[hash]);
    }

    /** The write of a cancellation, right after its read. */
    method WriteCanceled(actor: Role, org: string, hash: string, now: nat)
      requires Sound(Snapshot()) && now <= clock && CancelAllowed(Snapshot(), hash, actor, org)
      modifies this`invitations
      ensures Snapshot() == CancelAlone(old(Snapshot()), hash, actor, org, now) && Sound(Snapshot())
      ensures hash in invitations && StatusOf(invitations[hash], now) == CANCELED
      ensures invitations == old(invitations)[hash := old(invitations)[hash].(canceledAt := Some(now))]
    {
      ghost var w := Snapshot();
      invitations := invitations[hash := invitations[hash].(canceledAt := Some(now))];
      assert Snapshot() == CancelAlone(w, hash, actor, org, now);
      CancelAloneSound(w, hash, actor, org, now);
    }

    /** Cancelling twice answers with the first cancellation. */
    method Cancel(actor: Role, org: string, hash: string, now: nat) returns (r: Result<Invitation, CancelError>)
      requires Sound(Snapshot()) && now <= clock
      modifies this`invitations
      ensures Snapshot() == CancelAlone(old(Snapshot()), hash, actor, org, now) && Sound(Snapshot())
      ensures r == if hash !in old(invitations) || old(invitations)[hash].org != org then Err(CancelNotFound)
                   else if !(actor == OWNER || (actor == ADMIN && old(invitations)[hash].role in {AGENT, VIEWER})) then Err(CancelForbidden)
                   else if old(invitations)[hash].acceptedAt.Some? then Err(AcceptedAlready)
                   else Ok(invitations[hash])
      ensures r.Ok? ==> StatusOf(r.value, now) == CANCELED
      ensures r.Ok? ==>
                invitations == old(invitations)[hash := r.value] &&
                r.value == if old(invitations)[hash].canceledAt.Some? then old(invitations)[hash]
                           else old(invitations)[hash].(canceledAt := Some(now))
      ensures r.Err? ==> invitations == old(invitations)
    {
      if hash !in invitations || invitations[hash].org != org {
        return Err(CancelNotFound);
      }
      var i := invitations[hash];
      if !MayInvite(actor, i.role) {
        return Err(CancelForbidden);
      }
      if i.acceptedAt.Some? {
        return Err(AcceptedAlready);
      }
      if i.canceledAt.Some? {
        return Ok(i);
      }
      WriteCanceled(actor, org, hash, now);
      r := Ok(invitations[hash]);
    }

    /** The writes of the accepting transaction: the claim and the membership. */
    method WriteAccepted(user: string, address: string, hash: string, now: nat)
      requires now <= clock && AcceptAllowed(Snapshot(), hash, user, address, now)
      modifies this`invitations, this`members
      ensures Snapshot() == Next(old(Snapshot()), DoAccept(hash, user, address, now))
    {
      var i := invitations[hash];
      invitations := invitations[hash := i.(acceptedAt := Some(now))];
      members := members[(user, i.org) := i.role];
    }

    method Accept(user: string, address: string, hash: string, now: nat) returns (r: Result<Role, AcceptError>)
      requires Sound(Snapshot()) && now <= clock
      modifies this`invitations, this`members
      ensures Snapshot() == Next(old(Snapshot()), DoAccept(hash, user, address, now)) && Sound(Snapshot())
      ensures r == if hash !in old(invitations) then Err(InvitationNotFound)
                   else if ReplyAddress.Lower(old(invitations)[hash].email) != ReplyAddress.Lower(ReplyAddress.Trim(address)) then
                     Err(NotYours)
                   else if old(invitations)[hash].acceptedAt.Some? then Err(Accepted)
                   else if old(invitations)[hash].canceledAt.Some? then Err(Canceled)
                   else if old(invitations)[hash].expiresAt <= now then Err(Expired)
                   else if (user, old(invitations)[hash].org) in old(members) then Err(MemberAlready)
                   else Ok(old(invitations)[hash].role)
      ensures r.Err? ==> invitations == old(invitations) && members == old(members)
      ensures r.Ok? ==>
                && StatusOf(old(invitations)[hash], now) == PENDING
                && invitations == old(invitations)[hash := old(invitations)[hash].(acceptedAt := Some(now))]
                && members == old(members)[(user, old(invitations)[hash].org) := r.value]
    {
      if hash !in invitations {
        return Err(InvitationNotFound);
      }
      var i := invitations[hash];
      if ReplyAddress.Lower(i.email) != NormalEmail(address) {
        return Err(NotYours);
      }
      if i.acceptedAt.Some? {
        return Err(Accepted);
      }
      if i.canceledAt.Some? {
        return Err(Canceled);
      }
      if i.expiresAt <= now {
        return Err(Expired);
      }
      if (user, i.org) in members {
        return Err(MemberAlready);
      }
      AcceptSound(Snapshot(), hash, user, address, now);
      WriteAccepted(user, address, hash, now);
      r := Ok(i.role);
    }
  }

  lemma {:induction false} SoleOwner(members: map<(string, string), Role>, org: string, user: string)
    ensures OwnersOf(members, org) == {(user, org)} <==> IsOnlyOwner(members, org, user)
  {
    if OwnersOf(members, org) == {(user, org)} {
      assert (user, org) in OwnersOf(members, org);
      forall other | other != user && (other, org) in members ensures members[(other, org)] != OWNER {
        assert (other, org) !in OwnersOf(members, org);
      }
    }
    if IsOnlyOwner(members, org, user) {
      forall k ensures k in OwnersOf(members, org) <==> k == (user, org) {
        assert k == (k.0, k.1);
      }
    }
  }

  /** The guard counts owners; it refuses exactly the demotion of the only one. */
  lemma {:induction false} OnlyOwner(members: map<(string, string), Role>, org: string, user: string)
    requires (user, org) in members
    ensures members[(user, org)] == OWNER && |OwnersOf(members, org)| <= 1 <==> OwnersOf(members, org) == {(user, org)}
    ensures OwnersOf(members, org) == {(user, org)} <==> IsOnlyOwner(members, org, user)
  {
    SoleOwner(members, org, user);
    var owners, k := OwnersOf(members, org), (user, org);
    assert k in owners <==> members[k] == OWNER;
    if k in owners && |owners| <= 1 {
      assert |owners - {k}| == 0;
      assert owners == owners - {k} + {k};
    }
  }
}
