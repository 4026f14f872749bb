/** Organisations, memberships and invitations. Serializable transactions are single steps, but the time
    they use was read before they began; cancelling reads in one step and writes in another. */
module MembershipProtocol {
  import opened Basics
  import opened ReplyAddress

  datatype Role = OWNER | ADMIN | AGENT | VIEWER

  datatype Invitation = Invitation(org: string, email: string, role: Role, expiresAt: nat,
                                   acceptedAt: Option<nat>, canceledAt: Option<nat>)

  const LIFETIME_MS: nat := 7 * 24 * 60 * 60 * 1000

  datatype World = World(
    clock: nat,
    orgs: set<string>,
    members: map<(string, string), Role>,   // unique on (user, organisation)
    users: map<string, string>,             // email to user
    invitations: map<string, Invitation>,   // by token hash, unique
    cancels: seq<string>)                   // cancellations between their read and their write

  const Initial: World := World(0, {}, map[], map[], map[], [])

  /** assertRoleAllowed and the invitation half of assertRoleChangeAllowed. */
  predicate MayInvite(actor: Role, role: Role) {
    actor == OWNER || (actor == ADMIN && role != OWNER && role != ADMIN)
  }

  predicate MayChangeRole(actor: Role, target: Role, role: Role) {
    actor == OWNER || (actor == ADMIN && target != OWNER && target != ADMIN && role != OWNER && role != ADMIN)
  }

  function NormalEmail(email: string): string {
    Lower(Trim(email))
  }

  predicate PendingAt(i: Invitation, now: nat) {
    i.acceptedAt.None? && i.canceledAt.None? && i.expiresAt > now
  }

  datatype InvitationStatus = ACCEPTED | CANCELED | EXPIRED | PENDING

  /** getStatus. */
  function StatusOf(i: Invitation, now: nat): (s: InvitationStatus)
    ensures s == PENDING <==> PendingAt(i, now)
  {
    if i.acceptedAt.Some? then ACCEPTED
    else if i.canceledAt.Some? then CANCELED
    else if i.expiresAt <= now then EXPIRED
    else PENDING
  }

  /** Acceptance outlives cancellation, and both outlive expiry; what was not pending never becomes so by waiting. */
  lemma {:induction false} StatusTells(i: Invitation, now: nat, later: nat)
    requires now <= later
    ensures StatusOf(i, now) == ACCEPTED <==> i.acceptedAt.Some?
    ensures StatusOf(i, now) == CANCELED <==> i.acceptedAt.None? && i.canceledAt.Some?
    ensures StatusOf(i, now) == EXPIRED <==> i.acceptedAt.None? && i.canceledAt.None? && i.expiresAt <= now
    ensures StatusOf(i, later) != StatusOf(i, now) ==> StatusOf(i, now) == PENDING && StatusOf(i, later) == EXPIRED
  {
  }

  function OwnersOf(members: map<(string, string), Role>, org: string): set<(string, string)> {
    set k | k in members && k.1 == org && members[k] == OWNER
  }

  function MembersOf(members: map<(string, string), Role>, org: string): set<(string, string)> {
    set k | k in members && k.1 == org
  }

  function AcceptedIn(invitations: map<string, Invitation>, org: string): set<string> {
    set h | h in invitations && invitations[h].org == org && invitations[h].acceptedAt.Some?
  }

  // ---------------------------------------------------------------- transactions; a refused one changes nothing

  function CreateOrganization(w: World, org: string, user: string): World {
    if org in w.orgs then w else w.(orgs := w.orgs + {org}, members := w.members[(user, org) := OWNER])
  }

  predicate RoleUpdateAllowed(w: World, actor: Role, org: string, user: string, role: Role) {
    && (user, org) in w.members
    && MayChangeRole(actor, w.members[(user, org)], role)
    && (w.members[(user, org)] == OWNER && role != OWNER ==> |OwnersOf(w.members, org)| > 1)
  }

  function UpdateRole(w: World, actor: Role, org: string, user: string, role: Role): World {
    if RoleUpdateAllowed(w, actor, org, user, role) then w.(members := w.members[(user, org) := role]) else w
  }

  predicate InvitationAllowed(w: World, actor: Role, org: string, email: string, role: Role, now: nat) {
    && MayInvite(actor, role)
    && !(email in w.users && (w.users[email], org) in w.members)
    && !exists h :: h in w.invitations && w.invitations[h].org == org && w.invitations[h].email == email &&
         PendingAt(w.invitations[h], now)
  }

  /** now was read before the transaction began. */
  function CreateInvitation(w: World, hash: string, actor: Role, org: string, address: string, role: Role, now: nat): World {
    var email := NormalEmail(address);
    if org !in w.orgs || hash in w.invitations || !InvitationAllowed(w, actor, org, email, role, now) then w
    else
      w.(invitations := w.invitations[hash := Invitation(org, email, role, now + LIFETIME_MS, None, None)])
  }

  predicate CancelAllowed(w: World, hash: string, actor: Role, org: string) {
    && hash in w.invitations && w.invitations[hash].org == org
    && MayInvite(actor, w.invitations[hash].role)
    && w.invitations[hash].acceptedAt.None? && w.invitations[hash].canceledAt.None?
  }

  predicate AcceptAllowed(w: World, hash: string, user: string, address: string, now: nat) {
    && hash in w.invitations
    && Lower(w.invitations[hash].email) == NormalEmail(address)
    && PendingAt(w.invitations[hash], now)
    && (user, w.invitations[hash].org) !in w.members
  }

  function Accept(w: World, hash: string, user: string, address: string, now: nat): World {
    if !AcceptAllowed(w, hash, user, address, now) then w
    else
      var i := w.invitations[hash];
      w.(invitations := w.invitations[hash := i.(acceptedAt := Some(now))], members := w.members[(user, i.org) := i.role])
  }

  datatype Action =
    | Tick(now: nat)
    | Register(user: string, email: string)
    | DoCreateOrganization(org: string, user: string)
    | DoUpdateRole(actor: Role, org: string, user: string, role: Role)
    | DoCreateInvitation(hash: string, actor: Role, org: string, address: string, role: Role, now: nat)
    | ReadForCancel(hash: string, actor: Role, org: string)
    | WriteCancel(p: nat, now: nat)
    | DoAccept(hash: string, user: string, address: string, now: nat)

  predicate Enabled(w: World, a: Action) {
    match a
    case Tick(now) => w.clock <= now
    case Register(_, email) => email !in w.users
    case ReadForCancel(hash, actor, org) => CancelAllowed(w, hash, actor, org)
    case WriteCancel(p, now) => p < |w.cancels| && w.cancels[p] in w.invitations && now <= w.clock
    case DoCreateInvitation(_, _, _, _, _, now) => now <= w.clock
    case DoAccept(_, _, _, now) => now <= w.clock
    case _ => true
  }

  function Next(w: World, a: Action): World
    requires Enabled(w, a)
  {
    match a
    case Tick(now) => w.(clock := now)
    case Register(user, email) => w.(users := w.users[email := user])
    case DoCreateOrganization(org, user) => CreateOrganization(w, org, user)
    case DoUpdateRole(actor, org, user, role) => UpdateRole(w, actor, org, user, role)
    case DoCreateInvitation(hash, actor, org, address, role, now) => CreateInvitation(w, hash, actor, org, address, role, now)
    case ReadForCancel(hash, _, _) => w.(cancels := w.cancels + [hash])
    // the write does not look again
    case WriteCancel(p, now) =>
      w.(invitations := w.invitations[w.cancels[p] := w.invitations[w.cancels[p]].(canceledAt := Some(now))],
         cancels := w.cancels[..p] + w.cancels[p + 1..])
    case DoAccept(hash, user, address, now) => Accept(w, hash, user, address, now)
  }

  /** Consecutive steps, from any world. */
  ghost predicate Steps(ws: seq<World>, acts: seq<Action>) {
    && |ws| == |acts| + 1
    && forall i :: 0 <= i < |acts| ==> Enabled(ws[i], acts[i]) && ws[i + 1] == Next(ws[i], acts[i])
  }

  ghost predicate IsRun(ws: seq<World>, acts: seq<Action>) {
    Steps(ws, acts) && ws[0] == Initial
  }

  // ---------------------------------------------------------------- invariants

  ghost predicate HasOwner(w: World, o: string) {
    |OwnersOf(w.members, o)| >= 1
  }

  ghost predicate CountsAgree(w: World, o: string) {
    |MembersOf(w.members, o)| == 1 + |AcceptedIn(w.invitations, o)|
  }

  ghost predicate Owned(w: World) {
    && (forall org :: org in w.orgs ==> HasOwner(w, org))
    && (forall k :: k in w.members ==> k.1 in w.orgs)
    && (forall h :: h in w.invitations ==> w.invitations[h].org in w.orgs)
  }

  /** One founder, and one member per accepted invitation. */
  ghost predicate Counted(w: World) {
    forall org :: org in w.orgs ==> CountsAgree(w, org)
  }

  ghost predicate OnePending(invitations: map<string, Invitation>, clock: nat) {
    forall h, g | h in invitations && g in invitations && PendingAt(invitations[h], clock) && PendingAt(invitations[g], clock) ::
      invitations[h].org == invitations[g].org && invitations[h].email == invitations[g].email ==> h == g
  }

  ghost predicate AcceptedInTime(invitations: map<string, Invitation>) {
    forall h :: h in invitations && invitations[h].acceptedAt.Some? ==>
      invitations[h].acceptedAt.value < invitations[h].expiresAt
  }

  ghost predicate Sound(w: World) {
    Owned(w) && Counted(w) && OnePending(w.invitations, w.clock) && AcceptedInTime(w.invitations)
  }

  // ---------------------------------------------------------------- one write at a time

  lemma {:induction false} SetMember(members: map<(string, string), Role>, k: (string, string), role: Role, o: string)
    ensures MembersOf(members[k := role], o) == if k.1 == o then MembersOf(members, o) + {k} else MembersOf(members, o)
    ensures OwnersOf(members[k := role], o) ==
            if k.1 != o then OwnersOf(members, o)
            else if role == OWNER then OwnersOf(members, o) + {k}
            else OwnersOf(members, o) - {k}
  {
  }

  lemma {:induction false} SetInvitation(invitations: map<string, Invitation>, h: string, i: Invitation, o: string)
    requires h in invitations ==> invitations[h].org == i.org
    ensures AcceptedIn(invitations[h := i], o) ==
            if i.org == o && i.acceptedAt.Some? then AcceptedIn(invitations, o) + {h}
            else if i.org == o then AcceptedIn(invitations, o) - {h}
            else AcceptedIn(invitations, o)
  {
  }

  lemma {:induction false} CreateOrganizationSound(w: World, org: string, user: string)
    requires Sound(w)
    ensures Sound(CreateOrganization(w, org, user))
    ensures org !in w.orgs ==>
              var members := CreateOrganization(w, org, user).members;
              MembersOf(members, org) == OwnersOf(members, org) == {(user, org)}
  {
    if org !in w.orgs {
      NobodyElsewhere(w, org);
      SetMember(w.members, (user, org), OWNER, org);
      forall o ensures o in w.orgs + {org} ==> HasOwner(CreateOrganization(w, org, user), o) && CountsAgree(CreateOrganization(w, org, user), o) {
        SetMember(w.members, (user, org), OWNER, o);
        if o == org {
          NobodyElsewhere(w, org);
        }
      }
    }
  }

  lemma {:induction false} NobodyElsewhere(w: World, org: string)
    requires Owned(w) && org !in w.orgs
    ensures MembersOf(w.members, org) == {} && OwnersOf(w.members, org) == {} && AcceptedIn(w.invitations, org) == {}
  {
  }

  /** The last-owner guard: demoting needs a second owner. */
  lemma {:induction false} UpdateRoleSound(w: World, actor: Role, org: string, user: string, role: Role)
    requires Sound(w)
    ensures Sound(UpdateRole(w, actor, org, user, role))
  {
    if RoleUpdateAllowed(w, actor, org, user, role) {
      forall o | o in w.orgs ensures HasOwner(UpdateRole(w, actor, org, user, role), o) && CountsAgree(UpdateRole(w, actor, org, user, role), o) {
        RoleChangeKeepsOrg(w, org, user, role, o);
      }
    }
  }

  lemma {:induction false} RoleChangeKeepsOrg(w: World, org: string, user: string, role: Role, o: string)
    requires (user, org) in w.members && HasOwner(w, o) && CountsAgree(w, o)
    requires w.members[(user, org)] == OWNER && role != OWNER ==> |OwnersOf(w.members, org)| > 1
    ensures var w' := w.(members := w.members[(user, org) := role]);
            HasOwner(w', o) && CountsAgree(w', o)
  {
    var k := (user, org);
    SetMember(w.members, k, role, o);
    if o == org {
      assert k in MembersOf(w.members, o);
      assert MembersOf(w.members, o) + {k} == MembersOf(w.members, o);
      assert k in OwnersOf(w.members, o) <==> w.members[k] == OWNER;
    }
  }

  /** A stale now only makes the check stricter: what is pending at the clock was pending before. */
  lemma {:induction false} CreateInvitationSound(w: World, hash: string, actor: Role, org: string, address: string, role: Role, now: nat)
    requires Sound(w) && now <= w.clock
    ensures Sound(CreateInvitation(w, hash, actor, org, address, role, now))
  {
    NewIsOnlyPending(w, hash, actor, org, address, role, now);
    NewIsNotAccepted(w, hash, actor, org, address, role, now);
  }

  lemma {:induction false} NewIsNotAccepted(w: World, hash: string, actor: Role, org: string, address: string, role: Role, now: nat)
    requires Owned(w) && Counted(w) && AcceptedInTime(w.invitations)
    ensures var w' := CreateInvitation(w, hash, actor, org, address, role, now);
            Owned(w') && Counted(w') && AcceptedInTime(w'.invitations)
  {
    var w' := CreateInvitation(w, hash, actor, org, address, role, now);
    if w' != w {
      forall o | o in w.orgs ensures HasOwner(w', o) && CountsAgree(w', o) {
        SetInvitation(w.invitations, hash, w'.invitations[hash], o);
        assert hash !in AcceptedIn(w.invitations, o);
        assert HasOwner(w, o) && CountsAgree(w, o);
      }
    }
  }

  lemma {:induction false} NewIsOnlyPending(w: World, hash: string, actor: Role, org: string, address: string, role: Role, now: nat)
    requires OnePending(w.invitations, w.clock) && now <= w.clock
    ensures OnePending(CreateInvitation(w, hash, actor, org, address, role, now).invitations, w.clock)
  {
    var email := NormalEmail(address);
    if org in w.orgs && hash !in w.invitations && InvitationAllowed(w, actor, org, email, role, now) {
      forall h | h in w.invitations && PendingAt(w.invitations[h], w.clock)
        ensures !(w.invitations[h].org == org && w.invitations[h].email == email)
      {
        assert PendingAt(w.invitations[h], now);
      }
    }
  }

  /** Accepting adds exactly one member and one accepted invitation, both new. */
  lemma {:induction false} AcceptAddsOne(w: World, hash: string, user: string, address: string, now: nat)
    requires AcceptAllowed(w, hash, user, address, now)
    ensures var org, w' := w.invitations[hash].org, Accept(w, hash, user, address, now);
            && (user, org) !in MembersOf(w.members, org) && MembersOf(w'.members, org) == MembersOf(w.members, org) + {(user, org)}
            && hash !in AcceptedIn(w.invitations, org) && AcceptedIn(w'.invitations, org) == AcceptedIn(w.invitations, org) + {hash}
  {
    var i := w.invitations[hash];
    SetMember(w.members, (user, i.org), i.role, i.org);
    SetInvitation(w.invitations, hash, i.(acceptedAt := Some(now)), i.org);
  }

  lemma {:induction false} AcceptSound(w: World, hash: string, user: string, address: string, now: nat)
    requires Sound(w)
    ensures Sound(Accept(w, hash, user, address, now))
  {
    if AcceptAllowed(w, hash, user, address, now) {
      AcceptKeepsCounts(w, hash, user, address, now);
      SettlingKeepsPending(w.invitations, hash, w.invitations[hash].(acceptedAt := Some(now)), w.clock);
    }
  }

  lemma {:induction false} AcceptKeepsCounts(w: World, hash: string, user: string, address: string, now: nat)
    requires Owned(w) && Counted(w) && AcceptAllowed(w, hash, user, address, now)
    ensures Owned(Accept(w, hash, user, address, now)) && Counted(Accept(w, hash, user, address, now))
  {
    forall o | o in w.orgs ensures HasOwner(Accept(w, hash, user, address, now), o) && CountsAgree(Accept(w, hash, user, address, now), o) {
      JoiningKeepsOrg(w, hash, user, now, o);
    }
  }

  lemma {:induction false} JoiningKeepsOrg(w: World, hash: string, user: string, now: nat, o: string)
    requires hash in w.invitations && w.invitations[hash].acceptedAt.None?
    requires (user, w.invitations[hash].org) !in w.members && HasOwner(w, o) && CountsAgree(w, o)
    ensures var i := w.invitations[hash];
            var w' := w.(invitations := w.invitations[hash := i.(acceptedAt := Some(now))], members := w.members[(user, i.org) := i.role]);
            HasOwner(w', o) && CountsAgree(w', o)
  {
    var i := w.invitations[hash];
    SetMember(w.members, (user, i.org), i.role, o);
    SetInvitation(w.invitations, hash, i.(acceptedAt := Some(now)), o);
    assert (user, i.org) !in MembersOf(w.members, o) && (user, i.org) !in OwnersOf(w.members, o);
    assert hash !in AcceptedIn(w.invitations, o);
  }

  /** Replacing an invitation by one that is not pending creates no second pending one. */
  lemma {:induction false} SettlingKeepsPending(invitations: map<string, Invitation>, h: string, i: Invitation, clock: nat)
    requires OnePending(invitations, clock) && !PendingAt(i, clock)
    ensures OnePending(invitations[h := i], clock)
  {
  }

  lemma {:induction false} CancellingCountsNothing(invitations: map<string, Invitation>, h: string, i: Invitation, o: string)
    requires h in invitations && i == invitations[h].(canceledAt := i.canceledAt)
    ensures AcceptedIn(invitations[h := i], o) == AcceptedIn(invitations, o)
  {
    SetInvitation(invitations, h, i, o);
  }

  lemma {:induction false} WriteCancelSound(w: World, p: nat, now: nat)
    requires Sound(w) && Enabled(w, WriteCancel(p, now))
    ensures Sound(Next(w, WriteCancel(p, now)))
  {
    var h := w.cancels[p];
    var i := w.invitations[h].(canceledAt := Some(now));
    var w' := Next(w, WriteCancel(p, now));
    forall o ensures CountsAgree(w', o) <==> CountsAgree(w, o) {
      CancellingCountsNothing(w.invitations, h, i, o);
    }
    SettlingKeepsPending(w.invitations, h, i, w.clock);
  }

  lemma {:induction false} NextSound(w: World, a: Action)
    requires Sound(w) && Enabled(w, a)
    ensures Sound(Next(w, a))
  {
    match a
    case DoCreateOrganization(org, user) => CreateOrganizationSound(w, org, user);
    case DoUpdateRole(actor, org, user, role) => UpdateRoleSound(w, actor, org, user, role);
    case DoCreateInvitation(hash, actor, org, address, role, now) => CreateInvitationSound(w, hash, actor, org, address, role, now);
    case DoAccept(hash, user, address, now) => AcceptSound(w, hash, user, address, now);
    case WriteCancel(p, now) => WriteCancelSound(w, p, now);
    case _ =>
  }

  /** The membership invariants hold in every reachable world. */
  lemma {:induction false} AlwaysSound(ws: seq<World>, acts: seq<Action>)
    requires IsRun(ws, acts)
    ensures Sound(ws[|acts|])
  {
    if acts != [] {
      var n := |acts| - 1;
      AlwaysSound(ws[..n + 1], acts[..n]);
      NextSound(ws[n], acts[n]);
    }
  }

  predicate Privileged(role: Role) {
    role == OWNER || role == ADMIN
  }

  /** Only an owner makes, changes or invites owners and admins; below admin nobody changes anything. */
  lemma {:induction false} PrivilegeNeedsOwner(w: World, actor: Role, org: string, user: string, hash: string, address: string, role: Role, now: nat)
    requires actor != OWNER
    ensures var members := UpdateRole(w, actor, org, user, role).members;
            && members.Keys == w.members.Keys
            && forall k :: k in members && (Privileged(members[k]) || Privileged(w.members[k])) ==> members[k] == w.members[k]
    ensures var invitations := CreateInvitation(w, hash, actor, org, address, role, now).invitations;
            forall h :: h in invitations && h !in w.invitations ==> !Privileged(invitations[h].role)
    ensures actor != ADMIN ==> UpdateRole(w, actor, org, user, role) == w
    ensures actor != ADMIN ==> CreateInvitation(w, hash, actor, org, address, role, now) == w
  {
  }

  /** An invitation is accepted once: its acceptance time, once written, never changes. */
  lemma {:induction false} AcceptedOnce(ws: seq<World>, acts: seq<Action>, i: nat, j: nat, hash: string)
    requires IsRun(ws, acts) && i <= j < |ws|
    requires hash in ws[i].invitations && ws[i].invitations[hash].acceptedAt.Some?
    ensures hash in ws[j].invitations && ws[j].invitations[hash].acceptedAt == ws[i].invitations[hash].acceptedAt
    decreases j - i
  {
    if i < j {
      assert ws[i + 1] == Next(ws[i], acts[i]);
      AcceptedOnce(ws, acts, i + 1, j, hash);
    }
  }

  // ---------------------------------------------------------------- accepted and cancelled

  predicate OnlyAccepted(w: World, hash: string) {
    hash in w.invitations && w.invitations[hash].acceptedAt.Some? && w.invitations[hash].canceledAt.None?
  }

  predicate AcceptedAndCanceled(w: World, hash: string) {
    hash in w.invitations && w.invitations[hash].acceptedAt.Some? && w.invitations[hash].canceledAt.Some?
  }

  /** With no cancellation of it between its read and its write, an accepted invitation stays so. */
  lemma {:induction false} AcceptedStays(ws: seq<World>, acts: seq<Action>, hash: string)
    requires Steps(ws, acts) && OnlyAccepted(ws[0], hash) && hash !in ws[0].cancels
    ensures OnlyAccepted(ws[|acts|], hash) && hash !in ws[|acts|].cancels
    decreases |acts|
  {
    if acts != [] {
      assert ws[1] == Next(ws[0], acts[0]);
      assert OnlyAccepted(ws[1], hash) && hash !in ws[1].cancels;
      AcceptedStays(ws[1..], acts[1..], hash);
    }
  }

  /** An accepted invitation can still come to be cancelled as well if and only if a cancellation of it
      stands between its read and its write. */
  lemma {:induction false} BothExactlyWhenCancelling(w: World, hash: string)
    requires OnlyAccepted(w, hash)
    ensures (exists ws, acts :: Steps(ws, acts) && ws[0] == w && AcceptedAndCanceled(ws[|acts|], hash)) <==> hash in w.cancels
  {
    if hash in w.cancels {
      var p :| 0 <= p < |w.cancels| && w.cancels[p] == hash;
      var acts := [WriteCancel(p, 0)];
      var ws := [w, Next(w, acts[0])];
      assert Steps(ws, acts) && AcceptedAndCanceled(ws[|acts|], hash);
    } else {
      forall ws, acts | Steps(ws, acts) && ws[0] == w ensures !AcceptedAndCanceled(ws[|acts|], hash) {
        AcceptedStays(ws, acts, hash);
      }
    }
  }

  /** Step i of the run accepts the invitation while a cancellation of it is between read and write. */
  ghost predicate AcceptsWhileCancelling(w: World, a: Action, hash: string) {
    a.DoAccept? && a.hash == hash && AcceptAllowed(w, hash, a.user, a.address, a.now) && hash in w.cancels
  }

  /** No other run ends with an invitation both accepted and cancelled. */
  lemma {:induction false} BothMeansRaced(ws: seq<World>, acts: seq<Action>, hash: string) returns (i: nat)
    requires IsRun(ws, acts)
    requires AcceptedAndCanceled(ws[|acts|], hash) || (OnlyAccepted(ws[|acts|], hash) && hash in ws[|acts|].cancels)
    ensures i < |acts| && AcceptsWhileCancelling(ws[i], acts[i], hash)
    decreases |acts|
  {
    var n := |acts| - 1;
    assert acts != [];
    assert ws[n + 1] == Next(ws[n], acts[n]);
    if AcceptsWhileCancelling(ws[n], acts[n], hash) {
      i := n;
    } else {
      i := BothMeansRaced(ws[..n + 1], acts[..n], hash);
    }
  }

  lemma {:induction false} OneMore(ws: seq<World>, acts: seq<Action>, a: Action)
    requires IsRun(ws, acts) && Enabled(ws[|acts|], a)
    ensures IsRun(ws + [Next(ws[|acts|], a)], acts + [a])
  {
  }

  /** And there is such a run: invite, read for cancelling, accept, write the cancellation. */
  lemma {:induction false} AcceptedAndCanceledHappens() returns (ws: seq<World>, acts: seq<Action>)
    ensures IsRun(ws, acts) && AcceptedAndCanceled(ws[|acts|], "t")
  {
    assert NormalEmail("b") == "b" && Lower("b") == "b";
    ws, acts := Raced();
    ws, acts := ws + [Next(ws[|acts|], WriteCancel(0, 0))], acts + [WriteCancel(0, 0)];
  }

  /** The run up to the acceptance. */
  lemma {:induction false} Raced() returns (ws: seq<World>, acts: seq<Action>)
    ensures IsRun(ws, acts) && OnlyAccepted(ws[|acts|], "t") && ws[|acts|].cancels == ["t"]
  {
    assert NormalEmail("b") == "b" && Lower("b") == "b";
    var invite := DoCreateInvitation("t", OWNER, "o", "b", AGENT, 0);
    var w1 := Next(Initial, DoCreateOrganization("o", "alice"));
    var w2 := Next(w1, invite);
    assert w2.invitations == map["t" := Invitation("o", "b", AGENT, LIFETIME_MS, None, None)];
    var w3 := Next(w2, ReadForCancel("t", OWNER, "o"));
    assert w3.cancels == ["t"];
    ws, acts := [Initial, w1, w2, w3], [DoCreateOrganization("o", "alice"), invite, ReadForCancel("t", OWNER, "o")];
    OneMore(ws, acts, DoAccept("t", "bob", "b", 0));
    ws, acts := ws + [Next(w3, DoAccept("t", "bob", "b", 0))], acts + [DoAccept("t", "bob", "b", 0)];
  }
}
