/** Lease safety: while every attempt finishes within the stale limit of the lastAttemptAt it wrote, no
    interleaving of workers, webhooks and recovery runs has two workers inside one delivery. */
module OutboundLease {
  import opened Basics
  import opened DeliveryRow
  import opened OutboundProtocol
  import opened OutboundSafety

  /** Between its claim and its finish. */
  predicate Holds(pc: Pc) {
    pc.Sending? || pc.Finishing? || pc.Filling? || pc.Failing? || pc.Resetting?
  }

  /** Every worker inside a delivery is still within its lease. */
  ghost predicate LeasesRespected(w: World) {
    forall p :: 0 <= p < |w.procs| && Holds(w.procs[p].pc) ==> w.clock <= w.procs[p].pc.stamp + 10 * 60 * 1000
  }

  ghost predicate AtMostOneHolder(w: World) {
    forall p, q | 0 <= p < |w.procs| && 0 <= q < |w.procs| && Holds(w.procs[p].pc) && Holds(w.procs[q].pc) ::
      w.procs[p].pc.c.delivery == w.procs[q].pc.c.delivery ==> p == q
  }

  /** The claim stamped t still stands, or the row has moved past sending. */
  ghost predicate ClaimStands(rows: map<string, Row>, d: string, t: nat) {
    && d in rows
    && (Rank(rows[d].status) >= 1 || (rows[d].status == SENDING && rows[d].lastAttemptAt == Some(t)))
  }

  ghost predicate PcLeased(w: World, pc: Pc) {
    && (Holds(pc) ==> ClaimStands(w.rows, pc.c.delivery, pc.stamp))
    && (pc.Filling? ==> Rank(w.rows[pc.c.delivery].status) >= 1)
    && (pc.FindingStale? || pc.ResettingStale? ==> pc.staleBefore + STALE_AFTER_MS <= w.clock)
  }

  ghost predicate Leased(w: World) {
    && AtMostOneHolder(w)
    && forall p :: 0 <= p < |w.procs| ==> PcLeased(w, w.procs[p].pc)
  }

  /** No statement of anyone else breaks a standing claim: the row is not PENDING, and it is stale only
      after its lease has run out. */
  lemma {:induction false} OthersKeepClaim(rows: map<string, Row>, stmt: Statement, fault: Fault, d: string, t: nat)
    requires ClaimStands(rows, d, t)
    requires stmt.Claim? || stmt.RecoverStale? || stmt.Correlate? || stmt.ApplyEvent?
    requires stmt.RecoverStale? ==> stmt.staleBefore <= t
    ensures ClaimStands(UpdateMany(rows, d, stmt, fault).rows, d, t)
  {
  }

  /** A worker other than the one stepping keeps its claim. */
  lemma {:induction false} BystanderKeepsClaim(w: World, pc: Pc, x: Input, d: string, t: nat)
    requires ClaimStands(w.rows, d, t) && w.clock <= t + STALE_AFTER_MS
    requires PcLeased(w, pc)
    requires Holds(pc) ==> pc.c.delivery != d
    ensures ClaimStands(TableWork(w, pc, x).rows, d, t)
  {
    if pc.Transacting? {
      var correlate := Correlate(pc.emailId);
      if pc.delivery == d {
        OthersKeepClaim(w.rows, correlate, NoFault, d, t);
        OthersKeepClaim(UpdateMany(w.rows, d, correlate, NoFault).rows, ApplyEvent(pc.kind, x.at), x.fault, d, t);
      }
    } else if StatementOf(pc, x).Some? {
      var (e, stmt) := StatementOf(pc, x).value;
      if e == d {
        OthersKeepClaim(w.rows, stmt, x.fault, d, t);
      }
    }
  }

  lemma {:induction false} TableWorkKeepsRank(w: World, pc: Pc, x: Input, d: string)
    requires d in w.rows && Rank(w.rows[d].status) >= 1
    ensures d in TableWork(w, pc, x).rows && Rank(TableWork(w, pc, x).rows[d].status) >= 1
  {
    TableWorkAdvances(w, pc, x);
  }

  /** Where the stepping worker goes: it gains a hold only by a claim that matched. */
  lemma {:induction false} HolderSteps(w: World, pc: Pc, x: Input)
    requires PcLeased(w, pc)
    ensures var hit := TableWork(w, pc, x); var after := PcAfter(w, pc, x, hit);
            Holds(after) ==>
              && ClaimStands(hit.rows, after.c.delivery, after.stamp)
              && (after.Filling? ==> Rank(hit.rows[after.c.delivery].status) >= 1)
              && (if pc.Claiming? then after.c == pc.c && pc.c.delivery in w.rows && w.rows[pc.c.delivery].status == PENDING
                  else Holds(pc) && after.c == pc.c && after.stamp == pc.stamp)
  {
    if pc.Filling? {
      TableWorkKeepsRank(w, pc, x, pc.c.delivery);
    }
  }

  lemma {:induction false} RecoveryStepsKeepDeadline(w: World, pc: Pc, x: Input, hit: Hit)
    requires PcLeased(w, pc)
    ensures var after := PcAfter(w, pc, x, hit);
            after.FindingStale? || after.ResettingStale? ==> after.staleBefore + STALE_AFTER_MS <= w.clock
  {
  }

  lemma {:induction false} SteppedProcessLeased(w: World, p: nat, x: Input)
    requires Leased(w) && Enabled(w, Advance(p, x))
    ensures PcLeased(Next(w, Advance(p, x)), Next(w, Advance(p, x)).procs[p].pc)
  {
    var pc := w.procs[p].pc;
    assert PcLeased(w, pc);
    HolderSteps(w, pc, x);
    RecoveryStepsKeepDeadline(w, pc, x, TableWork(w, pc, x));
  }

  lemma {:induction false} BystanderLeased(w: World, p: nat, x: Input, q: nat)
    requires Leased(w) && LeasesRespected(w) && Enabled(w, Advance(p, x))
    requires q < |w.procs| && q != p
    ensures PcLeased(Next(w, Advance(p, x)), w.procs[q].pc)
  {
    var pc, other := w.procs[p].pc, w.procs[q].pc;
    assert PcLeased(w, pc) && PcLeased(w, other);
    if Holds(other) {
      BystanderKeepsClaim(w, pc, x, other.c.delivery, other.stamp);
      if other.Filling? {
        TableWorkKeepsRank(w, pc, x, other.c.delivery);
      }
    }
  }

  lemma {:induction false} OneMoves(w: World, w': World, p: nat, moved: Proc)
    requires AtMostOneHolder(w) && p < |w.procs| && w'.procs == w.procs[p := moved]
    requires Holds(moved.pc) ==>
               forall q :: 0 <= q < |w.procs| && q != p && Holds(w.procs[q].pc) ==>
                 w.procs[q].pc.c.delivery != moved.pc.c.delivery
    ensures AtMostOneHolder(w')
  {
  }

  lemma {:induction false} AdvanceKeepsOneHolder(w: World, p: nat, x: Input)
    requires Leased(w) && Enabled(w, Advance(p, x))
    ensures AtMostOneHolder(Next(w, Advance(p, x)))
  {
    var w', pc := Next(w, Advance(p, x)), w.procs[p].pc;
    assert PcLeased(w, pc);
    HolderSteps(w, pc, x);
    forall q | 0 <= q < |w.procs| && q != p && Holds(w.procs[q].pc) && Holds(w'.procs[p].pc)
      ensures w.procs[q].pc.c.delivery != w'.procs[p].pc.c.delivery
    {
      assert PcLeased(w, w.procs[q].pc);
    }
    OneMoves(w, w', p, w'.procs[p]);
  }

  lemma {:induction false} AdvanceKeepsLeased(w: World, p: nat, x: Input)
    requires Leased(w) && LeasesRespected(w) && Enabled(w, Advance(p, x))
    ensures Leased(Next(w, Advance(p, x)))
  {
    var w' := Next(w, Advance(p, x));
    AdvanceKeepsOneHolder(w, p, x);
    SteppedProcessLeased(w, p, x);
    forall q | 0 <= q < |w'.procs| ensures PcLeased(w', w'.procs[q].pc) {
      if q != p {
        BystanderLeased(w, p, x, q);
      }
    }
  }

  /** From w to w' processes only end or start outside any delivery, time passes and rows stay. */
  ghost predicate AddsNoHolder(w: World, w': World) {
    && w.clock <= w'.clock
    && |w.procs| <= |w'.procs|
    && (forall p :: 0 <= p < |w.procs| ==> w'.procs[p].pc == w.procs[p].pc || w'.procs[p].pc == Done)
    && (forall p :: |w.procs| <= p < |w'.procs| ==> !Holds(w'.procs[p].pc) && PcLeased(w, w'.procs[p].pc))
    && (forall d :: d in w.rows ==> d in w'.rows && w'.rows[d] == w.rows[d])
  }

  lemma {:induction false} SpawnAddsNoHolder(w: World, a: Action)
    requires Enabled(w, a) && (a.StartWorker? || a.StartRecovery? || a.Receive?)
    ensures AddsNoHolder(w, Next(w, a))
  {
  }

  lemma {:induction false} CreateAddsNoHolder(w: World, d: string, recipient: Option<string>, at: nat, fault: Fault)
    requires Enabled(w, CreateMessage(d, recipient, at, fault))
    ensures AddsNoHolder(w, Next(w, CreateMessage(d, recipient, at, fault)))
  {
    var w' := Next(w, CreateMessage(d, recipient, at, fault));
    assert w'.clock == w.clock && w'.rows == (if fault == BeforeCommit then w.rows else w.rows[d := NewRow(recipient, true, at)]);
    assert w'.procs == w.procs || exists q :: w'.procs == w.procs + [q] && (q.pc.Queueing? || q.pc.Done?);
  }

  lemma {:induction false} OtherStepsAddNoHolder(w: World, a: Action)
    requires Enabled(w, a) && !a.Advance?
    ensures AddsNoHolder(w, Next(w, a))
  {
    match a
    case CreateMessage(d, recipient, at, fault) => CreateAddsNoHolder(w, d, recipient, at, fault);
    case StartWorker(_) => SpawnAddsNoHolder(w, a);
    case StartRecovery(_) => SpawnAddsNoHolder(w, a);
    case Receive(_, _, _) => SpawnAddsNoHolder(w, a);
    case _ =>
  }

  lemma {:induction false} NoNewHolderKeepsLeased(w: World, w': World)
    requires Leased(w) && AddsNoHolder(w, w')
    ensures Leased(w')
  {
    forall p | 0 <= p < |w'.procs| ensures PcLeased(w', w'.procs[p].pc) {
      if p < |w.procs| {
        assert PcLeased(w, w.procs[p].pc);
      }
    }
  }

  /** In every run all of whose worlds respect the leases, at most one worker per delivery is between
      its claim and its finish. A recovery run may use a staleBefore computed arbitrarily long ago. */
  lemma {:induction false} LeaseSafety(ws: seq<World>, acts: seq<Action>)
    requires IsRun(ws, acts)
    requires forall i :: 0 <= i < |acts| ==> LeasesRespected(ws[i])
    ensures Leased(ws[|acts|]) && AtMostOneHolder(ws[|acts|])
  {
    if acts != [] {
      var n := |acts| - 1;
      Shorter(ws, acts);
      LeaseSafety(ws[..|ws| - 1], acts[..n]);
      if acts[n].Advance? {
        AdvanceKeepsLeased(ws[n], acts[n].p, acts[n].x);
      } else {
        OtherStepsAddNoHolder(ws[n], acts[n]);
        NoNewHolderKeepsLeased(ws[n], ws[n + 1]);
      }
    }
  }
}
