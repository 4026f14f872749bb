/** No stranded delivery: from any world whatever (so from every reachable one, however it crashed), a
    recovery run that gets through leaves each PENDING or stale delivery PENDING with a live job, unless
    another process took the delivery up meanwhile. */
module OutboundRecovery {
  import opened Basics
  import opened DeliveryRow
  import opened OutboundProtocol
  import opened OutboundAlone

  /** What a recovery run with this staleBefore has to deal with. */
  ghost function Backlog(rows: map<string, Row>, staleBefore: int): set<string> {
    set d | d in rows && (rows[d].status == PENDING || IsStale(rows[d], staleBefore))
  }

  ghost predicate JobLive(jobs: map<string, Job>, d: string) {
    JobId(d) in jobs && jobs[JobId(d)].state !in {FailedJob, CompletedJob}
  }

  /** The queue still is as the previous call of ensureEmailDeliveryQueued saw it. */
  ghost predicate CallInSight(jobs: map<string, Job>, d: string, op: QueueOp) {
    match op
    case GetState => JobId(d) in jobs
    case RetryJob => JobId(d) in jobs && jobs[JobId(d)].state == FailedJob
    case RemoveJob => JobId(d) in jobs && jobs[JobId(d)].state == CompletedJob
    case AddJob => JobId(d) !in jobs
    case _ => true
  }

  /** Recovery process r is on its way to requeue delivery d. */
  ghost predicate OnTrack(w: World, r: nat, d: string, staleBefore: int) {
    && r < |w.procs|
    && d in w.rows
    && match w.procs[r].pc
       case FindingStale(since) => since == staleBefore && d in Backlog(w.rows, staleBefore)
       case ResettingStale(todo, since) =>
         since == staleBefore && (w.rows[d].status == PENDING || (IsStale(w.rows[d], staleBefore) && d in todo))
       case FindingPending => w.rows[d].status == PENDING
       case Queueing(e, op, rest) =>
         && w.rows[d].status == PENDING
         && (if e == d then CallInSight(w.jobs, d, op) else d in rest || JobLive(w.jobs, d))
       case Done => w.rows[d].status == PENDING && JobLive(w.jobs, d)
       case _ => false
  }

  /** And a batch holds all there is to do. */
  ghost predicate Recovering(w: World, r: nat, d: string, staleBefore: int) {
    OnTrack(w, r, d, staleBefore) && |Backlog(w.rows, staleBefore)| <= RECOVERY_BATCH
  }

  lemma {:induction false} JobIdInjective(d: string, e: string)
    requires JobId(d) == JobId(e)
    ensures d == e
  {
    var k := |"email-delivery-"|;
    assert JobId(d)[k..] == d && JobId(e)[k..] == e;
  }

  /** A batch query over a backlog that fits a batch returns all of it. */
  lemma {:induction false} BatchIsComplete(found: seq<string>, backlog: set<string>, d: string)
    requires |found| <= RECOVERY_BATCH && Distinct(found) && |backlog| <= RECOVERY_BATCH
    requires forall e :: e in found ==> e in backlog
    requires |found| < RECOVERY_BATCH ==> d in found
    requires d in backlog
    ensures d in found
  {
    DistinctFills(found, backlog);
  }

  /** Recovering one stale row keeps the backlog the same set. */
  lemma {:induction false} ResetKeepsBacklog(rows: map<string, Row>, e: string, staleBefore: int)
    ensures var hit := UpdateMany(rows, e, RecoverStale(staleBefore), NoFault);
            && !hit.threw
            && hit.rows.Keys == rows.Keys
            && Backlog(hit.rows, staleBefore) == Backlog(rows, staleBefore)
            && (forall d :: d in rows && d != e ==> hit.rows[d] == rows[d])
            && (e in rows && IsStale(rows[e], staleBefore) ==> hit.rows[e].status == PENDING)
            && (e in rows && rows[e].status == PENDING ==> hit.rows[e] == rows[e])
  {
  }

  lemma {:induction false} QueueCallOnTrack(jobs: map<string, Job>, e: string, op: QueueOp, rest: seq<string>, d: string)
    requires if e == d then CallInSight(jobs, d, op) else d in rest || JobLive(jobs, d)
    ensures var after := AfterQueueCall(jobs, e, op, rest, false); var jobs' := QueueCall(jobs, JobId(e), op);
            match after
            case Queueing(e', op', rest') => if e' == d then CallInSight(jobs', d, op') else d in rest' || JobLive(jobs', d)
            case _ => after == Done && JobLive(jobs', d)
  {
    if JobId(e) == JobId(d) {
      JobIdInjective(e, d);
    }
    assert d in rest ==> d == rest[0] || d in rest[1..];
  }

  lemma {:induction false} QueueingOnTrack(w: World, r: nat, x: Input, d: string, staleBefore: int)
    requires Recovering(w, r, d, staleBefore) && w.procs[r].pc.Queueing?
    requires Enabled(w, Advance(r, x)) && x.fault == NoFault
    ensures Recovering(Next(w, Advance(r, x)), r, d, staleBefore)
  {
    var pc := w.procs[r].pc;
    QueueCallOnTrack(w.jobs, pc.delivery, pc.op, pc.rest, d);
  }

  lemma {:induction false} ResettingOnTrack(w: World, r: nat, x: Input, d: string, staleBefore: int)
    requires Recovering(w, r, d, staleBefore) && w.procs[r].pc.ResettingStale?
    requires Enabled(w, Advance(r, x)) && x.fault == NoFault
    ensures Recovering(Next(w, Advance(r, x)), r, d, staleBefore)
  {
    var todo := w.procs[r].pc.todo;
    if todo != [] {
      ResetKeepsBacklog(w.rows, todo[0], staleBefore);
      assert d in todo ==> d == todo[0] || d in todo[1..];
    }
  }

  lemma {:induction false} FindingOnTrack(w: World, r: nat, x: Input, d: string, staleBefore: int)
    requires Recovering(w, r, d, staleBefore) && (w.procs[r].pc.FindingStale? || w.procs[r].pc.FindingPending?)
    requires Enabled(w, Advance(r, x)) && x.fault == NoFault
    ensures Recovering(Next(w, Advance(r, x)), r, d, staleBefore)
  {
    if w.procs[r].pc.FindingPending? || w.rows[d].status != PENDING {
      BatchIsComplete(x.found, Backlog(w.rows, staleBefore), d);
      assert d == x.found[0] || d in x.found[1..];
    }
  }

  lemma {:induction false} RecoveryStaysOnTrack(w: World, r: nat, a: Action, d: string, staleBefore: int)
    requires Recovering(w, r, d, staleBefore)
    requires StepOf(a, r, true) && Enabled(w, a)
    ensures Recovering(Next(w, a), r, d, staleBefore)
  {
    match a
    case Advance(_, x) =>
      match w.procs[r].pc {
        case Queueing(_, _, _) => QueueingOnTrack(w, r, x, d, staleBefore);
        case ResettingStale(_, _) => ResettingOnTrack(w, r, x, d, staleBefore);
        case _ => FindingOnTrack(w, r, x, d, staleBefore);
      }
    case Publish(_) =>
  }

  /** An upper bound on the steps a recovery run still takes. */
  function StepsLeft(q: Proc): nat {
    (if q.owes.Some? then 1 else 0) + 2 *
    match q.pc
    case FindingStale(_) => 5 * RECOVERY_BATCH + RECOVERY_BATCH + 3
    case ResettingStale(todo, _) => 5 * RECOVERY_BATCH + |todo| + 2
    case FindingPending => 5 * RECOVERY_BATCH + 1
    case Queueing(_, op, rest) =>
      5 * |rest| + (match op case GetJob => 5 case GetState => 4 case RetryJob => 3 case RemoveJob => 3 case AddJob => 2)
    case _ => 0
  }

  predicate RecoveryPc(pc: Pc) {
    pc.FindingStale? || pc.ResettingStale? || pc.FindingPending? || pc.Queueing? || pc.Done?
  }

  lemma {:induction false} RecoveryPcProgress(w: World, pc: Pc, x: Input)
    requires RecoveryPc(pc) && pc != Done
    requires QueryAnswered(w, pc, x) && x.fault == NoFault
    ensures RecoveryPc(PcAfter(w, pc, x, TableWork(w, pc, x)))
    ensures StepsLeft(Proc(PcAfter(w, pc, x, TableWork(w, pc, x)), None)) + 2 <= StepsLeft(Proc(pc, None))
  {
  }

  lemma {:induction false} RecoveryMakesProgress(w: World, r: nat, a: Action)
    requires r < |w.procs| && RecoveryPc(w.procs[r].pc)
    requires StepOf(a, r, true) && Enabled(w, a)
    ensures RecoveryPc(Next(w, a).procs[r].pc)
    ensures StepsLeft(Next(w, a).procs[r]) < StepsLeft(w.procs[r])
  {
    if a.Advance? {
      RecoveryPcProgress(w, w.procs[r].pc, a.x);
      OwesOne(w, r, a.x);
    }
  }

  lemma {:induction false} OwesOne(w: World, r: nat, x: Input)
    requires Enabled(w, Advance(r, x)) && RecoveryPc(w.procs[r].pc)
    ensures var after := PcAfter(w, w.procs[r].pc, x, TableWork(w, w.procs[r].pc, x));
            && w.procs[r].owes == None
            && Next(w, Advance(r, x)).procs[r].pc == after
            && StepsLeft(Next(w, Advance(r, x)).procs[r]) <= 1 + StepsLeft(Proc(after, None))
  {
  }

  lemma {:induction false} RecoveryRunOnTrack(ws: seq<World>, acts: seq<Action>, r: nat, d: string, staleBefore: int)
    requires AloneRun(ws, acts, r, true) && Recovering(ws[0], r, d, staleBefore)
    ensures Recovering(ws[|acts|], r, d, staleBefore)
    decreases |acts|
  {
    if acts != [] {
      var n := |acts| - 1;
      RecoveryRunOnTrack(ws[..n + 1], acts[..n], r, d, staleBefore);
      RecoveryStaysOnTrack(ws[n], r, acts[n], d, staleBefore);
    }
  }

  // ---------------------------------------------------------------- such a run exists

  /** A finite set of rows can be listed oldest first. */
  lemma {:induction false} OldestFirst(rows: map<string, Row>, ids: set<string>) returns (found: seq<string>)
    requires ids <= rows.Keys
    ensures Distinct(found) && |found| == |ids|
    ensures forall d :: d in found <==> d in ids
    ensures forall i, j :: 0 <= i < j < |found| ==> rows[found[i]].createdAt <= rows[found[j]].createdAt
  {
    found := [];
    if ids != {} {
      var newest := Newest(rows, ids);
      var rest := OldestFirst(rows, ids - {newest});
      found := rest + [newest];
    }
  }

  lemma {:induction false} Newest(rows: map<string, Row>, ids: set<string>) returns (newest: string)
    requires ids <= rows.Keys && ids != {}
    ensures newest in ids && forall d :: d in ids ==> rows[d].createdAt <= rows[newest].createdAt
  {
    newest :| newest in ids;
    if ids != {newest} {
      var other := Newest(rows, ids - {newest});
      if rows[newest].createdAt <= rows[other].createdAt {
        newest := other;
      }
    }
  }

  /** While it is not done, a recovery run on track always has a step to take. */
  lemma {:induction false} NextRecoveryStep(w: World, r: nat, d: string, staleBefore: int) returns (a: Action)
    requires Recovering(w, r, d, staleBefore)
    requires w.procs[r].pc != Done || w.procs[r].owes.Some?
    ensures StepOf(a, r, true) && Enabled(w, a)
  {
    var backlog := Backlog(w.rows, staleBefore);
    var stale := set e | e in backlog && IsStale(w.rows[e], staleBefore);
    var pending := set e | e in backlog && w.rows[e].status == PENDING;
    var ids := if w.procs[r].pc.FindingStale? then stale else pending;
    SubsetNoLarger(ids, backlog);
    var found := OldestFirst(w.rows, ids);
    a := if w.procs[r].owes.Some? then Publish(r) else Advance(r, Input(0, NoFault, Reply(None, NoId), found));
  }

  lemma {:induction false} SubsetNoLarger<T>(xs: set<T>, ys: set<T>)
    requires xs <= ys
    ensures |xs| <= |ys|
  {
    if xs != {} {
      var x :| x in xs;
      SubsetNoLarger(xs - {x}, ys - {x});
    }
  }

  /** Left alone, a recovery run on track gets through. */
  lemma {:induction false} RecoveryCompletes(w: World, r: nat, d: string, staleBefore: int)
      returns (ws: seq<World>, acts: seq<Action>)
    requires Recovering(w, r, d, staleBefore)
    ensures AloneRun(ws, acts, r, true) && ws[0] == w
    ensures Recovering(ws[|acts|], r, d, staleBefore) && ws[|acts|].procs[r] == Proc(Done, None)
    decreases StepsLeft(w.procs[r])
  {
    if w.procs[r].pc == Done && w.procs[r].owes == None {
      ws, acts := [w], [];
    } else {
      var a := NextRecoveryStep(w, r, d, staleBefore);
      RecoveryStaysOnTrack(w, r, a, d, staleBefore);
      RecoveryMakesProgress(w, r, a);
      var ws', acts' := RecoveryCompletes(Next(w, a), r, d, staleBefore);
      ws, acts := [w] + ws', [a] + acts';
      StepFirst(w, a, ws', acts', r, true);
    }
  }

  /** d is safe again: waiting to be claimed, with a job that will run. */
  ghost predicate Requeued(w: World, d: string) {
    d in w.rows && w.rows[d].status == PENDING && JobLive(w.jobs, d)
  }

  // ---------------------------------------------------------------- among other processes

  predicate Concerns(a: Action, r: nat) {
    (a.Publish? || a.Crash? || a.Advance?) && a.p == r
  }

  /** Any steps of any processes, among them fault-free ones of recovery process r. */
  ghost predicate SharedRun(ws: seq<World>, acts: seq<Action>, r: nat) {
    && |ws| == |acts| + 1
    && forall i :: 0 <= i < |acts| ==>
         Enabled(ws[i], acts[i]) && ws[i + 1] == Next(ws[i], acts[i]) && (Concerns(acts[i], r) ==> StepOf(acts[i], r, true))
  }

  function OwnSteps(acts: seq<Action>, r: nat): nat {
    if acts == [] then 0 else OwnSteps(acts[..|acts| - 1], r) + (if Concerns(acts[|acts| - 1], r) then 1 else 0)
  }

  /** Delivery d and its job are the same in both worlds. */
  ghost predicate SameDelivery(w: World, w': World, d: string) {
    && (d in w.rows ==> d in w'.rows && w'.rows[d] == w.rows[d])
    && (JobId(d) in w.jobs <==> JobId(d) in w'.jobs)
    && (JobId(d) in w.jobs ==> w'.jobs[JobId(d)] == w.jobs[JobId(d)])
  }

  /** A step of another process that changes delivery d or its job. */
  ghost predicate Interferes(w: World, a: Action, w': World, r: nat, d: string) {
    !Concerns(a, r) && !SameDelivery(w, w', d)
  }

  lemma {:induction false} OthersKeepProcess(w: World, a: Action, r: nat)
    requires Enabled(w, a) && r < |w.procs| && !Concerns(a, r)
    ensures r < |Next(w, a).procs| && Next(w, a).procs[r] == w.procs[r]
  {
  }

  lemma {:induction false} OthersKeepTrack(w: World, w': World, r: nat, d: string, staleBefore: int)
    requires OnTrack(w, r, d, staleBefore) && SameDelivery(w, w', d)
    requires r < |w'.procs| && w'.procs[r] == w.procs[r]
    ensures OnTrack(w', r, d, staleBefore)
  {
  }

  lemma {:induction false} StepsShrink(w: World, a: Action, r: nat)
    requires Enabled(w, a) && r < |w.procs| && RecoveryPc(w.procs[r].pc)
    requires Concerns(a, r) ==> StepOf(a, r, true)
    ensures r < |Next(w, a).procs| && RecoveryPc(Next(w, a).procs[r].pc)
    ensures StepsLeft(Next(w, a).procs[r]) + (if Concerns(a, r) then 1 else 0) <= StepsLeft(w.procs[r])
  {
    if Concerns(a, r) {
      RecoveryMakesProgress(w, r, a);
    } else {
      OthersKeepProcess(w, a, r);
    }
  }

  lemma {:induction false} OwnStepsBounded(ws: seq<World>, acts: seq<Action>, r: nat)
    requires SharedRun(ws, acts, r) && r < |ws[0].procs| && RecoveryPc(ws[0].procs[r].pc)
    ensures r < |ws[|acts|].procs| && RecoveryPc(ws[|acts|].procs[r].pc)
    ensures OwnSteps(acts, r) + StepsLeft(ws[|acts|].procs[r]) <= StepsLeft(ws[0].procs[r])
    decreases |acts|
  {
    if acts != [] {
      var n := |acts| - 1;
      OwnStepsBounded(ws[..n + 1], acts[..n], r);
      StepsShrink(ws[n], acts[n], r);
    }
  }

  lemma {:induction false} SharedRunOnTrack(ws: seq<World>, acts: seq<Action>, r: nat, d: string, staleBefore: int)
    requires SharedRun(ws, acts, r) && OnTrack(ws[0], r, d, staleBefore)
    requires forall i :: 0 <= i < |ws| ==> |Backlog(ws[i].rows, staleBefore)| <= RECOVERY_BATCH
    requires forall i :: 0 <= i < |acts| ==> !Interferes(ws[i], acts[i], ws[i + 1], r, d)
    ensures OnTrack(ws[|acts|], r, d, staleBefore)
    decreases |acts|
  {
    if acts != [] {
      var n := |acts| - 1;
      SharedRunOnTrack(ws[..n + 1], acts[..n], r, d, staleBefore);
      if Concerns(acts[n], r) {
        RecoveryStaysOnTrack(ws[n], r, acts[n], d, staleBefore);
      } else {
        OthersKeepProcess(ws[n], acts[n], r);
        OthersKeepTrack(ws[n], ws[n + 1], r, d, staleBefore);
      }
    }
  }

  /** Start a recovery run in any world at all, and let every other process go on. Whichever way its queries
      are answered it takes a bounded number of steps, and once it is done every delivery that was PENDING
      or stale is requeued, unless another process changed that delivery or its job meanwhile. */
  lemma {:induction false} NoStrandedDelivery(w: World, at: nat, ws: seq<World>, acts: seq<Action>, d: string)
    requires Enabled(w, StartRecovery(at))
    requires d in Backlog(w.rows, at - 10 * 60 * 1000)
    requires SharedRun(ws, acts, |w.procs|) && ws[0] == Next(w, StartRecovery(at))
    requires forall i :: 0 <= i < |ws| ==> |Backlog(ws[i].rows, at - 10 * 60 * 1000)| <= 100
    ensures OwnSteps(acts, |w.procs|) <= 1206
    ensures |ws[|acts|].procs| > |w.procs|
    ensures ws[|acts|].procs[|w.procs|].pc == Done ==>
              || Requeued(ws[|acts|], d)
              || exists i :: 0 <= i < |acts| && Interferes(ws[i], acts[i], ws[i + 1], |w.procs|, d)
  {
    OwnStepsBounded(ws, acts, |w.procs|);
    if forall i :: 0 <= i < |acts| ==> !Interferes(ws[i], acts[i], ws[i + 1], |w.procs|, d) {
      SharedRunOnTrack(ws, acts, |w.procs|, d, at - 10 * 60 * 1000);
    }
  }

  /** And from any world there is such a run. */
  lemma {:induction false} RecoveryAlwaysPossible(w: World, at: nat, d: string)
    requires Enabled(w, StartRecovery(at))
    requires |Backlog(w.rows, at - 10 * 60 * 1000)| <= 100
    requires d in Backlog(w.rows, at - 10 * 60 * 1000)
    ensures exists ws, acts :: AloneRun(ws, acts, |w.procs|, true) && ws[0] == Next(w, StartRecovery(at)) &&
              Requeued(ws[|acts|], d)
  {
    var ws, acts := RecoveryCompletes(Next(w, StartRecovery(at)), |w.procs|, d, at - 10 * 60 * 1000);
    assert Requeued(ws[|acts|], d);
  }
}
