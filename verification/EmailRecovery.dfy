/** The queue service and the recovery run, undisturbed, as functions of the tables; and the proof that the
    protocol's processes, left alone, do exactly this. */
module EmailRecovery {
  import opened Basics
  import opened DeliveryRow
  import opened OutboundProtocol
  import opened OutboundAlone
  import opened OutboundRecovery

  // ---------------------------------------------------------------- queueing

  /** The queue after ensureEmailDeliveryQueued. */
  function EnsureQueued(jobs: map<string, Job>, id: string): map<string, Job> {
    if id !in jobs || jobs[id].state == CompletedJob then jobs[id := Job(Waiting, 0, JOB_ATTEMPTS)]
    else if jobs[id].state == FailedJob then jobs[id := jobs[id].(state := Waiting)]
    else jobs
  }

  /** The queue after one turn of the loop; the queue cannot be reached for the deliveries in unreachable. */
  function QueueOne(jobs: map<string, Job>, d: string, unreachable: set<string>): map<string, Job> {
    if d in unreachable then jobs else EnsureQueued(jobs, JobId(d))
  }

  function QueueAll(jobs: map<string, Job>, todo: seq<string>, unreachable: set<string>): map<string, Job>
    decreases todo
  {
    if todo == [] then jobs else QueueAll(QueueOne(jobs, todo[0], unreachable), todo[1..], unreachable)
  }

  /** After the loop every delivery whose queue calls went through has a live job, and no job of any
      other delivery was touched. */
  lemma {:induction false} QueueAllRevives(jobs: map<string, Job>, todo: seq<string>, unreachable: set<string>)
    ensures forall d :: d in todo && d !in unreachable ==> JobLive(QueueAll(jobs, todo, unreachable), d)
    ensures forall d :: JobLive(jobs, d) ==> JobLive(QueueAll(jobs, todo, unreachable), d)
    ensures forall id :: (forall d :: d in todo ==> id != JobId(d)) ==>
              (id in QueueAll(jobs, todo, unreachable) <==> id in jobs) &&
              (id in jobs ==> QueueAll(jobs, todo, unreachable)[id] == jobs[id])
    decreases todo
  {
    if todo != [] {
      var first := todo[0];
      assert first in todo && todo == [first] + todo[1..];
      QueueAllRevives(QueueOne(jobs, first, unreachable), todo[1..], unreachable);
    }
  }

  // ---------------------------------------------------------------- resets

  function ResetOne(rows: map<string, Row>, d: string, staleBefore: int): map<string, Row> {
    UpdateMany(rows, d, RecoverStale(staleBefore), NoFault).rows
  }

  function ResetAll(rows: map<string, Row>, todo: seq<string>, staleBefore: int): map<string, Row>
    decreases todo
  {
    if todo == [] then rows else ResetAll(ResetOne(rows, todo[0], staleBefore), todo[1..], staleBefore)
  }

  ghost predicate AllStale(rows: map<string, Row>, todo: seq<string>, staleBefore: int) {
    Distinct(todo) && forall d :: d in todo ==> d in rows && IsStale(rows[d], staleBefore)
  }

  lemma {:induction false} RestStale(rows: map<string, Row>, todo: seq<string>, staleBefore: int)
    requires todo != [] && AllStale(rows, todo, staleBefore)
    ensures AllStale(ResetOne(rows, todo[0], staleBefore), todo[1..], staleBefore)
    ensures ResetOne(rows, todo[0], staleBefore) == rows[todo[0] := Execute(rows[todo[0]], RecoverStale(staleBefore))]
  {
    assert todo[0] in todo;
    assert forall d :: d in todo[1..] ==> d in todo && d != todo[0];
  }

  /** Exactly the listed stale rows become PENDING; every other row is as it was. */
  lemma {:induction false} ResetAllResets(rows: map<string, Row>, todo: seq<string>, staleBefore: int)
    requires AllStale(rows, todo, staleBefore)
    ensures ResetAll(rows, todo, staleBefore).Keys == rows.Keys
    ensures forall d :: d in rows ==>
              ResetAll(rows, todo, staleBefore)[d] == if d in todo then Execute(rows[d], RecoverStale(staleBefore)) else rows[d]
    decreases todo
  {
    if todo != [] {
      RestStale(rows, todo, staleBefore);
      ResetAllResets(ResetOne(rows, todo[0], staleBefore), todo[1..], staleBefore);
      assert todo == [todo[0]] + todo[1..];
      assert forall d :: d in todo[1..] ==> d != todo[0];
    }
  }

  // ---------------------------------------------------------------- the protocol's processes do this

  /** Only the queue and p's place in the program change. */
  ghost predicate Queues(w: World, w': World, p: nat, jobs: map<string, Job>, pc: Pc) {
    && OnlyP(w, w', p) && w'.procs[p] == Proc(pc, None)
    && w'.jobs == jobs && w'.rows == w.rows && w'.published == w.published && w'.events == w.events
  }

  const Calm: Input := Input(0, NoFault, Reply(None, NoId), [])

  lemma {:induction false} QueueStep(w: World, p: nat, d: string, op: QueueOp, rest: seq<string>, fault: Fault) returns (w': World)
    requires p < |w.procs| && w.procs[p] == Proc(Queueing(d, op, rest), None)
    ensures Leads(w, w', p, fault == NoFault)
    ensures Queues(w, w', p, if fault == BeforeCommit then w.jobs else QueueCall(w.jobs, JobId(d), op),
                   AfterQueueCall(w.jobs, d, op, rest, fault != NoFault))
  {
    w' := StepAlone(w, p, Calm.(fault := fault), fault == NoFault);
  }

  /** getJob, getState, and retry, or remove and add, or add, or nothing. */
  lemma {:induction false} EnsureRuns(w: World, p: nat, d: string, rest: seq<string>) returns (w': World)
    requires p < |w.procs| && w.procs[p] == Proc(Queueing(d, GetJob, rest), None)
    ensures Leads(w, w', p, true) && Queues(w, w', p, EnsureQueued(w.jobs, JobId(d)), QueueNext(rest))
  {
    var w1 := QueueStep(w, p, d, GetJob, rest, NoFault);
    if JobId(d) !in w.jobs {
      w' := QueueStep(w1, p, d, AddJob, rest, NoFault);
    } else {
      w' := StateRuns(w1, p, d, rest);
    }
    LeadsOn(w, w1, w', p, true);
  }

  lemma {:induction false} StateRuns(w: World, p: nat, d: string, rest: seq<string>) returns (w': World)
    requires p < |w.procs| && w.procs[p] == Proc(Queueing(d, GetState, rest), None) && JobId(d) in w.jobs
    ensures Leads(w, w', p, true) && Queues(w, w', p, EnsureQueued(w.jobs, JobId(d)), QueueNext(rest))
  {
    var w1 := QueueStep(w, p, d, GetState, rest, NoFault);
    w' := w1;
    if w.jobs[JobId(d)].state == FailedJob {
      w' := QueueStep(w1, p, d, RetryJob, rest, NoFault);
      LeadsOn(w, w1, w', p, true);
    } else if w.jobs[JobId(d)].state == CompletedJob {
      w' := ReplaceRuns(w1, p, d, rest);
      LeadsOn(w, w1, w', p, true);
    }
  }

  lemma {:induction false} ReplaceRuns(w: World, p: nat, d: string, rest: seq<string>) returns (w': World)
    requires p < |w.procs| && w.procs[p] == Proc(Queueing(d, RemoveJob, rest), None)
    requires JobId(d) in w.jobs && w.jobs[JobId(d)].state == CompletedJob
    ensures Leads(w, w', p, true) && Queues(w, w', p, w.jobs[JobId(d) := Job(Waiting, 0, JOB_ATTEMPTS)], QueueNext(rest))
  {
    var w1 := QueueStep(w, p, d, RemoveJob, rest, NoFault);
    w' := QueueStep(w1, p, d, AddJob, rest, NoFault);
    LeadsOn(w, w1, w', p, true);
    assert (w.jobs - {JobId(d)})[JobId(d) := Job(Waiting, 0, JOB_ATTEMPTS)] == w.jobs[JobId(d) := Job(Waiting, 0, JOB_ATTEMPTS)];
  }

  /** The queueing loop; cleanly when every queue call goes through. */
  lemma {:induction false} QueueLoopRuns(w: World, p: nat, todo: seq<string>, unreachable: set<string>) returns (w': World)
    requires p < |w.procs| && w.procs[p] == Proc(QueueNext(todo), None)
    ensures Leads(w, w', p, unreachable == {}) && Queues(w, w', p, QueueAll(w.jobs, todo, unreachable), Done)
    decreases todo
  {
    if todo == [] {
      w' := w;
      StaysPut(w, p, unreachable == {});
    } else {
      var w1: World;
      if todo[0] in unreachable {
        w1 := QueueStep(w, p, todo[0], GetJob, todo[1..], BeforeCommit);
      } else {
        w1 := EnsureRuns(w, p, todo[0], todo[1..]);
        if unreachable != {} {
          Uncleanly(w, w1, p);
        }
      }
      w' := QueueLoopRuns(w1, p, todo[1..], unreachable);
      LeadsOn(w, w1, w', p, unreachable == {});
    }
  }

  function PendingNews(todo: seq<string>): Ledger {
    if todo == [] then multiset{} else multiset{(todo[0], PENDING)} + PendingNews(todo[1..])
  }

  /** Only rows, announcements and p's place in the program change. */
  ghost predicate Resets(w: World, w': World, p: nat, rows: map<string, Row>, news: Ledger, pc: Pc) {
    && OnlyP(w, w', p) && w'.procs[p] == Proc(pc, None)
    && w'.rows == rows && w'.published == w.published + news && w'.jobs == w.jobs && w'.events == w.events
  }

  lemma {:induction false} ResetTable(w: World, todo: seq<string>, staleBefore: int)
    requires todo != [] && AllStale(w.rows, todo, staleBefore)
    ensures var hit := TableWork(w, ResettingStale(todo, staleBefore), Calm);
            && hit.rows == ResetOne(w.rows, todo[0], staleBefore) && hit.count == 1 && !hit.threw
            && PcAfter(w, ResettingStale(todo, staleBefore), Calm, hit) == ResettingStale(todo[1..], staleBefore)
            && OwesAfter(Proc(ResettingStale(todo, staleBefore), None), hit) == Some((todo[0], PENDING))
  {
    assert todo[0] in todo;
  }

  lemma {:induction false} ResetStep(w: World, p: nat, todo: seq<string>, staleBefore: int) returns (w': World)
    requires p < |w.procs| && w.procs[p] == Proc(ResettingStale(todo, staleBefore), None)
    requires todo != [] && AllStale(w.rows, todo, staleBefore)
    ensures Leads(w, w', p, true)
    ensures Resets(w, w', p, ResetOne(w.rows, todo[0], staleBefore), multiset{(todo[0], PENDING)}, ResettingStale(todo[1..], staleBefore))
  {
    ResetTable(w, todo, staleBefore);
    w' := StepAndPublish(w, p, Calm, true);
  }

  lemma {:induction false} ResetLoopRuns(w: World, p: nat, todo: seq<string>, staleBefore: int) returns (w': World)
    requires p < |w.procs| && w.procs[p] == Proc(ResettingStale(todo, staleBefore), None)
    requires AllStale(w.rows, todo, staleBefore)
    ensures Leads(w, w', p, true)
    ensures Resets(w, w', p, ResetAll(w.rows, todo, staleBefore), PendingNews(todo), FindingPending)
    decreases todo
  {
    if todo == [] {
      w' := StepAlone(w, p, Calm, true);
    } else {
      var w1 := ResetStep(w, p, todo, staleBefore);
      RestStale(w.rows, todo, staleBefore);
      w' := ResetLoopRuns(w1, p, todo[1..], staleBefore);
      LeadsOn(w, w1, w', p, true);
    }
  }

  /** Refinement: a recovery run left alone resets and queues exactly what the two loops do. */
  lemma {:induction false} RecoveryRuns(w: World, p: nat, staleBefore: int, stale: seq<string>, pending: seq<string>, unreachable: set<string>)
      returns (w': World)
    requires p < |w.procs| && w.procs[p] == Proc(FindingStale(staleBefore), None)
    requires StaleBatch(w.rows, staleBefore, stale)
    requires PendingBatch(ResetAll(w.rows, stale, staleBefore), pending)
    ensures Leads(w, w', p, unreachable == {}) && OnlyP(w, w', p) && w'.procs[p] == Proc(Done, None)
    ensures w'.rows == ResetAll(w.rows, stale, staleBefore) && w'.jobs == QueueAll(w.jobs, pending, unreachable)
    ensures w'.published == w.published + PendingNews(stale) && w'.events == w.events
  {
    var w1 := ResetsRun(w, p, staleBefore, stale);
    var w2 := StepAlone(w1, p, Calm.(found := pending), true);
    LeadsOn(w, w1, w2, p, true);
    if unreachable != {} {
      Uncleanly(w, w2, p);
    }
    w' := QueueLoopRuns(w2, p, pending, unreachable);
    LeadsOn(w, w2, w', p, unreachable == {});
  }

  /** The first query and its loop. */
  lemma {:induction false} ResetsRun(w: World, p: nat, staleBefore: int, stale: seq<string>) returns (w': World)
    requires p < |w.procs| && w.procs[p] == Proc(FindingStale(staleBefore), None)
    requires StaleBatch(w.rows, staleBefore, stale)
    ensures Leads(w, w', p, true)
    ensures Resets(w, w', p, ResetAll(w.rows, stale, staleBefore), PendingNews(stale), FindingPending)
  {
    var w1 := StepAlone(w, p, Calm.(found := stale), true);
    w' := ResetLoopRuns(w1, p, stale, staleBefore);
    LeadsOn(w, w1, w', p, true);
  }

  // ---------------------------------------------------------------- so nothing is stranded

  lemma {:induction false} LeadsToRequeued(w: World, w': World, p: nat, d: string, staleBefore: int)
    requires Leads(w, w', p, true) && Recovering(w, p, d, staleBefore)
    requires p < |w'.procs| && w'.procs[p].pc == Done
    ensures Requeued(w', d)
  {
    var ws, acts :| AloneRun(ws, acts, p, true) && ws[0] == w && ws[|acts|] == w';
    RecoveryRunOnTrack(ws, acts, p, d, staleBefore);
  }

  /** Recovery, end to end: with a backlog that fits a batch and a reachable queue, nothing is stranded. */
  lemma {:induction false} NothingStranded(rows: map<string, Row>, jobs: map<string, Job>, now: nat, stale: seq<string>, pending: seq<string>,
                        unreachable: set<string>, d: string)
    requires StaleBatch(rows, now - STALE_AFTER_MS, stale)
    requires PendingBatch(ResetAll(rows, stale, now - STALE_AFTER_MS), pending)
    requires |Backlog(rows, now - STALE_AFTER_MS)| <= RECOVERY_BATCH && unreachable == {}
    requires d in Backlog(rows, now - STALE_AFTER_MS)
    ensures d in ResetAll(rows, stale, now - STALE_AFTER_MS) && ResetAll(rows, stale, now - STALE_AFTER_MS)[d].status == PENDING
    ensures JobLive(QueueAll(jobs, pending, unreachable), d)
  {
    var staleBefore := now - STALE_AFTER_MS;
    var w := Initial.(rows := rows, jobs := jobs, procs := [Proc(FindingStale(staleBefore), None)]);
    var w' := RecoveryRuns(w, 0, staleBefore, stale, pending, unreachable);
    LeadsToRequeued(w, w', 0, d, staleBefore);
  }
}
