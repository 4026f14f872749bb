/** Retry termination: left alone, a fresh job ends after a bounded number of steps with its delivery
    SENT or FAILED, having called the provider once per claim and at most once per allowed attempt. */
module OutboundRetry {
  import opened Basics
  import opened DeliveryRow
  import opened OutboundProtocol
  import opened OutboundSafety

  predicate CanBeSent(r: Row) {
    r.recipient.Some? && r.recipient.value != "" && r.repliable
  }

  /** Provider calls after this many claims: none for a row that must not be sent. */
  function CallsFor(r: Row, claims: nat): nat {
    if CanBeSent(r) then claims else 0
  }

  /** What a worker carries along fits its job and its row. */
  predicate PcFits(pc: Pc, r: Row, d: string, made: nat, allowed: nat) {
    match pc
    case Loading(e, m, n) => e == d && m == made && n == allowed
    case Claiming(c) => CtxFits(c, r, d, made, allowed)
    case Sending(c, _) => CtxFits(c, r, d, made, allowed)
    case Finishing(c, _, _) => CtxFits(c, r, d, made, allowed) && CanBeSent(r)
    case Filling(c, _, _) => CtxFits(c, r, d, made, allowed) && CanBeSent(r)
    case Failing(c, _, _, unrecoverable) => CtxFits(c, r, d, made, allowed) && (unrecoverable || made + 1 >= allowed)
    case Resetting(c, _, _) => CtxFits(c, r, d, made, allowed) && CanBeSent(r) && made + 1 < allowed
    case Reporting(e, verdict) =>
      e == d && (verdict == Returned || (verdict == Threw && made + 1 < allowed) ==> CanBeSent(r))
    case _ => false
  }

  predicate CtxFits(c: Ctx, r: Row, d: string, made: nat, allowed: nat) {
    c.delivery == d && c.attemptsMade == made && c.maxAttempts == allowed && (Sendable(c) <==> CanBeSent(r))
  }

  function StatusAt(pc: Pc, made: nat, allowed: nat): Status {
    match pc
    case Loading(_, _, _) => PENDING
    case Claiming(_) => PENDING
    case Filling(_, _, _) => SENT
    case Reporting(_, Returned) => SENT
    case Reporting(_, ThrewUnrecoverable) => FAILED
    case Reporting(_, Threw) => if made + 1 < allowed then PENDING else FAILED
    case _ => SENDING
  }

  /** 1 once this attempt's claim is made, and once its provider call is. */
  function ClaimsAt(pc: Pc): nat {
    if pc.Loading? || pc.Claiming? then 0 else 1
  }

  function CallsAt(pc: Pc): nat {
    if pc.Loading? || pc.Claiming? || pc.Sending? then 0 else 1
  }

  /** Where the worker stands, for a job with this many of its allowed attempts made; base is the row's
      attempt count when the job was fresh, calls the provider calls made for the job. */
  predicate WorkerOnTrack(pc: Pc, r: Row, d: string, made: nat, allowed: nat, base: nat, calls: nat) {
    && made < allowed && (!CanBeSent(r) ==> made == 0)
    && PcFits(pc, r, d, made, allowed)
    && r.status == StatusAt(pc, made, allowed)
    && r.attemptCount == base + made + ClaimsAt(pc)
    && calls == CallsFor(r, made + CallsAt(pc))
  }

  /** Where a job that no worker holds stands. */
  predicate IdleJobOnTrack(job: Job, r: Row, base: nat, calls: nat) {
    var made, allowed := job.attemptsMade, job.maxAttempts;
    match job.state
    case Active(_) => false
    case CompletedJob =>
      made < allowed && CanBeSent(r) && r.status == SENT && r.attemptCount == base + made + 1 && calls == made + 1
    case FailedJob =>
      && 1 <= made <= allowed && (!CanBeSent(r) ==> made == 1)
      && r.status == FAILED && r.attemptCount == base + made && calls == CallsFor(r, made)
    case _ =>
      && made < allowed && (!CanBeSent(r) ==> made == 0)
      && r.status == PENDING && r.attemptCount == base + made && calls == CallsFor(r, made)
  }

  ghost predicate JobOnTrack(w: World, d: string, allowed: nat, base: nat, calls: nat) {
    && d in w.rows && JobId(d) in w.jobs
    && w.jobs[JobId(d)].maxAttempts == allowed
    && var job := w.jobs[JobId(d)];
       if job.state.Active?
       then job.state.owner < |w.procs| &&
            WorkerOnTrack(w.procs[job.state.owner].pc, w.rows[d], d, job.attemptsMade, allowed, base, calls)
       else IdleJobOnTrack(job, w.rows[d], base, calls)
  }

  /** A step taken for the job of delivery d, in which no call fails. */
  ghost predicate JobSteps(w: World, a: Action, d: string) {
    || a == StartWorker(d)
    || a == Promote(d)
    || (JobId(d) in w.jobs && w.jobs[JobId(d)].state.Active? &&
        (a == Publish(w.jobs[JobId(d)].state.owner) ||
         (a.Advance? && a.p == w.jobs[JobId(d)].state.owner && a.x.fault == NoFault)))
  }

  /** The step calls the email provider. */
  predicate CallsProvider(w: World, a: Action) {
    a.Advance? && a.p < |w.procs| && w.procs[a.p].pc.Sending? && Sendable(w.procs[a.p].pc.c)
  }

  function CallsIn(w: World, a: Action): nat {
    if CallsProvider(w, a) then 1 else 0
  }

  /** The worker's next step, taken at pc, leaves it on track. */
  ghost predicate WorkerMoves(w: World, pc: Pc, x: Input, d: string, made: nat, allowed: nat, base: nat, calls: nat) {
    var hit := TableWork(w, pc, x);
    d in hit.rows && WorkerOnTrack(PcAfter(w, pc, x, hit), hit.rows[d], d, made, allowed, base, calls)
  }

  lemma {:induction false} LoadOnTrack(w: World, e: string, m: nat, n: nat, x: Input, d: string, made: nat, allowed: nat, base: nat, calls: nat)
    requires Honest(w) && PcHonest(w, Loading(e, m, n)) && x.fault == NoFault
    requires d in w.rows && WorkerOnTrack(Loading(e, m, n), w.rows[d], d, made, allowed, base, calls)
    ensures WorkerMoves(w, Loading(e, m, n), x, d, made, allowed, base, calls)
  {
    FaultlessTableWork(w, Loading(e, m, n), x);
  }

  lemma {:induction false} ClaimOnTrack(w: World, c: Ctx, x: Input, d: string, made: nat, allowed: nat, base: nat, calls: nat)
    requires Honest(w) && PcHonest(w, Claiming(c)) && x.fault == NoFault
    requires d in w.rows && WorkerOnTrack(Claiming(c), w.rows[d], d, made, allowed, base, calls)
    ensures WorkerMoves(w, Claiming(c), x, d, made, allowed, base, calls)
  {
    FaultlessTableWork(w, Claiming(c), x);
  }

  lemma {:induction false} SendOnTrack(w: World, c: Ctx, stamp: nat, x: Input, d: string, made: nat, allowed: nat, base: nat, calls: nat)
    requires Honest(w) && PcHonest(w, Sending(c, stamp)) && x.fault == NoFault
    requires d in w.rows && WorkerOnTrack(Sending(c, stamp), w.rows[d], d, made, allowed, base, calls)
    ensures WorkerMoves(w, Sending(c, stamp), x, d, made, allowed, base, if Sendable(c) then calls + 1 else calls)
  {
    FaultlessTableWork(w, Sending(c, stamp), x);
  }

  lemma {:induction false} FinishOnTrack(w: World, c: Ctx, stamp: nat, id: string, x: Input, d: string, made: nat, allowed: nat, base: nat, calls: nat)
    requires Honest(w) && PcHonest(w, Finishing(c, stamp, id)) && x.fault == NoFault
    requires d in w.rows && WorkerOnTrack(Finishing(c, stamp, id), w.rows[d], d, made, allowed, base, calls)
    ensures WorkerMoves(w, Finishing(c, stamp, id), x, d, made, allowed, base, calls)
  {
    FaultlessTableWork(w, Finishing(c, stamp, id), x);
  }

  lemma {:induction false} FillOnTrack(w: World, c: Ctx, stamp: nat, id: string, x: Input, d: string, made: nat, allowed: nat, base: nat, calls: nat)
    requires Honest(w) && PcHonest(w, Filling(c, stamp, id)) && x.fault == NoFault
    requires d in w.rows && WorkerOnTrack(Filling(c, stamp, id), w.rows[d], d, made, allowed, base, calls)
    ensures WorkerMoves(w, Filling(c, stamp, id), x, d, made, allowed, base, calls)
  {
    FaultlessTableWork(w, Filling(c, stamp, id), x);
  }

  lemma {:induction false} FailOnTrack(w: World, c: Ctx, stamp: nat, error: string, fatal: bool, x: Input, d: string, made: nat, allowed: nat, base: nat, calls: nat)
    requires Honest(w) && PcHonest(w, Failing(c, stamp, error, fatal)) && x.fault == NoFault
    requires d in w.rows && WorkerOnTrack(Failing(c, stamp, error, fatal), w.rows[d], d, made, allowed, base, calls)
    ensures WorkerMoves(w, Failing(c, stamp, error, fatal), x, d, made, allowed, base, calls)
  {
    FaultlessTableWork(w, Failing(c, stamp, error, fatal), x);
  }

  lemma {:induction false} ResetOnTrack(w: World, c: Ctx, stamp: nat, error: string, x: Input, d: string, made: nat, allowed: nat, base: nat, calls: nat)
    requires Honest(w) && PcHonest(w, Resetting(c, stamp, error)) && x.fault == NoFault
    requires d in w.rows && WorkerOnTrack(Resetting(c, stamp, error), w.rows[d], d, made, allowed, base, calls)
    ensures WorkerMoves(w, Resetting(c, stamp, error), x, d, made, allowed, base, calls)
  {
    FaultlessTableWork(w, Resetting(c, stamp, error), x);
  }

  lemma {:induction false} WorkerTableWork(w: World, pc: Pc, x: Input, d: string, made: nat, allowed: nat, base: nat, calls: nat)
    requires Honest(w) && PcHonest(w, pc) && x.fault == NoFault
    requires d in w.rows && WorkerOnTrack(pc, w.rows[d], d, made, allowed, base, calls)
    requires !pc.Reporting?
    ensures WorkerMoves(w, pc, x, d, made, allowed, base, if pc.Sending? && Sendable(pc.c) then calls + 1 else calls)
  {
    match pc
    case Loading(e, m, n) => LoadOnTrack(w, e, m, n, x, d, made, allowed, base, calls);
    case Claiming(c) => ClaimOnTrack(w, c, x, d, made, allowed, base, calls);
    case Sending(c, stamp) => SendOnTrack(w, c, stamp, x, d, made, allowed, base, calls);
    case Finishing(c, stamp, id) => FinishOnTrack(w, c, stamp, id, x, d, made, allowed, base, calls);
    case Filling(c, stamp, id) => FillOnTrack(w, c, stamp, id, x, d, made, allowed, base, calls);
    case Failing(c, stamp, error, fatal) => FailOnTrack(w, c, stamp, error, fatal, x, d, made, allowed, base, calls);
    case Resetting(c, stamp, error) => ResetOnTrack(w, c, stamp, error, x, d, made, allowed, base, calls);
  }

  lemma {:induction false} EndedJobOnTrack(job: Job, r: Row, d: string, verdict: Verdict, base: nat, calls: nat)
    requires WorkerOnTrack(Reporting(d, verdict), r, d, job.attemptsMade, job.maxAttempts, base, calls)
    ensures IdleJobOnTrack(Ended(job, verdict), r, base, calls)
  {
  }

  lemma {:induction false} ReportOnTrack(w: World, p: nat, x: Input, d: string, allowed: nat, base: nat, calls: nat)
    requires JobOnTrack(w, d, allowed, base, calls) && w.jobs[JobId(d)].state == Active(p) && w.procs[p].pc.Reporting?
    requires Enabled(w, Advance(p, x))
    ensures JobOnTrack(Next(w, Advance(p, x)), d, allowed, base, calls)
  {
    var w', verdict := Next(w, Advance(p, x)), w.procs[p].pc.verdict;
    var ended := Ended(w.jobs[JobId(d)], verdict);
    assert w.procs[p].pc == Reporting(d, verdict);
    EndedJobOnTrack(w.jobs[JobId(d)], w.rows[d], d, verdict, base, calls);
    assert TableWork(w, Reporting(d, verdict), x).rows == w.rows;
    assert w'.rows == w.rows && w'.jobs == w.jobs[JobId(d) := ended] && !ended.state.Active?;
  }

  lemma {:induction false} WorkerStaysOnTrack(w: World, p: nat, x: Input, d: string, allowed: nat, base: nat, calls: nat)
    requires Honest(w) && JobOnTrack(w, d, allowed, base, calls) && w.jobs[JobId(d)].state == Active(p)
    requires Enabled(w, Advance(p, x)) && x.fault == NoFault
    ensures JobOnTrack(Next(w, Advance(p, x)), d, allowed, base, calls + CallsIn(w, Advance(p, x)))
  {
    var pc, job := w.procs[p].pc, w.jobs[JobId(d)];
    assert PcHonest(w, pc);
    if pc.Reporting? {
      ReportOnTrack(w, p, x, d, allowed, base, calls);
    } else {
      WorkerTableWork(w, pc, x, d, job.attemptsMade, job.maxAttempts, base, calls);
      assert JobsAfter(w, p, pc, x) == w.jobs;
    }
  }

  lemma {:induction false} JobStaysOnTrack(w: World, a: Action, d: string, allowed: nat, base: nat, calls: nat)
    requires Honest(w) && JobOnTrack(w, d, allowed, base, calls)
    requires JobSteps(w, a, d) && Enabled(w, a)
    ensures JobOnTrack(Next(w, a), d, allowed, base, calls + CallsIn(w, a))
  {
    match a
    case Advance(p, x) => WorkerStaysOnTrack(w, p, x, d, allowed, base, calls);
    case _ =>
  }

  /** An upper bound on the steps an attempt still takes. */
  function AttemptLeft(q: Proc): nat {
    (if q.owes.Some? then 1 else 0) + 2 *
    match q.pc
    case Loading(_, _, _) => 7
    case Claiming(_) => 6
    case Sending(_, _) => 5
    case Finishing(_, _, _) => 4
    case Filling(_, _, _) => 3
    case Failing(_, _, _, _) => 2
    case Resetting(_, _, _) => 2
    case Reporting(_, _) => 1
    case _ => 0
  }

  /** The measure: allowed attempts minus attempts made, and within an attempt the steps to its end. */
  function Left(job: Job, attempt: nat): nat {
    var attempts := if job.attemptsMade < job.maxAttempts then job.maxAttempts - job.attemptsMade else 0;
    match job.state
    case Active(_) => 20 * attempts + attempt
    case Waiting => 20 * attempts + 16
    case Delayed => 20 * attempts + 17
    case _ => 0
  }

  ghost function JobLeft(w: World, d: string): nat
    requires JobId(d) in w.jobs
  {
    var job := w.jobs[JobId(d)];
    Left(job, if job.state.Active? && job.state.owner < |w.procs| then AttemptLeft(w.procs[job.state.owner]) else 0)
  }

  lemma {:induction false} WorkerProgress(w: World, pc: Pc, x: Input, d: string, made: nat, allowed: nat, base: nat, calls: nat)
    requires Honest(w) && PcHonest(w, pc) && x.fault == NoFault
    requires d in w.rows && WorkerOnTrack(pc, w.rows[d], d, made, allowed, base, calls)
    ensures AttemptLeft(Proc(PcAfter(w, pc, x, TableWork(w, pc, x)), None)) + 2 <= AttemptLeft(Proc(pc, None))
  {
    FaultlessTableWork(w, pc, x);
  }

  lemma {:induction false} JobMakesProgress(w: World, a: Action, d: string, allowed: nat, base: nat, calls: nat)
    requires Honest(w) && JobOnTrack(w, d, allowed, base, calls)
    requires JobSteps(w, a, d) && Enabled(w, a)
    ensures JobId(d) in Next(w, a).jobs && JobLeft(Next(w, a), d) < JobLeft(w, d)
  {
    match a
    case Advance(p, x) => AdvanceMakesProgress(w, p, x, d, allowed, base, calls);
    case _ =>
  }

  lemma {:induction false} AdvanceMakesProgress(w: World, p: nat, x: Input, d: string, allowed: nat, base: nat, calls: nat)
    requires Honest(w) && JobOnTrack(w, d, allowed, base, calls) && w.jobs[JobId(d)].state == Active(p)
    requires Enabled(w, Advance(p, x)) && x.fault == NoFault
    ensures var w' := Next(w, Advance(p, x)); JobId(d) in w'.jobs && JobLeft(w', d) < JobLeft(w, d)
  {
    var w', pc, job := Next(w, Advance(p, x)), w.procs[p].pc, w.jobs[JobId(d)];
    assert PcHonest(w, pc);
    if pc.Reporting? {
      ReportMakesProgress(w, p, x, d);
    } else {
      WorkerProgress(w, pc, x, d, job.attemptsMade, job.maxAttempts, base, calls);
      assert w'.jobs == w.jobs;
    }
  }

  lemma {:induction false} ReportMakesProgress(w: World, p: nat, x: Input, d: string)
    requires Enabled(w, Advance(p, x)) && w.procs[p].pc.Reporting? && w.procs[p].pc.delivery == d
    requires JobId(d) in w.jobs && w.jobs[JobId(d)].state == Active(p)
    requires w.jobs[JobId(d)].attemptsMade < w.jobs[JobId(d)].maxAttempts
    ensures var w' := Next(w, Advance(p, x)); JobId(d) in w'.jobs && JobLeft(w', d) < JobLeft(w, d)
  {
    var w', job, verdict := Next(w, Advance(p, x)), w.jobs[JobId(d)], w.procs[p].pc.verdict;
    assert w'.jobs == w.jobs[JobId(d) := Ended(job, verdict)];
    EndedHasLessLeft(job, verdict);
  }

  lemma {:induction false} EndedHasLessLeft(job: Job, verdict: Verdict)
    requires job.state.Active? && job.attemptsMade < job.maxAttempts
    ensures !Ended(job, verdict).state.Active?
    ensures forall attempt :: Left(Ended(job, verdict), 0) < Left(job, attempt)
  {
  }

  /** Consecutive steps taken for the job of delivery d, nothing else writing. */
  ghost predicate JobRun(ws: seq<World>, acts: seq<Action>, d: string) {
    && |ws| == |acts| + 1
    && forall i :: 0 <= i < |acts| ==>
         JobSteps(ws[i], acts[i], d) && Enabled(ws[i], acts[i]) && ws[i + 1] == Next(ws[i], acts[i])
  }

  ghost function ProviderCalls(ws: seq<World>, acts: seq<Action>): nat
    requires |ws| == |acts| + 1
  {
    if acts == [] then 0
    else ProviderCalls(ws[..|acts|], acts[..|acts| - 1]) + CallsIn(ws[|acts| - 1], acts[|acts| - 1])
  }

  /** Until the job has ended, it has a step to take. */
  lemma {:induction false} JobNeverStuck(w: World, d: string, allowed: nat, base: nat, calls: nat) returns (a: Action)
    requires JobOnTrack(w, d, allowed, base, calls)
    requires w.jobs[JobId(d)].state !in {CompletedJob, FailedJob}
    ensures JobSteps(w, a, d) && Enabled(w, a)
  {
    match w.jobs[JobId(d)].state
    case Waiting => a := StartWorker(d);
    case Delayed => a := Promote(d);
    case Active(p) =>
      a := if w.procs[p].owes.Some? && !w.procs[p].pc.Filling? then Publish(p)
           else Advance(p, Input(0, NoFault, Reply(None, NoId), []));
  }

  /** Everything one step of the job keeps, and its progress. */
  lemma {:induction false} JobStep(w: World, a: Action, d: string, allowed: nat, base: nat, calls: nat)
    requires Honest(w) && JobOnTrack(w, d, allowed, base, calls)
    requires JobSteps(w, a, d) && Enabled(w, a)
    ensures Honest(Next(w, a)) && JobOnTrack(Next(w, a), d, allowed, base, calls + CallsIn(w, a))
    ensures JobLeft(Next(w, a), d) < JobLeft(w, d)
  {
    StepKeepsHonest(w, a);
    JobStaysOnTrack(w, a, d, allowed, base, calls);
    JobMakesProgress(w, a, d, allowed, base, calls);
  }

  lemma {:induction false} JobRunOnTrack(ws: seq<World>, acts: seq<Action>, d: string, allowed: nat, base: nat)
    requires JobRun(ws, acts, d) && Honest(ws[0]) && JobOnTrack(ws[0], d, allowed, base, 0)
    ensures Honest(ws[|acts|]) && JobOnTrack(ws[|acts|], d, allowed, base, ProviderCalls(ws, acts))
    ensures JobLeft(ws[|acts|], d) + |acts| <= JobLeft(ws[0], d)
    decreases |acts|
  {
    if acts != [] {
      var n := |acts| - 1;
      JobRunOnTrack(ws[..n + 1], acts[..n], d, allowed, base);
      JobStep(ws[n], acts[n], d, allowed, base, ProviderCalls(ws[..n + 1], acts[..n]));
    }
  }

  lemma {:induction false} JobRunAdvances(ws: seq<World>, acts: seq<Action>, d: string)
    requires JobRun(ws, acts, d) && d in ws[0].rows
    ensures d in ws[|acts|].rows && Advances(ws[0].rows[d], ws[|acts|].rows[d])
    decreases |acts|
  {
    if acts != [] {
      var n := |acts| - 1;
      JobRunAdvances(ws[..n + 1], acts[..n], d);
      StepAdvances(ws[n], acts[n]);
    }
  }

  /** What an ended job has done to its delivery. */
  ghost predicate Outcome(before: Row, after: Row, ended: JobState, attempts: nat, calls: nat) {
    && after.status == (if ended == CompletedJob then SENT else FAILED)
    && before.attemptCount < after.attemptCount <= before.attemptCount + attempts
    && calls == (if CanBeSent(before) then after.attemptCount - before.attemptCount else 0)
    && (!CanBeSent(before) ==> after.status == FAILED && after.attemptCount == before.attemptCount + 1)
  }

  /** A fresh job of a PENDING delivery, run alone from any honest world. Its steps are bounded, and until
      it has ended there is another one to take. When it has ended the delivery is SENT or FAILED, it was
      claimed once per attempt and at most as often as the job allows, and each claim made exactly one
      provider call - except for a delivery without a recipient or not repliable, which is failed on its
      first claim without any call. */
  lemma {:induction false} RetryTermination(ws: seq<World>, acts: seq<Action>, d: string, attempts: nat)
    requires JobRun(ws, acts, d) && Honest(ws[0]) && attempts >= 1
    requires d in ws[0].rows && ws[0].rows[d].status == PENDING
    requires JobId(d) in ws[0].jobs && ws[0].jobs[JobId(d)] == Job(Waiting, 0, attempts)
    ensures |acts| <= 20 * attempts + 16
    ensures d in ws[|acts|].rows && JobId(d) in ws[|acts|].jobs
    ensures ws[|acts|].jobs[JobId(d)].state !in {CompletedJob, FailedJob} ==>
              exists a :: JobSteps(ws[|acts|], a, d) && Enabled(ws[|acts|], a)
    ensures ws[|acts|].jobs[JobId(d)].state in {CompletedJob, FailedJob} ==>
              Outcome(ws[0].rows[d], ws[|acts|].rows[d], ws[|acts|].jobs[JobId(d)].state, attempts, ProviderCalls(ws, acts))
  {
    JobRunOnTrack(ws, acts, d, attempts, ws[0].rows[d].attemptCount);
    JobRunAdvances(ws, acts, d);
    var end := ws[|acts|];
    if end.jobs[JobId(d)].state !in {CompletedJob, FailedJob} {
      var a := JobNeverStuck(end, d, attempts, ws[0].rows[d].attemptCount, ProviderCalls(ws, acts));
    } else {
      assert IdleJobOnTrack(end.jobs[JobId(d)], end.rows[d], ws[0].rows[d].attemptCount, ProviderCalls(ws, acts));
    }
  }

  // ---------------------------------------------------------------- in reachable worlds

  /** createMessage writes only member replies, and fails those without a recipient at once. */
  ghost predicate AsCreated(rows: map<string, Row>) {
    forall d :: d in rows ==> rows[d].repliable && rows[d].recipient != Some("") && (rows[d].recipient.None? ==> rows[d].status == FAILED)
  }

  lemma {:induction false} StepKeepsAsCreated(w: World, a: Action)
    requires AsCreated(w.rows) && Enabled(w, a)
    ensures AsCreated(Next(w, a).rows)
  {
    if a.CreateMessage? {
      CreateStep(w, a.delivery, a.recipient, a.at, a.fault);
    } else {
      StepAdvances(w, a);
      NoNewRows(w, a);
      AdvancingKeepsAsCreated(w.rows, Next(w, a).rows);
    }
  }

  lemma {:induction false} AdvancingKeepsAsCreated(rows: map<string, Row>, rows': map<string, Row>)
    requires AsCreated(rows) && RowsAdvance(rows, rows') && rows'.Keys <= rows.Keys
    ensures AsCreated(rows')
  {
  }

  lemma {:induction false} NoNewRows(w: World, a: Action)
    requires Enabled(w, a) && !a.CreateMessage?
    ensures Next(w, a).rows.Keys <= w.rows.Keys
  {
    if a.Advance? {
      TableWorkKeys(w, w.procs[a.p].pc, a.x);
    } else {
      QuietStep(w, a);
    }
  }

  lemma {:induction false} TableWorkKeys(w: World, pc: Pc, x: Input)
    ensures TableWork(w, pc, x).rows.Keys == w.rows.Keys
  {
  }

  lemma {:induction false} AlwaysAsCreated(ws: seq<World>, acts: seq<Action>)
    requires IsRun(ws, acts)
    ensures AsCreated(ws[|acts|].rows)
  {
    if acts != [] {
      Shorter(ws, acts);
      AlwaysAsCreated(ws[..|ws| - 1], acts[..|acts| - 1]);
      StepKeepsAsCreated(ws[|acts| - 1], acts[|acts| - 1]);
    }
  }

  /** In every reachable world: a fresh job of a PENDING delivery, run alone, takes boundedly many steps and
      is never stuck, and when it has ended the delivery is SENT or FAILED after at least one and at most the
      allowed number of attempts, each of which claimed once and called the provider once. */
  lemma {:induction false} RetryInReachableWorlds(past: seq<World>, before: seq<Action>, ws: seq<World>, acts: seq<Action>, d: string, attempts: nat)
    requires IsRun(past, before) && ws != [] && ws[0] == past[|before|]
    requires JobRun(ws, acts, d) && attempts >= 1
    requires d in ws[0].rows && ws[0].rows[d].status == PENDING
    requires JobId(d) in ws[0].jobs && ws[0].jobs[JobId(d)] == Job(Waiting, 0, attempts)
    ensures |acts| <= 20 * attempts + 16
    ensures d in ws[|acts|].rows && JobId(d) in ws[|acts|].jobs
    ensures ws[|acts|].jobs[JobId(d)].state !in {CompletedJob, FailedJob} ==>
              exists a :: JobSteps(ws[|acts|], a, d) && Enabled(ws[|acts|], a)
    ensures ws[|acts|].jobs[JobId(d)].state in {CompletedJob, FailedJob} ==>
              var made := ws[|acts|].rows[d].attemptCount - ws[0].rows[d].attemptCount;
              && ws[|acts|].rows[d].status == (if ws[|acts|].jobs[JobId(d)].state == CompletedJob then SENT else FAILED)
              && 1 <= made <= attempts && ProviderCalls(ws, acts) == made
  {
    AlwaysHonest(past, before);
    AlwaysAsCreated(past, before);
    RetryTermination(ws, acts, d, attempts);
  }
}
