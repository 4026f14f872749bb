/** The outbound delivery protocol as interleaved atomic steps: one step per SQL statement or
    transaction, per provider call and per queue call, of any number of API calls, workers, recovery
    runs and webhook handlers. A process can crash between any two steps and any database or queue
    call can fail before or after it takes effect. */
module OutboundProtocol {
  import opened Basics
  import opened DeliveryRow

  type Ledger = multiset<(string, Status)>

  // ---------------------------------------------------------------- queue and provider

  datatype JobState = Waiting | Delayed | Active(owner: nat) | FailedJob | CompletedJob

  datatype Job = Job(state: JobState, attemptsMade: nat, maxAttempts: nat)

  const JOB_ATTEMPTS: nat := 5

  const RECOVERY_BATCH: nat := 100

  function JobId(delivery: string): string {
    "email-delivery-" + delivery
  }

  function IdempotencyKey(delivery: string): string {
    "email-delivery/" + delivery
  }

  /** What a send call did at the provider, and what it answered. */
  datatype Reply = Reply(accepted: Option<string>, answer: Answer)

  datatype Answer = GotId(id: string) | Refused(statusCode: Option<nat>) | NoId

  function Retryable(statusCode: Option<nat>): bool {
    statusCode.None? || statusCode.value == 408 || statusCode.value == 429 || statusCode.value >= 500
  }

  // ---------------------------------------------------------------- processes

  datatype Fault = NoFault | BeforeCommit | AfterCommit

  /** What a worker read about its delivery. */
  datatype Ctx = Ctx(delivery: string, attemptsMade: nat, maxAttempts: nat, recipient: bool, repliable: bool)

  datatype Verdict = Returned | Threw | ThrewUnrecoverable

  datatype QueueOp = GetJob | GetState | RetryJob | RemoveJob | AddJob

  datatype Pc =
    // a worker's attempt; stamp is the lastAttemptAt its claim wrote
    | Loading(delivery: string, attemptsMade: nat, maxAttempts: nat)
    | Claiming(c: Ctx)
    | Sending(c: Ctx, stamp: nat)
    | Finishing(c: Ctx, stamp: nat, id: string)
    | Filling(c: Ctx, stamp: nat, id: string)
    | Failing(c: Ctx, stamp: nat, error: string, unrecoverable: bool)
    | Resetting(c: Ctx, stamp: nat, error: string)
    | Reporting(delivery: string, verdict: Verdict)
    // a webhook handler
    | Finding(kind: EventKind, emailId: string, tag: Option<string>)
    | Transacting(kind: EventKind, emailId: string, delivery: string)
    // a recovery run; its last loop, and the end of the API call, ensure that jobs are queued
    | FindingStale(staleBefore: int)
    | ResettingStale(todo: seq<string>, staleBefore: int)
    | FindingPending
    | Queueing(delivery: string, op: QueueOp, rest: seq<string>)
    | Done

  /** A process and the status change it has committed but not yet published. */
  datatype Proc = Proc(pc: Pc, owes: Option<(string, Status)>)

  datatype World = World(
    clock: nat,
    rows: map<string, Row>,
    events: set<(EventKind, string)>,  // webhook_events, unique on (type, email id)
    keys: map<string, string>,         // provider: idempotency key to email id
    mails: map<string, string>,        // provider: accepted email id to its opsdesk_delivery_id tag
    jobs: map<string, Job>,
    procs: seq<Proc>,
    committed: Ledger,                 // history: status changes written to the table
    published: Ledger,                 // history: statuses announced
    lost: Ledger)                      // history: changes whose process failed before announcing them

  const Initial: World := World(0, map[], {}, map[], map[], map[], [], multiset{}, multiset{}, multiset{})

  // ---------------------------------------------------------------- statements

  /** One updateMany by id, or one transaction. change is the status change it committed; count is the
      affected count of its status update; threw says the caller saw an exception. */
  datatype Hit = Hit(rows: map<string, Row>, change: Option<(string, Status)>, count: nat, threw: bool)

  /** The unique index on providerMessageId would be violated. */
  predicate Clashes(rows: map<string, Row>, d: string, stmt: Statement) {
    && d in rows && Matches(rows[d], stmt)
    && (stmt.MarkSent? || stmt.FillProviderId? || stmt.Correlate?)
    && exists other :: other in rows && other != d && rows[other].providerMessageId == Some(stmt.id)
  }

  function StatusChange(d: string, before: Row, after: Row): Option<(string, Status)> {
    if before.status == after.status then None else Some((d, after.status))
  }

  function UpdateMany(rows: map<string, Row>, d: string, stmt: Statement, fault: Fault): Hit {
    if fault == BeforeCommit || Clashes(rows, d, stmt) then
      Hit(rows, None, 0, true)
    else if d !in rows || !Matches(rows[d], stmt) then
      Hit(rows, None, 0, fault == AfterCommit)
    else
      var r := Execute(rows[d], stmt);
      Hit(rows[d := r], StatusChange(d, rows[d], r), 1, fault == AfterCommit)
  }

  // ---------------------------------------------------------------- steps of one process

  /** The outside world's part in a step: the time a new Date() gave, whether the call fails, the
      provider's reply, the ids a query returned. */
  datatype Input = Input(at: nat, fault: Fault, reply: Reply, found: seq<string>)

  /** The statement a process is about to issue, if its next step is a single updateMany. */
  function StatementOf(pc: Pc, x: Input): Option<(string, Statement)> {
    match pc
    case Claiming(c) => Some((c.delivery, Claim(x.at)))
    case Finishing(c, _, id) => Some((c.delivery, MarkSent(id, x.at)))
    case Filling(c, _, id) => Some((c.delivery, FillProviderId(id)))
    case Failing(c, _, error, _) => Some((c.delivery, MarkFailed(error, x.at)))
    case Resetting(c, _, error) => Some((c.delivery, BackToPending(error)))
    case ResettingStale(todo, staleBefore) => if todo == [] then None else Some((todo[0], RecoverStale(staleBefore)))
    case _ => None
  }

  /** The webhook transaction: event row, correlation and status move commit together or not at all. */
  ghost predicate WebhookCommits(w: World, kind: EventKind, emailId: string, d: string, fault: Fault) {
    fault != BeforeCommit && (kind, emailId) !in w.events && !Clashes(w.rows, d, Correlate(emailId))
  }

  ghost function Webhook(w: World, kind: EventKind, emailId: string, d: string, x: Input): Hit {
    if WebhookCommits(w, kind, emailId, d, x.fault) then
      UpdateMany(UpdateMany(w.rows, d, Correlate(emailId), NoFault).rows, d, ApplyEvent(kind, x.at), x.fault)
    else
      Hit(w.rows, None, 0, true)
  }

  /** The step's effect on the email_deliveries table. */
  ghost function TableWork(w: World, pc: Pc, x: Input): Hit {
    if pc.Transacting? then Webhook(w, pc.kind, pc.emailId, pc.delivery, x)
    else
      match StatementOf(pc, x)
      case None => Hit(w.rows, None, 0, x.fault != NoFault)
      case Some((d, stmt)) => UpdateMany(w.rows, d, stmt, x.fault)
  }

  /** What the program publishes when the update at this point affected a row. */
  function Announcement(pc: Pc): Option<(string, Status)> {
    match pc
    case Claiming(c) => Some((c.delivery, SENDING))
    case Finishing(c, _, _) => Some((c.delivery, SENT))
    case Failing(c, _, _, _) => Some((c.delivery, FAILED))
    case Resetting(c, _, _) => Some((c.delivery, PENDING))
    case ResettingStale(todo, _) => if todo == [] then None else Some((todo[0], PENDING))
    case Transacting(kind, _, d) => Some((d, TargetStatus(kind)))
    case _ => None
  }

  /** SENT is owed from the update that set it and announced only once the second update returned. */
  function OwesAfter(q: Proc, hit: Hit): Option<(string, Status)> {
    if hit.threw then None
    else if q.pc.Filling? then q.owes
    else if hit.count == 1 then Announcement(q.pc)
    else None
  }

  function LostAfter(q: Proc, hit: Hit): Option<(string, Status)> {
    if !hit.threw then None else if hit.change.Some? then hit.change else q.owes
  }

  predicate SkippedByWorker(s: Status) {
    s in {SENT, DELIVERED, BOUNCED, COMPLAINED, SUPPRESSED, FAILED}
  }

  /** The catch block: fail for good, or give the delivery back for the next attempt. */
  function OnError(c: Ctx, stamp: nat, error: string, retryable: bool): Pc {
    if !retryable || c.attemptsMade + 1 >= c.maxAttempts
    then Failing(c, stamp, error, !retryable)
    else Resetting(c, stamp, error)
  }

  predicate Sendable(c: Ctx) {
    c.recipient && c.repliable
  }

  function AfterSend(c: Ctx, stamp: nat, reply: Reply): Pc {
    if !c.recipient then Failing(c, stamp, "Recipient email is missing", true)
    else if !c.repliable then Failing(c, stamp, "Invalid email message state", true)
    else
      match reply.answer
      case GotId(id) => Finishing(c, stamp, id)
      case Refused(code) => OnError(c, stamp, "EmailProviderError", Retryable(code))
      case NoId => OnError(c, stamp, "Error", true)
  }

  function AfterLoad(rows: map<string, Row>, d: string, attemptsMade: nat, maxAttempts: nat, failed: bool): Pc {
    if failed then Reporting(d, Threw)
    else if d !in rows then Reporting(d, ThrewUnrecoverable)
    else if SkippedByWorker(rows[d].status) then Reporting(d, Returned)
    else
      var to := rows[d].recipient;
      Claiming(Ctx(d, attemptsMade, maxAttempts, to.Some? && to.value != "", rows[d].repliable))
  }

  function QueueNext(todo: seq<string>): Pc {
    if todo == [] then Done else Queueing(todo[0], GetJob, todo[1..])
  }

  /** ensureEmailDeliveryQueued, call by call; a call that fails is caught by the code around it. */
  function AfterQueueCall(jobs: map<string, Job>, d: string, op: QueueOp, rest: seq<string>, failed: bool): Pc {
    var id := JobId(d);
    if failed then QueueNext(rest)
    else
      match op
      case GetJob => Queueing(d, if id in jobs then GetState else AddJob, rest)
      case GetState =>
        if id in jobs && jobs[id].state == FailedJob then Queueing(d, RetryJob, rest)
        else if id in jobs && jobs[id].state == CompletedJob then Queueing(d, RemoveJob, rest)
        else QueueNext(rest)
      case RetryJob => QueueNext(rest)
      case RemoveJob => if id in jobs && jobs[id].state.Active? then QueueNext(rest) else Queueing(d, AddJob, rest)
      case AddJob => QueueNext(rest)
  }

  function PcAfter(w: World, pc: Pc, x: Input, hit: Hit): Pc {
    match pc
    case Loading(d, attemptsMade, maxAttempts) => AfterLoad(w.rows, d, attemptsMade, maxAttempts, hit.threw)
    case Claiming(c) =>
      if hit.threw then Reporting(c.delivery, Threw)
      else if hit.count == 1 then Sending(c, x.at)
      else Reporting(c.delivery, Returned)
    case Sending(c, stamp) => AfterSend(c, stamp, x.reply)
    case Finishing(c, stamp, id) => if hit.threw then OnError(c, stamp, "DatabaseError", true) else Filling(c, stamp, id)
    case Filling(c, stamp, _) =>
      if hit.threw then OnError(c, stamp, "DatabaseError", true) else Reporting(c.delivery, Returned)
    case Failing(c, _, _, unrecoverable) =>
      Reporting(c.delivery, if !hit.threw && unrecoverable then ThrewUnrecoverable else Threw)
    case Resetting(c, _, _) => Reporting(c.delivery, Threw)
    case Reporting(_, _) => Done
    case Finding(kind, emailId, _) => if hit.threw || |x.found| != 1 then Done else Transacting(kind, emailId, x.found[0])
    case Transacting(_, _, _) => Done
    case FindingStale(staleBefore) => if hit.threw then Done else ResettingStale(x.found, staleBefore)
    case ResettingStale(todo, staleBefore) =>
      if todo == [] then FindingPending else if hit.threw then Done else ResettingStale(todo[1..], staleBefore)
    case FindingPending => if hit.threw then Done else QueueNext(x.found)
    case Queueing(d, op, rest) => AfterQueueCall(w.jobs, d, op, rest, hit.threw)
    case Done => Done
  }

  /** The provider accepts mail only in a send call. */
  function AcceptedIn(pc: Pc, x: Input): Option<string> {
    if pc.Sending? && Sendable(pc.c) then x.reply.accepted else None
  }

  function KeysAfter(w: World, pc: Pc, x: Input): map<string, string> {
    if pc.Sending? && AcceptedIn(pc, x).Some? then w.keys[IdempotencyKey(pc.c.delivery) := AcceptedIn(pc, x).value] else w.keys
  }

  function MailsAfter(w: World, pc: Pc, x: Input): map<string, string> {
    if pc.Sending? && AcceptedIn(pc, x).Some? then w.mails[AcceptedIn(pc, x).value := pc.c.delivery] else w.mails
  }

  /** The queue's bookkeeping when an attempt ends. */
  function Ended(job: Job, verdict: Verdict): Job {
    match verdict
    case Returned => job.(state := CompletedJob)
    case ThrewUnrecoverable => job.(state := FailedJob, attemptsMade := job.attemptsMade + 1)
    case Threw =>
      job.(state := if job.attemptsMade + 1 < job.maxAttempts then Delayed else FailedJob,
           attemptsMade := job.attemptsMade + 1)
  }

  /** The queue learns how process p's attempt ended, unless the job was taken away meanwhile. */
  function JobEnded(jobs: map<string, Job>, p: nat, d: string, verdict: Verdict): map<string, Job> {
    if JobId(d) in jobs && jobs[JobId(d)].state == Active(p) then jobs[JobId(d) := Ended(jobs[JobId(d)], verdict)] else jobs
  }

  function JobsAfter(w: World, p: nat, pc: Pc, x: Input): map<string, Job> {
    match pc
    case Reporting(d, verdict) => JobEnded(w.jobs, p, d, verdict)
    case Queueing(d, op, _) => if x.fault == BeforeCommit then w.jobs else QueueCall(w.jobs, JobId(d), op)
    case _ => w.jobs
  }

  function QueueCall(jobs: map<string, Job>, id: string, op: QueueOp): map<string, Job> {
    match op
    case RetryJob => if id in jobs && jobs[id].state == FailedJob then jobs[id := jobs[id].(state := Waiting)] else jobs
    case RemoveJob => if id in jobs && jobs[id].state.Active? then jobs else jobs - {id}
    case AddJob => if id in jobs then jobs else jobs[id := Job(Waiting, 0, JOB_ATTEMPTS)]
    case _ => jobs
  }

  // ---------------------------------------------------------------- steps of the world

  datatype Action =
    | Tick(now: nat)
    | CreateMessage(delivery: string, recipient: Option<string>, at: nat, fault: Fault)
    | StartWorker(delivery: string)
    | Promote(delivery: string)              // the backoff of a delayed job is over
    | Stall(delivery: string, toFailed: bool)  // the queue takes an active job back
    | Evict(delivery: string)                // retention drops an ended job
    | StartRecovery(at: nat)
    | Receive(kind: EventKind, emailId: string, tag: Option<string>)
    | Publish(p: nat)
    | Crash(p: nat)
    | Advance(p: nat, x: Input)

  /** findMany of stale rows: at most a batch, and all of them when they fit. */
  ghost predicate StaleBatch(rows: map<string, Row>, staleBefore: int, found: seq<string>) {
    && |found| <= RECOVERY_BATCH
    && Distinct(found)
    && (forall d :: d in found ==> d in rows && IsStale(rows[d], staleBefore))
    && (|found| < RECOVERY_BATCH ==> forall d :: d in rows && IsStale(rows[d], staleBefore) ==> d in found)
  }

  /** findMany of pending rows, oldest first. */
  ghost predicate PendingBatch(rows: map<string, Row>, found: seq<string>) {
    && |found| <= RECOVERY_BATCH
    && Distinct(found)
    && (forall d :: d in found ==> d in rows && rows[d].status == PENDING)
    && (|found| < RECOVERY_BATCH ==> forall d :: d in rows && rows[d].status == PENDING ==> d in found)
    && (forall i, j :: 0 <= i < j < |found| ==> rows[found[i]].createdAt <= rows[found[j]].createdAt)
    && (forall d, i :: d in rows && rows[d].status == PENDING && d !in found && 0 <= i < |found| ==>
          rows[found[i]].createdAt <= rows[d].createdAt)
  }

  /** A provider that answers one idempotency key with one id, and gives different mails different ids. */
  ghost predicate HonestReply(w: World, delivery: string, reply: Reply) {
    && (reply.answer.GotId? ==> reply.accepted == Some(reply.answer.id))
    && (reply.accepted.Some? ==>
          if IdempotencyKey(delivery) in w.keys
          then reply.accepted.value == w.keys[IdempotencyKey(delivery)]
          else reply.accepted.value !in w.mails)
  }

  ghost predicate QueryAnswered(w: World, pc: Pc, x: Input) {
    match pc
    case Sending(c, _) => HonestReply(w, c.delivery, x.reply)
    case Finding(_, emailId, Some(tag)) => x.found == if tag in w.rows then [tag] else []
    case Finding(_, emailId, None) =>
      if exists d :: d in w.rows && w.rows[d].providerMessageId == Some(emailId)
      then |x.found| == 1 && x.found[0] in w.rows && w.rows[x.found[0]].providerMessageId == Some(emailId)
      else x.found == []
    case FindingStale(staleBefore) => StaleBatch(w.rows, staleBefore, x.found)
    case FindingPending => PendingBatch(w.rows, x.found)
    case _ => true
  }

  ghost predicate Enabled(w: World, a: Action) {
    match a
    case Tick(now) => w.clock <= now
    case CreateMessage(d, recipient, at, _) => d !in w.rows && at <= w.clock && recipient != Some("")
    case StartWorker(d) => JobId(d) in w.jobs && w.jobs[JobId(d)].state == Waiting
    case Promote(d) => JobId(d) in w.jobs && w.jobs[JobId(d)].state == Delayed
    case Stall(d, _) => JobId(d) in w.jobs && w.jobs[JobId(d)].state.Active?
    case Evict(d) => JobId(d) in w.jobs && w.jobs[JobId(d)].state in {FailedJob, CompletedJob}
    case StartRecovery(at) => at <= w.clock
    // webhooks report only mail that was accepted, under the tag it was sent with
    case Receive(_, emailId, tag) => emailId in w.mails && (tag.Some? ==> tag.value == w.mails[emailId])
    case Publish(p) => p < |w.procs| && w.procs[p].owes.Some? && !w.procs[p].pc.Filling?
    case Crash(p) => p < |w.procs|
    case Advance(p, x) =>
      && p < |w.procs|
      && w.procs[p].pc != Done
      && (w.procs[p].owes.None? || w.procs[p].pc.Filling?)
      && x.at <= w.clock
      && QueryAnswered(w, w.procs[p].pc, x)
  }

  function Spawn(w: World, q: Proc): World {
    w.(procs := w.procs + [q])
  }

  function SetJob(w: World, d: string, state: JobState): World
    requires JobId(d) in w.jobs
  {
    w.(jobs := w.jobs[JobId(d) := w.jobs[JobId(d)].(state := state)])
  }

  /** createMessage's transaction, and the end of the call that goes on to publish and enqueue. */
  function AfterCreate(w: World, d: string, recipient: Option<string>, at: nat, fault: Fault): World {
    var r := NewRow(recipient, true, at);
    var caller := Proc(if r.status == PENDING then Queueing(d, GetJob, []) else Done, Some((d, r.status)));
    if fault == BeforeCommit then w
    else
      w.(rows := w.rows[d := r],
         committed := w.committed + multiset{(d, r.status)},
         lost := if fault == AfterCommit then w.lost + multiset{(d, r.status)} else w.lost,
         procs := if fault == AfterCommit then w.procs else w.procs + [caller])
  }

  function Once(change: Option<(string, Status)>): Ledger {
    if change.Some? then multiset{change.value} else multiset{}
  }

  ghost function Settle(w: World, p: nat, x: Input): World
    requires p < |w.procs|
  {
    var q := w.procs[p];
    var hit := TableWork(w, q.pc, x);
    w.(rows := hit.rows,
       events := if q.pc.Transacting? && WebhookCommits(w, q.pc.kind, q.pc.emailId, q.pc.delivery, x.fault)
                 then w.events + {(q.pc.kind, q.pc.emailId)} else w.events,
       keys := KeysAfter(w, q.pc, x),
       mails := MailsAfter(w, q.pc, x),
       jobs := JobsAfter(w, p, q.pc, x),
       procs := w.procs[p := Proc(PcAfter(w, q.pc, x, hit), OwesAfter(q, hit))],
       committed := w.committed + Once(hit.change),
       lost := w.lost + Once(LostAfter(q, hit)))
  }

  ghost function Next(w: World, a: Action): World
    requires Enabled(w, a)
  {
    match a
    case Tick(now) => w.(clock := now)
    case CreateMessage(d, recipient, at, fault) => AfterCreate(w, d, recipient, at, fault)
    case StartWorker(d) =>
      var job := w.jobs[JobId(d)];
      SetJob(Spawn(w, Proc(Loading(d, job.attemptsMade, job.maxAttempts), None)), d, Active(|w.procs|))
    case Promote(d) => SetJob(w, d, Waiting)
    case Stall(d, toFailed) => SetJob(w, d, if toFailed then FailedJob else Waiting)
    case Evict(d) => w.(jobs := w.jobs - {JobId(d)})
    case StartRecovery(at) => Spawn(w, Proc(FindingStale(at - STALE_AFTER_MS), None))
    case Receive(kind, emailId, tag) => Spawn(w, Proc(Finding(kind, emailId, tag), None))
    case Publish(p) =>
      w.(procs := w.procs[p := w.procs[p].(owes := None)], published := w.published + Once(w.procs[p].owes))
    case Crash(p) => w.(procs := w.procs[p := Proc(Done, None)], lost := w.lost + Once(w.procs[p].owes))
    case Advance(p, x) => Settle(w, p, x)
  }

  /** A finite run from the empty database. Every reachable world ends one. */
  ghost predicate IsRun(ws: seq<World>, acts: seq<Action>) {
    && |ws| == |acts| + 1
    && ws[0] == Initial
    && forall i :: 0 <= i < |acts| ==> Enabled(ws[i], acts[i]) && ws[i + 1] == Next(ws[i], acts[i])
  }

  /** The run without its last step. */
  lemma {:induction false} Shorter(ws: seq<World>, acts: seq<Action>)
    requires IsRun(ws, acts) && acts != []
    ensures IsRun(ws[..|ws| - 1], acts[..|acts| - 1])
  {
  }
}
