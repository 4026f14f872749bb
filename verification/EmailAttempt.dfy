/** One attempt of a worker at a delivery, undisturbed by other processes, as a function of the delivery's
    row and of what the provider and the database do; and the proof that the protocol's worker, left alone,
    does exactly this. */
module EmailAttempt {
  import opened Basics
  import opened DeliveryRow
  import opened OutboundProtocol
  import opened OutboundRetry
  import opened OutboundAlone

  /** What happens to an attempt from outside. taken says the id in the reply already belongs to another
      row; load to fail are the faults of the five database calls. */
  datatype Plan = Plan(final: bool, reply: Reply, taken: bool, claimAt: nat, endAt: nat,
                       load: Fault, claim: Fault, finish: Fault, fill: Fault, fail: Fault)

  /** What an attempt does: the row it leaves, what it announces, how it ends. */
  datatype Attempt = Attempt(row: Row, news: seq<Status>, verdict: Verdict)

  function Try(r: Row, stmt: Statement, fault: Fault): Row {
    if fault == BeforeCommit then r else Execute(r, stmt)
  }

  /** A last compare-and-set. */
  function Ending(r: Row, stmt: Statement, fault: Fault, verdict: Verdict): Attempt {
    Attempt(Try(r, stmt, fault),
            if fault == NoFault && Matches(r, stmt) then [Updated(r, stmt).status] else [],
            if fault == NoFault then verdict else Threw)
  }

  /** The catch block. */
  function Caught(r: Row, error: string, retryable: bool, p: Plan): Attempt {
    if !retryable || p.final
    then Ending(r, MarkFailed(error, p.endAt), p.fail, if retryable then Threw else ThrewUnrecoverable)
    else Ending(r, BackToPending(error), p.fail, Threw)
  }

  /** The two updates after the provider returned an id. */
  function Finished(claimed: Row, id: string, p: Plan): Attempt {
    if p.taken || p.finish == BeforeCommit then Caught(claimed, "DatabaseError", true, p)
    else
      var sent := Execute(claimed, MarkSent(id, p.endAt));
      if p.finish == AfterCommit then Caught(sent, "DatabaseError", true, p)
      else if p.fill != NoFault then Caught(Try(sent, FillProviderId(id), p.fill), "DatabaseError", true, p)
      else Attempt(Execute(sent, FillProviderId(id)), if Matches(claimed, MarkSent(id, p.endAt)) then [SENT] else [], Returned)
  }

  /** From the provider call on. */
  function Sent(claimed: Row, p: Plan): Attempt {
    match p.reply.answer
    case GotId(id) => Finished(claimed, id, p)
    case Refused(code) => Caught(claimed, "EmailProviderError", Retryable(code), p)
    case NoId => Caught(claimed, "Error", true, p)
  }

  /** With the claim made. */
  function Tried(claimed: Row, p: Plan): Attempt {
    if claimed.recipient.None? || claimed.recipient.value == ""
    then Ending(claimed, MarkFailed("Recipient email is missing", p.endAt), p.fail, ThrewUnrecoverable)
    else if !claimed.repliable
    then Ending(claimed, MarkFailed("Invalid email message state", p.endAt), p.fail, ThrewUnrecoverable)
    else Sent(claimed, p)
  }

  function Then(news: Status, a: Attempt): Attempt {
    a.(news := [news] + a.news)
  }

  /** An attempt from its claim on. */
  function Claimed(r: Row, p: Plan): Attempt {
    if p.claim != NoFault then Attempt(Try(r, Claim(p.claimAt), p.claim), [], Threw)
    else if r.status != PENDING then Attempt(r, [], Returned)
    else Then(SENDING, Tried(Execute(r, Claim(p.claimAt)), p))
  }

  function Attempted(r: Row, p: Plan): Attempt {
    if p.load != NoFault then Attempt(r, [], Threw)
    else if SkippedByWorker(r.status) then Attempt(r, [], Returned)
    else Claimed(r, p)
  }

  predicate Smooth(p: Plan) {
    p.load == NoFault && p.claim == NoFault && p.finish == NoFault && p.fill == NoFault && p.fail == NoFault
  }

  // ---------------------------------------------------------------- what an attempt is for

  /** Whatever fails, an attempt moves only a PENDING row, and only forward; SENT means the provider gave an
      id; it returns with a PENDING row only by sending it, announcing both steps; and it leaves the row
      SENDING, for recovery, only if a database call failed. */
  lemma {:induction false} AttemptIsSafe(r: Row, p: Plan)
    ensures var a := Attempted(r, p);
            && Advances(r, a.row)
            && (r.status != PENDING ==> a.row == r && a.news == [])
            && (r.status == PENDING ==>
                  && a.row.status in {PENDING, SENDING, SENT, FAILED}
                  && (a.row.status == SENT <==>
                        CanBeSent(r) && p.reply.answer.GotId? && !p.taken &&
                        p.load == NoFault && p.claim == NoFault && p.finish != BeforeCommit)
                  && (a.row.status == SENT ==> a.row.providerMessageId == Some(p.reply.answer.id))
                  && (a.verdict == Returned ==> a.row.status == SENT && a.news == [SENDING, SENT])
                  && (a.verdict == ThrewUnrecoverable ==> a.row.status == FAILED && a.news == [SENDING, FAILED])
                  && (a.row.status == SENDING ==> !Smooth(p)))
  {
    if r.status == PENDING {
      SendingIsSafe(Execute(r, Claim(p.claimAt)), p);
    }
  }

  lemma {:induction false} SendingIsSafe(r: Row, p: Plan)
    requires r.status == SENDING
    ensures var a := Tried(r, p);
            && Advances(r, a.row)
            && a.row.status in {PENDING, SENDING, SENT, FAILED}
            && (a.row.status == SENT <==> CanBeSent(r) && p.reply.answer.GotId? && !p.taken && p.finish != BeforeCommit)
            && (a.row.status == SENT ==> a.row.providerMessageId == Some(p.reply.answer.id))
            && (a.verdict == Returned ==> a.row.status == SENT && a.news == [SENT])
            && (a.verdict == ThrewUnrecoverable ==> a.row.status == FAILED && a.news == [FAILED])
            && (a.row.status == SENDING ==> !Smooth(p))
  {
  }

  /** With no failing database call, a PENDING row ends SENT, or FAILED for good, or PENDING again only while
      attempts remain; and exactly its two moves are announced. */
  lemma {:induction false} AttemptOutcome(r: Row, p: Plan)
    requires Smooth(p)
    ensures var a := Attempted(r, p); var after := a.row; var answer := p.reply.answer;
            var sendable := r.recipient.Some? && r.recipient.value != "" && r.repliable;
            var worthAnother := answer.NoId? || (answer.GotId? && p.taken) ||
                                (answer.Refused? && (answer.statusCode.None? || answer.statusCode.value in {408, 429} ||
                                                     answer.statusCode.value >= 500));
            && (r.status != PENDING ==> a == Attempt(r, [], Returned))
            && (r.status == PENDING ==>
                  && after.attemptCount == r.attemptCount + 1 && after.lastAttemptAt == Some(p.claimAt)
                  && a.news == [SENDING, after.status]
                  && (after.status == SENT <==> sendable && p.reply.answer.GotId? && !p.taken)
                  && (after.status == SENT <==> a.verdict == Returned)
                  && (after.status == SENT ==> after.providerMessageId == Some(p.reply.answer.id) && after.sentAt == Some(p.endAt))
                  && (after.status == PENDING <==> sendable && !p.final && worthAnother)
                  && (after.status == PENDING ==> a.verdict == Threw)
                  && (after.status != SENT && after.status != PENDING ==>
                        after.status == FAILED && after.failedAt == Some(p.endAt) && after.lastError.Some?)
                  && (after.status == FAILED ==> a.verdict == if sendable && worthAnother then Threw else ThrewUnrecoverable))
  {
  }

  function GivenUp(claimed: Row, error: string, at: nat, verdict: Verdict): Attempt {
    Attempt(claimed.(status := FAILED, failedAt := Some(at), lastError := Some(error)), [SENDING, FAILED], verdict)
  }

  function GivenBack(claimed: Row, error: string): Attempt {
    Attempt(claimed.(status := PENDING, lastError := Some(error)), [SENDING, PENDING], Threw)
  }

  function AgainOrGivenUp(claimed: Row, error: string, p: Plan): Attempt {
    if p.final then GivenUp(claimed, error, p.endAt, Threw) else GivenBack(claimed, error)
  }

  /** Every column, announcement and verdict of an attempt at a PENDING delivery, by what the provider answers. */
  ghost predicate AttemptedAs(r: Row, p: Plan, a: Attempt) {
    var claimed := r.(status := SENDING, attemptCount := r.attemptCount + 1, lastAttemptAt := Some(p.claimAt), lastError := None);
    if r.recipient.None? || r.recipient.value == "" then
      a == GivenUp(claimed, "Recipient email is missing", p.endAt, ThrewUnrecoverable)
    else if !r.repliable then
      a == GivenUp(claimed, "Invalid email message state", p.endAt, ThrewUnrecoverable)
    else
      match p.reply.answer
      case GotId(id) =>
        if p.taken then a == AgainOrGivenUp(claimed, "DatabaseError", p)
        else a == Attempt(claimed.(status := SENT, providerMessageId := Some(id), sentAt := Some(p.endAt)), [SENDING, SENT], Returned)
      case Refused(code) =>
        if code.None? || code.value in {408, 429} || code.value >= 500
        then a == AgainOrGivenUp(claimed, "EmailProviderError", p)
        else a == GivenUp(claimed, "EmailProviderError", p.endAt, ThrewUnrecoverable)
      case NoId => a == AgainOrGivenUp(claimed, "Error", p)
  }

  lemma {:induction false} AttemptExactly(r: Row, p: Plan)
    requires Smooth(p) && r.status == PENDING
    ensures AttemptedAs(r, p, Attempted(r, p))
  {
    match p.reply.answer
    case GotId(_) =>
    case Refused(_) =>
    case NoId =>
  }

  // ---------------------------------------------------------------- the protocol's worker does this

  function NewsLedger(d: string, news: seq<Status>): Ledger {
    if news == [] then multiset{} else multiset{(d, news[0])} + NewsLedger(d, news[1..])
  }

  /** The delivery's row becomes r and news is announced. */
  ghost predicate Gets(w: World, w': World, p: nat, d: string, r: Row, news: seq<Status>) {
    && OnlyP(w, w', p)
    && w'.rows == w.rows[d := r]
    && w'.published == w.published + NewsLedger(d, news)
    && w'.events == w.events
  }

  /** And p is done, having ended its job. */
  ghost predicate Ends(w: World, w': World, p: nat, d: string, a: Attempt) {
    && Gets(w, w', p, d, a.row, a.news)
    && w'.procs[p] == Proc(Done, None)
    && w'.jobs == JobEnded(w.jobs, p, d, a.verdict)
  }

  lemma {:induction false} MoreNews(d: string, news: seq<Status>, more: seq<Status>)
    requires |news| <= 1
    ensures NewsLedger(d, news + more) == NewsLedger(d, news) + NewsLedger(d, more)
  {
    if news == [] {
      assert news + more == more;
    } else {
      assert (news + more)[1..] == more && news[1..] == [];
    }
  }

  lemma {:induction false} GetsThenEnds(w: World, w1: World, w2: World, p: nat, d: string, r: Row, news: seq<Status>, a: Attempt)
    requires Gets(w, w1, p, d, r, news) && w1.jobs == w.jobs && |news| <= 1
    requires Ends(w1, w2, p, d, a)
    ensures Ends(w, w2, p, d, a.(news := news + a.news))
  {
    MoreNews(d, news, a.news);
    assert w.rows[d := r][d := a.row] == w.rows[d := a.row];
  }

  const Calm: Input := Input(0, NoFault, Reply(None, NoId), [])

  lemma {:induction false} ReportingEnds(w: World, p: nat, d: string, verdict: Verdict) returns (w': World)
    requires p < |w.procs| && w.procs[p] == Proc(Reporting(d, verdict), None) && d in w.rows
    ensures Leads(w, w', p, false) && Ends(w, w', p, d, Attempt(w.rows[d], [], verdict))
  {
    w' := StepAndPublish(w, p, Calm, false);
    assert w.rows[d := w.rows[d]] == w.rows;
  }

  lemma {:induction false} Published(d: string, s: Status)
    ensures NewsLedger(d, [s]) == multiset{(d, s)}
  {
    assert [s][1..] == [];
  }

  /** An update that does not touch the provider id throws exactly when the call fails. */
  lemma {:induction false} PlainUpdate(rows: map<string, Row>, d: string, stmt: Statement, fault: Fault)
    requires d in rows && (stmt.MarkFailed? || stmt.BackToPending? || stmt.Claim?)
    ensures var hit := UpdateMany(rows, d, stmt, fault);
            && (hit.threw <==> fault != NoFault)
            && hit.rows == rows[d := Try(rows[d], stmt, fault)]
            && (fault == NoFault ==> hit.count == if Matches(rows[d], stmt) then 1 else 0)
  {
    assert rows[d := rows[d]] == rows;
  }

  /** What the last compare-and-set of an attempt announces. */
  lemma {:induction false} EndingNews(r: Row, d: string, stmt: Statement, q: Proc, hit: Hit, fault: Fault, verdict: Verdict)
    requires stmt.MarkFailed? || stmt.BackToPending?
    requires q.owes == None && !q.pc.Filling? && Announcement(q.pc) == Some((d, Updated(r, stmt).status))
    requires (hit.threw <==> fault != NoFault) && (fault == NoFault ==> hit.count == if Matches(r, stmt) then 1 else 0)
    ensures Once(OwesAfter(q, hit)) == NewsLedger(d, Ending(r, stmt, fault, verdict).news)
  {
    Published(d, Updated(r, stmt).status);
  }

  lemma {:induction false} EndingEnds(w: World, p: nat, d: string, stmt: Statement, x: Input, verdict: Verdict) returns (w': World)
    requires Enabled(w, Advance(p, x)) && w.procs[p].owes == None && d in w.rows
    requires w.procs[p].pc.Failing? || w.procs[p].pc.Resetting?
    requires StatementOf(w.procs[p].pc, x) == Some((d, stmt))
    requires PcAfter(w, w.procs[p].pc, x, TableWork(w, w.procs[p].pc, x)) ==
             Reporting(d, if x.fault == NoFault then verdict else Threw)
    ensures Leads(w, w', p, false) && Ends(w, w', p, d, Ending(w.rows[d], stmt, x.fault, verdict))
  {
    var a := Ending(w.rows[d], stmt, x.fault, verdict);
    PlainUpdate(w.rows, d, stmt, x.fault);
    EndingNews(w.rows[d], d, stmt, w.procs[p], TableWork(w, w.procs[p].pc, x), x.fault, verdict);
    var w1 := StepAndPublish(w, p, x, false);
    w' := ReportingEnds(w1, p, d, a.verdict);
    assert Gets(w, w1, p, d, a.row, a.news);
    ThenEnds(w, w1, w', p, d, a.row, a.news, Attempt(a.row, [], a.verdict));
    assert a.news + [] == a.news;
  }

  lemma {:induction false} FailingEnds(w: World, p: nat, c: Ctx, stamp: nat, error: string, fatal: bool, at: nat, fault: Fault) returns (w': World)
    requires p < |w.procs| && w.procs[p] == Proc(Failing(c, stamp, error, fatal), None)
    requires c.delivery in w.rows && at <= w.clock
    ensures Leads(w, w', p, false)
    ensures Ends(w, w', p, c.delivery,
                 Ending(w.rows[c.delivery], MarkFailed(error, at), fault, if fatal then ThrewUnrecoverable else Threw))
  {
    var x := Calm.(at := at, fault := fault);
    PlainUpdate(w.rows, c.delivery, MarkFailed(error, at), fault);
    w' := EndingEnds(w, p, c.delivery, MarkFailed(error, at), x, if fatal then ThrewUnrecoverable else Threw);
  }

  lemma {:induction false} ResettingEnds(w: World, p: nat, c: Ctx, stamp: nat, error: string, fault: Fault) returns (w': World)
    requires p < |w.procs| && w.procs[p] == Proc(Resetting(c, stamp, error), None) && c.delivery in w.rows
    ensures Leads(w, w', p, false)
    ensures Ends(w, w', p, c.delivery, Ending(w.rows[c.delivery], BackToPending(error), fault, Threw))
  {
    w' := EndingEnds(w, p, c.delivery, BackToPending(error), Calm.(fault := fault), Threw);
  }

  /** The plan is possible in this world, for this worker's job. */
  ghost predicate PlanFits(w: World, c: Ctx, plan: Plan) {
    && c.delivery in w.rows
    && plan.endAt <= w.clock
    && plan.final == (c.attemptsMade + 1 >= c.maxAttempts)
    && plan.taken == IdTaken(w.rows, c.delivery, plan.reply)
  }

  /** The provider answered with an id that another row already carries. */
  predicate IdTaken(rows: map<string, Row>, d: string, reply: Reply) {
    reply.answer.GotId? && exists other :: other in rows && other != d && rows[other].providerMessageId == Some(reply.answer.id)
  }

  lemma {:induction false} CaughtEnds(w: World, p: nat, c: Ctx, stamp: nat, error: string, retryable: bool, plan: Plan) returns (w': World)
    requires p < |w.procs| && w.procs[p] == Proc(OnError(c, stamp, error, retryable), None) && c.delivery in w.rows
    requires plan.endAt <= w.clock && plan.final == (c.attemptsMade + 1 >= c.maxAttempts)
    ensures Leads(w, w', p, false)
    ensures Ends(w, w', p, c.delivery, Caught(w.rows[c.delivery], error, retryable, plan))
  {
    if !retryable || plan.final {
      w' := FailingEnds(w, p, c, stamp, error, !retryable, plan.endAt, plan.fail);
    } else {
      w' := ResettingEnds(w, p, c, stamp, error, plan.fail);
    }
  }

  /** Then, from w1, the attempt ends as a. */
  lemma {:induction false} ThenEnds(w: World, w1: World, w2: World, p: nat, d: string, r: Row, news: seq<Status>, a: Attempt)
    requires Leads(w, w1, p, false) && Gets(w, w1, p, d, r, news) && w1.jobs == w.jobs && |news| <= 1
    requires Leads(w1, w2, p, false) && Ends(w1, w2, p, d, a)
    ensures Leads(w, w2, p, false) && Ends(w, w2, p, d, a.(news := news + a.news))
  {
    LeadsOn(w, w1, w2, p, false);
    GetsThenEnds(w, w1, w2, p, d, r, news, a);
  }

  lemma {:induction false} QuietlyThenEnds(w: World, w1: World, w2: World, p: nat, d: string, r: Row, a: Attempt)
    requires Leads(w, w1, p, false) && Gets(w, w1, p, d, r, []) && w1.jobs == w.jobs
    requires Leads(w1, w2, p, false) && Ends(w1, w2, p, d, a)
    ensures Leads(w, w2, p, false) && Ends(w, w2, p, d, a)
  {
    ThenEnds(w, w1, w2, p, d, r, [], a);
    assert a.(news := [] + a.news) == a;
  }

  /** The second update and what follows: its where-clause misses, for the first one set the id. */
  lemma {:induction false} FillingEnds(w: World, p: nat, c: Ctx, stamp: nat, id: string, plan: Plan) returns (w': World)
    requires p < |w.procs| && w.procs[p] == Proc(Filling(c, stamp, id), Some((c.delivery, SENT)))
    requires c.delivery in w.rows && w.rows[c.delivery].providerMessageId.Some?
    requires plan.endAt <= w.clock && plan.final == (c.attemptsMade + 1 >= c.maxAttempts)
    ensures Leads(w, w', p, false)
    ensures Ends(w, w', p, c.delivery,
                 if plan.fill != NoFault then Caught(w.rows[c.delivery], "DatabaseError", true, plan)
                 else Attempt(w.rows[c.delivery], [SENT], Returned))
  {
    var d, r := c.delivery, w.rows[c.delivery];
    MissedFill(w, c, stamp, id, plan.fill);
    var w1 := StepAlone(w, p, Calm.(fault := plan.fill), false);
    assert w.rows[d := r] == w.rows;
    assert Gets(w, w1, p, d, r, []);
    if plan.fill != NoFault {
      w' := CaughtEnds(w1, p, c, stamp, "DatabaseError", true, plan);
      QuietlyThenEnds(w, w1, w', p, d, r, Caught(r, "DatabaseError", true, plan));
    } else {
      w' := SentEnds(w1, p, d);
      QuietlyThenEnds(w, w1, w', p, d, r, Attempt(r, [SENT], Returned));
    }
  }

  lemma {:induction false} MissedFill(w: World, c: Ctx, stamp: nat, id: string, fault: Fault)
    requires c.delivery in w.rows && w.rows[c.delivery].providerMessageId.Some?
    ensures var x := Calm.(fault := fault);
            && TableWork(w, Filling(c, stamp, id), x) == Hit(w.rows, None, 0, fault != NoFault)
            && PcAfter(w, Filling(c, stamp, id), x, Hit(w.rows, None, 0, fault != NoFault)) ==
               if fault != NoFault then OnError(c, stamp, "DatabaseError", true) else Reporting(c.delivery, Returned)
  {
  }

  lemma {:induction false} SentEnds(w: World, p: nat, d: string) returns (w': World)
    requires p < |w.procs| && w.procs[p] == Proc(Reporting(d, Returned), Some((d, SENT))) && d in w.rows
    ensures Leads(w, w', p, false) && Ends(w, w', p, d, Attempt(w.rows[d], [SENT], Returned))
  {
    Published(d, SENT);
    var w1 := PublishAlone(w, p, false);
    assert w.rows[d := w.rows[d]] == w.rows;
    w' := ReportingEnds(w1, p, d, Returned);
    ThenEnds(w, w1, w', p, d, w.rows[d], [SENT], Attempt(w.rows[d], [], Returned));
    assert [SENT] + [] == [SENT];
  }

  predicate FinishFails(plan: Plan) {
    plan.taken || plan.finish != NoFault
  }

  /** The row after the update to SENT, whatever its caller learns. */
  function RowSent(r: Row, id: string, plan: Plan): Row {
    if plan.taken || plan.finish == BeforeCommit then r else Execute(r, MarkSent(id, plan.endAt))
  }

  lemma {:induction false} MarkingSent(w: World, c: Ctx, stamp: nat, id: string, plan: Plan)
    requires PlanFits(w, c, plan) && plan.reply.answer == GotId(id) && w.rows[c.delivery].status == SENDING
    ensures var pc, x := Finishing(c, stamp, id), Calm.(at := plan.endAt, fault := plan.finish);
            var hit := TableWork(w, pc, x);
            && hit.threw == FinishFails(plan)
            && hit.rows == w.rows[c.delivery := RowSent(w.rows[c.delivery], id, plan)]
            && PcAfter(w, pc, x, hit) == (if hit.threw then OnError(c, stamp, "DatabaseError", true) else Filling(c, stamp, id))
            && OwesAfter(Proc(pc, None), hit) == if hit.threw then None else Some((c.delivery, SENT))
  {
    assert w.rows[c.delivery := w.rows[c.delivery]] == w.rows;
  }

  /** The second update changes nothing after the first one went through. */
  lemma {:induction false} FinishedIs(claimed: Row, id: string, plan: Plan)
    requires claimed.status == SENDING
    ensures var r := RowSent(claimed, id, plan);
            && (!FinishFails(plan) ==> r.providerMessageId.Some?)
            && Finished(claimed, id, plan) ==
               if FinishFails(plan) || plan.fill != NoFault then Caught(r, "DatabaseError", true, plan)
               else Attempt(r, [SENT], Returned)
  {
  }

  lemma {:induction false} FinishingEnds(w: World, p: nat, c: Ctx, stamp: nat, id: string, plan: Plan) returns (w': World)
    requires p < |w.procs| && w.procs[p] == Proc(Finishing(c, stamp, id), None)
    requires PlanFits(w, c, plan) && plan.reply.answer == GotId(id) && w.rows[c.delivery].status == SENDING
    ensures Leads(w, w', p, false) && Ends(w, w', p, c.delivery, Finished(w.rows[c.delivery], id, plan))
  {
    var d, r := c.delivery, RowSent(w.rows[c.delivery], id, plan);
    MarkingSent(w, c, stamp, id, plan);
    FinishedIs(w.rows[d], id, plan);
    var w1 := StepAlone(w, p, Calm.(at := plan.endAt, fault := plan.finish), false);
    assert w1.rows[d] == r && Gets(w, w1, p, d, r, []);
    if FinishFails(plan) {
      w' := CaughtEnds(w1, p, c, stamp, "DatabaseError", true, plan);
    } else {
      w' := FillingEnds(w1, p, c, stamp, id, plan);
    }
    QuietlyThenEnds(w, w1, w', p, d, r, Finished(w.rows[d], id, plan));
  }

  /** The worker is past its claim: what it carries is what the row says. */
  predicate CtxOf(c: Ctx, r: Row) {
    c.recipient == (r.recipient.Some? && r.recipient.value != "") && c.repliable == r.repliable
  }

  lemma {:induction false} SendingEnds(w: World, p: nat, c: Ctx, stamp: nat, plan: Plan) returns (w': World)
    requires p < |w.procs| && w.procs[p] == Proc(Sending(c, stamp), None)
    requires PlanFits(w, c, plan) && w.rows[c.delivery].status == SENDING && CtxOf(c, w.rows[c.delivery])
    requires HonestReply(w, c.delivery, plan.reply)
    ensures Leads(w, w', p, false) && Ends(w, w', p, c.delivery, Tried(w.rows[c.delivery], plan))
  {
    var d, r := c.delivery, w.rows[c.delivery];
    var w1 := StepAlone(w, p, Calm.(reply := plan.reply), false);
    assert w.rows[d := r] == w.rows;
    assert Gets(w, w1, p, d, r, []);
    assert w1.procs[p] == Proc(AfterSend(c, stamp, plan.reply), None);
    if !c.recipient {
      w' := FailingEnds(w1, p, c, stamp, "Recipient email is missing", true, plan.endAt, plan.fail);
    } else if !c.repliable {
      w' := FailingEnds(w1, p, c, stamp, "Invalid email message state", true, plan.endAt, plan.fail);
    } else {
      w' := RepliedEnds(w1, p, c, stamp, plan);
    }
    QuietlyThenEnds(w, w1, w', p, d, r, Tried(r, plan));
  }

  lemma {:induction false} RepliedEnds(w: World, p: nat, c: Ctx, stamp: nat, plan: Plan) returns (w': World)
    requires p < |w.procs| && Sendable(c) && w.procs[p] == Proc(AfterSend(c, stamp, plan.reply), None)
    requires PlanFits(w, c, plan) && w.rows[c.delivery].status == SENDING
    ensures Leads(w, w', p, false) && Ends(w, w', p, c.delivery, Sent(w.rows[c.delivery], plan))
  {
    match plan.reply.answer
    case GotId(id) => w' := FinishingEnds(w, p, c, stamp, id, plan);
    case Refused(code) => w' := CaughtEnds(w, p, c, stamp, "EmailProviderError", Retryable(code), plan);
    case NoId => w' := CaughtEnds(w, p, c, stamp, "Error", true, plan);
  }

  lemma {:induction false} ClaimMarks(w: World, c: Ctx, plan: Plan)
    requires c.delivery in w.rows
    ensures var pc, x, r := Claiming(c), Calm.(at := plan.claimAt, fault := plan.claim), w.rows[c.delivery];
            var hit := TableWork(w, pc, x);
            && hit.rows == w.rows[c.delivery := Try(r, Claim(plan.claimAt), plan.claim)]
            && PcAfter(w, pc, x, hit) == (if plan.claim != NoFault then Reporting(c.delivery, Threw)
                                          else if r.status == PENDING then Sending(c, plan.claimAt)
                                          else Reporting(c.delivery, Returned))
            && Once(OwesAfter(Proc(pc, None), hit)) ==
               if plan.claim == NoFault && r.status == PENDING then NewsLedger(c.delivery, [SENDING]) else multiset{}
  {
    PlainUpdate(w.rows, c.delivery, Claim(plan.claimAt), plan.claim);
    Published(c.delivery, SENDING);
  }

  lemma {:induction false} ClaimingEnds(w: World, p: nat, c: Ctx, plan: Plan) returns (w': World)
    requires p < |w.procs| && w.procs[p] == Proc(Claiming(c), None)
    requires PlanFits(w, c, plan) && plan.claimAt <= w.clock && CtxOf(c, w.rows[c.delivery])
    requires HonestReply(w, c.delivery, plan.reply)
    ensures Leads(w, w', p, false) && Ends(w, w', p, c.delivery, Claimed(w.rows[c.delivery], plan))
  {
    var d, r := c.delivery, w.rows[c.delivery];
    var r1 := Try(r, Claim(plan.claimAt), plan.claim);
    ClaimMarks(w, c, plan);
    var w1 := StepAndPublish(w, p, Calm.(at := plan.claimAt, fault := plan.claim), false);
    if plan.claim == NoFault && r.status == PENDING {
      TakenStays(w.rows, d, r1, plan.reply);
      w' := SendingEnds(w1, p, c, plan.claimAt, plan);
      ThenEnds(w, w1, w', p, d, r1, [SENDING], Tried(r1, plan));
    } else {
      w' := ReportingEnds(w1, p, d, if plan.claim != NoFault then Threw else Returned);
      QuietlyThenEnds(w, w1, w', p, d, r1, Claimed(r, plan));
    }
  }

  lemma {:induction false} TakenStays(rows: map<string, Row>, d: string, r: Row, reply: Reply)
    ensures IdTaken(rows[d := r], d, reply) == IdTaken(rows, d, reply)
  {
    if IdTaken(rows, d, reply) {
      var other :| other in rows && other != d && rows[other].providerMessageId == Some(reply.answer.id);
      assert other in rows[d := r];
    }
  }

  /** Refinement: a worker left alone, whatever its database calls and the provider do, ends with exactly
      the row, the announcements and the verdict of Attempted, and its job ended by that verdict. */
  lemma {:induction false} WorkerRunsAttempt(w: World, p: nat, d: string, made: nat, allowed: nat, plan: Plan) returns (w': World)
    requires p < |w.procs| && w.procs[p] == Proc(Loading(d, made, allowed), None)
    requires d in w.rows && plan.final == (made + 1 >= allowed) && plan.taken == IdTaken(w.rows, d, plan.reply)
    requires plan.claimAt <= w.clock && plan.endAt <= w.clock && HonestReply(w, d, plan.reply)
    ensures Leads(w, w', p, false) && Ends(w, w', p, d, Attempted(w.rows[d], plan))
  {
    var r := w.rows[d];
    var w1 := StepAlone(w, p, Calm.(fault := plan.load), false);
    assert w.rows[d := r] == w.rows;
    assert Gets(w, w1, p, d, r, []);
    if plan.load != NoFault {
      w' := ReportingEnds(w1, p, d, Threw);
    } else if SkippedByWorker(r.status) {
      w' := ReportingEnds(w1, p, d, Returned);
    } else {
      w' := ClaimingEnds(w1, p, w1.procs[p].pc.c, plan);
    }
    QuietlyThenEnds(w, w1, w', p, d, r, Attempted(r, plan));
  }

  /** A job whose delivery does not exist is over for good, and changes no row. */
  lemma {:induction false} WorkerFindsNothing(w: World, p: nat, d: string, made: nat, allowed: nat) returns (w': World)
    requires p < |w.procs| && w.procs[p] == Proc(Loading(d, made, allowed), None) && d !in w.rows
    ensures Leads(w, w', p, true) && OnlyP(w, w', p) && w'.procs[p] == Proc(Done, None)
    ensures w'.rows == w.rows && w'.published == w.published && w'.jobs == JobEnded(w.jobs, p, d, ThrewUnrecoverable)
  {
    var w1 := StepAlone(w, p, Calm, true);
    w' := StepAlone(w1, p, Calm, true);
    LeadsOn(w, w1, w', p, true);
  }
}
