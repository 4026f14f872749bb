/** The worker, the queue service and the webhook handler in the program's own form: an object whose
    methods change the tables in place. Each does what EmailAttempt, EmailRecovery and OutboundWebhooks
    say, which is what the protocol's processes do when left alone. */
module EmailWorker {
  import opened Basics
  import opened DeliveryRow
  import opened OutboundProtocol
  import opened OutboundRecovery
  import opened OutboundRetry
  import opened OutboundEvents
  import opened OutboundWebhooks
  import opened EmailAttempt
  import opened EmailRecovery

  function Announced(d: string, news: seq<Status>): seq<(string, Status)> {
    seq(|news|, i requires 0 <= i < |news| => (d, news[i]))
  }

  lemma {:induction false} AnnouncedOne(d: string, s: Status, more: seq<Status>)
    ensures Announced(d, [s] + more) == [(d, s)] + Announced(d, more)
    ensures Announced(d, [s]) == [(d, s)] && Announced(d, []) == []
  {
  }

  function PendingAgain(todo: seq<string>): seq<(string, Status)> {
    seq(|todo|, i requires 0 <= i < |todo| => (todo[i], PENDING))
  }

  /** How many queue calls fail. */
  function Unreached(pending: seq<string>, unreachable: set<string>): nat {
    if pending == [] then 0 else (if pending[0] in unreachable then 1 else 0) + Unreached(pending[1..], unreachable)
  }

  lemma {:induction false} UnreachedCounts(pending: seq<string>, unreachable: set<string>)
    requires Distinct(pending)
    ensures Unreached(pending, unreachable) == |UnreachedIn(pending, unreachable)|
  {
    if pending != [] {
      UnreachedCounts(pending[1..], unreachable);
      FirstUnreached(pending, unreachable);
    }
  }

  function UnreachedIn(pending: seq<string>, unreachable: set<string>): set<string> {
    set d | d in pending && d in unreachable
  }

  lemma {:induction false} FirstUnreached(pending: seq<string>, unreachable: set<string>)
    requires Distinct(pending) && pending != []
    ensures pending[0] !in UnreachedIn(pending[1..], unreachable)
    ensures UnreachedIn(pending, unreachable) ==
            UnreachedIn(pending[1..], unreachable) + (if pending[0] in unreachable then {pending[0]} else {})
  {
    assert forall d :: d in pending <==> d == pending[0] || d in pending[1..];
  }

  /** A send begun more than ten minutes before now. */
  predicate StaleAt(r: Row, now: nat) {
    r.status == SENDING && r.lastAttemptAt.Some? && r.lastAttemptAt.value < now - 10 * 60 * 1000
  }

  class Backend {
    var rows: map<string, Row>
    var events: set<(EventKind, string)>
    var jobs: map<string, Job>
    var published: seq<(string, Status)>
    var providerCalls: nat

    constructor ()
      ensures rows == map[] && events == {} && jobs == map[] && published == [] && providerCalls == 0
    {
      rows, events, jobs, published, providerCalls := map[], {}, map[], [], 0;
    }

    method Update(d: string, stmt: Statement, fault: Fault) returns (count: nat, threw: bool)
      modifies this`rows
      ensures var hit := UpdateMany(old(rows), d, stmt, fault);
              rows == hit.rows && count == hit.count && threw == hit.threw
    {
      var hit := UpdateMany(rows, d, stmt, fault);
      rows := hit.rows;
      return hit.count, hit.threw;
    }

    method Publish(d: string, status: Status)
      modifies this`published
      ensures published == old(published) + [(d, status)]
    {
      published := published + [(d, status)];
    }

    /** ensureEmailDeliveryQueued. */
    method EnsureEmailDeliveryQueued(d: string)
      modifies this`jobs
      ensures jobs == EnsureQueued(old(jobs), JobId(d))
      ensures JobLive(jobs, d)
      ensures var id := "email-delivery-" + d;
              jobs == if id !in old(jobs) || old(jobs)[id].state == CompletedJob then old(jobs)[id := Job(Waiting, 0, 5)]
                      else if old(jobs)[id].state == FailedJob then old(jobs)[id := old(jobs)[id].(state := Waiting)]
                      else old(jobs)
    {
      var id := JobId(d);
      if id in jobs {
        if jobs[id].state == FailedJob {
          jobs := jobs[id := jobs[id].(state := Waiting)];
          return;
        }
        if jobs[id].state == CompletedJob {
          jobs := jobs - {id};
        } else {
          return;
        }
      }
      jobs := jobs[id := Job(Waiting, 0, JOB_ATTEMPTS)];
    }

    /** The object's row and announcements are what attempt a did to the row r. */
    twostate predicate Did(d: string, a: Attempt)
      reads this
    {
      rows == old(rows)[d := a.row] && published == old(published) + Announced(d, a.news)
    }

    /** An attempt's last compare-and-set, its announcement and its outcome. */
    method End(d: string, stmt: Statement, status: Status, fault: Fault, ifDone: Verdict) returns (verdict: Verdict)
      requires d in rows && (stmt.MarkFailed? || stmt.BackToPending?) && status == Updated(rows[d], stmt).status
      modifies this`rows, this`published
      ensures var a := Ending(old(rows[d]), stmt, fault, ifDone);
              Did(d, a) && verdict == a.verdict
    {
      PlainUpdate(rows, d, stmt, fault);
      AnnouncedOne(d, status, []);
      var count, threw := Update(d, stmt, fault);
      if threw {
        return Threw;
      }
      if count == 1 {
        Publish(d, status);
      }
      verdict := ifDone;
    }

    /** The catch block of an attempt. */
    method HandleError(d: string, error: string, retryable: bool, p: Plan) returns (verdict: Verdict)
      requires d in rows
      modifies this`rows, this`published
      ensures var a := Caught(old(rows[d]), error, retryable, p);
              Did(d, a) && verdict == a.verdict
    {
      if !retryable || p.final {
        verdict := End(d, MarkFailed(error, p.endAt), FAILED, p.fail, if retryable then Threw else ThrewUnrecoverable);
      } else {
        verdict := End(d, BackToPending(error), PENDING, p.fail, Threw);
      }
    }

    /** After the provider returned an id: two updates, and the announcement once both went through. */
    method RecordSent(d: string, id: string, p: Plan) returns (verdict: Verdict)
      requires d in rows && rows[d].status == SENDING && p.reply.answer == GotId(id) && p.taken == IdTaken(rows, d, p.reply)
      modifies this`rows, this`published
      ensures var a := Finished(old(rows[d]), id, p);
              Did(d, a) && verdict == a.verdict
    {
      FinishedIs(rows[d], id, p);
      UpdateToSent(rows, d, id, p);
      var sent, clash := Update(d, MarkSent(id, p.endAt), p.finish);
      if clash {
        verdict := HandleError(d, "DatabaseError", true, p);
        return;
      }
      SecondUpdateMisses(rows, d, id, p.fill);
      var _, missed := Update(d, FillProviderId(id), p.fill);
      if missed {
        verdict := HandleError(d, "DatabaseError", true, p);
        return;
      }
      if sent == 1 {
        Publish(d, SENT);
      }
      AnnouncedOne(d, SENT, []);
      verdict := Returned;
    }

    /** The try block of an attempt whose claim matched. */
    method SendAndFinish(d: string, p: Plan) returns (verdict: Verdict)
      requires d in rows && rows[d].status == SENDING && p.taken == IdTaken(rows, d, p.reply)
      modifies this`rows, this`published, this`providerCalls
      ensures var a := Sent(old(rows[d]), p);
              Did(d, a) && verdict == a.verdict
      ensures providerCalls == old(providerCalls) + 1
    {
      providerCalls := providerCalls + 1;
      match p.reply.answer {
        case GotId(id) => verdict := RecordSent(d, id, p);
        case Refused(code) => verdict := HandleError(d, "EmailProviderError", Retryable(code), p);
        case NoId => verdict := HandleError(d, "Error", true, p);
      }
    }

    /** From the claim on. */
    method Deliver(d: string, p: Plan) returns (verdict: Verdict)
      requires d in rows && rows[d].status == SENDING && p.taken == IdTaken(rows, d, p.reply)
      modifies this`rows, this`published, this`providerCalls
      ensures var a := Tried(old(rows[d]), p);
              Did(d, a) && verdict == a.verdict
      ensures providerCalls == old(providerCalls) + if CanBeSent(old(rows[d])) then 1 else 0
    {
      var delivery := rows[d];
      if delivery.recipient.None? || delivery.recipient.value == "" {
        verdict := End(d, MarkFailed("Recipient email is missing", p.endAt), FAILED, p.fail, ThrewUnrecoverable);
      } else if !delivery.repliable {
        verdict := End(d, MarkFailed("Invalid email message state", p.endAt), FAILED, p.fail, ThrewUnrecoverable);
      } else {
        verdict := SendAndFinish(d, p);
      }
    }

    /** processTicketReply, with nobody else writing: whatever the provider and the database calls do. */
    method ProcessTicketReply(d: string, p: Plan) returns (verdict: Verdict)
      requires p.taken == IdTaken(rows, d, p.reply)
      modifies this`rows, this`published, this`providerCalls
      ensures d !in old(rows) ==>
                rows == old(rows) && published == old(published) && providerCalls == old(providerCalls) &&
                verdict == if p.load != NoFault then Threw else ThrewUnrecoverable
      ensures d in old(rows) ==>
                var a := Attempted(old(rows[d]), p);
                Did(d, a) && verdict == a.verdict
      ensures d in old(rows) && old(rows[d]).status == PENDING && Smooth(p) ==>
                exists a :: AttemptedAs(old(rows[d]), p, a) && Did(d, a) && verdict == a.verdict
      ensures providerCalls == old(providerCalls) +
                if d in old(rows) && old(rows[d]).status == PENDING && CanBeSent(old(rows[d])) && p.load == NoFault && p.claim == NoFault
                then 1 else 0
    {
      if d in rows && rows[d].status == PENDING && Smooth(p) {
        AttemptExactly(rows[d], p);
      }
      verdict := LoadAndDeliver(d, p);
    }

    /** The attempt, call by call. */
    method LoadAndDeliver(d: string, p: Plan) returns (verdict: Verdict)
      requires p.taken == IdTaken(rows, d, p.reply)
      modifies this`rows, this`published, this`providerCalls
      ensures d !in old(rows) ==>
                rows == old(rows) && published == old(published) && providerCalls == old(providerCalls) &&
                verdict == if p.load != NoFault then Threw else ThrewUnrecoverable
      ensures d in old(rows) ==>
                var a := Attempted(old(rows[d]), p);
                Did(d, a) && verdict == a.verdict
      ensures providerCalls == old(providerCalls) +
                if d in old(rows) && old(rows[d]).status == PENDING && CanBeSent(old(rows[d])) && p.load == NoFault && p.claim == NoFault
                then 1 else 0
    {
      if p.load != NoFault {
        Unchanged(d);
        return Threw;
      }
      if d !in rows {
        return ThrewUnrecoverable;
      }
      Unchanged(d);
      if SkippedByWorker(rows[d].status) {
        return Returned;
      }
      PlainUpdate(rows, d, Claim(p.claimAt), p.claim);
      TakenStays(rows, d, Try(rows[d], Claim(p.claimAt), p.claim), p.reply);
      var claimed, threw := Update(d, Claim(p.claimAt), p.claim);
      if threw {
        return Threw;
      }
      if claimed != 1 {
        return Returned;
      }
      Publish(d, SENDING);
      AnnouncedOne(d, SENDING, Tried(rows[d], p).news);
      verdict := Deliver(d, p);
    }

    /** The queue running a fresh job of a PENDING delivery to its end, attempt after attempt, while no
        database call fails. */
    method RunJob(d: string, maxAttempts: nat, replies: seq<Reply>, times: seq<nat>) returns (attempts: nat)
      requires d in rows && rows[d].status == PENDING
      requires 1 <= maxAttempts <= |replies| && maxAttempts <= |times|
      modifies this`rows, this`published, this`providerCalls
      ensures 1 <= attempts <= maxAttempts
      ensures d in rows && rows[d].status in {SENT, FAILED}
      ensures rows[d].attemptCount == old(rows[d]).attemptCount + attempts
      ensures providerCalls == old(providerCalls) + if CanBeSent(old(rows[d])) then attempts else 0
      ensures forall k :: k in old(rows) && k != d ==> k in rows && rows[k] == old(rows)[k]
    {
      attempts := 0;
      var verdict := Threw;
      while verdict == Threw && attempts < maxAttempts
        invariant attempts <= maxAttempts
        invariant d in rows && rows[d].attemptCount == old(rows[d]).attemptCount + attempts
        invariant CanBeSent(rows[d]) == CanBeSent(old(rows[d]))
        invariant verdict == Threw && attempts < maxAttempts ==> rows[d].status == PENDING
        invariant attempts == 0 ==> verdict == Threw
        invariant !(verdict == Threw && attempts < maxAttempts) ==> rows[d].status in {SENT, FAILED}
        invariant providerCalls == old(providerCalls) + if CanBeSent(old(rows[d])) then attempts else 0
        invariant forall k :: k in old(rows) && k != d ==> k in rows && rows[k] == old(rows)[k]
        decreases maxAttempts - attempts
      {
        var p := Plan(attempts + 1 >= maxAttempts, replies[attempts], IdTaken(rows, d, replies[attempts]),
                      times[attempts], times[attempts], NoFault, NoFault, NoFault, NoFault, NoFault);
        AttemptOutcome(rows[d], p);
        AttemptIsSafe(rows[d], p);
        verdict := ProcessTicketReply(d, p);
        attempts := attempts + 1;
      }
    }

    /** The first loop of processRecovery. */
    method ResetStale(stale: seq<string>, staleBefore: int) returns (staleReset: nat)
      requires AllStale(rows, stale, staleBefore)
      modifies this`rows, this`published
      ensures rows == ResetAll(old(rows), stale, staleBefore)
      ensures published == old(published) + PendingAgain(stale)
      ensures staleReset == |stale|
    {
      staleReset := 0;
      assert stale[0..] == stale;
      for i := 0 to |stale|
        invariant staleReset == i
        invariant AllStale(rows, stale[i..], staleBefore)
        invariant ResetAll(rows, stale[i..], staleBefore) == ResetAll(old(rows), stale, staleBefore)
        invariant published == old(published) + PendingAgain(stale[..i])
      {
        RestStale(rows, stale[i..], staleBefore);
        assert stale[i] == stale[i..][0] && stale[i] in stale[i..] && stale[i..][1..] == stale[i + 1..];
        var count, _ := Update(stale[i], RecoverStale(staleBefore), NoFault);
        if count == 1 {
          staleReset := staleReset + 1;
          Publish(stale[i], PENDING);
        }
        assert PendingAgain(stale[..i + 1]) == PendingAgain(stale[..i]) + [(stale[i], PENDING)];
      }
      assert stale[..|stale|] == stale;
    }

    /** The second loop of processRecovery. */
    method QueuePending(pending: seq<string>, unreachable: set<string>) returns (queued: nat, queueFailures: nat)
      modifies this`jobs
      ensures jobs == QueueAll(old(jobs), pending, unreachable)
      ensures queued + queueFailures == |pending|
      ensures unreachable == {} ==> queueFailures == 0
      ensures queueFailures == Unreached(pending, unreachable)
    {
      queued, queueFailures := 0, 0;
      assert pending[0..] == pending;
      for i := 0 to |pending|
        invariant queued + queueFailures == i
        invariant unreachable == {} ==> queueFailures == 0
        invariant queueFailures + Unreached(pending[i..], unreachable) == Unreached(pending, unreachable)
        invariant QueueAll(jobs, pending[i..], unreachable) == QueueAll(old(jobs), pending, unreachable)
      {
        assert pending[i..][1..] == pending[i + 1..];
        if pending[i] !in unreachable {
          EnsureEmailDeliveryQueued(pending[i]);
          queued := queued + 1;
        } else {
          queueFailures := queueFailures + 1;
        }
      }
    }

    /** processRecovery. stale and pending are what the two queries return; unreachable are the
        deliveries whose queue calls fail. */
    method ProcessRecovery(now: nat, stale: seq<string>, pending: seq<string>, unreachable: set<string>)
        returns (staleReset: nat, pendingFound: nat, queued: nat, queueFailures: nat)
      requires StaleBatch(rows, now - STALE_AFTER_MS, stale)
      requires PendingBatch(ResetAll(rows, stale, now - STALE_AFTER_MS), pending)
      modifies this`rows, this`jobs, this`published
      ensures rows == ResetAll(old(rows), stale, now - STALE_AFTER_MS)
      ensures jobs == QueueAll(old(jobs), pending, unreachable)
      ensures published == old(published) + PendingAgain(stale)
      ensures staleReset == |stale| && pendingFound == |pending| && queued + queueFailures == pendingFound
      ensures unreachable == {} ==> queueFailures == 0
      ensures queueFailures == |UnreachedIn(pending, unreachable)|
      ensures rows.Keys == old(rows).Keys
      ensures forall d :: d in rows && rows[d] != old(rows)[d] ==>
                && StaleAt(old(rows)[d], now)
                && rows[d] == old(rows)[d].(status := PENDING, lastError := Some("Recovered stale sending attempt"))
      ensures |stale| < 100 ==> forall d :: d in rows && StaleAt(old(rows)[d], now) ==> rows[d].status == PENDING
      ensures unreachable == {} && |Backlog(old(rows), now - STALE_AFTER_MS)| <= RECOVERY_BATCH ==>
                forall d :: d in Backlog(old(rows), now - STALE_AFTER_MS) ==>
                  d in rows && rows[d].status == PENDING && JobLive(jobs, d)
    {
      ResetAllResets(rows, stale, now - STALE_AFTER_MS);
      UnreachedCounts(pending, unreachable);
      staleReset := ResetStale(stale, now - STALE_AFTER_MS);
      pendingFound := |pending|;
      queued, queueFailures := QueuePending(pending, unreachable);
      if unreachable == {} && |Backlog(old(rows), now - STALE_AFTER_MS)| <= RECOVERY_BATCH {
        forall d | d in Backlog(old(rows), now - STALE_AFTER_MS) ensures d in rows && rows[d].status == PENDING && JobLive(jobs, d) {
          NothingStranded(old(rows), old(jobs), now, stale, pending, unreachable, d);
        }
      }
    }

    /** The handler's lookup: by its tag, or without one by the provider's id. */
    method FindDelivery(emailId: string, tag: Option<string>) returns (found: Option<string>)
      ensures LooksUp(rows, emailId, tag, found)
    {
      if tag.Some? {
        return if tag.value in rows then tag else None;
      }
      if d :| d in rows && rows[d].providerMessageId == Some(emailId) {
        return Some(d);
      }
      found := None;
    }

    /** OutboundEmailEventsService.handle. */
    method HandleOutboundEvent(h: Hook, tag: Option<string>) returns (status: string, found: Option<string>)
      modifies this`rows, this`events, this`published
      ensures LooksUp(old(rows), h.emailId, tag, found)
      ensures status == if found.None? then "ignored"
                        else if IsDuplicate(old(rows), old(events), h, found.value) then "duplicate" else "processed"
      ensures found.None? ==> rows == old(rows) && events == old(events) && published == old(published)
      ensures found.Some? ==>
                var d := found.value; var before := old(rows[d]); var after := RowHandled(old(rows), old(events), h, d);
                && rows == old(rows)[d := after] && events == EventsHandled(old(rows), old(events), h, d)
                && published == old(published) + if after.status != before.status then [(d, after.status)] else []
      ensures status == "duplicate" <==>
                found.Some? &&
                ((h.kind, h.emailId) in old(events) ||
                 (old(rows[found.value]).providerMessageId in {None, Some(h.emailId)} &&
                  exists other :: other in old(rows) && other != found.value && old(rows)[other].providerMessageId == Some(h.emailId)))
      ensures status == "duplicate" ==> rows == old(rows) && events == old(events) && published == old(published)
      ensures status == "processed" ==>
                var d := found.value; var before := old(rows[d]);
                && MovedByKind(WithProviderId(before, h.emailId), rows[d], h.kind, h.at)
                && events == old(events) + {(h.kind, h.emailId)}
                && published == old(published) + if rows[d].status != before.status then [(d, rows[d].status)] else []
    {
      found := FindDelivery(h.emailId, tag);
      if found.None? {
        return "ignored", None;
      }
      var d := found.value;
      Unchanged(d);
      if IsDuplicate(rows, events, h, d) {
        return "duplicate", found;  // the unique index rolls the transaction back
      }
      HandleOneByKind(rows[d], events, h);
      events := events + {(h.kind, h.emailId)};
      TransactionUpdates(rows, h, d);
      var _, _ := Update(d, Correlate(h.emailId), NoFault);
      var count, _ := Update(d, ApplyEvent(h.kind, h.at), NoFault);
      if count == 1 {
        Publish(d, TargetStatus(h.kind));
      }
      status := "processed";
    }

    lemma {:induction false} Unchanged(d: string)
      ensures d in rows ==> rows[d := rows[d]] == rows
      ensures published + Announced(d, []) == published
    {
    }
  }

  lemma {:induction false} UpdateToSent(rows: map<string, Row>, d: string, id: string, p: Plan)
    requires d in rows && rows[d].status == SENDING && p.reply.answer == GotId(id) && p.taken == IdTaken(rows, d, p.reply)
    ensures var hit := UpdateMany(rows, d, MarkSent(id, p.endAt), p.finish);
            && hit.threw == FinishFails(p)
            && (!hit.threw ==> hit.count == 1)
            && hit.rows == rows[d := RowSent(rows[d], id, p)]
  {
    assert rows[d := rows[d]] == rows;
  }

  lemma {:induction false} SecondUpdateMisses(rows: map<string, Row>, d: string, id: string, fault: Fault)
    requires d in rows && rows[d].providerMessageId.Some?
    ensures UpdateMany(rows, d, FillProviderId(id), fault) == Hit(rows, None, 0, fault != NoFault)
  {
  }

  /** The two updates of the webhook transaction, when it commits. */
  lemma {:induction false} TransactionUpdates(rows: map<string, Row>, h: Hook, d: string)
    requires d in rows && !Clashes(rows, d, Correlate(h.emailId))
    ensures var r := Execute(rows[d], Correlate(h.emailId));
            var hit := UpdateMany(UpdateMany(rows, d, Correlate(h.emailId), NoFault).rows, d, ApplyEvent(h.kind, h.at), NoFault);
            && r.status == rows[d].status
            && hit.rows == rows[d := Execute(r, ApplyEvent(h.kind, h.at))]
            && (hit.count == 1 <==> Execute(r, ApplyEvent(h.kind, h.at)).status != r.status)
            && (hit.count == 1 ==> Execute(r, ApplyEvent(h.kind, h.at)).status == TargetStatus(h.kind))
  {
    var r := Execute(rows[d], Correlate(h.emailId));
    assert UpdateMany(rows, d, Correlate(h.emailId), NoFault).rows == rows[d := r];
    StatusChangesExactlyOnMatch(rows[d], Correlate(h.emailId));
    StatusChangesExactlyOnMatch(r, ApplyEvent(h.kind, h.at));
  }

  /** The announcements a method makes are, as a multiset, those of the protocol's process. */
  lemma {:induction false} AnnouncedLedger(d: string, news: seq<Status>)
    ensures multiset(Announced(d, news)) == NewsLedger(d, news)
  {
    if news == [] {
      assert Announced(d, news) == [];
    } else {
      AnnouncedLedger(d, news[1..]);
      assert Announced(d, news) == [(d, news[0])] + Announced(d, news[1..]);
    }
  }
}
