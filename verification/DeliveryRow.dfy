/** One row of the email_deliveries table and the statements the program runs against it.
    Every statement is a compare-and-set: a where-clause on the row and the new column values. */
module DeliveryRow {
  import opened Basics

  datatype Status =
    | PENDING | SENDING | SENT | DELAYED
    | DELIVERED | BOUNCED | COMPLAINED | SUPPRESSED | FAILED

  datatype Row = Row(
    status: Status,
    recipient: Option<string>,
    repliable: bool,  // the message is a PUBLIC_REPLY written by a MEMBER
    createdAt: nat,
    providerMessageId: Option<string>,
    attemptCount: nat,
    lastAttemptAt: Option<nat>,
    sentAt: Option<nat>,
    deliveredAt: Option<nat>,
    failedAt: Option<nat>,
    lastError: Option<string>)

  /** The outbound webhook types. */
  datatype EventKind =
    | EmailSent | EmailDelivered | EmailDelayed
    | EmailBounced | EmailComplained | EmailSuppressed | EmailFailed

  const STALE_AFTER_MS: nat := 10 * 60 * 1000

  function NewRow(recipient: Option<string>, repliable: bool, now: nat): Row {
    if recipient.Some? then
      Row(PENDING, recipient, repliable, now, None, 0, None, None, None, None, None)
    else
      Row(FAILED, recipient, repliable, now, None, 0, None, None, None, Some(now),
          Some("Customer has no email address"))
  }

  function TargetStatus(kind: EventKind): Status {
    match kind
    case EmailSent => SENT
    case EmailDelivered => DELIVERED
    case EmailDelayed => DELAYED
    case EmailBounced => BOUNCED
    case EmailComplained => COMPLAINED
    case EmailSuppressed => SUPPRESSED
    case EmailFailed => FAILED
  }

  function AllowedFrom(kind: EventKind): set<Status> {
    match kind
    case EmailSent => {PENDING, SENDING}
    case EmailDelayed => {PENDING, SENDING, SENT}
    case _ => {PENDING, SENDING, SENT, DELAYED}
  }

  /** The update statements, with the values the program computes before issuing them. */
  datatype Statement =
    | Claim(at: nat)
    | MarkSent(id: string, at: nat)
    | FillProviderId(id: string)
    | MarkFailed(error: string, at: nat)
    | BackToPending(error: string)
    | RecoverStale(staleBefore: int)
    | Correlate(id: string)
    | ApplyEvent(kind: EventKind, at: nat)

  predicate IsStale(r: Row, staleBefore: int) {
    r.status == SENDING && r.lastAttemptAt.Some? && r.lastAttemptAt.value < staleBefore
  }

  predicate Matches(r: Row, stmt: Statement) {
    match stmt
    case Claim(_) => r.status == PENDING
    case MarkSent(_, _) => r.status == SENDING
    case FillProviderId(_) => r.providerMessageId.None?
    case MarkFailed(_, _) => r.status == SENDING
    case BackToPending(_) => r.status == SENDING
    case RecoverStale(staleBefore) => IsStale(r, staleBefore)
    case Correlate(id) => r.providerMessageId == None || r.providerMessageId == Some(id)
    case ApplyEvent(kind, _) => r.status in AllowedFrom(kind)
  }

  function Updated(r: Row, stmt: Statement): Row {
    match stmt
    case Claim(at) =>
      r.(status := SENDING, attemptCount := r.attemptCount + 1, lastAttemptAt := Some(at), lastError := None)
    case MarkSent(id, at) =>
      r.(status := SENT, providerMessageId := Some(id), sentAt := Some(at), lastError := None)
    case FillProviderId(id) => r.(providerMessageId := Some(id))
    case MarkFailed(error, at) => r.(status := FAILED, failedAt := Some(at), lastError := Some(error))
    case BackToPending(error) => r.(status := PENDING, lastError := Some(error))
    case RecoverStale(_) => r.(status := PENDING, lastError := Some("Recovered stale sending attempt"))
    case Correlate(id) => r.(providerMessageId := Some(id))
    case ApplyEvent(EmailSent, at) => r.(status := SENT, sentAt := Some(at))
    case ApplyEvent(EmailDelayed, _) => r.(status := DELAYED)
    case ApplyEvent(EmailDelivered, at) => r.(status := DELIVERED, deliveredAt := Some(at))
    case ApplyEvent(kind, at) => r.(status := TargetStatus(kind), failedAt := Some(at))
  }

  /** updateMany on one id: the row afterwards. The affected count is 1 exactly when Matches holds. */
  function Execute(r: Row, stmt: Statement): Row {
    if Matches(r, stmt) then Updated(r, stmt) else r
  }

  function Rank(s: Status): nat {
    match s
    case PENDING => 0
    case SENDING => 0
    case SENT => 1
    case DELAYED => 2
    case _ => 3
  }

  predicate Terminal(s: Status) {
    Rank(s) == 3
  }

  /** What no statement may do to a row: lower the rank, leave a terminal status, forget an attempt,
      or rewrite a column fixed at creation. */
  predicate Advances(before: Row, after: Row) {
    && Rank(before.status) <= Rank(after.status)
    && (Terminal(before.status) ==> after.status == before.status)
    && before.attemptCount <= after.attemptCount
    && after.recipient == before.recipient
    && after.repliable == before.repliable
    && after.createdAt == before.createdAt
  }

  /** The timestamp columns say the same as the status column. */
  predicate TimestampsAgree(r: Row) {
    && (r.failedAt.Some? <==> r.status in {BOUNCED, COMPLAINED, SUPPRESSED, FAILED})
    && (r.deliveredAt.Some? <==> r.status == DELIVERED)
    && (r.status == SENT ==> r.sentAt.Some?)
    && (r.status in {PENDING, SENDING} ==> r.sentAt.None?)
    && (r.status == SENDING ==> r.lastAttemptAt.Some? && r.attemptCount > 0)
  }

  lemma {:induction false} ExecuteAdvances(r: Row, stmt: Statement)
    ensures Advances(r, Execute(r, stmt))
    ensures TimestampsAgree(r) ==> TimestampsAgree(Execute(r, stmt))
  {
  }

  /** Status changes only when the where-clause matches, and then always, except by the two
      statements that touch nothing but the provider id. */
  lemma {:induction false} StatusChangesExactlyOnMatch(r: Row, stmt: Statement)
    ensures Execute(r, stmt).status != r.status <==>
            Matches(r, stmt) && !stmt.FillProviderId? && !stmt.Correlate?
  {
  }
}
