/** Tickets, their audit log, tags and inbound replies as interleaved steps. A status change reads the
    ticket in one step and compare-and-sets it, with its audit row, in another; a customer reply is one
    transaction; copies of one webhook run side by side. Any call may stop between its steps. */
module TicketProtocol {
  import opened Basics

  datatype TicketStatus = OPEN | PENDING | RESOLVED | CLOSED

  datatype Ticket = Ticket(org: string, status: TicketStatus, resolvedAt: Option<nat>, closedAt: Option<nat>)

  datatype AuditRow =
    | StatusChanged(ticket: string, from: TicketStatus, to: TicketStatus)
    | Reopened(ticket: string, emailId: string)  // TICKET_STATUS_CHANGED to OPEN, reason CUSTOMER_REPLY
    | TagAdded(ticket: string, tag: string)
    | TagRemoved(ticket: string, tag: string)

  datatype EventStatus = PROCESSED | IGNORED

  /** An EMAIL-source message and the inbound email it came from. */
  datatype EmailMessage = EmailMessage(ticket: string, emailId: string)

  predicate TransitionAllowed(current: TicketStatus, next: TicketStatus) {
    match current
    case OPEN => next in {PENDING, RESOLVED}
    case PENDING => next in {OPEN, RESOLVED}
    case RESOLVED => next in {OPEN, CLOSED}
    case CLOSED => next == OPEN
  }

  /** The update of updateStatus: the new status and the lifecycle timestamps that go with it. */
  function WithStatus(t: Ticket, next: TicketStatus, now: nat): Ticket {
    match next
    case OPEN => t.(status := OPEN, resolvedAt := None, closedAt := None)
    case PENDING => t.(status := PENDING)
    case RESOLVED => t.(status := RESOLVED, resolvedAt := Some(now), closedAt := None)
    case CLOSED => t.(status := CLOSED, closedAt := Some(now))
  }

  datatype Pc =
    | ReadingStatus(org: string, ticket: string, next: TicketStatus)
    | WritingStatus(org: string, ticket: string, from: TicketStatus, next: TicketStatus)
    | FindingLink(ticket: string, tag: string)
    | CreatingLink(ticket: string, tag: string)
    | RemovingLink(ticket: string, tag: string)
    | CheckingEvent(emailId: string)
    | Judging(emailId: string)
    | Ignoring(emailId: string)
    | Ingesting(emailId: string, ticket: string)
    | Done

  datatype World = World(
    tickets: map<string, Ticket>,
    links: set<(string, string)>,          // ticket_tags, primary key (ticket, tag)
    audit: seq<AuditRow>,                  // in commit order
    events: map<string, EventStatus>,      // webhook_events of type email.received, unique on the email id
    messages: seq<EmailMessage>,
    procs: seq<Pc>)

  const Initial: World := World(map[], {}, [], map[], [], [])

  datatype Action =
    | CreateTicket(ticket: string, org: string)
    | Call(pc: Pc)                          // a request arrives
    | Stop(p: nat)                          // a call fails or is abandoned where it stands
    | Advance(p: nat, now: nat, target: Option<string>)  // target: where an inbound mail is judged to belong

  function Goto(w: World, p: nat, pc: Pc): World
    requires p < |w.procs|
  {
    w.(procs := w.procs[p := pc])
  }

  predicate Starting(pc: Pc) {
    pc.ReadingStatus? || pc.FindingLink? || pc.RemovingLink? || pc.CheckingEvent?
  }

  predicate Enabled(w: World, a: Action) {
    match a
    case CreateTicket(t, _) => t !in w.tickets
    case Call(pc) => Starting(pc) && ((pc.FindingLink? || pc.RemovingLink?) ==> pc.ticket in w.tickets)
    case Stop(p) => p < |w.procs|
    case Advance(p, _, target) =>
      p < |w.procs| && (w.procs[p].Judging? && target.Some? ==> target.value in w.tickets)
  }

  function ReadStatus(w: World, p: nat, org: string, ticket: string, next: TicketStatus): World
    requires p < |w.procs|
  {
    if ticket !in w.tickets || w.tickets[ticket].org != org then Goto(w, p, Done)
    else
      var current := w.tickets[ticket].status;
      if current == next || !TransitionAllowed(current, next) then Goto(w, p, Done)
      else Goto(w, p, WritingStatus(org, ticket, current, next))
  }

  /** The compare-and-set on the status read earlier, and the audit row of the same transaction. */
  function WriteStatus(w: World, p: nat, org: string, ticket: string, from: TicketStatus, next: TicketStatus, now: nat): World
    requires p < |w.procs|
  {
    if ticket !in w.tickets || w.tickets[ticket].org != org || w.tickets[ticket].status != from then Goto(w, p, Done)
    else
      Goto(w, p, Done).(
        tickets := w.tickets[ticket := WithStatus(w.tickets[ticket], next, now)],
        audit := w.audit + [StatusChanged(ticket, from, next)])
  }

  /** Creating a link that appeared meanwhile violates the primary key and rolls back. */
  function CreateLink(w: World, p: nat, ticket: string, tag: string): World
    requires p < |w.procs|
  {
    if (ticket, tag) in w.links then Goto(w, p, Done)
    else Goto(w, p, Done).(links := w.links + {(ticket, tag)}, audit := w.audit + [TagAdded(ticket, tag)])
  }

  function RemoveLink(w: World, p: nat, ticket: string, tag: string): World
    requires p < |w.procs|
  {
    if (ticket, tag) !in w.links then Goto(w, p, Done)
    else Goto(w, p, Done).(links := w.links - {(ticket, tag)}, audit := w.audit + [TagRemoved(ticket, tag)])
  }

  function Ignore(w: World, p: nat, emailId: string): World
    requires p < |w.procs|
  {
    if emailId in w.events then Goto(w, p, Done) else Goto(w, p, Done).(events := w.events[emailId := IGNORED])
  }

  /** The inbound transaction: claim the event, create the message, reopen the ticket unless it is open. */
  function Ingest(w: World, p: nat, emailId: string, ticket: string): World
    requires p < |w.procs|
  {
    if emailId in w.events || ticket !in w.tickets then Goto(w, p, Done)
    else
      var t := w.tickets[ticket];
      var claimed := Goto(w, p, Done).(
        events := w.events[emailId := PROCESSED], messages := w.messages + [EmailMessage(ticket, emailId)]);
      if t.status == OPEN then claimed
      else
        claimed.(tickets := w.tickets[ticket := t.(status := OPEN, resolvedAt := None, closedAt := None)],
                 audit := w.audit + [Reopened(ticket, emailId)])
  }

  function Step(w: World, p: nat, now: nat, target: Option<string>): World
    requires p < |w.procs|
  {
    match w.procs[p]
    case ReadingStatus(org, ticket, next) => ReadStatus(w, p, org, ticket, next)
    case WritingStatus(org, ticket, from, next) => WriteStatus(w, p, org, ticket, from, next, now)
    case FindingLink(ticket, tag) => Goto(w, p, if (ticket, tag) in w.links then Done else CreatingLink(ticket, tag))
    case CreatingLink(ticket, tag) => CreateLink(w, p, ticket, tag)
    case RemovingLink(ticket, tag) => RemoveLink(w, p, ticket, tag)
    case CheckingEvent(emailId) => Goto(w, p, if emailId in w.events then Done else Judging(emailId))
    case Judging(emailId) => Goto(w, p, if target.None? then Ignoring(emailId) else Ingesting(emailId, target.value))
    case Ignoring(emailId) => Ignore(w, p, emailId)
    case Ingesting(emailId, ticket) => Ingest(w, p, emailId, ticket)
    case Done => w
  }

  function Next(w: World, a: Action): World
    requires Enabled(w, a)
  {
    match a
    case CreateTicket(t, org) => w.(tickets := w.tickets[t := Ticket(org, OPEN, None, None)])
    case Call(pc) => w.(procs := w.procs + [pc])
    case Stop(p) => Goto(w, p, Done)
    case Advance(p, now, target) => Step(w, p, now, target)
  }

  ghost predicate IsRun(ws: seq<World>, acts: seq<Action>) {
    && |ws| == |acts| + 1
    && ws[0] == Initial
    && forall i :: 0 <= i < |acts| ==> Enabled(ws[i], acts[i]) && ws[i + 1] == Next(ws[i], acts[i])
  }

  // ---------------------------------------------------------------- the log replays to the state

  function After(row: AuditRow, ticket: string, status: TicketStatus): TicketStatus {
    match row
    case StatusChanged(t, _, to) => if t == ticket then to else status
    case Reopened(t, _) => if t == ticket then OPEN else status
    case _ => status
  }

  /** The status a ticket has by its audit rows alone. */
  function Replay(audit: seq<AuditRow>, ticket: string): TicketStatus {
    if audit == [] then OPEN
    else After(audit[|audit| - 1], ticket, Replay(audit[..|audit| - 1], ticket))
  }

  function AfterLinks(row: AuditRow, links: set<(string, string)>): set<(string, string)> {
    match row
    case TagAdded(ticket, tag) => links + {(ticket, tag)}
    case TagRemoved(ticket, tag) => links - {(ticket, tag)}
    case _ => links
  }

  /** The tag links by the audit rows alone. */
  function ReplayLinks(audit: seq<AuditRow>): set<(string, string)> {
    if audit == [] then {}
    else AfterLinks(audit[|audit| - 1], ReplayLinks(audit[..|audit| - 1]))
  }

  /** A row tells the truth about the state just before it. */
  ghost predicate RowTrue(row: AuditRow, before: seq<AuditRow>) {
    match row
    case StatusChanged(ticket, from, to) => from == Replay(before, ticket) && TransitionAllowed(from, to)
    case Reopened(ticket, _) => Replay(before, ticket) != OPEN
    case TagAdded(ticket, tag) => (ticket, tag) !in ReplayLinks(before)
    case TagRemoved(ticket, tag) => (ticket, tag) in ReplayLinks(before)
  }

  ghost predicate LogTrue(audit: seq<AuditRow>) {
    forall i :: 0 <= i < |audit| ==> RowTrue(audit[i], audit[..i])
  }

  /** Open and pending tickets have no lifecycle timestamps, resolved ones one, closed ones both. */
  predicate LifecycleAgrees(t: Ticket) {
    && (t.resolvedAt.Some? <==> t.status in {RESOLVED, CLOSED})
    && (t.closedAt.Some? <==> t.status == CLOSED)
  }

  ghost predicate Audited(w: World) {
    && LogTrue(w.audit)
    && ReplayLinks(w.audit) == w.links
    && (forall t :: t in w.tickets ==> Replay(w.audit, t) == w.tickets[t].status && LifecycleAgrees(w.tickets[t]))
    && (forall t :: t !in w.tickets ==> Replay(w.audit, t) == OPEN)
    && (forall p :: 0 <= p < |w.procs| && w.procs[p].WritingStatus? ==> TransitionAllowed(w.procs[p].from, w.procs[p].next))
  }

  lemma {:induction false} AppendRow(audit: seq<AuditRow>, row: AuditRow)
    requires LogTrue(audit) && RowTrue(row, audit)
    ensures LogTrue(audit + [row])
    ensures forall t :: Replay(audit + [row], t) == After(row, t, Replay(audit, t))
    ensures ReplayLinks(audit + [row]) == AfterLinks(row, ReplayLinks(audit))
  {
    assert (audit + [row])[..|audit|] == audit;
    forall i | 0 <= i < |audit + [row]| ensures RowTrue((audit + [row])[i], (audit + [row])[..i]) {
      if i < |audit| {
        assert (audit + [row])[..i] == audit[..i];
      }
    }
  }

  /** A transaction that appends one true row and does to tickets and links what the row says. */
  lemma {:induction false} RowKeepsAudited(w: World, w': World, row: AuditRow)
    requires Audited(w) && RowTrue(row, w.audit)
    requires w'.audit == w.audit + [row] && w'.links == AfterLinks(row, w.links)
    requires w'.tickets.Keys == w.tickets.Keys
    requires forall t :: t in w.tickets ==> w'.tickets[t].status == After(row, t, w.tickets[t].status) && LifecycleAgrees(w'.tickets[t])
    requires forall t :: t !in w.tickets ==> After(row, t, OPEN) == OPEN
    requires forall p :: 0 <= p < |w'.procs| && w'.procs[p].WritingStatus? ==> w'.procs[p] in w.procs
    ensures Audited(w')
  {
    AppendRow(w.audit, row);
  }

  lemma {:induction false} WriteStatusAudited(w: World, p: nat, org: string, ticket: string, from: TicketStatus, next: TicketStatus, now: nat)
    requires Audited(w) && p < |w.procs| && TransitionAllowed(from, next)
    ensures Audited(WriteStatus(w, p, org, ticket, from, next, now))
  {
    var w' := WriteStatus(w, p, org, ticket, from, next, now);
    if |w'.audit| > |w.audit| {
      RowKeepsAudited(w, w', w'.audit[|w.audit|]);
    }
  }

  lemma {:induction false} CreateLinkAudited(w: World, p: nat, ticket: string, tag: string)
    requires Audited(w) && p < |w.procs|
    ensures Audited(CreateLink(w, p, ticket, tag))
  {
    var w' := CreateLink(w, p, ticket, tag);
    if |w'.audit| > |w.audit| {
      RowKeepsAudited(w, w', w'.audit[|w.audit|]);
    }
  }

  lemma {:induction false} RemoveLinkAudited(w: World, p: nat, ticket: string, tag: string)
    requires Audited(w) && p < |w.procs|
    ensures Audited(RemoveLink(w, p, ticket, tag))
  {
    var w' := RemoveLink(w, p, ticket, tag);
    if |w'.audit| > |w.audit| {
      RowKeepsAudited(w, w', w'.audit[|w.audit|]);
    }
  }

  lemma {:induction false} IngestAudited(w: World, p: nat, emailId: string, ticket: string)
    requires Audited(w) && p < |w.procs|
    ensures Audited(Ingest(w, p, emailId, ticket))
  {
    var w' := Ingest(w, p, emailId, ticket);
    if |w'.audit| > |w.audit| {
      RowKeepsAudited(w, w', w'.audit[|w.audit|]);
    }
  }

  /** Nothing but event rows changes, and at most one process, which does not go on to write a status. */
  lemma {:induction false} QuietAudited(w: World, w': World, p: nat)
    requires Audited(w) && p < |w.procs| && |w'.procs| == |w.procs|
    requires w'.tickets == w.tickets && w'.links == w.links && w'.audit == w.audit
    requires w'.procs[p].WritingStatus? ==> TransitionAllowed(w'.procs[p].from, w'.procs[p].next)
    requires forall q :: 0 <= q < |w.procs| && q != p ==> w'.procs[q] == w.procs[q]
    ensures Audited(w')
  {
  }

  lemma {:induction false} ReadStatusAudited(w: World, p: nat, org: string, ticket: string, next: TicketStatus)
    requires Audited(w) && p < |w.procs|
    ensures Audited(ReadStatus(w, p, org, ticket, next))
  {
    QuietAudited(w, ReadStatus(w, p, org, ticket, next), p);
  }

  lemma {:induction false} QuietStepAudited(w: World, p: nat, now: nat, target: Option<string>)
    requires Audited(w) && p < |w.procs|
    requires var pc := w.procs[p]; pc.FindingLink? || pc.CheckingEvent? || pc.Judging? || pc.Ignoring? || pc.Done?
    ensures Audited(Step(w, p, now, target))
  {
    var w' := Step(w, p, now, target);
    assert w'.tickets == w.tickets && w'.links == w.links && w'.audit == w.audit && !w'.procs[p].WritingStatus?;
    QuietAudited(w, w', p);
  }

  lemma {:induction false} StepAudited(w: World, p: nat, now: nat, target: Option<string>)
    requires Audited(w) && Enabled(w, Advance(p, now, target))
    ensures Audited(Step(w, p, now, target))
  {
    match w.procs[p]
    case ReadingStatus(org, ticket, next) => ReadStatusAudited(w, p, org, ticket, next);
    case WritingStatus(org, ticket, from, next) => WriteStatusAudited(w, p, org, ticket, from, next, now);
    case CreatingLink(ticket, tag) => CreateLinkAudited(w, p, ticket, tag);
    case RemovingLink(ticket, tag) => RemoveLinkAudited(w, p, ticket, tag);
    case Ingesting(emailId, ticket) => IngestAudited(w, p, emailId, ticket);
    case _ => QuietStepAudited(w, p, now, target);
  }

  lemma {:induction false} NextAudited(w: World, a: Action)
    requires Audited(w) && Enabled(w, a)
    ensures Audited(Next(w, a))
  {
    match a
    case Advance(p, now, target) => StepAudited(w, p, now, target);
    case _ =>
  }

  /** Audit replay and lifecycle consistency, in every reachable world. */
  lemma {:induction false} AlwaysAudited(ws: seq<World>, acts: seq<Action>)
    requires IsRun(ws, acts)
    ensures Audited(ws[|acts|])
  {
    if acts != [] {
      var n := |acts| - 1;
      AlwaysAudited(ws[..n + 1], acts[..n]);
      NextAudited(ws[n], acts[n]);
    }
  }

  // ---------------------------------------------------------------- inbound mail exactly once

  ghost predicate Processed(w: World, emailId: string) {
    emailId in w.events && w.events[emailId] == PROCESSED
  }

  function ProcessedIds(w: World): set<string> {
    set e | e in w.events && w.events[e] == PROCESSED
  }

  function MessageIds(messages: seq<EmailMessage>): set<string> {
    set m | m in messages :: m.emailId
  }

  /** The messages are those of the PROCESSED events, one each. */
  ghost predicate MessagesOnce(messages: seq<EmailMessage>, processed: set<string>) {
    && MessageIds(messages) == processed
    && |messages| == |processed|
    && (forall i, j :: 0 <= i < j < |messages| ==> messages[i].emailId != messages[j].emailId)
  }

  /** Every reopening belongs to a PROCESSED event, no two to the same. */
  ghost predicate ReopeningsOnce(audit: seq<AuditRow>, processed: set<string>) {
    && (forall i :: 0 <= i < |audit| && audit[i].Reopened? ==> audit[i].emailId in processed)
    && (forall i, j | 0 <= i < j < |audit| && audit[i].Reopened? && audit[j].Reopened? ::
          audit[i].emailId != audit[j].emailId)
  }

  ghost predicate ExactlyOnce(w: World) {
    MessagesOnce(w.messages, ProcessedIds(w)) && ReopeningsOnce(w.audit, ProcessedIds(w))
  }

  lemma {:induction false} AppendMessage(messages: seq<EmailMessage>, processed: set<string>, m: EmailMessage)
    requires MessagesOnce(messages, processed) && m.emailId !in processed
    ensures MessagesOnce(messages + [m], processed + {m.emailId})
  {
    assert forall x :: x in messages + [m] <==> x in messages || x == m;
    assert m in messages + [m];
    assert forall i :: 0 <= i < |messages| ==> messages[i].emailId in MessageIds(messages);
  }

  lemma {:induction false} AppendReopening(audit: seq<AuditRow>, processed: set<string>, ticket: string, emailId: string)
    requires ReopeningsOnce(audit, processed) && emailId !in processed
    ensures ReopeningsOnce(audit, processed + {emailId})
    ensures ReopeningsOnce(audit + [Reopened(ticket, emailId)], processed + {emailId})
  {
    var after := audit + [Reopened(ticket, emailId)];
    assert forall i :: 0 <= i < |audit| ==> after[i] == audit[i];
  }

  lemma {:induction false} IngestExactlyOnce(w: World, p: nat, emailId: string, ticket: string)
    requires ExactlyOnce(w) && p < |w.procs|
    ensures ExactlyOnce(Ingest(w, p, emailId, ticket))
  {
    if emailId !in w.events && ticket in w.tickets {
      assert ProcessedIds(Ingest(w, p, emailId, ticket)) == ProcessedIds(w) + {emailId};
      AppendMessage(w.messages, ProcessedIds(w), EmailMessage(ticket, emailId));
      AppendReopening(w.audit, ProcessedIds(w), ticket, emailId);
    }
  }

  /** Steps that keep the messages and the reopenings, and at most add an IGNORED event. */
  lemma {:induction false} QuietExactlyOnce(w: World, w': World)
    requires ExactlyOnce(w) && w'.messages == w.messages
    requires forall e :: Processed(w', e) <==> Processed(w, e)
    requires w'.audit == w.audit || exists row :: w'.audit == w.audit + [row] && !row.Reopened?
    ensures ExactlyOnce(w')
  {
    assert forall e :: e in ProcessedIds(w') <==> Processed(w', e);
    assert forall e :: e in ProcessedIds(w) <==> Processed(w, e);
    assert ProcessedIds(w') == ProcessedIds(w);
  }

  lemma {:induction false} StepExactlyOnce(w: World, a: Action)
    requires ExactlyOnce(w) && Enabled(w, a)
    ensures ExactlyOnce(Next(w, a))
  {
    if a.Advance? && w.procs[a.p].Ingesting? {
      IngestExactlyOnce(w, a.p, w.procs[a.p].emailId, w.procs[a.p].ticket);
    } else {
      QuietExactlyOnce(w, Next(w, a));
    }
  }

  lemma {:induction false} AlwaysExactlyOnce(ws: seq<World>, acts: seq<Action>)
    requires IsRun(ws, acts)
    ensures ExactlyOnce(ws[|acts|])
  {
    if acts != [] {
      var n := |acts| - 1;
      AlwaysExactlyOnce(ws[..n + 1], acts[..n]);
      StepExactlyOnce(ws[n], acts[n]);
    }
  }

  /** An event row, once written, stays as it is: an ignored email never becomes a message later. */
  lemma {:induction false} EventsAreFinal(ws: seq<World>, acts: seq<Action>, i: nat, j: nat, emailId: string)
    requires IsRun(ws, acts) && i <= j < |ws| && emailId in ws[i].events
    ensures emailId in ws[j].events && ws[j].events[emailId] == ws[i].events[emailId]
    decreases j - i
  {
    if i < j {
      assert ws[i + 1] == Next(ws[i], acts[i]);
      EventsAreFinal(ws, acts, i + 1, j, emailId);
    }
  }

  /** Inbound exactly-once over whole runs, as a reader would say it. */
  lemma {:induction false} InboundExactlyOnce(ws: seq<World>, acts: seq<Action>, i: nat, emailId: string)
    requires IsRun(ws, acts) && i <= |acts|
    ensures var end := ws[|acts|];
            && (Processed(end, emailId) <==> exists m :: 0 <= m < |end.messages| && end.messages[m].emailId == emailId)
            && (forall m, n | 0 <= m < |end.messages| && 0 <= n < |end.messages| ::
                  end.messages[m].emailId == emailId && end.messages[n].emailId == emailId ==> m == n)
            && (emailId in ws[i].events && ws[i].events[emailId] == IGNORED ==>
                  forall m :: 0 <= m < |end.messages| ==> end.messages[m].emailId != emailId)
            && |end.messages| == |ProcessedIds(end)|
  {
    AlwaysExactlyOnce(ws, acts);
    var end := ws[|acts|];
    assert Processed(end, emailId) <==> emailId in MessageIds(end.messages);
    assert forall m :: 0 <= m < |end.messages| ==> end.messages[m].emailId in MessageIds(end.messages);
    if emailId in ws[i].events {
      EventsAreFinal(ws, acts, i, |acts|, emailId);
    }
  }
}
