/** The ticket and inbound mail services in the program's own form: methods that update the tables in
    place. Undisturbed, each does exactly what its steps in TicketProtocol do back to back. */
module TicketStore {
  import opened Basics
  import opened TicketProtocol
  import opened ReplyAddress

  /** The first n steps of the only call there is. */
  function Steps(w: World, n: nat, now: nat, target: Option<string>): World
    requires |w.procs| == 1
    decreases n
  {
    if n == 0 then w else Steps(Step(w, 0, now, target), n - 1, now, target)
  }

  /** A call with nobody else in between. None has more than four steps. */
  function Alone(w: World, pc: Pc, now: nat, target: Option<string>): World {
    Steps(w.(procs := [pc]), 4, now, target).(procs := [])
  }

  lemma {:induction false} DoneStays(w: World, n: nat, now: nat, target: Option<string>)
    requires w.procs == [Done]
    ensures Steps(w, n, now, target) == w
    decreases n
  {
    if n > 0 {
      DoneStays(w, n - 1, now, target);
    }
  }

  lemma {:induction false} AloneUpdateStatus(w: World, org: string, ticket: string, next: TicketStatus, now: nat)
    ensures var w0 := w.(procs := [ReadingStatus(org, ticket, next)]);
            var w1 := ReadStatus(w0, 0, org, ticket, next);
            Alone(w, ReadingStatus(org, ticket, next), now, None) ==
              (if w1.procs == [Done] then w1
               else WriteStatus(w1, 0, org, ticket, w.tickets[ticket].status, next, now)).(procs := [])
  {
    var w0 := w.(procs := [ReadingStatus(org, ticket, next)]);
    var w1 := ReadStatus(w0, 0, org, ticket, next);
    var w2 := Step(w1, 0, now, None);
    assert Steps(w0, 4, now, None) == Steps(w1, 3, now, None) == Steps(w2, 2, now, None);
    DoneStays(w2, 2, now, None);
  }

  lemma {:induction false} AloneAddTag(w: World, ticket: string, tag: string)
    ensures Alone(w, FindingLink(ticket, tag), 0, None) == CreateLink(w.(procs := [Done]), 0, ticket, tag).(procs := [])
  {
    var w0 := w.(procs := [FindingLink(ticket, tag)]);
    var w1 := Step(w0, 0, 0, None);
    var w2 := Step(w1, 0, 0, None);
    assert Steps(w0, 4, 0, None) == Steps(w1, 3, 0, None) == Steps(w2, 2, 0, None);
    DoneStays(w2, 2, 0, None);
  }

  lemma {:induction false} AloneRemoveTag(w: World, ticket: string, tag: string)
    ensures Alone(w, RemovingLink(ticket, tag), 0, None) == RemoveLink(w.(procs := [Done]), 0, ticket, tag).(procs := [])
  {
    var w0 := w.(procs := [RemovingLink(ticket, tag)]);
    var w1 := Step(w0, 0, 0, None);
    assert Steps(w0, 4, 0, None) == Steps(w1, 3, 0, None);
    DoneStays(w1, 3, 0, None);
  }

  lemma {:induction false} AloneInbound(w: World, emailId: string, target: Option<string>)
    ensures var w0 := w.(procs := [Done]);
            Alone(w, CheckingEvent(emailId), 0, target) ==
              (if emailId in w.events then w0
               else if target.None? then Ignore(w0, 0, emailId)
               else Ingest(w0, 0, emailId, target.value)).(procs := [])
  {
    var w0 := w.(procs := [CheckingEvent(emailId)]);
    var w1 := Step(w0, 0, 0, target);
    assert Steps(w0, 4, 0, target) == Steps(w1, 3, 0, target);
    if emailId in w.events {
      DoneStays(w1, 3, 0, target);
    } else {
      var w2 := Step(w1, 0, 0, target);
      var w3 := Step(w2, 0, 0, target);
      assert Steps(w1, 3, 0, target) == Steps(w2, 2, 0, target) == Steps(w3, 1, 0, target) == Step(w3, 0, 0, target);
    }
  }

  datatype StatusError = NotFound | AlreadyThere | CannotTransition | ChangedConcurrently

  datatype TagError = NoSuchTicket | NoSuchTag

  datatype InboundResult = Duplicate | Ignored(reason: string) | Created

  /** A received email as the provider returns it, with the webhook's own fields to fall back on. */
  datatype Mail = Mail(emailId: string, to: seq<string>, eventTo: seq<string>,
                       from: Option<string>, eventFrom: string, body: string)

  const MAX_BODY: nat := 100_000

  function Recipients(mail: Mail): seq<string> {
    if mail.to != [] then mail.to else mail.eventTo
  }

  function Sender(mail: Mail): string {
    NormalizeEmailAddress(if mail.from.Some? then mail.from.value else mail.eventFrom)
  }

  /** Whether a mail belongs to a ticket, and to which; otherwise why not. */
  function Judge(mail: Mail, domain: string, tickets: map<string, Ticket>, customerEmail: map<string, string>): Result<string, string> {
    var ticket := Extract(Recipients(mail), domain);
    if ticket.None? then Err("unknown-recipient")
    else if ticket.value !in tickets || ticket.value !in customerEmail || customerEmail[ticket.value] == "" then
      Err("ticket-not-found")
    else if Sender(mail) != Lower(Trim(customerEmail[ticket.value])) then Err("sender-mismatch")
    else if mail.body == "" then Err("empty-body")
    else Ok(ticket.value)
  }

  /** The mail is read from the provider's copy where that says something, and from the webhook otherwise. */
  ghost predicate ReadFrom(mail: Mail, recipients: seq<string>, from: string) {
    && recipients == (if |mail.to| == 0 then mail.eventTo else mail.to)
    && from == match mail.from case Some(address) => address case None => mail.eventFrom
  }

  /** The reasons in their order: the mail names ticket t first among its recipients, and this is what
      happens to it then. */
  ghost predicate JudgedFor(mail: Mail, from: string, tickets: map<string, Ticket>, customerEmail: map<string, string>,
                            t: string, judgement: Result<string, string>) {
    if t !in tickets || t !in customerEmail || |customerEmail[t]| == 0 then judgement == Err("ticket-not-found")
    else if NormalizeEmailAddress(from) != Lower(Trim(customerEmail[t])) then judgement == Err("sender-mismatch")
    else if |mail.body| == 0 then judgement == Err("empty-body")
    else judgement == Ok(t)
  }

  /** A mail that names ticket t first is the reply of its customer, and says something. */
  ghost predicate IsReply(mail: Mail, from: string, tickets: map<string, Ticket>, customerEmail: map<string, string>, t: string) {
    && t in tickets && t in customerEmail && |customerEmail[t]| > 0
    && NormalizeEmailAddress(from) == Lower(Trim(customerEmail[t]))
    && |mail.body| > 0
  }

  /** What a new mail is answered with; nothing but the first ticket its recipients name matters. */
  ghost predicate AnsweredFor(mail: Mail, from: string, tickets: map<string, Ticket>, customerEmail: map<string, string>,
                              t: string, r: InboundResult) {
    if t !in tickets || t !in customerEmail || |customerEmail[t]| == 0 then r == Ignored("ticket-not-found")
    else if NormalizeEmailAddress(from) != Lower(Trim(customerEmail[t])) then r == Ignored("sender-mismatch")
    else if |mail.body| == 0 then r == Ignored("empty-body")
    else r == Created
  }

  lemma {:induction false} AnswersExactly(mail: Mail, domain: string, tickets: map<string, Ticket>, customerEmail: map<string, string>,
                                          recipients: seq<string>, from: string)
    requires ReadFrom(mail, recipients, from)
    ensures var judgement := Judge(mail, domain, tickets, customerEmail);
            var r := if judgement.Ok? then Created else Ignored(judgement.error);
            && (NobodyNamed(recipients, domain) ==> r == Ignored("unknown-recipient"))
            && (forall t :: FirstNamed(recipients, domain, t) ==> AnsweredFor(mail, from, tickets, customerEmail, t, r))
            && (r == Created <==> exists t :: FirstNamed(recipients, domain, t) && IsReply(mail, from, tickets, customerEmail, t))
            && (forall t :: FirstNamed(recipients, domain, t) && judgement.Ok? ==> judgement.value == t)
  {
    JudgesExactly(mail, domain, tickets, customerEmail, recipients, from);
    var judgement := Judge(mail, domain, tickets, customerEmail);
    forall t | FirstNamed(recipients, domain, t) ensures JudgedFor(mail, from, tickets, customerEmail, t, judgement) {
    }
  }

  lemma {:induction false} JudgesExactly(mail: Mail, domain: string, tickets: map<string, Ticket>, customerEmail: map<string, string>,
                                         recipients: seq<string>, from: string)
    requires ReadFrom(mail, recipients, from)
    ensures var judgement := Judge(mail, domain, tickets, customerEmail);
            && (NobodyNamed(recipients, domain) ==> judgement == Err("unknown-recipient"))
            && (!NobodyNamed(recipients, domain) ==> exists t :: FirstNamed(recipients, domain, t))
            && (forall t :: FirstNamed(recipients, domain, t) ==> JudgedFor(mail, from, tickets, customerEmail, t, judgement))
  {
    ExtractsFirstNamed(recipients, domain);
    assert recipients == Recipients(mail) && NormalizeEmailAddress(from) == Sender(mail);
    if !NobodyNamed(recipients, domain) {
      assert FirstNamed(recipients, domain, Extract(recipients, domain).value);
    }
  }

  function TargetOf(judgement: Result<string, string>): Option<string> {
    if judgement.Ok? then Some(judgement.value) else None
  }

  /** A mail reaches a ticket only from its customer's address, and only by a recipient that is the
      ticket's reply address. */
  lemma {:induction false} AcceptedMailIsAddressed(recipients: seq<string>, domain: string, id: string)
    requires Extract(recipients, domain) == Some(id)
    ensures IsUuidV4(id)
    ensures exists r :: r in recipients && NormalizeEmailAddress(r) == "ticket-" + id + Suffix(domain)
  {
    AcceptsExactlyReplyAddresses(recipients[0], domain, id);
    if TicketIdOf(recipients[0], Suffix(domain)).None? {
      AcceptedMailIsAddressed(recipients[1..], domain, id);
    } else {
      assert recipients[0] in recipients;
    }
  }

  class TicketStore {
    var tickets: map<string, Ticket>
    var customerEmail: map<string, string>  // of the ticket's customer, when there is one
    var tags: map<string, string>           // to their organisation
    var links: set<(string, string)>
    var audit: seq<AuditRow>
    var events: map<string, EventStatus>
    var messages: seq<EmailMessage>
    const inboundDomain: string

    ghost function Snapshot(): World
      reads this
    {
      World(tickets, links, audit, events, messages, [])
    }

    constructor (domain: string)
      ensures Snapshot() == Initial && customerEmail == map[] && inboundDomain == domain
      ensures Audited(Snapshot()) && ExactlyOnce(Snapshot())
    {
      tickets, customerEmail, tags, links, audit, events, messages := map[], map[], map[], {}, [], map[], [];
      inboundDomain := domain;
    }

    /** ticket.updateMany with the status it validated. */
    method CompareAndSetStatus(ticket: string, org: string, from: TicketStatus, next: TicketStatus, now: nat) returns (count: nat)
      modifies this`tickets
      ensures var hit := ticket in old(tickets) && old(tickets)[ticket].org == org && old(tickets)[ticket].status == from;
              && count == (if hit then 1 else 0)
              && tickets == if hit then old(tickets)[ticket := WithStatus(old(tickets)[ticket], next, now)] else old(tickets)
    {
      if ticket !in tickets || tickets[ticket].org != org || tickets[ticket].status != from {
        return 0;
      }
      tickets := tickets[ticket := WithStatus(tickets[ticket], next, now)];
      count := 1;
    }

    method UpdateStatus(org: string, ticket: string, next: TicketStatus, now: nat) returns (r: Result<Ticket, StatusError>)
      requires Audited(Snapshot())
      modifies this`tickets, this`audit
      ensures Snapshot() == Alone(old(Snapshot()), ReadingStatus(org, ticket, next), now, None)
      ensures Audited(Snapshot())
      ensures r.Ok? <==> ticket in old(tickets) && old(tickets)[ticket].org == org &&
                         (old(tickets)[ticket].status, next) in
                           {(OPEN, TicketStatus.PENDING), (OPEN, RESOLVED), (TicketStatus.PENDING, OPEN), (TicketStatus.PENDING, RESOLVED),
                            (RESOLVED, OPEN), (RESOLVED, CLOSED), (CLOSED, OPEN)}
      ensures r == Err(NotFound) <==> ticket !in old(tickets) || old(tickets)[ticket].org != org
      ensures r == Err(AlreadyThere) <==>
                ticket in old(tickets) && old(tickets)[ticket].org == org && old(tickets)[ticket].status == next
      ensures r.Ok? ==> r.value == tickets[ticket] && r.value.status == next && LifecycleAgrees(r.value)
      ensures r.Ok? ==>
                && tickets == old(tickets)[ticket := r.value] && r.value.org == org
                && audit == old(audit) + [StatusChanged(ticket, old(tickets)[ticket].status, next)]
                && (next == RESOLVED ==> r.value.resolvedAt == Some(now))
                && (next == CLOSED ==> r.value.closedAt == Some(now) && r.value.resolvedAt == old(tickets)[ticket].resolvedAt)
      ensures r.Err? ==> Snapshot() == old(Snapshot()) && r.error != ChangedConcurrently
    {
      AloneUpdateStatus(Snapshot(), org, ticket, next, now);
      if ticket !in tickets || tickets[ticket].org != org {
        return Err(NotFound);
      }
      var current := tickets[ticket].status;
      if current == next {
        return Err(AlreadyThere);
      }
      if !TransitionAllowed(current, next) {
        return Err(CannotTransition);
      }
      WriteStatusAudited(Snapshot().(procs := [Done]), 0, org, ticket, current, next, now);
      var count := CompareAndSetStatus(ticket, org, current, next, now);
      if count != 1 {
        return Err(ChangedConcurrently);
      }
      audit := audit + [StatusChanged(ticket, current, next)];
      r := Ok(tickets[ticket]);
    }

    /** The lookups both tag operations start with: the tenant's own ticket and tag. */
    method CheckTag(org: string, ticket: string, tag: string) returns (error: Option<TagError>)
      ensures error == if ticket !in tickets || tickets[ticket].org != org then Some(NoSuchTicket)
                       else if tag !in tags || tags[tag] != org then Some(NoSuchTag) else None
    {
      if ticket !in tickets || tickets[ticket].org != org {
        return Some(NoSuchTicket);
      }
      if tag !in tags || tags[tag] != org {
        return Some(NoSuchTag);
      }
      error := None;
    }

    /** The transaction of addTag. */
    method LinkTag(ticket: string, tag: string)
      requires Audited(Snapshot())
      modifies this`links, this`audit
      ensures Snapshot() == Alone(old(Snapshot()), FindingLink(ticket, tag), 0, None)
      ensures Audited(Snapshot())
      ensures links == old(links) + {(ticket, tag)}
      ensures audit == old(audit) + if (ticket, tag) in old(links) then [] else [TagAdded(ticket, tag)]
    {
      AloneAddTag(Snapshot(), ticket, tag);
      if (ticket, tag) !in links {
        CreateLinkAudited(Snapshot().(procs := [Done]), 0, ticket, tag);
        links := links + {(ticket, tag)};
        audit := audit + [TagAdded(ticket, tag)];
      }
    }

    method AddTag(org: string, ticket: string, tag: string) returns (error: Option<TagError>)
      requires Audited(Snapshot())
      modifies this`links, this`audit
      ensures error == if ticket !in tickets || tickets[ticket].org != org then Some(NoSuchTicket)
                       else if tag !in tags || tags[tag] != org then Some(NoSuchTag) else None
      ensures error.Some? ==> Snapshot() == old(Snapshot())
      ensures error.None? ==>
                && Snapshot() == Alone(old(Snapshot()), FindingLink(ticket, tag), 0, None)
                && links == old(links) + {(ticket, tag)}
                && audit == old(audit) + if (ticket, tag) in old(links) then [] else [TagAdded(ticket, tag)]
      ensures Audited(Snapshot())
    {
      error := CheckTag(org, ticket, tag);
      if error.Some? {
        return;
      }
      LinkTag(ticket, tag);
    }

    /** The transaction of removeTag. */
    method UnlinkTag(ticket: string, tag: string)
      requires Audited(Snapshot())
      modifies this`links, this`audit
      ensures Snapshot() == Alone(old(Snapshot()), RemovingLink(ticket, tag), 0, None)
      ensures Audited(Snapshot())
      ensures links == old(links) - {(ticket, tag)}
      ensures audit == old(audit) + if (ticket, tag) in old(links) then [TagRemoved(ticket, tag)] else []
    {
      AloneRemoveTag(Snapshot(), ticket, tag);
      if (ticket, tag) in links {
        RemoveLinkAudited(Snapshot().(procs := [Done]), 0, ticket, tag);
        links := links - {(ticket, tag)};
        audit := audit + [TagRemoved(ticket, tag)];
      }
    }

    method RemoveTag(org: string, ticket: string, tag: string) returns (error: Option<TagError>)
      requires Audited(Snapshot())
      modifies this`links, this`audit
      ensures error == if ticket !in tickets || tickets[ticket].org != org then Some(NoSuchTicket)
                       else if tag !in tags || tags[tag] != org then Some(NoSuchTag) else None
      ensures error.Some? ==> Snapshot() == old(Snapshot())
      ensures error.None? ==>
                && Snapshot() == Alone(old(Snapshot()), RemovingLink(ticket, tag), 0, None)
                && links == old(links) - {(ticket, tag)}
                && audit == old(audit) + if (ticket, tag) in old(links) then [TagRemoved(ticket, tag)] else []
      ensures Audited(Snapshot())
    {
      error := CheckTag(org, ticket, tag);
      if error.Some? {
        return;
      }
      UnlinkTag(ticket, tag);
    }

    /** recordIgnoredEvent: the unique index turns a repeat into a duplicate. */
    method RecordIgnoredEvent(emailId: string, reason: string) returns (r: InboundResult)
      modifies this`events
      ensures r == if emailId in old(events) then Duplicate else Ignored(reason)
      ensures events == if emailId in old(events) then old(events) else old(events)[emailId := IGNORED]
    {
      if emailId in events {
        return Duplicate;
      }
      events := events[emailId := IGNORED];
      r := Ignored(reason);
    }

    /** The transaction of an accepted customer reply. */
    method Accept(emailId: string, ticket: string)
      requires emailId !in events && ticket in tickets
      requires Audited(Snapshot()) && ExactlyOnce(Snapshot())
      modifies this`tickets, this`audit, this`events, this`messages
      ensures Snapshot() == Ingest(old(Snapshot()).(procs := [Done]), 0, emailId, ticket).(procs := [])
      ensures messages == old(messages) + [EmailMessage(ticket, emailId)] && events == old(events)[emailId := PROCESSED]
      ensures tickets == old(tickets)[ticket := old(tickets)[ticket].(status := OPEN, resolvedAt := None, closedAt := None)]
      ensures audit == old(audit) + if old(tickets)[ticket].status == OPEN then [] else [Reopened(ticket, emailId)]
      ensures Audited(Snapshot()) && ExactlyOnce(Snapshot())
    {
      ghost var w := Snapshot().(procs := [Done]);
      IngestAudited(w, 0, emailId, ticket);
      IngestExactlyOnce(w, 0, emailId, ticket);
      QuietExactlyOnce(Ingest(w, 0, emailId, ticket), Ingest(w, 0, emailId, ticket).(procs := []));
      WriteReply(emailId, ticket);
    }

    /** Its writes: the event, the message and, unless the ticket is open, the reopening with its audit row. */
    method WriteReply(emailId: string, ticket: string)
      requires emailId !in events && ticket in tickets && LifecycleAgrees(tickets[ticket])
      modifies this`tickets, this`audit, this`events, this`messages
      ensures Snapshot() == Ingest(old(Snapshot()).(procs := [Done]), 0, emailId, ticket).(procs := [])
      ensures messages == old(messages) + [EmailMessage(ticket, emailId)] && events == old(events)[emailId := PROCESSED]
      ensures tickets == old(tickets)[ticket := old(tickets)[ticket].(status := OPEN, resolvedAt := None, closedAt := None)]
      ensures audit == old(audit) + if old(tickets)[ticket].status == OPEN then [] else [Reopened(ticket, emailId)]
    {
      assert tickets[ticket := tickets[ticket]] == tickets;
      events := events[emailId := PROCESSED];
      messages := messages + [EmailMessage(ticket, emailId)];
      if tickets[ticket].status in {TicketStatus.PENDING, RESOLVED, CLOSED} {
        tickets := tickets[ticket := tickets[ticket].(status := OPEN, resolvedAt := None, closedAt := None)];
        audit := audit + [Reopened(ticket, emailId)];
      }
    }

    /** The checks between retrieving a mail and recording it. */
    method JudgeMail(mail: Mail) returns (judgement: Result<string, string>)
      ensures judgement == Judge(mail, inboundDomain, tickets, customerEmail)
      ensures judgement.Ok? ==>
                judgement.value in tickets && judgement.value in customerEmail &&
                Sender(mail) == Lower(Trim(customerEmail[judgement.value]))
      ensures forall recipients, from | ReadFrom(mail, recipients, from) ::
                (NobodyNamed(recipients, inboundDomain) ==> judgement == Err("unknown-recipient")) &&
                (forall t :: FirstNamed(recipients, inboundDomain, t) ==> JudgedFor(mail, from, tickets, customerEmail, t, judgement))
      ensures judgement.Ok? ==>
                exists to :: to in Recipients(mail) &&
                  NormalizeEmailAddress(to) == "ticket-" + judgement.value + Suffix(inboundDomain)
    {
      forall recipients, from | ReadFrom(mail, recipients, from)
        ensures NobodyNamed(recipients, inboundDomain) ==> Judge(mail, inboundDomain, tickets, customerEmail) == Err("unknown-recipient")
        ensures forall t :: FirstNamed(recipients, inboundDomain, t) ==>
                  JudgedFor(mail, from, tickets, customerEmail, t, Judge(mail, inboundDomain, tickets, customerEmail))
      {
        JudgesExactly(mail, inboundDomain, tickets, customerEmail, recipients, from);
      }
      var ticket := ExtractTicketIdFromRecipients(Recipients(mail), inboundDomain);
      if ticket.None? {
        return Err("unknown-recipient");
      }
      AcceptedMailIsAddressed(Recipients(mail), inboundDomain, ticket.value);
      var t := ticket.value;
      if t !in tickets || t !in customerEmail || customerEmail[t] == "" {
        return Err("ticket-not-found");
      }
      if Sender(mail) != Lower(Trim(customerEmail[t])) {
        return Err("sender-mismatch");
      }
      if mail.body == "" {
        return Err("empty-body");
      }
      judgement := Ok(t);
    }

    method HandleReceivedEmail(mail: Mail) returns (r: InboundResult)
      requires Audited(Snapshot()) && ExactlyOnce(Snapshot()) && |mail.body| <= MAX_BODY
      modifies this`tickets, this`audit, this`events, this`messages
      ensures var judgement := Judge(mail, inboundDomain, old(tickets), old(customerEmail));
              Snapshot() == Alone(old(Snapshot()), CheckingEvent(mail.emailId), 0, TargetOf(judgement))
      ensures Audited(Snapshot()) && ExactlyOnce(Snapshot())
      ensures mail.emailId in old(events) ==> r == Duplicate && Snapshot() == old(Snapshot())
      ensures mail.emailId !in old(events) ==>
                forall recipients, from | ReadFrom(mail, recipients, from) ::
                  && (NobodyNamed(recipients, inboundDomain) ==> r == Ignored("unknown-recipient"))
                  && (forall t :: FirstNamed(recipients, inboundDomain, t) ==>
                        AnsweredFor(mail, from, old(tickets), old(customerEmail), t, r))
                  && (r == Created <==>
                        exists t :: FirstNamed(recipients, inboundDomain, t) && IsReply(mail, from, old(tickets), old(customerEmail), t))
      ensures mail.emailId !in old(events) ==> events == old(events)[mail.emailId := if r == Created then PROCESSED else IGNORED]
      ensures r == Created <==> messages != old(messages)
      ensures r != Created ==> tickets == old(tickets) && audit == old(audit) && messages == old(messages)
      ensures r == Created ==>
                forall recipients, from, t | ReadFrom(mail, recipients, from) && FirstNamed(recipients, inboundDomain, t) ::
                  && t in old(tickets) && messages == old(messages) + [EmailMessage(t, mail.emailId)]
                  && tickets == old(tickets)[t := old(tickets)[t].(status := OPEN, resolvedAt := None, closedAt := None)]
                  && audit == old(audit) + if old(tickets)[t].status == OPEN then [] else [Reopened(t, mail.emailId)]
    {
      forall recipients, from | ReadFrom(mail, recipients, from)
        ensures var judgement := Judge(mail, inboundDomain, tickets, customerEmail);
                var answer := if judgement.Ok? then Created else Ignored(judgement.error);
                && (NobodyNamed(recipients, inboundDomain) ==> answer == Ignored("unknown-recipient"))
                && (forall t :: FirstNamed(recipients, inboundDomain, t) ==> AnsweredFor(mail, from, tickets, customerEmail, t, answer))
                && (answer == Created <==>
                      exists t :: FirstNamed(recipients, inboundDomain, t) && IsReply(mail, from, tickets, customerEmail, t))
                && (forall t :: FirstNamed(recipients, inboundDomain, t) && judgement.Ok? ==> judgement.value == t)
      {
        AnswersExactly(mail, inboundDomain, tickets, customerEmail, recipients, from);
      }
      r := Receive(mail);
    }

    /** The webhook's call, step by step. */
    method Receive(mail: Mail) returns (r: InboundResult)
      requires Audited(Snapshot()) && ExactlyOnce(Snapshot()) && |mail.body| <= MAX_BODY
      modifies this`tickets, this`audit, this`events, this`messages
      ensures var judgement := Judge(mail, inboundDomain, old(tickets), old(customerEmail));
              && Snapshot() == Alone(old(Snapshot()), CheckingEvent(mail.emailId), 0, TargetOf(judgement))
              && r == (if mail.emailId in old(events) then Duplicate
                       else if judgement.Ok? then Created else Ignored(judgement.error))
      ensures Audited(Snapshot()) && ExactlyOnce(Snapshot())
      ensures r == Created <==> messages != old(messages)
      ensures mail.emailId in old(events) ==> Snapshot() == old(Snapshot())
      ensures mail.emailId !in old(events) ==> events == old(events)[mail.emailId := if r == Created then PROCESSED else IGNORED]
      ensures r != Created ==> tickets == old(tickets) && audit == old(audit) && messages == old(messages)
      ensures r == Created ==>
                var judgement := Judge(mail, inboundDomain, old(tickets), old(customerEmail));
                && judgement.Ok? && judgement.value in old(tickets)
                && messages == old(messages) + [EmailMessage(judgement.value, mail.emailId)]
                && tickets == old(tickets)[judgement.value :=
                                             old(tickets)[judgement.value].(status := OPEN, resolvedAt := None, closedAt := None)]
                && audit == old(audit) + if old(tickets)[judgement.value].status == OPEN then [] else [Reopened(judgement.value, mail.emailId)]
    {
      AloneInbound(Snapshot(), mail.emailId, TargetOf(Judge(mail, inboundDomain, tickets, customerEmail)));
      if mail.emailId in events {
        return Duplicate;
      }
      var judgement := JudgeMail(mail);
      if judgement.Err? {
        r := RecordIgnored(mail.emailId, judgement.error);
      } else {
        Accept(mail.emailId, judgement.value);
        assert messages[|messages| - 1] == EmailMessage(judgement.value, mail.emailId);
        r := Created;
      }
    }

    /** RecordIgnoredEvent for an event that is new, with what it keeps. */
    method RecordIgnored(emailId: string, reason: string) returns (r: InboundResult)
      requires Audited(Snapshot()) && ExactlyOnce(Snapshot()) && emailId !in events
      modifies this`events
      ensures r == Ignored(reason) && events == old(events)[emailId := IGNORED]
      ensures Audited(Snapshot()) && ExactlyOnce(Snapshot())
    {
      ghost var w := Snapshot();
      r := RecordIgnoredEvent(emailId, reason);
      QuietExactlyOnce(w, Snapshot());
    }
  }
}
