# OpsDesk: a verified model of the API's stateful core

OpsDesk is a multi-tenant support desk. Agents answer tickets by email, customers reply to the ticket's own
address, and the API (NestJS over PostgreSQL, BullMQ, Resend and Socket.IO) keeps the state. This project models
the parts where several processes write the same rows with nothing between them but conditional updates, and
proves what holds in every interleaving. Each service of those parts is then written again in its imperative form,
and proved to do, undisturbed, exactly what its process in the interleaving model does when it is left alone.

`dafny verify dfyconfig.toml` checks everything.

## What is modelled

**Outbound email.** One row of `email_deliveries` is written by the API call that creates it, by worker attempts, by a
minutely recovery run and by provider webhooks. `DeliveryRow` has the row and every statement as a compare-and-set.
`OutboundProtocol` has the machine: one step per SQL statement or transaction, per provider call, per queue call and per
announcement, any number of processes, crashes between any two steps, and database or queue calls that fail before or
after taking effect. About all its runs: honest statuses, monotonicity and publication (`OutboundSafety`), leases
(`OutboundLease`), recovery among other processes (`OutboundRecovery`), webhooks (`OutboundWebhooks`); about one job run
alone, retrying (`OutboundRetry`). `OutboundEvents` is the webhook handler as a fold with its exact condition for order
independence. `OutboundAlone` says what it is for a process to be left alone; `EmailAttempt`, `EmailRecovery` and
`OutboundWebhooks` say what an attempt, a recovery run, a queueing call and a webhook handler then do, and prove it of
the machine; `EmailWorker` is the worker, queue service and webhook handler as methods over tables that do just that.

**Tickets** (`TicketProtocol`, `TicketStore`, `ReplyAddress`). Status changes that read, validate and compare-and-set,
tags, customer replies, and concurrent copies of one inbound webhook.

**Attachments** (`AttachmentPolicy`, `AttachmentProtocol`, `AttachmentSafety`, `AttachmentStore`). Initiate, upload,
complete, reject, cleanup and message creation across two systems, database and object storage, with failures anywhere.

**Organisations** (`MembershipProtocol`, `OrganizationStore`). Creation, role changes and invitations, with times
read before the transactions that use them.

**Profile cache** (`ProfileProtocol`, `ProfileCache`). A bounded, expiring cache with shared in-flight fetches, whose
calls interleave at their one `await`.

**Realtime rooms** (`RealtimeRooms`, `RealtimeGateway`) and **analytics** (`Analytics`).

## Assumptions

- The unique keys are those the migrations create: webhook events on (provider, type, entity id)
  (apps/api/prisma/migrations/20260929110539_add_webhook_events/migration.sql), provider message id
  (20260929121606_add_email_deliveries), ticket and tag (20260921104859_add_ticket_tags), user and organisation, user
  email (20260910123749_init), invitation token hash (20260915111738_add_invitations), and attachment object key
  (20260923102534_add_attachments).
- A transaction is one step, at its commit; a serializable transaction is one step including its reads. Statements
  outside a transaction, and reads a non-serializable transaction bases later conditional writes on, are steps of
  their own.
- The email provider answers one idempotency key with one message id, never reuses an id, and its webhooks concern
  mail it accepted, under the tag it was sent with. Nothing else is assumed of it: a call may be accepted and still
  answer with an error, or not answer.
- Times a process uses are never ahead of the shared clock, but may be arbitrarily old.
- New UUIDs are fresh, and the token hash of the profile cache is injective.
- An uploader writes only between initiate and its complete call, and before cleanup may select the row.
- A ticket never moves to another organisation, and a socket's handlers run one at a time.

## Findings

- Order independence of outbound webhooks fails exactly when the events carry two different terminal outcomes: see
  `OutboundEvents.OrderMattersOtherwise` (for instance delivered then complained, against complained then delivered).
- The worker fails a claimed delivery without a recipient, or whose message is not a member's public reply, without
  calling the provider. No reachable delivery is like that: creation fails those without a recipient at once and
  creates no others (`OutboundRetry.AlwaysAsCreated`), so every claim of a job run alone is one provider call
  (`OutboundRetry.RetryInReachableWorlds`); `OutboundRetry.RetryTermination` states the exception for other tables.
- The worker's list of statuses to skip omits `DELAYED`; such an attempt goes on to claim, loses its compare-and-set
  and returns, so the outcome is the same. `OutboundProtocol` follows the code.
- An invitation can end both accepted and cancelled, because cancelling reads in one statement and writes in another
  that does not look again: `MembershipProtocol.AcceptedAndCanceledHappens` is such a run. An accepted invitation can
  still come to be both if and only if a cancellation of it stands between its read and its write
  (`MembershipProtocol.BothExactlyWhenCancelling`), and every run that ends so accepted it while one did
  (`MembershipProtocol.BothMeansRaced`).
- The two email rates add up to 100.01, not 100, exactly when both fall half way between two hundredths
  (`Analytics.RatesAddUp`).

## Model

| member | source | states |
|---|---|---|
| `OutboundSafety.HonestStatus` | apps/api/src/jobs/email.worker.ts:438-498 | In every reachable world: at most one mail per delivery was ever accepted, a recorded provider id is that mail's, and SENT, DELAYED, DELIVERED, BOUNCED, COMPLAINED or SUPPRESSED means it was accepted |
| `OutboundSafety.ProviderIdNeverChanges` | apps/api/src/email/outbound-email-events.service.ts:134-157 | Any two provider ids ever recorded for a delivery, at any two times of a run, are equal |
| `OutboundSafety.StepAdvances` | apps/api/src/jobs/email.worker.ts:295-322 | No step of any writer lowers a delivery's rank, leaves a terminal status, lowers its attempt count or rewrites what creation fixed |
| `OutboundSafety.DeliveriesOnlyAdvance` | apps/api/src/email/outbound-email-events.service.ts:224-333 | The same between any two worlds of a run |
| `OutboundSafety.TimestampsAlwaysAgree` | apps/api/src/jobs/email.worker.ts:342-364 | In every reachable world failedAt is set exactly for the failed statuses, deliveredAt exactly for DELIVERED, sentAt for SENT and never for PENDING or SENDING |
| `OutboundSafety.AnnouncesWhatItWrites` | apps/api/src/jobs/email.worker.ts:500-505 | At every point of the program, what is announced when the affected count is 1 is exactly the status change committed, and a lost compare-and-set commits and announces nothing |
| `OutboundSafety.PublicationConserved` | apps/api/src/jobs/email.worker.ts:618-652 | In every reachable world, as multisets, committed changes = published + owed by a live process + lost to a failure |
| `OutboundSafety.FaultlessRunsPublishEverything` | apps/api/src/tickets/tickets.service.ts:1632-1649 | In runs without crash or failing call nothing is lost: committed = published + owed |
| `OutboundSafety.LedgerRecordsTheTable` | apps/api/src/email/outbound-email-events.service.ts:176-202 | A step changes at most one row, and the committed ledger grows by exactly that row's status change, creation included |
| `OutboundLease.LeaseSafety` | apps/api/src/jobs/email.worker.ts:659-734 | While attempts finish within ten minutes of the lastAttemptAt they wrote, at most one worker per delivery is between claim and finish, however old the staleBefore of a recovery run |
| `OutboundRecovery.NoStrandedDelivery` | apps/api/src/jobs/email.worker.ts:654-778 | Start a recovery run in any world and let every other process go on: its calls succeeding and a batch holding the backlog, it takes at most 1206 steps of its own, and once done every delivery that was PENDING or stale is PENDING with its one job neither failed nor completed, unless another process changed that delivery or its job meanwhile |
| `OutboundRecovery.RecoveryAlwaysPossible` | apps/api/src/jobs/email.worker.ts:654-778 | From any world there is such a run, of the recovery process alone, after which the delivery is requeued |
| `OutboundRecovery.RecoveryMakesProgress` | apps/api/src/jobs/jobs.service.ts:196-244 | Every step of a recovery run, queue calls included, shrinks its measure |
| `OutboundRetry.RetryTermination` | apps/api/src/jobs/email.worker.ts:512-614 | From any honest world a fresh job with N attempts, run alone, takes boundedly many steps, is never stuck, and ends with the delivery SENT or FAILED, at most N claims, and one provider call per claim (none for an unsendable delivery) |
| `OutboundRetry.RetryInReachableWorlds` | apps/api/src/jobs/email.worker.ts:512-614 | In every reachable world, without exception: boundedly many steps, never stuck, SENT or FAILED at the end, at most N claims, and exactly one provider call per claim |
| `OutboundRetry.AlwaysAsCreated` | apps/api/src/tickets/tickets.service.ts:1550-1580 | In every reachable world each delivery is of a member's public reply, and one without a recipient is FAILED |
| `OutboundRetry.JobMakesProgress` | apps/api/src/jobs/jobs.service.ts:225-243 | The measure, attempts left and steps left in the attempt, shrinks with every step |
| `OutboundEvents.FoldGivesExpected` | apps/api/src/email/outbound-email-events.service.ts:159-174 | Folding any list of webhooks, with duplicates, over a delivery gives the first terminal outcome, or else the highest status seen |
| `OutboundEvents.HighestIsLeastBound` | apps/api/src/email/outbound-email-events.service.ts:224-280 | The highest status is an upper bound of the non-terminal events and is one of them or the start |
| `OutboundEvents.OrderDoesNotMatter` | apps/api/src/email/outbound-email-events.service.ts:159-174 | With at most one distinct terminal outcome, any two orders of the same events give the same status |
| `OutboundEvents.OrderMattersOtherwise` | apps/api/src/email/outbound-email-events.service.ts:308-333 | With two different terminal outcomes, two orders of the same events differ: the condition is exact |
| `OutboundEvents.HandleOneByKind` | apps/api/src/email/outbound-email-events.service.ts:224-333 | A new event is recorded, fills in a missing provider id, and moves the row as its kind says: each of the seven kinds with its status, its timestamp and the statuses it may move |
| `OutboundWebhooks.AlwaysEffective` | apps/api/src/email/outbound-email-events.service.ts:109-174 | In every reachable world each recorded event has had its effect: the delivery of its mail stands at least as high as the event's status |
| `OutboundWebhooks.WebhooksConverge` | apps/api/src/email/outbound-email-events.service.ts:159-174 | So from any reachable world any further events of a delivery, repeats included, lead to the first terminal outcome or else the highest status, and with one outcome in any order |
| `OutboundWebhooks.HandlerRuns` | apps/api/src/email/outbound-email-events.service.ts:55-222 | A webhook handler of the machine left alone is one turn of the fold on the row it looks up by tag or provider id, announced exactly when the status changed |
| `DeliveryRow.ExecuteAdvances` | apps/api/src/jobs/email.worker.ts:546-605 | Every update statement advances the row and keeps its timestamps agreeing with its status |
| `DeliveryRow.StatusChangesExactlyOnMatch` | apps/api/src/jobs/email.worker.ts:456-498 | A statement changes the status exactly when its where-clause matches, the two provider id updates never |
| `EmailAttempt.AttemptOutcome` | apps/api/src/jobs/email.worker.ts:219-616 | With no failing database call: exactly when an attempt leaves a PENDING delivery SENT, PENDING again or FAILED, in terms of recipient, message, answer and status code, with the columns, the announcements and the verdict that go with it, and that it leaves any other delivery alone |
| `EmailAttempt.AttemptExactly` | apps/api/src/email/email.service.ts:150-187 | Every column, announcement and verdict of an attempt by what the provider answers: a refusal without a code, or with 408, 429 or 500 and more, is tried again while attempts remain, any other is given up |
| `EmailAttempt.WorkerFindsNothing` | apps/api/src/jobs/email.worker.ts:265-269 | A job whose delivery does not exist ends unrecoverably and changes no row |
| `EmailAttempt.AttemptIsSafe` | apps/api/src/jobs/email.worker.ts:219-616 | Whichever of the five database calls fail, before or after taking effect: exactly when the delivery is SENT, that returning means sent and announced, that a fatal verdict means FAILED, and that SENDING is left behind only after a failed call |
| `EmailAttempt.WorkerRunsAttempt` | apps/api/src/jobs/email.worker.ts:219-616 | A worker of the machine left alone, whatever its database calls and the provider do, leaves exactly this row, these announcements and this verdict, and its job ended by it |
| `EmailRecovery.QueueAllRevives` | apps/api/src/jobs/email.worker.ts:756-777 | After the queueing loop every reachable delivery has a live job and no other job was touched |
| `EmailRecovery.ResetAllResets` | apps/api/src/jobs/email.worker.ts:697-734 | After the reset loop exactly the listed stale rows are PENDING and every other row is unchanged |
| `EmailRecovery.NothingStranded` | apps/api/src/jobs/email.worker.ts:654-788 | The two queries and loops together requeue the whole backlog when it fits a batch, as an instance of the machine's recovery |
| `EmailRecovery.RecoveryRuns` | apps/api/src/jobs/email.worker.ts:654-788 | A recovery run of the machine left alone resets, announces and queues exactly what the two loops do, also when the queue cannot be reached for some deliveries |
| `EmailRecovery.EnsureRuns` | apps/api/src/jobs/jobs.service.ts:196-244 | The queue calls one by one, left alone, leave the queue as ensureEmailDeliveryQueued promises |
| `EmailWorker.Backend.ProcessTicketReply` | apps/api/src/jobs/email.worker.ts:219-616 | The new row, what was published, how many provider calls were made and how the attempt ended, for every input and every failure of its database calls; column by column when none fails |
| `EmailWorker.Backend.RunJob` | apps/api/src/jobs/jobs.service.ts:225-243 | Attempt after attempt a PENDING delivery ends SENT or FAILED within the allowed attempts, one provider call each, other rows untouched |
| `EmailWorker.Backend.ProcessRecovery` | apps/api/src/jobs/email.worker.ts:654-788 | Exactly the deliveries whose send began more than ten minutes ago become PENDING, all of them when a batch holds them, each announced; as many queue failures as unreachable deliveries; and with a reachable queue the whole backlog is requeued |
| `EmailWorker.Backend.EnsureEmailDeliveryQueued` | apps/api/src/jobs/jobs.service.ts:196-244 | One live job afterwards: a failed one revived as it is, a completed or missing one replaced by a fresh one of five attempts, others and other deliveries' left |
| `EmailWorker.Backend.HandleOutboundEvent` | apps/api/src/email/outbound-email-events.service.ts:55-222 | The row is found by tag, or else by provider id; a duplicate exactly when the event is recorded or its mail is another delivery's; a processed event is recorded, moves the row as its kind says, and is published exactly when the status changed |
| `TicketProtocol.AlwaysAudited` | apps/api/src/tickets/tickets.service.ts:748-825 | In every reachable world replaying the audit rows from OPEN gives each ticket's status, each recorded from is the status replayed so far, replayed tag rows give exactly the tag links, and OPEN and PENDING have no lifecycle timestamp, RESOLVED one, CLOSED both |
| `TicketProtocol.WriteStatusAudited` | apps/api/src/tickets/tickets.service.ts:748-825 | The compare-and-set on a status read earlier keeps log and state in step |
| `TicketProtocol.IngestAudited` | apps/api/src/email/inbound-email.service.ts:433-479 | So does the customer reply that reopens a ticket |
| `TicketProtocol.CreateLinkAudited` | apps/api/src/tickets/tickets.service.ts:1067-1092 | So does adding a tag, also when the link appeared meanwhile |
| `TicketProtocol.RemoveLinkAudited` | apps/api/src/tickets/tickets.service.ts:1155-1174 | So does removing one |
| `TicketProtocol.InboundExactlyOnce` | apps/api/src/email/inbound-email.service.ts:317-490 | However many copies of a webhook run, an email id has a message exactly when its event is PROCESSED, at most one, none once IGNORED; messages and PROCESSED events are equally many |
| `TicketProtocol.AlwaysExactlyOnce` | apps/api/src/email/inbound-email.service.ts:433-463 | Every reopening belongs to a PROCESSED event and no two to the same |
| `TicketProtocol.EventsAreFinal` | apps/api/src/email/inbound-email.service.ts:87-138 | An event row, once written, keeps its status |
| `TicketStore.TicketStore.UpdateStatus` | apps/api/src/tickets/tickets.service.ts:686-841 | Undisturbed it is exactly its protocol steps; succeeds exactly on the seven allowed transitions of the tenant's ticket, with the timestamps and the audit row; which refusal otherwise, changing nothing |
| `TicketStore.TicketStore.CompareAndSetStatus` | apps/api/src/tickets/tickets.service.ts:748-774 | Count 1 and the new row exactly when the status is still the one read |
| `TicketStore.TicketStore.AddTag` | apps/api/src/tickets/tickets.service.ts:1024-1110 | For the tenant's own ticket and tag the link is there afterwards, with an audit row exactly if it was new; otherwise which refusal, and nothing changes |
| `TicketStore.TicketStore.RemoveTag` | apps/api/src/tickets/tickets.service.ts:1112-1192 | For the tenant's own ticket and tag the link is gone afterwards, with an audit row exactly if it was there; otherwise which refusal, and nothing changes |
| `TicketStore.TicketStore.HandleReceivedEmail` | apps/api/src/email/inbound-email.service.ts:162-544 | A repeat changes nothing; a new mail is created exactly if the first ticket its recipients name exists, its customer has an address equal to the sender's normal form, and the body is not empty; otherwise which of the four reasons, in order; the event row, the message, the reopening and its audit row |
| `TicketStore.TicketStore.JudgeMail` | apps/api/src/email/inbound-email.service.ts:198-311 | The judgement spelled out from the provider's recipients and sender, or the webhook's where those are missing: the first ticket named, and then each reason in order |
| `TicketStore.AnswersExactly` | apps/api/src/email/inbound-email.service.ts:198-315 | For every mail: which answer, by the first ticket its recipients name, that ticket's customer, the sender and the body; created if and only if the mail is that customer's non-empty reply |
| `TicketStore.TicketStore.RecordIgnoredEvent` | apps/api/src/email/inbound-email.service.ts:87-138 | A repeat is a duplicate and never overwrites |
| `TicketStore.AcceptedMailIsAddressed` | apps/api/src/email/inbound-email-routing.ts:33-94 | A ticket found among recipients is a version 4 UUID and some recipient's normal form is its reply address |
| `ReplyAddress.ReplyAddressRoundTrip` | apps/api/src/email/inbound-email-routing.ts:4-94 | Extracting from the built address, bare or as name and angle-bracketed address, after non-matching recipients and before any others, gives the lower-cased id |
| `ReplyAddress.AcceptsExactlyReplyAddresses` | apps/api/src/email/inbound-email-routing.ts:49-90 | A recipient names a ticket if and only if its normal form is that ticket's reply address |
| `ReplyAddress.FirstMatchIsExtract` | apps/api/src/email/inbound-email-routing.ts:45-93 | The first matching recipient decides |
| `ReplyAddress.ExtractsFirstNamed` | apps/api/src/email/inbound-email-routing.ts:33-94 | The search returns a ticket if and only if it is the one the first naming recipient names, and nothing if and only if none names any |
| `ReplyAddress.BracketedIsLeftmost` | apps/api/src/email/inbound-email-routing.ts:10-18 | The bracketed part is the group of the leftmost match of the pattern, and there is one if anything matches |
| `ReplyAddress.TrimTakesEnds` | apps/api/src/email/inbound-email-routing.ts:7-20 | Trimming takes off exactly the white space at both ends |
| `ReplyAddress.LowerExactly` | apps/api/src/email/inbound-email-routing.ts:20-31 | Lower-casing moves the 26 ASCII capitals and nothing else |
| `ReplyAddress.SpaceCodes` | apps/api/src/email/inbound-email-routing.ts:7-19 | White space by its code points |
| `ReplyAddress.UuidPattern` | apps/api/src/email/inbound-email-routing.ts:1-2 | The version 4 pattern, group by group |
| `ReplyAddress.ExtractTicketIdFromRecipients` | apps/api/src/email/inbound-email-routing.ts:33-94 | The loop computes the search the other lemmas are about |
| `AttachmentSafety.MessagesHaveTheirAttachments` | apps/api/src/tickets/tickets.service.ts:1365-1424 | In every reachable world a message has all its requested attachments, uploaded, of its own ticket and organisation, within 50 MiB, and no others |
| `AttachmentSafety.LinksAreForGood` | apps/api/src/tickets/tickets.service.ts:1471-1510 | A linked row is never deleted, unlinked or moved, between any two worlds of a run |
| `AttachmentSafety.AlwaysLinked` | apps/api/src/attachments/attachments.service.ts:589-608 | The linking invariant in every world of every run of completions, rejections, cleanups and message creations |
| `AttachmentSafety.EveryObjectIsNamed` | apps/api/src/attachments/attachments.service.ts:491-522 | Whatever storage or database calls fail part-way, every stored object has a row naming it |
| `AttachmentProtocol.ObjectKeyInjective` | apps/api/src/attachments/attachments.service.ts:117-171 | Object keys of different attachments differ |
| `AttachmentProtocol.TotalBytesAdds` | apps/api/src/tickets/tickets.service.ts:1405-1424 | The bytes of a list of attachments are the sum of their sizes |
| `AttachmentPolicy.ParametersDoNotMatter` | apps/api/src/attachments/attachment-policy.ts:87-94 | A content type's parameters do not change what it is taken for |
| `AttachmentPolicy.TypeIsFirstPart` | apps/api/src/attachments/attachment-policy.ts:87-94 | A content type is taken for its text up to the first semicolon, trimmed and lower-cased |
| `AttachmentPolicy.AllowedExactly` | apps/api/src/attachments/attachment-policy.ts:16-33 | The ten allowed types |
| `AttachmentPolicy.EndingsExactly` | apps/api/src/attachments/attachment-policy.ts:38-85 | The one ending the file names of a type have |
| `AttachmentPolicy.JpegEndings` | apps/api/src/attachments/attachment-policy.ts:46-49 | The two of JPEG files |
| `AttachmentStore.CleanupDeletesExactly` | apps/api/src/attachments/attachments.service.ts:583-612 | Whichever storage and database calls fail: a row goes exactly if it is unlinked and its deletion took effect after its object's came back, and without failures every unlinked candidate goes |
| `AttachmentStore.CleanupRuns` | apps/api/src/attachments/attachments.service.ts:583-612 | The cleanup loop is the machine's cleanup process, step for step, under any failures |
| `AttachmentStore.ReadingRuns` | apps/api/src/attachments/attachments.service.ts:179-366 | What a completion of the machine left alone does to rows and objects, under any failures |
| `AttachmentStore.MessageRuns` | apps/api/src/tickets/tickets.service.ts:1320-1510 | What the message transaction of the machine left alone commits, under any failures |
| `AttachmentStore.AttachmentStore.CleanupAbandonedUploads` | apps/api/src/attachments/attachments.service.ts:524-622 | Exactly the machine's cleanup; rows go only when pending for more than an hour or uploaded and unlinked for more than a day, all of these when no call fails and a batch holds them; as many failures as candidates with a failing call; linked rows untouched; every object still named |
| `AttachmentStore.AttachmentStore.CompleteUpload` | apps/api/src/attachments/attachments.service.ts:179-366 | Exactly the machine's completion under any failures; without them which answer, in order: it succeeds for the tenant's row already UPLOADED or whose object has the row's size, its content type and its id, and any mismatch loses object and row; other rows untouched |
| `AttachmentStore.AttachmentStore.FinishUpload` | apps/api/src/attachments/attachments.service.ts:279-365 | The end of a completion in whatever state it finds the row: it may find another completion, a rejection or the cleanup was there first |
| `AttachmentStore.AttachmentStore.InitiateUpload` | apps/api/src/attachments/attachments.service.ts:49-177 | Which refusal, in which order; otherwise the machine's initiation; a URL is returned only for a row that is there, and a row whose URL could not be signed stays |
| `AttachmentStore.AttachmentStore.RejectInvalidUpload` | apps/api/src/attachments/attachments.service.ts:491-522 | The object's deletion, then the row's only if that came back: the state after a failure of either call, before or after it took effect |
| `AttachmentStore.AttachmentStore.CreateMessage` | apps/api/src/tickets/tickets.service.ts:1283-1671 | The machine's message transaction; message, links and delivery all or none under any failures; without them which refusal, in order, by ticket, attachments and 50 MiB; exactly the requested rows linked; the delivery's first row from the customer's address |
| `MembershipProtocol.AlwaysSound` | apps/api/src/invitations/invitations.service.ts:48-158 | In every reachable world each organisation has an owner, its members are one more than its accepted invitations, no two pending invitations share organisation and address, and acceptance precedes expiry, also with times read before the transaction |
| `MembershipProtocol.UpdateRoleSound` | apps/api/src/members/members.service.ts:94-122 | The last-owner guard keeps an owner |
| `MembershipProtocol.CreateOrganizationSound` | apps/api/src/organizations/organizations.service.ts:26-44 | The invariants are kept, and the founder is the one owner and the one member |
| `MembershipProtocol.CreateInvitationSound` | apps/api/src/invitations/invitations.service.ts:94-138 | A stale now cannot let a second pending invitation in |
| `MembershipProtocol.AcceptSound` | apps/api/src/invitations/invitations.service.ts:405-493 | Accepting keeps the invariants |
| `MembershipProtocol.AcceptAddsOne` | apps/api/src/invitations/invitations.service.ts:425-493 | Accepting adds exactly one member and one accepted invitation, both new |
| `MembershipProtocol.WriteCancelSound` | apps/api/src/invitations/invitations.service.ts:297-307 | The unconditional cancel keeps the invariants |
| `MembershipProtocol.BothExactlyWhenCancelling` | apps/api/src/invitations/invitations.service.ts:285-307 | An accepted invitation can come to be both accepted and cancelled if and only if a cancellation of it stands between its read and its write |
| `MembershipProtocol.BothMeansRaced` | apps/api/src/invitations/invitations.service.ts:285-307 | Every run that ends with an invitation both accepted and cancelled accepted it while a cancellation of it stood between its read and its write |
| `MembershipProtocol.AcceptedAndCanceledHappens` | apps/api/src/invitations/invitations.service.ts:297-307 | There is such a run |
| `MembershipProtocol.AcceptedOnce` | apps/api/src/invitations/invitations.service.ts:446-469 | acceptedAt, once written, never changes |
| `MembershipProtocol.PrivilegeNeedsOwner` | apps/api/src/members/members.service.ts:166-199 | An actor who is no owner never makes, changes or invites an owner or admin, and below admin changes nothing |
| `MembershipProtocol.StatusTells` | apps/api/src/invitations/invitations.service.ts:584-605 | When an invitation shows as accepted, cancelled or expired, and that waiting only ever turns pending into expired |
| `OrganizationStore.OrganizationStore.CreateForUser` | apps/api/src/organizations/organizations.service.ts:20-78 | One protocol step; the creator is the only member and owner |
| `OrganizationStore.OrganizationStore.UpdateRole` | apps/api/src/members/members.service.ts:50-164 | One protocol step, keeping the invariants; allowed for an owner, and for an admin among agents and viewers; refused as last owner exactly when nobody else is an owner and the target would stop being one; on success exactly this role changes |
| `OrganizationStore.OrganizationStore.CreateInvitation` | apps/api/src/invitations/invitations.service.ts:27-190 | One protocol step, keeping the invariants; which refusal, in which order, spelled out; what is created is pending, to the normal form of the address, for seven days |
| `OrganizationStore.OrganizationStore.Cancel` | apps/api/src/invitations/invitations.service.ts:241-346 | Read and write steps, keeping the invariants; which refusal, in which order; a second cancel changes nothing; the answer is cancelled |
| `OrganizationStore.OrganizationStore.Accept` | apps/api/src/invitations/invitations.service.ts:348-534 | One protocol step, keeping the invariants; which refusal, in which order, spelled out; success makes exactly this member, with the invited role |
| `OrganizationStore.OnlyOwner` | apps/api/src/members/members.service.ts:94-112 | Counting at most one owner means the target is the only one |
| `ProfileProtocol.ProfilesAreSafe` | apps/api/src/auth/auth0-userinfo.service.ts:42-91 | In every reachable world: at most 500 entries, at most one unsettled fetch per token, every profile returned was fetched with the caller's token and has the expected subject, and no promise is left in flight when no call waits |
| `ProfileProtocol.CachedAnswersAreRecent` | apps/api/src/auth/auth0-userinfo.service.ts:49-54 | A cached answer was stored by an earlier call of that key less than a minute before |
| `ProfileProtocol.StoreBounded` | apps/api/src/auth/auth0-userinfo.service.ts:69-83 | Storing keeps distinct keys and the bound, and forgets only what has expired and the oldest entry of a full cache |
| `ProfileProtocol.AlwaysSound` | apps/api/src/auth/auth0-userinfo.service.ts:58-90 | The cache, promise and call invariants, over every interleaving |
| `ProfileCache.ProfileCache.BeginCall` | apps/api/src/auth/auth0-userinfo.service.ts:42-63 | Up to the await: answered exactly from a live entry, with a mismatch refused and nothing fetched; otherwise waiting on the promise of the key, a new fetch only if there is none |
| `ProfileCache.ProfileCache.ResumeCall` | apps/api/src/auth/auth0-userinfo.service.ts:65-91 | From the await on, failures and the finally block included: the answer, the entry stored for a minute, the expired and at most one other entry gone, and the promise forgotten if it is the call's |
| `ProfileCache.ProfileCache.PurgeExpired` | apps/api/src/auth/auth0-userinfo.service.ts:69-73 | The loop that deletes while it iterates removes exactly the expired entries |
| `RealtimeRooms.RoomNamesNeverCollide` | apps/api/src/realtime/realtime.rooms.ts:1-21 | Different targets with UUID ids have different room names |
| `RealtimeRooms.UuidShape` | apps/api/src/realtime/realtime.gateway.ts:103-122 | The shape of the ids a request may carry, group by group |
| `RealtimeRooms.AlwaysTidy` | apps/api/src/realtime/realtime.gateway.ts:87-271 | After any requests a socket's rooms are exactly its user room and those of the organisations and tickets it has joined, and every joined ticket's organisation is joined |
| `RealtimeRooms.LeavingIsExact` | apps/api/src/realtime/realtime.gateway.ts:531-551 | Leaving or losing an organisation removes its room and all its ticket rooms, and no others |
| `RealtimeRooms.HearsWhatItJoined` | apps/api/src/realtime/realtime.rooms.ts:7-21 | A socket is in a room if and only if it has joined the target, and hears a ticket only while it hears its organisation |
| `RealtimeGateway.RealtimeSocket.JoinOrganization` | apps/api/src/realtime/realtime.gateway.ts:87-187 | One handler step; on success exactly this organisation's tenant and room are added; which refusal when, changing nothing |
| `RealtimeGateway.RealtimeSocket.LeaveOrganization` | apps/api/src/realtime/realtime.gateway.ts:189-271 | One handler step; on success exactly this organisation, its tickets and their rooms are gone; which refusal when, changing nothing |
| `RealtimeGateway.RealtimeSocket.JoinTicket` | apps/api/src/realtime/realtime.gateway.ts:431-667 | One handler step; on success exactly this ticket and its room are added and the tenant refreshed; a refusal past the membership check refreshes the tenant only; lost membership removes the organisation, its tickets and their rooms; which refusal when |
| `RealtimeGateway.RealtimeSocket.LeaveTicket` | apps/api/src/realtime/realtime.gateway.ts:669-783 | One handler step; on success exactly this ticket and its room are gone; which refusal when, changing nothing |
| `RealtimeGateway.RealtimeSocket.LeaveAllOrganizationTickets` | apps/api/src/realtime/realtime.gateway.ts:785-821 | In whatever order the tickets come, the organisation's tickets and rooms are gone and the rest stays |
| `Analytics.DailyVolumeConserves` | apps/api/src/analytics/analytics.service.ts:440-463 | One bucket per day of the window, today last, each with that day's counts; buckets, trend rows and tickets in the window have the same totals |
| `Analytics.DaysInCounts` | apps/api/src/analytics/analytics.service.ts:392-421 | The stamps counted are those between the window's ends, both included, each on its own UTC day |
| `Analytics.GetWindow` | apps/api/src/analytics/analytics.service.ts:381-390 | The window starts at a UTC midnight and spans exactly the range's days up to now |
| `Analytics.GroupsConserve` | apps/api/src/analytics/analytics.service.ts:297-305 | Grouped counts add up to the number of things grouped |
| `Analytics.FillCounts` | apps/api/src/analytics/analytics.service.ts:228-288 | The record loops give every enum value its count, absent groups zero |
| `Analytics.RatesAddUp` | apps/api/src/analytics/analytics.service.ts:526-532 | Delivery and failure rate add up to 100.00, or to 100.01 exactly on a tie |
| `Analytics.HundredthsIsNearest` | apps/api/src/analytics/analytics.service.ts:527-532 | A rate is the nearest hundredth of a percent, the upper of two equally near |
| `Analytics.EmailHealthOf` | apps/api/src/analytics/analytics.service.ts:512-543 | Health counts each delivery once; delivery and failure rate are the nearest hundredths of their shares of the finished ones, and exist exactly when some delivery is finished |

## Left out

- The web application, its routes and its query cache: rendering.
- Access token verification, object storage signing, and the transports of Resend, Redis and Socket.IO: only the
  contracts used are modelled (idempotency key, head and delete, job states, room join and leave).
- Dependency injection, request validation, API metadata, logging, health probes, seeding: declarative or I/O.
- Role permission tables and guards: finite; ticket read permission is a parameter of `RealtimeSocket.JoinTicket`.
- Turning an inbound mail's HTML into text: the body is a parameter of at most 100,000 characters.
- Unicode case folding: addresses fold ASCII letters only.
- The audit log's `createdAt` order: replay is in commit order, which concurrent transactions may date differently.
- Audit rows for assignment and field edits, membership and invitations; customer email uniqueness: their checks read
  outside the transaction that writes, or add only easy members.
- Whether FAILED means the provider never accepted the mail, and whether a linked attachment's object still exists:
  nothing is claimed about either.
- Broker failures while announcing a status: publishing always succeeds once reached; a crash before it is modelled.
- How long the queue keeps ended jobs and how it backs off: a job may be evicted, promoted or taken back at any time.
- EmailWorker.Backend.RunJob: assumes no failing database call; `EmailWorker.Backend.ProcessTicketReply` does not.
- EmailWorker.Backend.ProcessRecovery: its row statements do not fail; those of the machine do.
- EmailWorker.Backend.HandleOutboundEvent: its transaction fails only by the unique indexes; the machine's also otherwise.
- Database failures in the methods of `TicketStore` and `OrganizationStore`: each is one transaction after its reads.
- `Date.now()` read several times between two awaits of the profile cache: one value per stretch.
- Handlers of one socket interleaved at their awaits, and the UUID versions a validator may insist on: the shape is
  checked.
- Dates as text and leap seconds: a date is a day number.
- Floating point in the rates: exact arithmetic. Average resolution time and the sorted workload table.
- Pagination, tag normalisation, HTML escaping and file name clean-up (attachment names come cleaned); size limits that
  request validation sets.
